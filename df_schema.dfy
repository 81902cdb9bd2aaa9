/** `df_to_schema` of query.py: the text description of a data frame that is
    substituted into the system prompt. */
module DfSchema {
  import opened Strings

  /** A cell of a column as `str()` renders it: a value, or a missing value
      (NaN, None, NaT), which `nunique` ignores and `unique` keeps. */
  datatype Cell = Value(text: string) | Missing(shown: string)

  /** The answers of pandas' dtype predicates for a column's dtype. */
  datatype DType = DType(isInteger: bool, isFloat: bool, isBool: bool, isDatetime: bool)

  datatype Column = Column(name: string, dtype: DType, cells: seq<Cell>)

  /** The SQL-like type name; the dtype tests are tried in this order. */
  function SqlType(d: DType): (t: string)
    ensures t == "INTEGER" <==> d.isInteger
    ensures t == "FLOAT" <==> !d.isInteger && d.isFloat
    ensures t == "BOOLEAN" <==> !d.isInteger && !d.isFloat && d.isBool
    ensures t == "DATETIME" <==> !d.isInteger && !d.isFloat && !d.isBool && d.isDatetime
    ensures t == "TEXT" <==> !d.isInteger && !d.isFloat && !d.isBool && !d.isDatetime
  {
    assert "INTEGER"[0] != "BOOLEAN"[0];
    assert |"INTEGER"| != |"FLOAT"| && |"FLOAT"| != |"DATETIME"| && |"DATETIME"| != |"TEXT"|;
    assert |"INTEGER"| != |"DATETIME"| && |"INTEGER"| != |"TEXT"| && |"FLOAT"| != |"TEXT"|;
    assert |"FLOAT"| != |"BOOLEAN"| && |"BOOLEAN"| != |"DATETIME"| && |"BOOLEAN"| != |"TEXT"|;
    if d.isInteger then "INTEGER"
    else if d.isFloat then "FLOAT"
    else if d.isBool then "BOOLEAN"
    else if d.isDatetime then "DATETIME"
    else "TEXT"
  }

  /** `Series.unique()`: each distinct cell once, in order of first appearance. */
  function Distinct(cs: seq<Cell>): seq<Cell>
    decreases |cs|
  {
    if cs == [] then []
    else
      var d := Distinct(cs[..|cs| - 1]);
      if cs[|cs| - 1] in d then d else d + [cs[|cs| - 1]]
  }

  /** `Series.nunique()`: the number of distinct non-missing values. */
  function NUnique(cs: seq<Cell>): nat {
    |set c | c in cs && c.Value?|
  }

  /** The position where `x` first appears in `cs`. */
  function FirstIndex(cs: seq<Cell>, x: Cell): (k: nat)
    requires x in cs
    ensures k < |cs| && cs[k] == x && x !in cs[..k]
    decreases |cs|
  {
    if x in cs[..|cs| - 1] then
      var k := FirstIndex(cs[..|cs| - 1], x);
      assert cs[..|cs| - 1][..k] == cs[..k];
      k
    else |cs| - 1
  }

  predicate NoDuplicates(d: seq<Cell>) {
    forall i, j :: 0 <= i < j < |d| ==> d[i] != d[j]
  }

  /** `unique` lists every cell of the column, each exactly once, ordered by
      first appearance. */
  lemma {:induction false} DistinctProperties(cs: seq<Cell>)
    ensures forall x :: x in Distinct(cs) <==> x in cs
    ensures NoDuplicates(Distinct(cs))
    ensures forall i, j :: 0 <= i < j < |Distinct(cs)| ==>
      FirstIndex(cs, Distinct(cs)[i]) < FirstIndex(cs, Distinct(cs)[j])
    decreases |cs|
  {
    if cs != [] {
      var init := cs[..|cs| - 1];
      var last := cs[|cs| - 1];
      DistinctProperties(init);
      assert cs == init + [last];
      var d := Distinct(init);
      forall y | y in init
        ensures FirstIndex(cs, y) == FirstIndex(init, y)
      {
      }
      if last !in d {
        forall i | 0 <= i < |d|
          ensures FirstIndex(cs, d[i]) < FirstIndex(cs, last)
        {
          assert d[i] in init;
        }
      }
    }
  }

  /** Without duplicates, `unique` has as many entries as there are distinct cells. */
  lemma {:induction false} DistinctCount(cs: seq<Cell>)
    ensures |Distinct(cs)| == |set c | c in cs|
    decreases |cs|
  {
    if cs != [] {
      var init := cs[..|cs| - 1];
      var last := cs[|cs| - 1];
      DistinctCount(init);
      DistinctProperties(init);
      assert cs == init + [last];
      assert (set c | c in cs) == (set c | c in init) + {last};
      if last in init {
        assert (set c | c in cs) == (set c | c in init);
      } else {
        assert last !in (set c | c in init);
        assert |Distinct(cs)| == |Distinct(init)| + 1;
      }
    }
  }

  /** With no missing values, `unique` lists exactly `nunique` values. */
  lemma DistinctMatchesNUnique(cs: seq<Cell>)
    requires forall k :: 0 <= k < |cs| ==> cs[k].Value?
    ensures |Distinct(cs)| == NUnique(cs)
  {
    DistinctCount(cs);
    assert (set c | c in cs && c.Value?) == (set c | c in cs);
  }

  function Shown(c: Cell): string {
    match c
    case Value(t) => t
    case Missing(s) => s
  }

  /** `f"'{cat}'"` for each category. */
  function Quoted(cs: seq<Cell>): (qs: seq<string>)
    ensures |qs| == |cs|
    ensures forall k :: 0 <= k < |cs| ==> qs[k] == "'" + Shown(cs[k]) + "'"
  {
    if cs == [] then [] else ["'" + Shown(cs[0]) + "'"] + Quoted(cs[1..])
  }

  function ColumnLine(col: Column): string {
    "- " + col.name + " (" + SqlType(col.dtype) + ")"
  }

  function CategoricalLine(col: Column): string {
    "  Categorical values: " + Join(Quoted(Distinct(col.cells)), ", ")
  }

  predicate IsCategorical(col: Column, threshold: int) {
    SqlType(col.dtype) == "TEXT" && NUnique(col.cells) <= threshold
  }

  /** The lines one column contributes. */
  function ColumnLines(col: Column, threshold: int): seq<string> {
    [ColumnLine(col)] + if IsCategorical(col, threshold) then [CategoricalLine(col)] else []
  }

  function AllColumnLines(cols: seq<Column>, threshold: int): seq<string>
    decreases |cols|
  {
    if cols == [] then []
    else AllColumnLines(cols[..|cols| - 1], threshold) + ColumnLines(cols[|cols| - 1], threshold)
  }

  /** The list `schema` that `df_to_schema` joins. */
  function SchemaLines(name: string, cols: seq<Column>, threshold: int): seq<string> {
    ["Table: " + name, "Columns:"] + AllColumnLines(cols, threshold)
  }

  /** `df_to_schema(df, name, categorical_threshold)`. */
  method DfToSchema(name: string, cols: seq<Column>, threshold: int) returns (text: string)
    ensures text == Join(SchemaLines(name, cols, threshold), "\n")
  {
    var schema: seq<string> := [];
    schema := schema + ["Table: " + name];
    schema := schema + ["Columns:"];
    for i := 0 to |cols|
      invariant schema == SchemaLines(name, cols[..i], threshold)
    {
      var col := cols[i];
      var sqlType := SqlType(col.dtype);
      schema := schema + ["- " + col.name + " (" + sqlType + ")"];
      if sqlType == "TEXT" {
        var uniqueValues := NUnique(col.cells);
        if uniqueValues <= threshold {
          var categories := Distinct(col.cells);
          var categoriesStr := Join(Quoted(categories), ", ");
          schema := schema + ["  Categorical values: " + categoriesStr];
        }
      }
      assert cols[..i + 1][..i] == cols[..i];
    }
    assert cols[..|cols|] == cols;
    text := Join(schema, "\n");
  }

  /** The first two lines name the table and open the column list. */
  lemma SchemaHeader(name: string, cols: seq<Column>, threshold: int)
    ensures |SchemaLines(name, cols, threshold)| >= 2
    ensures SchemaLines(name, cols, threshold)[0] == "Table: " + name
    ensures SchemaLines(name, cols, threshold)[1] == "Columns:"
  {
  }

  lemma {:induction false} AllColumnLinesPrefix(cols: seq<Column>, i: nat, threshold: int)
    requires i <= |cols|
    ensures AllColumnLines(cols[..i], threshold) <= AllColumnLines(cols, threshold)
    decreases |cols|
  {
    if i < |cols| {
      var init := cols[..|cols| - 1];
      assert init[..i] == cols[..i];
      AllColumnLinesPrefix(init, i, threshold);
    } else {
      assert cols[..i] == cols;
    }
  }

  /** Column `i`'s block sits right after the blocks of the columns before it:
      its `- name (TYPE)` line, then a categorical-values line exactly when the
      column is TEXT with at most `threshold` distinct values. */
  lemma ColumnBlockAt(cols: seq<Column>, i: nat, threshold: int)
    requires i < |cols|
    ensures var all := AllColumnLines(cols, threshold);
      var o := |AllColumnLines(cols[..i], threshold)|;
      && |AllColumnLines(cols[..i + 1], threshold)| == o + (if IsCategorical(cols[i], threshold) then 2 else 1)
      && o < |all| && all[o] == "- " + cols[i].name + " (" + SqlType(cols[i].dtype) + ")"
      && (IsCategorical(cols[i], threshold) ==>
            o + 1 < |all| && all[o + 1] == "  Categorical values: " + Join(Quoted(Distinct(cols[i].cells)), ", "))
  {
    assert cols[..i + 1][..i] == cols[..i];
    AllColumnLinesPrefix(cols, i + 1, threshold);
  }

  /** Every column contributes one or two lines, so the column list holds at least one line per column. */
  lemma {:induction false} AllColumnLinesLength(cols: seq<Column>, threshold: int)
    ensures |cols| <= |AllColumnLines(cols, threshold)| <= 2 * |cols|
    decreases |cols|
  {
    if cols != [] {
      AllColumnLinesLength(cols[..|cols| - 1], threshold);
    }
  }

  predicate NoNewline(s: string) {
    '\n' !in s
  }

  lemma {:induction false} JoinNoNewline(parts: seq<string>, sep: string)
    requires NoNewline(sep)
    requires forall k :: 0 <= k < |parts| ==> NoNewline(parts[k])
    ensures NoNewline(Join(parts, sep))
    decreases |parts|
  {
    if |parts| > 1 {
      JoinNoNewline(parts[1..], sep);
    }
  }

  /** Only the names and the cell renderings can bring a newline into a line. */
  predicate PlainColumn(col: Column) {
    NoNewline(col.name) && forall k :: 0 <= k < |col.cells| ==> NoNewline(Shown(col.cells[k]))
  }

  lemma ConcatNoNewline(a: string, b: string)
    requires NoNewline(a) && NoNewline(b)
    ensures NoNewline(a + b)
  {
    forall i | 0 <= i < |a + b|
      ensures (a + b)[i] != '\n'
    {
      if i < |a| { assert (a + b)[i] == a[i]; } else { assert (a + b)[i] == b[i - |a|]; }
    }
  }

  lemma SqlTypeNoNewline(d: DType)
    ensures NoNewline(SqlType(d))
  {
  }

  lemma ColumnLinesNoNewline(col: Column, threshold: int)
    requires PlainColumn(col)
    ensures forall k :: 0 <= k < |ColumnLines(col, threshold)| ==> NoNewline(ColumnLines(col, threshold)[k])
  {
    SqlTypeNoNewline(col.dtype);
    ConcatNoNewline("- ", col.name);
    ConcatNoNewline("- " + col.name, " (");
    ConcatNoNewline("- " + col.name + " (", SqlType(col.dtype));
    ConcatNoNewline("- " + col.name + " (" + SqlType(col.dtype), ")");
    if IsCategorical(col, threshold) {
      var d := Distinct(col.cells);
      DistinctProperties(col.cells);
      forall k | 0 <= k < |d|
        ensures NoNewline(Quoted(d)[k])
      {
        assert d[k] in col.cells;
        ConcatNoNewline("'", Shown(d[k]));
        ConcatNoNewline("'" + Shown(d[k]), "'");
      }
      JoinNoNewline(Quoted(d), ", ");
      ConcatNoNewline("  Categorical values: ", Join(Quoted(d), ", "));
    }
  }

  lemma {:induction false} AllColumnLinesNoNewline(cols: seq<Column>, threshold: int)
    requires forall k :: 0 <= k < |cols| ==> PlainColumn(cols[k])
    ensures forall k :: 0 <= k < |AllColumnLines(cols, threshold)| ==> NoNewline(AllColumnLines(cols, threshold)[k])
    decreases |cols|
  {
    if cols != [] {
      AllColumnLinesNoNewline(cols[..|cols| - 1], threshold);
      ColumnLinesNoNewline(cols[|cols| - 1], threshold);
    }
  }

  /** When no name or value contains a newline, splitting the rendered text on
      newlines recovers exactly the lines `df_to_schema` built. */
  lemma SchemaTextSplits(name: string, cols: seq<Column>, threshold: int)
    requires NoNewline(name)
    requires forall k :: 0 <= k < |cols| ==> PlainColumn(cols[k])
    ensures Split(Join(SchemaLines(name, cols, threshold), "\n"), "\n") == SchemaLines(name, cols, threshold)
  {
    var lines := SchemaLines(name, cols, threshold);
    AllColumnLinesNoNewline(cols, threshold);
    forall k | 0 <= k < |lines|
      ensures '\n' !in lines[k]
    {
      if k >= 2 {
        assert lines[k] == AllColumnLines(cols, threshold)[k - 2];
      }
    }
    SplitJoinRoundTrip(lines, '\n');
  }
}

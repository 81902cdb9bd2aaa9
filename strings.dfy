/** Python's `str.replace`, `str.split` and `str.join` for a non-empty
    separator, with the facts that connect them. */
module Strings {

  /** `pat` occurs in `s` starting at index `i`. */
  predicate OccursAt(s: string, pat: string, i: int) {
    0 <= i && i + |pat| <= |s| && s[i..i + |pat|] == pat
  }

  predicate Occurs(s: string, pat: string) {
    exists i | 0 <= i <= |s| :: OccursAt(s, pat, i)
  }

  /** `s.replace(pat, rep)`: scans left to right and replaces every
      non-overlapping occurrence of `pat`. */
  function ReplaceAll(s: string, pat: string, rep: string): string
    requires pat != []
    decreases |s|
  {
    if |s| < |pat| then s
    else if s[..|pat|] == pat then rep + ReplaceAll(s[|pat|..], pat, rep)
    else [s[0]] + ReplaceAll(s[1..], pat, rep)
  }

  /** `s.split(pat)`: the pieces between the occurrences ReplaceAll finds. */
  function Split(s: string, pat: string): (parts: seq<string>)
    requires pat != []
    ensures |parts| >= 1 && parts[0] <= s
    decreases |s|
  {
    if |s| < |pat| then [s]
    else if s[..|pat|] == pat then [""] + Split(s[|pat|..], pat)
    else
      var r := Split(s[1..], pat);
      [[s[0]] + r[0]] + r[1..]
  }

  /** `sep.join(parts)`. */
  function Join(parts: seq<string>, sep: string): string
    decreases |parts|
  {
    if |parts| == 0 then ""
    else if |parts| == 1 then parts[0]
    else parts[0] + sep + Join(parts[1..], sep)
  }

  lemma JoinConsFirst(c: char, r: seq<string>, sep: string)
    requires |r| >= 1
    ensures Join([[c] + r[0]] + r[1..], sep) == [c] + Join(r, sep)
  {
    var parts := [[c] + r[0]] + r[1..];
    assert parts[1..] == r[1..];
  }

  /** Replacing every occurrence is joining the split pieces with the replacement. */
  lemma {:induction false} ReplaceAllIsJoinOfSplit(s: string, pat: string, rep: string)
    requires pat != []
    ensures ReplaceAll(s, pat, rep) == Join(Split(s, pat), rep)
    decreases |s|
  {
    if |s| < |pat| {
    } else if s[..|pat|] == pat {
      ReplaceAllIsJoinOfSplit(s[|pat|..], pat, rep);
      var r := Split(s[|pat|..], pat);
      assert ([""] + r)[1..] == r;
    } else {
      ReplaceAllIsJoinOfSplit(s[1..], pat, rep);
      JoinConsFirst(s[0], Split(s[1..], pat), rep);
    }
  }

  /** No piece of a split still contains the separator: every occurrence was cut out. */
  lemma {:induction false} SplitPiecesAreFree(s: string, pat: string)
    requires pat != []
    ensures forall k :: 0 <= k < |Split(s, pat)| ==> !Occurs(Split(s, pat)[k], pat)
    decreases |s|
  {
    var parts := Split(s, pat);
    if |s| < |pat| {
      assert parts == [s];
      assert forall i :: !OccursAt(s, pat, i);
    } else if s[..|pat|] == pat {
      SplitPiecesAreFree(s[|pat|..], pat);
      var r := Split(s[|pat|..], pat);
      assert parts == [""] + r;
      assert forall i :: !OccursAt("", pat, i);
      assert forall k :: 1 <= k < |parts| ==> parts[k] == r[k - 1];
    } else {
      SplitPiecesAreFree(s[1..], pat);
      var r := Split(s[1..], pat);
      var first := [s[0]] + r[0];
      assert parts == [first] + r[1..];
      assert first <= s;
      forall i | OccursAt(first, pat, i)
        ensures false
      {
        if i > 0 {
          assert first[i..i + |pat|] == r[0][i - 1..i - 1 + |pat|];
          assert OccursAt(r[0], pat, i - 1);
        }
      }
      assert forall k :: 1 <= k < |parts| ==> parts[k] == r[k];
    }
  }

  /** Joining the pieces with the separator itself gives the string back,
      so `s.replace(pat, pat) == s`. */
  lemma {:induction false} JoinSplitRoundTrip(s: string, pat: string)
    requires pat != []
    ensures Join(Split(s, pat), pat) == s
    ensures ReplaceAll(s, pat, pat) == s
    decreases |s|
  {
    if |s| < |pat| {
    } else if s[..|pat|] == pat {
      JoinSplitRoundTrip(s[|pat|..], pat);
      var r := Split(s[|pat|..], pat);
      assert ([""] + r)[1..] == r;
      assert s == pat + s[|pat|..];
    } else {
      JoinSplitRoundTrip(s[1..], pat);
      JoinConsFirst(s[0], Split(s[1..], pat), pat);
      assert s == [s[0]] + s[1..];
    }
    ReplaceAllIsJoinOfSplit(s, pat, pat);
  }

  /** A template without the placeholder is left as it is. */
  lemma {:induction false} ReplaceAbsent(s: string, pat: string, rep: string)
    requires pat != [] && !Occurs(s, pat)
    ensures ReplaceAll(s, pat, rep) == s
    decreases |s|
  {
    if |s| < |pat| {
    } else if s[..|pat|] == pat {
      assert OccursAt(s, pat, 0);
    } else {
      forall i | OccursAt(s[1..], pat, i)
        ensures false
      {
        assert s[1..][i..i + |pat|] == s[i + 1..i + 1 + |pat|];
        assert OccursAt(s, pat, i + 1);
      }
      ReplaceAbsent(s[1..], pat, rep);
      assert s == [s[0]] + s[1..];
    }
  }

  /** Splitting a string free of the one-character separator `c` gives it back whole. */
  lemma {:induction false} SplitFree(p: string, c: char)
    requires c !in p
    ensures Split(p, [c]) == [p]
    decreases |p|
  {
    if |p| >= 1 {
      assert p[..1] == [p[0]];
      SplitFree(p[1..], c);
      assert p == [p[0]] + p[1..];
    }
  }

  lemma {:induction false} SplitAfterFree(p: string, c: char, t: string)
    requires c !in p
    ensures Split(p + [c] + t, [c]) == [p] + Split(t, [c])
    decreases |p|
  {
    var s := p + [c] + t;
    if |p| == 0 {
      assert s[..1] == [c];
      assert s[1..] == t;
    } else {
      assert s[..1] == [p[0]];
      assert s[1..] == p[1..] + [c] + t;
      SplitAfterFree(p[1..], c, t);
      assert p == [p[0]] + p[1..];
    }
  }

  /** Joining lines with a one-character separator that no line contains
      and splitting again gives the lines back. */
  lemma {:induction false} SplitJoinRoundTrip(parts: seq<string>, c: char)
    requires |parts| >= 1
    requires forall k :: 0 <= k < |parts| ==> c !in parts[k]
    ensures Split(Join(parts, [c]), [c]) == parts
    decreases |parts|
  {
    if |parts| == 1 {
      SplitFree(parts[0], c);
    } else {
      SplitJoinRoundTrip(parts[1..], c);
      SplitAfterFree(parts[0], c, Join(parts[1..], [c]));
      assert parts == [parts[0]] + parts[1..];
    }
  }
}

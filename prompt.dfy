/** `system_prompt` of query.py: the prompt template with the data frame's
    schema text substituted for its placeholder. The template is the text
    of prompt.md, handed in as a value. */
module Prompt {
  import opened Strings
  import opened DfSchema
  import Query

  const Placeholder := "${SCHEMA}"

  /** The default `categorical_threshold`. */
  const DefaultThreshold := 10

  /** `template.replace("${SCHEMA}", schema)`. */
  function Render(template: string, schema: string): string {
    ReplaceAll(template, Placeholder, schema)
  }

  /** `system_prompt(df, name, categorical_threshold)`. */
  method SystemPrompt(template: string, cols: seq<Column>, name: string, threshold: int := DefaultThreshold) returns (msg: Query.Message)
    ensures msg == Query.SystemMsg(Render(template, Join(SchemaLines(name, cols, threshold), "\n")))
  {
    var schema := DfToSchema(name, cols, threshold);
    msg := Query.SystemMsg(ReplaceAll(template, Placeholder, schema));
  }

  /** The rendered prompt is the template cut at every placeholder and glued
      back together with the schema text; no piece of the template that is
      kept contains a placeholder, a template without one is left as it is,
      and substituting the placeholder for itself changes nothing. */
  lemma RenderReplacesEvery(template: string, schema: string)
    ensures Render(template, schema) == Join(Split(template, Placeholder), schema)
    ensures forall k :: 0 <= k < |Split(template, Placeholder)| ==> !Occurs(Split(template, Placeholder)[k], Placeholder)
    ensures !Occurs(template, Placeholder) ==> Render(template, schema) == template
    ensures Render(template, Placeholder) == template
  {
    ReplaceAllIsJoinOfSplit(template, Placeholder, schema);
    SplitPiecesAreFree(template, Placeholder);
    if !Occurs(template, Placeholder) {
      ReplaceAbsent(template, Placeholder, schema);
    }
    JoinSplitRoundTrip(template, Placeholder);
  }
}

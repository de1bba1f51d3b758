/**
 * How the builder derives a model name from a joined table: the table's
 * text is singularised and turned into StudlyCase, and leading 'Z'
 * characters are then trimmed off.
 */
module Naming {

  /** A joined table: a plain name, or a raw SQL expression, given here by
      the text the active query grammar renders it to. */
  datatype Table = Plain(name: string) | Raw(rendered: string)

  /** The string helpers used on table names (Str::singular, Str::studly). */
  datatype Inflector = Inflector(singular: string -> string, studly: string -> string)

  /** The text of a table: its name, or the rendered text of an expression. */
  function TableText(t: Table): string
  {
    match t
    case Plain(name) => name
    case Raw(rendered) => rendered
  }

  /** getModelName: the StudlyCase singular of the table's text. */
  function ModelName(inflector: Inflector, t: Table): string
  {
    inflector.studly(inflector.singular(TableText(t)))
  }

  predicate StartsWithZ(s: string)
  {
    |s| > 0 && s[0] == 'Z'
  }

  /** PHP's ltrim with a one-character list: drops every leading c. */
  function LTrim(s: string, c: char): (r: string)
    ensures |r| <= |s| && r == s[|s| - |r|..]
    ensures forall k :: 0 <= k < |s| - |r| ==> s[k] == c
    ensures r == [] || r[0] != c
    decreases |s|
  {
    if |s| > 0 && s[0] == c then LTrim(s[1..], c) else s
  }

  /** The model-name normalisation of checkSoftDelete: the result is s
      without its maximal run of leading 'Z's (a suffix of s, only 'Z's
      removed, not starting with 'Z'), and s itself when it has none. */
  function StripZ(s: string): (r: string)
    ensures |r| <= |s| && r == s[|s| - |r|..]
    ensures forall k :: 0 <= k < |s| - |r| ==> s[k] == 'Z'
    ensures !StartsWithZ(r)
    ensures !StartsWithZ(s) ==> r == s
  {
    if StartsWithZ(s) then LTrim(s, 'Z') else s
  }

  /** The str_starts_with guard is redundant: trimming alone gives the same name. */
  lemma StripZIsLTrim(s: string)
    ensures StripZ(s) == LTrim(s, 'Z')
  {
  }

  lemma StripZIdempotent(s: string)
    ensures StripZ(StripZ(s)) == StripZ(s)
  {
  }

  /** A 'Z'-prefixed name normalises to the same name as its unprefixed form. */
  lemma StripZPrefix(s: string)
    ensures StripZ(['Z'] + s) == StripZ(s)
  {
    assert (['Z'] + s)[1..] == s;
    StripZIsLTrim(s);
  }
}

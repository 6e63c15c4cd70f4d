/**
 * scripts/sanitize-resources.ts: every legacy post body is rewritten with
 * `replaceAll(/[‘’]/g, "'")` followed by `replace(/\xa0/g, " ")`.
 */
module SanitizeResources {

  const LeftQuote: char := '\U{2018}'
  const RightQuote: char := '\U{2019}'
  const NoBreakSpace: char := '\U{A0}'

  predicate IsCurlyQuote(c: char) {
    c == LeftQuote || c == RightQuote
  }

  /** The character that `c` becomes under both replacements. */
  function Sanitized(c: char): char {
    if IsCurlyQuote(c) then '\'' else if c == NoBreakSpace then ' ' else c
  }

  /** `replaceAll(/[‘’]/g, "'")`. */
  function ReplaceCurlyQuotes(s: string): (r: string)
    ensures |r| == |s|
    ensures forall k :: 0 <= k < |s| ==> r[k] == if IsCurlyQuote(s[k]) then '\'' else s[k]
  {
    if s == [] then [] else [if IsCurlyQuote(s[0]) then '\'' else s[0]] + ReplaceCurlyQuotes(s[1..])
  }

  /** `replace(/\xa0/g, " ")`. */
  function ReplaceNoBreakSpaces(s: string): (r: string)
    ensures |r| == |s|
    ensures forall k :: 0 <= k < |s| ==> r[k] == if s[k] == NoBreakSpace then ' ' else s[k]
  {
    if s == [] then [] else [if s[0] == NoBreakSpace then ' ' else s[0]] + ReplaceNoBreakSpaces(s[1..])
  }

  /** The transform applied to a file's content. */
  function Sanitize(text: string): string {
    ReplaceNoBreakSpaces(ReplaceCurlyQuotes(text))
  }

  /** One character for one character: the length is kept and position `k` holds `Sanitized(text[k])`. */
  lemma SanitizePointwise(text: string)
    ensures |Sanitize(text)| == |text|
    ensures forall k :: 0 <= k < |text| ==> Sanitize(text)[k] == Sanitized(text[k])
  {
  }

  /** No curly single quote and no no-break space is left. */
  lemma SanitizeLeavesNoneBehind(text: string)
    ensures forall k :: 0 <= k < |Sanitize(text)| ==> !IsCurlyQuote(Sanitize(text)[k]) && Sanitize(text)[k] != NoBreakSpace
  {
    SanitizePointwise(text);
  }

  /** Every other character stays where it was. */
  lemma SanitizeKeepsOthers(text: string, k: nat)
    requires k < |text| && !IsCurlyQuote(text[k]) && text[k] != NoBreakSpace
    ensures |Sanitize(text)| == |text| && Sanitize(text)[k] == text[k]
  {
    SanitizePointwise(text);
  }

  /** Running the script a second time changes nothing. */
  lemma SanitizeIdempotent(text: string)
    ensures Sanitize(Sanitize(text)) == Sanitize(text)
  {
    SanitizePointwise(text);
    SanitizePointwise(Sanitize(text));
  }
}

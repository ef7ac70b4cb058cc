/**
  Escaping of property values before they are embedded between double quotes
  in the generated script: every `"` becomes `\"`, nothing else changes.
 */
module Escape {

  const Quote: char := '"'
  const Backslash: char := '\\'

  /** Number of double quotes in `s`. */
  function QuoteCount(s: string): nat
    decreases |s|
  {
    if s == [] then 0
    else (if s[0] == Quote then 1 else 0) + QuoteCount(s[1..])
  }

  /** `String.replace("\"", "\\\"")`: a backslash goes in front of every quote. */
  function EscapeQuotes(s: string): (r: string)
    ensures |r| == |s| + QuoteCount(s)
    ensures forall i :: 0 <= i < |r| && r[i] == Quote ==> 0 < i && r[i - 1] == Backslash
    ensures QuoteCount(r) == QuoteCount(s)
    decreases |s|
  {
    if s == [] then []
    else
      var rest := EscapeQuotes(s[1..]);
      if s[0] == Quote then
        assert ([Backslash, Quote] + rest)[1..] == [Quote] + rest;
        [Backslash, Quote] + rest
      else
        assert ([s[0]] + rest)[1..] == rest;
        [s[0]] + rest
  }

  /** Deletes every backslash that directly precedes a quote. */
  function Unescape(r: string): string
    decreases |r|
  {
    if |r| >= 2 && r[0] == Backslash && r[1] == Quote then [Quote] + Unescape(r[2..])
    else if r == [] then []
    else [r[0]] + Unescape(r[1..])
  }

  /** Escaping loses nothing: undoing it gives back the original value. */
  lemma {:induction false} UnescapeEscape(s: string)
    ensures Unescape(EscapeQuotes(s)) == s
    decreases |s|
  {
    if s != [] {
      var rest := EscapeQuotes(s[1..]);
      UnescapeEscape(s[1..]);
      if s[0] == Quote {
        assert EscapeQuotes(s) == [Backslash, Quote] + rest;
        assert (([Backslash, Quote] + rest)[2..]) == rest;
      } else {
        assert EscapeQuotes(s) == [s[0]] + rest;
        assert ([s[0]] + rest)[1..] == rest;
        if s[0] == Backslash && rest != [] {
          // the escaped rest never begins with a bare quote
          assert rest[0] != Quote;
        }
      }
      assert s == [s[0]] + s[1..];
    }
  }

  /** Escaping is injective: distinct values render distinctly. */
  lemma EscapeInjective(a: string, b: string)
    requires EscapeQuotes(a) == EscapeQuotes(b)
    ensures a == b
  {
    UnescapeEscape(a);
    UnescapeEscape(b);
  }

  /** A value without quotes is embedded verbatim. */
  lemma {:induction false} EscapeWithoutQuotes(s: string)
    requires QuoteCount(s) == 0
    ensures EscapeQuotes(s) == s
    decreases |s|
  {
    if s != [] {
      EscapeWithoutQuotes(s[1..]);
      assert s == [s[0]] + s[1..];
    }
  }
}

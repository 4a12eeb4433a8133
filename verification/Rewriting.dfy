/** Leftmost, non-overlapping rewriting of text, as `Regex::replace_all` does it,
    for any pattern given by the length of the match at the head of a text. */
module Rewriting {
  /** Length of the match at the head of a text; 0 when there is none. */
  type Matcher = string -> nat

  predicate Hit(find: Matcher, s: string) { 0 < find(s) <= |s| }

  /** One pass of a left-to-right scanner over the text. */
  function ReplaceAll(find: Matcher, value: string -> string, s: string): string {
    if s == "" then ""
    else if Hit(find, s) then value(s[..find(s)]) + ReplaceAll(find, value, s[find(s)..])
    else [s[0]] + ReplaceAll(find, value, s[1..])
  }

  // ------------------------------------------------------------ tokenization

  datatype Token = Lit(c: char) | Hole(text: string)

  function TextOf(t: Token): string { if t.Lit? then [t.c] else t.text }

  function Text(tokens: seq<Token>): string {
    if tokens == [] then "" else TextOf(tokens[0]) + Text(tokens[1..])
  }

  /** Left to right, each token is the match at its place if there is one there, and a single
      character if there is none: the leftmost, non-overlapping reading of the text. */
  ghost predicate Canonical(find: Matcher, tokens: seq<Token>)
    decreases |tokens|
  {
    tokens != [] ==>
      && (tokens[0].Lit? <==> !Hit(find, Text(tokens)))
      && (tokens[0].Hole? ==> find(Text(tokens)) == |tokens[0].text|)
      && Canonical(find, tokens[1..])
  }

  function Tokens(find: Matcher, s: string): seq<Token> {
    if s == "" then []
    else if Hit(find, s) then [Hole(s[..find(s)])] + Tokens(find, s[find(s)..])
    else [Lit(s[0])] + Tokens(find, s[1..])
  }

  /** Literals as they are, matches by their values. */
  function Values(value: string -> string, tokens: seq<Token>): string {
    if tokens == [] then ""
    else (if tokens[0].Lit? then [tokens[0].c] else value(tokens[0].text)) + Values(value, tokens[1..])
  }

  lemma {:induction false} TokensAreCanonical(find: Matcher, s: string)
    ensures Text(Tokens(find, s)) == s && Canonical(find, Tokens(find, s))
    decreases |s|
  {
    if s != "" {
      var n := if Hit(find, s) then find(s) else 1;
      TokensAreCanonical(find, s[n..]);
      assert s == s[..n] + s[n..];
      assert Tokens(find, s)[1..] == Tokens(find, s[n..]);
    }
  }

  /** A text has one canonical tokenization. */
  lemma {:induction false} TokensAreUnique(find: Matcher, tokens: seq<Token>)
    requires Canonical(find, tokens)
    ensures tokens == Tokens(find, Text(tokens))
    decreases |tokens|
  {
    if tokens != [] {
      var s := Text(tokens);
      var n := |TextOf(tokens[0])|;
      assert s[..n] == TextOf(tokens[0]) && s[n..] == Text(tokens[1..]);
      TokensAreUnique(find, tokens[1..]);
    }
  }

  /** Main result: the scanner's output is the concatenation of the values of the text's unique
      tokenization, whatever the values contain: all places are rewritten at once, and nothing
      that was inserted is looked at again. */
  lemma {:induction false} ReplaceIsSimultaneous(find: Matcher, value: string -> string, tokens: seq<Token>)
    requires Canonical(find, tokens)
    ensures ReplaceAll(find, value, Text(tokens)) == Values(value, tokens)
    decreases |tokens|
  {
    if tokens != [] {
      var s := Text(tokens);
      var n := |TextOf(tokens[0])|;
      assert s[..n] == TextOf(tokens[0]) && s[n..] == Text(tokens[1..]);
      ReplaceIsSimultaneous(find, value, tokens[1..]);
    }
  }

  /** When every match is its own value the text stays as it is. */
  lemma {:induction false} IdentityValues(value: string -> string, tokens: seq<Token>)
    requires forall t :: t in tokens && t.Hole? ==> value(t.text) == t.text
    ensures Values(value, tokens) == Text(tokens)
    decreases |tokens|
  {
    if tokens != [] {
      assert tokens[0] in tokens;
      IdentityValues(value, tokens[1..]);
    }
  }
}

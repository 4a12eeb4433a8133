/** Template interpolation (`template.rs`): two rewriting passes over a template. */
module Template {
  import opened Rewriting

  /** The process environment, and the characters the pattern class `\w` accepts. */
  datatype Env = Env(vars: map<string, string>, word: char -> bool)

  predicate NameStart(c: char) { 'a' <= c <= 'z' || 'A' <= c <= 'Z' || c == '_' }

  predicate NameChar(c: char) { NameStart(c) || '0' <= c <= '9' }

  /** Length of the longest prefix whose characters all satisfy `p`. */
  function Span(p: char -> bool, s: string): (n: nat)
    ensures n <= |s|
    ensures forall i :: 0 <= i < n ==> p(s[i])
    ensures n < |s| ==> !p(s[n])
  {
    if s != "" && p(s[0]) then 1 + Span(p, s[1..]) else 0
  }

  /** `\{([a-zA-Z_][a-zA-Z0-9_]*)\}` */
  function VarMatch(s: string): (n: nat)
    ensures n <= |s|
  {
    if |s| < 3 || s[0] != '{' || !NameStart(s[1]) then 0
    else
      var k := Span(NameChar, s[1..]);
      if 1 + k < |s| && s[1 + k] == '}' then k + 2 else 0
  }

  /** `\$\{(\w+):-([^}]*)\}` */
  function EnvMatch(env: Env, s: string): (n: nat)
    ensures n <= |s|
  {
    if |s| < 2 || s[0] != '$' || s[1] != '{' then 0
    else
      var k := Span(env.word, s[2..]);
      var colon := 2 + k;
      if k == 0 || |s| < colon + 2 || s[colon] != ':' || s[colon + 1] != '-' then 0
      else
        var d := Span(c => c != '}', s[colon + 2..]);
        if colon + 2 + d < |s| then colon + 3 + d else 0
  }

  /** The value of a matched `{name}`: looked up, or the text itself. */
  function VarValue(vars: map<string, string>, text: string): string {
    if |text| < 2 then text
    else
      var name := text[1..|text| - 1];
      if name in vars then vars[name] else text
  }

  /** The value of a matched `${NAME:-default}`. */
  function EnvValue(env: Env, text: string): string {
    if |text| < 2 then text
    else
      var k := Span(env.word, text[2..]);
      var name := text[2..2 + k];
      if name in env.vars then env.vars[name]
      else if k + 5 <= |text| then text[k + 4..|text| - 1]
      else text
  }

  function EnvPass(env: Env, s: string): string {
    ReplaceAll((t: string) => EnvMatch(env, t), (t: string) => EnvValue(env, t), s)
  }

  function VarPass(vars: map<string, string>, s: string): string {
    ReplaceAll(VarMatch, (t: string) => VarValue(vars, t), s)
  }

  /** Environment placeholders first, wholly; template variables after. */
  function Interpolate(env: Env, template: string, vars: map<string, string>): string {
    VarPass(vars, EnvPass(env, template))
  }

  // ------------------------------------------------------ what the patterns match

  predicate IsName(name: string) {
    name != "" && NameStart(name[0]) && forall i :: 0 <= i < |name| ==> NameChar(name[i])
  }

  predicate IsWord(env: Env, name: string) { name != "" && forall i :: 0 <= i < |name| ==> env.word(name[i]) }

  /** The characters of names, by code point: small and capital letters, the underscore, and behind the first
      character the figures; no dash, no dot, no blank. */
  lemma NameCharactersAre(c: char)
    ensures NameStart(c) <==> 97 <= c as int <= 122 || 65 <= c as int <= 90 || c as int == 95
    ensures NameChar(c) <==>
              97 <= c as int <= 122 || 65 <= c as int <= 90 || c as int == 95 || 48 <= c as int <= 57
    ensures NameStart('a') && NameStart('z') && NameStart('A') && NameStart('Z') && NameStart('_')
    ensures !NameStart('0') && !NameStart('9') && NameChar('0') && NameChar('9')
    ensures !NameChar('-') && !NameChar('.') && !NameChar(' ')
  {
  }

  /** A template that is one placeholder of a known name is that name's value. */
  lemma PlaceholderIsFilled(vars: map<string, string>, name: string)
    requires IsName(name) && name in vars
    ensures VarPass(vars, Placeholder(name)) == vars[name]
  {
    var text := Placeholder(name);
    assert text + "" == text;
    VarMatchesPlaceholder(name, "");
    VarPlaceholderValue(vars, name);
    assert text[..|text|] == text && text[|text|..] == "";
    assert Hit(VarMatch, text);
    var value := (t: string) => VarValue(vars, t);
    assert ReplaceAll(VarMatch, value, text) == value(text) + ReplaceAll(VarMatch, value, "");
    assert vars[name] + "" == vars[name];
  }

  /** The engine's own variables have names that are filled in. */
  lemma EngineNamesAreFilled(vars: map<string, string>, name: string)
    requires name in ["pipeline_id", "name", "workspace", "prompt"] && name in vars
    ensures VarPass(vars, "{" + name + "}") == vars[name]
  {
    PlaceholderIsFilled(vars, name);
  }

  /** A text of one placeholder that is not a name, for a character in it, stays as it is. */
  lemma OddNamesStay(vars: map<string, string>, c: char)
    requires c == '-' || c == '.' || c == ' ' || c == '0'
    ensures VarPass(vars, "{" + [c] + "}") == "{" + [c] + "}"
  {
    NameCharactersAre(c);
    var text := "{" + [c] + "}";
    assert text[1..] == [c] + "}" && text[1..][1..] == "}" && "}"[1..] == "";
    var value := (t: string) => VarValue(vars, t);
    assert !Hit(VarMatch, text) && !Hit(VarMatch, [c] + "}") && !Hit(VarMatch, "}");
    assert ReplaceAll(VarMatch, value, "}") == "}" + ReplaceAll(VarMatch, value, "");
    assert ReplaceAll(VarMatch, value, [c] + "}") == [c] + ReplaceAll(VarMatch, value, "}");
    assert ReplaceAll(VarMatch, value, text) == "{" + ReplaceAll(VarMatch, value, [c] + "}");
  }

  function Placeholder(name: string): string { "{" + name + "}" }

  function EnvPlaceholder(name: string, default: string): string { "${" + name + ":-" + default + "}" }

  lemma {:induction false} SpanIs(p: char -> bool, a: string, b: string)
    requires forall i :: 0 <= i < |a| ==> p(a[i])
    requires b != "" ==> !p(b[0])
    ensures Span(p, a + b) == |a|
    decreases |a|
  {
    if a == "" {
      assert a + b == b;
    } else {
      assert (a + b)[1..] == a[1..] + b;
      SpanIs(p, a[1..], b);
    }
  }

  /** The variable pattern matches `{name}` at the head of a text, and nothing else. */
  lemma VarMatchesPlaceholder(name: string, rest: string)
    requires IsName(name)
    ensures VarMatch(Placeholder(name) + rest) == |Placeholder(name)|
  {
    var s := Placeholder(name) + rest;
    assert s[1..] == name + ("}" + rest);
    SpanIs(NameChar, name, "}" + rest);
  }

  /** Its value: what the name stands for, or the placeholder itself when the name is unknown. */
  lemma VarPlaceholderValue(vars: map<string, string>, name: string)
    ensures VarValue(vars, Placeholder(name)) == if name in vars then vars[name] else Placeholder(name)
  {
    PlaceholderName(name);
  }

  lemma VarMatchIsPlaceholder(s: string) returns (name: string)
    requires VarMatch(s) > 0
    ensures IsName(name) && s[..VarMatch(s)] == Placeholder(name)
  {
    var k := Span(NameChar, s[1..]);
    name := s[1..1 + k];
    assert forall i :: 0 <= i < k ==> s[1..][i] == s[1 + i];
  }

  /** The environment pattern matches `${NAME:-default}` at the head of a text, and nothing else. */
  lemma EnvMatchesPlaceholder(env: Env, name: string, default: string, rest: string)
    requires IsWord(env, name) && !env.word(':') && '}' !in default
    ensures EnvMatch(env, EnvPlaceholder(name, default) + rest) == |EnvPlaceholder(name, default)|
  {
    var s := EnvPlaceholder(name, default) + rest;
    assert s[2..] == name + (":-" + default + "}" + rest);
    SpanIs(env.word, name, ":-" + default + "}" + rest);
    assert s[2 + |name| + 2..] == default + ("}" + rest);
    SpanIs(c => c != '}', default, "}" + rest);
  }

  /** Its value: the variable's, or the default when it is not set. */
  lemma EnvPlaceholderValue(env: Env, name: string, default: string)
    requires IsWord(env, name) && !env.word(':')
    ensures EnvValue(env, EnvPlaceholder(name, default)) == if name in env.vars then env.vars[name] else default
  {
    var text := EnvPlaceholder(name, default);
    assert text[2..] == name + (":-" + default + "}");
    SpanIs(env.word, name, ":-" + default + "}");
    assert text[2..2 + |name|] == name;
    assert text[|name| + 4..|text| - 1] == default;
  }

  lemma EnvMatchIsPlaceholder(env: Env, s: string) returns (name: string, default: string)
    requires EnvMatch(env, s) > 0
    ensures IsWord(env, name) && '}' !in default && s[..EnvMatch(env, s)] == EnvPlaceholder(name, default)
  {
    var k := Span(env.word, s[2..]);
    name := s[2..2 + k];
    var tail := s[k + 4..];
    var d := Span(c => c != '}', tail);
    default := tail[..d];
    assert forall i :: 0 <= i < k ==> s[2..][i] == s[2 + i];
    EnvPieces(s, k, d);
  }

  lemma EnvPieces(s: string, k: nat, d: nat)
    requires k + 5 + d <= |s| && s[..2] == "${" && s[2 + k] == ':' && s[3 + k] == '-' && s[k + 4 + d] == '}'
    ensures s[..k + 5 + d] == EnvPlaceholder(s[2..2 + k], s[k + 4..][..d])
  {
    assert s[k + 4..][..d] == s[k + 4..k + 4 + d];
  }

  // ---------------------------------------------------------------- the passes

  /** Main result: interpolation reads the template once for environment placeholders, then reads
      that result once for variables; each pass puts all its values in at once. */
  lemma InterpolateIsTwoPasses(env: Env, template: string, vars: map<string, string>)
    ensures var find := (t: string) => EnvMatch(env, t);
            var expanded := Values((t: string) => EnvValue(env, t), Tokens(find, template));
            && EnvPass(env, template) == expanded
            && Interpolate(env, template, vars) == Values((t: string) => VarValue(vars, t), Tokens(VarMatch, expanded))
  {
    var find := (t: string) => EnvMatch(env, t);
    var value := (t: string) => EnvValue(env, t);
    TokensAreCanonical(find, template);
    ReplaceIsSimultaneous(find, value, Tokens(find, template));
    EnvPassIs(env, template, find, value);
    var expanded := EnvPass(env, template);
    TokensAreCanonical(VarMatch, expanded);
    VarPassIs(vars, expanded, Tokens(VarMatch, expanded));
  }

  lemma EnvPassIs(env: Env, s: string, find: Matcher, value: string -> string)
    requires forall t :: find(t) == EnvMatch(env, t)
    requires forall t :: value(t) == EnvValue(env, t)
    ensures EnvPass(env, s) == ReplaceAll(find, value, s)
  {
    SamePass((t: string) => EnvMatch(env, t), (t: string) => EnvValue(env, t), find, value, s);
  }

  lemma {:induction false} SamePass(f: Matcher, g: string -> string, find: Matcher, value: string -> string, s: string)
    requires forall t :: f(t) == find(t)
    requires forall t :: g(t) == value(t)
    ensures ReplaceAll(f, g, s) == ReplaceAll(find, value, s)
    decreases |s|
  {
    if s != "" {
      SamePass(f, g, find, value, if Hit(f, s) then s[f(s)..] else s[1..]);
    }
  }

  lemma VarPassIs(vars: map<string, string>, s: string, tokens: seq<Token>)
    requires Canonical(VarMatch, tokens) && Text(tokens) == s
    ensures VarPass(vars, s) == Values((t: string) => VarValue(vars, t), tokens)
  {
    ReplaceIsSimultaneous(VarMatch, (t: string) => VarValue(vars, t), tokens);
  }

  /** The names a text asks for. */
  ghost predicate AsksFor(s: string, name: string) { Hole(Placeholder(name)) in Tokens(VarMatch, s) }

  lemma {:induction false} HolesAreNames(tokens: seq<Token>, t: Token) returns (name: string)
    requires Canonical(VarMatch, tokens) && t in tokens && t.Hole?
    ensures IsName(name) && t == Hole(Placeholder(name))
    decreases |tokens|
  {
    if tokens[0] == t {
      name := VarMatchIsPlaceholder(Text(tokens));
      assert Text(tokens)[..|t.text|] == t.text;
    } else {
      assert t in tokens[1..];
      name := HolesAreNames(tokens[1..], t);
    }
  }

  lemma PlaceholderName(name: string)
    ensures Placeholder(name)[1..|Placeholder(name)| - 1] == name
  {
  }

  /** Unknown names are left alone: a text that asks for no known name stays as it is. */
  lemma UnknownNamesStay(vars: map<string, string>, s: string)
    requires forall name :: AsksFor(s, name) ==> name !in vars
    ensures VarPass(vars, s) == s
  {
    var tokens := Tokens(VarMatch, s);
    var value := (t: string) => VarValue(vars, t);
    TokensAreCanonical(VarMatch, s);
    ReplaceIsSimultaneous(VarMatch, value, tokens);
    forall t | t in tokens && t.Hole?
      ensures value(t.text) == t.text
    {
      var name := HolesAreNames(tokens, t);
      PlaceholderName(name);
      assert AsksFor(s, name);
    }
    IdentityValues(value, tokens);
    VarPassIs(vars, s, tokens);
  }

  // ------------------------------------------------------------- idempotence

  lemma {:induction false} PlainTextStays(vars: map<string, string>, plain: string, rest: string)
    requires '{' !in plain
    ensures VarPass(vars, plain + rest) == plain + VarPass(vars, rest)
    decreases |plain|
  {
    var value := (t: string) => VarValue(vars, t);
    if plain == "" {
      assert plain + rest == rest;
    } else {
      assert (plain + rest)[1..] == plain[1..] + rest;
      assert !Hit(VarMatch, plain + rest);
      PlainTextStays(vars, plain[1..], rest);
      PassUnrolls(vars, plain + rest);
    }
  }

  lemma PassUnrolls(vars: map<string, string>, s: string)
    requires s != ""
    ensures VarMatch(s) == 0 ==> VarPass(vars, s) == [s[0]] + VarPass(vars, s[1..])
    ensures VarMatch(s) > 0 ==>
      VarPass(vars, s) == VarValue(vars, s[..VarMatch(s)]) + VarPass(vars, s[VarMatch(s)..])
  {
    var find: Matcher, value := VarMatch, (t: string) => VarValue(vars, t);
    var n := if VarMatch(s) > 0 then VarMatch(s) else 1;
    SamePass(VarMatch, (t: string) => VarValue(vars, t), find, value, s);
    VarPassAs(vars, s, find, value);
    VarPassAs(vars, s[n..], find, value);
  }

  lemma VarPassAs(vars: map<string, string>, s: string, find: Matcher, value: string -> string)
    requires forall t :: find(t) == VarMatch(t)
    requires forall t :: value(t) == VarValue(vars, t)
    ensures VarPass(vars, s) == ReplaceAll(find, value, s)
  {
    SamePass(VarMatch, (t: string) => VarValue(vars, t), find, value, s);
  }

  /** The values of a variable pass, put in at once. */
  function Filled(vars: map<string, string>, tokens: seq<Token>): string {
    if tokens == [] then ""
    else (if tokens[0].Lit? then [tokens[0].c] else VarValue(vars, tokens[0].text)) + Filled(vars, tokens[1..])
  }

  lemma {:induction false} PassFills(vars: map<string, string>, s: string)
    ensures VarPass(vars, s) == Filled(vars, Tokens(VarMatch, s))
    decreases |s|
  {
    if s != "" {
      PassUnrolls(vars, s);
      var n := if VarMatch(s) > 0 then VarMatch(s) else 1;
      PassFills(vars, s[n..]);
      assert Tokens(VarMatch, s)[1..] == Tokens(VarMatch, s[n..]);
    }
  }

  /** A name, or with `first` false the rest of one, and a closing brace: what an opening brace lacks to be
      a placeholder. */
  predicate NameThenClose(v: string, first: bool) {
    && v != ""
    && ((!first && v[0] == '}')
        || ((if first then NameStart(v[0]) else NameChar(v[0])) && NameThenClose(v[1..], false)))
  }

  lemma {:induction false} SpanThenClose(v: string)
    ensures NameThenClose(v, false) <==> var k := Span(NameChar, v); k < |v| && v[k] == '}'
    decreases |v|
  {
    if v != "" && NameChar(v[0]) {
      SpanThenClose(v[1..]);
    }
  }

  lemma BraceMatches(v: string)
    ensures VarMatch("{" + v) > 0 <==> NameThenClose(v, true)
  {
    var s := "{" + v;
    assert s[1..] == v;
    if v != "" {
      SpanThenClose(v[1..]);
      assert NameStart(v[0]) ==> Span(NameChar, v) == 1 + Span(NameChar, v[1..]);
    }
  }

  // ------------------------------------------------------- idempotence, exactly

  /** Characters that could begin a name (or go on with it), and then a placeholder. */
  predicate RunsIntoHole(tokens: seq<Token>, first: bool) {
    && tokens != []
    && (tokens[0].Hole?
        || ((if first then NameStart(tokens[0].c) else NameChar(tokens[0].c)) && RunsIntoHole(tokens[1..], false)))
  }

  /** Somewhere a brace that opens no placeholder stands before such characters. */
  predicate Exposed(tokens: seq<Token>) {
    && tokens != []
    && ((tokens[0] == Lit('{') && RunsIntoHole(tokens[1..], true)) || Exposed(tokens[1..]))
  }

  ghost predicate BraceFree(vars: map<string, string>) { forall name :: name in vars ==> '{' !in vars[name] }

  /** A second pass changes nothing, whatever the values, as long as they bring no brace of their own. */
  ghost predicate Idempotent(s: string) {
    forall vars: map<string, string> :: BraceFree(vars) ==> VarPass(vars, VarPass(vars, s)) == VarPass(vars, s)
  }

  /** Up to the first placeholder, filling in values changes nothing that an opening brace could use. */
  lemma {:induction false} FilledCloses(vars: map<string, string>, tokens: seq<Token>, first: bool)
    requires !RunsIntoHole(tokens, first)
    ensures NameThenClose(Filled(vars, tokens), first) <==> NameThenClose(Text(tokens), first)
    decreases |tokens|
  {
    if tokens != [] {
      var c := tokens[0].c;
      assert Filled(vars, tokens)[1..] == Filled(vars, tokens[1..]);
      assert Text(tokens)[1..] == Text(tokens[1..]);
      if if first then NameStart(c) else NameChar(c) {
        FilledCloses(vars, tokens[1..], false);
      }
    }
  }

  lemma OpenBraceStays(vars: map<string, string>, tokens: seq<Token>)
    requires Canonical(VarMatch, tokens) && tokens != [] && tokens[0] == Lit('{') && !RunsIntoHole(tokens[1..], true)
    ensures VarMatch("{" + Filled(vars, tokens[1..])) == 0
  {
    assert Text(tokens) == "{" + Text(tokens[1..]);
    BraceMatches(Text(tokens[1..]));
    BraceMatches(Filled(vars, tokens[1..]));
    FilledCloses(vars, tokens[1..], true);
  }

  lemma {:induction false} SecondPassDoesNothing(vars: map<string, string>, tokens: seq<Token>)
    requires Canonical(VarMatch, tokens) && !Exposed(tokens) && BraceFree(vars)
    ensures VarPass(vars, Filled(vars, tokens)) == Filled(vars, tokens)
    decreases |tokens|
  {
    if tokens != [] {
      var rest := Filled(vars, tokens[1..]);
      SecondPassDoesNothing(vars, tokens[1..]);
      if tokens[0] == Lit('{') {
        OpenBraceStays(vars, tokens);
        PassUnrolls(vars, "{" + rest);
        assert ("{" + rest)[1..] == rest;
      } else if tokens[0].Lit? {
        PlainTextStays(vars, [tokens[0].c], rest);
      } else {
        assert tokens[0] in tokens;
        var name := HolesAreNames(tokens, tokens[0]);
        HoleStays(vars, name, rest);
      }
    }
  }

  lemma HeadPlaceholder(vars: map<string, string>, name: string, rest: string)
    requires IsName(name)
    ensures VarPass(vars, Placeholder(name) + rest) == VarValue(vars, Placeholder(name)) + VarPass(vars, rest)
  {
    var s := Placeholder(name) + rest;
    VarMatchesPlaceholder(name, rest);
    PassUnrolls(vars, s);
    assert s[..|Placeholder(name)|] == Placeholder(name) && s[|Placeholder(name)|..] == rest;
  }

  lemma HoleStays(vars: map<string, string>, name: string, rest: string)
    requires IsName(name) && BraceFree(vars) && VarPass(vars, rest) == rest
    ensures var filled := VarValue(vars, Placeholder(name)) + rest; VarPass(vars, filled) == filled
  {
    VarPlaceholderValue(vars, name);
    if name in vars {
      PlainTextStays(vars, vars[name], rest);
    } else {
      HeadPlaceholder(vars, name, rest);
    }
  }

  // ... and where it is exposed, two values show it

  /** A match cannot reach over an opening brace. */
  lemma MatchStopsAtBrace(a: string, b: string)
    requires a != "" && (b != "" ==> b[0] == '{')
    ensures VarMatch(a + b) == VarMatch(a)
  {
    if |a| > 1 {
      var k := Span(NameChar, a[1..]);
      SpanStops(a[1..], b);
      assert (a + b)[1..] == a[1..] + b;
    }
  }

  lemma {:induction false} SpanStops(a: string, b: string)
    requires b != "" ==> b[0] == '{'
    ensures Span(NameChar, a + b) == Span(NameChar, a)
    decreases |a|
  {
    if a == "" {
      assert a + b == b;
    } else {
      assert (a + b)[1..] == a[1..] + b;
      SpanStops(a[1..], b);
    }
  }

  /** What the pass makes of the head of a text, and how much of it that is. */
  function HeadLength(s: string): (n: nat)
    requires s != ""
    ensures 0 < n <= |s|
  {
    if VarMatch(s) > 0 then VarMatch(s) else 1
  }

  function HeadValue(vars: map<string, string>, s: string): string
    requires s != ""
  {
    if VarMatch(s) > 0 then VarValue(vars, s[..VarMatch(s)]) else [s[0]]
  }

  lemma PassStep(vars: map<string, string>, s: string)
    requires s != ""
    ensures VarPass(vars, s) == HeadValue(vars, s) + VarPass(vars, s[HeadLength(s)..])
  {
    PassUnrolls(vars, s);
  }

  lemma HeadBeforeBrace(vars: map<string, string>, a: string, b: string)
    requires a != "" && (b != "" ==> b[0] == '{')
    ensures HeadLength(a + b) == HeadLength(a) && HeadValue(vars, a + b) == HeadValue(vars, a)
    ensures (a + b)[HeadLength(a)..] == a[HeadLength(a)..] + b
  {
    MatchStopsAtBrace(a, b);
    var n := HeadLength(a);
    assert (a + b)[..n] == a[..n];
  }

  lemma {:induction false} PassSplitsAtBrace(vars: map<string, string>, a: string, b: string)
    requires b != "" ==> b[0] == '{'
    ensures VarPass(vars, a + b) == VarPass(vars, a) + VarPass(vars, b)
    decreases |a|
  {
    if a == "" {
      assert a + b == b;
      PassOfNothing(vars);
    } else {
      var rest := a[HeadLength(a)..];
      PassStep(vars, a);
      PassStep(vars, a + b);
      HeadBeforeBrace(vars, a, b);
      PassSplitsAtBrace(vars, rest, b);
      ThreeParts(HeadValue(vars, a), VarPass(vars, rest), VarPass(vars, b));
    }
  }

  lemma ThreeParts(a: string, b: string, c: string)
    ensures a + (b + c) == (a + b) + c
  {
  }

  lemma PassOfNothing(vars: map<string, string>)
    ensures VarPass(vars, "") == ""
  {
  }

  /** All values are two characters long, shorter than any placeholder. */
  ghost predicate Short(vars: map<string, string>) { forall name :: name in vars ==> |vars[name]| == 2 }

  lemma {:induction false} ShortValuesShrink(vars: map<string, string>, s: string)
    requires Short(vars)
    ensures |VarPass(vars, s)| <= |s|
    decreases |s|
  {
    if s == "" {
      PassOfNothing(vars);
    } else {
      PassUnrolls(vars, s);
      ShortValuesShrink(vars, s[if VarMatch(s) > 0 then VarMatch(s) else 1..]);
    }
  }

  /** The characters before the first placeholder, and its text. */
  function Lead(tokens: seq<Token>): string {
    if tokens == [] || tokens[0].Hole? then "" else [tokens[0].c] + Lead(tokens[1..])
  }

  function FirstHole(tokens: seq<Token>): string {
    if tokens == [] then "" else if tokens[0].Hole? then tokens[0].text else FirstHole(tokens[1..])
  }

  lemma {:induction false} LeadIsName(tokens: seq<Token>, first: bool)
    requires RunsIntoHole(tokens, first)
    ensures forall i :: 0 <= i < |Lead(tokens)| ==> NameChar(Lead(tokens)[i])
    ensures first && Lead(tokens) != "" ==> NameStart(Lead(tokens)[0])
    ensures Hole(FirstHole(tokens)) in tokens
    decreases |tokens|
  {
    if tokens[0].Lit? {
      LeadIsName(tokens[1..], false);
    }
  }

  lemma {:induction false} LeadThenHole(vars: map<string, string>, tokens: seq<Token>, first: bool)
    returns (rest: string)
    requires RunsIntoHole(tokens, first)
    ensures Filled(vars, tokens) == Lead(tokens) + VarValue(vars, FirstHole(tokens)) + rest
    decreases |tokens|
  {
    var value := VarValue(vars, FirstHole(tokens));
    if tokens[0].Hole? {
      rest := Filled(vars, tokens[1..]);
      assert "" + value == value;
    } else {
      rest := LeadThenHole(vars, tokens[1..], false);
      FourParts([tokens[0].c], Lead(tokens[1..]), value, rest);
    }
  }

  lemma FourParts(a: string, b: string, c: string, d: string)
    ensures a + (b + c + d) == (a + b) + c + d
  {
  }

  /** The values that show it: the placeholder's, which completes a name and closes it, and that name's. */
  function Revealing(name: string, lead: string): map<string, string> { map[name := "x}", lead + "x" := "x}"] }

  lemma {:induction false} CanonicalSuffix(tokens: seq<Token>, k: nat)
    requires Canonical(VarMatch, tokens) && k <= |tokens|
    ensures Canonical(VarMatch, tokens[k..])
    decreases k
  {
    if k > 0 {
      CanonicalSuffix(tokens[1..], k - 1);
      assert tokens[k..] == tokens[1..][k - 1..];
    } else {
      assert tokens[0..] == tokens;
    }
  }

  lemma {:induction false} FirstExposed(tokens: seq<Token>) returns (k: nat)
    requires Exposed(tokens)
    ensures k < |tokens| && tokens[k] == Lit('{') && RunsIntoHole(tokens[k + 1..], true)
    decreases |tokens|
  {
    if tokens[0] == Lit('{') && RunsIntoHole(tokens[1..], true) {
      k := 0;
    } else {
      k := FirstExposed(tokens[1..]);
      assert tokens[1..][k + 1..] == tokens[k + 2..];
      k := k + 1;
    }
  }

  lemma {:induction false} FilledAppend(vars: map<string, string>, a: seq<Token>, b: seq<Token>)
    ensures Filled(vars, a + b) == Filled(vars, a) + Filled(vars, b)
    decreases |a|
  {
    if a == [] {
      assert a + b == b;
    } else {
      assert (a + b)[1..] == a[1..] + b;
      FilledAppend(vars, a[1..], b);
    }
  }

  /** The brace, with what the first pass put behind it, is replaced by something shorter. */
  lemma BraceShrinks(vars: map<string, string>, name: string, rest: string)
    requires IsName(name) && name in vars && Short(vars)
    ensures |VarPass(vars, Placeholder(name) + rest)| < |Placeholder(name) + rest|
  {
    VarPlaceholderValue(vars, name);
    HeadPlaceholder(vars, name, rest);
    ShortValuesShrink(vars, rest);
  }

  /** With the revealing values an exposed brace and what follows it become a known placeholder. */
  lemma BraceAndTail(tail: seq<Token>) returns (vars: map<string, string>, name: string, rest: string)
    requires Canonical(VarMatch, tail) && RunsIntoHole(tail, true)
    ensures Short(vars) && BraceFree(vars) && IsName(name) && name in vars
    ensures "{" + Filled(vars, tail) == Placeholder(name) + rest
  {
    var lead := Lead(tail);
    LeadIsName(tail, true);
    var hole := HolesAreNames(tail, Hole(FirstHole(tail)));
    name, vars := lead + "x", Revealing(hole, lead);
    rest := LeadThenHole(vars, tail, true);
    VarPlaceholderValue(vars, hole);
    LeadMakesName(lead);
    Closing(lead, rest);
  }

  lemma LeadMakesName(lead: string)
    requires forall i :: 0 <= i < |lead| ==> NameChar(lead[i])
    requires lead != "" ==> NameStart(lead[0])
    ensures IsName(lead + "x")
  {
  }

  lemma Closing(lead: string, rest: string)
    ensures "{" + (lead + "x}" + rest) == Placeholder(lead + "x") + rest
  {
  }

  lemma FilledAround(vars: map<string, string>, tokens: seq<Token>, k: nat)
    requires k < |tokens| && tokens[k] == Lit('{')
    ensures Filled(vars, tokens) == Filled(vars, tokens[..k]) + ("{" + Filled(vars, tokens[k + 1..]))
  {
    var open := [Lit('{')] + tokens[k + 1..];
    assert tokens == tokens[..k] + open && open[1..] == tokens[k + 1..];
    FilledAppend(vars, tokens[..k], open);
  }

  /** After the first pass the brace at `k` is the head of a known placeholder. */
  lemma BraceOpens(tokens: seq<Token>, k: nat) returns (vars: map<string, string>, name: string, rest: string)
    requires Canonical(VarMatch, tokens) && k < |tokens|
    requires tokens[k] == Lit('{') && RunsIntoHole(tokens[k + 1..], true)
    ensures Short(vars) && BraceFree(vars) && IsName(name) && name in vars
    ensures Filled(vars, tokens) == Filled(vars, tokens[..k]) + (Placeholder(name) + rest)
  {
    CanonicalSuffix(tokens, k + 1);
    vars, name, rest := BraceAndTail(tokens[k + 1..]);
    FilledAround(vars, tokens, k);
  }

  lemma ExposedIsNotIdempotent(s: string)
    requires Exposed(Tokens(VarMatch, s))
    ensures !Idempotent(s)
  {
    var tokens := Tokens(VarMatch, s);
    TokensAreCanonical(VarMatch, s);
    var k := FirstExposed(tokens);
    var vars, name, rest := BraceOpens(tokens, k);
    var before, after := Filled(vars, tokens[..k]), Placeholder(name) + rest;
    PassFills(vars, s);
    PassSplitsAtBrace(vars, before, after);
    ShortValuesShrink(vars, before);
    BraceShrinks(vars, name, rest);
    assert |VarPass(vars, VarPass(vars, s))| < |VarPass(vars, s)|;
  }

  /** Main result: the variable pass is idempotent on a template, for all values without an opening brace,
      if and only if no brace that opens no placeholder stands before characters that could begin a name
      and run directly into a placeholder. */
  lemma IdempotentIffNotExposed(s: string)
    ensures Idempotent(s) <==> !Exposed(Tokens(VarMatch, s))
  {
    if Exposed(Tokens(VarMatch, s)) {
      ExposedIsNotIdempotent(s);
    } else {
      forall vars: map<string, string> | BraceFree(vars)
        ensures VarPass(vars, VarPass(vars, s)) == VarPass(vars, s)
      {
        TokensAreCanonical(VarMatch, s);
        PassFills(vars, s);
        SecondPassDoesNothing(vars, Tokens(VarMatch, s));
      }
    }
  }

  /** In particular it is when every opening brace opens a placeholder ... */
  lemma VarPassIsIdempotent(s: string)
    requires Lit('{') !in Tokens(VarMatch, s)
    ensures Idempotent(s)
  {
    NoBraceNotExposed(Tokens(VarMatch, s));
    IdempotentIffNotExposed(s);
  }

  lemma {:induction false} NoBraceNotExposed(tokens: seq<Token>)
    requires Lit('{') !in tokens
    ensures !Exposed(tokens)
    decreases |tokens|
  {
    if tokens != [] {
      assert tokens[0] in tokens;
      NoBraceNotExposed(tokens[1..]);
    }
  }

  lemma BraceBefore(vars: map<string, string>)
    requires vars == map["x" := "x"]
    ensures VarPass(vars, "{x}}") == "x}"
  {
    PassOfNothing(vars);
    PlainTextStays(vars, "}", "");
    assert "}" + "" == "}";
    VarPlaceholderValue(vars, "x");
    HeadPlaceholder(vars, "x", "}");
    assert Placeholder("x") + "}" == "{x}}";
  }

  /** ... and here is a template where it is not: a brace left standing meets a value to form a new
      placeholder. */
  lemma NotAlwaysIdempotent()
    ensures var vars := map["x" := "x"];
            VarPass(vars, "{{x}}") == "{x}" && VarPass(vars, "{x}") == "x"
  {
    var vars := map["x" := "x"];
    BraceBefore(vars);
    PassUnrolls(vars, "{{x}}");
    assert "{{x}}"[1..] == "{x}}";
    VarPlaceholderValue(vars, "x");
    HeadPlaceholder(vars, "x", "");
    PassOfNothing(vars);
    assert Placeholder("x") + "" == "{x}";
  }
}

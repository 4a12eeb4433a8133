/** The argument-spec parser (`command.rs`): a hand-written scanner over characters. */
module ArgSpec {
  import opened Wrappers
  import opened State

  datatype ArgDef = ArgDef(name: string, required: bool)
  datatype FlagDef = FlagDef(name: string, short: Option<char>)
  datatype OptionDef = OptionDef(name: string, short: Option<char>, required: bool)
  datatype VariadicDef = VariadicDef(name: string, required: bool)

  datatype Spec = Spec(
    positional: seq<ArgDef>,
    flags: seq<FlagDef>,
    options: seq<OptionDef>,
    variadic: Option<VariadicDef>)

  const NO_ARGS := Spec([], [], [], None)

  datatype SpecError =
    | InvalidSyntax(text: string)
    | VariadicNotLast(name: string)
    | OptionalBeforeRequired(name: string)
    | DuplicateName(name: string)

  // --------------------------------------------------------------- characters

  /** `char::is_whitespace`: the Unicode property White_Space. */
  predicate IsWhitespace(c: char) {
    '\t' <= c <= '\r' || c == ' ' || c == '\U{0085}' || c == '\U{00A0}' || c == '\U{1680}'
    || '\U{2000}' <= c <= '\U{200A}' || c == '\U{2028}' || c == '\U{2029}' || c == '\U{202F}'
    || c == '\U{205F}' || c == '\U{3000}'
  }

  function TrimStart(s: string): (r: string)
    ensures |r| <= |s|
  {
    if s != "" && IsWhitespace(s[0]) then TrimStart(s[1..]) else s
  }

  function TrimEnd(s: string): string {
    if s != "" && IsWhitespace(s[|s| - 1]) then TrimEnd(s[..|s| - 1]) else s
  }

  function Trim(s: string): string { TrimEnd(TrimStart(s)) }

  /** `trim_end_matches("...")` */
  function TrimDots(s: string): string { if EndsWith(s, "...") then TrimDots(s[..|s| - 3]) else s }

  /** Up to the first `stop`, which is consumed; everything when there is none. */
  function TakeUntil(s: string, stop: char): (r: (string, string))
    ensures |r.1| <= |s|
  {
    if s == "" then ("", "")
    else if s[0] == stop then ("", s[1..])
    else
      var (token, rest) := TakeUntil(s[1..], stop);
      ([s[0]] + token, rest)
  }

  /** Up to the bracket that closes the `depth` brackets open; everything when there is none. */
  function TakeBracket(s: string, depth: nat): (r: (string, string))
    requires depth > 0
    ensures |r.1| <= |s|
  {
    if s == "" then ("", "")
    else if s[0] == ']' && depth == 1 then ("", s[1..])
    else
      var (token, rest) :=
        TakeBracket(s[1..], if s[0] == '[' then depth + 1 else if s[0] == ']' then depth - 1 else depth);
      ([s[0]] + token, rest)
  }

  /** Up to the first white space, which is kept. */
  function TakeWord(s: string): (r: (string, string))
    ensures |r.1| <= |s|
  {
    if s == "" || IsWhitespace(s[0]) then ("", s)
    else
      var (token, rest) := TakeWord(s[1..]);
      ([s[0]] + token, rest)
  }

  function SplitOn(s: string, c: char): (parts: seq<string>)
    ensures parts != []
  {
    if s == "" then [""]
    else
      var parts := SplitOn(s[1..], c);
      if s[0] == c then [""] + parts else [[s[0]] + parts[0]] + parts[1..]
  }

  /** `content.find('<')`; the length when there is none. */
  function FindAngle(s: string): (i: nat)
    ensures i <= |s|
    ensures i < |s| ==> s[i] == '<'
    ensures forall j :: 0 <= j < i ==> s[j] != '<'
  {
    if s == "" || s[0] == '<' then 0 else 1 + FindAngle(s[1..])
  }

  // -------------------------------------------------------------------- flags

  /** `parse_flag_names`: the short alias and the name of `-f/--flag`, `--flag` or `-f`. */
  function ParseFlagNames(text: string): Result<(Option<char>, string), SpecError> {
    var part := Trim(text);
    if '/' in part then
      var parts := SplitOn(part, '/');
      if |parts| != 2 then Err(InvalidSyntax(part))
      else
        var shortPart, longPart := Trim(parts[0]), Trim(parts[1]);
        if !StartsWith(shortPart, "-") || StartsWith(shortPart, "--") then Err(InvalidSyntax(shortPart))
        else if !StartsWith(longPart, "--") then Err(InvalidSyntax(longPart))
        else Ok((if |shortPart| > 1 then Some(shortPart[1]) else None, longPart[2..]))
    else if StartsWith(part, "--") then Ok((None, part[2..]))
    else if StartsWith(part, "-") then
      if |part| < 2 then Err(InvalidSyntax("empty flag")) else Ok((Some(part[1]), [part[1]]))
    else Err(InvalidSyntax(part))
  }

  // ----------------------------------------------------------------- the scan

  /** What the scanner has built: the spec, the names taken, and whether an optional positional
      has been seen. */
  datatype Scan = Scan(spec: Spec, names: set<string>, seenOptional: bool)

  const START := Scan(NO_ARGS, {}, false)

  type Scanned = Result<Scan, SpecError>

  function AddVariadic(s: Scan, name: string, required: bool): Scanned {
    if name in s.names then Err(DuplicateName(name))
    else if s.spec.variadic.Some? then Err(VariadicNotLast(name))
    else Ok(Scan(s.spec.(variadic := Some(VariadicDef(name, required))), s.names + {name}, s.seenOptional))
  }

  function AddPositional(s: Scan, name: string, required: bool): Scanned {
    if s.spec.variadic.Some? then Err(VariadicNotLast(name))
    else if required && s.seenOptional then Err(OptionalBeforeRequired(name))
    else if name in s.names then Err(DuplicateName(name))
    else
      Ok(Scan(s.spec.(positional := s.spec.positional + [ArgDef(name, required)]), s.names + {name},
              s.seenOptional || !required))
  }

  /** The content of `<..>`. */
  function AddAngle(s: Scan, token: string): Scanned {
    var name := Trim(token);
    if EndsWith(name, "...") then AddVariadic(s, TrimDots(name), true) else AddPositional(s, name, true)
  }

  function AddFlag(s: Scan, name: string, short: Option<char>): Scanned {
    if name in s.names then Err(DuplicateName(name))
    else Ok(Scan(s.spec.(flags := s.spec.flags + [FlagDef(name, short)]), s.names + {name}, s.seenOptional))
  }

  function AddOption(s: Scan, name: string, short: Option<char>, required: bool): Scanned {
    if name in s.names then Err(DuplicateName(name))
    else
      Ok(Scan(s.spec.(options := s.spec.options + [OptionDef(name, short, required)]), s.names + {name},
          s.seenOptional))
  }

  /** `parse_flag_or_option` */
  function AddFlagOrOption(s: Scan, text: string, required: bool): Scanned {
    var content := Trim(text);
    var angle := FindAngle(content);
    if angle < |content| then
      match ParseFlagNames(Trim(content[..angle]))
      case Err(e) => Err(e)
      case Ok((short, name)) => AddOption(s, name, short, required)
    else
      match ParseFlagNames(content)
      case Err(e) => Err(e)
      case Ok((short, name)) => AddFlag(s, name, short)
  }

  /** The content of `[..]`. */
  function AddBracket(s: Scan, token: string): Scanned {
    var content := Trim(token);
    if StartsWith(content, "-") then AddFlagOrOption(s, content, false)
    else if EndsWith(content, "...") then AddVariadic(s, TrimDots(content), false)
    else AddPositional(s, content, false)
  }

  /** A `-` at top level, `text` being what follows: a flag, or an option if `<..>` comes next. */
  function AddDash(s: Scan, text: string): (r: (Scanned, string))
    ensures |r.1| <= |text|
  {
    var (word, afterWord) := TakeWord(text);
    var next := TrimStart(afterWord);
    if StartsWith(next, "<") then
      var (value, rest) := TakeUntil(next[1..], '>');
      (AddFlagOrOption(s, "-" + word + " <" + value + ">", true), rest)
    else (AddFlagOrOption(s, "-" + word, true), next)
  }

  /** The scan of one token, from its first character on. */
  function ScanToken(s: Scan, text: string): (r: (Scanned, string))
    requires text != ""
    ensures |r.1| < |text|
  {
    var c := text[0];
    if c == '<' then
      var (token, rest) := TakeUntil(text[1..], '>');
      (AddAngle(s, token), rest)
    else if c == '[' then
      var (token, rest) := TakeBracket(text[1..], 1);
      (AddBracket(s, token), rest)
    else if c == '-' then AddDash(s, text[1..])
    else if IsWhitespace(c) then (Ok(s), text[1..])
    else (Err(InvalidSyntax([c])), text[1..])
  }

  function ScanFrom(s: Scan, text: string): Scanned
    decreases |text|
  {
    if text == "" then Ok(s)
    else
      var (r, rest) := ScanToken(s, text);
      match r
      case Err(e) => Err(e)
      case Ok(next) => ScanFrom(next, rest)
  }

  /** `parse_arg_spec`, as a function. */
  function Parse(text: string): Result<Spec, SpecError> {
    match ScanFrom(START, Trim(text))
    case Err(e) => Err(e)
    case Ok(s) => Ok(s.spec)
  }

  // --------------------------------------------------------- the scanner itself

  /** The remaining characters of an iterator that is consumed as it is read. */
  class Chars {
    var rest: string

    constructor (text: string)
      ensures rest == text
    {
      rest := text;
    }

    method ReadUntil(stop: char) returns (token: string)
      modifies this
      ensures token == TakeUntil(old(rest), stop).0 && rest == TakeUntil(old(rest), stop).1
    {
      token := "";
      while rest != ""
        invariant TakeUntil(old(rest), stop).0 == token + TakeUntil(rest, stop).0
        invariant TakeUntil(old(rest), stop).1 == TakeUntil(rest, stop).1
        decreases |rest|
      {
        var c := rest[0];
        rest := rest[1..];
        assert token + ([c] + TakeUntil(rest, stop).0) == (token + [c]) + TakeUntil(rest, stop).0;
        if c == stop {
          assert token + "" == token;
          return;
        }
        token := token + [c];
      }
      assert token + "" == token;
    }

    method ReadBracket() returns (token: string)
      modifies this
      ensures token == TakeBracket(old(rest), 1).0 && rest == TakeBracket(old(rest), 1).1
    {
      token := "";
      var depth := 1;
      while rest != ""
        invariant depth > 0
        invariant TakeBracket(old(rest), 1).0 == token + TakeBracket(rest, depth).0
        invariant TakeBracket(old(rest), 1).1 == TakeBracket(rest, depth).1
        decreases |rest|
      {
        var c := rest[0];
        rest := rest[1..];
        if c == '[' {
          depth := depth + 1;
        } else if c == ']' {
          depth := depth - 1;
          if depth == 0 {
            assert token + "" == token;
            return;
          }
        }
        assert token + ([c] + TakeBracket(rest, depth).0) == (token + [c]) + TakeBracket(rest, depth).0;
        token := token + [c];
      }
      assert token + "" == token;
    }

    method ReadWord() returns (token: string)
      modifies this
      ensures token == TakeWord(old(rest)).0 && rest == TakeWord(old(rest)).1
    {
      token := "";
      while rest != "" && !IsWhitespace(rest[0])
        invariant TakeWord(old(rest)).0 == token + TakeWord(rest).0
        invariant TakeWord(old(rest)).1 == TakeWord(rest).1
        decreases |rest|
      {
        assert token + ([rest[0]] + TakeWord(rest[1..]).0) == (token + [rest[0]]) + TakeWord(rest[1..]).0;
        token := token + [rest[0]];
        rest := rest[1..];
      }
      assert token + "" == token;
    }

    method SkipWhitespace()
      modifies this
      ensures rest == TrimStart(old(rest))
    {
      while rest != "" && IsWhitespace(rest[0])
        invariant TrimStart(old(rest)) == TrimStart(rest)
        decreases |rest|
      {
        rest := rest[1..];
      }
    }
  }

  /** The body of the scanning loop. */
  method ReadToken(chars: Chars, scan: Scan) returns (r: Scanned)
    requires chars.rest != ""
    modifies chars
    ensures r == ScanToken(scan, old(chars.rest)).0
    ensures chars.rest == ScanToken(scan, old(chars.rest)).1
  {
    var c := chars.rest[0];
    chars.rest := chars.rest[1..];
    if c == '<' {
      var token := chars.ReadUntil('>');
      r := AddAngle(scan, token);
    } else if c == '[' {
      var token := chars.ReadBracket();
      r := AddBracket(scan, token);
    } else if c == '-' {
      r := ReadDash(chars, scan);
    } else if IsWhitespace(c) {
      r := Ok(scan);
    } else {
      r := Err(InvalidSyntax([c]));
    }
  }

  method ReadDash(chars: Chars, scan: Scan) returns (r: Scanned)
    modifies chars
    ensures r == AddDash(scan, old(chars.rest)).0
    ensures chars.rest == AddDash(scan, old(chars.rest)).1
  {
    var word := chars.ReadWord();
    chars.SkipWhitespace();
    if StartsWith(chars.rest, "<") {
      chars.rest := chars.rest[1..];
      var value := chars.ReadUntil('>');
      r := AddFlagOrOption(scan, "-" + word + " <" + value + ">", true);
    } else {
      r := AddFlagOrOption(scan, "-" + word, true);
    }
  }

  /** `parse_arg_spec`. */
  method ParseArgSpec(text: string) returns (r: Result<Spec, SpecError>)
    ensures r == Parse(text)
  {
    var trimmed := Trim(text);
    if trimmed == "" {
      return Ok(NO_ARGS);
    }
    var chars := new Chars(trimmed);
    var scan := START;
    while chars.rest != ""
      invariant ScanFrom(START, trimmed) == ScanFrom(scan, chars.rest)
      decreases |chars.rest|
    {
      var result := ReadToken(chars, scan);
      if result.Err? {
        return Err(result.error);
      }
      scan := result.value;
    }
    r := Ok(scan.spec);
  }

  // ----------------------------------------------------- what a parse guarantees

  function PositionalNames(args: seq<ArgDef>): seq<string> { seq(|args|, i requires 0 <= i < |args| => args[i].name) }

  function FlagNames(flags: seq<FlagDef>): seq<string> { seq(|flags|, i requires 0 <= i < |flags| => flags[i].name) }

  function OptionNames(options: seq<OptionDef>): seq<string> {
    seq(|options|, i requires 0 <= i < |options| => options[i].name)
  }

  /** All names of a spec, with their multiplicities. */
  function NameBag(spec: Spec): multiset<string> {
    multiset(PositionalNames(spec.positional)) + multiset(FlagNames(spec.flags)) + multiset(OptionNames(spec.options))
    + if spec.variadic.Some? then multiset{spec.variadic.value.name} else multiset{}
  }

  ghost predicate DistinctNames(spec: Spec) { forall n :: NameBag(spec)[n] <= 1 }

  lemma TwiceInBag<T>(s: seq<T>, i: nat, j: nat)
    requires i < j < |s| && s[i] == s[j]
    ensures multiset(s)[s[i]] >= 2
  {
    assert s == s[..j] + [s[j]] + s[j + 1..];
    assert s[..j][i] == s[i];
  }

  ghost predicate RequiredFirst(spec: Spec) {
    forall i, j :: 0 <= i < j < |spec.positional| && spec.positional[j].required ==> spec.positional[i].required
  }

  ghost predicate ScanInvariant(s: Scan) {
    && DistinctNames(s.spec)
    && (forall n :: n in s.names <==> n in NameBag(s.spec))
    && RequiredFirst(s.spec)
    && (s.seenOptional <==> exists i :: 0 <= i < |s.spec.positional| && !s.spec.positional[i].required)
  }

  lemma NewName(s: Scan, t: Scan, name: string)
    requires ScanInvariant(s) && name !in s.names
    requires NameBag(t.spec) == NameBag(s.spec) + multiset{name} && t.names == s.names + {name}
    ensures DistinctNames(t.spec) && forall n :: n in t.names <==> n in NameBag(t.spec)
  {
    forall n
      ensures NameBag(t.spec)[n] <= 1
    {
      assert name !in NameBag(s.spec);
      assert NameBag(s.spec)[n] <= 1;
    }
  }

  lemma VariadicKeeps(s: Scan, name: string, required: bool)
    requires ScanInvariant(s) && AddVariadic(s, name, required).Ok?
    ensures ScanInvariant(AddVariadic(s, name, required).value)
  {
    NewName(s, AddVariadic(s, name, required).value, name);
  }

  lemma PositionalKeeps(s: Scan, name: string, required: bool)
    requires ScanInvariant(s) && AddPositional(s, name, required).Ok?
    ensures ScanInvariant(AddPositional(s, name, required).value)
  {
    var t := AddPositional(s, name, required).value;
    var args := s.spec.positional;
    assert PositionalNames(args + [ArgDef(name, required)]) == PositionalNames(args) + [name];
    NewName(s, t, name);
    assert t.spec.positional[|args|] == ArgDef(name, required);
    assert forall i :: 0 <= i < |args| ==> t.spec.positional[i] == args[i];
  }

  lemma FlagKeeps(s: Scan, name: string, short: Option<char>)
    requires ScanInvariant(s) && AddFlag(s, name, short).Ok?
    ensures ScanInvariant(AddFlag(s, name, short).value)
  {
    assert FlagNames(s.spec.flags + [FlagDef(name, short)]) == FlagNames(s.spec.flags) + [name];
    NewName(s, AddFlag(s, name, short).value, name);
  }

  lemma OptionKeeps(s: Scan, name: string, short: Option<char>, required: bool)
    requires ScanInvariant(s) && AddOption(s, name, short, required).Ok?
    ensures ScanInvariant(AddOption(s, name, short, required).value)
  {
    assert OptionNames(s.spec.options + [OptionDef(name, short, required)]) == OptionNames(s.spec.options) + [name];
    NewName(s, AddOption(s, name, short, required).value, name);
  }

  lemma FlagOrOptionKeeps(s: Scan, text: string, required: bool)
    requires ScanInvariant(s) && AddFlagOrOption(s, text, required).Ok?
    ensures ScanInvariant(AddFlagOrOption(s, text, required).value)
  {
    var content := Trim(text);
    var angle := FindAngle(content);
    if angle < |content| {
      var (short, name) := ParseFlagNames(Trim(content[..angle])).value;
      OptionKeeps(s, name, short, required);
    } else {
      var (short, name) := ParseFlagNames(content).value;
      FlagKeeps(s, name, short);
    }
  }

  lemma AngleKeeps(s: Scan, token: string)
    requires ScanInvariant(s) && AddAngle(s, token).Ok?
    ensures ScanInvariant(AddAngle(s, token).value)
  {
    if EndsWith(Trim(token), "...") {
      VariadicKeeps(s, TrimDots(Trim(token)), true);
    } else {
      PositionalKeeps(s, Trim(token), true);
    }
  }

  lemma BracketKeeps(s: Scan, token: string)
    requires ScanInvariant(s) && AddBracket(s, token).Ok?
    ensures ScanInvariant(AddBracket(s, token).value)
  {
    var content := Trim(token);
    if StartsWith(content, "-") {
      FlagOrOptionKeeps(s, content, false);
    } else if EndsWith(content, "...") {
      VariadicKeeps(s, TrimDots(content), false);
    } else {
      PositionalKeeps(s, content, false);
    }
  }

  lemma DashKeeps(s: Scan, text: string)
    requires ScanInvariant(s) && AddDash(s, text).0.Ok?
    ensures ScanInvariant(AddDash(s, text).0.value)
  {
    var (word, afterWord) := TakeWord(text);
    var next := TrimStart(afterWord);
    if StartsWith(next, "<") {
      FlagOrOptionKeeps(s, "-" + word + " <" + TakeUntil(next[1..], '>').0 + ">", true);
    } else {
      FlagOrOptionKeeps(s, "-" + word, true);
    }
  }

  lemma TokenKeepsInvariant(s: Scan, text: string)
    requires text != "" && ScanInvariant(s) && ScanToken(s, text).0.Ok?
    ensures ScanInvariant(ScanToken(s, text).0.value)
  {
    if text[0] == '<' {
      AngleKeeps(s, TakeUntil(text[1..], '>').0);
    } else if text[0] == '[' {
      BracketKeeps(s, TakeBracket(text[1..], 1).0);
    } else if text[0] == '-' {
      DashKeeps(s, text[1..]);
    }
  }

  lemma {:induction false} ScanKeepsInvariant(s: Scan, text: string)
    requires ScanInvariant(s)
    ensures ScanFrom(s, text).Ok? ==> ScanInvariant(ScanFrom(s, text).value)
    decreases |text|
  {
    if text != "" {
      var (r, rest) := ScanToken(s, text);
      if r.Ok? {
        TokenKeepsInvariant(s, text);
        ScanKeepsInvariant(r.value, rest);
      }
    }
  }

  /** Main result: whatever text parses, its names are globally distinct, and its required
      positionals come before the optional ones. */
  lemma ParsedSpecsAreSound(text: string)
    ensures Parse(text).Ok? ==> DistinctNames(Parse(text).value) && RequiredFirst(Parse(text).value)
  {
    ScanKeepsInvariant(START, Trim(text));
  }
}

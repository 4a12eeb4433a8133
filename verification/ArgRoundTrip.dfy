/** Printing an argument spec and parsing it again. */
module ArgRoundTrip {
  import opened Wrappers
  import opened State
  import opened ArgSpec

  // ---------------------------------------------------------------- printing

  datatype Piece = P(arg: ArgDef) | F(flag: FlagDef) | O(option: OptionDef) | V(variadic: VariadicDef)

  function FlagText(name: string, short: Option<char>): string {
    (if short.Some? then ['-', short.value, '/'] else []) + "--" + name
  }

  function PieceText(piece: Piece): string {
    match piece
    case P(a) => if a.required then "<" + a.name + ">" else "[" + a.name + "]"
    case F(f) => "[" + FlagText(f.name, f.short) + "]"
    case O(o) =>
      if o.required then FlagText(o.name, o.short) + " <value>" else "[" + FlagText(o.name, o.short) + " <value>]"
    case V(v) => if v.required then "<" + v.name + "...>" else "[" + v.name + "...]"
  }

  /** Positionals, flags, options, and the variadic last. */
  function Pieces(spec: Spec): seq<Piece> {
    seq(|spec.positional|, i requires 0 <= i < |spec.positional| => P(spec.positional[i]))
    + seq(|spec.flags|, i requires 0 <= i < |spec.flags| => F(spec.flags[i]))
    + seq(|spec.options|, i requires 0 <= i < |spec.options| => O(spec.options[i]))
    + if spec.variadic.Some? then [V(spec.variadic.value)] else []
  }

  /** Each piece with a space before it. */
  function Spaced(pieces: seq<Piece>): string {
    if pieces == [] then "" else " " + PieceText(pieces[0]) + Spaced(pieces[1..])
  }

  function Print(spec: Spec): string {
    var text := Spaced(Pieces(spec));
    if text == "" then "" else text[1..]
  }

  // ------------------------------------------------------- well-formed specs

  predicate Trimmed(s: string) { s != "" ==> !IsWhitespace(s[0]) && !IsWhitespace(s[|s| - 1]) }

  predicate CleanChar(c: char) {
    !IsWhitespace(c) && c != '<' && c != '>' && c != '[' && c != ']' && c != '/'
  }

  predicate CleanFlag(name: string, short: Option<char>) {
    && (forall i :: 0 <= i < |name| ==> CleanChar(name[i]))
    && (short.Some? ==> CleanChar(short.value) && short.value != '-')
  }

  /** A piece whose text cannot be read as anything else. */
  predicate CleanPiece(piece: Piece) {
    match piece
    case P(a) =>
      && Trimmed(a.name) && !EndsWith(a.name, "...")
      && (if a.required then '>' !in a.name
          else '[' !in a.name && ']' !in a.name && !StartsWith(a.name, "-"))
    case F(f) => CleanFlag(f.name, f.short)
    case O(o) => CleanFlag(o.name, o.short)
    case V(v) =>
      && (v.name != "" ==> !IsWhitespace(v.name[0])) && !EndsWith(v.name, "...")
      && (if v.required then '>' !in v.name
          else '[' !in v.name && ']' !in v.name && !StartsWith(v.name, "-"))
  }

  ghost predicate WellFormed(spec: Spec) {
    && DistinctNames(spec) && RequiredFirst(spec)
    && forall i :: 0 <= i < |Pieces(spec)| ==> CleanPiece(Pieces(spec)[i])
  }

  // ------------------------------------------------------------ reading helpers

  lemma {:induction false} UntilStop(token: string, stop: char, rest: string)
    requires stop !in token
    ensures var r := TakeUntil(token + [stop] + rest, stop); r.0 == token && r.1 == rest
    decreases |token|
  {
    var s := token + [stop] + rest;
    if token != "" {
      assert token[0] in token;
      assert s[1..] == token[1..] + [stop] + rest;
      UntilStop(token[1..], stop, rest);
      assert [token[0]] + token[1..] == token;
    } else {
      assert s[1..] == rest;
    }
  }

  lemma {:induction false} UntilBracket(token: string, rest: string)
    requires '[' !in token && ']' !in token
    ensures var r := TakeBracket(token + "]" + rest, 1); r.0 == token && r.1 == rest
    decreases |token|
  {
    var s := token + "]" + rest;
    if token != "" {
      assert token[0] in token;
      assert s[1..] == token[1..] + "]" + rest;
      UntilBracket(token[1..], rest);
      assert [token[0]] + token[1..] == token;
    } else {
      assert s[1..] == rest;
    }
  }

  predicate NoWhitespace(s: string) { forall i :: 0 <= i < |s| ==> !IsWhitespace(s[i]) }

  lemma {:induction false} UntilSpace(word: string, rest: string)
    requires NoWhitespace(word)
    requires rest != "" ==> IsWhitespace(rest[0])
    ensures var r := TakeWord(word + rest); r.0 == word && r.1 == rest
    decreases |word|
  {
    if word != "" {
      assert (word + rest)[1..] == word[1..] + rest;
      UntilSpace(word[1..], rest);
      assert [word[0]] + word[1..] == word;
    } else {
      assert word + rest == rest;
    }
  }

  lemma TrimmedStays(s: string)
    requires Trimmed(s)
    ensures Trim(s) == s
  {
  }

  lemma TrimSpace(text: string)
    requires text != "" && Trimmed(text)
    ensures Trim(text + " ") == text
  {
    var s := text + " ";
    assert s[|s| - 1] == ' ' && s[..|s| - 1] == text;
    assert TrimStart(s) == s;
    assert TrimEnd(s) == TrimEnd(text);
  }

  lemma {:induction false} DotsGo(name: string)
    requires !EndsWith(name, "...")
    ensures EndsWith(name + "...", "...") && TrimDots(name + "...") == name
  {
    var s := name + "...";
    assert s[|s| - 3..] == "...";
    assert s[..|s| - 3] == name;
  }

  lemma {:induction false} NoSlash(s: string)
    requires '/' !in s
    ensures SplitOn(s, '/') == [s]
    decreases |s|
  {
    if s != "" {
      assert s[0] in s;
      NoSlash(s[1..]);
      assert [s[0]] + s[1..] == s;
    }
  }

  lemma SplitShort(c: char, long: string)
    requires c != '/' && '/' !in long
    ensures SplitOn(['-', c, '/'] + long, '/') == [['-', c], long]
  {
    NoSlash(long);
    var afterShort := ['/'] + long;
    assert afterShort[1..] == long;
    assert SplitOn(afterShort, '/') == ["", long];
    var afterDash := [c] + afterShort;
    assert afterDash[1..] == afterShort;
    assert [c] + "" == [c] && ["", long][1..] == [long];
    assert SplitOn(afterDash, '/') == [[c]] + [long];
    assert (['-', c, '/'] + long)[1..] == afterDash && ['-'] + [c] == ['-', c] && ([[c]] + [long])[1..] == [long];
  }

  lemma {:induction false} AngleAfter(s: string, rest: string)
    requires forall i :: 0 <= i < |s| ==> s[i] != '<'
    ensures FindAngle(s + "<" + rest) == |s|
    decreases |s|
  {
    if s != "" {
      assert (s + "<" + rest)[1..] == s[1..] + "<" + rest;
      AngleAfter(s[1..], rest);
    }
  }

  lemma {:induction false} NoAngle(s: string)
    requires '<' !in s
    ensures FindAngle(s) == |s|
    decreases |s|
  {
    if s != "" {
      NoAngle(s[1..]);
    }
  }

  // --------------------------------------------------------------- flag names

  /** A text that a bracket, an angle or a space cannot cut. */
  predicate Solid(text: string) {
    NoWhitespace(text) && '<' !in text && '[' !in text && ']' !in text
  }

  lemma FlagTextIsSolid(name: string, short: Option<char>)
    requires CleanFlag(name, short)
    ensures var text := FlagText(name, short);
            Solid(text) && Trimmed(text) && |text| >= 2 && text[0] == '-'
  {
    assert forall i :: 0 <= i < |name| ==> CleanChar(name[i]);
  }

  lemma LongIsRead(name: string)
    requires CleanFlag(name, None)
    ensures ParseFlagNames("--" + name) == Ok((None, name))
  {
    var text := "--" + name;
    FlagTextIsSolid(name, None);
    TrimmedStays(text);
    assert forall i :: 0 <= i < |name| ==> CleanChar(name[i]);
    assert '/' !in text;
    assert text[2..] == name;
  }

  lemma AliasIsRead(name: string, c: char)
    requires CleanFlag(name, Some(c))
    ensures ParseFlagNames(['-', c, '/'] + "--" + name) == Ok((Some(c), name))
  {
    var shortPart, longPart := ['-', c], "--" + name;
    var text := ['-', c, '/'] + longPart;
    assert ['-', c, '/'] + "--" + name == text == FlagText(name, Some(c));
    FlagTextIsSolid(name, Some(c));
    FlagTextIsSolid(name, None);
    TrimmedStays(text);
    TrimmedStays(shortPart);
    TrimmedStays(longPart);
    assert text[2] == '/';
    assert forall i :: 0 <= i < |name| ==> CleanChar(name[i]);
    SplitShort(c, longPart);
    assert longPart[2..] == name;
  }

  /** The flag text of a clean name and alias is read back. */
  lemma FlagTextIsRead(name: string, short: Option<char>)
    requires CleanFlag(name, short)
    ensures ParseFlagNames(FlagText(name, short)) == Ok((short, name))
  {
    if short.Some? {
      assert FlagText(name, short) == ['-', short.value, '/'] + "--" + name;
      AliasIsRead(name, short.value);
    } else {
      assert FlagText(name, short) == "--" + name;
      LongIsRead(name);
    }
  }

  lemma FlagIsAdded(s: Scan, name: string, short: Option<char>, required: bool)
    requires CleanFlag(name, short)
    ensures AddFlagOrOption(s, FlagText(name, short), required) == AddFlag(s, name, short)
  {
    var text := FlagText(name, short);
    FlagTextIsSolid(name, short);
    FlagTextIsRead(name, short);
    TrimmedStays(text);
    NoAngle(text);
  }

  lemma OptionIsAdded(s: Scan, name: string, short: Option<char>, value: string, required: bool)
    requires CleanFlag(name, short)
    ensures AddFlagOrOption(s, FlagText(name, short) + " <" + value + ">", required)
         == AddOption(s, name, short, required)
  {
    var text := FlagText(name, short);
    FlagTextIsSolid(name, short);
    FlagTextIsRead(name, short);
    var content := text + " <" + value + ">";
    TrimmedStays(content);
    assert content == (text + " ") + "<" + (value + ">");
    AngleAfter(text + " ", value + ">");
    assert content[..|text| + 1] == text + " ";
    TrimSpace(text);
  }

  // --------------------------------------------------------- one piece at a time

  /** What a piece adds. */
  function AddPiece(s: Scan, piece: Piece): Scanned {
    match piece
    case P(a) => AddPositional(s, a.name, a.required)
    case F(f) => AddFlag(s, f.name, f.short)
    case O(o) => AddOption(s, o.name, o.short, o.required)
    case V(v) => AddVariadic(s, v.name, v.required)
  }

  lemma AngleIsAdded(s: Scan, piece: Piece)
    requires CleanPiece(piece) && ((piece.P? && piece.arg.required) || (piece.V? && piece.variadic.required))
    ensures var token := if piece.P? then piece.arg.name else piece.variadic.name + "...";
            '>' !in token && AddAngle(s, token) == AddPiece(s, piece)
  {
    if piece.P? {
      TrimmedStays(piece.arg.name);
    } else {
      TrimmedStays(piece.variadic.name + "...");
      DotsGo(piece.variadic.name);
    }
  }

  function BracketToken(piece: Piece): string {
    match piece
    case P(a) => a.name
    case F(f) => FlagText(f.name, f.short)
    case O(o) => FlagText(o.name, o.short) + " <value>"
    case V(v) => v.name + "..."
  }

  predicate InBrackets(piece: Piece) {
    && (piece.P? ==> !piece.arg.required)
    && (piece.O? ==> !piece.option.required)
    && (piece.V? ==> !piece.variadic.required)
  }

  lemma BracketTokenIsWhole(piece: Piece)
    requires CleanPiece(piece) && InBrackets(piece)
    ensures '[' !in BracketToken(piece) && ']' !in BracketToken(piece) && Trimmed(BracketToken(piece))
    ensures StartsWith(BracketToken(piece), "-") <==> piece.F? || piece.O?
  {
    match piece
    case P(a) =>
    case F(f) => FlagTextIsSolid(f.name, f.short);
    case O(o) => OptionTextIsWhole(o.name, o.short);
    case V(v) => DashStays(v.name);
  }

  lemma OptionTextIsWhole(name: string, short: Option<char>)
    requires CleanFlag(name, short)
    ensures var text := FlagText(name, short) + " <value>";
            '[' !in text && ']' !in text && Trimmed(text) && StartsWith(text, "-")
  {
    FlagTextIsSolid(name, short);
  }

  lemma DashStays(name: string)
    requires !StartsWith(name, "-")
    ensures !StartsWith(name + "...", "-")
  {
    if name != "" {
      assert name[..1] == [name[0]] && (name + "...")[..1] == [name[0]];
    } else {
      assert (name + "...")[..1] == ".";
    }
  }

  lemma BracketIsAdded(s: Scan, piece: Piece)
    requires CleanPiece(piece) && InBrackets(piece)
    ensures AddBracket(s, BracketToken(piece)) == AddPiece(s, piece)
  {
    BracketTokenIsWhole(piece);
    TrimmedStays(BracketToken(piece));
    match piece
    case P(a) =>
    case F(f) => FlagIsAdded(s, f.name, f.short, false);
    case O(o) =>
      OptionText(o, "");
      OptionIsAdded(s, o.name, o.short, "value", false);
    case V(v) => DotsGo(v.name);
  }

  lemma AngleIsScanned(s: Scan, token: string, rest: string)
    requires '>' !in token
    ensures var text := "<" + token + ">" + rest;
            ScanToken(s, text).0 == AddAngle(s, token) && ScanToken(s, text).1 == rest
  {
    UntilStop(token, '>', rest);
    assert ("<" + token + ">" + rest)[1..] == token + ">" + rest;
  }

  lemma BracketIsScanned(s: Scan, token: string, rest: string)
    requires '[' !in token && ']' !in token
    ensures var text := "[" + token + "]" + rest;
            ScanToken(s, text).0 == AddBracket(s, token) && ScanToken(s, text).1 == rest
  {
    UntilBracket(token, rest);
    assert ("[" + token + "]" + rest)[1..] == token + "]" + rest;
  }

  lemma {:induction false} BlankIsSkipped(blank: string, rest: string)
    requires forall i :: 0 <= i < |blank| ==> IsWhitespace(blank[i])
    requires rest != "" ==> !IsWhitespace(rest[0])
    ensures TrimStart(blank + rest) == rest
    decreases |blank|
  {
    if blank == "" {
      assert blank + rest == rest;
    } else {
      assert (blank + rest)[1..] == blank[1..] + rest;
      BlankIsSkipped(blank[1..], rest);
    }
  }

  lemma DashIsScanned(s: Scan, flag: string, blank: string, value: string, rest: string)
    requires flag != "" && flag[0] == '-' && NoWhitespace(flag) && '>' !in value
    requires blank != "" && forall i :: 0 <= i < |blank| ==> IsWhitespace(blank[i])
    ensures var text := flag + blank + "<" + value + ">" + rest;
            && ScanToken(s, text).0 == AddFlagOrOption(s, flag + " <" + value + ">", true)
            && ScanToken(s, text).1 == rest
  {
    var text := flag + blank + "<" + value + ">" + rest;
    var next := "<" + value + ">" + rest;
    var tail := blank + next;
    assert text[1..] == flag[1..] + tail;
    UntilSpace(flag[1..], tail);
    BlankIsSkipped(blank, next);
    assert next[..1] == "<" && next[1..] == value + ">" + rest;
    UntilStop(value, '>', rest);
    assert "-" + flag[1..] + " <" + value + ">" == flag + " <" + value + ">";
  }

  /** `text` is scanned into `r`, and `rest` remains. */
  predicate Scans(s: Scan, text: string, r: Scanned, rest: string) {
    text != "" && ScanToken(s, text).0 == r && ScanToken(s, text).1 == rest
  }

  lemma InAngle(s: Scan, piece: Piece, rest: string)
    requires CleanPiece(piece) && !InBrackets(piece) && !piece.O?
    ensures Scans(s, PieceText(piece) + rest, AddPiece(s, piece), rest)
  {
    var token := if piece.P? then piece.arg.name else piece.variadic.name + "...";
    assert PieceText(piece) + rest == "<" + token + ">" + rest;
    AngleIsAdded(s, piece);
    AngleIsScanned(s, token, rest);
  }

  lemma InBracket(s: Scan, piece: Piece, rest: string)
    requires CleanPiece(piece) && InBrackets(piece)
    ensures Scans(s, PieceText(piece) + rest, AddPiece(s, piece), rest)
  {
    BracketText(piece, rest);
    BracketTokenIsWhole(piece);
    BracketIsAdded(s, piece);
    BracketIsScanned(s, BracketToken(piece), rest);
  }

  lemma BracketText(piece: Piece, rest: string)
    requires InBrackets(piece)
    ensures PieceText(piece) + rest == "[" + BracketToken(piece) + "]" + rest
  {
  }

  lemma AtTop(s: Scan, flag: FlagDef, blank: string, value: string, rest: string)
    requires CleanFlag(flag.name, flag.short) && '>' !in value
    requires blank != "" && forall i :: 0 <= i < |blank| ==> IsWhitespace(blank[i])
    ensures Scans(s, FlagText(flag.name, flag.short) + blank + "<" + value + ">" + rest,
                  AddOption(s, flag.name, flag.short, true), rest)
  {
    var text := FlagText(flag.name, flag.short);
    FlagTextIsSolid(flag.name, flag.short);
    OptionIsAdded(s, flag.name, flag.short, value, true);
    DashIsScanned(s, text, blank, value, rest);
  }

  lemma OptionText(o: OptionDef, rest: string)
    ensures o.required ==> PieceText(O(o)) + rest == FlagText(o.name, o.short) + " " + "<" + "value" + ">" + rest
    ensures !o.required ==> BracketToken(O(o)) == FlagText(o.name, o.short) + " <" + "value" + ">"
  {
  }

  lemma OptionAtTop(s: Scan, o: OptionDef, rest: string)
    requires CleanPiece(O(o)) && o.required
    ensures Scans(s, PieceText(O(o)) + rest, AddPiece(s, O(o)), rest)
  {
    OptionText(o, rest);
    AtTop(s, FlagDef(o.name, o.short), " ", "value", rest);
  }

  /** A clean piece at the head of a text is scanned into what it adds. */
  lemma PieceIsScanned(s: Scan, piece: Piece, rest: string)
    requires CleanPiece(piece)
    ensures Scans(s, PieceText(piece) + rest, AddPiece(s, piece), rest)
  {
    if InBrackets(piece) {
      InBracket(s, piece, rest);
    } else if piece.O? {
      OptionAtTop(s, piece.option, rest);
    } else {
      InAngle(s, piece, rest);
    }
  }

  // ---------------------------------------------------------------- all pieces

  function AddPieces(s: Scan, pieces: seq<Piece>): Scanned
    decreases |pieces|
  {
    if pieces == [] then Ok(s)
    else
      match AddPiece(s, pieces[0])
      case Err(e) => Err(e)
      case Ok(next) => AddPieces(next, pieces[1..])
  }

  lemma SpaceIsSkipped(s: Scan, text: string)
    ensures ScanFrom(s, " " + text) == ScanFrom(s, text)
  {
    assert (" " + text)[1..] == text;
    assert ScanToken(s, " " + text) == (Ok(s), text);
  }

  function Then(r: Scanned, rest: string): Scanned {
    match r case Err(e) => Err(e) case Ok(next) => ScanFrom(next, rest)
  }

  lemma TokenThenRest(s: Scan, text: string, r: Scanned, rest: string)
    requires Scans(s, text, r, rest)
    ensures ScanFrom(s, text) == Then(r, rest)
  {
    assert ScanToken(s, text) == (r, rest);
  }

  lemma {:induction false} SpacedIsScanned(s: Scan, pieces: seq<Piece>)
    requires forall i :: 0 <= i < |pieces| ==> CleanPiece(pieces[i])
    ensures ScanFrom(s, Spaced(pieces)) == AddPieces(s, pieces)
    decreases |pieces|
  {
    if pieces != [] {
      var rest := Spaced(pieces[1..]);
      var text := PieceText(pieces[0]) + rest;
      var r := AddPiece(s, pieces[0]);
      assert Spaced(pieces) == " " + text;
      SpaceIsSkipped(s, text);
      PieceIsScanned(s, pieces[0], rest);
      TokenThenRest(s, text, r, rest);
      if r.Ok? {
        SpacedIsScanned(r.value, pieces[1..]);
      }
    }
  }

  lemma PieceIsTrimmed(piece: Piece)
    ensures var text := PieceText(piece); text != "" && Trimmed(text)
  {
  }

  lemma {:induction false} SpacedEnd(pieces: seq<Piece>)
    requires pieces != []
    ensures |Spaced(pieces)| >= 2 && !IsWhitespace(Spaced(pieces)[1])
    ensures !IsWhitespace(Spaced(pieces)[|Spaced(pieces)| - 1])
    decreases |pieces|
  {
    PieceIsTrimmed(pieces[0]);
    if |pieces| > 1 {
      SpacedEnd(pieces[1..]);
    } else {
      assert Spaced(pieces[1..]) == "";
    }
  }

  /** Scanning the printed text is adding its pieces. */
  lemma PrintIsScanned(spec: Spec)
    requires forall i :: 0 <= i < |Pieces(spec)| ==> CleanPiece(Pieces(spec)[i])
    ensures ScanFrom(START, Trim(Print(spec))) == AddPieces(START, Pieces(spec))
  {
    var pieces := Pieces(spec);
    SpacedIsScanned(START, pieces);
    if pieces != [] {
      SpacedEnd(pieces);
      TrimmedStays(Print(spec));
      assert Spaced(pieces)[0] == ' ';
    }
  }

  // ------------------------------------------------------ the pieces of a spec

  function NameOf(piece: Piece): string {
    match piece
    case P(a) => a.name
    case F(f) => f.name
    case O(o) => o.name
    case V(v) => v.name
  }

  function Names(pieces: seq<Piece>): seq<string> { seq(|pieces|, i requires 0 <= i < |pieces| => NameOf(pieces[i])) }

  lemma PiecesHaveTheNames(spec: Spec)
    ensures multiset(Names(Pieces(spec))) == NameBag(spec)
  {
    var v := if spec.variadic.Some? then [spec.variadic.value.name] else [];
    assert Names(Pieces(spec))
        == PositionalNames(spec.positional) + FlagNames(spec.flags) + OptionNames(spec.options) + v;
  }

  lemma NameIsFresh(spec: Spec, n: nat)
    requires DistinctNames(spec) && n < |Pieces(spec)|
    ensures NameOf(Pieces(spec)[n]) !in Names(Pieces(spec))[..n]
  {
    var names := Names(Pieces(spec));
    PiecesHaveTheNames(spec);
    if names[n] in names[..n] {
      var i :| 0 <= i < n && names[..n][i] == names[n];
      TwiceInBag(names, i, n);
    }
  }

  function Clamp(n: int, limit: nat): nat { if n < 0 then 0 else if n < limit then n else limit }

  /** The spec that the first `n` pieces make. */
  function Partial(spec: Spec, n: nat): Spec {
    var f := n - |spec.positional|;
    var o := f - |spec.flags|;
    Spec(spec.positional[..Clamp(n, |spec.positional|)], spec.flags[..Clamp(f, |spec.flags|)],
         spec.options[..Clamp(o, |spec.options|)], if o > |spec.options| then spec.variadic else None)
  }

  ghost predicate Reached(s: Scan, spec: Spec, n: nat)
    requires n <= |Pieces(spec)|
  {
    && s.spec == Partial(spec, n)
    && (forall name :: name in s.names <==> name in Names(Pieces(spec))[..n])
    && (s.seenOptional ==> exists i :: 0 <= i < Clamp(n, |spec.positional|) && !spec.positional[i].required)
  }

  lemma NamesGrow(s: Scan, t: Scan, spec: Spec, n: nat)
    requires n < |Pieces(spec)| && Reached(s, spec, n) && t.names == s.names + {NameOf(Pieces(spec)[n])}
    ensures forall name :: name in t.names <==> name in Names(Pieces(spec))[..n + 1]
  {
    var names := Names(Pieces(spec));
    assert names[..n + 1] == names[..n] + [NameOf(Pieces(spec)[n])];
  }

  lemma PositionalReaches(s: Scan, spec: Spec, n: nat)
    requires DistinctNames(spec) && RequiredFirst(spec) && n < |spec.positional| && Reached(s, spec, n)
    ensures var r := AddPiece(s, Pieces(spec)[n]); r.Ok? && Reached(r.value, spec, n + 1)
  {
    var a := spec.positional[n];
    assert Pieces(spec)[n] == P(a);
    NameIsFresh(spec, n);
    var r := AddPiece(s, P(a));
    NamesGrow(s, r.value, spec, n);
    assert r.value.spec.positional == spec.positional[..n + 1];
  }

  lemma FlagReaches(s: Scan, spec: Spec, n: nat)
    requires DistinctNames(spec) && |spec.positional| <= n < |spec.positional| + |spec.flags| && Reached(s, spec, n)
    ensures var r := AddPiece(s, Pieces(spec)[n]); r.Ok? && Reached(r.value, spec, n + 1)
  {
    var k := n - |spec.positional|;
    assert Pieces(spec)[n] == F(spec.flags[k]);
    NameIsFresh(spec, n);
    var r := AddPiece(s, F(spec.flags[k]));
    NamesGrow(s, r.value, spec, n);
    assert r.value.spec.flags == spec.flags[..k + 1];
  }

  lemma OptionReaches(s: Scan, spec: Spec, n: nat)
    requires DistinctNames(spec) && 0 <= n - |spec.positional| - |spec.flags| < |spec.options|
    requires Reached(s, spec, n)
    ensures var r := AddPiece(s, Pieces(spec)[n]); r.Ok? && Reached(r.value, spec, n + 1)
  {
    var k := n - |spec.positional| - |spec.flags|;
    assert Pieces(spec)[n] == O(spec.options[k]);
    NameIsFresh(spec, n);
    var r := AddPiece(s, O(spec.options[k]));
    NamesGrow(s, r.value, spec, n);
    assert r.value.spec.options == spec.options[..k + 1];
  }

  lemma VariadicReaches(s: Scan, spec: Spec, n: nat)
    requires DistinctNames(spec) && n == |spec.positional| + |spec.flags| + |spec.options| && spec.variadic.Some?
    requires Reached(s, spec, n)
    ensures var r := AddPiece(s, Pieces(spec)[n]); r.Ok? && Reached(r.value, spec, n + 1)
  {
    assert Pieces(spec)[n] == V(spec.variadic.value);
    NameIsFresh(spec, n);
    NamesGrow(s, AddPiece(s, V(spec.variadic.value)).value, spec, n);
  }

  lemma {:induction false} PieceIsAppended(s: Scan, pieces: seq<Piece>, last: Piece)
    ensures AddPieces(s, pieces + [last])
         == (match AddPieces(s, pieces) case Err(e) => Err(e) case Ok(next) => AddPiece(next, last))
    decreases |pieces|
  {
    if pieces == [] {
      assert pieces + [last] == [last];
    } else {
      assert (pieces + [last])[0] == pieces[0] && (pieces + [last])[1..] == pieces[1..] + [last];
      if AddPiece(s, pieces[0]).Ok? {
        PieceIsAppended(AddPiece(s, pieces[0]).value, pieces[1..], last);
      }
    }
  }

  /** The pieces of a spec with distinct names and required positionals first are all accepted. */
  lemma {:induction false} PiecesAreAdded(spec: Spec, n: nat)
    requires DistinctNames(spec) && RequiredFirst(spec) && n <= |Pieces(spec)|
    ensures var r := AddPieces(START, Pieces(spec)[..n]); r.Ok? && Reached(r.value, spec, n)
    decreases n
  {
    if n > 0 {
      PiecesAreAdded(spec, n - 1);
      var before := Pieces(spec)[..n - 1];
      var s := AddPieces(START, before).value;
      assert Pieces(spec)[..n] == before + [Pieces(spec)[n - 1]];
      PieceIsAppended(START, before, Pieces(spec)[n - 1]);
      if n <= |spec.positional| {
        PositionalReaches(s, spec, n - 1);
      } else if n <= |spec.positional| + |spec.flags| {
        FlagReaches(s, spec, n - 1);
      } else if n <= |spec.positional| + |spec.flags| + |spec.options| {
        OptionReaches(s, spec, n - 1);
      } else {
        VariadicReaches(s, spec, n - 1);
      }
    }
  }

  /** Main result: parsing the printed form of a well-formed spec gives the spec back. */
  lemma RoundTrip(spec: Spec)
    requires WellFormed(spec)
    ensures Parse(Print(spec)) == Ok(spec)
  {
    var n := |Pieces(spec)|;
    PrintIsScanned(spec);
    PiecesAreAdded(spec, n);
    assert Pieces(spec)[..n] == Pieces(spec);
    assert Partial(spec, n) == spec;
  }

  // --------------------------------------------------------- flags at top level

  lemma AfterDash(flag: string, rest: string)
    requires flag != "" && flag[0] == '-'
    ensures (flag + rest)[0] == '-' && (flag + rest)[1..] == flag[1..] + rest && "-" + flag[1..] == flag
  {
  }

  lemma WordIsScanned(s: Scan, flag: string, rest: string)
    requires flag != "" && flag[0] == '-' && NoWhitespace(flag)
    requires (rest != "" ==> IsWhitespace(rest[0])) && !StartsWith(TrimStart(rest), "<")
    ensures Scans(s, flag + rest, AddFlagOrOption(s, flag, true), TrimStart(rest))
  {
    AfterDash(flag, rest);
    UntilSpace(flag[1..], rest);
  }

  /** A flag written without brackets, and no `<` after it, is read as that flag ... */
  lemma FlagAtTop(s: Scan, f: FlagDef, rest: string)
    requires CleanPiece(F(f)) && (rest != "" ==> IsWhitespace(rest[0])) && !StartsWith(TrimStart(rest), "<")
    ensures Scans(s, FlagText(f.name, f.short) + rest, AddPiece(s, F(f)), TrimStart(rest))
  {
    FlagTextIsSolid(f.name, f.short);
    FlagIsAdded(s, f.name, f.short, true);
    WordIsScanned(s, FlagText(f.name, f.short), rest);
  }

  lemma ArgText(before: string, arg: ArgDef, rest: string)
    requires arg.required
    ensures before + PieceText(P(arg)) + rest == before + "<" + arg.name + ">" + rest
  {
  }

  /** ... but with a `<..>` after it, whatever the white space between, it is read as a required option
      and the `<..>` is lost as its placeholder: this is why flags are printed in brackets. */
  lemma FlagBeforeAngle(s: Scan, f: FlagDef, blank: string, arg: ArgDef, rest: string)
    requires CleanPiece(F(f)) && arg.required && CleanPiece(P(arg))
    requires blank != "" && forall i :: 0 <= i < |blank| ==> IsWhitespace(blank[i])
    ensures Scans(s, FlagText(f.name, f.short) + blank + PieceText(P(arg)) + rest,
                  AddPiece(s, O(OptionDef(f.name, f.short, true))), rest)
  {
    ArgText(FlagText(f.name, f.short) + blank, arg, rest);
    AtTop(s, f, blank, arg.name, rest);
  }
}

/** What the argument-spec parser accepts and what it refuses, in terms of the texts of the arguments. */
module ArgLaws {
  import opened Wrappers
  import opened State
  import opened ArgSpec
  import opened ArgRoundTrip

  // ------------------------------------------------------------------- the laws

  predicate IsOptional(piece: Piece) { piece.P? && !piece.arg.required }

  predicate IsRequired(piece: Piece) { piece.P? && piece.arg.required }

  /** The later of two arguments may not stand behind the earlier one. */
  predicate Clash(earlier: Piece, later: Piece) {
    || NameOf(earlier) == NameOf(later)
    || (IsOptional(earlier) && IsRequired(later))
    || (earlier.V? && (later.P? || later.V?))
  }

  /** Names are distinct, no required positional comes behind an optional one, and neither a positional nor
      a variadic behind a variadic. */
  ghost predicate Acceptable(pieces: seq<Piece>) {
    forall i, j :: 0 <= i < j < |pieces| ==> !Clash(pieces[i], pieces[j])
  }

  /** Some piece has this name. */
  predicate Taken(pieces: seq<Piece>, name: string) { exists i :: 0 <= i < |pieces| && NameOf(pieces[i]) == name }

  predicate HasVariadic(pieces: seq<Piece>) { exists i :: 0 <= i < |pieces| && pieces[i].V? }

  predicate HasOptional(pieces: seq<Piece>) { exists i :: 0 <= i < |pieces| && IsOptional(pieces[i]) }

  /** What is wrong with a piece behind others: for a positional its place comes before its name, for a
      variadic its name before its place. */
  function Fault(before: seq<Piece>, piece: Piece): Option<SpecError> {
    var name := NameOf(piece);
    if piece.P? && HasVariadic(before) then Some(VariadicNotLast(name))
    else if IsRequired(piece) && HasOptional(before) then Some(OptionalBeforeRequired(name))
    else if Taken(before, name) then Some(DuplicateName(name))
    else if piece.V? && HasVariadic(before) then Some(VariadicNotLast(name))
    else None
  }

  /** The spec that some pieces spell: each argument in its list, in order. */
  function SpecOf(pieces: seq<Piece>): Spec {
    if pieces == [] then NO_ARGS
    else
      var spec := SpecOf(pieces[..|pieces| - 1]);
      match pieces[|pieces| - 1]
      case P(a) => spec.(positional := spec.positional + [a])
      case F(f) => spec.(flags := spec.flags + [f])
      case O(o) => spec.(options := spec.options + [o])
      case V(v) => spec.(variadic := Some(v))
  }

  lemma FaultIsClash(before: seq<Piece>, piece: Piece)
    ensures Fault(before, piece).Some? <==> exists i :: 0 <= i < |before| && Clash(before[i], piece)
  {
    if exists i :: 0 <= i < |before| && Clash(before[i], piece) {
      var i :| 0 <= i < |before| && Clash(before[i], piece);
    }
  }

  // ------------------------------------------------------------ pieces are judged so

  /** What the scanner has built from some pieces. */
  ghost predicate Built(s: Scan, pieces: seq<Piece>) {
    && s.spec == SpecOf(pieces)
    && (forall name :: name in s.names <==> Taken(pieces, name))
    && (s.seenOptional <==> HasOptional(pieces))
    && (s.spec.variadic.Some? <==> HasVariadic(pieces))
  }

  lemma TakenMore(pieces: seq<Piece>, piece: Piece)
    ensures forall name :: Taken(pieces + [piece], name) <==> Taken(pieces, name) || name == NameOf(piece)
    ensures HasVariadic(pieces + [piece]) <==> HasVariadic(pieces) || piece.V?
    ensures HasOptional(pieces + [piece]) <==> HasOptional(pieces) || IsOptional(piece)
    ensures SpecOf(pieces + [piece])
         == (var spec := SpecOf(pieces);
             match piece
             case P(a) => spec.(positional := spec.positional + [a])
             case F(f) => spec.(flags := spec.flags + [f])
             case O(o) => spec.(options := spec.options + [o])
             case V(v) => spec.(variadic := Some(v)))
  {
    var more := pieces + [piece];
    assert more[|pieces|] == piece && more[..|pieces|] == pieces;
    forall name | Taken(pieces, name)
      ensures Taken(more, name)
    {
      var i :| 0 <= i < |pieces| && NameOf(pieces[i]) == name;
      assert more[i] == pieces[i];
    }
    if i :| 0 <= i < |pieces| && pieces[i].V? {
      assert more[i] == pieces[i];
    }
    if i :| 0 <= i < |pieces| && IsOptional(pieces[i]) {
      assert more[i] == pieces[i];
    }
  }

  lemma PieceIsJudged(s: Scan, before: seq<Piece>, piece: Piece)
    requires Built(s, before)
    ensures match Fault(before, piece)
            case Some(e) => AddPiece(s, piece) == Err(e)
            case None => AddPiece(s, piece).Ok? && Built(AddPiece(s, piece).value, before + [piece])
  {
    TakenMore(before, piece);
  }

  /** Nothing is wrong with any piece behind those before it. */
  ghost predicate Faultless(pieces: seq<Piece>) {
    forall n :: 0 <= n < |pieces| ==> Fault(pieces[..n], pieces[n]).None?
  }

  lemma {:induction false} FaultlessIsBuilt(pieces: seq<Piece>)
    requires Faultless(pieces)
    ensures AddPieces(START, pieces).Ok? && Built(AddPieces(START, pieces).value, pieces)
    decreases |pieces|
  {
    if pieces != [] {
      var last := |pieces| - 1;
      var front := pieces[..last];
      forall n | 0 <= n < |front|
        ensures Fault(front[..n], front[n]).None?
      {
        assert front[..n] == pieces[..n];
      }
      FaultlessIsBuilt(front);
      assert pieces == front + [pieces[last]];
      PieceIsAppended(START, front, pieces[last]);
      PieceIsJudged(AddPieces(START, front).value, front, pieces[last]);
    }
  }

  lemma {:induction false} ErrorStops(s: Scan, a: seq<Piece>, b: seq<Piece>)
    requires AddPieces(s, a).Err?
    ensures AddPieces(s, a + b) == AddPieces(s, a)
    decreases |a|
  {
    assert a != [] && (a + b)[0] == a[0] && (a + b)[1..] == a[1..] + b;
    if AddPiece(s, a[0]).Ok? {
      ErrorStops(AddPiece(s, a[0]).value, a[1..], b);
    }
  }

  /** The first piece with which something is wrong decides. */
  lemma FirstFaultDecides(pieces: seq<Piece>, n: nat)
    requires n < |pieces| && Faultless(pieces[..n]) && Fault(pieces[..n], pieces[n]).Some?
    ensures AddPieces(START, pieces) == Err(Fault(pieces[..n], pieces[n]).value)
  {
    InThree(pieces, n);
    FaultDecides(pieces[..n], pieces[n], pieces[n + 1..]);
  }

  lemma InThree(pieces: seq<Piece>, n: nat)
    requires n < |pieces|
    ensures pieces == pieces[..n] + [pieces[n]] + pieces[n + 1..]
  {
  }

  lemma FaultDecides(front: seq<Piece>, piece: Piece, rest: seq<Piece>)
    requires Faultless(front) && Fault(front, piece).Some?
    ensures AddPieces(START, front + [piece] + rest) == Err(Fault(front, piece).value)
  {
    FaultStops(front, piece);
    ErrorStops(START, front + [piece], rest);
  }

  lemma FaultStops(front: seq<Piece>, piece: Piece)
    requires Faultless(front) && Fault(front, piece).Some?
    ensures AddPieces(START, front + [piece]) == Err(Fault(front, piece).value)
  {
    FaultlessIsBuilt(front);
    PieceIsJudged(AddPieces(START, front).value, front, piece);
    PieceIsAppended(START, front, piece);
  }

  lemma AcceptableIsFaultless(pieces: seq<Piece>)
    ensures Acceptable(pieces) <==> Faultless(pieces)
  {
    if Acceptable(pieces) {
      forall n | 0 <= n < |pieces|
        ensures Fault(pieces[..n], pieces[n]).None?
      {
        FaultIsClash(pieces[..n], pieces[n]);
      }
    }
    if Faultless(pieces) {
      forall i, j | 0 <= i < j < |pieces|
        ensures !Clash(pieces[i], pieces[j])
      {
        FaultIsClash(pieces[..j], pieces[j]);
        assert pieces[..j][i] == pieces[i];
      }
    }
  }

  /** Where the first fault is. */
  lemma {:induction false} FirstFault(pieces: seq<Piece>) returns (n: nat)
    requires !Faultless(pieces)
    ensures n < |pieces| && Faultless(pieces[..n]) && Fault(pieces[..n], pieces[n]).Some?
    decreases |pieces|
  {
    var last := |pieces| - 1;
    var front := pieces[..last];
    if Faultless(front) {
      n := last;
      if Fault(front, pieces[last]).None? {
        forall k | 0 <= k < |pieces|
          ensures Fault(pieces[..k], pieces[k]).None?
        {
          if k < last {
            assert front[..k] == pieces[..k] && front[k] == pieces[k];
          }
        }
      }
    } else {
      n := FirstFault(front);
      assert front[..n] == pieces[..n];
    }
  }

  // ------------------------------------------------------------ texts are judged so

  predicate AllClean(pieces: seq<Piece>) { forall i :: 0 <= i < |pieces| ==> CleanPiece(pieces[i]) }

  lemma OneThen(s: Scan, piece: Piece, tail: string)
    requires CleanPiece(piece)
    ensures ScanFrom(s, " " + (PieceText(piece) + tail)) == Then(AddPiece(s, piece), tail)
  {
    SpaceIsSkipped(s, PieceText(piece) + tail);
    PieceIsScanned(s, piece, tail);
    TokenThenRest(s, PieceText(piece) + tail, AddPiece(s, piece), tail);
  }

  lemma SpacedUnfolds(pieces: seq<Piece>, rest: string)
    requires pieces != []
    ensures Spaced(pieces) + rest == " " + (PieceText(pieces[0]) + (Spaced(pieces[1..]) + rest))
  {
    var a, b, c := PieceText(pieces[0]), Spaced(pieces[1..]), rest;
    assert " " + a + b + c == " " + (a + (b + c));
  }

  /** Scanning a text of pieces, and then what follows. */
  lemma {:induction false} SpacedThen(s: Scan, pieces: seq<Piece>, rest: string)
    requires AllClean(pieces)
    ensures ScanFrom(s, Spaced(pieces) + rest) == Then(AddPieces(s, pieces), rest)
    decreases |pieces|
  {
    if pieces == [] {
      assert Spaced(pieces) + rest == rest;
    } else {
      var r := AddPiece(s, pieces[0]);
      SpacedUnfolds(pieces, rest);
      OneThen(s, pieces[0], Spaced(pieces[1..]) + rest);
      if r.Ok? {
        SpacedThen(r.value, pieces[1..], rest);
      }
    }
  }

  /** The first character of a text of pieces is blank, and no other at its ends is. */
  lemma ParseOfSpaced(pieces: seq<Piece>)
    requires AllClean(pieces)
    ensures Parse(Spaced(pieces))
         == match AddPieces(START, pieces) case Err(e) => Err(e) case Ok(s) => Ok(s.spec)
  {
    var text := Spaced(pieces);
    SpacedIsScanned(START, pieces);
    if pieces != [] {
      SpacedEnd(pieces);
      assert text == " " + text[1..];
      SpaceIsSkipped(START, text[1..]);
      TrimmedStays(text[1..]);
      assert TrimStart(text) == TrimStart(text[1..]);
    }
  }

  /** Main result: a text of arguments, each as it is printed, is accepted if and only if the laws hold, and is
      then read as what it spells; and otherwise the error names the first argument that breaks a law behind
      those before it. */
  lemma LawsAreExact(pieces: seq<Piece>)
    requires AllClean(pieces)
    ensures Parse(Spaced(pieces)).Ok? <==> Acceptable(pieces)
    ensures Acceptable(pieces) ==> Parse(Spaced(pieces)) == Ok(SpecOf(pieces))
    ensures forall n :: 0 <= n < |pieces| && Acceptable(pieces[..n]) && Fault(pieces[..n], pieces[n]).Some? ==>
              Parse(Spaced(pieces)) == Err(Fault(pieces[..n], pieces[n]).value)
  {
    ParseOfSpaced(pieces);
    AcceptableIsFaultless(pieces);
    if Faultless(pieces) {
      FaultlessIsBuilt(pieces);
    } else {
      var n := FirstFault(pieces);
      FirstFaultDecides(pieces, n);
    }
    forall n | 0 <= n < |pieces| && Acceptable(pieces[..n]) && Fault(pieces[..n], pieces[n]).Some?
      ensures Parse(Spaced(pieces)) == Err(Fault(pieces[..n], pieces[n]).value)
    {
      FirstBreakIsNamed(pieces, n);
    }
  }

  lemma FirstBreakIsNamed(pieces: seq<Piece>, n: nat)
    requires AllClean(pieces) && n < |pieces| && Acceptable(pieces[..n]) && Fault(pieces[..n], pieces[n]).Some?
    ensures Parse(Spaced(pieces)) == Err(Fault(pieces[..n], pieces[n]).value)
  {
    ParseOfSpaced(pieces);
    AcceptableIsFaultless(pieces[..n]);
    FirstFaultDecides(pieces, n);
  }

  lemma TwoPieces(a: Piece, b: Piece)
    ensures Spaced([a, b]) == " " + PieceText(a) + " " + PieceText(b)
  {
    assert [a, b][1..] == [b] && [b][1..] == [];
    assert Spaced([b]) == " " + PieceText(b) + "";
    assert " " + PieceText(a) + (" " + PieceText(b)) == " " + PieceText(a) + " " + PieceText(b);
  }

  lemma SecondBehind(a: Piece, b: Piece)
    requires a.V? && b.P?
    ensures Acceptable([a, b][..1]) && Fault([a, b][..1], [a, b][1]) == Some(VariadicNotLast(NameOf(b)))
  {
    assert [a, b][..1] == [a] && [a][0].V?;
  }

  /** A positional behind the variadic, at its input. */
  lemma VariadicComesLast(files: string, other: string)
    requires CleanPiece(V(VariadicDef(files, true))) && CleanPiece(P(ArgDef(other, true)))
    ensures Parse(" <" + files + "...> <" + other + ">") == Err(VariadicNotLast(other))
  {
    var a, b := V(VariadicDef(files, true)), P(ArgDef(other, true));
    var pieces := [a, b];
    SecondBehind(a, b);
    TwoPieces(a, b);
    TwoTexts(files, other);
    FirstBreakIsNamed(pieces, 1);
  }

  lemma TwoTexts(files: string, other: string)
    ensures " <" + files + "...> <" + other + ">"
         == " " + PieceText(V(VariadicDef(files, true))) + " " + PieceText(P(ArgDef(other, true)))
  {
  }

  // ------------------------------------------------------------------- strangers

  lemma {:induction false} TrimKeeps(before: string, c: char, after: string) returns (rest: string)
    requires !IsWhitespace(c)
    ensures TrimEnd(before + [c] + after) == before + [c] + rest
    decreases |after|
  {
    var text := before + [c] + after;
    rest := after;
    if after != "" && IsWhitespace(after[|after| - 1]) {
      assert text[..|text| - 1] == before + [c] + after[..|after| - 1];
      rest := TrimKeeps(before, c, after[..|after| - 1]);
    }
  }

  /** A character that begins no argument, where one is to begin, is refused. */
  lemma StrangersAreRefused(pieces: seq<Piece>, c: char, after: string)
    requires AllClean(pieces) && Acceptable(pieces)
    requires c != '<' && c != '[' && c != '-' && !IsWhitespace(c)
    ensures Parse(Spaced(pieces) + " " + [c] + after) == Err(InvalidSyntax([c]))
  {
    var inner := (Spaced(pieces) + " ")[1..];
    FirstIsSolid(pieces, c, after);
    FirstIsBlank(Spaced(pieces), inner, c, after);
    var rest := TrimKeeps(inner, c, after);
    StrangerBehind(pieces, inner, c, rest);
  }

  lemma FirstIsBlank(spaced: string, inner: string, c: char, after: string)
    requires spaced == "" || spaced[0] == ' '
    requires inner == (spaced + " ")[1..]
    requires var text := spaced + " " + [c] + after; |text| > 1 && !IsWhitespace(text[1])
    ensures TrimStart(spaced + " " + [c] + after) == inner + [c] + after
  {
    var text := spaced + " " + [c] + after;
    assert text[0] == ' ' && text[1..] == inner + [c] + after;
    assert TrimStart(text) == TrimStart(text[1..]) == text[1..];
  }

  lemma StrangerBehind(pieces: seq<Piece>, inner: string, c: char, rest: string)
    requires AllClean(pieces) && Acceptable(pieces) && " " + inner == Spaced(pieces) + " "
    requires c != '<' && c != '[' && c != '-' && !IsWhitespace(c)
    ensures ScanFrom(START, inner + [c] + rest) == Err(InvalidSyntax([c]))
  {
    SpaceIsSkipped(START, inner + [c] + rest);
    Regrouped(inner, Spaced(pieces), c, rest);
    SpacedThen(START, pieces, " " + ([c] + rest));
    AcceptedThen(pieces, c, rest);
  }

  lemma AcceptedThen(pieces: seq<Piece>, c: char, rest: string)
    requires Acceptable(pieces) && c != '<' && c != '[' && c != '-' && !IsWhitespace(c)
    ensures Then(AddPieces(START, pieces), " " + ([c] + rest)) == Err(InvalidSyntax([c]))
  {
    AcceptableIsFaultless(pieces);
    FaultlessIsBuilt(pieces);
    StrangerStops(AddPieces(START, pieces).value, c, rest);
  }

  lemma Regrouped(inner: string, spaced: string, c: char, rest: string)
    requires " " + inner == spaced + " "
    ensures " " + (inner + [c] + rest) == spaced + (" " + ([c] + rest))
  {
    assert " " + (inner + [c] + rest) == (" " + inner) + ([c] + rest);
  }

  lemma FirstIsSolid(pieces: seq<Piece>, c: char, after: string)
    requires !IsWhitespace(c)
    ensures var text := Spaced(pieces) + " " + [c] + after; |text| > 1 && !IsWhitespace(text[1])
  {
    if pieces != [] {
      SpacedEnd(pieces);
    }
  }

  lemma StrangerStops(s: Scan, c: char, rest: string)
    requires c != '<' && c != '[' && c != '-' && !IsWhitespace(c)
    ensures ScanFrom(s, " " + ([c] + rest)) == Err(InvalidSyntax([c]))
  {
    SpaceIsSkipped(s, [c] + rest);
    assert ScanToken(s, [c] + rest).0 == Err(InvalidSyntax([c]));
  }

  // ------------------------------------------------------- other ways of writing

  /** A bracket that nothing closes takes all there is. */
  lemma {:induction false} NothingCloses(s: string, stop: char)
    requires stop !in s
    ensures TakeUntil(s, stop) == (s, "")
    decreases |s|
  {
    if s != "" {
      assert s[0] in s;
      NothingCloses(s[1..], stop);
      assert [s[0]] + s[1..] == s;
    }
  }

  lemma UnclosedAngle(name: string)
    requires name != "" && Trimmed(name) && '>' !in name && !EndsWith(name, "...")
    ensures Parse("<" + name) == Ok(Spec([ArgDef(name, true)], [], [], None))
  {
    var text := "<" + name;
    TrimmedStays(text);
    TrimmedStays(name);
    assert text[1..] == name;
    NothingCloses(name, '>');
    assert [] + [ArgDef(name, true)] == [ArgDef(name, true)];
    TokenThenRest(START, text, AddAngle(START, name), "");
    assert ScanFrom(AddAngle(START, name).value, "") == AddAngle(START, name);
  }

  /** How deep the brackets are behind a text, and that it never closes more than it opens. */
  function Depth(token: string): int {
    if token == "" then 0
    else
      var last := token[|token| - 1];
      Depth(token[..|token| - 1]) + if last == '[' then 1 else if last == ']' then -1 else 0
  }

  ghost predicate Balanced(token: string) {
    Depth(token) == 0 && forall n :: 0 <= n <= |token| ==> Depth(token[..n]) >= 0
  }

  lemma {:induction false} DepthSplit(a: string, b: string)
    ensures Depth(a + b) == Depth(a) + Depth(b)
    decreases |b|
  {
    if b == "" {
      assert a + b == a;
    } else {
      assert (a + b)[..|a + b| - 1] == a + b[..|b| - 1];
      DepthSplit(a, b[..|b| - 1]);
    }
  }

  lemma DepthOne(c: char)
    ensures Depth([c]) == if c == '[' then 1 else if c == ']' then -1 else 0
  {
    assert [c][..0] == "";
  }

  /** A bracket reaches to the one that closes it, over brackets within. */
  lemma {:induction false} BracketsNest(token: string, rest: string, depth: nat)
    requires depth > 0 && Depth(token) == 1 - depth
    requires forall n :: 0 <= n <= |token| ==> depth + Depth(token[..n]) >= 1
    ensures TakeBracket(token + "]" + rest, depth) == (token, rest)
    decreases |token|
  {
    var s := token + "]" + rest;
    if token == "" {
      assert s[1..] == rest;
    } else {
      var tail := token[1..];
      assert s[1..] == tail + "]" + rest && token == [token[0]] + tail;
      var first := Depth([token[0]]);
      DepthOne(token[0]);
      DepthSplit([token[0]], tail);
      assert token[..1] == [token[0]];
      forall n | 0 <= n <= |tail|
        ensures depth + first + Depth(tail[..n]) >= 1
      {
        assert token[..n + 1] == [token[0]] + tail[..n];
        DepthSplit([token[0]], tail[..n]);
      }
      BracketsNest(tail, rest, depth + first);
    }
  }

  /** An optional positional may have balanced brackets in its name. */
  lemma NestedBracket(s: Scan, token: string, rest: string)
    requires Balanced(token)
    ensures var text := "[" + token + "]" + rest;
            ScanToken(s, text).0 == AddBracket(s, token) && ScanToken(s, text).1 == rest
  {
    BracketsNest(token, rest, 1);
    assert ("[" + token + "]" + rest)[1..] == token + "]" + rest;
  }

  /** A flag with one dash is named by its letter, and what is behind the letter is lost. */
  lemma ShortOnlyIsRead(c: char, more: string)
    requires c != '-' && '/' !in more && c != '/' && Trimmed("-" + [c] + more)
    ensures ParseFlagNames("-" + [c] + more) == Ok((Some(c), [c]))
  {
    var text := "-" + [c] + more;
    TrimmedStays(text);
    assert text[1] == c && text[..1] == "-" && text[..2] == "-" + [c];
  }

  /** What is no flag is refused. */
  lemma FlagsRefused(text: string)
    requires Trimmed(text) && '/' !in text
    ensures !StartsWith(text, "-") ==> ParseFlagNames(text) == Err(InvalidSyntax(text))
    ensures text == "-" ==> ParseFlagNames(text) == Err(InvalidSyntax("empty flag"))
  {
    TrimmedStays(text);
  }

  /** An alias stands alone before the one slash, with one dash, and the name behind it with two. */
  lemma AliasesRefused(a: string, b: string)
    requires Trimmed(a) && Trimmed(b) && Trimmed(a + "/" + b) && '/' !in a && '/' !in b
    ensures var r := ParseFlagNames(a + "/" + b);
            if !StartsWith(a, "-") || StartsWith(a, "--") then r == Err(InvalidSyntax(a))
            else if !StartsWith(b, "--") then r == Err(InvalidSyntax(b))
            else r == Ok((if |a| > 1 then Some(a[1]) else None, b[2..]))
  {
    var text := a + "/" + b;
    TrimmedStays(text);
    TrimmedStays(a);
    TrimmedStays(b);
    assert text[|a|] == '/';
    SplitOnce(a, b);
  }

  /** More than one slash is refused. */
  lemma SlashesRefused(a: string, b: string, c: string)
    requires Trimmed(a + "/" + b + "/" + c) && '/' !in a && '/' !in b
    ensures var text := a + "/" + b + "/" + c; ParseFlagNames(text) == Err(InvalidSyntax(text))
  {
    var text := a + "/" + b + "/" + c;
    TrimmedStays(text);
    assert text[|a|] == '/';
    var rest := b + "/" + c;
    assert text == a + "/" + rest;
    SplitFirst(b, c);
    SplitFirst(a, rest);
    assert |SplitOn(c, '/')| >= 1;
  }

  lemma {:induction false} SplitFirst(a: string, rest: string)
    requires '/' !in a
    ensures SplitOn(a + "/" + rest, '/') == [a] + SplitOn(rest, '/')
    decreases |a|
  {
    var text := a + "/" + rest;
    if a == "" {
      assert text[1..] == rest;
    } else {
      assert a[0] in a;
      assert text[1..] == a[1..] + "/" + rest;
      SplitFirst(a[1..], rest);
      assert [a[0]] + a[1..] == a;
      assert ([a[1..]] + SplitOn(rest, '/'))[1..] == SplitOn(rest, '/');
    }
  }

  lemma SplitOnce(a: string, b: string)
    requires '/' !in a && '/' !in b
    ensures SplitOn(a + "/" + b, '/') == [a, b]
  {
    SplitFirst(a, b);
    NoSlash(b);
  }

  /** All dots at the end go, three by three. */
  lemma DotsAllGo(name: string)
    requires !EndsWith(name, "...")
    ensures TrimDots(name + "..." + "...") == name
  {
    var s := name + "..." + "...";
    assert s[|s| - 3..] == "..." && s[..|s| - 3] == name + "...";
    DotsGo(name);
  }

  /** The 25 characters that count as white space. */
  lemma WhitespaceIs(c: char)
    ensures IsWhitespace(c) <==>
              c in ['\t', '\n', '\U{000B}', '\U{000C}', '\r', ' ', '\U{0085}', '\U{00A0}', '\U{1680}', '\U{2000}',
                    '\U{2001}', '\U{2002}', '\U{2003}', '\U{2004}', '\U{2005}', '\U{2006}', '\U{2007}', '\U{2008}',
                    '\U{2009}', '\U{200A}', '\U{2028}', '\U{2029}', '\U{202F}', '\U{205F}', '\U{3000}']
  {
  }
}

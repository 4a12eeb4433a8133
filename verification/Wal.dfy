/** The write-ahead log (`wal.rs`) as text: one encoded entry a line. */
module Wal {
  import opened Wrappers
  import opened Core

  datatype Entry = Entry(number: nat, op: Operation)

  /** The JSON codec, of which only this is used: decoding inverts encoding, and an encoded
      entry is a non-empty text without line breaks (section 7 of RFC 8259). */
  datatype Codec = Codec(encode: Entry -> string, decode: string -> Option<Entry>)

  predicate OneLine(s: string) { s != "" && '\n' !in s && '\r' !in s }

  ghost predicate ValidCodec(c: Codec) {
    forall e: Entry :: OneLine(c.encode(e)) && c.decode(c.encode(e)) == Some(e)
  }

  // ------------------------------------------------------------------- lines

  function LineEnd(text: string): (k: nat)
    ensures k <= |text|
  {
    if text == "" || text[0] == '\n' then 0 else 1 + LineEnd(text[1..])
  }

  lemma {:induction false} LineEndIsFirst(text: string)
    ensures '\n' !in text[..LineEnd(text)]
    ensures LineEnd(text) < |text| ==> text[LineEnd(text)] == '\n'
    decreases |text|
  {
    if text != "" && text[0] != '\n' {
      LineEndIsFirst(text[1..]);
      assert text[..LineEnd(text)] == [text[0]] + text[1..][..LineEnd(text[1..])];
    }
  }

  function DropReturn(line: string): string {
    if line != "" && line[|line| - 1] == '\r' then line[..|line| - 1] else line
  }

  /** `BufRead::lines`: a line ends with LF or CR LF; an unfinished last line counts. */
  function Lines(text: string): seq<string> {
    if text == "" then []
    else
      var k := LineEnd(text);
      if k == |text| then [text] else [DropReturn(text[..k])] + Lines(text[k + 1..])
  }

  function Render(c: Codec, entries: seq<Entry>): string {
    if entries == [] then "" else c.encode(entries[0]) + "\n" + Render(c, entries[1..])
  }

  function Encoded(c: Codec, entries: seq<Entry>): seq<string> {
    seq(|entries|, i requires 0 <= i < |entries| => c.encode(entries[i]))
  }

  lemma FirstLine(line: string, rest: string)
    requires OneLine(line)
    ensures Lines(line + "\n" + rest) == [line] + Lines(rest)
  {
    HeadLine(line, rest);
  }

  /** A line may also end with CR LF. */
  lemma EitherLineEnd(line: string, rest: string)
    requires '\n' !in line && !(line != "" && line[|line| - 1] == '\r')
    ensures Lines(line + "\n" + rest) == [line] + Lines(rest)
    ensures Lines(line + "\r\n" + rest) == [line] + Lines(rest)
  {
    HeadLine(line, rest);
    HeadLine(line + "\r", rest);
    assert line + "\r\n" + rest == (line + "\r") + "\n" + rest;
    assert (line + "\r")[..|line|] == line;
  }

  lemma HeadLine(line: string, rest: string)
    requires '\n' !in line
    ensures Lines(line + "\n" + rest) == [DropReturn(line)] + Lines(rest)
  {
    var text := line + "\n" + rest;
    var k := LineEnd(text);
    LineEndIsFirst(text);
    assert text[|line|] == '\n';
    assert forall i :: 0 <= i < |line| ==> text[i] == line[i];
    assert k <= |line| by {
      assert text[|line|] !in text[..k];
    }
    assert text[..k] == line && text[k + 1..] == rest;
  }

  lemma {:induction false} LinesOfRender(c: Codec, entries: seq<Entry>)
    requires ValidCodec(c)
    ensures Lines(Render(c, entries)) == Encoded(c, entries)
    decreases |entries|
  {
    if entries != [] {
      LinesOfRender(c, entries[1..]);
      FirstLine(c.encode(entries[0]), Render(c, entries[1..]));
      assert Encoded(c, entries) == [c.encode(entries[0])] + Encoded(c, entries[1..]);
    }
  }

  lemma {:induction false} RenderAppend(c: Codec, entries: seq<Entry>, e: Entry)
    ensures Render(c, entries + [e]) == Render(c, entries) + (c.encode(e) + "\n")
    decreases |entries|
  {
    if entries == [] {
      assert entries + [e] == [e];
      assert [e][1..] == [];
      assert c.encode(e) + "\n" + "" == c.encode(e) + "\n";
    } else {
      RenderAppend(c, entries[1..], e);
      assert (entries + [e])[1..] == entries[1..] + [e];
    }
  }

  // ------------------------------------------------------------------ replay

  function OpsOf(entries: seq<Entry>): seq<Operation> {
    seq(|entries|, i requires 0 <= i < |entries| => entries[i].op)
  }

  /** The entries of some lines: empty lines are skipped, one that does not decode is an error. */
  function DecodeLines(c: Codec, lines: seq<string>): Option<seq<Entry>> {
    if lines == [] then Some([])
    else
      var last := |lines| - 1;
      match DecodeLines(c, lines[..last])
      case None => None
      case Some(entries) =>
        if lines[last] == "" then Some(entries)
        else
          match c.decode(lines[last])
          case None => None
          case Some(entry) => Some(entries + [entry])
  }

  /** What a replay returns: the operations of a text's entries. */
  function Replayed(c: Codec, text: string): Option<seq<Operation>> {
    match DecodeLines(c, Lines(text))
    case None => None
    case Some(entries) => Some(OpsOf(entries))
  }

  lemma {:induction false} DecodeEncoded(c: Codec, entries: seq<Entry>)
    requires ValidCodec(c)
    ensures DecodeLines(c, Encoded(c, entries)) == Some(entries)
    decreases |entries|
  {
    if entries != [] {
      var last := |entries| - 1;
      DecodeEncoded(c, entries[..last]);
      assert Encoded(c, entries)[..last] == Encoded(c, entries[..last]);
      assert OneLine(c.encode(entries[last]));
      assert entries == entries[..last] + [entries[last]];
    } else {
      assert Encoded(c, entries) == [];
    }
  }

  /** Blank lines count for nothing, wherever they stand, and any other line must decode. */
  lemma {:induction false} BlankLinesCountForNothing(c: Codec, before: seq<string>, after: seq<string>)
    ensures DecodeLines(c, before + [""] + after) == DecodeLines(c, before + after)
    decreases |after|
  {
    var a, b := before + [""] + after, before + after;
    if after == [] {
      assert a[..|a| - 1] == before && b == before;
    } else {
      BlankLinesCountForNothing(c, before, after[..|after| - 1]);
      assert a[..|a| - 1] == before + [""] + after[..|after| - 1];
      assert b[..|b| - 1] == before + after[..|after| - 1];
    }
  }

  lemma {:induction false} BadLinesStopReplay(c: Codec, before: seq<string>, line: string, after: seq<string>)
    requires line != "" && c.decode(line).None?
    ensures DecodeLines(c, before + [line] + after).None?
    decreases |after|
  {
    var lines := before + [line] + after;
    if after == [] {
      assert lines[..|lines| - 1] == before;
    } else {
      BadLinesStopReplay(c, before, line, after[..|after| - 1]);
      assert lines[..|lines| - 1] == before + [line] + after[..|after| - 1];
    }
  }

  /** Main result: replaying the text of a log returns exactly its operations, in order. */
  lemma ReplayReturnsTheLog(c: Codec, entries: seq<Entry>)
    requires ValidCodec(c)
    ensures Replayed(c, Render(c, entries)) == Some(OpsOf(entries))
    ensures |Lines(Render(c, entries))| == |entries|
  {
    LinesOfRender(c, entries);
    DecodeEncoded(c, entries);
  }

  /** The text ends with a line end. */
  predicate WholeLines(text: string) { text == "" || text[|text| - 1] == '\n' }

  /** What is appended to whole lines makes lines of its own. */
  lemma {:induction false} LinesSplit(text: string, more: string)
    requires WholeLines(text)
    ensures Lines(text + more) == Lines(text) + Lines(more)
    decreases |text|
  {
    if text == "" {
      assert "" + more == more;
    } else {
      assert text[|text| - 1] in text;
      var head, rest := FirstLineStays(text, more);
      LinesSplit(rest, more);
      Regroup(head, Lines(rest), Lines(more));
    }
  }

  /** One more line, with its end... */
  lemma LinesAppend(text: string, line: string)
    requires WholeLines(text) && OneLine(line)
    ensures Lines(text + (line + "\n")) == Lines(text) + [line]
  {
    LinesSplit(text, line + "\n");
    FirstLine(line, "");
    assert line + "\n" + "" == line + "\n";
  }

  lemma {:induction false} NoLineEnd(line: string)
    requires '\n' !in line
    ensures LineEnd(line) == |line|
    decreases |line|
  {
    if line != "" {
      NoLineEnd(line[1..]);
    }
  }

  /** ... or without. */
  lemma LinesUnended(text: string, line: string)
    requires WholeLines(text) && OneLine(line)
    ensures Lines(text + line) == Lines(text) + [line]
  {
    LinesSplit(text, line);
    NoLineEnd(line);
  }

  lemma Regroup(a: seq<string>, b: seq<string>, c: seq<string>)
    ensures a + (b + c) == (a + b) + c
  {
  }

  lemma LinesUnroll(text: string, k: nat)
    requires text != "" && k == LineEnd(text) && k < |text|
    ensures Lines(text) == [DropReturn(text[..k])] + Lines(text[k + 1..])
  {
  }

  /** What is appended to whole lines leaves the first of them as it is. */
  lemma FirstLineStays(text: string, more: string) returns (head: seq<string>, rest: string)
    requires '\n' in text
    ensures |rest| < |text| && (WholeLines(text) ==> WholeLines(rest))
    ensures Lines(text) == head + Lines(rest) && Lines(text + more) == head + Lines(rest + more)
  {
    var k := FirstEnd(text, more);
    CutThere(text, more, k);
    LinesUnroll(text, k);
    LinesUnroll(text + more, k);
    head, rest := [DropReturn(text[..k])], text[k + 1..];
  }

  lemma FirstEnd(text: string, more: string) returns (k: nat)
    requires '\n' in text
    ensures k == LineEnd(text) == LineEnd(text + more) && k < |text|
  {
    k := LineEnd(text);
    EndStays(text, more);
  }

  lemma CutThere(text: string, more: string, k: nat)
    requires k < |text|
    ensures (text + more)[..k] == text[..k] && (text + more)[k + 1..] == text[k + 1..] + more
    ensures WholeLines(text) ==> WholeLines(text[k + 1..])
  {
  }

  lemma {:induction false} EndStays(text: string, more: string)
    requires '\n' in text
    ensures LineEnd(text + more) == LineEnd(text) < |text|
    decreases |text|
  {
    assert (text + more)[0] == text[0];
    if text[0] != '\n' {
      assert (text + more)[1..] == text[1..] + more;
      EndStays(text[1..], more);
    }
  }

  lemma DecodeOneMore(c: Codec, lines: seq<string>, line: string)
    requires line != ""
    ensures DecodeLines(c, lines + [line])
         == (match DecodeLines(c, lines)
             case None => None
             case Some(entries) =>
               match c.decode(line)
               case None => None
               case Some(entry) => Some(entries + [entry]))
  {
    assert (lines + [line])[..|lines|] == lines;
  }

  // --------------------------------------------------------------- histories

  /** How much of a line came on file: so many characters, and then the write failed; or all of it with its
      end, and then it was synced or not. */
  datatype Fate = Part(reach: nat) | Whole(synced: bool)

  function Reached(line: string, fate: Fate): string {
    match fate
    case Part(n) => if n <= |line| then line[..n] else line
    case Whole(_) => line + "\n"
  }

  /** What happens to a log over any number of sessions. */
  datatype Action = Reopen | Write(op: Operation, fate: Fate)

  /** The text on file, and the number that was last taken. */
  datatype Journal = Journal(text: string, sequence: nat)

  function After(c: Codec, j: Journal, a: Action): Journal {
    match a
    case Reopen => j.(sequence := |Lines(j.text)|)
    case Write(op, fate) => Journal(j.text + Reached(c.encode(Entry(j.sequence + 1, op)), fate), j.sequence + 1)
  }

  function History(c: Codec, j: Journal, actions: seq<Action>): Journal
    decreases |actions|
  {
    if actions == [] then j else History(c, After(c, j, actions[0]), actions[1..])
  }

  const NEW := Journal("", 0)

  /** The write left part of a line. */
  predicate Tears(a: Action) { a.Write? && a.fate.Part? && a.fate.reach > 0 }

  predicate NoneTears(actions: seq<Action>) { forall a :: a in actions ==> !Tears(a) }

  /** Nothing of it came on file. */
  predicate Silent(a: Action) { a.Write? ==> a.fate == Part(0) }

  predicate AllSilent(actions: seq<Action>) { forall a :: a in actions ==> Silent(a) }

  /** The operations of which something came on file, in order. */
  function Landed(actions: seq<Action>): seq<Operation>
    decreases |actions|
  {
    if actions == [] then [] else LandedBy(actions[0]) + Landed(actions[1..])
  }

  function LandedBy(a: Action): seq<Operation> { if Silent(a) then [] else [a.op] }

  /** Line k carries number k (counting from 1). */
  ghost predicate Numbered(entries: seq<Entry>) {
    forall k :: 0 <= k < |entries| ==> entries[k].number == k + 1
  }

  /** No write comes on file after a failed one of the same session. */
  predicate CleanSessions(actions: seq<Action>, failed: bool)
    decreases |actions|
  {
    actions != [] ==>
      && (actions[0].Write? && actions[0].fate.Whole? ==> !failed)
      && CleanSessions(actions[1..], Failed(actions[0], failed))
  }

  /** Whether a write of this session has failed, after an action. */
  predicate Failed(a: Action, failed: bool) {
    match a
    case Reopen => false
    case Write(_, fate) => failed || !fate.Whole?
  }

  lemma BadNumbersStay(entries: seq<Entry>, all: seq<Entry>)
    requires entries <= all && !Numbered(entries)
    ensures !Numbered(all)
  {
    var k :| 0 <= k < |entries| && entries[k].number != k + 1;
    assert all[k] == entries[k];
  }

  lemma OneMoreOp(entries: seq<Entry>, e: Entry)
    ensures OpsOf(entries + [e]) == OpsOf(entries) + [e.op]
  {
  }

  lemma LandedOn(before: seq<Operation>, actions: seq<Action>)
    requires actions != []
    ensures before + Landed(actions) == (before + LandedBy(actions[0])) + Landed(actions[1..])
  {
  }

  lemma OneMoreNumber(entries: seq<Entry>, e: Entry, failed: bool)
    requires e.number >= |entries| + 1 && (failed <==> e.number > |entries| + 1)
    ensures Numbered(entries + [e]) <==> Numbered(entries) && !failed
  {
    if !Numbered(entries) {
      BadNumbersStay(entries, entries + [e]);
    }
    assert (entries + [e])[|entries|] == e;
  }

  /** One action that tears no line. */
  lemma UntornStep(c: Codec, j: Journal, entries: seq<Entry>, a: Action, failed: bool) returns (more: seq<Entry>)
    requires ValidCodec(c) && j.text == Render(c, entries) && !Tears(a)
    requires j.sequence >= |entries| && (failed <==> j.sequence > |entries|)
    ensures After(c, j, a).text == Render(c, more) && entries <= more
    ensures OpsOf(more) == OpsOf(entries) + LandedBy(a)
    ensures After(c, j, a).sequence >= |more|
    ensures Failed(a, failed) <==> After(c, j, a).sequence > |more|
    ensures Numbered(more) <==> Numbered(entries) && (a.Write? && a.fate.Whole? ==> !failed)
  {
    more := entries;
    if a.Reopen? {
      ReplayReturnsTheLog(c, entries);
    } else if a.fate.Whole? {
      var e := Entry(j.sequence + 1, a.op);
      RenderAppend(c, entries, e);
      OneMoreOp(entries, e);
      OneMoreNumber(entries, e, failed);
      more := entries + [e];
    } else {
      assert After(c, j, a).text == j.text;
    }
  }

  /** Without a torn line the text stays the rendering of its entries. */
  lemma {:induction false} UntornHistory(c: Codec, j: Journal, entries: seq<Entry>, actions: seq<Action>, failed: bool)
    returns (all: seq<Entry>)
    requires ValidCodec(c) && j.text == Render(c, entries) && NoneTears(actions)
    requires j.sequence >= |entries| && (failed <==> j.sequence > |entries|)
    ensures History(c, j, actions).text == Render(c, all) && entries <= all
    ensures OpsOf(all) == OpsOf(entries) + Landed(actions)
    ensures Numbered(all) <==> Numbered(entries) && CleanSessions(actions, failed)
    decreases |actions|
  {
    if actions == [] {
      all := entries;
    } else {
      assert actions[0] in actions;
      var more := UntornStep(c, j, entries, actions[0], failed);
      LandedOn(OpsOf(entries), actions);
      all := UntornHistory(c, After(c, j, actions[0]), more, actions[1..], Failed(actions[0], failed));
    }
  }

  /** Main result, over any number of sessions and any failed writes that tear no line: the file holds, line
      by line, the entries of the operations that came on file; it replays to exactly these, in order; opening
      it again sets the sequence to their number; and line k carries number k for every k if and only if no
      session got a write on file after one of its writes had failed. */
  lemma LogOverSessions(c: Codec, actions: seq<Action>) returns (all: seq<Entry>)
    requires ValidCodec(c) && NoneTears(actions)
    ensures var j := History(c, NEW, actions);
            && j.text == Render(c, all) && Lines(j.text) == Encoded(c, all) && OpsOf(all) == Landed(actions)
            && Replayed(c, j.text) == Some(Landed(actions))
            && After(c, j, Reopen).sequence == |Landed(actions)|
            && (Numbered(all) <==> CleanSessions(actions, false))
  {
    all := UntornHistory(c, NEW, [], actions, false);
    NothingBefore(Landed(actions));
    ReplayReturnsTheLog(c, all);
    LinesOfRender(c, all);
    assert |OpsOf(all)| == |all|;
  }

  // --------------------------------------------------------------- torn lines

  /** The text begins an encoded entry, or is one. */
  ghost predicate Begins(c: Codec, s: string) {
    exists e: Entry :: s != "" && s <= c.encode(e)
  }

  function Concat(pieces: seq<string>): string {
    if pieces == [] then "" else Concat(pieces[..|pieces| - 1]) + pieces[|pieces| - 1]
  }

  ghost predicate AllBegin(c: Codec, pieces: seq<string>) {
    forall i :: 0 <= i < |pieces| ==> Begins(c, pieces[i])
  }

  /** Of texts that begin entries, put one after the other, only a whole entry decodes, as it is for JSON
      objects that hold more than one member. */
  ghost predicate SelfDelimiting(c: Codec) {
    && (forall e: Entry, s: string :: s <= c.encode(e) && s != c.encode(e) ==> c.decode(s).None?)
    && (forall pieces: seq<string> :: |pieces| >= 2 && AllBegin(c, pieces) ==> c.decode(Concat(pieces)).None?)
  }

  lemma PieceIsOneLine(c: Codec, s: string)
    requires ValidCodec(c) && Begins(c, s)
    ensures OneLine(s)
  {
    var e: Entry :| s != "" && s <= c.encode(e);
    assert OneLine(c.encode(e));
    assert forall x :: x in s ==> x in c.encode(e);
  }

  lemma {:induction false} PiecesAreOneLine(c: Codec, pieces: seq<string>)
    requires ValidCodec(c) && AllBegin(c, pieces) && pieces != []
    ensures OneLine(Concat(pieces))
    decreases |pieces|
  {
    var last := |pieces| - 1;
    PieceIsOneLine(c, pieces[last]);
    if last > 0 {
      PiecesAreOneLine(c, pieces[..last]);
    } else {
      assert Concat(pieces[..last]) == "";
    }
  }

  lemma ConcatMore(pieces: seq<string>, s: string)
    ensures Concat(pieces + [s]) == Concat(pieces) + s
  {
    assert (pieces + [s])[..|pieces|] == pieces;
  }

  /** A text that can never be replayed: some line of it, or an unended line in the making, holds pieces of
      more than one entry. */
  ghost predicate BrokenAs(c: Codec, text: string, head: string, pieces: seq<string>) {
    && WholeLines(head) && AllBegin(c, pieces) && text == head + Concat(pieces)
    && (|pieces| >= 2 || Replayed(c, head).None?)
  }

  ghost predicate Broken(c: Codec, text: string) {
    exists head: string, pieces: seq<string> :: BrokenAs(c, text, head, pieces)
  }

  lemma BrokenIsUnreadable(c: Codec, text: string)
    requires ValidCodec(c) && SelfDelimiting(c) && Broken(c, text)
    ensures Replayed(c, text).None?
  {
    var head: string, pieces: seq<string> :| BrokenAs(c, text, head, pieces);
    if pieces == [] {
      assert head + "" == head;
    } else {
      PiecesAreOneLine(c, pieces);
      LinesUnended(head, Concat(pieces));
      DecodeOneMore(c, Lines(head), Concat(pieces));
    }
  }

  lemma ReplayOneMore(c: Codec, head: string, line: string)
    requires WholeLines(head) && OneLine(line)
    requires Replayed(c, head).None? || c.decode(line).None?
    ensures Replayed(c, head + (line + "\n")).None?
  {
    LinesAppend(head, line);
    DecodeOneMore(c, Lines(head), line);
  }

  /** A line behind whole lines, of pieces of entries, that does not decode. */
  lemma EndedIsBroken(c: Codec, head: string, pieces: seq<string>)
    requires ValidCodec(c) && SelfDelimiting(c) && WholeLines(head) && AllBegin(c, pieces) && pieces != []
    requires |pieces| >= 2 || Replayed(c, head).None?
    ensures Broken(c, head + (Concat(pieces) + "\n"))
  {
    var text := head + (Concat(pieces) + "\n");
    PiecesAreOneLine(c, pieces);
    ReplayOneMore(c, head, Concat(pieces));
    EndsWhole(head, Concat(pieces));
    DeadIsBroken(c, text);
  }

  lemma EndsWhole(head: string, line: string)
    ensures WholeLines(head + (line + "\n"))
  {
    var text := head + (line + "\n");
    assert text[|text| - 1] == '\n';
  }

  lemma DeadIsBroken(c: Codec, text: string)
    requires WholeLines(text) && Replayed(c, text).None?
    ensures Broken(c, text)
  {
    assert text + Concat([]) == text;
    assert BrokenAs(c, text, text, []);
  }

  lemma PieceBegins(c: Codec, e: Entry, fate: Fate)
    requires ValidCodec(c) && (fate.Part? ==> fate.reach > 0)
    ensures Begins(c, Piece(c, e, fate))
  {
    assert OneLine(c.encode(e));
    assert Piece(c, e, fate) <= c.encode(e);
  }

  /** What came on file of an entry, but for the line's end. */
  function Piece(c: Codec, e: Entry, fate: Fate): string {
    if fate.Part? then Reached(c.encode(e), fate) else c.encode(e)
  }

  lemma ReachedIsPiece(c: Codec, text: string, e: Entry, fate: Fate)
    ensures text + Reached(c.encode(e), fate) == text + (Piece(c, e, fate) + if fate.Whole? then "\n" else "")
  {
    assert fate.Part? ==> Piece(c, e, fate) + "" == Piece(c, e, fate);
  }

  lemma RegroupText(head: string, x: string, s: string, end: string)
    ensures (head + x) + (s + end) == head + ((x + s) + end)
  {
  }

  /** Pieces behind whole lines, with the line's end or without. */
  lemma PiecesAreBroken(c: Codec, head: string, pieces: seq<string>, end: string)
    requires ValidCodec(c) && SelfDelimiting(c) && WholeLines(head) && AllBegin(c, pieces) && pieces != []
    requires |pieces| >= 2 || Replayed(c, head).None?
    requires end == "" || end == "\n"
    ensures Broken(c, head + (Concat(pieces) + end))
  {
    if end == "" {
      assert Concat(pieces) + "" == Concat(pieces);
      assert BrokenAs(c, head + Concat(pieces), head, pieces);
    } else {
      EndedIsBroken(c, head, pieces);
    }
  }

  /** Something more on file, behind whole lines and pieces of entries. */
  lemma OneMorePiece(c: Codec, head: string, pieces: seq<string>, e: Entry, fate: Fate)
    requires ValidCodec(c) && SelfDelimiting(c) && WholeLines(head) && AllBegin(c, pieces)
    requires (fate.Part? ==> fate.reach > 0) && (pieces != [] || Replayed(c, head).None?)
    ensures Broken(c, head + Concat(pieces) + Reached(c.encode(e), fate))
  {
    var s := Piece(c, e, fate);
    var end := if fate.Whole? then "\n" else "";
    PieceBegins(c, e, fate);
    ConcatMore(pieces, s);
    ReachedIsPiece(c, head + Concat(pieces), e, fate);
    RegroupText(head, Concat(pieces), s, end);
    PiecesAreBroken(c, head, pieces + [s], end);
  }

  lemma LoudStep(c: Codec, j: Journal, a: Action)
    requires !Silent(a)
    ensures After(c, j, a).text == j.text + Reached(c.encode(Entry(j.sequence + 1, a.op)), a.fate)
    ensures a.fate.Part? ==> a.fate.reach > 0
  {
  }

  lemma BrokenMore(c: Codec, text: string, e: Entry, fate: Fate)
    requires ValidCodec(c) && SelfDelimiting(c) && Broken(c, text) && (fate.Part? ==> fate.reach > 0)
    ensures Broken(c, text + Reached(c.encode(e), fate))
  {
    var head: string, pieces: seq<string> :| BrokenAs(c, text, head, pieces);
    OneMorePiece(c, head, pieces, e, fate);
  }

  lemma BrokenStays(c: Codec, j: Journal, a: Action)
    requires ValidCodec(c) && SelfDelimiting(c) && Broken(c, j.text)
    ensures Broken(c, After(c, j, a).text)
  {
    if Silent(a) {
      SilentStep(c, j, a);
    } else {
      LoudStep(c, j, a);
      BrokenMore(c, j.text, Entry(j.sequence + 1, a.op), a.fate);
    }
  }

  lemma {:induction false} BrokenForEver(c: Codec, j: Journal, actions: seq<Action>)
    requires ValidCodec(c) && SelfDelimiting(c) && Broken(c, j.text)
    ensures Replayed(c, History(c, j, actions).text).None?
    decreases |actions|
  {
    if actions == [] {
      BrokenIsUnreadable(c, j.text);
    } else {
      BrokenStays(c, j, actions[0]);
      BrokenForEver(c, After(c, j, actions[0]), actions[1..]);
    }
  }

  /** Behind a torn line, the next that comes on file breaks the log. */
  lemma {:induction false} TornThenMore(c: Codec, j: Journal, head: string, piece: string, actions: seq<Action>)
    requires ValidCodec(c) && SelfDelimiting(c)
    requires WholeLines(head) && Begins(c, piece) && j.text == head + piece
    requires !AllSilent(actions)
    ensures Replayed(c, History(c, j, actions).text).None?
    decreases |actions|
  {
    var next := After(c, j, actions[0]);
    if Silent(actions[0]) {
      SilentStep(c, j, actions[0]);
      TornThenMore(c, next, head, piece, actions[1..]);
    } else {
      SecondPiece(c, j, head, piece, actions[0]);
      BrokenForEver(c, next, actions[1..]);
    }
  }

  lemma SilentStep(c: Codec, j: Journal, a: Action)
    requires Silent(a)
    ensures After(c, j, a).text == j.text
  {
  }

  lemma SecondPiece(c: Codec, j: Journal, head: string, piece: string, a: Action)
    requires ValidCodec(c) && SelfDelimiting(c) && !Silent(a)
    requires WholeLines(head) && Begins(c, piece) && j.text == head + piece
    ensures Broken(c, After(c, j, a).text)
  {
    LoudStep(c, j, a);
    BehindOnePiece(c, head, piece, Entry(j.sequence + 1, a.op), a.fate);
  }

  lemma BehindOnePiece(c: Codec, head: string, piece: string, e: Entry, fate: Fate)
    requires ValidCodec(c) && SelfDelimiting(c) && (fate.Part? ==> fate.reach > 0)
    requires WholeLines(head) && Begins(c, piece)
    ensures Broken(c, head + piece + Reached(c.encode(e), fate))
  {
    ConcatOne(piece);
    OneMorePiece(c, head, [piece], e, fate);
  }

  lemma ConcatOne(piece: string)
    ensures Concat([piece]) == piece
  {
    assert [piece][..0] == [];
    assert Concat([]) + piece == piece;
  }

  lemma {:induction false} SilenceKeepsText(c: Codec, j: Journal, actions: seq<Action>)
    requires AllSilent(actions)
    ensures History(c, j, actions).text == j.text && Landed(actions) == []
    decreases |actions|
  {
    if actions != [] {
      assert actions[0] in actions;
      SilenceKeepsText(c, After(c, j, actions[0]), actions[1..]);
    }
  }

  /** At most one write left part of a line: all of it but its end, and after it nothing came on file. */
  predicate Readable(c: Codec, j: Journal, actions: seq<Action>)
    decreases |actions|
  {
    actions != [] ==>
      if Tears(actions[0]) then
        && actions[0].fate.reach >= |c.encode(Entry(j.sequence + 1, actions[0].op))|
        && AllSilent(actions[1..])
      else Readable(c, After(c, j, actions[0]), actions[1..])
  }

  lemma UnendedReplay(c: Codec, entries: seq<Entry>, e: Entry, fate: Fate)
    requires ValidCodec(c) && SelfDelimiting(c) && fate.Part? && fate.reach > 0
    ensures Replayed(c, Render(c, entries) + Reached(c.encode(e), fate))
         == if fate.reach >= |c.encode(e)| then Some(OpsOf(entries) + [e.op]) else None
  {
    var s := Reached(c.encode(e), fate);
    PieceBegins(c, e, fate);
    PieceIsOneLine(c, s);
    RenderIsWhole(c, entries);
    LinesUnended(Render(c, entries), s);
    LinesOfRender(c, entries);
    DecodeEncoded(c, entries);
    DecodeOneMore(c, Encoded(c, entries), s);
    OneMoreOp(entries, e);
    if fate.reach >= |c.encode(e)| {
      assert s == c.encode(e);
    } else {
      assert s <= c.encode(e) && s != c.encode(e);
    }
  }

  lemma {:induction false} RenderIsWhole(c: Codec, entries: seq<Entry>)
    ensures WholeLines(Render(c, entries))
    decreases |entries|
  {
    if entries != [] {
      RenderIsWhole(c, entries[1..]);
    }
  }

  lemma {:induction false} ReplayFrom(c: Codec, j: Journal, entries: seq<Entry>, actions: seq<Action>)
    requires ValidCodec(c) && SelfDelimiting(c) && j.text == Render(c, entries)
    ensures Replayed(c, History(c, j, actions).text)
         == if Readable(c, j, actions) then Some(OpsOf(entries) + Landed(actions)) else None
    decreases |actions|
  {
    if actions == [] {
      ReplayReturnsTheLog(c, entries);
      assert OpsOf(entries) + [] == OpsOf(entries);
    } else if Tears(actions[0]) {
      TornReplay(c, j, entries, actions);
    } else {
      var more := MoreEntries(c, j, entries, actions[0]);
      ReplayFrom(c, After(c, j, actions[0]), more, actions[1..]);
      LandedOn(OpsOf(entries), actions);
    }
  }

  lemma MoreEntries(c: Codec, j: Journal, entries: seq<Entry>, a: Action) returns (more: seq<Entry>)
    requires j.text == Render(c, entries) && !Tears(a)
    ensures After(c, j, a).text == Render(c, more) && OpsOf(more) == OpsOf(entries) + LandedBy(a)
  {
    more := entries;
    if Silent(a) {
      assert After(c, j, a).text == j.text;
    } else {
      var e := Entry(j.sequence + 1, a.op);
      RenderAppend(c, entries, e);
      OneMoreOp(entries, e);
      more := entries + [e];
    }
  }

  lemma TornUnfolds(c: Codec, j: Journal, actions: seq<Action>)
    requires actions != [] && Tears(actions[0])
    ensures var e := Entry(j.sequence + 1, actions[0].op);
            && After(c, j, actions[0]).text == j.text + Reached(c.encode(e), actions[0].fate)
            && History(c, j, actions) == History(c, After(c, j, actions[0]), actions[1..])
            && (Readable(c, j, actions) <==> actions[0].fate.reach >= |c.encode(e)| && AllSilent(actions[1..]))
  {
  }

  lemma TornLands(c: Codec, before: seq<Operation>, actions: seq<Action>)
    requires actions != [] && Tears(actions[0]) && AllSilent(actions[1..])
    ensures before + Landed(actions) == before + [actions[0].op]
  {
    SilenceKeepsText(c, NEW, actions[1..]);
  }

  lemma TornReplay(c: Codec, j: Journal, entries: seq<Entry>, actions: seq<Action>)
    requires ValidCodec(c) && SelfDelimiting(c) && j.text == Render(c, entries)
    requires actions != [] && Tears(actions[0])
    ensures Replayed(c, History(c, j, actions).text)
         == if Readable(c, j, actions) then Some(OpsOf(entries) + Landed(actions)) else None
  {
    var e := Entry(j.sequence + 1, actions[0].op);
    TornUnfolds(c, j, actions);
    BehindTorn(c, After(c, j, actions[0]), entries, e, actions[0].fate, actions[1..]);
    if AllSilent(actions[1..]) {
      TornLands(c, OpsOf(entries), actions);
    }
  }

  lemma BehindTorn(c: Codec, j: Journal, entries: seq<Entry>, e: Entry, fate: Fate, rest: seq<Action>)
    requires ValidCodec(c) && SelfDelimiting(c) && fate.Part? && fate.reach > 0
    requires j.text == Render(c, entries) + Reached(c.encode(e), fate)
    ensures Replayed(c, History(c, j, rest).text)
         == if fate.reach >= |c.encode(e)| && AllSilent(rest) then Some(OpsOf(entries) + [e.op]) else None
  {
    if AllSilent(rest) {
      SilenceKeepsText(c, j, rest);
      UnendedReplay(c, entries, e, fate);
    } else {
      TornFirst(c, e, fate);
      RenderIsWhole(c, entries);
      TornThenMore(c, j, Render(c, entries), Piece(c, e, fate), rest);
    }
  }

  lemma TornFirst(c: Codec, e: Entry, fate: Fate)
    requires ValidCodec(c) && fate.Part? && fate.reach > 0
    ensures Begins(c, Piece(c, e, fate)) && Reached(c.encode(e), fate) == Piece(c, e, fate)
  {
    PieceBegins(c, e, fate);
  }

  /** Main result, over any number of sessions and any failures, torn lines included: the log replays if and
      only if at most one write left part of a line, that part being all but the line's end, and nothing came
      on file after it. It then replays to exactly the operations that came on file, in order; and otherwise
      no start of the daemon succeeds again. */
  lemma ReplayOfAnyHistory(c: Codec, actions: seq<Action>)
    requires ValidCodec(c) && SelfDelimiting(c)
    ensures Replayed(c, History(c, NEW, actions).text)
         == if Readable(c, NEW, actions) then Some(Landed(actions)) else None
  {
    ReplayFrom(c, NEW, [], actions);
    NothingBefore(Landed(actions));
  }

  lemma NothingBefore(ops: seq<Operation>)
    ensures OpsOf([]) + ops == ops
  {
  }

  /** Once a write stopped within its line, no later history makes the log readable again. */
  lemma TornIsForEver(c: Codec, before: seq<Action>, op: Operation, reach: nat, after: seq<Action>)
    requires ValidCodec(c) && SelfDelimiting(c)
    requires 0 < reach < |c.encode(Entry(History(c, NEW, before).sequence + 1, op))|
    ensures Replayed(c, History(c, NEW, before + [Write(op, Part(reach))] + after).text).None?
  {
    NeverReadable(c, NEW, before, op, reach, after);
    ReplayOfAnyHistory(c, before + [Write(op, Part(reach))] + after);
  }

  lemma {:induction false} NeverReadable(c: Codec, j: Journal, before: seq<Action>, op: Operation, reach: nat,
                                         after: seq<Action>)
    requires 0 < reach < |c.encode(Entry(History(c, j, before).sequence + 1, op))|
    ensures !Readable(c, j, before + [Write(op, Part(reach))] + after)
    decreases |before|
  {
    var actions := before + [Write(op, Part(reach))] + after;
    if before == [] {
      assert actions[0] == Write(op, Part(reach));
    } else {
      assert actions[1..] == before[1..] + [Write(op, Part(reach))] + after;
      if Tears(actions[0]) {
        assert Write(op, Part(reach)) in actions[1..];
      } else {
        NeverReadable(c, After(c, j, before[0]), before[1..], op, reach, after);
      }
    }
  }

  // ------------------------------------------------------------- the objects

  class LogFile {
    var text: string

    constructor ()
      ensures text == ""
    {
      text := "";
    }
  }

  class Log {
    const codec: Codec
    const file: LogFile
    var sequence: nat

    ghost function View(): Journal
      reads this, file
    {
      Journal(file.text, sequence)
    }

    /** The file can be replayed, and what is appended starts a line of its own. */
    ghost predicate Valid()
      reads this, file
    {
      ValidCodec(codec) && WholeLines(file.text) && Replayed(codec, file.text).Some?
    }

    /** The operations on file. */
    ghost function Operations(): seq<Operation>
      reads this, file
    {
      var r := Replayed(codec, file.text);
      if r.Some? then r.value else []
    }

    /** `Wal::open`, on any file: numbering goes on from the number of lines. */
    constructor Open(codec: Codec, file: LogFile)
      ensures this.codec == codec && this.file == file && sequence == |Lines(file.text)|
      ensures View() == After(codec, NEW.(text := file.text), Reopen)
    {
      this.codec, this.file := codec, file;
      sequence := |Lines(file.text)|;
    }

    /** `Wal::append`: the number is taken whatever becomes of the write, and success is reported only for a
        line that is on file and synced. */
    method Append(op: Operation, fate: Fate) returns (r: Result<nat, Error>)
      modifies this, file
      ensures View() == After(codec, old(View()), Write(op, fate))
      ensures r == if fate == Whole(true) then Ok(sequence) else Err(StorageFailed)
      ensures old(Valid()) && !Tears(Write(op, fate)) ==>
        Valid() && Operations() == old(Operations()) + if fate.Whole? then [op] else []
    {
      sequence := sequence + 1;
      var line := codec.encode(Entry(sequence, op));
      if old(Valid()) && !Tears(Write(op, fate)) {
        WholeOrNothing(codec, file.text, Entry(sequence, op), fate);
      }
      file.text := file.text + Reached(line, fate);
      r := if fate == Whole(true) then Ok(sequence) else Err(StorageFailed);
    }
  }

  lemma WholeOrNothing(c: Codec, text: string, e: Entry, fate: Fate)
    requires ValidCodec(c) && WholeLines(text) && Replayed(c, text).Some? && (fate.Part? ==> fate.reach == 0)
    ensures var more := text + Reached(c.encode(e), fate);
            && WholeLines(more)
            && Replayed(c, more) == Some(Replayed(c, text).value + if fate.Whole? then [e.op] else [])
  {
    if fate.Whole? {
      OneMoreLine(c, text, e);
    } else {
      assert text + Reached(c.encode(e), fate) == text;
      assert Replayed(c, text).value + [] == Replayed(c, text).value;
    }
  }

  lemma OneMoreLine(c: Codec, text: string, e: Entry)
    requires ValidCodec(c) && WholeLines(text) && Replayed(c, text).Some?
    ensures var more := text + (c.encode(e) + "\n");
            WholeLines(more) && Replayed(c, more) == Some(Replayed(c, text).value + [e.op])
  {
    assert OneLine(c.encode(e)) && c.decode(c.encode(e)) == Some(e);
    LinesAppend(text, c.encode(e));
    DecodeOneMore(c, Lines(text), c.encode(e));
    var entries := DecodeLines(c, Lines(text)).value;
    assert OpsOf(entries + [e]) == OpsOf(entries) + [e.op];
  }

  /** `Wal::replay`. */
  method ReplayFile(codec: Codec, file: LogFile) returns (r: Option<seq<Operation>>)
    ensures r == Replayed(codec, file.text)
  {
    var lines := Lines(file.text);
    var ops: seq<Operation> := [];
    r := None;
    for i := 0 to |lines|
      invariant DecodeLines(codec, lines[..i]).Some? && OpsOf(DecodeLines(codec, lines[..i]).value) == ops
    {
      assert lines[..i + 1][..i] == lines[..i];
      if lines[i] != "" {
        var entry := codec.decode(lines[i]);
        if entry.None? {
          NoneStaysNone(codec, lines, i + 1);
          return;
        }
        ghost var before := DecodeLines(codec, lines[..i]).value;
        assert OpsOf(before + [entry.value]) == OpsOf(before) + [entry.value.op];
        ops := ops + [entry.value.op];
      }
    }
    assert lines[..|lines|] == lines;
    r := Some(ops);
  }

  lemma {:induction false} NoneStaysNone(c: Codec, lines: seq<string>, n: nat)
    requires n <= |lines| && DecodeLines(c, lines[..n]).None?
    ensures DecodeLines(c, lines).None?
    decreases |lines| - n
  {
    if n < |lines| {
      assert lines[..n + 1][..n] == lines[..n];
      NoneStaysNone(c, lines, n + 1);
    } else {
      assert lines[..n] == lines;
    }
  }
}

/** Length-prefixed framing of messages on a byte stream (`protocol.rs`). */
module Protocol {
  import opened Wrappers

  type Byte = b: int | 0 <= b < 256

  /** 200 MB. */
  const MAX_MESSAGE_SIZE: nat := 200 * 1024 * 1024

  datatype ProtocolError = IoError | MessageTooLarge(size: nat, max: nat) | ConnectionClosed

  // ---------------------------------------------------------------- the prefix

  /** The four bytes of `(len as u32).to_be_bytes()`. */
  function BigEndian(n: nat): (b: seq<Byte>)
    ensures |b| == 4
  {
    var u := n % 0x1_0000_0000;
    [u / 0x100_0000, u / 0x1_0000 % 0x100, u / 0x100 % 0x100, u % 0x100]
  }

  /** `u32::from_be_bytes`. */
  function FromBigEndian(b: seq<Byte>): nat
    requires |b| == 4
  {
    (b[0] as int) * 0x100_0000 + (b[1] as int) * 0x1_0000 + (b[2] as int) * 0x100 + (b[3] as int)
  }

  lemma DigitsAddUp(n: nat)
    ensures n / 0x100_0000 * 0x100_0000 + n / 0x1_0000 % 0x100 * 0x1_0000 + n / 0x100 % 0x100 * 0x100 + n % 0x100 == n
  {
    var a := n / 0x100;
    var b := a / 0x100;
    assert n / 0x1_0000 == b && n / 0x100_0000 == b / 0x100;
    assert n == 0x100 * a + n % 0x100 && a == 0x100 * b + a % 0x100 && b == 0x100 * (b / 0x100) + b % 0x100;
  }

  /** The conversion to 32 bits loses nothing of a length within the limit, which is written with its most
      significant byte first. */
  lemma PrefixIsExact(n: nat)
    requires n <= MAX_MESSAGE_SIZE
    ensures FromBigEndian(BigEndian(n)) == n
    ensures var b := BigEndian(n); n == ((b[0] as int * 256 + b[1]) * 256 + b[2]) * 256 + b[3]
    ensures MAX_MESSAGE_SIZE == 209_715_200
  {
    assert n % 0x1_0000_0000 == n;
    DigitsAddUp(n);
  }

  function Frame(message: seq<Byte>): seq<Byte> { BigEndian(|message|) + message }

  /** The stream after writing some messages. */
  function Stream(messages: seq<seq<Byte>>): seq<Byte> {
    if messages == [] then [] else Frame(messages[0]) + Stream(messages[1..])
  }

  predicate Sendable(messages: seq<seq<Byte>>) {
    forall i :: 0 <= i < |messages| ==> |messages[i]| <= MAX_MESSAGE_SIZE
  }

  // ------------------------------------------------------------------- reading

  /** One read, as a value: the message, or why there is none; and what is left of the stream. */
  function ReadOne(stream: seq<Byte>): (Result<seq<Byte>, ProtocolError>, seq<Byte>) {
    if |stream| < 4 then (Err(ConnectionClosed), [])
    else
      var len := FromBigEndian(stream[..4]);
      if len > MAX_MESSAGE_SIZE then (Err(MessageTooLarge(len, MAX_MESSAGE_SIZE)), stream[4..])
      else if |stream| - 4 < len then (Err(IoError), [])
      else (Ok(stream[4..4 + len]), stream[4 + len..])
  }

  /** Reading until there is no message. */
  function ReadAll(stream: seq<Byte>): (messages: seq<seq<Byte>>)
    decreases |stream|
  {
    var (r, rest) := ReadOne(stream);
    if r.Ok? then [r.value] + ReadAll(rest) else []
  }

  /** A frame at the head of a stream is read back whole, and nothing more is consumed. */
  lemma FrameIsRead(message: seq<Byte>, rest: seq<Byte>)
    requires |message| <= MAX_MESSAGE_SIZE
    ensures ReadOne(Frame(message) + rest) == (Ok(message), rest)
  {
    PrefixIsExact(|message|);
    var stream := Frame(message) + rest;
    assert stream[..4] == BigEndian(|message|);
    assert stream[4..4 + |message|] == message && stream[4 + |message|..] == rest;
  }

  /** A frame cut short yields no message. */
  lemma CutFrameIsNotRead(message: seq<Byte>, cut: nat)
    requires |message| <= MAX_MESSAGE_SIZE && cut < |Frame(message)|
    ensures ReadOne(Frame(message)[..cut]).0 == Err(if cut < 4 then ConnectionClosed else IoError)
  {
    PrefixIsExact(|message|);
    if cut >= 4 {
      assert Frame(message)[..cut][..4] == BigEndian(|message|);
    }
  }

  /** A prefix that announces more than the limit is refused with what it announced, and no payload is read. */
  lemma OversizeIsRefused(b: seq<Byte>, rest: seq<Byte>)
    requires |b| == 4 && ((b[0] as int * 256 + b[1]) * 256 + b[2]) * 256 + b[3] > 209_715_200
    ensures ReadOne(b + rest)
         == (Err(MessageTooLarge(((b[0] as int * 256 + b[1]) * 256 + b[2]) * 256 + b[3], 209_715_200)), rest)
  {
    assert (b + rest)[..4] == b && (b + rest)[4..] == rest;
  }

  /** How many of the messages lie whole before the cut. */
  function WholeBefore(messages: seq<seq<Byte>>, cut: nat): (n: nat)
    ensures n <= |messages|
  {
    if messages == [] || cut < |Frame(messages[0])| then 0
    else 1 + WholeBefore(messages[1..], cut - |Frame(messages[0])|)
  }

  /** Main result: cut the stream anywhere, and reading yields exactly the whole messages before
      the cut, in order, and then no message. */
  lemma {:induction false} CutStreamYieldsWholeMessages(messages: seq<seq<Byte>>, cut: nat)
    requires Sendable(messages) && cut <= |Stream(messages)|
    ensures ReadAll(Stream(messages)[..cut]) == messages[..WholeBefore(messages, cut)]
    decreases |messages|
  {
    if messages != [] {
      var first := Frame(messages[0]);
      var stream := Stream(messages);
      if cut < |first| {
        assert stream[..cut] == first[..cut];
        CutFrameIsNotRead(messages[0], cut);
      } else {
        var rest := Stream(messages[1..])[..cut - |first|];
        assert stream[..cut] == first + rest;
        FrameIsRead(messages[0], rest);
        CutStreamYieldsWholeMessages(messages[1..], cut - |first|);
      }
    }
  }

  lemma {:induction false} WholeStream(messages: seq<seq<Byte>>)
    ensures WholeBefore(messages, |Stream(messages)|) == |messages|
    decreases |messages|
  {
    if messages != [] {
      WholeStream(messages[1..]);
    }
  }

  /** Round trip: what was written is what is read. */
  lemma StreamRoundTrip(messages: seq<seq<Byte>>)
    requires Sendable(messages)
    ensures ReadAll(Stream(messages)) == messages
  {
    WholeStream(messages);
    CutStreamYieldsWholeMessages(messages, |Stream(messages)|);
    assert Stream(messages)[..|Stream(messages)|] == Stream(messages);
    assert messages[..|messages|] == messages;
  }

  // ------------------------------------------------------------------ the objects

  /** A byte stream: reads consume its head, writes extend its tail. */
  class ByteStream {
    var bytes: seq<Byte>

    constructor ()
      ensures bytes == []
    {
      bytes := [];
    }

    /** `read_exact`: n bytes, or everything that is left and an end-of-file error. */
    method ReadExact(n: nat) returns (r: Option<seq<Byte>>)
      modifies this
      ensures n <= |old(bytes)| ==> r == Some(old(bytes)[..n]) && bytes == old(bytes)[n..]
      ensures n > |old(bytes)| ==> r == None && bytes == []
    {
      if n > |bytes| {
        bytes := [];
        return None;
      }
      r := Some(bytes[..n]);
      bytes := bytes[n..];
    }

    /** `read_message`. */
    method ReadMessage() returns (r: Result<seq<Byte>, ProtocolError>)
      modifies this
      ensures (r, bytes) == ReadOne(old(bytes))
    {
      var prefix := ReadExact(4);
      if prefix.None? {
        return Err(ConnectionClosed);
      }
      var len := FromBigEndian(prefix.value);
      if len > MAX_MESSAGE_SIZE {
        return Err(MessageTooLarge(len, MAX_MESSAGE_SIZE));
      }
      var payload := ReadExact(len);
      if payload.None? {
        return Err(IoError);
      }
      assert old(bytes)[4..][..len] == old(bytes)[4..4 + len];
      assert old(bytes)[4..][len..] == old(bytes)[4 + len..];
      r := Ok(payload.value);
    }

    /** `write_message`: a message over the limit is refused and nothing is written. */
    method WriteMessage(data: seq<Byte>) returns (r: Result<(), ProtocolError>)
      modifies this
      ensures |data| <= MAX_MESSAGE_SIZE ==> r == Ok(()) && bytes == old(bytes) + Frame(data)
      ensures |data| > MAX_MESSAGE_SIZE ==> r == Err(MessageTooLarge(|data|, MAX_MESSAGE_SIZE)) && bytes == old(bytes)
    {
      var len := |data|;
      if len > MAX_MESSAGE_SIZE {
        return Err(MessageTooLarge(len, MAX_MESSAGE_SIZE));
      }
      bytes := bytes + BigEndian(len);
      bytes := bytes + data;
      r := Ok(());
    }
  }
}

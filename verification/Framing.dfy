/** Length-prefixed framing: packing, unpacking, and the reader that takes header and body in turn. */
module Framing {
  import opened Bytes
  import opened Options

  const HEADER_SIZE := 4
  const MAX_MESSAGE_SIZE := 1024 * 1024
  const UINT32_RANGE := 0x1_0000_0000

  type Message = seq<Byte>

  // A 32-bit number in network byte order.
  function ToNetwork(n: nat): (bytes: seq<Byte>)
    requires n < UINT32_RANGE
    ensures |bytes| == HEADER_SIZE
  {
    [n / 0x100_0000, n / 0x1_0000 % 0x100, n / 0x100 % 0x100, n % 0x100]
  }

  function FromNetwork(bytes: seq<Byte>): (n: nat)
    requires HEADER_SIZE <= |bytes|
    ensures n < UINT32_RANGE
  {
    var (a: int, b: int, c: int, d: int) := (bytes[0], bytes[1], bytes[2], bytes[3]);
    a * 0x100_0000 + b * 0x1_0000 + c * 0x100 + d
  }

  // The source keeps the length in 32 bits and copies that many bytes.
  function Pack(m: Message): seq<Byte> {
    ToNetwork(|m| % UINT32_RANGE) + m[..|m| % UINT32_RANGE]
  }

  function Unpack(data: seq<Byte>): (Option<Message>, nat) {
    if |data| < HEADER_SIZE then (None, 0)
    else
      var length := FromNetwork(data);
      if length > MAX_MESSAGE_SIZE || |data| < HEADER_SIZE + length then (None, 0)
      else (Some(data[HEADER_SIZE..HEADER_SIZE + length]), HEADER_SIZE + length)
  }

  method PackMessage(message: Message) returns (result: array<Byte>)
    ensures fresh(result) && result[..] == Pack(message)
  {
    var length := |message| % UINT32_RANGE;
    var netLength := ToNetwork(length);
    result := new Byte[HEADER_SIZE + length](_ => 0);
    for i := 0 to HEADER_SIZE
      invariant result[..i] == netLength[..i]
    {
      result[i] := netLength[i];
    }
    for i := 0 to length
      invariant result[..HEADER_SIZE] == netLength
      invariant result[HEADER_SIZE..HEADER_SIZE + i] == message[..i]
    {
      result[HEADER_SIZE + i] := message[i];
    }
    assert result[..] == result[..HEADER_SIZE] + result[HEADER_SIZE..HEADER_SIZE + length];
  }

  method UnpackMessage(data: array<Byte>) returns (message: Option<Message>, bytesConsumed: nat)
    ensures (message, bytesConsumed) == Unpack(data[..])
  {
    bytesConsumed := 0;
    if data.Length < HEADER_SIZE {
      return None, 0;
    }
    var length := FromNetwork(data[..HEADER_SIZE]);
    if length > MAX_MESSAGE_SIZE {
      return None, 0;
    }
    if data.Length < HEADER_SIZE + length {
      return None, 0;
    }
    bytesConsumed := HEADER_SIZE + length;
    message := Some(data[HEADER_SIZE..HEADER_SIZE + length]);
  }

  lemma NetworkRoundTrip(n: nat, rest: seq<Byte>)
    requires n < UINT32_RANGE
    ensures FromNetwork(ToNetwork(n) + rest) == n
  {
    assert n / 0x1_0000 == n / 0x100_0000 * 0x100 + n / 0x1_0000 % 0x100;
    assert n / 0x100 == n / 0x1_0000 * 0x100 + n / 0x100 % 0x100;
  }

  lemma NetworkIsUnique(bytes: seq<Byte>)
    requires HEADER_SIZE <= |bytes|
    ensures ToNetwork(FromNetwork(bytes)) == bytes[..HEADER_SIZE]
  {
    var n := FromNetwork(bytes);
    var a: int, b: int, c: int := bytes[0], bytes[1], bytes[2];
    assert n / 0x1_0000 == a * 0x100 + b && n / 0x100 == a * 0x1_0000 + b * 0x100 + c;
    assert n / 0x100_0000 == a;
  }

  // A packed message, whatever follows it, is read back exactly when it is not oversized.
  lemma RoundTrip(m: Message, rest: seq<Byte>)
    ensures Unpack(Pack(m) + rest) == (Some(m), HEADER_SIZE + |m|) <==> |m| <= MAX_MESSAGE_SIZE
  {
    var length := |m| % UINT32_RANGE;
    var data := Pack(m) + rest;
    assert data == ToNetwork(length) + (m[..length] + rest);
    NetworkRoundTrip(length, m[..length] + rest);
    assert data[HEADER_SIZE..HEADER_SIZE + length] == m[..length];
    if |m| <= MAX_MESSAGE_SIZE {
      assert m[..length] == m;
    }
  }

  // Less than a whole frame gives nothing and consumes nothing.
  lemma IncompleteFrame(m: Message, k: nat)
    requires |m| <= MAX_MESSAGE_SIZE && k < |Pack(m)|
    ensures Unpack(Pack(m)[..k]) == (None, 0)
  {
    if HEADER_SIZE <= k {
      NetworkRoundTrip(|m|, m);
      assert Pack(m)[..k][..HEADER_SIZE] == ToNetwork(|m|);
      assert forall i :: 0 <= i < HEADER_SIZE ==> Pack(m)[..k][i] == Pack(m)[i];
    }
  }

  // What a successful unpacking consumed is the packed form of its result.
  lemma ConsumedIsPacked(data: seq<Byte>)
    ensures var (m, n) := Unpack(data);
      m.Some? ==> n <= |data| && |m.value| <= MAX_MESSAGE_SIZE && data[..n] == Pack(m.value)
  {
    if Unpack(data).0.Some? {
      NetworkIsUnique(data);
      assert data[..Unpack(data).1] == data[..HEADER_SIZE] + Unpack(data).0.value;
    }
  }

  // ----- Streams

  datatype Taken = Taken(messages: seq<Message>, rest: seq<Byte>)

  // Unpacking from the front as long as it succeeds.
  function UnpackAll(data: seq<Byte>): Taken
    decreases |data|
  {
    var (m, n) := Unpack(data);
    if m.None? then Taken([], data)
    else
      var more := UnpackAll(data[n..]);
      Taken([m.value] + more.messages, more.rest)
  }

  function PackAll(messages: seq<Message>): seq<Byte> {
    if messages == [] then [] else Pack(messages[0]) + PackAll(messages[1..])
  }

  ghost predicate AllFit(messages: seq<Message>) {
    forall i :: 0 <= i < |messages| ==> |messages[i]| <= MAX_MESSAGE_SIZE
  }

  // The first frame of a stream, taken apart.
  lemma FirstFrame(m: Message, rest: seq<Byte>)
    requires |m| <= MAX_MESSAGE_SIZE
    ensures var data, n := Pack(m) + rest, HEADER_SIZE + |m|;
      && n <= |data| && FromNetwork(data) == |m|
      && data[HEADER_SIZE..n] == m && data[n..] == rest && data[HEADER_SIZE..] == m + rest
  {
    var data := Pack(m) + rest;
    assert m[..|m|] == m;
    assert data == ToNetwork(|m|) + (m + rest);
    NetworkRoundTrip(|m|, m + rest);
  }

  lemma UnpackAllOnce(data: seq<Byte>, m: Message, rest: seq<Byte>)
    requires |m| <= MAX_MESSAGE_SIZE && HEADER_SIZE + |m| <= |data| && FromNetwork(data) == |m|
    requires data[HEADER_SIZE..HEADER_SIZE + |m|] == m && data[HEADER_SIZE + |m|..] == rest
    ensures UnpackAll(data) == Taken([m] + UnpackAll(rest).messages, UnpackAll(rest).rest)
  {
  }

  // The packed messages in front of a tail.
  function PackOnto(messages: seq<Message>, tail: seq<Byte>): seq<Byte> {
    if messages == [] then tail else Pack(messages[0]) + PackOnto(messages[1..], tail)
  }

  lemma {:induction false} PackOntoIsConcat(messages: seq<Message>, tail: seq<Byte>)
    ensures PackOnto(messages, tail) == PackAll(messages) + tail
    decreases |messages|
  {
    if messages != [] {
      PackOntoIsConcat(messages[1..], tail);
    }
  }

  lemma {:induction false} CutBack(messages: seq<Message>, tail: seq<Byte>)
    requires AllFit(messages)
    ensures UnpackAll(PackOnto(messages, tail)) == Taken(messages + UnpackAll(tail).messages, UnpackAll(tail).rest)
    decreases |messages|
  {
    if messages == [] {
    } else {
      CutBack(messages[1..], tail);
      assert [messages[0]] + messages[1..] == messages;
      OneMoreFrame(messages[0], messages[1..], PackOnto(messages[1..], tail), UnpackAll(tail));
    }
  }

  // A stream of packed messages is cut back into exactly those messages.
  lemma StreamRoundTrip(messages: seq<Message>, tail: seq<Byte>)
    requires AllFit(messages)
    ensures UnpackAll(PackAll(messages) + tail) == Taken(messages + UnpackAll(tail).messages, UnpackAll(tail).rest)
  {
    PackOntoIsConcat(messages, tail);
    CutBack(messages, tail);
  }

  lemma OneMoreFrame(m: Message, messages: seq<Message>, rest: seq<Byte>, t: Taken)
    requires |m| <= MAX_MESSAGE_SIZE && UnpackAll(rest) == Taken(messages + t.messages, t.rest)
    ensures UnpackAll(Pack(m) + rest) == Taken(([m] + messages) + t.messages, t.rest)
  {
    FirstFrame(m, rest);
    UnpackAllOnce(Pack(m) + rest, m, rest);
  }

  // ----- The reader of a session

  // What the session waits for: a header, a body of a known length, or nothing any more.
  datatype Waiting = Header | Body(length: nat) | Closed

  datatype Progress = Progress(waiting: Waiting, pending: seq<Byte>, delivered: seq<Message>)

  // All reads that can complete with the bytes at hand, one after the other.
  function Complete(waiting: Waiting, pending: seq<Byte>): Progress
    decreases |pending|, waiting.Body?
  {
    match waiting
    case Closed => Progress(Closed, pending, [])
    case Header =>
      if |pending| < HEADER_SIZE then Progress(Header, pending, [])
      else
        var length := FromNetwork(pending);
        if length > MAX_MESSAGE_SIZE then Progress(Closed, pending[HEADER_SIZE..], [])
        else Complete(Body(length), pending[HEADER_SIZE..])
    case Body(length) =>
      if |pending| < length then Progress(waiting, pending, [])
      else
        var more := Complete(Header, pending[length..]);
        more.(delivered := [pending[..length]] + more.delivered)
  }

  class SessionReader {
    var waiting: Waiting
    var pending: seq<Byte>
    var delivered: seq<Message>

    constructor ()
      ensures waiting == Header && pending == [] && delivered == []
    {
      waiting := Header;
      pending := [];
      delivered := [];
    }

    // Bytes arrive; every read that has its bytes completes and starts the next one.
    method Receive(chunk: seq<Byte>)
      modifies this
      ensures var p := Complete(old(waiting), old(pending) + chunk);
        waiting == p.waiting && pending == p.pending && delivered == old(delivered) + p.delivered
    {
      pending := pending + chunk;
      ghost var goal := Complete(waiting, pending);
      while true
        invariant goal.waiting == Complete(waiting, pending).waiting
        invariant goal.pending == Complete(waiting, pending).pending
        invariant old(delivered) + goal.delivered == delivered + Complete(waiting, pending).delivered
        decreases |pending|, waiting.Body?
      {
        match waiting {
          case Closed =>
            return;
          case Header =>
            if |pending| < HEADER_SIZE {
              return;
            }
            OnHeader();
          case Body(length) =>
            if |pending| < length {
              return;
            }
            OnBody(length);
        }
      }
    }

    method OnHeader()
      requires HEADER_SIZE <= |pending|
      modifies this
      ensures pending == old(pending)[HEADER_SIZE..] && delivered == old(delivered)
      ensures var length := FromNetwork(old(pending));
        waiting == if length > MAX_MESSAGE_SIZE then Closed else Body(length)
    {
      var bodyLength := FromNetwork(pending);
      pending := pending[HEADER_SIZE..];
      if bodyLength > MAX_MESSAGE_SIZE {
        waiting := Closed;
      } else {
        waiting := Body(bodyLength);
      }
    }

    method OnBody(length: nat)
      requires length <= |pending|
      modifies this
      ensures waiting == Header && pending == old(pending)[length..]
      ensures delivered == old(delivered) + [old(pending)[..length]]
    {
      delivered := delivered + [pending[..length]];
      pending := pending[length..];
      waiting := Header;
    }
  }

  ghost predicate Oversized(data: seq<Byte>) {
    HEADER_SIZE <= |data| && FromNetwork(data) > MAX_MESSAGE_SIZE
  }

  // For any bytes, the reader hands on what repeated unpacking yields, and it closes exactly where
  // unpacking gets stuck on an oversized header.
  lemma {:induction false} ReaderAgreesWithUnpack(data: seq<Byte>)
    ensures Complete(Header, data).delivered == UnpackAll(data).messages
    ensures Complete(Header, data).waiting == Closed <==> Oversized(UnpackAll(data).rest)
    decreases |data|
  {
    if HEADER_SIZE <= |data| && FromNetwork(data) <= MAX_MESSAGE_SIZE {
      var length := FromNetwork(data);
      var tail := data[HEADER_SIZE..];
      if length <= |tail| {
        assert tail[length..] == data[HEADER_SIZE + length..];
        assert tail[..length] == data[HEADER_SIZE..HEADER_SIZE + length];
        ReaderAgreesWithUnpack(tail[length..]);
      }
    }
  }

  ghost function InTwo(waiting: Waiting, a: seq<Byte>, b: seq<Byte>): Progress {
    var first := Complete(waiting, a);
    var second := Complete(first.waiting, first.pending + b);
    second.(delivered := first.delivered + second.delivered)
  }

  // Bytes may arrive in pieces: completing with the first piece and then going on with the second
  // is the same as having them all at once.
  lemma {:induction false} ChunksDoNotMatter(waiting: Waiting, a: seq<Byte>, b: seq<Byte>)
    ensures Complete(waiting, a + b) == InTwo(waiting, a, b)
    decreases |a|, waiting.Body?
  {
    match waiting
    case Closed =>
    case Header =>
      if HEADER_SIZE <= |a| {
        assert (a + b)[HEADER_SIZE..] == a[HEADER_SIZE..] + b;
        if FromNetwork(a) <= MAX_MESSAGE_SIZE {
          ChunksDoNotMatter(Body(FromNetwork(a)), a[HEADER_SIZE..], b);
        }
      }
    case Body(length) =>
      if length <= |a| {
        ChunksDoNotMatter(Header, a[length..], b);
        BodyInTwo(length, a, b);
      }
  }

  lemma BodyInTwo(length: nat, a: seq<Byte>, b: seq<Byte>)
    requires length <= |a| && Complete(Header, a[length..] + b) == InTwo(Header, a[length..], b)
    ensures Complete(Body(length), a + b) == InTwo(Body(length), a, b)
  {
    assert (a + b)[length..] == a[length..] + b && (a + b)[..length] == a[..length];
    var first := Complete(Header, a[length..]);
    var second := Complete(first.waiting, first.pending + b);
    ConcatAssociates([a[..length]], first.delivered, second.delivered);
  }

  lemma ConcatAssociates<T>(a: seq<T>, b: seq<T>, c: seq<T>)
    ensures a + (b + c) == (a + b) + c
  {
  }

  function Concat(chunks: seq<seq<Byte>>): seq<Byte> {
    if chunks == [] then [] else Concat(chunks[..|chunks| - 1]) + chunks[|chunks| - 1]
  }

  // The reader after a whole series of arrivals.
  function Arrivals(chunks: seq<seq<Byte>>): Progress {
    if chunks == [] then Progress(Header, [], [])
    else
      var before := Arrivals(chunks[..|chunks| - 1]);
      var p := Complete(before.waiting, before.pending + chunks[|chunks| - 1]);
      p.(delivered := before.delivered + p.delivered)
  }

  lemma {:induction false} ArrivalsAreOneStream(chunks: seq<seq<Byte>>)
    ensures Arrivals(chunks) == Complete(Header, Concat(chunks))
    decreases |chunks|
  {
    if chunks != [] {
      ArrivalsAreOneStream(chunks[..|chunks| - 1]);
      ChunksDoNotMatter(Header, Concat(chunks[..|chunks| - 1]), chunks[|chunks| - 1]);
    }
  }

  // From one end to the other: however the packed messages are cut up on the way, the receiver is
  // handed exactly the messages that were packed.
  lemma MessagesArrive(messages: seq<Message>, chunks: seq<seq<Byte>>)
    requires AllFit(messages) && Concat(chunks) == PackAll(messages)
    ensures Arrivals(chunks) == Progress(Header, [], messages)
  {
    ArrivalsAreOneStream(chunks);
    CompletePacked(messages);
  }

  lemma {:induction false} CompletePacked(messages: seq<Message>)
    requires AllFit(messages)
    ensures Complete(Header, PackAll(messages)) == Progress(Header, [], messages)
    decreases |messages|
  {
    if messages != [] {
      var m, rest := messages[0], PackAll(messages[1..]);
      FirstFrame(m, rest);
      assert (m + rest)[..|m|] == m && (m + rest)[|m|..] == rest;
      CompletePacked(messages[1..]);
    }
  }

  // ----- The header's value

  // The number that bytes spell with the most significant one first.
  function BigEndian(bytes: seq<Byte>): nat {
    if bytes == [] then 0 else BigEndian(bytes[..|bytes| - 1]) * 256 + bytes[|bytes| - 1] as nat
  }

  lemma BigEndianOfFour(b: seq<Byte>)
    requires |b| == 4
    ensures BigEndian(b) == ((b[0] as nat * 256 + b[1] as nat) * 256 + b[2] as nat) * 256 + b[3] as nat
  {
    assert b[..3][..2] == b[..2] && b[..2][..1] == b[..1] && b[..1][..0] == [];
    assert BigEndian(b[..1]) == b[0] as nat;
    assert BigEndian(b[..2]) == BigEndian(b[..1]) * 256 + b[1] as nat;
    assert BigEndian(b[..3]) == BigEndian(b[..2]) * 256 + b[2] as nat;
  }

  lemma NetworkIsBigEndian(n: nat)
    requires n < UINT32_RANGE
    ensures BigEndian(ToNetwork(n)) == n
  {
    BigEndianOfFour(ToNetwork(n));
    NetworkRoundTrip(n, []);
    assert ToNetwork(n) + [] == ToNetwork(n);
  }

  // A packed message begins with its length, most significant byte first.
  lemma PackedLengthIsBigEndian(m: Message)
    requires |m| < UINT32_RANGE
    ensures |Pack(m)| == 4 + |m| && BigEndian(Pack(m)[..4]) == |m| && Pack(m)[4..] == m
  {
    NetworkIsBigEndian(|m|);
    assert m[..|m|] == m && Pack(m) == ToNetwork(|m|) + m;
  }

  // What is unpacked is decided by that number. The limit is 1 MiB.
  lemma UnpackReadsBigEndian(data: seq<Byte>)
    ensures var (m, n) := Unpack(data);
      if |data| >= 4 && BigEndian(data[..4]) <= 1_048_576 && 4 + BigEndian(data[..4]) <= |data| then
        n == 4 + BigEndian(data[..4]) && m == Some(data[4..n])
      else m == None && n == 0
  {
    if |data| >= 4 {
      BigEndianOfFour(data[..4]);
    }
  }

  // And so is what the reader waits for after a header.
  lemma HeaderReadsBigEndian(data: seq<Byte>)
    requires |data| >= 4
    ensures FromNetwork(data) == BigEndian(data[..4])
  {
    BigEndianOfFour(data[..4]);
  }
}

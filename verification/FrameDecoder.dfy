/**
 The length-prefixed frames of the key-to-echo probe (`encode_frame` and `FrameDecoder` in
 scripts/many-agent-load.py): a four-byte big-endian length, then JSON bytes.
 */
module FrameDecoder {
  import opened Wrappers
  import opened Json
  import JsonText

  type Bytes = seq<int>

  predicate IsBytes(b: Bytes) {
    forall i :: 0 <= i < |b| ==> 0 <= b[i] < 256
  }

  function BigEndian(n: int): Bytes
    requires 0 <= n < 0x1_0000_0000
  {
    [n / 0x100_0000, n / 0x1_0000 % 256, n / 256 % 256, n % 256]
  }

  function LengthOf(b: Bytes): int
    requires |b| >= 4
  {
    b[0] * 0x100_0000 + b[1] * 0x1_0000 + b[2] * 256 + b[3]
  }

  function Frame(body: Bytes): Bytes
    requires |body| < 0x1_0000_0000
  {
    BigEndian(|body|) + body
  }

  /** A buffer that does not yet hold a whole frame. */
  predicate Incomplete(buffer: Bytes) {
    |buffer| < 4 || |buffer| < 4 + LengthOf(buffer)
  }

  datatype Parts = Parts(bodies: seq<Bytes>, rest: Bytes)

  /** Every whole frame at the front of a buffer, and what is left. */
  function Split(buffer: Bytes): Parts
    requires IsBytes(buffer)
    decreases |buffer|
  {
    if Incomplete(buffer) then Parts([], buffer)
    else
      var end := 4 + LengthOf(buffer);
      var more := Split(buffer[end..]);
      Parts([buffer[4..end]] + more.bodies, more.rest)
  }

  /** Bodies that the JSON reader rejects are dropped, the others kept in order. */
  function Decoded(bodies: seq<Bytes>, decode: Bytes -> Option<Value>): seq<Value> {
    if bodies == [] then []
    else
      var first := decode(bodies[0]);
      (if first.Some? then [first.value] else []) + Decoded(bodies[1..], decode)
  }

  lemma {:induction false} DecodedAppend(a: seq<Bytes>, b: seq<Bytes>, decode: Bytes -> Option<Value>)
    ensures Decoded(a + b, decode) == Decoded(a, decode) + Decoded(b, decode)
  {
    if a == [] {
      assert a + b == b;
    } else {
      assert (a + b)[0] == a[0] && (a + b)[1..] == a[1..] + b;
      DecodedAppend(a[1..], b, decode);
      var first := decode(a[0]);
      var head := if first.Some? then [first.value] else [];
      Reassociate(head, Decoded(a[1..], decode), Decoded(b, decode));
    }
  }

  lemma Reassociate(a: seq<Value>, b: seq<Value>, c: seq<Value>)
    ensures a + (b + c) == (a + b) + c
  {
  }

  class Decoder {
    var buffer: Bytes
    const decode: Bytes -> Option<Value>

    constructor (decode: Bytes -> Option<Value>)
      ensures this.decode == decode && buffer == []
    {
      this.decode := decode;
      buffer := [];
    }

    method Feed(data: Bytes) returns (messages: seq<Value>)
      requires IsBytes(buffer) && IsBytes(data)
      modifies this
      ensures messages == Decoded(Split(old(buffer) + data).bodies, decode)
      ensures buffer == Split(old(buffer) + data).rest && IsBytes(buffer)
      ensures Incomplete(buffer)
    {
      buffer := buffer + data;
      messages := [];
      ghost var all := Split(buffer);
      ghost var taken: seq<Bytes> := [];
      while |buffer| >= 4
        invariant IsBytes(buffer)
        invariant all.bodies == taken + Split(buffer).bodies && all.rest == Split(buffer).rest
        invariant messages == Decoded(taken, decode)
        decreases |buffer|
      {
        var length := LengthOf(buffer);
        if |buffer| < 4 + length {
          break;
        }
        var body := buffer[4..4 + length];
        Assoc(taken, [body], Split(buffer[4 + length..]).bodies);
        buffer := buffer[4 + length..];
        TakeOne(taken, body, decode);
        taken := taken + [body];
        var message := decode(body);
        if message.Some? {
          messages := messages + [message.value];
        }
      }
      assert Split(buffer) == Parts([], buffer) && taken + [] == taken;
    }
  }

  lemma TakeOne(taken: seq<Bytes>, body: Bytes, decode: Bytes -> Option<Value>)
    ensures Decoded(taken + [body], decode)
         == Decoded(taken, decode) + if decode(body).Some? then [decode(body).value] else []
  {
    DecodedAppend(taken, [body], decode);
    assert [body][1..] == [];
  }

  // ----- chunking -----

  lemma Assoc<T>(a: seq<T>, b: seq<T>, c: seq<T>)
    ensures a + b + c == a + (b + c)
  {
  }

  /** The first frame of a buffer stays the first frame when more bytes follow. */
  lemma FirstFrame(a: Bytes, b: Bytes)
    requires IsBytes(a) && IsBytes(b) && !Incomplete(a)
    ensures IsBytes(a + b) && !Incomplete(a + b) && LengthOf(a + b) == LengthOf(a)
    ensures (a + b)[4 + LengthOf(a)..] == a[4 + LengthOf(a)..] + b
    ensures (a + b)[4..4 + LengthOf(a)] == a[4..4 + LengthOf(a)]
  {
  }

  /** Feeding two chunks is feeding their concatenation. */
  lemma {:induction false} SplitAppend(a: Bytes, b: Bytes)
    requires IsBytes(a) && IsBytes(b)
    ensures IsBytes(Split(a).rest) && IsBytes(Split(a).rest + b) && IsBytes(a + b)
    ensures Split(a + b).bodies == Split(a).bodies + Split(Split(a).rest + b).bodies
    ensures Split(a + b).rest == Split(Split(a).rest + b).rest
    decreases |a|
  {
    if !Incomplete(a) {
      var end := 4 + LengthOf(a);
      FirstFrame(a, b);
      SplitAppend(a[end..], b);
      Assoc([a[4..end]], Split(a[end..]).bodies, Split(Split(a).rest + b).bodies);
    }
  }

  function Flatten(chunks: seq<Bytes>): Bytes {
    if chunks == [] then [] else chunks[0] + Flatten(chunks[1..])
  }

  predicate AllBytes(chunks: seq<Bytes>) {
    forall i :: 0 <= i < |chunks| ==> IsBytes(chunks[i])
  }

  /** The bodies that successive `feed` calls split off, and the final buffer. */
  function FeedAll(buffer: Bytes, chunks: seq<Bytes>): Parts
    requires IsBytes(buffer) && AllBytes(chunks)
    decreases |chunks|
  {
    if chunks == [] then Parts([], buffer)
    else
      var now := Split(buffer + chunks[0]);
      SplitRestIsBytes(buffer + chunks[0]);
      var later := FeedAll(now.rest, chunks[1..]);
      Parts(now.bodies + later.bodies, later.rest)
  }

  lemma {:induction false} SplitRestIsBytes(buffer: Bytes)
    requires IsBytes(buffer)
    ensures IsBytes(Split(buffer).rest) && Incomplete(Split(buffer).rest)
    decreases |buffer|
  {
    if !Incomplete(buffer) {
      SplitRestIsBytes(buffer[4 + LengthOf(buffer)..]);
    }
  }

  lemma {:induction false} FeedAllIsOneFeed(buffer: Bytes, chunks: seq<Bytes>)
    requires IsBytes(buffer) && Incomplete(buffer) && AllBytes(chunks)
    ensures IsBytes(buffer + Flatten(chunks))
    ensures FeedAll(buffer, chunks) == Split(buffer + Flatten(chunks))
    decreases |chunks|
  {
    if chunks == [] {
      assert buffer + [] == buffer;
    } else {
      var a, more := buffer + chunks[0], Flatten(chunks[1..]);
      SplitRestIsBytes(a);
      FlattenIsBytes(chunks[1..]);
      FeedAllIsOneFeed(Split(a).rest, chunks[1..]);
      SplitAppend(a, more);
      Assoc(buffer, chunks[0], more);
    }
  }

  lemma {:induction false} FlattenIsBytes(chunks: seq<Bytes>)
    requires AllBytes(chunks)
    ensures IsBytes(Flatten(chunks))
  {
    if chunks != [] {
      FlattenIsBytes(chunks[1..]);
    }
  }

  // ----- messages -----

  predicate Encodable(v: Value) {
    JsonText.IsValue(v) && |JsonText.Print(v, true)| < 0x1_0000_0000
  }

  predicate AllEncodable(messages: seq<Value>) {
    forall i :: 0 <= i < |messages| ==> Encodable(messages[i])
  }

  /** `encode_frame`; a body of four gigabytes or more has no frame (`OverflowError`). */
  function EncodeFrame(v: Value): Option<Bytes>
    requires JsonText.IsValue(v)
  {
    if Encodable(v) then Some(Frame(JsonText.Print(v, true))) else None
  }

  function Stream(messages: seq<Value>): Bytes
    requires AllEncodable(messages)
  {
    if messages == [] then [] else EncodeFrame(messages[0]).value + Stream(messages[1..])
  }

  function Bodies(messages: seq<Value>): seq<Bytes>
    requires AllEncodable(messages)
  {
    if messages == [] then [] else [JsonText.Print(messages[0], true)] + Bodies(messages[1..])
  }

  lemma FrameSplits(body: Bytes, rest: Bytes)
    requires |body| < 0x1_0000_0000 && IsBytes(body) && IsBytes(rest)
    ensures IsBytes(Frame(body) + rest)
    ensures Split(Frame(body) + rest) == Parts([body] + Split(rest).bodies, Split(rest).rest)
  {
    var s := Frame(body) + rest;
    var n := |body|;
    assert s[0] == n / 0x100_0000 && s[1] == n / 0x1_0000 % 256 && s[2] == n / 256 % 256 && s[3] == n % 256;
    BigEndianReads(n);
    assert LengthOf(s) == n;
    assert s[4..4 + n] == body && s[4 + n..] == rest;
  }

  lemma BigEndianReads(n: int)
    requires 0 <= n < 0x1_0000_0000
    ensures n / 0x100_0000 * 0x100_0000 + n / 0x1_0000 % 256 * 0x1_0000 + n / 256 % 256 * 256 + n % 256 == n
    ensures 0 <= n / 0x100_0000 < 256
  {
    assert n / 256 / 256 == n / 0x1_0000 && n / 0x1_0000 / 256 == n / 0x100_0000;
  }

  lemma {:induction false} StreamSplits(messages: seq<Value>)
    requires AllEncodable(messages)
    ensures IsBytes(Stream(messages)) && Split(Stream(messages)) == Parts(Bodies(messages), [])
    decreases |messages|
  {
    if messages != [] {
      StreamSplits(messages[1..]);
      JsonText.PrintIsAscii(messages[0]);
      FrameSplits(JsonText.Print(messages[0], true), Stream(messages[1..]));
    }
  }

  predicate IsAscii(b: Bytes) {
    forall i :: 0 <= i < |b| ==> 0 <= b[i] < 128
  }

  /** On ASCII bodies, where UTF-8 is the identity, the byte reader reads what the text reader reads. */
  ghost predicate ReadsAscii(decode: Bytes -> Option<Value>) {
    forall b :: IsAscii(b) && JsonText.Loads(b).Some? ==> decode(b) == JsonText.Loads(b)
  }

  lemma {:induction false} BodiesDecode(messages: seq<Value>, decode: Bytes -> Option<Value>)
    requires AllEncodable(messages) && ReadsAscii(decode)
    ensures Decoded(Bodies(messages), decode) == JsonText.NormItems(messages, true)
    decreases |messages|
  {
    if messages != [] {
      var body := JsonText.Print(messages[0], true);
      JsonText.PrintIsAscii(messages[0]);
      assert IsAscii(body);
      JsonText.LoadsPrints(messages[0], true);
      BodiesDecode(messages[1..], decode);
      assert Bodies(messages)[1..] == Bodies(messages[1..]);
    }
  }

  /**
   For every list of messages and every split of their encoded bytes into chunks, the decoder
   ends with an empty buffer and returns the messages in order, each as the JSON reader gives it
   back: exactly those messages if and only if none has a split surrogate pair.
   */
  lemma ChunkedStreamDecodes(messages: seq<Value>, chunks: seq<Bytes>, decode: Bytes -> Option<Value>)
    requires AllEncodable(messages) && AllBytes(chunks) && Flatten(chunks) == Stream(messages) && ReadsAscii(decode)
    ensures FeedAll([], chunks).rest == []
    ensures Decoded(FeedAll([], chunks).bodies, decode) == JsonText.NormItems(messages, true)
    ensures Decoded(FeedAll([], chunks).bodies, decode) == messages
       <==> forall i :: 0 <= i < |messages| ==> JsonText.Survives(messages[i], true)
  {
    FeedAllIsOneFeed([], chunks);
    assert [] + Flatten(chunks) == Stream(messages);
    StreamSplits(messages);
    BodiesDecode(messages, decode);
    JsonText.ItemsSurviveIff(messages, true);
  }

  function Zeros(n: nat): (z: Bytes)
    ensures |z| == n && IsBytes(z)
  {
    if n == 0 then [] else [0] + Zeros(n - 1)
  }

  /** What is left over is always a strict prefix of a single frame. */
  lemma LeftoverIsPrefix(buffer: Bytes) returns (tail: Bytes)
    requires IsBytes(buffer) && Incomplete(buffer)
    ensures tail != [] && IsBytes(buffer + tail)
    ensures |Split(buffer + tail).bodies| == 1 && Split(buffer + tail).rest == []
  {
    var head := buffer + Zeros(if |buffer| < 4 then 4 - |buffer| else 0);
    var missing := 4 + LengthOf(head) - |head|;
    tail := Zeros(if |buffer| < 4 then 4 - |buffer| else 0) + Zeros(missing);
    var whole := buffer + tail;
    assert whole == head + Zeros(missing);
    assert LengthOf(whole) == LengthOf(head);
    assert whole[4 + LengthOf(whole)..] == [];
  }
}

/** Length-prefixed messages over a byte stream: `pybox/daemon/protocol.py`. */
module Framing {
  import opened Outcomes

  newtype byte = x: int | 0 <= x < 256

  type Bytes = seq<byte>

  /** `TooLong` is raised by packing a length of 2^32 or more; `Incomplete` carries the bytes left at the
  end of the stream. */
  datatype Failure = TooLong | Incomplete(partial: Bytes)

  const LIMIT: nat := 0x1_0000_0000

  // ---------------------------------------------------------------------------------------
  // Encoding

  function PackLength(n: nat): Bytes
    requires n < LIMIT
  {
    [(n / 0x100_0000) as byte, (n / 0x1_0000 % 0x100) as byte, (n / 0x100 % 0x100) as byte, (n % 0x100) as byte]
  }

  function UnpackLength(b: Bytes): nat
    requires |b| == 4
  {
    b[0] as nat * 0x100_0000 + b[1] as nat * 0x1_0000 + b[2] as nat * 0x100 + b[3] as nat
  }

  function Encode(payload: Bytes): Result<Bytes, Failure> {
    if |payload| < LIMIT then Ok(PackLength(|payload|) + payload) else Err(TooLong)
  }

  lemma UnpackPacked(n: nat)
    requires n < LIMIT
    ensures UnpackLength(PackLength(n)) == n
  {
    var a, b, c := n / 0x100, n / 0x1_0000, n / 0x100_0000;
    assert n == a * 0x100 + n % 0x100;
    assert b == a / 0x100 && a == b * 0x100 + a % 0x100;
    assert c == b / 0x100 && b == c * 0x100 + b % 0x100;
  }

  /** The number whose digits in base 256 are the given bytes, the first one counting most. */
  function BigEndian(b: Bytes): nat {
    if b == [] then 0 else BigEndian(b[..|b| - 1]) * 256 + b[|b| - 1] as nat
  }

  /** Lengths are in network byte order. */
  lemma NetworkOrder(b: Bytes, n: nat)
    requires |b| == 4 && n < LIMIT
    ensures UnpackLength(b) == BigEndian(b) && BigEndian(PackLength(n)) == n
    ensures PackLength(0x0102_0304) == [1, 2, 3, 4]
  {
    UnpackIsBigEndian(b);
    UnpackIsBigEndian(PackLength(n));
    UnpackPacked(n);
  }

  lemma UnpackIsBigEndian(b: Bytes)
    requires |b| == 4
    ensures UnpackLength(b) == BigEndian(b)
  {
    assert b[..4] == b && b[..3][..2] == b[..2] && b[..2][..1] == b[..1] && b[..1][..0] == [];
    assert BigEndian(b[..1]) == b[0] as nat;
    assert BigEndian(b[..2]) == b[0] as nat * 256 + b[1] as nat;
    assert BigEndian(b[..3]) == (b[0] as nat * 256 + b[1] as nat) * 256 + b[2] as nat;
  }

  /** Taking the last byte off a number. */
  lemma LastByte(n: nat, rest: nat, b: byte)
    requires n == rest * 0x100 + b as nat
    ensures n / 0x100 == rest && n % 0x100 == b as nat
  {
  }

  lemma PackUnpacked(b: Bytes)
    requires |b| == 4
    ensures UnpackLength(b) < LIMIT && PackLength(UnpackLength(b)) == b
  {
    var n1 := b[0] as nat;
    var n2 := n1 * 0x100 + b[1] as nat;
    var n3 := n2 * 0x100 + b[2] as nat;
    var n := n3 * 0x100 + b[3] as nat;
    LastByte(n2, n1, b[1]);
    LastByte(n3, n2, b[2]);
    LastByte(n, n3, b[3]);
    assert n == UnpackLength(b);
    assert n / 0x1_0000 == n / 0x100 / 0x100 && n / 0x100_0000 == n / 0x100 / 0x100 / 0x100;
  }

  // ---------------------------------------------------------------------------------------
  // Reading from a stream

  function Concat(chunks: seq<Bytes>): Bytes
    decreases |chunks|
  {
    if chunks == [] then [] else chunks[0] + Concat(chunks[1..])
  }

  /** The chunks of a stream one after the other. */
  lemma {:induction false} ChunksJoined(a: seq<Bytes>, chunk: Bytes, b: seq<Bytes>)
    ensures Concat(a + [chunk] + b) == Concat(a) + chunk + Concat(b)
    decreases |a|
  {
    var all := a + [chunk] + b;
    if a == [] {
      assert all[0] == chunk && all[1..] == b;
      assert [] + chunk == chunk;
    } else {
      assert all[0] == a[0] && all[1..] == a[1..] + [chunk] + b;
      ChunksJoined(a[1..], chunk, b);
      assert a[0] + (Concat(a[1..]) + chunk + Concat(b)) == a[0] + Concat(a[1..]) + chunk + Concat(b);
    }
  }

  /** What reading one message yields and what it leaves, given everything that will ever arrive. */
  function ReadFrame(stream: Bytes): (Result<Bytes, Failure>, Bytes) {
    if |stream| < 4 then (Err(Incomplete(stream)), [])
    else
      var n := UnpackLength(stream[..4]);
      if |stream| - 4 < n then (Err(Incomplete(stream[4..])), [])
      else (Ok(stream[4..4 + n]), stream[4 + n..])
  }

  /** A stream reader: bytes that arrived, and the chunks the rest will arrive in before the end. */
  class StreamReader {
    var buffer: Bytes
    var pending: seq<Bytes>

    constructor (pending: seq<Bytes>)
      ensures Stream() == Concat(pending)
    {
      this.buffer, this.pending := [], pending;
      new;
      assert [] + Concat(pending) == Concat(pending);
    }

    ghost function Stream(): Bytes
      reads this
    {
      buffer + Concat(pending)
    }

    method ReadExactly(n: nat) returns (r: Result<Bytes, Failure>)
      modifies this
      ensures |old(Stream())| >= n ==> r == Ok(old(Stream())[..n]) && Stream() == old(Stream())[n..]
      ensures |old(Stream())| < n ==> r == Err(Incomplete(old(Stream()))) && Stream() == []
    {
      while |buffer| < n
        invariant Stream() == old(Stream())
        decreases |pending|
      {
        if pending == [] {
          assert buffer + [] == buffer;
          var partial := buffer;
          buffer := [];
          return Err(Incomplete(partial));
        }
        assert buffer + Concat(pending) == (buffer + pending[0]) + Concat(pending[1..]);
        buffer, pending := buffer + pending[0], pending[1..];
      }
      assert Stream()[..n] == buffer[..n] && Stream()[n..] == buffer[n..] + Concat(pending);
      r := Ok(buffer[..n]);
      buffer := buffer[n..];
    }

    method ReadMessage() returns (r: Result<Bytes, Failure>)
      modifies this
      ensures (r, Stream()) == ReadFrame(old(Stream()))
    {
      var head := ReadExactly(4);
      if head.Err? {
        return head;
      }
      var length := UnpackLength(head.value);
      ghost var stream := old(Stream());
      assert |stream| - 4 >= length ==>
               stream[4..][..length] == stream[4..4 + length] && stream[4..][length..] == stream[4 + length..];
      r := ReadExactly(length);
    }

    /** The loop around `ReadMessage`: messages are handled until the stream ends. */
    method ReadAll() returns (messages: seq<Bytes>)
      modifies this
      ensures messages == Frames(old(Stream())) && Stream() == []
    {
      messages := [];
      while true
        invariant Frames(old(Stream())) == messages + Frames(Stream())
        decreases |Stream()|
      {
        label Before:
        var r := ReadMessage();
        if r.Err? {
          return;
        }
        messages := messages + [r.value];
      }
    }
  }

  /** The messages of a stream. */
  function Frames(stream: Bytes): seq<Bytes>
    decreases |stream|
  {
    var (r, rest) := ReadFrame(stream);
    if r.Err? then [] else [r.value] + Frames(rest)
  }

  /** What follows the last whole message. */
  function Leftover(stream: Bytes): Bytes
    decreases |stream|
  {
    var (r, rest) := ReadFrame(stream);
    if r.Err? then stream else Leftover(rest)
  }

  // ---------------------------------------------------------------------------------------
  // Round trips

  predicate Encodable(messages: seq<Bytes>) {
    forall k :: 0 <= k < |messages| ==> |messages[k]| < LIMIT
  }

  function EncodeAll(messages: seq<Bytes>): Bytes
    requires Encodable(messages)
    decreases |messages|
  {
    if messages == [] then [] else Encode(messages[0]).value + EncodeAll(messages[1..])
  }

  predicate IsIncomplete(stream: Bytes) {
    ReadFrame(stream).0.Err?
  }

  lemma ReadEncoded(payload: Bytes, rest: Bytes)
    requires |payload| < LIMIT
    ensures ReadFrame(Encode(payload).value + rest) == (Ok(payload), rest)
  {
    var stream := Encode(payload).value + rest;
    UnpackPacked(|payload|);
    assert stream[..4] == PackLength(|payload|);
    assert stream[4..4 + |payload|] == payload;
    assert stream[4 + |payload|..] == rest;
  }

  lemma {:induction false} FramesOfEncoded(messages: seq<Bytes>, tail: Bytes)
    requires Encodable(messages) && IsIncomplete(tail)
    ensures Frames(EncodeAll(messages) + tail) == messages
    ensures Leftover(EncodeAll(messages) + tail) == tail
    decreases |messages|
  {
    if messages == [] {
      assert EncodeAll(messages) + tail == tail;
    } else {
      var rest := EncodeAll(messages[1..]) + tail;
      assert EncodeAll(messages) + tail == Encode(messages[0]).value + rest;
      ReadEncoded(messages[0], rest);
      FramesOfEncoded(messages[1..], tail);
    }
  }

  lemma EncodedRead(stream: Bytes)
    requires ReadFrame(stream).0.Ok?
    ensures var (r, rest) := ReadFrame(stream);
            |r.value| < LIMIT && Encode(r.value).value + rest == stream && |rest| < |stream|
  {
    PackUnpacked(stream[..4]);
    var n := UnpackLength(stream[..4]);
    assert stream == stream[..4] + stream[4..4 + n] + stream[4 + n..];
  }

  lemma {:induction false} EncodedFrames(stream: Bytes)
    ensures Encodable(Frames(stream)) && IsIncomplete(Leftover(stream))
    ensures EncodeAll(Frames(stream)) + Leftover(stream) == stream
    decreases |stream|
  {
    if ReadFrame(stream).0.Err? {
      assert [] + stream == stream;
    } else {
      var (r, rest) := ReadFrame(stream);
      EncodedRead(stream);
      EncodedFrames(rest);
      EncodeMore(r.value, Frames(rest), Leftover(rest));
    }
  }

  lemma EncodeMore(first: Bytes, messages: seq<Bytes>, tail: Bytes)
    requires |first| < LIMIT && Encodable(messages)
    ensures Encodable([first] + messages)
    ensures EncodeAll([first] + messages) + tail == Encode(first).value + (EncodeAll(messages) + tail)
  {
    assert ([first] + messages)[1..] == messages;
  }

  /** Every byte stream, however it is cut into chunks, is read as these messages exactly when it is their
  encodings followed by an incomplete one. */
  lemma StreamIsItsMessages(chunks: seq<Bytes>, messages: seq<Bytes>, tail: Bytes)
    requires IsIncomplete(tail)
    ensures Encodable(messages) && Concat(chunks) == EncodeAll(messages) + tail
            <==> Frames(Concat(chunks)) == messages && Leftover(Concat(chunks)) == tail
  {
    EncodedFrames(Concat(chunks));
    if Encodable(messages) {
      FramesOfEncoded(messages, tail);
    }
  }

  /** Any chunking of concatenated frames reads back as the same messages. */
  method ReadBack(messages: seq<Bytes>, chunks: seq<Bytes>) returns (received: seq<Bytes>)
    requires Encodable(messages) && Concat(chunks) == EncodeAll(messages)
    ensures received == messages
  {
    var reader := new StreamReader(chunks);
    FramesOfEncoded(messages, []);
    assert EncodeAll(messages) + [] == EncodeAll(messages);
    received := reader.ReadAll();
  }
}

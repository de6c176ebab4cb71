/**
  Native messaging frames: a 32-bit little-endian length before each body, decoded
  incrementally from whatever chunks the pipe delivers.
*/
module NativeMessaging {
  import opened Options

  newtype Byte = x: int | 0 <= x < 256

  const MAX_MESSAGE_BYTES: nat := 64 * 1024 * 1024
  const UINT32: nat := 0x1_0000_0000

  lemma Associate<T>(a: seq<T>, b: seq<T>, c: seq<T>)
    ensures (a + b) + c == a + (b + c)
  {
  }

  // ------------------------------------------------------------------- header

  function Header(n: nat): (h: seq<Byte>)
    requires n < UINT32
    ensures |h| == 4
  {
    [(n % 256) as Byte, (n / 256 % 256) as Byte, (n / 65536 % 256) as Byte, (n / 16777216) as Byte]
  }

  function ReadUInt32LE(b: seq<Byte>): (n: nat)
    requires 4 <= |b|
    ensures n < UINT32
  {
    b[0] as nat + 256 * (b[1] as nat) + 65536 * (b[2] as nat) + 16777216 * (b[3] as nat)
  }

  // Writing and reading the header are inverse, both ways round.
  lemma HeaderRoundTrip(n: nat)
    requires n < UINT32
    ensures ReadUInt32LE(Header(n)) == n
  {
    var a, b, c := n / 256, n / 65536, n / 16777216;
    assert n == 256 * a + n % 256;
    assert a == 256 * b + a % 256 by { assert a / 256 == b; }
    assert b == 256 * c + b % 256 by { assert b / 256 == c; }
  }

  lemma HeaderOfRead(b: seq<Byte>)
    requires 4 <= |b|
    ensures Header(ReadUInt32LE(b)) == b[..4]
  {
    var n := ReadUInt32LE(b);
    var x0, x1, x2, x3 := b[0] as nat, b[1] as nat, b[2] as nat, b[3] as nat;
    assert n / 256 == x1 + 256 * x2 + 65536 * x3;
    assert n / 65536 == x2 + 256 * x3;
    assert n / 16777216 == x3;
  }

  // ------------------------------------------------------------------ encoding

  function Encode(body: seq<Byte>): seq<Byte>
    requires |body| < UINT32
  {
    Header(|body|) + body
  }

  ghost predicate Sendable(bodies: seq<seq<Byte>>) {
    forall i | 0 <= i < |bodies| :: |bodies[i]| <= MAX_MESSAGE_BYTES
  }

  function EncodeAll(bodies: seq<seq<Byte>>): seq<Byte>
    requires Sendable(bodies)
  {
    if bodies == [] then [] else Encode(bodies[0]) + EncodeAll(bodies[1..])
  }

  // `writeNativeMessage` on a serialised value; None is the range error of
  // `writeUInt32LE`, thrown before anything is written.
  method WriteNativeMessage(body: seq<Byte>) returns (r: Option<seq<Byte>>)
    ensures r == if |body| < UINT32 then Some(Encode(body)) else None
  {
    if |body| >= UINT32 { return None; }
    var header := new Byte[4](_ => 0);
    header[0] := (|body| % 256) as Byte;
    header[1] := (|body| / 256 % 256) as Byte;
    header[2] := (|body| / 65536 % 256) as Byte;
    header[3] := (|body| / 16777216) as Byte;
    assert header[..] == Header(|body|);
    r := Some(header[..] + body);
  }

  // ------------------------------------------------------------------ decoding

  // The bodies a buffer holds, what is left of it, and whether the decoder stopped
  // at a header announcing more than the limit.
  datatype Decoded = Decoded(bodies: seq<seq<Byte>>, rest: seq<Byte>, tooLarge: bool)

  function Decode(buffer: seq<Byte>): Decoded
    decreases |buffer|
  {
    if |buffer| < 4 then Decoded([], buffer, false)
    else
      var n := ReadUInt32LE(buffer);
      if n > MAX_MESSAGE_BYTES then Decoded([], buffer, true)
      else if |buffer| < 4 + n then Decoded([], buffer, false)
      else Prepend(buffer[4..4 + n], Decode(buffer[4 + n..]))
  }

  function Prepend(body: seq<Byte>, d: Decoded): Decoded {
    Decoded([body] + d.bodies, d.rest, d.tooLarge)
  }

  datatype Host = Host(input: seq<Byte>, forwarded: seq<seq<Byte>>, complaints: nat)

  function Feed(h: Host, chunk: seq<Byte>): Host {
    var d := Decode(h.input + chunk);
    Host(d.rest, h.forwarded + d.bodies, h.complaints + if d.tooLarge then 1 else 0)
  }

  // The module's `input` buffer and its stdin `data` handler.
  class NativeHost {
    var input: seq<Byte>
    var forwarded: seq<seq<Byte>>
    var complaints: nat

    ghost function Model(): Host
      reads this
    {
      Host(input, forwarded, complaints)
    }

    constructor ()
      ensures Model() == Host([], [], 0)
    {
      input, forwarded, complaints := [], [], 0;
    }

    method OnData(chunk: seq<Byte>)
      modifies this
      ensures Model() == Feed(old(Model()), chunk)
    {
      input := input + chunk;
      ghost var d := Decode(input);
      while |input| >= 4
        invariant complaints == old(complaints)
        invariant forwarded + Decode(input).bodies == old(forwarded) + d.bodies
        invariant Decode(input).rest == d.rest && Decode(input).tooLarge == d.tooLarge
        decreases |input|
      {
        var n := ReadUInt32LE(input);
        if n > MAX_MESSAGE_BYTES {
          complaints := complaints + 1;
          return;
        }
        if |input| < 4 + n { return; }
        var body := input[4..4 + n];
        ghost var later := Decode(input[4 + n..]);
        Associate(forwarded, [body], later.bodies);
        input := input[4 + n..];
        forwarded := forwarded + [body];
      }
    }
  }

  // --------------------------------------------------------- chunking invariance

  lemma SliceOfAppend(a: seq<Byte>, b: seq<Byte>, i: nat, j: nat)
    requires i <= j <= |a|
    ensures (a + b)[i..j] == a[i..j] && (a + b)[j..] == a[j..] + b
  {
  }

  lemma {:induction false} DecodeAppend(a: seq<Byte>, b: seq<Byte>)
    ensures var d := Decode(a); var e := Decode(d.rest + b);
            Decode(a + b) == Decoded(d.bodies + e.bodies, e.rest, e.tooLarge)
    decreases |a|
  {
    if |a| >= 4 {
      var n := ReadUInt32LE(a);
      assert ReadUInt32LE(a + b) == n;
      if n <= MAX_MESSAGE_BYTES && |a| >= 4 + n {
        DecodeAppend(a[4 + n..], b);
        SliceOfAppend(a, b, 4, 4 + n);
        var d := Decode(a[4 + n..]);
        var e := Decode(d.rest + b);
        Associate([a[4..4 + n]], d.bodies, e.bodies);
      }
    }
  }

  function FeedAll(h: Host, chunks: seq<seq<Byte>>): Host
    decreases |chunks|
  {
    if chunks == [] then h else FeedAll(Feed(h, chunks[0]), chunks[1..])
  }

  function Joined(chunks: seq<seq<Byte>>): seq<Byte> {
    if chunks == [] then [] else chunks[0] + Joined(chunks[1..])
  }

  // Between events the buffer holds no complete body.
  ghost predicate Settled(h: Host) { Decode(h.input).bodies == [] && Decode(h.input).rest == h.input }

  lemma {:induction false} RestIsSettled(b: seq<Byte>)
    ensures var d := Decode(b); Decode(d.rest) == Decoded([], d.rest, d.tooLarge)
    decreases |b|
  {
    if |b| >= 4 {
      var n := ReadUInt32LE(b);
      if n <= MAX_MESSAGE_BYTES && |b| >= 4 + n { RestIsSettled(b[4 + n..]); }
    }
  }

  // One chunk moves the host along the decoding of the whole stream.
  lemma FeedAdvances(h: Host, chunk: seq<Byte>, later: seq<Byte>)
    ensures var h1 := Feed(h, chunk); var w := Decode(h.input + (chunk + later)); var w1 := Decode(h1.input + later);
            && Settled(h1) && h1.forwarded + w1.bodies == h.forwarded + w.bodies
            && w1.rest == w.rest && w1.tooLarge == w.tooLarge
    ensures Decode(h.input + chunk).tooLarge ==> Decode(h.input + (chunk + later)).tooLarge
    ensures Decode(Feed(h, chunk).input).tooLarge == Decode(h.input + chunk).tooLarge
  {
    var whole := h.input + chunk;
    assert h.input + (chunk + later) == whole + later;
    RestIsSettled(whole);
    DecodeAppend(whole, later);
    var d, e := Decode(whole), Decode(Decode(whole).rest + later);
    Associate(h.forwarded, d.bodies, e.bodies);
    if d.tooLarge { OversizedSticks(d.rest, later); }
  }

  lemma NothingMore(h: Host)
    requires Settled(h)
    ensures Decode(h.input + []) == Decoded([], h.input, Decode(h.input).tooLarge)
  {
  }

  // However the bytes are cut into chunks, the host forwards the same bodies and
  // keeps the same remainder; it complains if and only if the bytes lead it to an
  // oversized header, though once per chunk from there on.
  lemma {:induction false} ChunkingDoesNotMatter(h: Host, chunks: seq<seq<Byte>>)
    requires Settled(h)
    ensures var r := FeedAll(h, chunks); var w := Decode(h.input + Joined(chunks));
            && r.forwarded == h.forwarded + w.bodies && r.input == w.rest
            && h.complaints <= r.complaints
            && (!w.tooLarge ==> r.complaints == h.complaints)
            && (w.tooLarge && !Decode(h.input).tooLarge ==> r.complaints > h.complaints)
    decreases |chunks|
  {
    if chunks == [] {
      NothingMore(h);
    } else {
      FeedAdvances(h, chunks[0], Joined(chunks[1..]));
      ChunkingDoesNotMatter(Feed(h, chunks[0]), chunks[1..]);
    }
  }

  lemma OversizedSticks(b: seq<Byte>, more: seq<Byte>)
    requires Decode(b) == Decoded([], b, true)
    ensures Decode(b + more) == Decoded([], b + more, true)
  {
  }

  // The decoder stops at a header that is not all there, at a body that is not all there,
  // or, and only then with a complaint, at a header over the limit.
  lemma {:induction false} StopsExactly(b: seq<Byte>)
    ensures var d := Decode(b);
            && (d.tooLarge <==> |d.rest| >= 4 && ReadUInt32LE(d.rest) > MAX_MESSAGE_BYTES)
            && (!d.tooLarge ==> |d.rest| < 4 || |d.rest| < 4 + ReadUInt32LE(d.rest))
  {
    if |b| >= 4 && ReadUInt32LE(b) <= MAX_MESSAGE_BYTES && |b| >= 4 + ReadUInt32LE(b) {
      StopsExactly(b[4 + ReadUInt32LE(b)..]);
    }
  }

  // ------------------------------------------------------------------ round trip

  lemma DecodeOneFrame(body: seq<Byte>, more: seq<Byte>)
    requires |body| <= MAX_MESSAGE_BYTES
    ensures Decode(Encode(body) + more) == Prepend(body, Decode(more))
  {
    var buffer := Encode(body) + more;
    HeaderRoundTrip(|body|);
    assert buffer[..4] == Header(|body|);
    assert ReadUInt32LE(buffer) == ReadUInt32LE(Header(|body|));
    assert buffer[4..4 + |body|] == body;
    assert buffer[4 + |body|..] == more;
  }

  lemma {:induction false} DecodeOfEncode(bodies: seq<seq<Byte>>, tail: seq<Byte>)
    requires Sendable(bodies)
    ensures Decode(EncodeAll(bodies) + tail) ==
            Decoded(bodies + Decode(tail).bodies, Decode(tail).rest, Decode(tail).tooLarge)
    decreases |bodies|
  {
    if bodies == [] {
      assert EncodeAll(bodies) + tail == tail;
    } else {
      var later := EncodeAll(bodies[1..]) + tail;
      Associate(Encode(bodies[0]), EncodeAll(bodies[1..]), tail);
      DecodeOneFrame(bodies[0], later);
      DecodeOfEncode(bodies[1..], tail);
      Associate([bodies[0]], bodies[1..], Decode(tail).bodies);
      assert [bodies[0]] + bodies[1..] == bodies;
    }
  }

  // Any list of bodies within the limit, encoded and cut into chunks anywhere,
  // comes out of a fresh host unchanged and in order, with nothing left over.
  lemma RoundTrip(bodies: seq<seq<Byte>>, chunks: seq<seq<Byte>>)
    requires Sendable(bodies) && Joined(chunks) == EncodeAll(bodies)
    ensures FeedAll(Host([], [], 0), chunks) == Host([], bodies, 0)
  {
    ChunkingDoesNotMatter(Host([], [], 0), chunks);
    DecodeOfEncode(bodies, []);
    assert [] + Joined(chunks) == EncodeAll(bodies) + [];
  }

  // A frame cut short yields nothing yet and is kept whole.
  lemma PartialFrameIsKept(body: seq<Byte>, cut: nat)
    requires |body| <= MAX_MESSAGE_BYTES && cut < |Encode(body)|
    ensures Decode(Encode(body)[..cut]) == Decoded([], Encode(body)[..cut], false)
  {
    if cut >= 4 {
      HeaderRoundTrip(|body|);
      assert Encode(body)[..cut][..4] == Header(|body|);
      assert ReadUInt32LE(Encode(body)[..cut]) == |body|;
    }
  }

  lemma FrameOf(b: seq<Byte>)
    requires 4 <= |b| && ReadUInt32LE(b) <= MAX_MESSAGE_BYTES && 4 + ReadUInt32LE(b) <= |b|
    ensures b == Encode(b[4..4 + ReadUInt32LE(b)]) + b[4 + ReadUInt32LE(b)..]
  {
    HeaderOfRead(b);
  }

  lemma EncodeAllCons(body: seq<Byte>, bodies: seq<seq<Byte>>)
    requires |body| <= MAX_MESSAGE_BYTES && Sendable(bodies)
    ensures Sendable([body] + bodies) && EncodeAll([body] + bodies) == Encode(body) + EncodeAll(bodies)
  {
  }

  // No byte is lost or invented: what was forwarded, re-encoded, followed by the
  // remainder, is the input.
  lemma {:induction false} DecodeLosesNothing(b: seq<Byte>)
    ensures Sendable(Decode(b).bodies)
    ensures EncodeAll(Decode(b).bodies) + Decode(b).rest == b
    decreases |b|
  {
    if |b| >= 4 && ReadUInt32LE(b) <= MAX_MESSAGE_BYTES && |b| >= 4 + ReadUInt32LE(b) {
      var n := ReadUInt32LE(b);
      var body, d := b[4..4 + n], Decode(b[4 + n..]);
      DecodeLosesNothing(b[4 + n..]);
      FrameOf(b);
      EncodeAllCons(body, d.bodies);
      Associate(Encode(body), EncodeAll(d.bodies), d.rest);
    }
  }
}

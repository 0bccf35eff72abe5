/** Length-prefixed frames: encoding, decoding, and the streaming decoder of the TypeScript side. */
module Framing {
  import opened Basics

  const HEADER_BYTES := 4
  const MAX_REQUEST_BYTES := 65_536
  const MAX_RESPONSE_BYTES := 1_048_576

  // ---------------------------------------------------------------- one frame

  /** Four bytes, most significant first. */
  function Header(n: nat): (h: seq<byte>)
    requires n < 0x1_0000_0000
    ensures |h| == HEADER_BYTES
  {
    [n / 0x100 / 0x100 / 0x100, n / 0x100 / 0x100 % 0x100, n / 0x100 % 0x100, n % 0x100]
  }

  function Length(b: seq<byte>): (n: nat)
    requires |b| >= HEADER_BYTES
    ensures n < 0x1_0000_0000
  {
    b[0] as int * 0x100_0000 + b[1] as int * 0x1_0000 + b[2] as int * 0x100 + b[3] as int
  }

  lemma HeaderRead(n: nat, rest: seq<byte>)
    requires n < 0x1_0000_0000
    ensures Length(Header(n) + rest) == n
  {
  }

  lemma ReadHeader(b: seq<byte>)
    requires |b| >= HEADER_BYTES
    ensures Header(Length(b)) == b[..HEADER_BYTES]
  {
    var n := Length(b);
    assert n / 0x100 == b[0] as int * 0x1_0000 + b[1] as int * 0x100 + b[2] as int;
    assert n / 0x100 / 0x100 == b[0] as int * 0x100 + b[1] as int;
  }

  /** The first byte in which the texts differ is smaller in `a`. */
  ghost predicate Precedes(a: seq<byte>, b: seq<byte>) {
    exists k :: 0 <= k < |a| && k < |b| && a[..k] == b[..k] && a[k] < b[k]
  }

  lemma PrecedesAt(a: seq<byte>, b: seq<byte>, k: nat)
    requires |a| == |b| == HEADER_BYTES && k < HEADER_BYTES && a[..k] == b[..k] && a[k] < b[k]
    ensures Length(a) < Length(b)
  {
    assert forall i :: 0 <= i < k ==> a[..k][i] == a[i] && b[..k][i] == b[i];
  }

  lemma LowerPrecedes(a: seq<byte>, b: seq<byte>)
    requires |a| == |b| == HEADER_BYTES && Length(a) < Length(b)
    ensures Precedes(a, b)
  {
    var k := if a[0] != b[0] then 0 else if a[1] != b[1] then 1 else if a[2] != b[2] then 2 else 3;
    assert a[..k] == b[..k] && a[k] < b[k];
  }

  /** Most significant byte first: headers are ordered as the lengths they stand for. */
  lemma HeaderOrder(m: nat, n: nat)
    requires m < 0x1_0000_0000 && n < 0x1_0000_0000
    ensures m < n <==> Precedes(Header(m), Header(n))
  {
    hide Header, Length;
    HeaderRead(m, []);
    HeaderRead(n, []);
    assert Header(m) + [] == Header(m) && Header(n) + [] == Header(n);
    if m < n { LowerPrecedes(Header(m), Header(n)); }
    if Precedes(Header(m), Header(n)) {
      var k :| 0 <= k < |Header(m)| && k < |Header(n)| && Header(m)[..k] == Header(n)[..k] && Header(m)[k] < Header(n)[k];
      PrecedesAt(Header(m), Header(n), k);
    }
  }

  function Frame(payload: seq<byte>): seq<byte>
    requires |payload| < 0x1_0000_0000
  {
    Header(|payload|) + payload
  }

  datatype FrameError = TooLarge | TooShort | LengthMismatch

  /** `encodeRequestFrame` and `encodeResponseFrame`, after JSON encoding. */
  function Encode(payload: seq<byte>, limit: nat): Result<seq<byte>, FrameError>
    requires limit < 0x1_0000_0000
  {
    if |payload| > limit then Err(TooLarge) else Ok(Frame(payload))
  }

  /** `decodeRequestFrame` and `decodeResponseFrame`, before JSON decoding. */
  function Decode(frame: seq<byte>, limit: nat): Result<seq<byte>, FrameError> {
    if |frame| < HEADER_BYTES then Err(TooShort)
    else if Length(frame) > limit then Err(TooLarge)
    else if |frame| != HEADER_BYTES + Length(frame) then Err(LengthMismatch)
    else Ok(frame[HEADER_BYTES..])
  }

  /** Decoding accepts exactly what encoding produces, and gives the payload back. */
  lemma DecodeIff(frame: seq<byte>, payload: seq<byte>, limit: nat)
    requires limit < 0x1_0000_0000
    ensures Decode(frame, limit) == Ok(payload) <==> Encode(payload, limit) == Ok(frame)
  {
    hide Header, Length;
    if Encode(payload, limit) == Ok(frame) {
      HeaderRead(|payload|, payload);
    }
    if Decode(frame, limit) == Ok(payload) {
      ReadHeader(frame);
      assert frame == frame[..HEADER_BYTES] + payload;
    }
  }

  // ---------------------------------------------------------------- a stream of frames

  /** What a buffer holds: complete frames, then a rest that is incomplete or begins with an oversize header. */
  datatype Parsed = Parsed(frames: seq<seq<byte>>, rest: seq<byte>, oversize: bool)

  function Parse(b: seq<byte>, limit: nat): (p: Parsed)
    decreases |b|
  {
    if |b| < HEADER_BYTES then Parsed([], b, false)
    else if Length(b) > limit then Parsed([], b, true)
    else if |b| < HEADER_BYTES + Length(b) then Parsed([], b, false)
    else
      var n := HEADER_BYTES + Length(b);
      var tail := Parse(b[n..], limit);
      Parsed([b[..n]] + tail.frames, tail.rest, tail.oversize)
  }

  function Flatten(chunks: seq<seq<byte>>): seq<byte> {
    if chunks == [] then [] else chunks[0] + Flatten(chunks[1..])
  }

  /** The buffer starts with a complete frame within the limit. */
  predicate HasFrame(b: seq<byte>, limit: nat) {
    |b| >= HEADER_BYTES && Length(b) <= limit && |b| >= HEADER_BYTES + Length(b)
  }

  lemma FirstFrame(b: seq<byte>, limit: nat)
    requires HasFrame(b, limit)
    ensures var n := HEADER_BYTES + Length(b);
            Parse(b, limit) == Prepend([b[..n]], Parse(b[n..], limit)) && Decode(b[..n], limit).Ok?
  {
    LengthOfPrefix(b, HEADER_BYTES + Length(b));
    hide Length;
  }

  lemma NoFrame(b: seq<byte>, limit: nat)
    requires !HasFrame(b, limit)
    ensures Parse(b, limit).frames == [] && Parse(b, limit).rest == b
  {
  }

  lemma PrependTwice(f: seq<seq<byte>>, g: seq<seq<byte>>, p: Parsed)
    ensures Prepend(f, Prepend(g, p)) == Prepend(f + g, p) && Prepend([], p) == p
  {
    assert f + (g + p.frames) == (f + g) + p.frames;
  }

  lemma {:induction false} FlattenConcat(a: seq<seq<byte>>, b: seq<seq<byte>>)
    ensures Flatten(a + b) == Flatten(a) + Flatten(b)
  {
    if a == [] {
      assert a + b == b;
    } else {
      assert (a + b)[1..] == a[1..] + b;
      FlattenConcat(a[1..], b);
    }
  }

  lemma FlattenOne(a: seq<byte>)
    ensures Flatten([a]) == a
  {
    assert [a][1..] == [];
  }

  /** No byte is lost or invented, and every frame decodes. */
  lemma {:induction false} ParseConserves(b: seq<byte>, limit: nat)
    ensures var p := Parse(b, limit); Flatten(p.frames) + p.rest == b
    ensures forall f :: f in Parse(b, limit).frames ==> Decode(f, limit).Ok?
    decreases |b|
  {
    hide Length, Parse, Decode;
    if HasFrame(b, limit) {
      var n := HEADER_BYTES + Length(b);
      FirstFrame(b, limit);
      ParseConserves(b[n..], limit);
      FlattenOne(b[..n]);
      FlattenConcat([b[..n]], Parse(b[n..], limit).frames);
      assert b == b[..n] + b[n..];
    } else {
      NoFrame(b, limit);
    }
  }

  lemma LengthOfPrefix(b: seq<byte>, n: nat)
    requires HEADER_BYTES <= n <= |b|
    ensures Length(b[..n]) == Length(b)
  {
  }

  lemma LengthOfExtension(b: seq<byte>, c: seq<byte>)
    requires HEADER_BYTES <= |b|
    ensures Length(b + c) == Length(b)
  {
  }

  function Prepend(frames: seq<seq<byte>>, p: Parsed): Parsed {
    Parsed(frames + p.frames, p.rest, p.oversize)
  }

  lemma FrameStaysFirst(b: seq<byte>, c: seq<byte>, limit: nat)
    requires HasFrame(b, limit)
    ensures HasFrame(b + c, limit)
    ensures var n := HEADER_BYTES + Length(b);
            && HEADER_BYTES + Length(b + c) == n
            && (b + c)[..n] == b[..n] && (b + c)[n..] == b[n..] + c
  {
    LengthOfExtension(b, c);
    hide Length;
    var n := HEADER_BYTES + Length(b);
    assert (b + c)[..n] == b[..n] && (b + c)[n..] == b[n..] + c;
  }

  /** More input continues where the rest was left. */
  lemma {:induction false} ParseContinues(b: seq<byte>, c: seq<byte>, limit: nat)
    requires !Parse(b, limit).oversize
    ensures Parse(b + c, limit) == Prepend(Parse(b, limit).frames, Parse(Parse(b, limit).rest + c, limit))
    decreases |b|
  {
    hide Length, Parse, Prepend;
    if HasFrame(b, limit) {
      var n := HEADER_BYTES + Length(b);
      FirstFrame(b, limit);
      FrameStaysFirst(b, c, limit);
      FirstFrame(b + c, limit);
      PrependFields([b[..n]], Parse(b[n..], limit));
      ParseContinues(b[n..], c, limit);
      PrependTwice([b[..n]], Parse(b[n..], limit).frames, Parse(Parse(b[n..], limit).rest + c, limit));
    } else {
      NoFrame(b, limit);
      PrependTwice([], [], Parse(b + c, limit));
    }
  }

  lemma PrependFields(f: seq<seq<byte>>, p: Parsed)
    ensures Prepend(f, p).frames == f + p.frames && Prepend(f, p).rest == p.rest && Prepend(f, p).oversize == p.oversize
  {
  }

  /** An oversize header is found however much input follows. */
  lemma {:induction false} OversizeStays(b: seq<byte>, c: seq<byte>, limit: nat)
    requires Parse(b, limit).oversize
    ensures Parse(b + c, limit).oversize && Parse(b + c, limit).frames == Parse(b, limit).frames
    decreases |b|
  {
    LengthOfExtension(b, c);
    hide Length;
    if HasFrame(b, limit) {
      FirstFrame(b, limit);
      FrameStaysFirst(b, c, limit);
      FirstFrame(b + c, limit);
      OversizeStays(b[HEADER_BYTES + Length(b)..], c, limit);
    }
  }

  /** The rest of a parse holds no complete frame. */
  lemma {:induction false} RestIsSettled(b: seq<byte>, limit: nat)
    ensures Parse(Parse(b, limit).rest, limit) == Parsed([], Parse(b, limit).rest, Parse(b, limit).oversize)
    decreases |b|
  {
    if HasFrame(b, limit) {
      RestIsSettled(b[HEADER_BYTES + Length(b)..], limit);
    }
  }

  /** Frames written one after the other are read back one after the other. */
  lemma {:induction false} StreamRoundTrip(payloads: seq<seq<byte>>, limit: nat)
    requires limit < 0x1_0000_0000 && forall p :: p in payloads ==> |p| <= limit
    ensures Parse(Flatten(Frames(payloads)), limit) == Parsed(Frames(payloads), [], false)
  {
    hide Length, Header;
    if payloads != [] {
      var first, rest := Frame(payloads[0]), Flatten(Frames(payloads[1..]));
      var b := Flatten(Frames(payloads));
      assert Frames(payloads)[1..] == Frames(payloads[1..]);
      assert b == first + rest == Header(|payloads[0]|) + (payloads[0] + rest);
      HeaderRead(|payloads[0]|, payloads[0] + rest);
      assert b[..|first|] == first && b[|first|..] == rest;
      StreamRoundTrip(payloads[1..], limit);
    }
  }

  function Frames(payloads: seq<seq<byte>>): (r: seq<seq<byte>>)
    requires forall p :: p in payloads ==> |p| < 0x1_0000_0000
    ensures |r| == |payloads|
  {
    if payloads == [] then [] else [Frame(payloads[0])] + Frames(payloads[1..])
  }

  // ---------------------------------------------------------------- chunks

  /** What pushing chunks in turn delivers, up to the first error. */
  datatype Delivery = Delivery(frames: seq<seq<byte>>, rest: seq<byte>, failed: bool)

  function Feed(buffer: seq<byte>, chunks: seq<seq<byte>>, limit: nat): Delivery
    decreases |chunks|
  {
    if chunks == [] then Delivery([], buffer, false)
    else
      var p := Parse(buffer + chunks[0], limit);
      if p.oversize then Delivery([], [], true)
      else
        var later := Feed(p.rest, chunks[1..], limit);
        Delivery(p.frames + later.frames, later.rest, later.failed)
  }

  /** Without an oversize header, every chunking delivers the frames of the whole stream. */
  lemma {:induction false} FeedIsParse(buffer: seq<byte>, chunks: seq<seq<byte>>, limit: nat)
    requires Parse(buffer, limit) == Parsed([], buffer, false)
    requires !Parse(buffer + Flatten(chunks), limit).oversize
    ensures var p := Parse(buffer + Flatten(chunks), limit);
            Feed(buffer, chunks, limit) == Delivery(p.frames, p.rest, false)
    decreases |chunks|
  {
    hide Parse;
    if chunks == [] {
      assert buffer + Flatten(chunks) == buffer;
    } else {
      var first, rest := buffer + chunks[0], Flatten(chunks[1..]);
      assert buffer + Flatten(chunks) == first + rest;
      if Parse(first, limit).oversize {
        OversizeStays(first, rest, limit);
      } else {
        ParseContinues(first, rest, limit);
        RestIsSettled(first, limit);
        FeedIsParse(Parse(first, limit).rest, chunks[1..], limit);
      }
    }
  }

  /** With an oversize header every chunking fails, having delivered some of the frames before it. */
  lemma {:induction false} FeedFails(buffer: seq<byte>, chunks: seq<seq<byte>>, limit: nat)
    requires Parse(buffer, limit) == Parsed([], buffer, false)
    requires Parse(buffer + Flatten(chunks), limit).oversize
    ensures Feed(buffer, chunks, limit).failed && Feed(buffer, chunks, limit).rest == []
    ensures Feed(buffer, chunks, limit).frames <= Parse(buffer + Flatten(chunks), limit).frames
    decreases |chunks|
  {
    hide Parse;
    assert chunks == [] ==> buffer + Flatten(chunks) == buffer;
    if chunks != [] {
      var first, rest := buffer + chunks[0], Flatten(chunks[1..]);
      assert buffer + Flatten(chunks) == first + rest;
      if !Parse(first, limit).oversize {
        ParseContinues(first, rest, limit);
        RestIsSettled(first, limit);
        FeedFails(Parse(first, limit).rest, chunks[1..], limit);
      }
    }
  }

  /** Received at once, frames before an oversize header are lost; received apart, they are delivered. */
  lemma LostFrames(stream: seq<byte>, limit: nat)
    requires Parse(stream, limit).oversize
    ensures Flatten([stream]) == stream && Feed([], [stream], limit) == Delivery([], [], true)
    ensures var apart := [Flatten(Parse(stream, limit).frames), Parse(stream, limit).rest];
            Flatten(apart) == stream && Feed([], apart, limit) == Delivery(Parse(stream, limit).frames, [], true)
  {
    FlattenOne(stream);
    assert [] + stream == stream;
    var p := Parse(stream, limit);
    var apart := [Flatten(p.frames), p.rest];
    ParseConserves(stream, limit);
    assert apart[1..] == [p.rest];
    FlattenOne(p.rest);
    FramesAlone(stream, limit);
    RestIsSettled(stream, limit);
    assert [] + Flatten(p.frames) == Flatten(p.frames) && [] + p.rest == p.rest;
    assert Feed([], apart[1..], limit) == Delivery([], [], true);
    assert p.frames + [] == p.frames;
  }

  /** The complete frames of a stream, on their own, leave no rest. */
  lemma {:induction false} FramesAlone(b: seq<byte>, limit: nat)
    ensures Parse(Flatten(Parse(b, limit).frames), limit) == Parsed(Parse(b, limit).frames, [], false)
    decreases |b|
  {
    hide Length, Parse;
    if HasFrame(b, limit) {
      var n := HEADER_BYTES + Length(b);
      var later := Parse(b[n..], limit).frames;
      FirstFrame(b, limit);
      FramesAlone(b[n..], limit);
      FlattenOne(b[..n]);
      FlattenConcat([b[..n]], later);
      LengthOfPrefix(b, n);
      FrameStaysFirst(b[..n], Flatten(later), limit);
      FirstFrame(b[..n] + Flatten(later), limit);
      assert b[..n][n..] + Flatten(later) == Flatten(later);
    } else {
      NoFrame(b, limit);
      NoFrame([], limit);
      NothingParsed(limit);
    }
  }

  lemma NothingParsed(limit: nat)
    ensures Parse([], limit) == Parsed([], [], false)
  {
  }

  ghost predicate SameForAllChunkings(stream: seq<byte>, limit: nat) {
    forall c, d :: Flatten(c) == stream && Flatten(d) == stream ==> Feed([], c, limit) == Feed([], d, limit)
  }

  /**
   * What the decoder delivers up to its first error is independent of the chunking exactly when
   * the stream has no oversize header or no complete frame before it.
   */
  lemma ChunkingIrrelevantIff(stream: seq<byte>, limit: nat)
    ensures SameForAllChunkings(stream, limit) <==> !Parse(stream, limit).oversize || Parse(stream, limit).frames == []
  {
    hide Parse, Feed;
    var p := Parse(stream, limit);
    NothingParsed(limit);
    assert [] + stream == stream;
    if !p.oversize || p.frames == [] {
      forall c | Flatten(c) == stream
        ensures Feed([], c, limit) == if p.oversize then Delivery([], [], true) else Delivery(p.frames, p.rest, false)
      {
        if p.oversize {
          FeedFails([], c, limit);
        } else {
          FeedIsParse([], c, limit);
        }
      }
    } else {
      LostFrames(stream, limit);
      var c, d := [stream], [Flatten(p.frames), p.rest];
      assert Flatten(c) == stream && Flatten(d) == stream && Feed([], c, limit) != Feed([], d, limit);
    }
  }

  // ---------------------------------------------------------------- the streaming decoder

  class StreamFrameDecoder {
    var buffer: seq<byte>
    const limit: nat

    /** What is buffered holds no complete frame and no oversize header. */
    ghost predicate Valid()
      reads this
    {
      Parse(buffer, limit) == Parsed([], buffer, false)
    }

    constructor (limit: nat)
      ensures Valid() && buffer == [] && this.limit == limit
    {
      buffer := [];
      this.limit := limit;
    }

    /** The frames completed by `chunk`; an oversize header empties the buffer and yields an error. */
    method Push(chunk: seq<byte>) returns (r: Result<seq<seq<byte>>, FrameError>)
      requires Valid()
      modifies this
      ensures Valid()
      ensures var p := Parse(old(buffer) + chunk, limit);
              if p.oversize then r == Err(TooLarge) && buffer == []
              else r == Ok(p.frames) && buffer == p.rest
    {
      hide Length;
      if chunk == [] {
        assert buffer + chunk == buffer;
        return Ok([]);
      }
      buffer := buffer + chunk;
      ghost var whole := Parse(buffer, limit);
      var complete: seq<seq<byte>> := [];
      PrependTwice([], [], whole);
      while |buffer| >= HEADER_BYTES
        invariant whole == Prepend(complete, Parse(buffer, limit))
        decreases |buffer|
      {
        var n := Length(buffer);
        if n > limit {
          buffer := [];
          return Err(TooLarge);
        }
        if |buffer| < HEADER_BYTES + n { break; }
        FirstFrame(buffer, limit);
        PrependTwice(complete, [buffer[..HEADER_BYTES + n]], Parse(buffer[HEADER_BYTES + n..], limit));
        complete := complete + [buffer[..HEADER_BYTES + n]];
        buffer := buffer[HEADER_BYTES + n..];
      }
      assert complete + [] == complete;
      r := Ok(complete);
    }

    method Reset()
      modifies this
      ensures Valid() && buffer == []
    {
      buffer := [];
    }
  }

  /** Pushing chunks one by one is `Feed`. */
  method PushAll(decoder: StreamFrameDecoder, chunks: seq<seq<byte>>) returns (delivered: seq<seq<byte>>, failed: bool)
    requires decoder.Valid()
    modifies decoder
    ensures decoder.Valid()
    ensures Delivery(delivered, decoder.buffer, failed) == Feed(old(decoder.buffer), chunks, decoder.limit)
  {
    hide Parse;
    delivered, failed := [], false;
    ghost var whole := Feed(decoder.buffer, chunks, decoder.limit);
    for k := 0 to |chunks|
      invariant decoder.Valid()
      invariant var later := Feed(decoder.buffer, chunks[k..], decoder.limit);
                whole == Delivery(delivered + later.frames, later.rest, later.failed)
    {
      assert chunks[k..][1..] == chunks[k + 1..];
      ghost var before := decoder.buffer;
      var r := decoder.Push(chunks[k]);
      if r.Err? {
        assert delivered + [] == delivered;
        return delivered, true;
      }
      ghost var later := Feed(decoder.buffer, chunks[k + 1..], decoder.limit);
      assert (delivered + r.value) + later.frames == delivered + (r.value + later.frames);
      delivered := delivered + r.value;
    }
    assert delivered + [] == delivered;
  }
}

/**
 * The frame reader and writer of the native peer: byte counters advanced across
 * poll callbacks, under any pattern of partial reads and writes.
 */
module NativePeer {
  import opened Basics
  import opened Framing

  // ---------------------------------------------------------------- the socket

  /** How one `read` or `write` goes: some bytes (at least one), not now, end of file, or an error. */
  datatype Turn = Transfer(count: nat) | Again | Eof | Broken

  /** From call `from` on there are at most `k` interruptions by `Again`, and no end or error. */
  ghost predicate AtMost(turns: nat -> Turn, from: nat, k: nat)
    decreases k
  {
    forall n: nat :: n >= from ==> turns(n).Transfer? || (turns(n).Again? && k > 0 && AtMost(turns, n + 1, k - 1))
  }

  /** A stream socket: bytes to be received, bytes sent, and how the next calls go. */
  class Socket {
    const incoming: seq<byte>
    var received: nat
    var sent: seq<byte>
    var calls: nat
    const turns: nat -> Turn

    ghost predicate Valid()
      reads this
    {
      received <= |incoming|
    }

    constructor (incoming: seq<byte>, turns: nat -> Turn)
      ensures Valid() && this.incoming == incoming && this.turns == turns && received == 0 && sent == []
    {
      this.incoming, this.turns := incoming, turns;
      received, sent, calls := 0, [], 0;
    }

    /** What has been received so far. */
    ghost function Taken(): seq<byte>
      requires Valid()
      reads this
    {
      incoming[..received]
    }

    /** `read`: between one and `size` bytes of what is available. */
    method Read(size: nat) returns (r: Result<seq<byte>, Turn>)
      requires Valid() && size > 0
      modifies this
      ensures Valid() && sent == old(sent)
      ensures r.Ok? ==> 0 < |r.value| <= size && Taken() == old(Taken()) + r.value
      ensures r.Err? ==> received == old(received) && !r.error.Transfer?
      ensures calls == old(calls) + 1
      ensures old(received) < |incoming| ==> (r.Err? ==> r.error == turns(old(calls)))
    {
      var turn := turns(calls);
      calls := calls + 1;
      if turn.Transfer? {
        var available := |incoming| - received;
        if available == 0 { return Err(Again); }
        var most := if size < available then size else available;
        var n := if turn.count == 0 then 1 else if turn.count < most then turn.count else most;
        var data := incoming[received..received + n];
        assert incoming[..received + n] == incoming[..received] + data;
        received := received + n;
        r := Ok(data);
      } else {
        r := Err(turn);
      }
    }

    /** `write`: takes at least one byte of `data`, or none for now. */
    method Write(data: seq<byte>) returns (r: Result<nat, Turn>)
      requires Valid() && data != []
      modifies this
      ensures Valid() && received == old(received)
      ensures r.Ok? ==> 0 < r.value <= |data| && sent == old(sent) + data[..r.value]
      ensures r.Err? ==> sent == old(sent) && !r.error.Transfer?
      ensures calls == old(calls) + 1
      ensures r.Err? ==> r.error == turns(old(calls))
    {
      var turn := turns(calls);
      calls := calls + 1;
      if turn.Transfer? {
        var n := if turn.count == 0 then 1 else if turn.count < |data| then turn.count else |data|;
        sent := sent + data[..n];
        r := Ok(n);
      } else {
        r := Err(turn);
      }
    }
  }

  // ---------------------------------------------------------------- reading one frame

  datatype ReadOutcome = Pending | Complete(payload: seq<byte>) | Malformed | Closed

  /** Copies `data` behind the first `at` bytes of a buffer. */
  method CopyBehind(buffer: array<byte>, at: nat, data: seq<byte>)
    requires at + |data| <= buffer.Length
    modifies buffer
    ensures buffer[..at + |data|] == old(buffer[..at]) + data
  {
    forall k | 0 <= k < |data| { buffer[at + k] := data[k]; }
  }

  /** The pending read: a header buffer, then a payload buffer of the declared length, each with its counter. */
  class PendingRead {
    const header: array<byte>
    var headerRead: nat
    var payload: array?<byte>
    var payloadRead: nat

    constructor ()
      ensures fresh(header) && Holds([])
    {
      header := new byte[HEADER_BYTES](_ => 0);
      headerRead, payload, payloadRead := 0, null, 0;
    }

    /** The buffers hold exactly the bytes taken from the socket since the read began. */
    ghost predicate Holds(taken: seq<byte>)
      reads this, header, payload
    {
      && header.Length == HEADER_BYTES && headerRead <= HEADER_BYTES
      && (if payload == null then taken == header[..headerRead]
          else
            && headerRead == HEADER_BYTES && payload != header && payloadRead <= payload.Length
            && 0 < payload.Length == Length(header[..]) <= MAX_REQUEST_BYTES
            && taken == header[..] + payload[..payloadRead])
    }

    /** The header loop; `Ok` tells whether all four bytes are in. */
    method ReadHeader(socket: Socket, ghost start: nat, ghost k: nat) returns (done: Result<bool, Turn>)
      requires socket.Valid() && start <= socket.received && Holds(socket.Taken()[start..]) && payload == null
      modifies this, header, socket
      ensures socket.Valid() && start <= socket.received && Holds(socket.Taken()[start..]) && payload == null
      ensures done.Ok? && done.value ==> headerRead == HEADER_BYTES
      ensures done.Ok? && !done.value ==> headerRead < HEADER_BYTES
      ensures AtMost(socket.turns, old(socket.calls), k) && |socket.incoming| - start >= HEADER_BYTES ==> Progress(socket, done, k)
    {
      while headerRead < HEADER_BYTES
        invariant socket.Valid() && start <= socket.received && Holds(socket.Taken()[start..]) && payload == null
        invariant socket.calls >= old(socket.calls)
        decreases HEADER_BYTES - headerRead
      {
        ghost var taken := socket.Taken();
        var got := socket.Read(HEADER_BYTES - headerRead);
        match got {
          case Err(Again) => return Ok(false);
          case Err(turn) => return Err(turn);
          case Ok(data) =>
            assert (taken + data)[start..] == taken[start..] + data;
            CopyBehind(header, headerRead, data);
            headerRead := headerRead + |data|;
        }
      }
      done := Ok(true);
    }

    /** The payload loop. */
    method ReadPayload(socket: Socket, ghost start: nat, ghost k: nat) returns (done: Result<bool, Turn>)
      requires socket.Valid() && start <= socket.received && Holds(socket.Taken()[start..]) && payload != null
      modifies this`payloadRead, payload, socket
      ensures socket.Valid() && start <= socket.received && Holds(socket.Taken()[start..]) && payload != null
      ensures done.Ok? ==> done.value == (payloadRead == payload.Length)
      ensures AtMost(socket.turns, old(socket.calls), k) && |socket.incoming| - start >= HEADER_BYTES + payload.Length ==> Progress(socket, done, k)
    {
      while payloadRead < payload.Length
        invariant socket.Valid() && start <= socket.received && Holds(socket.Taken()[start..]) && payload != null
        invariant socket.calls >= old(socket.calls)
        decreases payload.Length - payloadRead
      {
        ghost var taken := socket.Taken();
        var got := socket.Read(payload.Length - payloadRead);
        match got {
          case Err(Again) => return Ok(false);
          case Err(turn) => return Err(turn);
          case Ok(data) =>
            assert (taken + data)[start..] == taken[start..] + data;
            CopyBehind(payload, payloadRead, data);
            payloadRead := payloadRead + |data|;
        }
      }
      done := Ok(true);
    }

    /** Decodes a complete header: a buffer of the declared length, or `Malformed`. */
    method StartPayload(ghost taken: seq<byte>) returns (ok: bool)
      requires Holds(taken) && payload == null && headerRead == HEADER_BYTES
      modifies this`payload, this`payloadRead
      ensures Holds(taken) && header[..] == old(header[..])
      ensures ok ==> payload != null && fresh(payload)
      ensures !ok ==> payload == null && ReadSoFar(Malformed, taken)
      ensures ok <==> 0 < Length(header[..]) <= MAX_REQUEST_BYTES
    {
      hide Length;
      assert taken == header[..];
      var len := Length(header[..]);
      if len == 0 || len > MAX_REQUEST_BYTES { return false; }
      payload := new byte[len](_ => 0);
      payloadRead := 0;
      assert header[..] + payload[..0] == header[..];
      ok := true;
    }

    /** One poll callback. It never takes a byte beyond the frame it is reading. */
    method Poll(socket: Socket, ghost start: nat, ghost k: nat) returns (r: ReadOutcome)
      requires socket.Valid() && start <= socket.received && Holds(socket.Taken()[start..])
      modifies this, header, payload, socket
      ensures socket.Valid() && start <= socket.received
      ensures payload == old(payload) || fresh(payload)
      ensures ReadSoFar(r, socket.Taken()[start..])
      ensures r == Pending ==> Holds(socket.Taken()[start..])
      ensures AtMost(socket.turns, old(socket.calls), k) && (FrameComing(socket.incoming[start..]) || RefusalComing(socket.incoming[start..])) ==>
                r.Complete? || r == Malformed || (r == Pending && k > 0 && AtMost(socket.turns, socket.calls, k - 1))
    {
      hide Length, ReadSoFar, AtMost;
      if payload == null {
        var done := ReadHeader(socket, start, k);
        PendingHeader(header[..headerRead]);
        if done.Err? { return Closed; }
        if !done.value { return Pending; }
        TakenHeader(socket, start, header[..]);
        var ok := StartPayload(socket.Taken()[start..]);
        if !ok { return Malformed; }
      }
      assert socket.Taken()[start..][..HEADER_BYTES] == header[..];
      TakenHeader(socket, start, header[..]);
      var done := ReadPayload(socket, start, k);
      if done.Err? { ClosedSoFar(socket.Taken()[start..]); return Closed; }
      PayloadSoFar(header[..], payload[..payloadRead]);
      if !done.value { return Pending; }
      assert payload[..payloadRead] == payload[..];
      r := Complete(payload[..]);
    }
  }

  /** A non-empty frame within the limit is on its way. */
  ghost predicate FrameComing(stream: seq<byte>) {
    HasFrame(stream, MAX_REQUEST_BYTES) && Length(stream) > 0
  }

  /** A header that announces nothing, or more than the limit. */
  ghost predicate RefusalComing(stream: seq<byte>) {
    |stream| >= HEADER_BYTES && !(0 < Length(stream) <= MAX_REQUEST_BYTES)
  }

  /** A loop that ran to its end, or used up one of the `k` interruptions. */
  ghost predicate Progress(socket: Socket, done: Result<bool, Turn>, k: nat)
    reads socket
  {
    || (done == Ok(true) && AtMost(socket.turns, socket.calls, k))
    || (done == Ok(false) && k > 0 && AtMost(socket.turns, socket.calls, k - 1))
  }

  ghost predicate TakenWhole(socket: Socket, start: nat, header: seq<byte>)
    reads socket
  {
    && |header| == HEADER_BYTES && start + HEADER_BYTES <= socket.received <= |socket.incoming|
    && Length(socket.incoming[start..]) == Length(header)
  }

  lemma TakenHeader(socket: Socket, start: nat, header: seq<byte>)
    requires socket.Valid() && start + HEADER_BYTES <= socket.received && socket.Taken()[start..][..HEADER_BYTES] == header
    ensures TakenWhole(socket, start, header)
  {
  }

  lemma PendingHeader(header: seq<byte>)
    ensures |header| < HEADER_BYTES ==> ReadSoFar(Pending, header)
    ensures ReadSoFar(Closed, header)
  {
  }

  lemma ClosedSoFar(taken: seq<byte>)
    ensures ReadSoFar(Closed, taken)
  {
  }

  lemma PayloadSoFar(header: seq<byte>, part: seq<byte>)
    requires |header| == HEADER_BYTES && 0 < Length(header) <= MAX_REQUEST_BYTES && |part| <= Length(header)
    ensures |part| < Length(header) ==> ReadSoFar(Pending, header + part)
    ensures |part| == Length(header) ==> ReadSoFar(Complete(part), header + part)
  {
    LengthOfExtension(header, part);
    Framing.ReadHeader(header);
    hide Length;
  }

  /** What an outcome says about the bytes taken. */
  ghost predicate ReadSoFar(r: ReadOutcome, taken: seq<byte>) {
    match r
    case Complete(payload) => 0 < |payload| <= MAX_REQUEST_BYTES && taken == Frame(payload)
    case Malformed => |taken| == HEADER_BYTES && (Length(taken) == 0 || Length(taken) > MAX_REQUEST_BYTES)
    case Pending => |taken| < HEADER_BYTES || (0 < Length(taken) <= MAX_REQUEST_BYTES && |taken| < HEADER_BYTES + Length(taken))
    case Closed => true
  }

  /** The frame the reader completes is the first one a streaming decoder would find. */
  lemma SameFirstFrame(stream: seq<byte>, taken: seq<byte>, payload: seq<byte>)
    requires taken <= stream && ReadSoFar(Complete(payload), taken)
    ensures var p := Parse(stream, MAX_REQUEST_BYTES);
            p.frames != [] && p.frames[0] == taken && Decode(taken, MAX_REQUEST_BYTES) == Ok(payload)
  {
    var rest := stream[|taken|..];
    assert stream == taken + rest == Header(|payload|) + (payload + rest);
    HeaderRead(|payload|, payload + rest);
    FirstFrame(stream, MAX_REQUEST_BYTES);
    DecodeIff(taken, payload, MAX_REQUEST_BYTES);
  }

  /** The reader calls a frame malformed when the decoder would find it oversize or empty. */
  lemma SameRefusal(stream: seq<byte>, taken: seq<byte>)
    requires taken <= stream && ReadSoFar(Malformed, taken)
    ensures var p := Parse(stream, MAX_REQUEST_BYTES);
            (p.oversize && p.frames == []) || (p.frames != [] && p.frames[0] == Frame([]))
  {
    var rest := stream[|taken|..];
    assert stream == taken + rest;
    LengthOfExtension(taken, rest);
    if Length(stream) == 0 {
      FirstFrame(stream, MAX_REQUEST_BYTES);
      Framing.ReadHeader(taken);
      assert stream[..HEADER_BYTES] == taken == Frame([]);
    }
  }

  /**
   * The whole read: callbacks until the frame is settled or no more callbacks come. More callbacks
   * than interruptions are enough to complete a frame.
   */
  method ReadFrame(socket: Socket, callbacks: nat, ghost k: nat) returns (r: ReadOutcome)
    requires socket.Valid()
    modifies socket
    ensures socket.Valid() && old(socket.received) <= socket.received
    ensures ReadSoFar(r, socket.Taken()[old(socket.received)..])
    ensures var stream := socket.incoming[old(socket.received)..];
            var p := Parse(stream, MAX_REQUEST_BYTES);
            && (r.Complete? ==> p.frames != [] && Decode(p.frames[0], MAX_REQUEST_BYTES) == Ok(r.payload) && r.payload != []
                                && socket.received == old(socket.received) + |p.frames[0]|)
            && (r == Malformed ==> (p.oversize && p.frames == []) || (p.frames != [] && p.frames[0] == Frame([])))
            && (AtMost(socket.turns, old(socket.calls), k) && callbacks > k ==>
                  (p.frames != [] || p.oversize) == (r.Complete? || r == Malformed))
  {
    hide Length, ReadSoFar, AtMost, Parse, FrameComing, RefusalComing;
    ghost var start: nat := socket.received;
    ghost var budget: nat := k;
    ghost var sure := AtMost(socket.turns, socket.calls, k) && (FrameComing(socket.incoming[start..]) || RefusalComing(socket.incoming[start..]));
    var read := new PendingRead();
    r := Pending;
    assert socket.Taken()[start..] == [];
    PendingHeader([]);
    FrameWaiting(socket.incoming[start..]);
    for n := 0 to callbacks
      invariant socket.Valid() && start <= socket.received && r == Pending
      invariant fresh(read) && fresh(read.header) && (read.payload == null || fresh(read.payload))
      invariant read.Holds(socket.Taken()[start..]) && ReadSoFar(r, socket.Taken()[start..])
      invariant sure ==> AtMost(socket.turns, socket.calls, budget) && budget + n == k
    {
      r := read.Poll(socket, start, budget);
      if r != Pending {
        Settled(socket, start, r);
        return;
      }
      budget := if budget > 0 then budget - 1 else 0;
    }
  }

  lemma Settled(socket: Socket, start: nat, r: ReadOutcome)
    requires socket.Valid() && start <= socket.received && ReadSoFar(r, socket.Taken()[start..])
    ensures var p := Parse(socket.incoming[start..], MAX_REQUEST_BYTES);
            && (r.Complete? ==> p.frames != [] && Decode(p.frames[0], MAX_REQUEST_BYTES) == Ok(r.payload) && r.payload != []
                                && socket.received == start + |p.frames[0]|)
            && (r == Malformed ==> (p.oversize && p.frames == []) || (p.frames != [] && p.frames[0] == Frame([])))
  {
    var stream, taken := socket.incoming[start..], socket.Taken()[start..];
    assert taken <= stream;
    if r.Complete? { SameFirstFrame(stream, taken, r.payload); }
    if r == Malformed { SameRefusal(stream, taken); }
  }

  lemma FrameWaiting(stream: seq<byte>)
    ensures var p := Parse(stream, MAX_REQUEST_BYTES);
            p.frames != [] || p.oversize ==> FrameComing(stream) || RefusalComing(stream)
  {
    hide Length;
    if !HasFrame(stream, MAX_REQUEST_BYTES) { NoFrame(stream, MAX_REQUEST_BYTES); }
  }

  // ---------------------------------------------------------------- writing one frame

  datatype WriteOutcome = Unfinished | Written | TooBig | WriteFailed

  /** The pending write: the whole frame and how much of it the socket has taken. */
  class PendingWrite {
    const buffer: array<byte>
    var written: nat

    /** Header, then payload. */
    constructor (payload: seq<byte>)
      requires |payload| <= MAX_RESPONSE_BYTES
      ensures fresh(buffer) && buffer[..] == Frame(payload) && written == 0
    {
      buffer := new byte[HEADER_BYTES + |payload|](_ => 0);
      written := 0;
      new;
      CopyBehind(buffer, 0, Header(|payload|));
      CopyBehind(buffer, HEADER_BYTES, payload);
      assert buffer[..] == buffer[..HEADER_BYTES + |payload|];
    }

    /** The socket has taken exactly the first `written` bytes of the frame. */
    ghost predicate Sent(sent: seq<byte>, before: seq<byte>)
      reads this, buffer
    {
      written <= buffer.Length && sent == before + buffer[..written]
    }

    /** The write loop, tried at once and again in every poll callback. */
    method Continue(socket: Socket, ghost before: seq<byte>, ghost k: nat) returns (r: WriteOutcome)
      requires socket.Valid() && Sent(socket.sent, before)
      modifies this`written, socket
      ensures socket.Valid() && Sent(socket.sent, before)
      ensures r == Written <==> written == buffer.Length
      ensures r in {Written, Unfinished, WriteFailed}
      ensures AtMost(socket.turns, old(socket.calls), k) ==>
                r == Written || (r == Unfinished && k > 0 && AtMost(socket.turns, socket.calls, k - 1))
    {
      while written < buffer.Length
        invariant socket.Valid() && Sent(socket.sent, before) && socket.calls >= old(socket.calls)
        decreases buffer.Length - written
      {
        var taken := socket.Write(buffer[written..]);
        match taken {
          case Err(Again) => return Unfinished;
          case Err(_) => return WriteFailed;
          case Ok(n) =>
            assert buffer[..written + n] == buffer[..written] + buffer[written..][..n];
            written := written + n;
        }
      }
      r := Written;
    }
  }

  /**
   * The whole write: header and payload exactly once, or a prefix of them while unfinished. As many
   * callbacks as interruptions are enough to write everything.
   */
  method WriteFrame(socket: Socket, payload: seq<byte>, callbacks: nat, ghost k: nat) returns (r: WriteOutcome)
    requires socket.Valid()
    modifies socket
    ensures socket.Valid()
    ensures r == TooBig <==> |payload| > MAX_RESPONSE_BYTES
    ensures r == TooBig ==> socket.sent == old(socket.sent)
    ensures r == Written ==> socket.sent == old(socket.sent) + Frame(payload)
    ensures r in {Unfinished, WriteFailed} ==>
              exists n :: 0 <= n < HEADER_BYTES + |payload| && socket.sent == old(socket.sent) + Frame(payload)[..n]
    ensures AtMost(socket.turns, old(socket.calls), k) && callbacks >= k && r != TooBig ==> r == Written
  {
    hide Header, AtMost;
    if |payload| > MAX_RESPONSE_BYTES { return TooBig; }
    ghost var before, sure := socket.sent, AtMost(socket.turns, socket.calls, k);
    ghost var budget: int := k;
    var write := new PendingWrite(payload);
    assert before + write.buffer[..0] == before;
    r := write.Continue(socket, before, k);
    budget := budget - 1;
    for n := 0 to callbacks
      invariant socket.Valid() && write.Sent(socket.sent, before) && write.buffer[..] == Frame(payload)
      invariant r == Written <==> write.written == write.buffer.Length
      invariant r in {Written, Unfinished, WriteFailed}
      invariant sure && r != Written ==> r == Unfinished && budget >= 0 && AtMost(socket.turns, socket.calls, budget) && budget + n < k
    {
      if r == Unfinished {
        r := write.Continue(socket, before, if budget >= 0 then budget else 0);
        budget := budget - 1;
      }
    }
    assert write.buffer[..write.written] == Frame(payload)[..write.written];
    assert Frame(payload)[..|Frame(payload)|] == Frame(payload);
  }

  /** A written response, received in any chunks, is delivered as exactly one frame holding the payload. */
  lemma ResponseDelivered(payload: seq<byte>, chunks: seq<seq<byte>>)
    requires |payload| <= MAX_RESPONSE_BYTES && Flatten(chunks) == Frame(payload)
    ensures Feed([], chunks, MAX_RESPONSE_BYTES) == Delivery([Frame(payload)], [], false)
    ensures Decode(Frame(payload), MAX_RESPONSE_BYTES) == Ok(payload)
  {
    hide Header, Length;
    DecodeIff(Frame(payload), payload, MAX_RESPONSE_BYTES);
    StreamRoundTrip([payload], MAX_RESPONSE_BYTES);
    assert Frames([payload]) == [Frame(payload)] + Frames([]) == [Frame(payload)];
    FlattenOne(Frame(payload));
    NothingParsed(MAX_RESPONSE_BYTES);
    assert [] + Flatten(chunks) == Frame(payload);
    FeedIsParse([], chunks, MAX_RESPONSE_BYTES);
  }

  /** A non-empty request encoded by the TypeScript side is the first frame of the stream it heads. */
  lemma RequestReadable(payload: seq<byte>, rest: seq<byte>)
    requires 0 < |payload| <= MAX_REQUEST_BYTES
    ensures var p := Parse(Frame(payload) + rest, MAX_REQUEST_BYTES);
            p.frames != [] && p.frames[0] == Frame(payload) != Frame([]) && Decode(p.frames[0], MAX_REQUEST_BYTES) == Ok(payload)
  {
    assert Frame(payload) <= Frame(payload) + rest;
    SameFirstFrame(Frame(payload) + rest, Frame(payload), payload);
  }
}

/**
 * The browser's input sender: a byte queue whose head may be partly consumed, a sliding window of
 * unacknowledged chunks, and the two timers that keep it moving.
 */
module InputSender {
  import opened Bytes
  import opened Utf16

  const INPUT_WINDOW_CHUNKS: nat := 16
  const INPUT_WINDOW_BYTES: nat := 64 * 1024
  const MAX_PENDING_BYTES: nat := 4 * 1024 * 1024
  const MAX_CHUNK_BYTES: nat := 12 * 1024
  const LEGACY_CHUNK_BYTES: nat := 3 * 1024
  const MAX_BUFFERED_BYTES: nat := 64 * 1024

  /** One `input` message. */
  datatype Frame = Frame(data: seq<byte>, id: Option<nat>)

  datatype Chunk = Chunk(id: nat, bytes: nat)

  /** What the `id` of an `input-ack` message turned out to be. */
  datatype AckId = NotANumber | Number(value: real)

  function Data(frames: seq<Frame>): seq<byte> {
    if frames == [] then [] else Data(frames[..|frames| - 1]) + frames[|frames| - 1].data
  }

  function TotalBytes(chunks: seq<Chunk>): nat {
    if chunks == [] then 0 else chunks[0].bytes + TotalBytes(chunks[1..])
  }

  /** The frames that carry an id are numbered 1, 2, .. n. */
  predicate Numbered(frames: seq<Frame>, n: nat) {
    if frames == [] then n == 0
    else
      var last := frames[|frames| - 1];
      var init := frames[..|frames| - 1];
      match last.id
      case None => Numbered(init, n)
      case Some(id) => id == n && n > 0 && Numbered(init, n - 1)
  }

  /** The sizes of the frames that carry an id, in order. */
  function Sizes(frames: seq<Frame>): seq<nat> {
    if frames == [] then []
    else
      var last := frames[|frames| - 1];
      Sizes(frames[..|frames| - 1]) + if last.id.Some? then [|last.data|] else []
  }

  lemma SizesSnoc(frames: seq<Frame>, f: Frame)
    ensures Sizes(frames + [f]) == Sizes(frames) + if f.id.Some? then [|f.data|] else []
  {
    assert (frames + [f])[..|frames|] == frames;
  }

  lemma DataSnoc(frames: seq<Frame>, f: Frame)
    ensures Data(frames + [f]) == Data(frames) + f.data
  {
    assert (frames + [f])[..|frames|] == frames;
  }

  lemma NumberedSnoc(frames: seq<Frame>, n: nat, f: Frame)
    requires Numbered(frames, n) && f.id == Some(n + 1)
    ensures Numbered(frames + [f], n + 1)
  {
    assert (frames + [f])[..|frames|] == frames;
  }

  lemma UnnumberedSnoc(frames: seq<Frame>, n: nat, f: Frame)
    requires Numbered(frames, n) && f.id == None
    ensures Numbered(frames + [f], n)
  {
    assert (frames + [f])[..|frames|] == frames;
  }

  lemma {:induction false} TotalBytesSnoc(chunks: seq<Chunk>, c: Chunk)
    ensures TotalBytes(chunks + [c]) == TotalBytes(chunks) + c.bytes
  {
    if chunks == [] {
      assert [c][1..] == [];
    } else {
      TotalBytesSnoc(chunks[1..], c);
      assert (chunks + [c])[1..] == chunks[1..] + [c];
    }
  }

  lemma Regroup(a: seq<byte>, b: seq<byte>, c: seq<byte>)
    ensures a + (b + c) == (a + b) + c
  {
  }

  lemma FlattenOfNone()
    ensures Flatten<byte>([]) == []
  {
  }

  /** The socket as the sender sees it; `frames` are the input messages put on the wire. */
  class Socket {
    var readyState: nat  // 1 is OPEN
    var bufferedAmount: nat
    var throws: bool
    ghost var frames: seq<Frame>

    constructor ()
      ensures readyState == 0 && frames == []
    {
      readyState, bufferedAmount, throws, frames := 0, 0, false, [];
    }

    method Send(f: Frame) returns (ok: bool)
      modifies this`bufferedAmount, this`frames
      ensures ok <==> !throws
      ensures frames == if ok then old(frames) + [f] else old(frames)
      ensures bufferedAmount == old(bufferedAmount) + if ok then |f.data| else 0
    {
      if throws { return false; }
      bufferedAmount := bufferedAmount + |f.data|;
      frames := frames + [f];
      ok := true;
    }
  }

  class InputSender {
    const socket: Socket
    var queue: seq<seq<byte>>
    var offset: nat
    var pendingBytes: nat
    var isConnected: bool
    var disposed: bool
    var supportsAck: bool
    var sequence: nat
    var inFlight: seq<Chunk>
    var inFlightBytes: nat
    var timer: bool  // the retry timer is armed (a disposed sender has none)
    var ackTimer: bool
    var overflows: nat  // calls of onOverflow
    ghost var accepted: seq<byte>  // the UTF-8 of everything enqueue accepted
    ghost var released: nat  // the last sequence number an ack timeout gave up on

    ghost function Pending(): seq<byte>
      reads `queue, `offset
      requires offset <= |Flatten(queue)|
    {
      Flatten(queue)[offset..]
    }

    /** The head is never fully consumed, and no queued chunk is empty. */
    ghost predicate QueueOk()
      reads `queue, `offset
    {
      && (forall i :: 0 <= i < |queue| ==> queue[i] != [])
      && (if queue == [] then offset == 0 else offset < |queue[0]|)
      && offset <= |Flatten(queue)|
    }

    /** What is on the wire and what is queued is exactly what was accepted. */
    ghost predicate StreamOk()
      reads `queue, `offset, `pendingBytes, `sequence, `accepted, socket`frames
    {
      && QueueOk() && pendingBytes == |Pending()|
      && Data(socket.frames) + Pending() == accepted
      && Numbered(socket.frames, sequence)
    }

    ghost predicate WindowOk()
      reads `inFlight, `inFlightBytes, `sequence, `released
    {
      && |inFlight| <= INPUT_WINDOW_CHUNKS && |inFlight| <= sequence
      && inFlightBytes == TotalBytes(inFlight) <= INPUT_WINDOW_BYTES
      && (forall i :: 0 <= i < |inFlight| ==> inFlight[i].id == sequence - |inFlight| + 1 + i)
      && (forall i :: 0 <= i < |inFlight| ==> 0 < inFlight[i].bytes <= MAX_CHUNK_BYTES)
      && released <= sequence - |inFlight|
    }

    /** What is in flight are the last numbered frames. */
    ghost predicate Carried()
      reads `inFlight, `sequence, socket`frames
    {
      && |Sizes(socket.frames)| == sequence && |inFlight| <= sequence
      && (forall i :: 0 <= i < |inFlight| ==> inFlight[i].bytes == Sizes(socket.frames)[sequence - |inFlight| + i])
    }

    predicate WindowFull()
      reads `inFlight, `inFlightBytes
    {
      |inFlight| >= INPUT_WINDOW_CHUNKS || inFlightBytes >= INPUT_WINDOW_BYTES
    }

    /** Queued bytes that could go out wait for an ack of a full window or for the retry timer. */
    ghost predicate NotWedged()
      reads this, socket
    {
      !disposed && isConnected && socket.readyState == 1 && queue != [] ==> timer || (supportsAck && WindowFull())
    }

    /** Everything but the timers. Input is held, up to a limit, until the gateway announced the shell. */
    ghost predicate Accounts()
      reads this, socket
    {
      && pendingBytes <= MAX_PENDING_BYTES
      && (if isConnected then socket.readyState != 0 else socket.frames == [])
      && (disposed ==> queue == [] && pendingBytes == 0 && inFlight == [] && inFlightBytes == 0
                       && Data(socket.frames) <= accepted)
      && (!disposed ==> StreamOk() && WindowOk() && Carried())
    }

    ghost predicate Valid()
      reads this, socket
    {
      && Accounts()
      && (ackTimer <==> !disposed && inFlight != [])
      && (timer ==> !disposed)
      && NotWedged()
    }

    constructor (socket: Socket)
      requires socket.readyState == 0 && socket.frames == []
      ensures Valid() && this.socket == socket && !disposed && !isConnected && accepted == [] && overflows == 0
    {
      this.socket := socket;
      queue, offset, pendingBytes, isConnected, disposed, supportsAck := [], 0, 0, false, false, false;
      sequence, inFlight, inFlightBytes, timer, ackTimer, overflows := 0, [], 0, false, false, 0;
      accepted, released := [], 0;
    }

    method Schedule()
      modifies this`timer
      ensures timer == (old(timer) || !disposed)
    {
      if !timer && !disposed { timer := true; }
    }

    method ArmAckTimer()
      modifies this`ackTimer
      ensures ackTimer == (inFlight != [])
    {
      ackTimer := false;
      if inFlight == [] { return; }
      ackTimer := true;
    }

    /** The first bytes of the head, at most `limit`; a head that is used up leaves the queue. */
    method TakePart(limit: nat) returns (part: seq<byte>)
      requires QueueOk() && queue != [] && limit > 0
      modifies this`queue, this`offset
      ensures QueueOk() && 0 < |part| <= limit && part + Pending() == old(Pending())
      ensures |queue| < |old(queue)| || (|queue| == |old(queue)| && |part| > 0)
    {
      ghost var before := Pending();
      var head := queue[0];
      part := head[offset..Min(|head|, offset + limit)];
      assert Flatten(queue) == head + Flatten(queue[1..]);
      offset := offset + |part|;
      if offset == |head| {
        queue := queue[1..];
        offset := 0;
      }
      assert Pending() == before[|part|..];
    }

    /** A chunk of at most `limit` bytes, small keystrokes together. The queue gives up exactly those bytes. */
    method TakeChunk(limit: nat) returns (chunk: seq<byte>)
      requires QueueOk()
      modifies this`queue, this`offset
      ensures QueueOk()
      ensures chunk == old(Pending())[..Min(limit, |old(Pending())|)]
      ensures Pending() == old(Pending())[|chunk|..]
    {
      var parts: seq<seq<byte>> := [];
      var size := 0;
      assert Flatten(parts) + Pending() == Pending();
      hide Flatten;
      while queue != [] && size < limit
        invariant QueueOk()
        invariant size == |Flatten(parts)| <= limit
        invariant Flatten(parts) + Pending() == old(Pending())
        decreases |queue|, limit - size
      {
        ghost var taken := Flatten(parts);
        var part := TakePart(limit - size);
        FlattenSnoc(parts, part);
        parts := parts + [part];
        size := size + |part|;
        Regroup(taken, part, Pending());
      }
      chunk := Join(parts);
    }

    /** `chunk` is the last frame on the wire; or the socket threw, nothing was added and the sender is over. */
    method Transmit(chunk: seq<byte>, id: Option<nat>) returns (ok: bool)
      requires !disposed && pendingBytes >= |chunk|
      modifies this, socket`bufferedAmount, socket`frames
      ensures ok <==> !socket.throws
      ensures ok ==> socket.frames == old(socket.frames) + [Frame(chunk, id)]
                     && pendingBytes == old(pendingBytes) - |chunk| && !disposed
      ensures ok ==> unchanged(this`queue, this`offset, this`isConnected, this`supportsAck, this`sequence, this`inFlight,
                               this`inFlightBytes, this`timer, this`ackTimer)
      ensures !ok ==> socket.frames == old(socket.frames) && disposed && Emptied()
      ensures unchanged(this`accepted, this`released, this`overflows, this`isConnected, this`supportsAck)
    {
      ok := socket.Send(Frame(chunk, id));
      if !ok {
        Dispose();
        return;
      }
      pendingBytes := pendingBytes - |chunk|;
    }

    ghost predicate Emptied()
      reads this
    {
      queue == [] && pendingBytes == 0 && inFlight == [] && inFlightBytes == 0 && !timer && !ackTimer
    }

    method Dispose()
      modifies this
      ensures disposed && Emptied()
      ensures unchanged(this`accepted, this`released, this`overflows, this`isConnected, this`supportsAck, this`sequence)
    {
      disposed := true;
      timer := false;
      ackTimer := false;
      queue := [];
      pendingBytes := 0;
      inFlight := [];
      inFlightBytes := 0;
    }

    /** What flushing, and everything that ends in a flush, never does. */
    twostate predicate OnlySends()
      reads this, socket
    {
      && accepted == old(accepted) && overflows == old(overflows) && released == old(released)
      && isConnected == old(isConnected) && supportsAck == old(supportsAck)
      && old(socket.frames) <= socket.frames
      && (old(disposed) ==> disposed && socket.frames == old(socket.frames))
      && (!disposed ==> old(sequence) <= sequence && old(inFlight) <= inFlight && LeftWindow(old(sequence), old(inFlight)))
      && (!disposed ==> old(Sizes(socket.frames)) <= Sizes(socket.frames))
    }

    /** As many chunks have left the window as when it held `window` after `number` chunks were sent. */
    predicate LeftWindow(number: nat, window: seq<Chunk>)
      reads `sequence, `inFlight
    {
      sequence - |inFlight| == number - |window|
    }

    ghost predicate TimersOk()
      reads this
    {
      (ackTimer <==> !disposed && inFlight != []) && (timer ==> !disposed)
    }

    /** The first queued bytes, at most `limit`, become the last frame; a numbered one gets the next id. */
    method SendNext(limit: nat, numbered: bool) returns (ok: bool, bytes: nat)
      requires Accounts() && TimersOk() && isConnected && !disposed && queue != [] && limit > 0
      modifies this, socket`bufferedAmount, socket`frames
      ensures accepted == old(accepted) && overflows == old(overflows) && released == old(released)
      ensures isConnected == old(isConnected) && supportsAck == old(supportsAck)
      ensures old(socket.frames) <= socket.frames
      ensures ok <==> !socket.throws
      ensures !ok ==> Accounts() && disposed && Emptied() && socket.frames == old(socket.frames)
      ensures ok ==> bytes == Min(limit, old(pendingBytes))
      ensures ok ==> socket.frames == old(socket.frames) + [Frame(old(Pending())[..bytes], if numbered then Some(old(sequence) + 1) else None)]
      ensures ok ==> !disposed && StreamOk()
      ensures ok ==> 0 < bytes <= limit && pendingBytes == old(pendingBytes) - bytes
      ensures ok ==> sequence == old(sequence) + (if numbered then 1 else 0)
      ensures ok ==> Sizes(socket.frames) == old(Sizes(socket.frames)) + if numbered then [bytes] else []
      ensures ok ==> unchanged(this`inFlight, this`inFlightBytes, this`timer, this`ackTimer)
    {
      hide Data, Numbered, Sizes, TotalBytes, Flatten;
      ghost var before := Pending();
      PendingNonEmpty();
      var chunk := TakeChunk(limit);
      assert before == chunk + Pending();
      assert Data(socket.frames) + before == (Data(socket.frames) + chunk) + Pending();
      assert Data(socket.frames) <= accepted;
      bytes := |chunk|;
      DataSnoc(socket.frames, Frame(chunk, if numbered then Some(sequence + 1) else None));
      if numbered {
        NumberedSnoc(socket.frames, sequence, Frame(chunk, Some(sequence + 1)));
        SizesSnoc(socket.frames, Frame(chunk, Some(sequence + 1)));
        sequence := sequence + 1;
        ok := Transmit(chunk, Some(sequence));
      } else {
        UnnumberedSnoc(socket.frames, sequence, Frame(chunk, None));
        SizesSnoc(socket.frames, Frame(chunk, None));
        ok := Transmit(chunk, None);
      }
    }

    lemma PendingNonEmpty()
      requires QueueOk() && queue != []
      ensures Pending() != []
    {
    }

    /** How much of what is pending goes out next: a chunk, unless the window has less room or less is pending. */
    predicate NextChunk(bytes: nat)
      reads `pendingBytes, `inFlightBytes
    {
      && bytes <= pendingBytes && bytes <= MAX_CHUNK_BYTES && inFlightBytes + bytes <= INPUT_WINDOW_BYTES
      && (bytes == pendingBytes || bytes == MAX_CHUNK_BYTES || inFlightBytes + bytes == INPUT_WINDOW_BYTES)
    }

    /** One more chunk goes out while the window has room: as much as fits. */
    method SendInWindow() returns (ok: bool, ghost bytes: nat)
      requires Accounts() && TimersOk() && isConnected && !disposed && queue != [] && !WindowFull()
      modifies this, socket`bufferedAmount, socket`frames
      ensures Accounts() && TimersOk() && OnlySends() && (ok <==> !disposed) && (ok <==> !socket.throws)
      ensures ok ==> bytes > 0 && old(NextChunk(bytes)) && pendingBytes == old(pendingBytes) - bytes && timer == old(timer)
      ensures ok ==> inFlight == old(inFlight) + [Chunk(old(sequence) + 1, bytes)] && inFlightBytes == old(inFlightBytes) + bytes
      ensures ok ==> old(bytes <= |Pending()|)
                     && socket.frames == old(socket.frames) + [Frame(old(Pending())[..bytes], Some(old(sequence) + 1))]
      ensures ok ==> (queue == [] <==> pendingBytes == 0)
      ensures !ok ==> socket.frames == old(socket.frames)
    {
      hide StreamOk, TotalBytes, Sizes;
      PendingCounts();
      var size;
      ok, size := SendNext(Min(MAX_CHUNK_BYTES, INPUT_WINDOW_BYTES - inFlightBytes), true);
      bytes := size;
      if !ok { return; }
      PendingCounts();
      TotalBytesSnoc(inFlight, Chunk(sequence, size));
      inFlight := inFlight + [Chunk(sequence, size)];
      inFlightBytes := inFlightBytes + size;
      if |inFlight| == 1 { ArmAckTimer(); }
    }

    /** Nothing but the window and the socket's own queue holds queued input back. */
    ghost predicate Flushed()
      reads this, socket
    {
      !disposed && isConnected && socket.readyState == 1 && supportsAck && queue != [] ==>
        WindowFull() || socket.bufferedAmount > 64 * 1024
    }

    /** The socket takes what is queued now. */
    ghost predicate Idle()
      reads this, socket
    {
      !disposed && isConnected && socket.readyState == 1 && socket.bufferedAmount <= 64 * 1024 && !socket.throws
    }

    /** All that is pending fits the next frame. */
    ghost predicate FitsOneFrame()
      reads this
    {
      |inFlight| < 16 && 0 < pendingBytes <= 12 * 1024 && inFlightBytes + pendingBytes <= 64 * 1024
    }

    /** The retry timer is armed only by a socket that is backed up, or by a legacy frame that left bytes behind. */
    twostate predicate ArmedForAReason()
      reads this, socket
    {
      timer && !old(timer) ==>
        || socket.bufferedAmount > 64 * 1024
        || (!supportsAck && queue != [] && |socket.frames| == |old(socket.frames)| + 1)
    }

    /** Without acknowledgements: one chunk of at most 3 KiB now, the next when the retry timer fires. */
    method FlushLegacy()
      requires Accounts() && TimersOk() && isConnected && !disposed && queue != [] && !supportsAck
      modifies this, socket`bufferedAmount, socket`frames
      ensures Valid() && OnlySends() && ArmedForAReason()
      ensures old(timer) || old(socket.bufferedAmount) > MAX_BUFFERED_BYTES ==> socket.frames == old(socket.frames) && timer
      ensures !old(timer) && old(socket.bufferedAmount) <= MAX_BUFFERED_BYTES ==>
                if socket.throws then disposed
                else
                  && socket.frames == old(socket.frames) + [Frame(old(Pending())[..Min(LEGACY_CHUNK_BYTES, old(pendingBytes))], None)]
                  && !disposed && (timer <==> queue != [])
    {
      hide StreamOk, TotalBytes, Sizes;
      assert pendingBytes == |Pending()| by { PendingCounts(); }
      if timer { return; }
      if socket.bufferedAmount > MAX_BUFFERED_BYTES { Schedule(); return; }
      var ok, _ := SendNext(LEGACY_CHUNK_BYTES, false);
      if !ok { return; }
      if queue != [] { Schedule(); }
    }

    lemma PendingCounts()
      requires StreamOk()
      ensures QueueOk() && pendingBytes == |Pending()| && (queue == [] <==> pendingBytes == 0)
    {
    }

    /** With acknowledgements: full chunks while the window has room and the socket keeps up. */
    method FlushWindow()
      requires Accounts() && TimersOk() && isConnected && !disposed && socket.readyState == 1 && queue != [] && supportsAck
      modifies this, socket`bufferedAmount, socket`frames
      ensures Valid() && OnlySends() && Flushed() && ArmedForAReason()
      ensures old(socket.bufferedAmount) > MAX_BUFFERED_BYTES ==> socket.frames == old(socket.frames) && !disposed
      ensures disposed ==> socket.throws
      ensures old(Idle() && FitsOneFrame()) ==>
                queue == [] && old(QueueOk()) && socket.frames == old(socket.frames) + [Frame(old(Pending()), Some(old(sequence) + 1))]
      ensures !disposed ==> FilledChunks(|old(inFlight)|)
    {
      hide StreamOk, WindowOk, Carried, Sizes;
      PendingCounts();
      ghost var before := Pending();
      assert before[..|before|] == before;
      while queue != [] && |inFlight| < INPUT_WINDOW_CHUNKS && inFlightBytes < INPUT_WINDOW_BYTES
        invariant Accounts() && TimersOk() && isConnected && !disposed && OnlySends()
        invariant FilledChunks(|old(inFlight)|) && timer == old(timer)
        invariant socket.frames == old(socket.frames) ==> unchanged(this) && unchanged(socket)
        invariant socket.frames != old(socket.frames) ==> old(socket.bufferedAmount) <= MAX_BUFFERED_BYTES
        invariant socket.frames != old(socket.frames) && old(FitsOneFrame()) ==>
                    queue == [] && socket.frames == old(socket.frames) + [Frame(before, Some(old(sequence) + 1))]
        decreases pendingBytes
      {
        if socket.bufferedAmount > MAX_BUFFERED_BYTES { Schedule(); return; }
        var ok, _ := SendInWindow();
        if !ok { return; }
      }
    }

    method Flush()
      requires Accounts() && TimersOk()
      modifies this, socket`bufferedAmount, socket`frames
      ensures Valid() && OnlySends() && Flushed() && ArmedForAReason()
      ensures old(disposed || !isConnected || socket.readyState != 1 || queue == []) ==> unchanged(this) && unchanged(socket)
      ensures old(socket.bufferedAmount) > MAX_BUFFERED_BYTES ==> socket.frames == old(socket.frames) && disposed == old(disposed)
      ensures disposed && !old(disposed) ==> socket.throws
      ensures supportsAck && old(Idle() && queue != [] && FitsOneFrame()) ==>
                queue == [] && old(QueueOk()) && socket.frames == old(socket.frames) + [Frame(old(Pending()), Some(old(sequence) + 1))]
      ensures supportsAck && !disposed ==> FilledChunks(|old(inFlight)|)
      ensures !supportsAck && old(Idle() && !timer && queue != []) ==>
                && old(QueueOk()) && (timer <==> queue != [])
                && socket.frames == old(socket.frames) + [Frame(old(Pending())[..Min(LEGACY_CHUNK_BYTES, |old(Pending())|)], None)]
    {
      hide StreamOk, WindowOk, Carried, Sizes;
      if !disposed { PendingCounts(); }
      if disposed || !isConnected || socket.readyState != 1 || queue == [] { return; }
      if !supportsAck {
        FlushLegacy();
        return;
      }
      FlushWindow();
    }

    /** Every chunk from the `from`th on is full, but a last one that ends the queue or fills the window. */
    ghost predicate FilledChunks(from: nat)
      reads this
    {
      forall i :: from <= i < |inFlight| && inFlight[i].bytes != MAX_CHUNK_BYTES ==>
        i == |inFlight| - 1 && (queue == [] || inFlightBytes >= INPUT_WINDOW_BYTES)
    }

    method PushBytes(bytes: seq<byte>)
      requires Accounts() && TimersOk() && !disposed && bytes != [] && pendingBytes + |bytes| <= MAX_PENDING_BYTES
      modifies this`queue, this`pendingBytes, this`accepted
      ensures Accounts() && TimersOk() && accepted == old(accepted) + bytes && pendingBytes == old(pendingBytes) + |bytes|
      ensures queue != [] && old(QueueOk()) && QueueOk() && Pending() == old(Pending()) + bytes
    {
      hide Data, Numbered, Sizes, TotalBytes, Flatten, WindowOk, Carried;
      FlattenSnoc(queue, bytes);
      ghost var before := Pending();
      assert queue != [] ==> (queue + [bytes])[0] == queue[0];
      if queue == [] { FlattenOfNone(); }
      queue := queue + [bytes];
      assert Pending() == before + bytes;
      assert (Data(socket.frames) + before) + bytes == Data(socket.frames) + Pending();
      accepted := accepted + bytes;
      pendingBytes := pendingBytes + |bytes|;
    }

    /** Accepted as a whole or not at all: only a live sender with room for all of it takes the text. */
    method Enqueue(text: seq<unit>) returns (ok: bool)
      requires Valid()
      modifies this, socket`bufferedAmount, socket`frames
      ensures Valid()
      ensures ok <==> !old(disposed) && text != [] && old(pendingBytes) + |Encode(text)| <= 4 * 1024 * 1024
      ensures accepted == old(accepted) + if ok then Encode(text) else []
      ensures !ok ==> socket.frames == old(socket.frames)
                      && unchanged(this`queue, this`offset, this`pendingBytes, this`inFlight, this`disposed)
      ensures ok ==> Flushed() && ArmedForAReason()
      ensures ok && supportsAck && old(Idle() && queue == []) && old(|inFlight|) < 16
              && |Encode(text)| <= 12 * 1024 && old(inFlightBytes) + |Encode(text)| <= 64 * 1024 ==>
                socket.frames == old(socket.frames) + [Frame(Encode(text), Some(old(sequence) + 1))]
      ensures overflows == old(overflows) + if !ok && !old(disposed) && text != [] then 1 else 0
      ensures old(socket.frames) <= socket.frames
      ensures old(disposed) ==> socket.frames == old(socket.frames)
      ensures !disposed ==> LeftWindow(old(sequence), old(inFlight)) && old(Sizes(socket.frames)) <= Sizes(socket.frames)
    {
      hide Data, Numbered, Sizes, TotalBytes, Encode;
      EncodeIsNotShorter(text);
      if disposed || text == [] { return false; }
      if |text| > MAX_PENDING_BYTES { overflows := overflows + 1; return false; }
      var bytes := Encode(text);
      if pendingBytes + |bytes| > MAX_PENDING_BYTES { overflows := overflows + 1; return false; }
      hide StreamOk, WindowOk, Carried;
      PushBytes(bytes);
      Flush();
      ok := true;
    }

    /** From here on frames may go out, numbered if the gateway acknowledges input. */
    method Connected(ackSupported: bool)
      requires Valid() && socket.readyState != 0
      modifies this, socket`bufferedAmount, socket`frames
      ensures Valid() && Flushed() && ArmedForAReason() && isConnected && supportsAck == ackSupported
      ensures accepted == old(accepted) && old(socket.frames) <= socket.frames
      ensures old(disposed) ==> disposed && socket.frames == old(socket.frames)
      ensures !disposed ==> LeftWindow(old(sequence), old(inFlight)) && old(Sizes(socket.frames)) <= Sizes(socket.frames)
    {
      hide Sizes;
      isConnected := true;
      supportsAck := ackSupported;
      Flush();
    }

    /** The oldest chunk leaves the window. */
    method ReleaseFirst()
      requires WindowOk() && Carried() && inFlight != []
      modifies this`inFlight, this`inFlightBytes
      ensures WindowOk() && Carried() && inFlight == old(inFlight)[1..]
    {
      inFlightBytes := inFlightBytes - inFlight[0].bytes;
      inFlight := inFlight[1..];
    }

    /** The first `k` chunks of the window are acknowledged. */
    ghost predicate Acked(chunks: seq<Chunk>, id: real, k: nat) {
      && k <= |chunks|
      && (forall i :: 0 <= i < k ==> chunks[i].id as real <= id)
      && (forall i :: k <= i < |chunks| ==> chunks[i].id as real > id)
    }

    /**
     * The window loses exactly the chunks whose ids do not exceed `id`, and fills up again. An id at or
     * below `released` changes nothing.
     */
    method Acknowledge(id: AckId) returns (ghost k: nat)
      requires Valid()
      modifies this, socket`bufferedAmount, socket`frames
      ensures Valid() && accepted == old(accepted) && old(socket.frames) <= socket.frames
      ensures id.Number? ==> Acked(old(inFlight), id.value, k)
      ensures id.Number? && !disposed ==> old(inFlight)[k..] <= inFlight
      ensures id == NotANumber || k == 0 ==> k == 0 && unchanged(this) && socket.frames == old(socket.frames)
      ensures k > 0 ==> Flushed() && ArmedForAReason()
      ensures id.Number? && id.value <= old(released) as real ==> k == 0
      ensures !disposed ==> k <= |old(inFlight)| && LeftWindow(old(sequence), old(inFlight)[k..])
      ensures !disposed ==> old(Sizes(socket.frames)) <= Sizes(socket.frames)
    {
      hide StreamOk, Sizes, Carried;
      k := 0;
      if id == NotANumber || inFlight == [] || id.value < inFlight[0].id as real { return; }
      ghost var window := inFlight;
      while inFlight != [] && inFlight[0].id as real <= id.value
        invariant k <= |window| && inFlight == window[k..]
        invariant forall i :: 0 <= i < k ==> window[i].id as real <= id.value
        invariant !disposed && StreamOk() && WindowOk() && Carried() && unchanged(socket)
        invariant unchanged(this`queue, this`offset, this`pendingBytes, this`isConnected, this`disposed, this`supportsAck, this`sequence,
                            this`timer, this`accepted, this`released, this`overflows)
        invariant k == 0 ==> inFlight != [] && inFlight[0].id as real <= id.value
        decreases |inFlight|
      {
        ReleaseFirst();
        k := k + 1;
      }
      ArmAckTimer();
      Flush();
    }

    /** The window is emptied and fills up with later chunks; no frame is sent twice (StreamOk). */
    method AckTimeout()
      requires Valid() && ackTimer
      modifies this, socket`bufferedAmount, socket`frames
      ensures Valid() && accepted == old(accepted) && old(socket.frames) <= socket.frames
      ensures released == old(sequence) && Flushed() && ArmedForAReason()
      ensures !disposed ==> LeftWindow(old(sequence), []) && old(Sizes(socket.frames)) <= Sizes(socket.frames)
    {
      hide Sizes;
      ackTimer := false;
      inFlight := [];
      inFlightBytes := 0;
      released := sequence;
      Flush();
    }

    method RetryTimeout()
      requires Valid() && timer
      modifies this, socket`bufferedAmount, socket`frames
      ensures Valid() && OnlySends() && Flushed()
      ensures timer ==> socket.bufferedAmount > 64 * 1024 || (!supportsAck && queue != [] && |socket.frames| == |old(socket.frames)| + 1)
      ensures !supportsAck && old(Idle() && queue != []) ==>
                old(QueueOk()) && socket.frames == old(socket.frames) + [Frame(old(Pending())[..Min(3 * 1024, |old(Pending())|)], None)]
    {
      timer := false;
      Flush();
    }

    // What the network does to the socket; the sender's invariant survives it.

    method SocketOpens()
      requires Valid() && socket.readyState == 0
      modifies socket`readyState
      ensures Valid() && socket.readyState == 1
    {
      hide StreamOk, WindowOk, Carried;
      socket.readyState := 1;
    }

    method SocketLeavesOpen(state: nat)
      requires Valid() && state > 1
      modifies socket`readyState
      ensures Valid() && socket.readyState == state
    {
      hide StreamOk, WindowOk, Carried;
      socket.readyState := state;
    }

    method NetworkDrains(bufferedAmount: nat, throws: bool)
      requires Valid()
      modifies socket`bufferedAmount, socket`throws
      ensures Valid()
    {
      hide StreamOk, WindowOk, Carried;
      socket.bufferedAmount := bufferedAmount;
      socket.throws := throws;
    }
  }

  /** The parts copied one after another into one array; a single part is used as it is. */
  method Join(parts: seq<seq<byte>>) returns (chunk: seq<byte>)
    ensures chunk == Flatten(parts)
  {
    if |parts| == 1 {
      FlattenSnoc([], parts[0]);
      assert parts == [] + [parts[0]];
      return parts[0];
    }
    chunk := [];
    for i := 0 to |parts|
      invariant chunk == Flatten(parts[..i])
    {
      FlattenSnoc(parts[..i], parts[i]);
      assert parts[..i + 1] == parts[..i] + [parts[i]];
      chunk := chunk + parts[i];
    }
    assert parts[..|parts|] == parts;
  }
}

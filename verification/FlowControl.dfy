/**
 * End-to-end output flow control: the gateway counts what it sent and the browser acknowledges, in
 * batches, what its terminal rendered; past a megabyte outstanding the shell is paused.
 */
module FlowControl {
  import opened Bytes

  const PAUSE_QUEUED_BYTES: nat := 1024 * 1024
  const RESUME_QUEUED_BYTES: nat := 256 * 1024
  const OUTPUT_ACK_FLUSH_BYTES: nat := 32 * 1024

  /** The gateway's side: `unacked` counts only what was sent after the first ack arrived. */
  datatype Meter = Meter(enabled: bool, unacked: nat, paused: bool)

  /** `backlog`: the socket's own send queue is over PAUSE_QUEUED_BYTES. */
  function Sent(m: Meter, bytes: nat, backlog: bool): Meter {
    var unacked := if m.enabled then m.unacked + bytes else m.unacked;
    m.(unacked := unacked, paused := m.paused || backlog || (m.enabled && unacked > PAUSE_QUEUED_BYTES))
  }

  function AckReceived(m: Meter, bytes: nat): Meter {
    m.(enabled := true, unacked := Max(0, m.unacked - bytes))
  }

  /** The drain timer: `low` says the socket's queue drained, `stalled` that no ack came for too long. */
  function DrainTick(m: Meter, low: bool, stalled: bool): Meter {
    if !m.paused || !low then m
    else if m.enabled && m.unacked >= RESUME_QUEUED_BYTES then
      if stalled then m.(unacked := 0, paused := false) else m
    else m.(paused := false)
  }

  /** `stopped`: the connection was dropped or ended; it sends and handles nothing any more. */
  class OutputMeter {
    var outputAckEnabled: bool
    var unackedOutputBytes: nat
    var paused: bool
    var stopped: bool

    function View(): Meter
      reads this
    {
      Meter(outputAckEnabled, unackedOutputBytes, paused)
    }

    constructor ()
      ensures View() == Meter(false, 0, false) && !stopped
    {
      outputAckEnabled, unackedOutputBytes, paused, stopped := false, 0, false, false;
    }

    /** Output that does not fit the send queues of an open socket drops the connection, and is not counted. */
    method SendOutput(bytes: nat, open: bool, fits: bool, backlog: bool) returns (sent: bool)
      modifies this
      ensures sent <==> !old(stopped) && open && fits
      ensures stopped <==> old(stopped) || (open && !fits)
      ensures View() == if sent then Sent(old(View()), bytes, backlog) else old(View())
      ensures unackedOutputBytes == old(unackedOutputBytes) + if sent && outputAckEnabled then bytes else 0
      ensures sent ==> (paused <==> old(paused) || backlog || (outputAckEnabled && unackedOutputBytes > PAUSE_QUEUED_BYTES))
    {
      if stopped || !open { return false; }
      if !fits { stopped := true; return false; }
      if outputAckEnabled { unackedOutputBytes := unackedOutputBytes + bytes; }
      if backlog || (outputAckEnabled && unackedOutputBytes > PAUSE_QUEUED_BYTES) { paused := true; }
      sent := true;
    }

    method OnOutputAck(bytes: nat)
      modifies this
      ensures stopped == old(stopped) && View() == if stopped then old(View()) else AckReceived(old(View()), bytes)
      ensures paused == old(paused) && (!stopped ==> outputAckEnabled)
      ensures !stopped ==> unackedOutputBytes == if bytes <= old(unackedOutputBytes) then old(unackedOutputBytes) - bytes else 0
    {
      if stopped { return; }
      outputAckEnabled := true;
      unackedOutputBytes := Max(0, unackedOutputBytes - bytes);
    }

    method OnDrainTick(low: bool, stalled: bool)
      modifies this
      ensures stopped == old(stopped) && View() == if stopped then old(View()) else DrainTick(old(View()), low, stalled)
      ensures outputAckEnabled == old(outputAckEnabled)
      ensures old(paused) && !stopped ==>
                (paused <==> !low || (!stalled && outputAckEnabled && old(unackedOutputBytes) >= RESUME_QUEUED_BYTES))
      ensures !old(paused) ==> !paused
      ensures unackedOutputBytes ==
                if old(paused) && !stopped && low && stalled && outputAckEnabled && old(unackedOutputBytes) >= RESUME_QUEUED_BYTES then 0
                else old(unackedOutputBytes)
    {
      if !paused || stopped || !low { return; }
      if outputAckEnabled && unackedOutputBytes >= RESUME_QUEUED_BYTES {
        if !stalled { return; }
        unackedOutputBytes := 0;
      }
      paused := false;
    }
  }

  /** The browser's side: rendered bytes not acknowledged yet, and the flush timer. */
  datatype Acker = Acker(pending: nat, timer: bool)

  /** Acknowledging rendered bytes; the result's second part is the ack sent, if one is. `open`: the socket still is. */
  function Rendered(a: Acker, bytes: nat, open: bool): (Acker, Option<nat>) {
    var pending := a.pending + bytes;
    if pending < OUTPUT_ACK_FLUSH_BYTES then (Acker(pending, true), None)
    else (Acker(0, false), if open then Some(pending) else None)
  }

  class OutputAcker {
    var pendingOutputAck: nat
    var outputAckTimer: bool

    function View(): Acker
      reads this
    {
      Acker(pendingOutputAck, outputAckTimer)
    }

    constructor ()
      ensures View() == Acker(0, false)
    {
      pendingOutputAck, outputAckTimer := 0, false;
    }

    /** Nothing is acknowledged twice: what is pending goes out once, or is dropped with the socket. */
    method FlushOutputAck(open: bool) returns (ack: Option<nat>)
      modifies this
      ensures ack == (if open then Some(old(pendingOutputAck)) else None) && View() == Acker(0, false)
    {
      outputAckTimer := false;
      ack := if open then Some(pendingOutputAck) else None;
      pendingOutputAck := 0;
    }

    method AcknowledgeOutput(bytes: nat, open: bool) returns (ack: Option<nat>)
      modifies this
      ensures (View(), ack) == Rendered(old(View()), bytes, open)
      ensures ack.Some? <==> open && old(pendingOutputAck) + bytes >= OUTPUT_ACK_FLUSH_BYTES
      ensures ack.Some? ==> ack.value == old(pendingOutputAck) + bytes
      ensures pendingOutputAck < OUTPUT_ACK_FLUSH_BYTES && (pendingOutputAck > 0 ==> outputAckTimer)
      ensures ack.None? && open ==> pendingOutputAck == old(pendingOutputAck) + bytes
    {
      pendingOutputAck := pendingOutputAck + bytes;
      ack := None;
      if pendingOutputAck >= OUTPUT_ACK_FLUSH_BYTES {
        ack := FlushOutputAck(open);
      } else {
        outputAckTimer := true;
      }
    }
  }

  /**
   * Both sides, the chunks and acks on the wire, and the chunks the terminal has not rendered.
   * `before`: bytes sent before the first ack arrived. `forgiven`: bytes a stall wrote off.
   * `slipped`: bytes sent since the shell was last paused, on standard error or read before.
   * `largest`: the largest chunk sent while acks are counted and the shell is not paused.
   */
  datatype Flow = Flow(
    meter: Meter, down: seq<nat>, unrendered: seq<nat>, acker: Acker, up: seq<nat>,
    before: nat, forgiven: nat, slipped: nat, largest: nat)

  datatype Event =
    | Prints(bytes: nat, backlog: bool)
    | ChunkArrives
    | TerminalRenders
    | AckTimerFires
    | AckArrives
    | Drain(low: bool, stalled: bool)

  /** A connection just announced, its replay (if any) on the wire followed by the browser's first, empty, ack. */
  function Attached(replay: nat): Flow {
    Flow(Meter(false, 0, false), if replay > 0 then [replay] else [], [], Acker(0, false), [0], replay, 0, 0, 0)
  }

  /** Pausing stops the shell's standard output, but not everything it prints. */
  function Step(f: Flow, e: Event): Flow {
    match e
    case Prints(bytes, backlog) =>
      f.(meter := Sent(f.meter, bytes, backlog), down := f.down + [bytes],
         before := if f.meter.enabled then f.before else f.before + bytes,
         slipped := if f.meter.enabled && f.meter.paused then f.slipped + bytes else f.slipped,
         largest := if f.meter.enabled && !f.meter.paused then Max(f.largest, bytes) else f.largest)
    case ChunkArrives => if f.down == [] then f else f.(down := f.down[1..], unrendered := f.unrendered + [f.down[0]])
    case TerminalRenders =>
      if f.unrendered == [] then f else
      var (acker, ack) := Rendered(f.acker, f.unrendered[0], true);
      f.(unrendered := f.unrendered[1..], acker := acker, up := if ack.Some? then f.up + [ack.value] else f.up)
    case AckTimerFires => if f.acker.timer then f.(acker := Acker(0, false), up := f.up + [f.acker.pending]) else f
    case AckArrives => if f.up == [] then f else f.(up := f.up[1..], meter := AckReceived(f.meter, f.up[0]))
    case Drain(low, stalled) =>
      var meter := DrainTick(f.meter, low, stalled);
      f.(meter := meter, forgiven := f.forgiven + (f.meter.unacked - meter.unacked),
         slipped := if meter.paused then f.slipped else 0)
  }

  function Run(f: Flow, es: seq<Event>): Flow
    decreases |es|
  {
    if es == [] then f else Run(Step(f, es[0]), es[1..])
  }

  /** Sent by the gateway, not acknowledged to it. */
  function Outstanding(f: Flow): nat {
    Sum(f.down) + Sum(f.unrendered) + f.acker.pending + Sum(f.up)
  }

  /** Sent by the gateway, not rendered by the terminal. */
  function Unrendered(f: Flow): nat {
    Sum(f.down) + Sum(f.unrendered)
  }

  ghost predicate Metered(f: Flow) {
    && f.meter.unacked <= Outstanding(f) <= f.meter.unacked + f.before + f.forgiven
    && f.meter.unacked <= PAUSE_QUEUED_BYTES + f.largest + f.slipped
    && (!f.meter.paused ==> f.slipped == 0)
    && (f.meter.unacked > PAUSE_QUEUED_BYTES ==> f.meter.paused)
    && (!f.meter.enabled ==> f.meter.unacked == 0)
    && (f.acker.pending > 0 ==> f.acker.timer)
  }

  lemma SumHead(s: seq<nat>)
    requires s != []
    ensures Sum(s) == s[0] + Sum(s[1..])
  {
  }

  lemma StepMetered(f: Flow, e: Event)
    requires Metered(f)
    ensures Metered(Step(f, e))
  {
    hide Sum;
    match e {
      case Prints(bytes, _) => SumSnoc(f.down, bytes);
      case ChunkArrives => if f.down != [] { SumHead(f.down); SumSnoc(f.unrendered, f.down[0]); }
      case TerminalRenders =>
        if f.unrendered != [] {
          SumHead(f.unrendered);
          SumSnoc(f.up, f.acker.pending + f.unrendered[0]);
        }
      case AckTimerFires => SumSnoc(f.up, f.acker.pending);
      case AckArrives => if f.up != [] { SumHead(f.up); }
      case Drain(_, _) =>
    }
  }

  lemma {:induction false} RunMetered(f: Flow, es: seq<Event>)
    requires Metered(f)
    ensures Metered(Run(f, es))
    decreases |es|
  {
    hide Metered, Step;
    if es != [] {
      StepMetered(f, es[0]);
      RunMetered(Step(f, es[0]), es[1..]);
    }
  }

  lemma AttachedMetered(replay: nat)
    ensures Metered(Attached(replay))
  {
    assert Sum([replay]) == replay + Sum([replay][1..]);
    assert Sum([0]) == 0 + Sum([0][1..]);
  }

  /**
   * In every run the gateway's counter never exceeds what is outstanding, and falls short of it by at
   * most what was sent before the first ack and what stalls wrote off. So the bytes the browser has
   * not rendered never exceed a megabyte, one chunk, those two amounts, and what slipped through since
   * the shell was paused.
   */
  lemma UnrenderedIsBounded(replay: nat, es: seq<Event>)
    ensures var f := Run(Attached(replay), es);
            && f.meter.unacked <= Outstanding(f) <= f.meter.unacked + f.before + f.forgiven
            && f.meter.unacked <= PAUSE_QUEUED_BYTES + f.largest + f.slipped
            && Unrendered(f) <= PAUSE_QUEUED_BYTES + f.largest + f.before + f.forgiven + f.slipped
  {
    AttachedMetered(replay);
    RunMetered(Attached(replay), es);
  }

  // ---- When a shell is paused, and when it goes on ----

  /** A tick leaves the connection as it is unless the socket's queue drained. */
  lemma UndrainedTickDoesNothing(f: Flow, stalled: bool)
    ensures Step(f, Drain(false, stalled)) == f.(slipped := if f.meter.paused then f.slipped else 0)
  {
  }

  /** A browser that stopped acknowledging wedges no shell: a stall writes off what is counted against it, and resumes. */
  lemma StallReleases(f: Flow)
    ensures var g := Step(f, Drain(true, true));
            && !g.meter.paused && g.down == f.down && g.unrendered == f.unrendered && g.up == f.up
            && (f.meter.paused && f.meter.enabled && f.meter.unacked >= 256 * 1024 ==>
                  g.meter.unacked == 0 && g.forgiven == f.forgiven + f.meter.unacked)
            && (!(f.meter.paused && f.meter.enabled && f.meter.unacked >= 256 * 1024) ==>
                  g.meter.unacked == f.meter.unacked && g.forgiven == f.forgiven)
  {
  }

  /** Without a stall a paused shell goes on exactly when the queue drained and little is unacknowledged; nothing is written off. */
  lemma TickResumesIff(f: Flow, low: bool)
    requires f.meter.paused
    ensures var g := Step(f, Drain(low, false));
            && (!g.meter.paused <==> low && (!f.meter.enabled || f.meter.unacked < 256 * 1024))
            && g.meter.unacked == f.meter.unacked && g.forgiven == f.forgiven
  {
  }

  /** Output pauses a running shell exactly when the socket's queue is long or more than a megabyte is unacknowledged. */
  lemma PrintPausesIff(f: Flow, bytes: nat, backlog: bool)
    ensures var g := Step(f, Prints(bytes, backlog));
            && (g.meter.paused <==> f.meter.paused || backlog || (f.meter.enabled && f.meter.unacked + bytes > 1024 * 1024))
            && g.down == f.down + [bytes]
            && Sum(g.down) == Sum(f.down) + bytes
  {
    SumSnoc(f.down, bytes);
  }

  // ---- A paused shell can always go on ----

  /** Chunks and acks moving on; neither the shell nor the stall timer. */
  predicate MovesOn(e: Event) {
    e.ChunkArrives? || e.TerminalRenders? || e.AckTimerFires? || e.AckArrives?
  }

  function Distance(f: Flow): nat {
    4 * |f.down| + 3 * |f.unrendered| + (if f.acker.timer then 2 else 0) + |f.up|
  }

  function NextMove(f: Flow): Event {
    if f.down != [] then ChunkArrives
    else if f.unrendered != [] then TerminalRenders
    else if f.acker.timer then AckTimerFires
    else AckArrives
  }

  lemma NextMoveIsCloser(f: Flow)
    requires Metered(f) && Distance(f) > 0
    ensures Distance(Step(f, NextMove(f))) < Distance(f)
    ensures Step(f, NextMove(f)).meter.paused == f.meter.paused
  {
  }

  /**
   * From every metered state there is a way on without the stall timer: once what is on its way has
   * arrived and been acknowledged, the counter is zero and the next drain tick resumes the shell.
   */
  lemma {:induction false} PausedShellResumes(f: Flow) returns (es: seq<Event>)
    requires Metered(f)
    ensures forall i :: 0 <= i < |es| ==> MovesOn(es[i])
    ensures Run(f, es).meter.unacked == 0 && !Step(Run(f, es), Drain(true, false)).meter.paused
    decreases Distance(f)
  {
    if Distance(f) == 0 {
      es := [];
    } else {
      var e := NextMove(f);
      NextMoveIsCloser(f);
      StepMetered(f, e);
      var rest := PausedShellResumes(Step(f, e));
      es := [e] + rest;
      assert es[1..] == rest;
    }
  }
}

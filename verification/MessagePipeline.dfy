/**
 * How the gateway handles what a browser sends: the early-message buffer, the shared asynchronous
 * authorization, and the callbacks that write to the shell and size its PTY, in the order in which
 * promise reactions run.
 */
module MessagePipeline {
  import opened Bytes

  const EARLY_MESSAGE_BUFFER: nat := 16

  datatype Size = Size(rows: nat, cols: nat)

  /** `Other` is a ping or an output-ack; `Invalid` is anything the gateway refuses. */
  datatype Message = Input(data: seq<byte>) | Resize(size: Size) | End | Other | Invalid

  /**
   * `Early`: only the buffer listens. `Awaiting`: both listeners are in place and the first
   * authorization is awaited. `Live`: the shell is attached and the buffer was handed over.
   */
  datatype Phase = Early | Awaiting | Live

  datatype Verdict = Allowed | Refused | Unavailable

  /** A reaction queued on a settled authorization. */
  datatype Callback = Callback(message: Message, allowed: bool)

  /** `requested`: the window the shell was requested with, once it was; `pty`: the size it has. */
  datatype Pipe = Pipe(
    phase: Phase, early: seq<Message>, checking: bool, waiting: seq<Message>, ready: seq<Callback>,
    stopped: bool, ended: bool, stream: bool, announced: bool,
    window: Option<Size>, requested: Option<Option<Size>>, pty: Option<Size>, written: seq<byte>)

  function Reactions(messages: seq<Message>, allowed: bool): (r: seq<Callback>)
    ensures |r| == |messages|
    ensures forall i :: 0 <= i < |r| ==> r[i] == Callback(messages[i], allowed)
  {
    seq(|messages|, i requires 0 <= i < |messages| => Callback(messages[i], allowed))
  }

  /** The listener: `recent` says the last authorization is recent enough to be taken as is. */
  function Handle(p: Pipe, m: Message, recent: bool): Pipe {
    if p.stopped || m.Other? then p
    else if m.End? || m.Invalid? then p.(stopped := true, ended := true)
    else if p.checking then p.(waiting := p.waiting + [m])
    else if recent then p.(ready := p.ready + [Callback(m, true)])
    else p.(checking := true, waiting := p.waiting + [m])
  }

  function Buffer(p: Pipe, m: Message): Pipe {
    if |p.early| < EARLY_MESSAGE_BUFFER then p.(early := p.early + [m]) else p
  }

  /** A message arrives: the listeners in place each get it. */
  function Arrive(p: Pipe, m: Message, recent: bool): Pipe {
    match p.phase
    case Early => Buffer(p, m)
    case Awaiting => Handle(Buffer(p, m), m, recent)
    case Live => Handle(p, m, recent)
  }

  function HandleAll(p: Pipe, ms: seq<Message>): Pipe
    decreases |ms|
  {
    if ms == [] then p else HandleAll(Handle(p, ms[0], true), ms[1..])
  }

  /** The second listener is installed and the first authorization starts. */
  function Listen(p: Pipe): Pipe {
    if p.phase == Early && !p.stopped then p.(phase := Awaiting, checking := true) else p
  }

  /** The connection attaches and hands over what arrived early; a resumed shell is announced. */
  function Release(p: Pipe): Pipe {
    var q := HandleAll(p.(phase := Live, early := []), p.early);
    if q.stream && !q.stopped then q.(announced := true) else q
  }

  /**
   * The authorization settles: its reactions are queued in the order they were registered. The
   * connection itself waited first, so the hand-over runs before any of them.
   */
  function Settle(p: Pipe, verdict: Verdict): Pipe {
    if !p.checking then p else
    var allowed := verdict == Allowed && !p.stopped;
    var q := p.(checking := false, waiting := [], ready := p.ready + Reactions(p.waiting, allowed));
    if verdict != Allowed then
      if q.stopped then q else q.(stopped := true, ended := q.ended || verdict == Refused)
    else if q.phase == Awaiting && allowed && !q.ended then Release(q)
    else q
  }

  function React(p: Pipe, cb: Callback, overfull: bool): Pipe {
    if !cb.allowed || p.stopped || p.ended then p
    else
      match cb.message
      case Resize(size) => p.(window := Some(size), pty := if p.stream then Some(size) else p.pty)
      case Input(data) =>
        if !p.stream then p
        else if overfull then p.(stopped := true, ended := true)
        else p.(written := p.written + data)
      case _ => p
  }

  /** The next queued reaction runs; `overfull`: the shell's own write queue is over its limit. */
  function RunCallback(p: Pipe, overfull: bool): Pipe {
    if p.ready == [] then p else React(p.(ready := p.ready[1..]), p.ready[0], overfull)
  }

  /** The shell is requested, once, with the window of that moment. */
  function RequestShell(p: Pipe): Pipe {
    if p.phase == Live && p.requested.None? && !p.stream then p.(requested := Some(p.window)) else p
  }

  /** The stream exists, and its PTY has the latest window, or the requested one if none came. */
  function OpenStream(p: Pipe): Pipe {
    if p.requested.None? || p.stream || p.ended then p
    else
      p.(stream := true, pty := if p.window.Some? then p.window else p.requested.value,
         announced := p.announced || !p.stopped)
  }

  /** A live connection reacts only to what was allowed, and messages wait only for a check under way. */
  ghost predicate QueuesOk(p: Pipe) {
    && (forall i :: 0 <= i < |p.ready| ==> p.ready[i].allowed || p.stopped)
    && (p.waiting != [] ==> p.checking)
  }

  /** The gateway's side of one connection, changed in place by its handlers. */
  class GatewayConnection {
    var phase: Phase
    var earlyMessages: seq<Message>
    var checking: bool
    var waiting: seq<Message>
    var ready: seq<Callback>
    var stopped: bool
    var ended: bool
    var stream: bool
    var announced: bool
    var window: Option<Size>
    var requested: Option<Option<Size>>
    var pty: Option<Size>
    var written: seq<byte>

    function View(): Pipe
      reads this
    {
      Pipe(phase, earlyMessages, checking, waiting, ready, stopped, ended, stream, announced, window, requested, pty, written)
    }

    /** At most sixteen early messages are held, whatever a client sends. */
    ghost predicate Valid()
      reads this
    {
      |earlyMessages| <= EARLY_MESSAGE_BUFFER && QueuesOk(View())
    }

    constructor (stream: bool, window: Option<Size>)
      ensures Valid() && View() == Fresh(stream, window)
    {
      phase, earlyMessages, checking, waiting, ready := Early, [], false, [], [];
      stopped, ended, this.stream, announced := false, false, stream, false;
      this.window, requested, pty, written := window, None, if stream then window else None, [];
    }

    method StopTerminal()
      requires Valid()
      modifies this`stopped, this`ended
      ensures Valid() && stopped && ended
    {
      stopped, ended := true, true;
    }

    method EnsureAuthorized(m: Message, recent: bool)
      requires Valid()
      modifies this`checking, this`waiting, this`ready
      ensures Valid()
      ensures checking == (old(checking) || !recent)
      ensures waiting == if old(checking) || !recent then old(waiting) + [m] else old(waiting)
      ensures ready == if old(checking) || !recent then old(ready) else old(ready) + [Callback(m, true)]
    {
      if checking {
        waiting := waiting + [m];
      } else if recent {
        ready := ready + [Callback(m, true)];
      } else {
        checking := true;
        waiting := waiting + [m];
      }
    }

    method OnMessage(m: Message, recent: bool)
      requires Valid()
      modifies this
      ensures Valid() && View() == Handle(old(View()), m, recent)
      ensures old(stopped) || m.Other? ==> unchanged(this)
      ensures !old(stopped) && (m.End? || m.Invalid?) ==> stopped && ended && unchanged(this`checking, this`waiting, this`ready)
      ensures !old(stopped) && (m.Input? || m.Resize?) ==>
                && stopped == old(stopped) && ended == old(ended)
                && (if old(checking) || !recent then checking && waiting == old(waiting) + [m] && ready == old(ready)
                    else !checking && waiting == old(waiting) && ready == old(ready) + [Callback(m, true)])
    {
      if stopped { return; }
      match m {
        case Other => return;
        case End => StopTerminal();
        case Invalid => StopTerminal();
        case _ => EnsureAuthorized(m, recent);
      }
    }

    method BufferEarlyMessage(m: Message)
      requires Valid()
      modifies this`earlyMessages
      ensures Valid() && View() == Buffer(old(View()), m)
      ensures old(earlyMessages) <= earlyMessages && |earlyMessages| == Min(|old(earlyMessages)| + 1, EARLY_MESSAGE_BUFFER)
    {
      if |earlyMessages| < EARLY_MESSAGE_BUFFER { earlyMessages := earlyMessages + [m]; }
    }

    /** The connection is live and the buffered messages were handled, in order and with a fresh authorization. */
    method ReleaseEarly()
      requires Valid()
      modifies this
      ensures Valid() && View() == Release(old(View()))
      ensures phase == Live && earlyMessages == [] && old(ready) <= ready
      ensures announced <==> old(announced) || (stream && !stopped)
    {
      phase := Live;
      var messages := earlyMessages;
      earlyMessages := [];
      ghost var p := View();
      for i := 0 to |messages|
        invariant Valid() && HandleAll(View(), messages[i..]) == HandleAll(p, messages)
        invariant phase == Live && earlyMessages == [] && old(ready) <= ready && announced == old(announced) && stream == old(stream)
      {
        assert messages[i..][0] == messages[i] && messages[i..][1..] == messages[i + 1..];
        OnMessage(messages[i], true);
      }
      if stream && !stopped { announced := true; }
    }

    method AuthorizationSettles(verdict: Verdict)
      requires Valid() && checking
      modifies this
      ensures Valid() && View() == Settle(old(View()), verdict)
      ensures !old(stopped) && verdict != Allowed ==> stopped && (ended <==> old(ended) || verdict == Refused)
      ensures verdict != Allowed || old(stopped) || old(ended) || old(phase) != Awaiting ==>
                && !checking && waiting == [] && phase == old(phase) && earlyMessages == old(earlyMessages) && announced == old(announced)
                && ready == old(ready) + Reactions(old(waiting), verdict == Allowed && !old(stopped))
      ensures verdict == Allowed && !old(stopped) && !old(ended) && old(phase) == Awaiting ==>
                && phase == Live && earlyMessages == [] && old(ready) + Reactions(old(waiting), true) <= ready
                && (announced <==> old(announced) || (stream && !stopped))
    {
      var allowed := verdict == Allowed && !stopped;
      checking := false;
      ready := ready + Reactions(waiting, allowed);
      waiting := [];
      if verdict != Allowed {
        if !stopped {
          stopped := true;
          if verdict == Refused { ended := true; }
        }
      } else if phase == Awaiting && allowed && !ended {
        ReleaseEarly();
      }
    }

    method RunNextCallback(overfull: bool)
      requires Valid() && ready != []
      modifies this
      ensures Valid() && View() == RunCallback(old(View()), overfull)
      ensures ready == old(ready)[1..]
      ensures var m := old(ready)[0].message;
              var runs := old(ready)[0].allowed && !old(stopped) && !old(ended);
              && written == old(written) + (if runs && m.Input? && stream && !overfull then m.data else [])
              && window == (if runs && m.Resize? then Some(m.size) else old(window))
              && pty == (if runs && m.Resize? && stream then Some(m.size) else old(pty))
              && (stopped <==> old(stopped) || (runs && m.Input? && stream && overfull))
              && (ended <==> old(ended) || (runs && m.Input? && stream && overfull))
    {
      var cb := ready[0];
      ready := ready[1..];
      if !cb.allowed || stopped || ended { return; }
      if cb.message.Resize? { window := Some(cb.message.size); }
      if !stream { return; }
      match cb.message {
        case Input(data) =>
          if overfull { StopTerminal(); return; }
          written := written + data;
        case Resize(size) => pty := Some(size);
        case _ =>
      }
    }

    method OnShellOpened()
      requires Valid() && requested.Some? && !stream
      modifies this
      ensures Valid() && View() == OpenStream(old(View()))
      ensures stream == !old(ended)
      ensures !ended ==> pty == (if window.Some? then window else requested.value) && (announced <==> old(announced) || !stopped)
    {
      if ended { return; }
      stream := true;
      pty := requested.value;
      if window.Some? { pty := window; }
      if !stopped { announced := true; }
    }
  }

  /** A connection to a shell that is open (a resume) or not yet (a new shell). */
  function Fresh(stream: bool, window: Option<Size>): Pipe {
    Pipe(Early, [], false, [], [], false, false, stream, false, window, None, if stream then window else None, [])
  }
}

/**
 * One connection end to end: the browser's accepted input and resizes, the wire, and the gateway's
 * message pipeline. In every run the shell gets a prefix of the accepted input, in order.
 */
module InputPath {
  import opened Bytes
  import InputSender
  import opened MessagePipeline

  /**
   * `accepted`: what the browser's sender accepted; `sent`: how much of it went on the wire (see
   * InputSender: the wire carries exactly the first `sent` bytes). `told`: the browser got the
   * gateway's `connected`. `cut`: the link lost what was on it. `resized`: the last size the browser
   * sent, `arrived` the last that reached the gateway. `overflowed`: the early buffer dropped a message.
   */
  datatype Link = Link(
    pipe: Pipe, accepted: seq<byte>, sent: nat, up: seq<Message>, told: bool, cut: bool,
    resized: Option<Size>, arrived: Option<Size>, overflowed: bool)

  datatype Event =
    | Accepts(data: seq<byte>)
    | Sends(bytes: nat)
    | SendsResize(size: Size)
    | SendsOther(m: Message)
    | Delivers(recent: bool)
    | LosesLink
    | StartsListening
    | Settles(verdict: Verdict)
    | Rechecks
    | RunsCallback(overfull: bool)
    | RequestsShell
    | OpensStream
    | TellsBrowser
    | Stops(ends: bool)

  function NewLink(stream: bool, window: Option<Size>): Link {
    Link(Fresh(stream, window), [], 0, [], false, false, window, window, false)
  }

  function OnWire(l: Link, m: Message): Link {
    if l.cut then l else l.(up := l.up + [m])
  }

  function Deliver(l: Link, recent: bool): Link
    requires l.up != []
  {
    var m := l.up[0];
    l.(up := l.up[1..], pipe := Arrive(l.pipe, m, recent),
       arrived := if m.Resize? then Some(m.size) else l.arrived,
       overflowed := l.overflowed || (l.pipe.phase != Live && |l.pipe.early| >= EARLY_MESSAGE_BUFFER))
  }

  function Step(l: Link, e: Event): Link {
    match e
    case Accepts(data) => l.(accepted := l.accepted + data)
    case Sends(bytes) =>
      if !l.told || l.sent + bytes > |l.accepted| then l
      else OnWire(l, Input(l.accepted[l.sent..l.sent + bytes])).(sent := l.sent + bytes)
    case SendsResize(size) => OnWire(l, Resize(size)).(resized := Some(size))
    case SendsOther(m) => if m.Input? || m.Resize? then l else OnWire(l, m)
    case Delivers(recent) => if l.up == [] then l else Deliver(l, recent)
    case LosesLink => l.(up := [], cut := true)
    case StartsListening => l.(pipe := Listen(l.pipe))
    case Settles(verdict) => l.(pipe := Settle(l.pipe, verdict))
    case Rechecks => if l.pipe.phase == Live && !l.pipe.stopped then l.(pipe := l.pipe.(checking := true)) else l
    case RunsCallback(overfull) => l.(pipe := RunCallback(l.pipe, overfull))
    case RequestsShell => l.(pipe := RequestShell(l.pipe))
    case OpensStream => l.(pipe := OpenStream(l.pipe))
    case TellsBrowser => if l.pipe.announced && !l.cut then l.(told := true) else l
    case Stops(ends) => l.(pipe := l.pipe.(stopped := true, ended := l.pipe.ended || ends))
  }

  function Run(l: Link, es: seq<Event>): Link
    decreases |es|
  {
    if es == [] then l else Run(Step(l, es[0]), es[1..])
  }

  // ---- What each event does ----

  /** The browser sends accepted input only once it was told, in order, and nothing gets on a cut link. */
  lemma BrowserEvents(l: Link, bytes: nat, size: Size, m: Message)
    ensures l.told && l.sent + bytes <= |l.accepted| ==>
              Step(l, Sends(bytes)) ==
                l.(sent := l.sent + bytes, up := if l.cut then l.up else l.up + [Input(l.accepted[l.sent..l.sent + bytes])])
    ensures !l.told || l.sent + bytes > |l.accepted| ==> Step(l, Sends(bytes)) == l
    ensures Step(l, SendsResize(size)) == l.(resized := Some(size), up := if l.cut then l.up else l.up + [Resize(size)])
    ensures m.End? || m.Other? || m.Invalid? ==> Step(l, SendsOther(m)) == l.(up := if l.cut then l.up else l.up + [m])
    ensures Step(l, TellsBrowser) == l.(told := l.told || (l.pipe.announced && !l.cut))
    ensures Step(l, LosesLink) == l.(up := [], cut := true)
  {
  }

  /** A message that arrives goes to the buffer before the connection is live, and to the listener once that is there. */
  lemma ArrivalEvents(l: Link, m: Message, rest: seq<Message>, recent: bool)
    requires l.up == [m] + rest
    ensures var k := Step(l, Delivers(recent));
            var b := if |l.pipe.early| < 16 then l.pipe.(early := l.pipe.early + [m]) else l.pipe;
            && k.up == rest && k.accepted == l.accepted && k.sent == l.sent && k.resized == l.resized
            && k.arrived == (if m.Resize? then Some(m.size) else l.arrived)
            && (l.pipe.phase == Early ==> k.pipe == b)
            && (l.pipe.phase == Awaiting ==> k.pipe == Handle(b, m, recent))
            && (l.pipe.phase == Live ==> k.pipe == Handle(l.pipe, m, recent))
            && (k.overflowed <==> l.overflowed || (l.pipe.phase != Live && |l.pipe.early| >= 16))
  {
  }

  /** Listening starts the first check; a live connection is checked again; a stop is for good. */
  lemma CheckEvents(l: Link, ends: bool)
    ensures Step(l, StartsListening).pipe ==
              if l.pipe.phase == Early && !l.pipe.stopped then l.pipe.(phase := Awaiting, checking := true) else l.pipe
    ensures Step(l, Rechecks).pipe == if l.pipe.phase == Live && !l.pipe.stopped then l.pipe.(checking := true) else l.pipe
    ensures Step(l, Stops(ends)).pipe == l.pipe.(stopped := true, ended := l.pipe.ended || ends)
  {
    hide Settle, Handle, React;
  }

  /** The shell is requested once, and sized and announced when it opens. */
  lemma ShellEvents(l: Link)
    ensures Step(l, RequestsShell).pipe ==
              if l.pipe.phase == Live && l.pipe.requested == None && !l.pipe.stream then l.pipe.(requested := Some(l.pipe.window)) else l.pipe
    ensures l.pipe.requested.Some? && !l.pipe.stream && !l.pipe.ended ==>
              var p := Step(l, OpensStream).pipe;
              && p.stream && p.pty == (if l.pipe.window.Some? then l.pipe.window else l.pipe.requested.value)
              && (p.announced <==> l.pipe.announced || !l.pipe.stopped)
    ensures l.pipe.requested == None || l.pipe.stream || l.pipe.ended ==> Step(l, OpensStream).pipe == l.pipe
  {
    hide Settle, Handle, React;
  }

  /** A connection starts unannounced, with nothing on its way. */
  lemma NewLinkIsEmpty(stream: bool, window: Option<Size>)
    ensures var l := NewLink(stream, window);
            && l.accepted == [] && l.sent == 0 && l.up == [] && !l.told && !l.cut && !l.overflowed && l.resized == l.arrived == window
            && var p := l.pipe;
               && p.phase == Early && p.early == p.waiting == [] && p.ready == [] && p.written == [] && !p.checking
               && !p.stopped && !p.ended && !p.announced && p.stream == stream && p.window == window && p.requested == None
  {
  }

  // ---- Input order ----

  function InputOf(ms: seq<Message>): seq<byte> {
    if ms == [] then [] else (if ms[0].Input? then ms[0].data else []) + InputOf(ms[1..])
  }

  function Messages(cbs: seq<Callback>): (r: seq<Message>)
    ensures |r| == |cbs| && forall i :: 0 <= i < |r| ==> r[i] == cbs[i].message
  {
    seq(|cbs|, i requires 0 <= i < |cbs| => cbs[i].message)
  }

  /** Everything the gateway still has to react to, in order. */
  function Queued(p: Pipe): seq<Message> {
    Messages(p.ready) + p.waiting
  }

  lemma {:induction false} InputOfConcat(a: seq<Message>, b: seq<Message>)
    ensures InputOf(a + b) == InputOf(a) + InputOf(b)
  {
    if a == [] {
      assert a + b == b;
    } else {
      InputOfConcat(a[1..], b);
      assert (a + b)[1..] == a[1..] + b;
    }
  }

  /** No further byte will be written. */
  predicate Dead(p: Pipe) {
    p.stopped || p.ended
  }

  ghost predicate NoInput(ms: seq<Message>) {
    forall i :: 0 <= i < |ms| ==> !ms[i].Input?
  }

  /** The input still on its way, from the gateway's queues to the wire. */
  function Underway(l: Link): seq<byte> {
    InputOf(Queued(l.pipe)) + InputOf(l.up)
  }

  /** What was written, then what is under way, is what was sent: no byte is reordered or repeated. */
  ghost predicate Flow(l: Link) {
    && l.sent <= |l.accepted|
    && l.pipe.written <= l.accepted[..l.sent]
    && (!Dead(l.pipe) ==> l.pipe.written + Underway(l) <= l.accepted[..l.sent])
    && (!Dead(l.pipe) && !l.cut ==> l.pipe.written + Underway(l) == l.accepted[..l.sent])
  }

  /** Input is held until the browser knows the shell, so none reaches the gateway early. */
  ghost predicate Held(l: Link) {
    var p := l.pipe;
    && (l.cut ==> l.up == [])
    && (p.phase == Live ==> p.early == [])
    && (p.announced ==> p.phase == Live && p.stream)
    && (p.requested.Some? ==> p.phase == Live)
    && (l.told ==> p.announced)
    && (!l.told ==> l.sent == 0)
    && (!p.announced ==> NoInput(l.up) && NoInput(p.early) && NoInput(Queued(p)))
  }

  ghost predicate Ordered(l: Link) {
    QueuesOk(l.pipe) && Flow(l) && Held(l)
  }

  /** Handling a message other than input leaves the queued input alone. */
  ghost predicate SameInput(p: Pipe, q: Pipe) {
    && q == p.(checking := q.checking, waiting := q.waiting, ready := q.ready, stopped := q.stopped, ended := q.ended)
    && (p.stopped ==> q.stopped) && (p.ended ==> q.ended)
    && (q.waiting != [] ==> q.checking)
    && (forall i :: 0 <= i < |q.ready| ==> q.ready[i].allowed || q.stopped)
    && InputOf(Queued(q)) == InputOf(Queued(p))
    && (NoInput(Queued(p)) ==> NoInput(Queued(q)))
  }

  lemma HandleQueues(p: Pipe, m: Message, recent: bool)
    requires QueuesOk(p)
    ensures QueuesOk(Handle(p, m, recent))
    ensures m.Input? && !p.stopped ==> Queued(Handle(p, m, recent)) == Queued(p) + [m]
    ensures !m.Input? ==> Queued(Handle(p, m, recent)) == Queued(p) || Queued(Handle(p, m, recent)) == Queued(p) + [m]
  {
    var q := Handle(p, m, recent);
    if (m.Input? || m.Resize?) && !p.stopped {
      assert Queued(q) == Queued(p) + [m];
    }
  }

  lemma HandleKeepsInput(p: Pipe, m: Message, recent: bool)
    requires QueuesOk(p) && !m.Input?
    ensures SameInput(p, Handle(p, m, recent))
  {
    hide InputOf, Queued;
    HandleQueues(p, m, recent);
    InputOfConcat(Queued(p), [m]);
    InputOfOne(m);
  }

  lemma InputOfOne(m: Message)
    ensures InputOf([m]) == if m.Input? then m.data else []
  {
    assert [m][1..] == [];
    assert InputOf([m]) == (if m.Input? then m.data else []) + InputOf([]);
  }

  lemma {:induction false} HandleAllKeepsInput(p: Pipe, ms: seq<Message>)
    requires QueuesOk(p) && NoInput(ms)
    ensures SameInput(p, HandleAll(p, ms))
    decreases |ms|
  {
    hide InputOf, Queued, Handle;
    if ms != [] {
      HandleKeepsInput(p, ms[0], true);
      HandleAllKeepsInput(Handle(p, ms[0], true), ms[1..]);
    }
  }

  /** A settled authorization moves the waiting messages behind the ready ones. */
  lemma MoveWaiting(p: Pipe, q: Pipe, allowed: bool)
    requires q.ready == p.ready + Reactions(p.waiting, allowed) && q.waiting == []
    ensures Queued(q) == Queued(p)
  {
  }

  lemma SettleKeepsInput(p: Pipe, verdict: Verdict)
    requires QueuesOk(p) && NoInput(p.early) && p.checking
    ensures var q := Settle(p, verdict);
            && QueuesOk(q) && InputOf(Queued(q)) == InputOf(Queued(p)) && (NoInput(Queued(p)) ==> NoInput(Queued(q)))
            && (Dead(p) ==> Dead(q)) && q.written == p.written && q.stream == p.stream && q.requested == p.requested
            && ((q.phase == p.phase && q.early == p.early) || (q.phase == Live && p.phase == Awaiting && q.early == []))
            && (p.announced ==> q.announced)
            && (q.announced && !p.announced ==> q.phase == Live && q.stream)
  {
    hide InputOf, Queued, HandleAll;
    var allowed := verdict == Allowed && !p.stopped;
    var q := p.(checking := false, waiting := [], ready := p.ready + Reactions(p.waiting, allowed));
    MoveWaiting(p, q, allowed);
    if verdict == Allowed && q.phase == Awaiting && allowed && !q.ended {
      HandleAllKeepsInput(q.(phase := Live, early := []), p.early);
      SameQueue(q, q.(phase := Live, early := []));
      var r := HandleAll(q.(phase := Live, early := []), p.early);
      SameQueue(r, r.(announced := true));
    } else {
      SameQueue(q, Settle(p, verdict));
    }
  }

  lemma SameQueue(p: Pipe, q: Pipe)
    requires q.ready == p.ready && q.waiting == p.waiting
    ensures Queued(q) == Queued(p)
  {
  }

  // ---- Each event keeps the order ----

  lemma ArriveKeeps(p: Pipe, m: Message, recent: bool)
    requires QueuesOk(p) && (p.phase != Live ==> !m.Input?)
    ensures var q := Arrive(p, m, recent);
            && QueuesOk(q)
            && (!p.stopped ==> InputOf(Queued(q)) == InputOf(Queued(p)) + InputOf([m]))
            && (Dead(p) ==> Dead(q))
            && q == p.(early := q.early, checking := q.checking, waiting := q.waiting, ready := q.ready, stopped := q.stopped, ended := q.ended)
            && (!m.Input? && NoInput(p.early) && NoInput(Queued(p)) ==> NoInput(q.early) && NoInput(Queued(q)))
            && (p.phase == Live ==> q.early == p.early)
  {
    hide InputOf, Queued, Handle;
    InputOfOne(m);
    var b := if p.phase == Live then p else Buffer(p, m);
    SameQueue(p, b);
    if p.phase != Early {
      if m.Input? {
        HandleQueues(p, m, recent);
        InputOfConcat(Queued(p), [m]);
        HandleInput(p, m, recent);
      } else {
        HandleKeepsInput(b, m, recent);
      }
    }
  }

  lemma HandleInput(p: Pipe, m: Message, recent: bool)
    requires m.Input?
    ensures var q := Handle(p, m, recent); q == p.(checking := q.checking, waiting := q.waiting, ready := q.ready)
  {
  }

  lemma DeliverOrdered(l: Link, recent: bool)
    requires Ordered(l) && l.up != []
    ensures Ordered(Deliver(l, recent))
  {
    hide Queued, Arrive, InputOf;
    ArriveKeeps(l.pipe, l.up[0], recent);
    assert l.up == [l.up[0]] + l.up[1..];
    InputOfConcat([l.up[0]], l.up[1..]);
    assert InputOf(Queued(l.pipe)) + (InputOf([l.up[0]]) + InputOf(l.up[1..]))
        == (InputOf(Queued(l.pipe)) + InputOf([l.up[0]])) + InputOf(l.up[1..]);
  }

  lemma CallbackQueue(p: Pipe, overfull: bool)
    requires p.ready != []
    ensures var q := RunCallback(p, overfull);
            && Queued(p) == [p.ready[0].message] + Queued(q)
            && q == p.(ready := p.ready[1..], stopped := q.stopped, ended := q.ended, window := q.window, pty := q.pty, written := q.written)
            && (p.stopped ==> q.stopped) && (p.ended ==> q.ended)
  {
    var q := RunCallback(p, overfull);
    assert Messages(p.ready) == [p.ready[0].message] + Messages(p.ready[1..]);
  }

  lemma CallbackWrites(p: Pipe, overfull: bool)
    requires p.ready != [] && (p.ready[0].allowed || p.stopped)
    ensures var q := RunCallback(p, overfull);
            && (Dead(p) ==> q.written == p.written)
            && (!Dead(q) ==> q.written == p.written + if p.ready[0].message.Input?
               && p.stream then p.ready[0].message.data else [])
            && (Dead(q) && !Dead(p) ==> q.written == p.written)
  {
  }

  lemma NoInputTail(m: Message, ms: seq<Message>)
    requires NoInput([m] + ms)
    ensures NoInput(ms) && !m.Input?
  {
    assert forall i :: 0 <= i < |ms| ==> ms[i] == ([m] + ms)[i + 1];
    assert ([m] + ms)[0] == m;
  }

  lemma CallbackOrdered(l: Link, overfull: bool)
    requires Ordered(l)
    ensures Ordered(l.(pipe := RunCallback(l.pipe, overfull)))
  {
    var p := l.pipe;
    assert p.ready == [] ==> RunCallback(p, overfull) == p;
    hide InputOf, Queued, RunCallback;
    if p.ready != [] {
      var q := RunCallback(p, overfull);
      var m := p.ready[0].message;
      CallbackQueue(p, overfull);
      CallbackWrites(p, overfull);
      InputOfConcat([m], Queued(q));
      InputOfOne(m);
      if NoInput(Queued(p)) { NoInputTail(m, Queued(q)); }
      CallbackFlow(l, q, m);
      hide Flow, NoInput, Dead;
    }
  }

  /** A reaction writes its input, which is then no longer queued. */
  lemma CallbackFlow(l: Link, q: Pipe, m: Message)
    requires Flow(l) && InputOf(Queued(l.pipe)) == InputOf([m]) + InputOf(Queued(q)) && InputOf([m]) == if m.Input? then m.data else []
    requires !m.Input? || l.pipe.stream || Dead(l.pipe)
    requires (Dead(l.pipe) ==> Dead(q)) && (Dead(q) ==> q.written == l.pipe.written)
    requires !Dead(q) ==> q.written == l.pipe.written + if m.Input? && l.pipe.stream then m.data else []
    ensures Flow(l.(pipe := q))
  {
    var data := if m.Input? then m.data else [];
    var k := l.(pipe := q);
    hide InputOf, Queued, Dead;
    if !Dead(q) {
      Regrouped(l.pipe.written, data, InputOf(Queued(q)), InputOf(l.up));
      assert q.written == l.pipe.written + data;
      assert q.written + Underway(k) == l.pipe.written + Underway(l);
    }
  }

  lemma Regrouped(a: seq<byte>, b: seq<byte>, c: seq<byte>, d: seq<byte>)
    ensures a + ((b + c) + d) == (a + b) + (c + d)
  {
  }

  lemma SettleOrdered(l: Link, verdict: Verdict)
    requires Ordered(l)
    ensures Ordered(l.(pipe := Settle(l.pipe, verdict)))
  {
    hide InputOf, Queued;
    var p := l.pipe;
    if p.checking {
      hide Settle;
      EarlyHasNoInput(l);
      SettleKeepsInput(p, verdict);
    }
  }

  lemma EarlyHasNoInput(l: Link)
    requires Held(l)
    ensures NoInput(l.pipe.early)
  {
  }

  lemma SendOrdered(l: Link, m: Message, bytes: nat)
    requires Ordered(l)
    requires if m.Input? then l.told && l.sent + bytes <= |l.accepted|
      && m.data == l.accepted[l.sent..l.sent + bytes] else bytes == 0
    ensures Ordered(OnWire(l, m).(sent := l.sent + bytes))
  {
    hide InputOf, Queued;
    InputOfConcat(l.up, [m]);
    InputOfOne(m);
    var sent := l.accepted[..l.sent];
    var more := if m.Input? then m.data else [];
    assert l.accepted[..l.sent + bytes] == sent + more;
    assert (l.pipe.written + (InputOf(Queued(l.pipe)) + InputOf(l.up))) + more == l.pipe.written + (InputOf(Queued(l.pipe)) + (InputOf(l.up) + more));
  }

  lemma OtherOrdered(l: Link, m: Message)
    requires Ordered(l) && !m.Input?
    ensures Ordered(OnWire(l, m))
  {
    SendOrdered(l, m, 0);
    assert OnWire(l, m).(sent := l.sent + 0) == OnWire(l, m);
  }

  lemma ResizeOrdered(l: Link, size: Size)
    requires Ordered(l)
    ensures Ordered(OnWire(l, Resize(size)).(resized := Some(size)))
  {
    OtherOrdered(l, Resize(size));
    SameOrder(OnWire(l, Resize(size)), Some(size));
  }

  lemma SameOrder(l: Link, resized: Option<Size>)
    requires Ordered(l)
    ensures Ordered(l.(resized := resized))
  {
    assert Underway(l.(resized := resized)) == Underway(l);
  }

  lemma LoseOrdered(l: Link)
    requires Ordered(l)
    ensures Ordered(l.(up := [], cut := true))
  {
    var w := l.pipe.written;
    var q := InputOf(Queued(l.pipe));
    assert w + (q + InputOf(l.up)) == (w + q) + InputOf(l.up);
    assert q + InputOf([]) == q;
  }

  lemma QuietOrdered(l: Link, q: Pipe)
    requires Ordered(l)
    requires q.ready == l.pipe.ready && q.waiting == l.pipe.waiting && q.early == l.pipe.early
      && q.written == l.pipe.written
    requires (l.pipe.stopped ==> q.stopped) && (l.pipe.ended ==> q.ended) && (l.pipe.checking ==> q.checking)
    requires q.phase == l.pipe.phase || (l.pipe.phase == Early && q.phase == Awaiting)
    requires (l.pipe.announced ==> q.announced) && (q.announced ==> q.phase == Live && q.stream)
      && (q.requested.Some? ==> q.phase == Live)
    ensures Ordered(l.(pipe := q))
  {
    hide InputOf, Queued;
    SameQueue(l.pipe, q);
  }

  function Marked(p: Pipe, stopped: bool, ended: bool, stream: bool): Pipe {
    p.(stopped := p.stopped || stopped, ended := p.ended || ended, stream := p.stream || stream)
  }

  /** A connection that is stopped, ended or given a stream from outside keeps its order. */
  lemma MarkedOrdered(l: Link, stopped: bool, ended: bool, stream: bool)
    requires Ordered(l)
    ensures Ordered(l.(pipe := Marked(l.pipe, stopped, ended, stream)))
  {
    QuietOrdered(l, Marked(l.pipe, stopped, ended, stream));
  }

  lemma StepOrdered(l: Link, e: Event)
    requires Ordered(l)
    ensures Ordered(Step(l, e))
  {
    hide InputOf, Queued, Settle, RunCallback, Deliver, OnWire;
    match e {
      case Accepts(data) => assert (l.accepted + data)[..l.sent] == l.accepted[..l.sent];
      case Sends(bytes) =>
        if l.told && l.sent + bytes <= |l.accepted| { SendOrdered(l, Input(l.accepted[l.sent..l.sent + bytes]), bytes); }
      case SendsResize(size) => ResizeOrdered(l, size);
      case SendsOther(m) => if !m.Input? { OtherOrdered(l, m); }
      case Delivers(recent) => if l.up != [] { DeliverOrdered(l, recent); }
      case LosesLink => LoseOrdered(l);
      case StartsListening => QuietOrdered(l, Listen(l.pipe));
      case Settles(verdict) => SettleOrdered(l, verdict);
      case Rechecks => QuietOrdered(l, l.pipe.(checking := true));
      case RunsCallback(overfull) => CallbackOrdered(l, overfull);
      case RequestsShell => QuietOrdered(l, RequestShell(l.pipe));
      case OpensStream => QuietOrdered(l, OpenStream(l.pipe));
      case TellsBrowser =>
      case Stops(ends) => QuietOrdered(l, l.pipe.(stopped := true, ended := l.pipe.ended || ends));
    }
  }

  lemma {:induction false} RunOrdered(l: Link, es: seq<Event>)
    requires Ordered(l)
    ensures Ordered(Run(l, es))
    decreases |es|
  {
    hide Ordered, Step;
    if es != [] {
      StepOrdered(l, es[0]);
      RunOrdered(Step(l, es[0]), es[1..]);
    }
  }

  lemma NewLinkOrdered(stream: bool, window: Option<Size>)
    ensures Ordered(NewLink(stream, window))
  {
  }

  /**
   * In every run of a connection, whatever is lost, delayed, re-authorized or stopped, the bytes
   * written to the shell are a prefix of the input accepted on that connection.
   */
  lemma ShellGetsPrefixOfInput(stream: bool, window: Option<Size>, es: seq<Event>)
    ensures var l := Run(NewLink(stream, window), es); l.pipe.written <= l.accepted
  {
    hide Ordered;
    NewLinkOrdered(stream, window);
    RunOrdered(NewLink(stream, window), es);
    OrderedPrefix(Run(NewLink(stream, window), es));
  }

  lemma OrderedPrefix(l: Link)
    requires Ordered(l)
    ensures l.pipe.written <= l.accepted
  {
  }

  ghost predicate Settled(l: Link) {
    !Dead(l.pipe) && !l.cut && l.up == [] && l.pipe.ready == [] && l.pipe.waiting == []
  }

  /**
   * While the connection lives nothing sent is lost either: once the wire and the gateway's queues
   * are empty the shell has everything that was sent.
   */
  lemma SettledInputIsAllWritten(stream: bool, window: Option<Size>, es: seq<Event>)
    ensures var l := Run(NewLink(stream, window), es);
            Settled(l) ==> l.sent <= |l.accepted| && l.pipe.written == l.accepted[..l.sent]
  {
    hide Ordered, Run, Settled;
    NewLinkOrdered(stream, window);
    RunOrdered(NewLink(stream, window), es);
    var l := Run(NewLink(stream, window), es);
    if Settled(l) { OrderedSettled(l); }
  }

  lemma OrderedSettled(l: Link)
    requires Ordered(l) && Settled(l)
    ensures l.sent <= |l.accepted| && l.pipe.written == l.accepted[..l.sent]
  {
    assert Queued(l.pipe) == [];
  }

  // ---- The sender's frames are this link's sends ----

  lemma {:induction false} RunConcat(l: Link, a: seq<Event>, b: seq<Event>)
    ensures Run(l, a + b) == Run(Run(l, a), b)
    decreases |a|
  {
    hide Step;
    if a == [] {
      assert a + b == b;
    } else {
      assert (a + b)[0] == a[0] && (a + b)[1..] == a[1..] + b;
      RunConcat(Step(l, a[0]), a[1..], b);
    }
  }

  function SendsOf(frames: seq<InputSender.Frame>): (es: seq<Event>)
    ensures |es| == |frames|
  {
    seq(|frames|, i requires 0 <= i < |frames| => Sends(|frames[i].data|))
  }

  function InputsOf(frames: seq<InputSender.Frame>): (ms: seq<Message>)
    ensures |ms| == |frames|
  {
    seq(|frames|, i requires 0 <= i < |frames| => Input(frames[i].data))
  }

  /**
   * The frames an InputSender put on the wire hold, one after the other, the first bytes it accepted
   * (InputSender.Accounts). Sending them is therefore a run of this link: its wire carries exactly
   * those frames.
   */
  lemma {:induction false} FramesAreSends(l: Link, frames: seq<InputSender.Frame>)
    requires l.told && !l.cut && l.sent == 0 && InputSender.Data(frames) <= l.accepted
    ensures Run(l, SendsOf(frames)) == l.(up := l.up + InputsOf(frames), sent := |InputSender.Data(frames)|)
    decreases |frames|
  {
    if frames == [] {
      assert l.up + InputsOf(frames) == l.up;
    } else {
      var init, last := frames[..|frames| - 1], frames[|frames| - 1];
      var sent := |InputSender.Data(init)|;
      assert InputSender.Data(frames) == InputSender.Data(init) + last.data;
      assert l.accepted[sent..sent + |last.data|] == last.data;
      FramesAreSends(l, init);
      var k := Run(l, SendsOf(init));
      assert SendsOf(frames) == SendsOf(init) + [Sends(|last.data|)];
      RunConcat(l, SendsOf(init), [Sends(|last.data|)]);
      assert [Sends(|last.data|)][1..] == [];
      assert Run(Step(k, Sends(|last.data|)), []) == Step(k, Sends(|last.data|));
      assert (l.up + InputsOf(init)) + [Input(last.data)] == l.up + InputsOf(frames);
    }
  }

  // ---- What single events change ----

  lemma SettleIdle(p: Pipe, verdict: Verdict)
    requires !p.checking
    ensures Settle(p, verdict) == p
  {
  }

  lemma HandleWrites(p: Pipe, m: Message, recent: bool)
    ensures Handle(p, m, recent).written == p.written
  {
  }

  lemma ArriveWrites(p: Pipe, m: Message, recent: bool)
    ensures Arrive(p, m, recent).written == p.written
  {
    hide Handle;
    HandleWrites(p, m, recent);
    HandleWrites(Buffer(p, m), m, recent);
  }

  /** Only a reaction of a live, attached connection writes to the shell. */
  lemma WritesOnlyWhenLive(l: Link, e: Event)
    requires Ordered(l)
    ensures l.pipe.written <= Step(l, e).pipe.written
    ensures Step(l, e).pipe.written != l.pipe.written ==> e.RunsCallback? && l.pipe.phase == Live && !Dead(l.pipe)
  {
    hide InputOf, Settle, Arrive;
    match e {
      case Settles(verdict) =>
        hide Queued;
        EarlyHasNoInput(l);
        if l.pipe.checking { SettleKeepsInput(l.pipe, verdict); } else { SettleIdle(l.pipe, verdict); }
      case Delivers(recent) => if l.up != [] { ArriveWrites(l.pipe, l.up[0], recent); }
      case RunsCallback(overfull) => if l.pipe.ready != [] { assert Queued(l.pipe)[0] == l.pipe.ready[0].message; }
      case _ =>
    }
  }

  lemma SettleGoesLive(p: Pipe, verdict: Verdict)
    ensures var q := Settle(p, verdict);
            q.phase == p.phase || (p.phase == Awaiting && q.phase == Live && verdict == Allowed && !p.stopped && !p.ended)
  {
    if p.checking {
      var q := p.(checking := false, waiting := [], ready := p.ready + Reactions(p.waiting, true));
      HandleAllPhase(q.(phase := Live, early := []), p.early);
    }
  }

  lemma HandlePhase(p: Pipe, m: Message, recent: bool)
    ensures Handle(p, m, recent).phase == p.phase
  {
  }

  lemma {:induction false} HandleAllPhase(p: Pipe, ms: seq<Message>)
    ensures HandleAll(p, ms).phase == p.phase
    decreases |ms|
  {
    if ms != [] { HandleAllPhase(Handle(p, ms[0], true), ms[1..]); }
  }

  /** A connection listens once it claimed, and goes live only through an allowed authorization. */
  lemma PhaseChanges(l: Link, e: Event)
    ensures var p, q := l.pipe, Step(l, e).pipe;
            || q.phase == p.phase
            || (e.StartsListening? && q.phase == Awaiting)
            || (e == Settles(Allowed) && p.phase == Awaiting && q.phase == Live && !p.stopped && !p.ended)
  {
    hide Settle, Handle;
    match e {
      case Settles(verdict) => SettleGoesLive(l.pipe, verdict);
      case Delivers(recent) =>
        if l.up != [] {
          HandlePhase(l.pipe, l.up[0], recent);
          HandlePhase(Buffer(l.pipe, l.up[0]), l.up[0], recent);
        }
      case _ =>
    }
  }

  /** The first authorization is awaited until it settles. */
  lemma WaitsOn(l: Link, e: Event)
    requires l.pipe.phase == Awaiting && l.pipe.checking && !e.Settles?
    ensures var q := Step(l, e).pipe; q.phase == Awaiting && q.checking
  {
    hide Settle, React, Queued, Arrive;
    if e.RunsCallback? && l.pipe.ready != [] { CallbackQueue(l.pipe, e.overfull); }
    if e.Delivers? && l.up != [] { ArriveWaits(l.pipe, l.up[0], e.recent); }
  }

  lemma ArriveWaits(p: Pipe, m: Message, recent: bool)
    requires p.phase == Awaiting && p.checking
    ensures var q := Arrive(p, m, recent); q.phase == Awaiting && q.checking
  {
  }

  lemma ListenWaits(l: Link)
    requires l.pipe.phase == Early && !l.pipe.stopped
    ensures var q := Step(l, StartsListening).pipe; q == l.pipe.(phase := Awaiting, checking := true)
  {
  }

  /** Before it listens a connection only buffers. */
  lemma OnlyBuffers(l: Link, e: Event)
    requires l.pipe == Fresh(false, None).(early := l.pipe.early) && !e.StartsListening? && !e.Stops?
    ensures var q := Step(l, e).pipe; q == Fresh(false, None).(early := q.early)
  {
  }

  /** Only the browser's own typing is accepted, and only its sender sends. */
  lemma AcceptsAndSends(l: Link, e: Event)
    ensures Step(l, e).accepted == if e.Accepts? then l.accepted + e.data else l.accepted
    ensures !e.Sends? ==> Step(l, e).sent == l.sent
  {
    hide Settle, Arrive;
  }

  /** A stopped or ended connection stays so. */
  lemma StaysDead(l: Link, e: Event)
    requires Ordered(l)
    ensures (l.pipe.stopped ==> Step(l, e).pipe.stopped) && (l.pipe.ended ==> Step(l, e).pipe.ended)
  {
    hide InputOf, Queued, Settle, Handle;
    match e {
      case Settles(verdict) => SettleStaysDead(l.pipe, verdict);
      case Delivers(recent) =>
        if l.up != [] {
          HandleStaysDead(l.pipe, l.up[0], recent);
          HandleStaysDead(Buffer(l.pipe, l.up[0]), l.up[0], recent);
        }
      case _ =>
    }
  }

  lemma HandleStaysDead(p: Pipe, m: Message, recent: bool)
    ensures (p.stopped ==> Handle(p, m, recent).stopped) && (p.ended ==> Handle(p, m, recent).ended)
  {
  }

  lemma SettleStaysDead(p: Pipe, verdict: Verdict)
    ensures (p.stopped ==> Settle(p, verdict).stopped) && (p.ended ==> Settle(p, verdict).ended)
  {
    hide HandleAll;
    if p.checking {
      var q := p.(checking := false, waiting := [], ready := p.ready + Reactions(p.waiting, true));
      HandleAllStaysDead(q.(phase := Live, early := []), p.early);
    }
  }

  lemma {:induction false} HandleAllStaysDead(p: Pipe, ms: seq<Message>)
    ensures (p.stopped ==> HandleAll(p, ms).stopped) && (p.ended ==> HandleAll(p, ms).ended)
    decreases |ms|
  {
    if ms != [] {
      HandleStaysDead(p, ms[0], true);
      HandleAllStaysDead(Handle(p, ms[0], true), ms[1..]);
    }
  }

  // ---- A live connection can write all it accepted ----

  predicate NoEnding(ms: seq<Message>) {
    forall m :: m in ms ==> !m.End? && !m.Invalid?
  }

  /** Attached, with nothing in the way of its input. */
  ghost predicate Flushable(l: Link) {
    && Ordered(l) && !Dead(l.pipe) && !l.cut && NoEnding(l.up)
    && l.pipe.phase == Live && l.pipe.stream && l.pipe.announced && !l.pipe.checking
  }

  function Unfinished(l: Link): nat {
    (if l.told then 0 else 1) + (if l.sent < |l.accepted| then 3 else 0) + 2 * |l.up| + |l.pipe.ready|
  }

  function NextMove(l: Link): Event {
    if !l.told then TellsBrowser
    else if l.sent < |l.accepted| then Sends(|l.accepted| - l.sent)
    else if l.up != [] then Delivers(true)
    else RunsCallback(false)
  }

  lemma HandleEndsNothing(p: Pipe, m: Message)
    requires !m.End? && !m.Invalid? && !p.checking
    ensures var q := Handle(p, m, true);
            q == p.(ready := q.ready) && |q.ready| <= |p.ready| + 1
  {
  }

  lemma {:induction false} HandleAllEndsNothing(p: Pipe, ms: seq<Message>)
    requires NoEnding(ms) && !p.checking
    ensures var q := HandleAll(p, ms); q == p.(ready := q.ready)
    decreases |ms|
  {
    hide Handle;
    if ms != [] {
      assert ms[0] in ms;
      HandleEndsNothing(p, ms[0]);
      HandleAllEndsNothing(Handle(p, ms[0], true), ms[1..]);
    }
  }

  lemma DeliverFlushes(l: Link)
    requires Flushable(l) && l.up != []
    ensures var k := Deliver(l, true); Flushable(k) && Unfinished(k) < Unfinished(l) && k.accepted == l.accepted && k.told == l.told
  {
    DeliverOrdered(l, true);
    hide Ordered, Handle;
    assert l.up[0] in l.up;
    HandleEndsNothing(l.pipe, l.up[0]);
  }

  lemma CallbackFlushes(l: Link)
    requires Flushable(l) && l.pipe.ready != []
    ensures var k := Step(l, RunsCallback(false));
            Flushable(k) && Unfinished(k) < Unfinished(l) && k.accepted == l.accepted && k.told == l.told
  {
    CallbackOrdered(l, false);
    CallbackQueue(l.pipe, false);
    NoStop(l.pipe);
    CallbackStep(l);
    hide Ordered, RunCallback, Queued, Step;
  }

  lemma CallbackStep(l: Link)
    ensures Step(l, RunsCallback(false)) == l.(pipe := RunCallback(l.pipe, false))
  {
    hide RunCallback;
  }

  lemma NoStop(p: Pipe)
    requires p.ready != []
    ensures var q := RunCallback(p, false); q.stopped == p.stopped && q.ended == p.ended
  {
  }

  lemma MoveFlushes(l: Link)
    requires Flushable(l) && Unfinished(l) > 0
    ensures var k := Step(l, NextMove(l));
            && Flushable(k) && Unfinished(k) < Unfinished(l) && k.accepted == l.accepted
            && l.pipe.written <= k.pipe.written
  {
    StepOrdered(l, NextMove(l));
    WritesOnlyWhenLive(l, NextMove(l));
    hide Ordered, Deliver, RunCallback;
    if l.told && l.sent == |l.accepted| {
      if l.up != [] { DeliverFlushes(l); } else { CallbackFlushes(l); }
    }
  }

  lemma FlushedWroteAll(l: Link)
    requires Flushable(l) && Unfinished(l) == 0
    ensures l.pipe.written == l.accepted
  {
    OrderedSettled(l);
    assert l.accepted[..l.sent] == l.accepted;
  }

  /** An allowed authorization makes a claimed shell's connection live, unless a message that ends it has come. */
  lemma SettleFlushes(l: Link)
    requires Ordered(l) && !Dead(l.pipe) && !l.cut && NoEnding(l.up) && NoEnding(l.pipe.early)
    requires l.pipe.phase == Awaiting && l.pipe.checking && l.pipe.stream
    ensures var k := Step(l, Settles(Allowed));
            Flushable(k) && k.accepted == l.accepted && k.pipe.written == l.pipe.written
  {
    StepOrdered(l, Settles(Allowed));
    var p := l.pipe;
    var q := p.(checking := false, waiting := [], ready := p.ready + Reactions(p.waiting, true));
    HandleAllEndsNothing(q.(phase := Live, early := []), p.early);
    hide Ordered, HandleAll;
  }
}

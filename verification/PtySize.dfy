/**
 * The last resize wins: once everything settles, the PTY has the last size the browser sent, although
 * early messages are handled out of order and some of them twice.
 */
module PtySize {
  import opened Bytes
  import opened MessagePipeline
  import opened InputPath

  function LastResize(ms: seq<Message>): Option<Size> {
    if ms == [] then None
    else if ms[|ms| - 1].Resize? then Some(ms[|ms| - 1].size)
    else LastResize(ms[..|ms| - 1])
  }

  function Or(a: Option<Size>, b: Option<Size>): Option<Size> {
    if a.Some? then a else b
  }

  lemma {:induction false} LastResizeConcat(a: seq<Message>, b: seq<Message>)
    ensures LastResize(a + b) == Or(LastResize(b), LastResize(a))
    decreases |b|
  {
    if b == [] {
      assert a + b == a;
    } else {
      var c := b[..|b| - 1];
      assert (a + b)[..|a + b| - 1] == a + c;
      LastResizeConcat(a, c);
    }
  }

  function SizeOf(m: Message): Option<Size> {
    if m.Resize? then Some(m.size) else None
  }

  lemma LastResizeOne(m: Message)
    ensures LastResize([m]) == SizeOf(m)
  {
    assert [m][..0] == [];
    assert LastResize([]) == None;
  }

  /** Nothing was lost: the connection lives and the early buffer held every early message. */
  predicate Intact(l: Link) {
    !Dead(l.pipe) && !l.cut && !l.overflowed
  }

  ghost predicate PtyFollowsWindow(p: Pipe) {
    && (p.stream ==> p.pty == p.window)
    && (p.requested.Some? && p.window == None ==> p.requested.value == None)
  }

  ghost predicate Waits(p: Pipe) {
    && (p.waiting != [] ==> p.checking)
    && (p.phase != Live ==> p.ready == [])
    && (p.phase == Early ==> !p.checking && p.waiting == [])
    && (p.phase == Awaiting ==> p.checking)
    && (p.phase != Live && LastResize(p.early) == None ==> LastResize(p.waiting) == None)
  }

  /** The size the shell will have once the gateway has reacted to all it got. */
  function Coming(p: Pipe): Option<Size> {
    Or(LastResize(if p.phase == Live then Queued(p) else p.early), p.window)
  }

  ghost predicate Sized(l: Link) {
    Intact(l) ==>
      && l.resized == Or(LastResize(l.up), l.arrived)
      && Coming(l.pipe) == l.arrived
      && Waits(l.pipe) && PtyFollowsWindow(l.pipe)
  }

  lemma HandleLast(p: Pipe, m: Message, recent: bool)
    requires !Dead(Handle(p, m, recent)) && (p.waiting != [] ==> p.checking)
    ensures LastResize(Queued(Handle(p, m, recent))) == Or(SizeOf(m), LastResize(Queued(p)))
    ensures var q := Handle(p, m, recent);
            && q == p.(checking := q.checking, waiting := q.waiting, ready := q.ready)
            && (q.waiting != [] ==> q.checking)
            && (p.checking ==> q.checking && q.ready == p.ready
                               && LastResize(q.waiting) == Or(SizeOf(m), LastResize(p.waiting)))
            && (!p.checking && recent ==> !q.checking)
  {
    hide LastResize;
    var q := Handle(p, m, recent);
    LastResizeConcat(Queued(p), [m]);
    LastResizeConcat(p.waiting, [m]);
    LastResizeOne(m);
    if m.Input? || m.Resize? {
      assert Queued(q) == Queued(p) + [m];
    }
  }

  lemma {:induction false} HandleAllLast(p: Pipe, ms: seq<Message>)
    requires !Dead(HandleAll(p, ms)) && (p.waiting != [] ==> p.checking) && !p.checking
    ensures var q := HandleAll(p, ms);
            && LastResize(Queued(q)) == Or(LastResize(ms), LastResize(Queued(p)))
            && q == p.(checking := q.checking, waiting := q.waiting, ready := q.ready)
            && q.waiting == []
    decreases |ms|
  {
    hide Queued, Handle, LastResize;
    if ms == [] {
      assert LastResize(ms) == None by { LastResizeOfNone(); }
    } else {
      DeadStays(Handle(p, ms[0], true), ms[1..]);
      HandleLast(p, ms[0], true);
      HandleAllLast(Handle(p, ms[0], true), ms[1..]);
      assert ms == [ms[0]] + ms[1..];
      LastResizeConcat([ms[0]], ms[1..]);
      LastResizeOne(ms[0]);
    }
  }

  lemma LastResizeOfNone()
    ensures LastResize([]) == None
  {
  }

  lemma {:induction false} DeadStays(p: Pipe, ms: seq<Message>)
    ensures Dead(p) ==> Dead(HandleAll(p, ms))
    decreases |ms|
  {
    if ms != [] { DeadStays(Handle(p, ms[0], true), ms[1..]); }
  }

  // ---- Each event keeps the size on its way ----

  lemma BufferLast(p: Pipe, m: Message)
    requires |p.early| < EARLY_MESSAGE_BUFFER
    ensures LastResize(Buffer(p, m).early) == Or(SizeOf(m), LastResize(p.early))
  {
    LastResizeConcat(p.early, [m]);
    LastResizeOne(m);
  }

  lemma ArriveSized(p: Pipe, m: Message, recent: bool)
    requires Waits(p) && PtyFollowsWindow(p) && !Dead(Arrive(p, m, recent))
    requires p.phase == Live || |p.early| < EARLY_MESSAGE_BUFFER
    ensures var q := Arrive(p, m, recent);
            Coming(q) == Or(SizeOf(m), Coming(p)) && Waits(q) && PtyFollowsWindow(q)
  {
    hide Queued, LastResize;
    match p.phase {
      case Early => BufferLast(p, m);
      case Awaiting =>
        BufferLast(p, m);
        HandleLast(Buffer(p, m), m, recent);
        HandleLive(Buffer(p, m), m, recent);
      case Live =>
        HandleLast(p, m, recent);
        HandleLive(p, m, recent);
    }
  }

  lemma HandleLive(p: Pipe, m: Message, recent: bool)
    ensures !Dead(Handle(p, m, recent)) ==> !Dead(p)
  {
  }

  lemma DeliverSized(l: Link, recent: bool)
    requires Sized(l) && l.up != []
    ensures Sized(Deliver(l, recent))
  {
    hide Queued, LastResize, Arrive, Waits;
    var m := l.up[0];
    if Intact(Deliver(l, recent)) {
      ArriveDead(l.pipe, m, recent);
      ArriveSized(l.pipe, m, recent);
      assert l.up == [m] + l.up[1..];
      LastResizeConcat([m], l.up[1..]);
      LastResizeOne(m);
    }
  }

  lemma ArriveDead(p: Pipe, m: Message, recent: bool)
    ensures !Dead(Arrive(p, m, recent)) ==> !Dead(p)
  {
    hide Handle;
    HandleLive(p, m, recent);
    HandleLive(Buffer(p, m), m, recent);
  }

  lemma SettleSized(p: Pipe, verdict: Verdict)
    requires Waits(p) && PtyFollowsWindow(p) && p.checking && !Dead(Settle(p, verdict))
    ensures var q := Settle(p, verdict);
            Coming(q) == Coming(p) && Waits(q) && PtyFollowsWindow(q)
  {
    hide LastResize, HandleAll;
    var q := p.(checking := false, waiting := [], ready := p.ready + Reactions(p.waiting, true));
    assert Queued(q) == Queued(p);
    if p.phase == Awaiting {
      var early := q.(phase := Live, early := []);
      assert Settle(p, verdict) == Release(q);
      DeadStays(early, p.early);
      HandleAllLast(early, p.early);
      assert Queued(early) == p.waiting;
      assert Queued(Release(q)) == Queued(HandleAll(early, p.early));
    }
  }

  lemma CallbackSized(p: Pipe, overfull: bool)
    requires Waits(p) && PtyFollowsWindow(p) && p.ready != [] && !Dead(RunCallback(p, overfull)) && p.ready[0].allowed
    ensures var q := RunCallback(p, overfull);
            Coming(q) == Coming(p) && Waits(q) && PtyFollowsWindow(q)
  {
    hide LastResize;
    var q := RunCallback(p, overfull);
    CallbackQueue(p, overfull);
    LastResizeConcat([p.ready[0].message], Queued(q));
    LastResizeOne(p.ready[0].message);
  }

  lemma OpenSized(p: Pipe)
    requires Waits(p) && PtyFollowsWindow(p)
    ensures Waits(OpenStream(p)) && PtyFollowsWindow(OpenStream(p)) && Coming(OpenStream(p)) == Coming(p)
    ensures Waits(RequestShell(p)) && PtyFollowsWindow(RequestShell(p)) && Coming(RequestShell(p)) == Coming(p)
  {
    assert Queued(OpenStream(p)) == Queued(p);
    assert Queued(RequestShell(p)) == Queued(p);
  }

  lemma SendSized(l: Link, m: Message, sent: nat, resized: Option<Size>)
    requires Sized(l) && resized == Or(SizeOf(m), l.resized)
    ensures Sized(OnWire(l, m).(sent := sent, resized := resized))
  {
    hide LastResize;
    LastResizeConcat(l.up, [m]);
    LastResizeOne(m);
  }

  lemma ListenSized(p: Pipe)
    requires Waits(p) && PtyFollowsWindow(p)
    ensures Waits(Listen(p)) && PtyFollowsWindow(Listen(p)) && Coming(Listen(p)) == Coming(p)
  {
    assert LastResize([]) == None;
  }

  lemma RecheckSized(p: Pipe)
    requires Waits(p) && PtyFollowsWindow(p) && p.phase == Live
    ensures var q := p.(checking := true); Waits(q) && PtyFollowsWindow(q) && Coming(q) == Coming(p)
  {
    assert Queued(p.(checking := true)) == Queued(p);
  }

  lemma SettleDead(p: Pipe, verdict: Verdict)
    ensures Dead(p) ==> Dead(Settle(p, verdict))
  {
    if p.checking {
      var q := p.(checking := false, waiting := [], ready := p.ready + Reactions(p.waiting, verdict == Allowed
        && !p.stopped));
      DeadStays(q.(phase := Live, early := []), p.early);
    }
  }

  lemma StepSized(l: Link, e: Event)
    requires Ordered(l) && Sized(l)
    ensures Sized(Step(l, e))
  {
    hide LastResize, Ordered, Queued, Waits, PtyFollowsWindow, Settle, Deliver, OnWire, Coming, RunCallback, Listen, OpenStream, RequestShell;
    if Intact(Step(l, e)) {
      match e {
        case Sends(bytes) =>
          if l.told && l.sent + bytes <= |l.accepted| {
            SendSized(l, Input(l.accepted[l.sent..l.sent + bytes]), l.sent + bytes, l.resized);
            SendKeeps(l, Input(l.accepted[l.sent..l.sent + bytes]));
          }
        case SendsResize(size) => SendSized(l, Resize(size), l.sent, Some(size)); SendKeeps(l, Resize(size));
        case SendsOther(m) => if !m.Resize? { SendSized(l, m, l.sent, l.resized); SendKeeps(l, m); }
        case Delivers(recent) => if l.up != [] { DeliverSized(l, recent); }
        case StartsListening => ListenKeeps(l.pipe); ListenSized(l.pipe);
        case Settles(verdict) =>
          SettleDead(l.pipe, verdict);
          if l.pipe.checking { SettleSized(l.pipe, verdict); } else { SettleKeeps(l.pipe, verdict); }
        case Rechecks => if l.pipe.phase == Live { RecheckSized(l.pipe); }
        case RunsCallback(overfull) =>
          CallbackDead(l.pipe, overfull);
          if l.pipe.ready != [] { ReadyAllowed(l); CallbackSized(l.pipe, overfull); }
        case RequestsShell => OpenKeeps(l.pipe); OpenSized(l.pipe);
        case OpensStream => OpenKeeps(l.pipe); OpenSized(l.pipe);
        case _ =>
      }
    }
  }

  lemma SendKeeps(l: Link, m: Message)
    ensures OnWire(l, m) == l.(up := OnWire(l, m).up)
  {
  }

  lemma ListenKeeps(p: Pipe)
    ensures Dead(Listen(p)) <==> Dead(p)
  {
  }

  lemma SettleKeeps(p: Pipe, verdict: Verdict)
    requires !p.checking
    ensures Settle(p, verdict) == p
  {
  }

  lemma OpenKeeps(p: Pipe)
    ensures (Dead(OpenStream(p)) <==> Dead(p)) && (Dead(RequestShell(p)) <==> Dead(p))
  {
  }

  lemma CallbackDead(p: Pipe, overfull: bool)
    ensures Dead(p) ==> Dead(RunCallback(p, overfull))
    ensures p.ready == [] ==> RunCallback(p, overfull) == p
  {
  }

  lemma ReadyAllowed(l: Link)
    requires Ordered(l) && l.pipe.ready != [] && !Dead(l.pipe)
    ensures l.pipe.ready[0].allowed
  {
  }

  lemma {:induction false} RunSized(l: Link, es: seq<Event>)
    requires Ordered(l) && Sized(l)
    ensures Sized(Run(l, es))
    decreases |es|
  {
    hide Ordered, Sized, Step;
    if es != [] {
      StepOrdered(l, es[0]);
      StepSized(l, es[0]);
      RunSized(Step(l, es[0]), es[1..]);
    }
  }

  /**
   * In every run of a connection that lives and whose early buffer held what came early: once the
   * wire and the gateway's queues are empty and the shell is open, its PTY has the last size the
   * browser sent (the shell's own, if it sent none).
   */
  lemma LastResizeWins(stream: bool, window: Option<Size>, es: seq<Event>)
    ensures var l := Run(NewLink(stream, window), es);
            Settled(l) && !l.overflowed && l.pipe.phase == Live && l.pipe.stream ==> l.pipe.pty == l.resized
  {
    hide Ordered, Run, Sized;
    NewLinkOrdered(stream, window);
    NewLinkSized(stream, window);
    RunSized(NewLink(stream, window), es);
    var l := Run(NewLink(stream, window), es);
    SizedSettled(l);
  }

  lemma NewLinkSized(stream: bool, window: Option<Size>)
    ensures Sized(NewLink(stream, window))
  {
  }

  lemma SizedSettled(l: Link)
    requires Sized(l)
    ensures Settled(l) && !l.overflowed && l.pipe.phase == Live && l.pipe.stream ==> l.pipe.pty == l.resized
  {
    if Settled(l) { assert Queued(l.pipe) == []; }
  }

  // ---- When the early buffer overflows ----

  function ArriveAll(p: Pipe, ms: seq<Message>): Pipe
    decreases |ms|
  {
    if ms == [] then p else ArriveAll(Arrive(p, ms[0], false), ms[1..])
  }

  /** Resizes, pings and output-acks: what a browser sends before it knows the shell. */
  ghost predicate EarlyOnly(ms: seq<Message>) {
    forall i :: 0 <= i < |ms| ==> ms[i].Resize? || ms[i].Other?
  }

  function FirstHeld(ms: seq<Message>): seq<Message> {
    ms[..Min(|ms|, EARLY_MESSAGE_BUFFER)]
  }

  lemma FirstHeldStep(early: seq<Message>, ms: seq<Message>)
    requires ms != [] && |early| <= EARLY_MESSAGE_BUFFER
    ensures FirstHeld((if |early| < EARLY_MESSAGE_BUFFER then early + [ms[0]] else early) + ms[1..]) == FirstHeld(early + ms)
  {
    if |early| < EARLY_MESSAGE_BUFFER { assert (early + [ms[0]]) + ms[1..] == early + ms; }
  }

  lemma FirstHeldAll(early: seq<Message>)
    requires |early| <= EARLY_MESSAGE_BUFFER
    ensures FirstHeld(early + []) == early
  {
    assert early + [] == early;
  }

  lemma {:induction false} BufferAll(p: Pipe, ms: seq<Message>)
    requires p.phase == Early && |p.early| <= EARLY_MESSAGE_BUFFER
    ensures ArriveAll(p, ms) == p.(early := FirstHeld(p.early + ms))
    decreases |ms|
  {
    hide FirstHeld;
    if ms == [] {
      FirstHeldAll(p.early);
    } else {
      BufferAll(Arrive(p, ms[0], false), ms[1..]);
      FirstHeldStep(p.early, ms);
    }
  }

  lemma {:induction false} AwaitAll(p: Pipe, ms: seq<Message>)
    requires p.phase == Awaiting && p.checking && !Dead(p) && |p.early| <= EARLY_MESSAGE_BUFFER && EarlyOnly(ms)
    ensures var q := ArriveAll(p, ms);
            && q == p.(early := FirstHeld(p.early + ms), waiting := q.waiting)
            && LastResize(q.waiting) == Or(LastResize(ms), LastResize(p.waiting))
    decreases |ms|
  {
    hide LastResize, FirstHeld;
    if ms == [] {
      FirstHeldAll(p.early);
      LastResizeOfNone();
    } else {
      var q := Arrive(p, ms[0], false);
      AwaitAll(q, ms[1..]);
      LastResizeConcat(p.waiting, [ms[0]]);
      LastResizeConcat([ms[0]], ms[1..]);
      LastResizeOne(ms[0]);
      assert ms == [ms[0]] + ms[1..];
      FirstHeldStep(p.early, ms);
    }
  }

  /** The connection after `early` reached it, the first `k` of them before the second listener did. */
  function AfterEarly(stream: bool, window: Option<Size>, early: seq<Message>, k: nat): Pipe
    requires k <= |early|
  {
    Settle(ArriveAll(Listen(ArriveAll(Fresh(stream, window), early[..k])), early[k..]), Allowed)
  }

  lemma {:induction false} HandleEarly(p: Pipe, ms: seq<Message>)
    requires !Dead(p) && EarlyOnly(ms)
    ensures !Dead(HandleAll(p, ms))
    decreases |ms|
  {
    if ms != [] { HandleEarly(Handle(p, ms[0], true), ms[1..]); }
  }

  /** All queued reactions run. */
  function Drain(p: Pipe): Pipe
    decreases |p.ready|
  {
    if p.ready == [] then p else Drain(RunCallback(p, false))
  }

  /** The shell is there: a resumed one was, a new one is requested and opens. */
  function Opened(p: Pipe): Pipe {
    if p.stream then p else OpenStream(RequestShell(p))
  }

  /** No input is queued, and all that is queued may run. */
  ghost predicate Drainable(p: Pipe) {
    && !Dead(p) && p.phase == Live && p.waiting == [] && Waits(p) && PtyFollowsWindow(p) && p.requested == None
    && NoInput(Queued(p)) && QueuesOk(p)
  }

  lemma DrainStep(p: Pipe)
    requires Drainable(p) && p.ready != []
    ensures Drainable(RunCallback(p, false)) && Coming(RunCallback(p, false)) == Coming(p)
  {
    hide LastResize;
    assert Queued(p)[0] == p.ready[0].message;
    CallbackQueue(p, false);
    NoInputTail(p.ready[0].message, Queued(RunCallback(p, false)));
    CallbackSized(p, false);
  }

  /** Once the queued reactions ran and the shell is there, its PTY has the size that was on its way. */
  lemma {:induction false} DrainedPty(p: Pipe)
    requires Drainable(p)
    ensures Opened(Drain(p)).stream && Opened(Drain(p)).pty == Coming(p)
    decreases |p.ready|
  {
    if p.ready == [] {
      assert Queued(p) == [];
      LastResizeOfNone();
    } else {
      CallbackQueue(p, false);
      DrainStep(p);
      hide Drainable, Coming;
      DrainedPty(RunCallback(p, false));
    }
  }

  /** Before the authorization settles: what came early is buffered, what came late waits as well. */
  lemma BeforeSettling(stream: bool, window: Option<Size>, early: seq<Message>, k: nat)
    requires k <= |early| && EarlyOnly(early)
    ensures var p := ArriveAll(Listen(ArriveAll(Fresh(stream, window), early[..k])), early[k..]);
            && p == Fresh(stream, window).(phase := Awaiting, checking := true, early := FirstHeld(early), waiting := p.waiting)
            && LastResize(p.waiting) == LastResize(early[k..]) && NoInput(p.waiting)
  {
    hide LastResize, FirstHeld, ArriveAll;
    var p0 := Fresh(stream, window);
    assert p0.early + early[..k] == early[..k];
    BufferAll(p0, early[..k]);
    FirstHeldIsShort(early[..k]);
    var p1 := Listen(ArriveAll(p0, early[..k]));
    NoInputHeld(early[..k]);
    AwaitAll(p1, early[k..]);
    AwaitedHoldsNoInput(p1, early[k..]);
    FirstHeldTwice(early[..k], early[k..]);
    assert early[..k] + early[k..] == early;
    LastResizeOfNone();
  }

  lemma FirstHeldIsShort(ms: seq<Message>)
    ensures |FirstHeld(ms)| <= EARLY_MESSAGE_BUFFER
  {
  }

  lemma NoInputHeld(ms: seq<Message>)
    requires EarlyOnly(ms)
    ensures NoInput(FirstHeld(ms)) && NoInput([])
  {
  }

  lemma FirstHeldTwice(a: seq<Message>, b: seq<Message>)
    ensures FirstHeld(FirstHeld(a) + b) == FirstHeld(a + b)
  {
    if |a| <= EARLY_MESSAGE_BUFFER {
      assert FirstHeld(a) == a;
    } else {
      assert FirstHeld(FirstHeld(a) + b) == FirstHeld(a);
    }
  }

  lemma EarlyOutcome(stream: bool, window: Option<Size>, early: seq<Message>, k: nat)
    requires k <= |early| && EarlyOnly(early)
    ensures var p := AfterEarly(stream, window, early, k);
            Drainable(p) && Coming(p) == Or(LastResize(FirstHeld(early)), Or(LastResize(early[k..]), window))
  {
    hide LastResize, HandleAll, ArriveAll;
    BeforeSettling(stream, window, early, k);
    var p := ArriveAll(Listen(ArriveAll(Fresh(stream, window), early[..k])), early[k..]);
    var q := p.(checking := false, waiting := [], ready := p.ready + Reactions(p.waiting, true));
    var live := q.(phase := Live, early := []);
    HandleEarly(live, p.early);
    HandleAllLast(live, p.early);
    assert Queued(live) == p.waiting;
    HandleAllKeepsInput(live, p.early);
    assert Queued(Release(q)) == Queued(HandleAll(live, p.early));
  }

  lemma {:induction false} AwaitedHoldsNoInput(p: Pipe, ms: seq<Message>)
    requires p.phase == Awaiting && p.checking && EarlyOnly(ms) && NoInput(p.waiting) && NoInput(p.early)
    ensures NoInput(ArriveAll(p, ms).waiting) && NoInput(ArriveAll(p, ms).early)
    decreases |ms|
  {
    if ms != [] { AwaitedHoldsNoInput(Arrive(p, ms[0], false), ms[1..]); }
  }

  /** Nothing but the buffer's limit can spoil the last size: no resize was dropped from the buffer, or dropping it did not matter. */
  predicate EarlyResizeKept(early: seq<Message>, k: nat, window: Option<Size>)
    requires k <= |early|
  {
    var held := LastResize(FirstHeld(early));
    var dropped := LastResize(early[Min(|early|, EARLY_MESSAGE_BUFFER)..]);
    || dropped == None
    || (if held.Some? then held == dropped else LastResize(early[k..]).Some? || window == dropped)
  }

  /**
   * However many messages come early, the PTY ends up with the last size sent exactly when
   * EarlyResizeKept holds; with at most EARLY_MESSAGE_BUFFER of them it always does.
   */
  lemma EarlyLastResizeIff(stream: bool, window: Option<Size>, early: seq<Message>, k: nat)
    requires k <= |early| && EarlyOnly(early)
    ensures Opened(Drain(AfterEarly(stream, window, early, k))).pty == Or(LastResize(early), window)
      <==> EarlyResizeKept(early, k, window)
    ensures |early| <= EARLY_MESSAGE_BUFFER ==> EarlyResizeKept(early, k, window)
  {
    hide LastResize, AfterEarly, Drain, Opened, Drainable, Coming;
    EarlyOutcome(stream, window, early, k);
    DrainedPty(AfterEarly(stream, window, early, k));
    var n := Min(|early|, EARLY_MESSAGE_BUFFER);
    assert early == early[..n] + early[n..] && early == early[..k] + early[k..];
    LastResizeConcat(early[..n], early[n..]);
    LastResizeConcat(early[..k], early[k..]);
    LastResizeOfNone();
  }

  /** Sixteen resizes to 24x80, then one to 50x132 while the authorization is awaited: 24x80 wins. */
  lemma SeventeenthEarlyResizeIsLost()
    ensures var early := seq(16, i => Resize(Size(24, 80))) + [Resize(Size(50, 132))];
            Opened(Drain(AfterEarly(true, None, early, 1))).pty == Some(Size(24, 80)) && LastResize(early) == Some(Size(50, 132))
  {
    var first: seq<Message> := seq(16, i => Resize(Size(24, 80)));
    var early := first + [Resize(Size(50, 132))];
    EarlyOutcome(true, None, early, 1);
    assert FirstHeld(early) == first;
    hide AfterEarly, Drain, Opened, Drainable, Coming;
    DrainedPty(AfterEarly(true, None, early, 1));
  }
}

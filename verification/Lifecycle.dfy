/**
 * The gateway as a state machine: connections that claim, are authorized, attach and go away, and
 * the shells they hold. Claiming, authorizing and attaching are separate steps, because the
 * authorization is awaited; every other handler runs to completion.
 */
module Lifecycle {
  import opened Bytes
  import opened ShellSessions

  /**
   * `Authorizing`: the first authorization is awaited. `Bailed`: the socket was already gone when
   * the shell was claimed, and the shell was given back. `Finished`: the shell had ended by the
   * time the authorization came.
   */
  datatype Phase = Authorizing | Attached | Bailed | Finished

  datatype Conn = Conn(shell: ShellId, resumed: bool, phase: Phase, stopped: bool)

  datatype Verdict = Allowed | Refused | Unavailable

  /** `started`: shells whose SSH connection was begun. */
  datatype Gateway = Gateway(
    ttl: nat, registry: Registry, shells: map<ShellId, Shell>, started: set<ShellId>, conns: map<ConnId, Conn>)

  datatype Event =
    | Connect(c: ConnId, open: bool, keepAlive: bool, request: Option<ShellId>, newId: ShellId,
              user: UserId, server: string, endpoint: string)
    | Authorize(c: ConnId, verdict: Verdict)
    | Recheck(c: ConnId, verdict: Verdict)
    | SocketClosed(c: ConnId)
    | QueueOverflow(c: ConnId)
    | EndMessage(c: ConnId)
    | InvalidMessage(c: ConnId)
    | Backlog(c: ConnId)
    | Drained(c: ConnId)
    | StreamOpens(x: ShellId)
    | Prints(x: ShellId, bytes: nat)
    | ShellGone(x: ShellId)
    | TtlFires(x: ShellId)

  ghost predicate WellFormed(g: Gateway) {
    && (forall c :: c in g.conns ==> g.conns[c].shell in g.shells)
    && (forall x :: x in g.shells && g.shells[x].attachment.Some? ==> g.shells[x].attachment.value in g.conns)
  }

  // ---- The handlers ----

  function Put(g: Gateway, x: ShellId, p: (Registry, Shell)): Gateway {
    g.(registry := p.0, shells := g.shells[x := p.1])
  }

  /** releaseAttachment */
  function Stop(g: Gateway, c: ConnId): Gateway
    requires WellFormed(g) && c in g.conns
  {
    var k := g.conns[c];
    if k.stopped then g else
    var s := g.shells[k.shell];
    g.(conns := g.conns[c := k.(stopped := true)],
       shells := g.shells[k.shell := if s.attachment == Some(c) then s.(attachment := None) else s])
  }

  /** endShellSession; with a notice the attached connection is told, which stops it. */
  function EndIn(g: Gateway, x: ShellId, notice: bool): Gateway
    requires WellFormed(g) && x in g.shells
  {
    var s := g.shells[x];
    var g1 := if notice && !s.ended && s.attachment.Some? then Stop(g, s.attachment.value) else g;
    Put(g1, x, EndShell(g1.registry, g1.shells[x]))
  }

  function DetachIn(g: Gateway, x: ShellId): Gateway
    requires x in g.shells
  {
    Put(g, x, DetachShell(g.ttl, g.registry, g.shells[x]))
  }

  /** stopTerminal: a refusal ends the shell. */
  function StopTerminal(g: Gateway, c: ConnId): Gateway
    requires WellFormed(g) && c in g.conns
  {
    if g.conns[c].stopped then g else EndIn(Stop(g, c), g.conns[c].shell, false)
  }

  /** dropConnection, and the `close` handler: the shell waits for a reconnect when it may. */
  function LetGo(g: Gateway, c: ConnId): Gateway
    requires WellFormed(g) && c in g.conns
  {
    var x := g.conns[c].shell;
    if g.conns[c].stopped then g
    else if g.shells[x].keepAlive then DetachIn(Stop(g, c), x)
    else EndIn(Stop(g, c), x, false)
  }

  /** The shell a connection asks to continue, when it may have it. */
  function Claimed(g: Gateway, e: Event): Option<ShellId>
    requires e.Connect?
  {
    if e.keepAlive && g.ttl > 0 && e.request.Some? && e.request.value in g.shells
       && Claimable(g.registry, g.shells[e.request.value], e.user, e.server, e.endpoint)
    then e.request else None
  }

  /** The claimed shell leaves the connection it was attached to, which is told it was replaced. */
  function TakeOver(g: Gateway, x: ShellId): Gateway
    requires WellFormed(g) && x in g.shells
  {
    var g1 := if g.shells[x].attachment.Some? then Stop(g, g.shells[x].attachment.value) else g;
    Put(g1, x, ClaimShell(g1.registry, g1.shells[x]))
  }

  /** A connection that claimed `x`. */
  function Join(g: Gateway, c: ConnId, x: ShellId, phase: Phase): Gateway {
    g.(conns := g.conns[c := Conn(x, true, phase, false)])
  }

  /** A connection that starts a shell of its own. */
  function Opened(g: Gateway, c: ConnId, s: Shell): Gateway {
    g.(shells := g.shells[s.id := s], conns := g.conns[c := Conn(s.id, false, Authorizing, false)])
  }

  function NewShell(ttl: nat, e: Event): Shell
    requires e.Connect?
  {
    Shell(e.newId, e.user, e.server, e.endpoint, e.keepAlive && ttl > 0, false, None, 0, None, false, false, false)
  }

  function Connected(g: Gateway, e: Event): Gateway
    requires WellFormed(g) && e.Connect? && e.c !in g.conns
  {
    match Claimed(g, e)
    case Some(x) =>
      var g1 := TakeOver(g, x);
      if e.open then Join(g1, e.c, x, Authorizing) else DetachIn(Join(g1, e.c, x, Bailed), x)
    case None =>
      // A shell whose socket is gone before anything was started is simply dropped.
      if !e.open || e.newId in g.shells then g else
      Opened(g, e.c, NewShell(g.ttl, e))
  }

  function Attach(g: Gateway, c: ConnId): Gateway
    requires WellFormed(g) && c in g.conns
  {
    var k := g.conns[c];
    var x := k.shell;
    if k.stopped || g.shells[x].ended then g.(conns := g.conns[c := k.(phase := Finished)])
    else
      var g1 := Put(g, x, AttachShell(g.registry, g.shells[x], c, k.resumed));
      g1.(conns := g.conns[c := k.(phase := Attached)], started := g.started + {x})
  }

  function Finish(g: Gateway, c: ConnId): Gateway {
    if c in g.conns then g.(conns := g.conns[c := g.conns[c].(phase := Finished)]) else g
  }

  function Authorized(g: Gateway, c: ConnId, verdict: Verdict): Gateway
    requires WellFormed(g) && c in g.conns
  {
    match verdict
    case Allowed => Attach(g, c)
    case Refused => Finish(StopTerminal(g, c), c)
    case Unavailable => Finish(LetGo(g, c), c)
  }

  /** Is `c` the connection its shell's output goes to? */
  predicate Feeds(g: Gateway, c: ConnId)
    requires WellFormed(g)
  {
    c in g.conns && !g.conns[c].stopped && g.shells[g.conns[c].shell].attachment == Some(c)
  }

  /** setShellPaused, by the connection the shell's output goes to. */
  function SetPaused(g: Gateway, c: ConnId, paused: bool): Gateway
    requires WellFormed(g) && Feeds(g, c)
  {
    var x := g.conns[c].shell;
    g.(shells := g.shells[x := g.shells[x].(paused := paused)])
  }

  /** One handler runs; an event that cannot happen changes nothing. */
  function Step(g: Gateway, e: Event): Gateway
    requires WellFormed(g)
  {
    match e
    case Connect(c, _, _, _, _, _, _, _) => if c in g.conns then g else Connected(g, e)
    case Authorize(c, verdict) =>
      if c in g.conns && g.conns[c].phase == Authorizing then Authorized(g, c, verdict) else g
    case Recheck(c, verdict) =>
      if c !in g.conns || g.conns[c].phase == Authorizing || verdict == Allowed then g
      else if verdict == Refused then StopTerminal(g, c)
      else LetGo(g, c)
    case SocketClosed(c) => if c in g.conns then LetGo(g, c) else g
    case QueueOverflow(c) => if c in g.conns then LetGo(g, c) else g
    case EndMessage(c) => if c in g.conns then StopTerminal(g, c) else g
    case InvalidMessage(c) => if c in g.conns then StopTerminal(g, c) else g
    case Backlog(c) =>
      if Feeds(g, c) then SetPaused(g, c, true) else g
    case Drained(c) =>
      if Feeds(g, c) then SetPaused(g, c, false) else g
    case StreamOpens(x) =>
      if x in g.shells && x in g.started && !g.shells[x].ended then g.(shells := g.shells[x := g.shells[x].(stream := true)]) else g
    case Prints(x, bytes) =>
      if x in g.shells && g.shells[x].stream then g.(shells := g.shells[x := g.shells[x].(outputEnd := g.shells[x].outputEnd + bytes)]) else g
    case ShellGone(x) => if x in g.shells then EndIn(g, x, true) else g
    case TtlFires(x) => if x in g.shells && g.shells[x].detachTimer then EndIn(g, x, false) else g
  }

  // ---- Registry consistency ----

  ghost function OfUser(detached: set<ShellId>, shells: map<ShellId, Shell>, user: UserId): set<ShellId> {
    set x | x in detached && x in shells && shells[x].userId == user
  }

  ghost predicate CountsExact(r: Registry, shells: map<ShellId, Shell>) {
    forall u :: CountFor(r.byUser, u) == |OfUser(r.detached, shells, u)| && (u in r.byUser ==> r.byUser[u] > 0)
  }

  ghost predicate WithinCaps(r: Registry) {
    |r.detached| <= MAX_DETACHED_SESSIONS && forall u :: CountFor(r.byUser, u) <= MAX_DETACHED_PER_USER
  }

  ghost predicate Members(r: Registry, shells: map<ShellId, Shell>, started: set<ShellId>) {
    && r.detached <= r.resumable <= shells.Keys && started <= shells.Keys
    && (forall x :: x in r.resumable ==> !shells[x].ended && shells[x].keepAlive)
    && (forall x :: x in r.detached ==> shells[x].stream)
    && (forall x :: x in shells ==> shells[x].id == x && (shells[x].detachTimer <==> x in r.detached))
    && (forall x :: x in shells && shells[x].stream ==> x in started)
    && (forall x :: x in shells && x in started && shells[x].keepAlive && !shells[x].ended ==> x in r.resumable)
  }

  ghost predicate RegistryOk(g: Gateway) {
    && Members(g.registry, g.shells, g.started)
    && CountsExact(g.registry, g.shells)
    && WithinCaps(g.registry)
  }

  lemma SameUsers(r: Registry, shells: map<ShellId, Shell>, x: ShellId, s: Shell)
    requires x in shells && s.userId == shells[x].userId && CountsExact(r, shells)
    ensures CountsExact(r, shells[x := s])
  {
    forall u ensures OfUser(r.detached, shells[x := s], u) == OfUser(r.detached, shells, u) {}
  }

  lemma NewShellNotCounted(r: Registry, shells: map<ShellId, Shell>, x: ShellId, s: Shell)
    requires x !in shells && x !in r.detached && CountsExact(r, shells)
    ensures CountsExact(r, shells[x := s])
  {
    forall u ensures OfUser(r.detached, shells[x := s], u) == OfUser(r.detached, shells, u) {}
  }

  lemma UndetachCounts(r: Registry, shells: map<ShellId, Shell>, x: ShellId)
    requires x in shells && CountsExact(r, shells) && WithinCaps(r)
    ensures var r1 := Undetach(r, x, shells[x].userId);
            && CountsExact(r1, shells) && WithinCaps(r1)
            && r1.detached == r.detached - {x} && r1.resumable == r.resumable
  {
    var user := shells[x].userId;
    var r1 := Undetach(r, x, user);
    if x in r.detached {
      forall u
        ensures CountFor(r1.byUser, u) == |OfUser(r1.detached, shells, u)| && (u in r1.byUser ==> r1.byUser[u] > 0)
        ensures CountFor(r1.byUser, u) <= MAX_DETACHED_PER_USER
      {
        var before := OfUser(r.detached, shells, u);
        if u == user {
          assert OfUser(r1.detached, shells, u) == before - {x} && x in before;
        } else {
          assert OfUser(r1.detached, shells, u) == before;
        }
      }
    } else {
      assert r.detached - {x} == r.detached;
    }
  }

  lemma OneMoreOfUser(detached: set<ShellId>, shells: map<ShellId, Shell>, x: ShellId, u: UserId)
    requires x in shells && x !in detached
    ensures |OfUser(detached + {x}, shells, u)| == |OfUser(detached, shells, u)| + if u == shells[x].userId then 1 else 0
  {
    var before := OfUser(detached, shells, u);
    if u == shells[x].userId {
      assert OfUser(detached + {x}, shells, u) == before + {x} && x !in before;
    } else {
      assert OfUser(detached + {x}, shells, u) == before;
    }
  }

  lemma DetachCounts(r: Registry, shells: map<ShellId, Shell>, x: ShellId)
    requires x in shells && x !in r.detached && CountsExact(r, shells) && WithinCaps(r)
    requires RoomLeft(r, shells[x].userId)
    ensures var r1 := r.(detached := r.detached + {x}, byUser := AdjustDetachedCount(r.byUser, shells[x].userId, 1));
            CountsExact(r1, shells) && WithinCaps(r1)
  {
    var user := shells[x].userId;
    var r1 := r.(detached := r.detached + {x}, byUser := AdjustDetachedCount(r.byUser, user, 1));
    forall u
      ensures CountFor(r1.byUser, u) == |OfUser(r1.detached, shells, u)| && (u in r1.byUser ==> r1.byUser[u] > 0)
      ensures CountFor(r1.byUser, u) <= MAX_DETACHED_PER_USER
    {
      OneMoreOfUser(r.detached, shells, x, u);
      hide OfUser;
      assert CountFor(r1.byUser, u) == CountFor(r.byUser, u) + if u == user then 1 else 0;
    }
  }

  /** Ending, detaching, claiming and attaching a shell each keep the registry consistent. */
  lemma EndKeepsRegistry(g: Gateway, x: ShellId)
    requires RegistryOk(g) && x in g.shells
    ensures RegistryOk(Put(g, x, EndShell(g.registry, g.shells[x])))
  {
    UndetachCounts(g.registry, g.shells, x);
    var p := EndShell(g.registry, g.shells[x]);
    SameUsers(p.0, g.shells, x, p.1);
  }

  lemma DetachWellFormed(g: Gateway, x: ShellId)
    requires WellFormed(g) && x in g.shells
    ensures WellFormed(DetachIn(g, x)) && DetachIn(g, x).conns == g.conns
  {
  }

  lemma DetachKeepsRegistry(g: Gateway, x: ShellId)
    requires RegistryOk(g) && x in g.shells
    ensures RegistryOk(DetachIn(g, x))
  {
    var s := g.shells[x];
    var p := DetachShell(g.ttl, g.registry, s);
    var s1 := s.(attachment := None);
    if s1.ended {
      SameUsers(p.0, g.shells, x, p.1);
    } else if !s1.keepAlive || g.ttl == 0 || !s1.stream || !RoomLeft(g.registry, s1.userId) {
      EndKeepsRegistry(g, x);
      assert EndShell(g.registry, s1) == EndShell(g.registry, s);
    } else {
      if x !in g.registry.detached { DetachCounts(g.registry, g.shells, x); }
      SameUsers(p.0, g.shells, x, p.1);
    }
  }

  lemma ClaimKeepsRegistry(g: Gateway, x: ShellId)
    requires RegistryOk(g) && x in g.shells
    ensures RegistryOk(Put(g, x, ClaimShell(g.registry, g.shells[x])))
  {
    UndetachCounts(g.registry, g.shells, x);
    var p := ClaimShell(g.registry, g.shells[x]);
    SameUsers(p.0, g.shells, x, p.1);
  }

  lemma AttachKeepsMembers(g: Gateway, x: ShellId, c: ConnId, resumed: bool)
    requires RegistryOk(g) && x in g.shells && !g.shells[x].ended
    ensures RegistryOk(Put(g, x, AttachShell(g.registry, g.shells[x], c, resumed)).(started := g.started + {x}))
  {
    var p := AttachShell(g.registry, g.shells[x], c, resumed);
    SameUsers(g.registry, g.shells, x, p.1);
    assert CountsExact(p.0, g.shells[x := p.1]);
  }

  lemma AttachKeepsRegistry(g: Gateway, c: ConnId)
    requires WellFormed(g) && RegistryOk(g) && c in g.conns
    ensures WellFormed(Attach(g, c)) && RegistryOk(Attach(g, c))
  {
    hide Members, CountsExact, WithinCaps;
    var x := g.conns[c].shell;
    if !g.conns[c].stopped && !g.shells[x].ended {
      AttachKeepsMembers(g, x, c, g.conns[c].resumed);
    }
  }

  lemma StopKeepsRegistry(g: Gateway, c: ConnId)
    requires WellFormed(g) && RegistryOk(g) && c in g.conns
    ensures WellFormed(Stop(g, c)) && RegistryOk(Stop(g, c))
  {
    if !g.conns[c].stopped {
      var x := g.conns[c].shell;
      SameUsers(g.registry, g.shells, x, Stop(g, c).shells[x]);
    }
  }

  lemma StopKeepsShells(g: Gateway, c: ConnId)
    requires WellFormed(g) && c in g.conns
    ensures Stop(g, c).shells.Keys == g.shells.Keys
  {
  }

  lemma EndInKeepsRegistry(g: Gateway, x: ShellId, notice: bool)
    requires WellFormed(g) && RegistryOk(g) && x in g.shells
    ensures WellFormed(EndIn(g, x, notice)) && RegistryOk(EndIn(g, x, notice))
  {
    var s := g.shells[x];
    if notice && !s.ended && s.attachment.Some? {
      StopKeepsRegistry(g, s.attachment.value);
      EndKeepsRegistry(Stop(g, s.attachment.value), x);
    } else {
      EndKeepsRegistry(g, x);
    }
  }

  lemma LetGoKeepsRegistry(g: Gateway, c: ConnId)
    requires WellFormed(g) && RegistryOk(g) && c in g.conns
    ensures WellFormed(LetGo(g, c)) && RegistryOk(LetGo(g, c))
    ensures WellFormed(StopTerminal(g, c)) && RegistryOk(StopTerminal(g, c))
  {
    hide Members, CountsExact, WithinCaps, DetachIn, EndIn, Stop;
    var x := g.conns[c].shell;
    if !g.conns[c].stopped {
      StopKeepsRegistry(g, c);
      StopKeepsShells(g, c);
      EndInKeepsRegistry(Stop(g, c), x, false);
      DetachKeepsRegistry(Stop(g, c), x);
      DetachWellFormed(Stop(g, c), x);
    }
  }

  lemma NewShellKeepsRegistry(g: Gateway, x: ShellId, s: Shell)
    requires RegistryOk(g) && x !in g.shells
    requires s.id == x && !s.stream && !s.detachTimer
    ensures RegistryOk(g.(shells := g.shells[x := s]))
  {
    NewShellNotCounted(g.registry, g.shells, x, s);
  }

  lemma TakeOverKeepsRegistry(g: Gateway, x: ShellId)
    requires WellFormed(g) && RegistryOk(g) && x in g.shells
    ensures WellFormed(TakeOver(g, x)) && RegistryOk(TakeOver(g, x))
    ensures TakeOver(g, x).shells.Keys == g.shells.Keys && TakeOver(g, x).conns.Keys == g.conns.Keys
  {
    hide Members, CountsExact, WithinCaps;
    if g.shells[x].attachment.Some? {
      StopKeepsRegistry(g, g.shells[x].attachment.value);
      ClaimKeepsRegistry(Stop(g, g.shells[x].attachment.value), x);
    } else {
      ClaimKeepsRegistry(g, x);
    }
  }

  lemma JoinKeepsRegistry(g: Gateway, c: ConnId, x: ShellId, phase: Phase)
    requires WellFormed(g) && RegistryOk(g) && x in g.shells && c !in g.conns
    ensures WellFormed(Join(g, c, x, phase)) && RegistryOk(Join(g, c, x, phase)) && Join(g, c, x, phase).shells == g.shells
  {
  }

  lemma ConnectKeepsRegistry(g: Gateway, e: Event)
    requires WellFormed(g) && RegistryOk(g) && e.Connect? && e.c !in g.conns
    ensures WellFormed(Connected(g, e)) && RegistryOk(Connected(g, e))
  {
    hide Members, CountsExact, WithinCaps, DetachIn, TakeOver, Join;
    match Claimed(g, e)
    case Some(x) =>
      TakeOverKeepsRegistry(g, x);
      if e.open {
        JoinKeepsRegistry(TakeOver(g, x), e.c, x, Authorizing);
      } else {
        JoinKeepsRegistry(TakeOver(g, x), e.c, x, Bailed);
        DetachKeepsRegistry(Join(TakeOver(g, x), e.c, x, Bailed), x);
        DetachWellFormed(Join(TakeOver(g, x), e.c, x, Bailed), x);
      }
    case None =>
      if e.newId !in g.shells { NewShellKeepsRegistry(g, e.newId, NewShell(g.ttl, e)); }
  }

  lemma TouchKeepsRegistry(g: Gateway, x: ShellId, s: Shell)
    requires WellFormed(g) && RegistryOk(g) && x in g.shells
    requires s == g.shells[x].(paused := s.paused, outputEnd := s.outputEnd, stream := s.stream)
    requires s.stream == g.shells[x].stream || (s.stream && x in g.started)
    ensures WellFormed(g.(shells := g.shells[x := s])) && RegistryOk(g.(shells := g.shells[x := s]))
  {
    SameUsers(g.registry, g.shells, x, s);
  }

  lemma FinishKeepsRegistry(g: Gateway, c: ConnId)
    requires WellFormed(g) && RegistryOk(g)
    ensures WellFormed(Finish(g, c)) && RegistryOk(Finish(g, c))
  {
  }

  lemma PauseKeepsRegistry(g: Gateway, c: ConnId, paused: bool)
    requires WellFormed(g) && RegistryOk(g) && Feeds(g, c)
    ensures var g1 := SetPaused(g, c, paused); WellFormed(g1) && RegistryOk(g1)
  {
    TouchKeepsRegistry(g, g.conns[c].shell, g.shells[g.conns[c].shell].(paused := paused));
  }

  lemma AuthorizedKeepsRegistry(g: Gateway, c: ConnId, verdict: Verdict)
    requires WellFormed(g) && RegistryOk(g) && c in g.conns
    ensures WellFormed(Authorized(g, c, verdict)) && RegistryOk(Authorized(g, c, verdict))
  {
    match verdict
    case Allowed => AttachKeepsRegistry(g, c);
    case Refused => LetGoKeepsRegistry(g, c); FinishKeepsRegistry(StopTerminal(g, c), c);
    case Unavailable => LetGoKeepsRegistry(g, c); FinishKeepsRegistry(LetGo(g, c), c);
  }

  lemma StepKeepsRegistry(g: Gateway, e: Event)
    requires WellFormed(g) && RegistryOk(g)
    ensures WellFormed(Step(g, e)) && RegistryOk(Step(g, e))
  {
    hide RegistryOk, WellFormed, LetGo, StopTerminal, Authorized, Connected, EndIn;
    match e {
      case Connect(c, _, _, _, _, _, _, _) => if c !in g.conns { ConnectKeepsRegistry(g, e); }
      case Authorize(c, verdict) => if c in g.conns { AuthorizedKeepsRegistry(g, c, verdict); }
      case Recheck(c, _) => if c in g.conns { LetGoKeepsRegistry(g, c); }
      case SocketClosed(c) => if c in g.conns { LetGoKeepsRegistry(g, c); }
      case QueueOverflow(c) => if c in g.conns { LetGoKeepsRegistry(g, c); }
      case EndMessage(c) => if c in g.conns { LetGoKeepsRegistry(g, c); }
      case InvalidMessage(c) => if c in g.conns { LetGoKeepsRegistry(g, c); }
      case Backlog(c) => if Feeds(g, c) { PauseKeepsRegistry(g, c, true); }
      case Drained(c) => if Feeds(g, c) { PauseKeepsRegistry(g, c, false); }
      case StreamOpens(x) =>
        if x in g.shells && x in g.started && !g.shells[x].ended { TouchKeepsRegistry(g, x, g.shells[x].(stream := true)); }
      case Prints(x, bytes) =>
        if x in g.shells { TouchKeepsRegistry(g, x, g.shells[x].(outputEnd := g.shells[x].outputEnd + bytes)); }
      case ShellGone(x) => if x in g.shells { EndInKeepsRegistry(g, x, true); }
      case TtlFires(x) => if x in g.shells { EndInKeepsRegistry(g, x, false); }
    }
  }

  // ---- Runs ----

  const IDLE: Registry := Registry({}, {}, map[])

  function Start(ttl: nat): (g: Gateway)
    ensures WellFormed(g)
  {
    Gateway(ttl, IDLE, map[], {}, map[])
  }

  ghost function Run(g: Gateway, es: seq<Event>): (r: Gateway)
    requires WellFormed(g) && RegistryOk(g)
    ensures WellFormed(r) && RegistryOk(r)
    decreases |es|
  {
    if es == [] then g else
    StepKeepsRegistry(g, es[0]);
    Run(Step(g, es[0]), es[1..])
  }

  lemma StartOk(ttl: nat)
    ensures RegistryOk(Start(ttl))
  {
    forall u ensures OfUser({}, map[], u) == {} {}
  }

  /**
   * Whatever happens, in whatever order: detached shells are resumable ones; every resumable shell
   * is live and keep-alive; every detached one has a stream; its TTL timer is armed exactly then;
   * the per-user counts are exact, with no zero entries; and the caps hold.
   */
  lemma RegistryConsistentInEveryRun(ttl: nat, es: seq<Event>)
    ensures RegistryOk(Start(ttl))
    ensures RegistryOk(Run(Start(ttl), es))
  {
    StartOk(ttl);
  }

  /** Shells are never forgotten, keep whose they are and what they run on, and an ended one stays ended. */
  ghost predicate Grows(g: Gateway, h: Gateway) {
    forall x :: x in g.shells ==> x in h.shells && (g.shells[x].ended ==> h.shells[x].ended) && SameOwner(g.shells[x], h.shells[x])
  }

  ghost predicate SameOwner(s: Shell, k: Shell) {
    k.id == s.id && k.userId == s.userId && k.serverId == s.serverId && k.endpointHash == s.endpointHash && k.keepAlive == s.keepAlive
  }

  lemma StopGrows(g: Gateway, c: ConnId)
    requires WellFormed(g) && c in g.conns
    ensures Grows(g, Stop(g, c)) && WellFormed(Stop(g, c))
  {
    StopConns(g, c);
    var x := g.conns[c].shell;
    assert x in g.shells;
    SameGrows(g);
    PutGrows(g, x, (g.registry, g.shells[x].(attachment := None)));
    hide Grows, WellFormed;
    StopShells(g, c);
    if Stop(g, c).shells == g.shells {
      SameShellsGrow(g, g, Stop(g, c));
    } else {
      SameShellsGrow(g, Put(g, x, (g.registry, g.shells[x].(attachment := None))), Stop(g, c));
    }
  }

  lemma StopShells(g: Gateway, c: ConnId)
    requires WellFormed(g) && c in g.conns
    ensures var h, x := Stop(g, c), g.conns[c].shell;
            x in g.shells && (h.shells == g.shells || h.shells == g.shells[x := g.shells[x].(attachment := None)])
  {
    var x := g.conns[c].shell;
    assert g.shells[x := g.shells[x]] == g.shells;
  }

  lemma GrowsTwice(g: Gateway, h: Gateway, i: Gateway)
    requires Grows(g, h) && Grows(h, i)
    ensures Grows(g, i)
  {
  }

  lemma PutGrows(g: Gateway, x: ShellId, p: (Registry, Shell))
    requires x in g.shells && (g.shells[x].ended ==> p.1.ended) && SameOwner(g.shells[x], p.1)
    ensures Grows(g, Put(g, x, p))
  {
  }

  lemma EndInGrows(g: Gateway, x: ShellId, notice: bool)
    requires WellFormed(g) && x in g.shells
    ensures Grows(g, EndIn(g, x, notice))
  {
    SameGrows(g);
    var g1 := if notice && !g.shells[x].ended && g.shells[x].attachment.Some? then Stop(g, g.shells[x].attachment.value) else g;
    if notice && !g.shells[x].ended && g.shells[x].attachment.Some? { StopGrows(g, g.shells[x].attachment.value); }
    assert x in g1.shells;
    PutGrows(g1, x, EndShell(g1.registry, g1.shells[x]));
    hide Stop, Grows, EndShell;
    GrowsTwice(g, g1, EndIn(g, x, notice));
  }

  lemma DetachGrows(g: Gateway, x: ShellId)
    requires x in g.shells
    ensures Grows(g, DetachIn(g, x))
  {
    PutGrows(g, x, DetachShell(g.ttl, g.registry, g.shells[x]));
  }

  lemma LetGoGrows(g: Gateway, c: ConnId)
    requires WellFormed(g) && c in g.conns
    ensures Grows(g, LetGo(g, c)) && Grows(g, StopTerminal(g, c))
  {
    var x := g.conns[c].shell;
    SameGrows(g);
    StopGrows(g, c);
    var h := Stop(g, c);
    assert x in h.shells;
    hide Stop, EndIn, DetachIn, Grows, WellFormed;
    if !g.conns[c].stopped {
      EndInGrows(h, x, false);
      GrowsTwice(g, h, EndIn(h, x, false));
      DetachGrows(h, x);
      GrowsTwice(g, h, DetachIn(h, x));
    }
  }

  lemma TakeOverGrows(g: Gateway, x: ShellId)
    requires WellFormed(g) && x in g.shells
    ensures Grows(g, TakeOver(g, x))
  {
    SameGrows(g);
    var g1 := if g.shells[x].attachment.Some? then Stop(g, g.shells[x].attachment.value) else g;
    if g.shells[x].attachment.Some? { StopGrows(g, g.shells[x].attachment.value); }
    assert x in g1.shells;
    PutGrows(g1, x, ClaimShell(g1.registry, g1.shells[x]));
    hide Stop, Grows, ClaimShell;
    GrowsTwice(g, g1, TakeOver(g, x));
  }

  lemma SameShellsGrow(g: Gateway, h: Gateway, i: Gateway)
    requires Grows(g, h) && i.shells == h.shells
    ensures Grows(g, i)
  {
  }

  lemma ConnectGrows(g: Gateway, e: Event)
    requires WellFormed(g) && e.Connect? && e.c !in g.conns
    ensures Grows(g, Connected(g, e))
  {
    SameGrows(g);
    match Claimed(g, e)
    case Some(x) =>
      ClaimedIsKnown(g, e);
      TakeOverGrows(g, x);
      var h := Join(TakeOver(g, x), e.c, x, Bailed);
      SameShellsGrow(g, TakeOver(g, x), Connected(g, e.(open := true)));
      SameShellsGrow(g, TakeOver(g, x), h);
      assert x in TakeOver(g, x).shells;
      DetachGrows(h, x);
      hide TakeOver, Grows, DetachIn, Claimed;
      GrowsTwice(g, h, DetachIn(h, x));
    case None =>
  }

  lemma AuthorizedGrows(g: Gateway, c: ConnId, verdict: Verdict)
    requires WellFormed(g) && c in g.conns
    ensures Grows(g, Authorized(g, c, verdict))
  {
    hide LetGo, StopTerminal;
    LetGoGrows(g, c);
  }

  lemma PauseGrows(g: Gateway, c: ConnId, paused: bool)
    requires WellFormed(g) && Feeds(g, c)
    ensures Grows(g, SetPaused(g, c, paused))
  {
  }

  lemma SameGrows(g: Gateway)
    ensures Grows(g, g)
  {
  }

  lemma TouchGrows(g: Gateway, x: ShellId, s: Shell)
    requires x in g.shells && s.ended == g.shells[x].ended && SameOwner(g.shells[x], s)
    ensures Grows(g, g.(shells := g.shells[x := s]))
  {
  }

  lemma StepGrows(g: Gateway, e: Event)
    requires WellFormed(g)
    ensures Grows(g, Step(g, e))
  {
    SameGrows(g);
    hide Grows, WellFormed, LetGo, StopTerminal, Connected, EndIn, Authorized, SetPaused, Feeds;
    match e {
      case Connect(c, _, _, _, _, _, _, _) => if c !in g.conns { ConnectGrows(g, e); }
      case Authorize(c, verdict) => if c in g.conns { AuthorizedGrows(g, c, verdict); }
      case Recheck(c, _) => if c in g.conns { LetGoGrows(g, c); }
      case SocketClosed(c) => if c in g.conns { LetGoGrows(g, c); }
      case QueueOverflow(c) => if c in g.conns { LetGoGrows(g, c); }
      case EndMessage(c) => if c in g.conns { LetGoGrows(g, c); }
      case InvalidMessage(c) => if c in g.conns { LetGoGrows(g, c); }
      case ShellGone(x) => if x in g.shells { EndInGrows(g, x, true); }
      case TtlFires(x) => if x in g.shells { EndInGrows(g, x, false); }
      case Backlog(c) => if Feeds(g, c) { PauseGrows(g, c, true); }
      case Drained(c) => if Feeds(g, c) { PauseGrows(g, c, false); }
      case StreamOpens(x) => if x in g.shells { TouchGrows(g, x, g.shells[x].(stream := true)); }
      case Prints(x, bytes) => if x in g.shells { TouchGrows(g, x, g.shells[x].(outputEnd := g.shells[x].outputEnd + bytes)); }
    }
  }

  /** An ended shell stays ended and is in neither map ever after. */
  lemma {:induction false} EndedNeverReturns(g: Gateway, es: seq<Event>, x: ShellId)
    requires WellFormed(g) && RegistryOk(g) && x in g.shells && g.shells[x].ended
    ensures var r := Run(g, es);
            x in r.shells && r.shells[x].ended && x !in r.registry.resumable && x !in r.registry.detached
    decreases |es|
  {
    if es != [] {
      StepKeepsRegistry(g, es[0]);
      StepGrows(g, es[0]);
      EndedNeverReturns(Step(g, es[0]), es[1..], x);
    }
  }

  // ---- No shell is orphaned ----

  /** The connection has the shell: it is being authorized for it or attached to it. */
  ghost predicate Holds(g: Gateway, c: ConnId, x: ShellId) {
    c in g.conns && g.conns[c].shell == x && !g.conns[c].stopped && g.conns[c].phase in {Authorizing, Attached}
  }

  ghost predicate OnlyHolder(g: Gateway, c: ConnId, x: ShellId) {
    Holds(g, c, x) && forall d :: Holds(g, d, x) ==> d == c
  }

  /** Detached: nobody has it, its TTL timer is armed, and its program is not paused. */
  ghost predicate WaitsDetached(g: Gateway, x: ShellId)
    requires x in g.shells
  {
    && x in g.registry.detached
    && g.shells[x].detachTimer && !g.shells[x].paused && g.shells[x].attachment == None
    && forall c :: !Holds(g, c, x)
  }

  /** Exactly one connection has it, and its output goes there once that connection is attached. */
  ghost predicate HeldBy(g: Gateway, c: ConnId, x: ShellId)
    requires x in g.shells
  {
    && x !in g.registry.detached && !g.shells[x].detachTimer
    && OnlyHolder(g, c, x)
    && g.shells[x].attachment == if g.conns[c].phase == Attached then Some(c) else None
  }

  ghost predicate Placed(g: Gateway, x: ShellId)
    requires x in g.shells
  {
    WaitsDetached(g, x) || exists c :: HeldBy(g, c, x)
  }

  /** Every live shell is held by exactly one connection or waits detached. */
  ghost predicate NoOrphans(g: Gateway) {
    && (forall x :: x in g.shells && !g.shells[x].ended ==> Placed(g, x))
    && (forall c ::
          c in g.conns && g.conns[c].phase == Finished && !g.conns[c].stopped && g.conns[c].shell in g.shells ==>
            g.shells[g.conns[c].shell].ended)
  }

  /** Does the event make connection `c` let go of its shell? */
  predicate LetsGo(e: Event, c: ConnId) {
    e == SocketClosed(c) || e == QueueOverflow(c) || e == Recheck(c, Unavailable)
  }

  /** A shell that has ended, or that may not be kept when nobody reads it. */
  predicate DetachEnds(g: Gateway, x: ShellId)
    requires x in g.shells
  {
    var s := g.shells[x];
    s.ended || !s.keepAlive || g.ttl == 0 || !s.stream || !RoomLeft(g.registry, s.userId)
  }

  /**
   * The condition under which an event orphans nothing: a shell is not claimed while another
   * connection is being authorized for it, and a connection that bailed does not let go of a
   * shell somebody else holds by then (unless giving the shell back ends it).
   */
  ghost predicate Orderly(g: Gateway, e: Event) {
    && (e.Connect? && e.c !in g.conns && Claimed(g, e).Some? ==>
          || (!e.open && DetachEnds(g, Claimed(g, e).value))
          || forall d :: Holds(g, d, Claimed(g, e).value) ==> g.conns[d].phase == Attached)
    && (forall c ::
          c in g.conns && g.conns[c].phase == Bailed && !g.conns[c].stopped && g.conns[c].shell in g.shells && LetsGo(e, c) ==>
            DetachEnds(g, g.conns[c].shell) || forall d :: !Holds(g, d, g.conns[c].shell))
  }

  /** `h` differs from `g` at most in shell `x` and its connections. */
  ghost predicate OnlyTouches(g: Gateway, h: Gateway, x: ShellId) {
    && (forall y :: y in g.shells && y != x ==>
          y in h.shells && h.shells[y] == g.shells[y] && (y in h.registry.detached <==> y in g.registry.detached))
    && (forall y :: y in h.shells && y != x ==> y in g.shells)
    && (forall c :: c in g.conns && g.conns[c].shell != x ==> c in h.conns && h.conns[c] == g.conns[c])
    && (forall c :: c in h.conns && h.conns[c].shell != x ==> c in g.conns && g.conns[c] == h.conns[c])
  }

  lemma PlacedElsewhere(g: Gateway, h: Gateway, x: ShellId, y: ShellId)
    requires OnlyTouches(g, h, x) && y != x && y in g.shells
    ensures Placed(h, y) <==> Placed(g, y)
  {
    assert forall c :: Holds(g, c, y) <==> Holds(h, c, y);
    assert forall c :: HeldBy(g, c, y) <==> HeldBy(h, c, y);
  }

  /** What is left to check when only `x` was touched. */
  lemma NoOrphansFrom(g: Gateway, h: Gateway, x: ShellId)
    requires NoOrphans(g) && OnlyTouches(g, h, x)
    requires x in h.shells && (h.shells[x].ended || Placed(h, x))
    requires forall c ::
               c in h.conns && h.conns[c].shell == x && h.conns[c].phase == Finished && !h.conns[c].stopped ==> h.shells[x].ended
    ensures NoOrphans(h)
  {
    hide Placed, Holds;
    forall y | y in h.shells && !h.shells[y].ended ensures Placed(h, y) {
      if y != x { PlacedElsewhere(g, h, x, y); }
    }
  }

  /** A live shell that is attached is held by that connection alone. */
  lemma AttachedHolder(g: Gateway, x: ShellId)
    requires NoOrphans(g) && x in g.shells && !g.shells[x].ended && g.shells[x].attachment.Some?
    ensures HeldBy(g, g.shells[x].attachment.value, x)
  {
    assert Placed(g, x);
  }

  lemma HolderIsOnly(g: Gateway, c: ConnId, x: ShellId)
    requires NoOrphans(g) && x in g.shells && !g.shells[x].ended && Holds(g, c, x)
    ensures HeldBy(g, c, x)
  {
    assert Placed(g, x);
  }

  lemma StopTouches(g: Gateway, c: ConnId)
    requires WellFormed(g) && c in g.conns
    ensures var h := Stop(g, c); var x := g.conns[c].shell;
            && OnlyTouches(g, h, x)
            && h.registry == g.registry && h.ttl == g.ttl && h.started == g.started
            && h.shells.Keys == g.shells.Keys && h.conns == g.conns[c := g.conns[c].(stopped := true)]
            && (h.shells[x] == g.shells[x] || h.shells[x] == g.shells[x].(attachment := None))
  {
  }

  /** Once its only holder has stopped, nobody has the shell. */
  lemma StopReleases(g: Gateway, c: ConnId)
    requires WellFormed(g) && c in g.conns
    requires HeldBy(g, c, g.conns[c].shell) || WaitsDetached(g, g.conns[c].shell)
    ensures var x := g.conns[c].shell; var h := Stop(g, c);
            && (forall d :: !Holds(h, d, x))
            && h.shells[x] == g.shells[x].(attachment := None)
  {
    var x := g.conns[c].shell;
    var h := Stop(g, c);
    forall d ensures !Holds(h, d, x) {
      if d != c { assert Holds(h, d, x) ==> Holds(g, d, x); }
    }
  }

  lemma EndTouches(g: Gateway, x: ShellId)
    requires x in g.shells && g.shells[x].id == x
    ensures OnlyTouches(g, Put(g, x, EndShell(g.registry, g.shells[x])), x)
    ensures Put(g, x, EndShell(g.registry, g.shells[x])).shells[x].ended
  {
  }

  lemma DetachTouches(g: Gateway, x: ShellId)
    requires x in g.shells && g.shells[x].id == x
    ensures OnlyTouches(g, DetachIn(g, x), x) && DetachIn(g, x).conns == g.conns && x in DetachIn(g, x).shells
    ensures DetachIn(g, x).shells[x].ended <==> DetachEnds(g, x)
    ensures !DetachEnds(g, x) ==>
              x in DetachIn(g, x).registry.detached
              && DetachIn(g, x).shells[x].detachTimer && !DetachIn(g, x).shells[x].paused
                 && DetachIn(g, x).shells[x].attachment == None
  {
  }

  lemma TouchesTwice(g: Gateway, h: Gateway, i: Gateway, x: ShellId)
    requires OnlyTouches(g, h, x) && OnlyTouches(h, i, x)
    ensures OnlyTouches(g, i, x)
  {
  }

  lemma EndInPlaced(g: Gateway, x: ShellId, notice: bool)
    requires WellFormed(g) && RegistryOk(g) && NoOrphans(g) && x in g.shells
    ensures NoOrphans(EndIn(g, x, notice))
  {
    hide Stop, EndShell, Placed, CountsExact, WithinCaps;
    var s := g.shells[x];
    var g1 := if notice && !s.ended && s.attachment.Some? then Stop(g, s.attachment.value) else g;
    if notice && !s.ended && s.attachment.Some? {
      AttachedHolder(g, x);
      StopTouches(g, s.attachment.value);
    }
    EndTouches(g1, x);
    TouchesTwice(g, g1, EndIn(g, x, notice), x);
    NoOrphansFrom(g, EndIn(g, x, notice), x);
  }

  lemma StopTerminalPlaced(g: Gateway, c: ConnId)
    requires WellFormed(g) && RegistryOk(g) && NoOrphans(g) && c in g.conns
    ensures NoOrphans(StopTerminal(g, c))
  {
    hide Stop, EndShell, Placed, CountsExact, WithinCaps;
    if !g.conns[c].stopped {
      var x := g.conns[c].shell;
      StopTouches(g, c);
      EndTouches(Stop(g, c), x);
      TouchesTwice(g, Stop(g, c), StopTerminal(g, c), x);
      NoOrphansFrom(g, StopTerminal(g, c), x);
    }
  }

  /** A connection that lets go places its shell, unless it had bailed and somebody else has it. */
  lemma LetGoPlaced(g: Gateway, c: ConnId)
    requires WellFormed(g) && RegistryOk(g) && NoOrphans(g) && c in g.conns
    requires g.conns[c].phase == Bailed && !g.conns[c].stopped ==>
               DetachEnds(g, g.conns[c].shell) || forall d :: !Holds(g, d, g.conns[c].shell)
    ensures NoOrphans(LetGo(g, c))
  {
    hide Stop, EndShell, Placed, CountsExact, WithinCaps, DetachShell;
    var x := g.conns[c].shell;
    if !g.conns[c].stopped {
      StopTouches(g, c);
      if !g.shells[x].keepAlive {
        EndTouches(Stop(g, c), x);
      } else {
        DetachTouches(Stop(g, c), x);
        DetachEndsAfterStop(g, c);
        if !DetachEnds(g, x) {
          LetGoWaits(g, c);
          if g.shells[x].ended { EndedDetachEnds(g, x); }
        }
      }
      TouchesTwice(g, Stop(g, c), LetGo(g, c), x);
      NoOrphansFrom(g, LetGo(g, c), x);
    }
  }

  lemma EndedDetachEnds(g: Gateway, x: ShellId)
    requires x in g.shells && g.shells[x].ended
    ensures DetachEnds(g, x)
  {
  }

  lemma DetachEndsAfterStop(g: Gateway, c: ConnId)
    requires WellFormed(g) && c in g.conns
    ensures g.conns[c].shell in Stop(g, c).shells
    ensures DetachEnds(Stop(g, c), g.conns[c].shell) == DetachEnds(g, g.conns[c].shell)
  {
    StopTouches(g, c);
  }

  /** An unstopped connection of a live shell is its only holder, unless it bailed and nobody has the shell. */
  lemma HolderOrIdle(g: Gateway, c: ConnId)
    requires WellFormed(g) && NoOrphans(g) && c in g.conns && !g.conns[c].stopped
    requires !g.shells[g.conns[c].shell].ended
    requires g.conns[c].phase == Bailed ==> forall d :: !Holds(g, d, g.conns[c].shell)
    ensures HeldBy(g, c, g.conns[c].shell) || WaitsDetached(g, g.conns[c].shell)
  {
    var x := g.conns[c].shell;
    assert Placed(g, x);
    if g.conns[c].phase != Bailed {
      assert Holds(g, c, x);
      HolderIsOnly(g, c, x);
    }
  }

  lemma LetGoWaits(g: Gateway, c: ConnId)
    requires WellFormed(g) && RegistryOk(g) && NoOrphans(g) && c in g.conns && !g.conns[c].stopped
    requires g.shells[g.conns[c].shell].keepAlive && !DetachEnds(g, g.conns[c].shell)
    requires g.conns[c].phase == Bailed ==> forall d :: !Holds(g, d, g.conns[c].shell)
    ensures var x := g.conns[c].shell; x in LetGo(g, c).shells && Placed(LetGo(g, c), x)
  {
    hide NoOrphans, Placed, CountsExact, WithinCaps, OnlyTouches, Stop;
    var x := g.conns[c].shell;
    HolderOrIdle(g, c);
    StopReleases(g, c);
    StopTouches(g, c);
    DetachEndsAfterStop(g, c);
    DetachTouches(Stop(g, c), x);
    SamePeople(Stop(g, c), LetGo(g, c), x);
    WaitsIsPlaced(LetGo(g, c), x);
  }

  lemma SamePeople(g: Gateway, h: Gateway, x: ShellId)
    requires h.conns == g.conns && forall d :: !Holds(g, d, x)
    ensures forall d :: !Holds(h, d, x)
  {
    assert forall d :: Holds(h, d, x) <==> Holds(g, d, x);
  }

  lemma WaitsIsPlaced(g: Gateway, x: ShellId)
    requires x in g.shells && WaitsDetached(g, x)
    ensures Placed(g, x)
  {
  }

  lemma AttachTouches(g: Gateway, c: ConnId)
    requires WellFormed(g) && c in g.conns
    requires var x := g.conns[c].shell; !g.conns[c].stopped && !g.shells[x].ended && g.shells[x].id == x
    ensures var x := g.conns[c].shell; var h := Attach(g, c);
            && OnlyTouches(g, h, x) && h.conns == g.conns[c := g.conns[c].(phase := Attached)]
            && h.registry.detached == g.registry.detached && x in h.shells
            && h.shells[x].attachment == Some(c) && h.shells[x].detachTimer == g.shells[x].detachTimer
  {
  }

  lemma AttachTakes(g: Gateway, c: ConnId)
    requires WellFormed(g) && RegistryOk(g) && c in g.conns
    requires var x := g.conns[c].shell; !g.conns[c].stopped && !g.shells[x].ended && HeldBy(g, c, x)
    ensures var x := g.conns[c].shell; var h := Attach(g, c);
            x in h.shells && OnlyTouches(g, h, x) && HeldBy(h, c, x)
              && h.conns == g.conns[c := g.conns[c].(phase := Attached)]
  {
    hide CountsExact, WithinCaps, Attach, OnlyTouches;
    var x := g.conns[c].shell;
    var h := Attach(g, c);
    AttachTouches(g, c);
    forall d ensures Holds(h, d, x) ==> d == c {
      if d != c { assert Holds(h, d, x) ==> Holds(g, d, x); }
    }
  }

  lemma AttachPlaced(g: Gateway, c: ConnId)
    requires WellFormed(g) && RegistryOk(g) && NoOrphans(g) && c in g.conns && g.conns[c].phase == Authorizing
    ensures NoOrphans(Attach(g, c))
  {
    hide RegistryOk, HeldBy, OnlyTouches, Put;
    var x := g.conns[c].shell;
    if !g.conns[c].stopped && !g.shells[x].ended {
      HolderIsOnly(g, c, x);
      AttachTakes(g, c);
      NoOrphansFrom(g, Attach(g, c), x);
    } else {
      FinishPlaced(g, c);
    }
  }

  lemma FinishKeepsHolders(g: Gateway, c: ConnId, x: ShellId)
    requires c in g.conns && g.conns[c].stopped && x in g.shells
    ensures Placed(g, x) ==> Placed(Finish(g, c), x)
  {
    var h := Finish(g, c);
    assert forall d :: Holds(g, d, x) <==> Holds(h, d, x);
    assert forall d :: HeldBy(g, d, x) ==> HeldBy(h, d, x);
  }

  lemma FinishPlaced(g: Gateway, c: ConnId)
    requires WellFormed(g) && NoOrphans(g) && c in g.conns
    requires g.conns[c].stopped || g.shells[g.conns[c].shell].ended
    ensures NoOrphans(Finish(g, c))
  {
    hide Placed;
    var x := g.conns[c].shell;
    if g.conns[c].stopped { FinishKeepsHolders(g, c, x); }
    NoOrphansFrom(g, Finish(g, c), x);
  }

  lemma LetGoStops(g: Gateway, c: ConnId)
    requires WellFormed(g) && c in g.conns
    ensures c in LetGo(g, c).conns && LetGo(g, c).conns[c].stopped
    ensures c in StopTerminal(g, c).conns && StopTerminal(g, c).conns[c].stopped
  {
    hide Stop, DetachShell, EndShell;
    StopTouches(g, c);
  }

  lemma AuthorizedPlaced(g: Gateway, c: ConnId, verdict: Verdict)
    requires WellFormed(g) && RegistryOk(g) && NoOrphans(g) && c in g.conns && g.conns[c].phase == Authorizing
    ensures NoOrphans(Authorized(g, c, verdict))
  {
    hide Attach, LetGo, StopTerminal, Members, CountsExact, WithinCaps, Placed, Finish;
    LetGoStops(g, c);
    LetGoKeepsRegistry(g, c);
    match verdict
    case Allowed => AttachPlaced(g, c);
    case Refused => StopTerminalPlaced(g, c); FinishPlaced(StopTerminal(g, c), c);
    case Unavailable => LetGoPlaced(g, c); FinishPlaced(LetGo(g, c), c);
  }

  lemma ClaimTouches(g: Gateway, x: ShellId)
    requires x in g.shells && g.shells[x].id == x
    ensures var h := Put(g, x, ClaimShell(g.registry, g.shells[x]));
            && OnlyTouches(g, h, x) && h.conns == g.conns && x !in h.registry.detached
            && h.shells[x] == g.shells[x].(attachment := None, detachTimer := false)
            && (x !in g.registry.detached ==> h.registry == g.registry)
  {
  }

  /** Taken over, a shell has left the connection it was attached to. */
  lemma TakeOverTouches(g: Gateway, x: ShellId)
    requires WellFormed(g) && RegistryOk(g) && NoOrphans(g) && x in g.shells && !g.shells[x].ended
    ensures var h := TakeOver(g, x);
            && OnlyTouches(g, h, x) && x in h.shells && h.conns.Keys == g.conns.Keys && x !in h.registry.detached
            && h.shells[x] == g.shells[x].(attachment := None, detachTimer := false)
            && (x !in g.registry.detached ==> h.registry == g.registry)
            && (forall d :: d in g.conns && (g.shells[x].attachment != Some(d)) ==> h.conns[d] == g.conns[d])
            && (g.shells[x].attachment.Some? ==> h.conns[g.shells[x].attachment.value].stopped)
            && h.ttl == g.ttl
  {
    hide Placed, CountsExact, WithinCaps, Stop, ClaimShell;
    if g.shells[x].attachment.Some? {
      var a := g.shells[x].attachment.value;
      AttachedHolder(g, x);
      StopTouches(g, a);
      ClaimTouches(Stop(g, a), x);
      TouchesTwice(g, Stop(g, a), TakeOver(g, x), x);
    } else {
      ClaimTouches(g, x);
    }
  }

  lemma TakeOverFrees(g: Gateway, x: ShellId)
    requires WellFormed(g) && RegistryOk(g) && NoOrphans(g) && x in g.shells && !g.shells[x].ended
    requires forall d :: Holds(g, d, x) ==> g.conns[d].phase == Attached
    ensures forall d :: !Holds(TakeOver(g, x), d, x)
  {
    hide TakeOver, CountsExact, WithinCaps, Members;
    TakeOverTouches(g, x);
    assert Placed(g, x);
    forall d ensures !Holds(TakeOver(g, x), d, x) {
      if Holds(TakeOver(g, x), d, x) {
        assert d in g.conns;
        if g.shells[x].attachment != Some(d) {
          assert Holds(g, d, x);
          HolderIsOnly(g, d, x);
        }
      }
    }
  }

  lemma JoinHolders(g: Gateway, c: ConnId, x: ShellId, phase: Phase)
    requires c !in g.conns
    ensures OnlyTouches(g, Join(g, c, x, phase), x)
    ensures forall d :: Holds(Join(g, c, x, phase), d, x) <==> Holds(g, d, x)
                                                               || (d == c && phase in {Authorizing, Attached})
  {
  }

  /** After the claim: the shell is live, undetached and unattached, and no connection of it is Finished. */
  lemma JoinedAfterTakeOver(g: Gateway, c: ConnId, x: ShellId, phase: Phase)
    requires WellFormed(g) && RegistryOk(g) && NoOrphans(g) && x in g.shells && !g.shells[x].ended && c !in g.conns
    requires phase in {Authorizing, Bailed}
    ensures var h := Join(TakeOver(g, x), c, x, phase);
            && OnlyTouches(g, h, x) && x in h.shells && x !in h.registry.detached && h.ttl == g.ttl
            && h.shells[x] == g.shells[x].(attachment := None, detachTimer := false)
            && (x !in g.registry.detached ==> h.registry == g.registry)
            && c in h.conns && h.conns[c] == Conn(x, true, phase, false)
            && (forall d :: Holds(h, d, x) <==> Holds(TakeOver(g, x), d, x) || (d == c && phase == Authorizing))
            && (forall d :: d in h.conns && h.conns[d].shell == x && h.conns[d].phase == Finished ==> h.conns[d].stopped)
  {
    hide TakeOver, RegistryOk, Placed;
    TakeOverTouches(g, x);
    JoinHolders(TakeOver(g, x), c, x, phase);
    TouchesTwice(g, TakeOver(g, x), Join(TakeOver(g, x), c, x, phase), x);
  }

  lemma ClaimOpenPlaced(g: Gateway, c: ConnId, x: ShellId)
    requires WellFormed(g) && RegistryOk(g) && NoOrphans(g) && x in g.shells && !g.shells[x].ended && c !in g.conns
    requires forall d :: Holds(g, d, x) ==> g.conns[d].phase == Attached
    ensures NoOrphans(Join(TakeOver(g, x), c, x, Authorizing))
  {
    hide TakeOver, RegistryOk, OnlyTouches, Join;
    var h := Join(TakeOver(g, x), c, x, Authorizing);
    JoinedAfterTakeOver(g, c, x, Authorizing);
    TakeOverFrees(g, x);
    assert HeldBy(h, c, x);
    NoOrphansFrom(g, h, x);
  }

  lemma ClaimBailPlaced(g: Gateway, c: ConnId, x: ShellId)
    requires WellFormed(g) && RegistryOk(g) && NoOrphans(g) && x in g.shells && !g.shells[x].ended && c !in g.conns
    requires (DetachEnds(g, x) && x !in g.registry.detached) || forall d :: Holds(g, d, x) ==> g.conns[d].phase == Attached
    ensures NoOrphans(DetachIn(Join(TakeOver(g, x), c, x, Bailed), x))
  {
    hide TakeOver, CountsExact, WithinCaps, OnlyTouches, Join, DetachIn;
    var h := Join(TakeOver(g, x), c, x, Bailed);
    JoinedAfterTakeOver(g, c, x, Bailed);
    DetachTouches(h, x);
    TouchesTwice(g, h, DetachIn(h, x), x);
    if !DetachEnds(h, x) {
      TakeOverFrees(g, x);
      SamePeople(h, DetachIn(h, x), x);
      WaitsIsPlaced(DetachIn(h, x), x);
    }
    NoOrphansFrom(g, DetachIn(h, x), x);
  }

  lemma FreshHolder(g: Gateway, c: ConnId, s: Shell)
    requires WellFormed(g) && c !in g.conns && s.id !in g.shells && s.id !in g.registry.detached
    requires !s.detachTimer && s.attachment == None
    ensures OnlyTouches(g, Opened(g, c, s), s.id) && HeldBy(Opened(g, c, s), c, s.id)
  {
  }

  lemma FreshPlaced(g: Gateway, c: ConnId, s: Shell)
    requires WellFormed(g) && RegistryOk(g) && NoOrphans(g) && c !in g.conns && s.id !in g.shells
    requires !s.detachTimer && s.attachment == None
    ensures NoOrphans(Opened(g, c, s))
  {
    hide CountsExact, WithinCaps, HeldBy, OnlyTouches;
    FreshHolder(g, c, s);
    NoOrphansFrom(g, Opened(g, c, s), s.id);
  }

  lemma ConnectPlaced(g: Gateway, e: Event)
    requires WellFormed(g) && RegistryOk(g) && NoOrphans(g) && e.Connect? && e.c !in g.conns && Orderly(g, e)
    ensures NoOrphans(Connected(g, e))
  {
    hide TakeOver, CountsExact, WithinCaps, OnlyTouches, Join, DetachIn, NoOrphans;
    match Claimed(g, e)
    case Some(x) =>
      if e.open { ClaimOpenPlaced(g, e.c, x); }
      else {
        if !(forall d :: Holds(g, d, x) ==> g.conns[d].phase == Attached) { HeldIsNotDetached(g, x); }
        ClaimBailPlaced(g, e.c, x);
      }
    case None =>
      if e.open && e.newId !in g.shells { FreshPlaced(g, e.c, NewShell(g.ttl, e)); }
  }

  lemma HeldIsNotDetached(g: Gateway, x: ShellId)
    requires NoOrphans(g) && x in g.shells && !g.shells[x].ended && exists d :: Holds(g, d, x)
    ensures x !in g.registry.detached
  {
    assert Placed(g, x);
  }

  lemma PausePlaced(g: Gateway, c: ConnId, paused: bool)
    requires WellFormed(g) && RegistryOk(g) && NoOrphans(g) && Feeds(g, c)
    ensures NoOrphans(SetPaused(g, c, paused))
  {
    var x := g.conns[c].shell;
    SamePlace(g, x, g.shells[x].(paused := paused));
  }

  lemma SamePlace(g: Gateway, x: ShellId, s: Shell)
    requires NoOrphans(g) && x in g.shells
    requires s == g.shells[x].(paused := s.paused, outputEnd := s.outputEnd, stream := s.stream)
    requires s.paused ==> g.shells[x].attachment.Some? || g.shells[x].paused
    ensures NoOrphans(g.(shells := g.shells[x := s]))
  {
    var h := g.(shells := g.shells[x := s]);
    if !s.ended {
      assert Placed(g, x);
      assert forall d :: Holds(g, d, x) <==> Holds(h, d, x);
      assert forall d :: HeldBy(g, d, x) ==> HeldBy(h, d, x);
      assert Placed(h, x);
    }
    hide Placed;
    NoOrphansFrom(g, h, x);
  }

  lemma OrderlyLetGoPlaced(g: Gateway, e: Event, c: ConnId)
    requires WellFormed(g) && RegistryOk(g) && NoOrphans(g) && Orderly(g, e) && c in g.conns && LetsGo(e, c)
    ensures NoOrphans(LetGo(g, c))
  {
    hide RegistryOk, NoOrphans, LetGo, Claimed, DetachEnds, Holds;
    LetGoPlaced(g, c);
  }

  lemma OrderlyStepPlaces(g: Gateway, e: Event)
    requires WellFormed(g) && RegistryOk(g) && NoOrphans(g) && Orderly(g, e)
    ensures NoOrphans(Step(g, e))
  {
    hide RegistryOk, NoOrphans, Orderly, LetGo, StopTerminal, Authorized, Connected, EndIn, SetPaused, Feeds;
    match e {
      case Connect(c, _, _, _, _, _, _, _) => if c !in g.conns { ConnectPlaced(g, e); }
      case Authorize(c, verdict) => if c in g.conns && g.conns[c].phase == Authorizing { AuthorizedPlaced(g, c, verdict); }
      case Recheck(c, verdict) =>
        if c in g.conns {
          if verdict == Unavailable { OrderlyLetGoPlaced(g, e, c); } else { StopTerminalPlaced(g, c); }
        }
      case SocketClosed(c) => if c in g.conns { OrderlyLetGoPlaced(g, e, c); }
      case QueueOverflow(c) => if c in g.conns { OrderlyLetGoPlaced(g, e, c); }
      case EndMessage(c) => if c in g.conns { StopTerminalPlaced(g, c); }
      case InvalidMessage(c) => if c in g.conns { StopTerminalPlaced(g, c); }
      case Backlog(c) => if Feeds(g, c) { PausePlaced(g, c, true); }
      case Drained(c) => if Feeds(g, c) { PausePlaced(g, c, false); }
      case StreamOpens(x) => if x in g.shells { SamePlace(g, x, g.shells[x].(stream := true)); }
      case Prints(x, bytes) => if x in g.shells { SamePlace(g, x, g.shells[x].(outputEnd := g.shells[x].outputEnd + bytes)); }
      case ShellGone(x) => if x in g.shells { EndInPlaced(g, x, true); }
      case TtlFires(x) => if x in g.shells { EndInPlaced(g, x, false); }
    }
  }

  /** Two holders, or a holder of a detached shell: the shell is not placed. */
  lemma NotPlaced(h: Gateway, x: ShellId, d: ConnId, c: ConnId)
    requires x in h.shells && Holds(h, d, x)
    requires x in h.registry.detached || (c != d && Holds(h, c, x))
    ensures !Placed(h, x)
  {
  }

  lemma OverlappingClaimOrphans(g: Gateway, e: Event, d: ConnId)
    requires WellFormed(g) && RegistryOk(g) && NoOrphans(g) && e.Connect? && e.c !in g.conns && Claimed(g, e).Some?
    requires Holds(g, d, Claimed(g, e).value) && g.conns[d].phase != Attached
    requires e.open || !DetachEnds(g, Claimed(g, e).value)
    ensures !NoOrphans(Connected(g, e))
  {
    hide TakeOver, CountsExact, WithinCaps, OnlyTouches, Join, DetachIn, Placed;
    var x := Claimed(g, e).value;
    HeldIsNotDetached(g, x);
    HolderIsOnly(g, d, x);
    TakeOverTouches(g, x);
    assert Holds(TakeOver(g, x), d, x);
    if e.open {
      JoinedAfterTakeOver(g, e.c, x, Authorizing);
      NotPlaced(Connected(g, e), x, d, e.c);
    } else {
      JoinedAfterTakeOver(g, e.c, x, Bailed);
      DetachTouches(Join(TakeOver(g, x), e.c, x, Bailed), x);
      assert Holds(Connected(g, e), d, x);
      NotPlaced(Connected(g, e), x, d, e.c);
    }
  }

  lemma StrangerLetsGoOrphans(g: Gateway, c: ConnId, d: ConnId)
    requires WellFormed(g) && RegistryOk(g) && NoOrphans(g) && c in g.conns && g.conns[c].phase == Bailed
      && !g.conns[c].stopped
    requires g.shells[g.conns[c].shell].keepAlive && !DetachEnds(g, g.conns[c].shell) && Holds(g, d, g.conns[c].shell)
    ensures !NoOrphans(LetGo(g, c))
  {
    hide Stop, CountsExact, WithinCaps, OnlyTouches, DetachIn, Placed;
    var x := g.conns[c].shell;
    StopTouches(g, c);
    DetachEndsAfterStop(g, c);
    DetachTouches(Stop(g, c), x);
    assert Holds(LetGo(g, c), d, x);
    NotPlaced(LetGo(g, c), x, d, c);
  }

  lemma DisorderlyStep(g: Gateway, e: Event, c: ConnId)
    requires WellFormed(g)
    ensures e.Connect? && e.c !in g.conns ==> Step(g, e) == Connected(g, e)
    ensures c in g.conns && g.conns[c].phase == Bailed && LetsGo(e, c) ==> Step(g, e) == LetGo(g, c)
  {
    hide LetGo, Connected, WellFormed;
  }

  lemma DisorderlyStepOrphans(g: Gateway, e: Event)
    requires WellFormed(g) && RegistryOk(g) && NoOrphans(g) && !Orderly(g, e)
    ensures !NoOrphans(Step(g, e))
  {
    hide RegistryOk, NoOrphans, LetGo, Connected, DetachEnds, HeldBy, WaitsDetached, Step;
    if e.Connect? && e.c !in g.conns && Claimed(g, e).Some?
       && !(!e.open && DetachEnds(g, Claimed(g, e).value))
       && exists d :: Holds(g, d, Claimed(g, e).value) && g.conns[d].phase != Attached {
      var d :| Holds(g, d, Claimed(g, e).value) && g.conns[d].phase != Attached;
      DisorderlyStep(g, e, d);
      OverlappingClaimOrphans(g, e, d);
    } else {
      var c :| c in g.conns && g.conns[c].phase == Bailed && !g.conns[c].stopped && LetsGo(e, c)
               && !DetachEnds(g, g.conns[c].shell) && exists d :: Holds(g, d, g.conns[c].shell);
      var d :| Holds(g, d, g.conns[c].shell);
      DisorderlyStep(g, e, c);
      KeptIsKeepAlive(g, g.conns[c].shell);
      StrangerLetsGoOrphans(g, c, d);
    }
  }

  lemma KeptIsKeepAlive(g: Gateway, x: ShellId)
    requires x in g.shells && !DetachEnds(g, x)
    ensures g.shells[x].keepAlive
  {
  }

  /** A step from a state without orphans makes none exactly when it is orderly. */
  lemma StepPlacesIffOrderly(g: Gateway, e: Event)
    requires WellFormed(g) && RegistryOk(g) && NoOrphans(g)
    ensures NoOrphans(Step(g, e)) <==> Orderly(g, e)
  {
    if Orderly(g, e) { OrderlyStepPlaces(g, e); } else { DisorderlyStepOrphans(g, e); }
  }

  ghost predicate OrderlyRun(g: Gateway, es: seq<Event>)
    requires WellFormed(g) && RegistryOk(g)
    decreases |es|
  {
    es == [] || (Orderly(g, es[0]) && (StepKeepsRegistry(g, es[0]); OrderlyRun(Step(g, es[0]), es[1..])))
  }

  lemma {:induction false} OrderlyRunPlaces(g: Gateway, es: seq<Event>)
    requires WellFormed(g) && RegistryOk(g) && NoOrphans(g) && OrderlyRun(g, es)
    ensures NoOrphans(Run(g, es))
    decreases |es|
  {
    hide RegistryOk, NoOrphans, Orderly, Step;
    if es != [] {
      StepKeepsRegistry(g, es[0]);
      OrderlyStepPlaces(g, es[0]);
      OrderlyRunPlaces(Step(g, es[0]), es[1..]);
    }
  }

  /**
   * In every state of every orderly run, each live shell is held by exactly one connection (attached,
   * or being authorized) or waits detached with its TTL timer armed and its program not paused.
   */
  lemma NoOrphansInOrderlyRuns(ttl: nat, es: seq<Event>)
    requires RegistryOk(Start(ttl)) && OrderlyRun(Start(ttl), es)
    ensures NoOrphans(Run(Start(ttl), es))
  {
    OrderlyRunPlaces(Start(ttl), es);
  }

  lemma LetGoConns(g: Gateway, c: ConnId)
    requires WellFormed(g) && c in g.conns && !g.conns[c].stopped
    ensures LetGo(g, c).conns == StopTerminal(g, c).conns == g.conns[c := g.conns[c].(stopped := true)]
    ensures g.conns[c].shell in StopTerminal(g, c).shells && StopTerminal(g, c).shells[g.conns[c].shell].ended
  {
    hide Stop, DetachShell;
    StopTouches(g, c);
  }

  lemma AuthorizedLeaves(g: Gateway, c: ConnId, verdict: Verdict)
    requires WellFormed(g) && c in g.conns && !g.conns[c].stopped
    ensures var h := Authorized(g, c, verdict); var x := g.conns[c].shell;
            && x in h.shells && c in h.conns && h.conns[c].phase != Authorizing
            && (verdict == Allowed || h.conns[c].stopped)
            && (forall d :: d != c && d in h.conns ==> d in g.conns && h.conns[d] == g.conns[d])
            && (verdict == Refused ==> h.shells[x].ended)
  {
    hide LetGo, StopTerminal;
    LetGoConns(g, c);
    LetGoGrows(g, c);
  }

  /**
   * An authorization always settles the connection: afterwards its shell is attached to it, waits
   * detached, or has ended, and the connection is no longer being authorized.
   */
  lemma AuthorizationSettles(g: Gateway, c: ConnId, verdict: Verdict)
    requires WellFormed(g) && RegistryOk(g) && NoOrphans(g) && c in g.conns && g.conns[c].phase == Authorizing
      && !g.conns[c].stopped
    ensures var h := Step(g, Authorize(c, verdict)); var x := g.conns[c].shell;
            && c in h.conns && h.conns[c].phase != Authorizing && x in h.shells
            && (h.shells[x].ended || WaitsDetached(h, x) || (verdict == Allowed && HeldBy(h, c, x)))
            && (verdict == Refused ==> h.shells[x].ended)
  {
    hide Authorized, RegistryOk;
    var x := g.conns[c].shell;
    var h := Step(g, Authorize(c, verdict));
    StepGrows(g, Authorize(c, verdict));
    AuthorizedPlaced(g, c, verdict);
    AuthorizedLeaves(g, c, verdict);
    if !h.shells[x].ended {
      assert Placed(h, x);
      if !WaitsDetached(h, x) {
        var d :| HeldBy(h, d, x);
        HolderIsOnly(g, c, x);
        assert d != c && Holds(h, d, x) ==> Holds(g, d, x);
      }
    }
  }

  // ---- What becomes of a connection ----

  /** Connections stay, keep their shell, stay stopped once stopped, and keep their phase. */
  ghost predicate ConnsStay(g: Gateway, h: Gateway) {
    forall c :: c in g.conns ==>
      && c in h.conns && h.conns[c].shell == g.conns[c].shell && h.conns[c].phase == g.conns[c].phase
      && (g.conns[c].stopped ==> h.conns[c].stopped)
  }

  lemma StopConns(g: Gateway, c: ConnId)
    requires WellFormed(g) && c in g.conns
    ensures WellFormed(Stop(g, c)) && ConnsStay(g, Stop(g, c)) && Stop(g, c).conns.Keys == g.conns.Keys
  {
  }

  lemma EndInConns(g: Gateway, x: ShellId, notice: bool)
    requires WellFormed(g) && x in g.shells
    ensures ConnsStay(g, EndIn(g, x, notice)) && EndIn(g, x, notice).conns.Keys == g.conns.Keys
  {
    hide Stop;
    if g.shells[x].attachment.Some? { StopConns(g, g.shells[x].attachment.value); }
  }

  lemma LetGoConnsStay(g: Gateway, c: ConnId)
    requires WellFormed(g) && c in g.conns
    ensures ConnsStay(g, LetGo(g, c)) && LetGo(g, c).conns.Keys == g.conns.Keys
    ensures ConnsStay(g, StopTerminal(g, c)) && StopTerminal(g, c).conns.Keys == g.conns.Keys
  {
    hide *;
    if g.conns[c].stopped {
      LetGoOnce(g, c);
      NothingStopped(g);
    } else {
      LetGoConns(g, c);
      OnlyStopped(g, LetGo(g, c), c);
      OnlyStopped(g, StopTerminal(g, c), c);
    }
  }

  lemma NothingStopped(g: Gateway)
    ensures ConnsStay(g, g)
  {
  }

  lemma OnlyStopped(g: Gateway, h: Gateway, c: ConnId)
    requires c in g.conns && h.conns == g.conns[c := g.conns[c].(stopped := true)]
    ensures ConnsStay(g, h) && h.conns.Keys == g.conns.Keys
  {
  }

  lemma LetGoOnce(g: Gateway, c: ConnId)
    requires WellFormed(g) && c in g.conns && g.conns[c].stopped
    ensures LetGo(g, c) == g && StopTerminal(g, c) == g
  {
  }

  lemma TakeOverConns(g: Gateway, x: ShellId)
    requires WellFormed(g) && x in g.shells
    ensures ConnsStay(g, TakeOver(g, x)) && TakeOver(g, x).conns.Keys == g.conns.Keys
  {
    hide Stop, ClaimShell;
    if g.shells[x].attachment.Some? { StopConns(g, g.shells[x].attachment.value); }
  }

  lemma JoinConns(g: Gateway, h: Gateway, c: ConnId, k: Conn)
    requires ConnsStay(g, h) && h.conns.Keys == g.conns.Keys && c !in g.conns
    ensures ConnsStay(g, h.(conns := h.conns[c := k]))
    ensures h.(conns := h.conns[c := k]).conns.Keys == g.conns.Keys + {c}
  {
  }

  lemma SameConns(g: Gateway, h: Gateway)
    requires h.conns == g.conns
    ensures ConnsStay(g, h)
  {
  }

  lemma ConnectConns(g: Gateway, e: Event)
    requires WellFormed(g) && e.Connect? && e.c !in g.conns
    ensures var h := Connected(g, e);
            && ConnsStay(g, h) && h.conns.Keys <= g.conns.Keys + {e.c}
            && (e.c in h.conns ==> h.conns[e.c].phase in {Authorizing, Bailed} && !h.conns[e.c].stopped)
  {
    SameConns(g, g);
    hide ConnsStay, TakeOver, DetachShell, Claimed;
    match Claimed(g, e)
    case Some(x) =>
      ClaimedIsKnown(g, e);
      TakeOverConns(g, x);
      JoinConns(g, TakeOver(g, x), e.c, Conn(x, true, if e.open then Authorizing else Bailed, false));
      SameConnsAs(g, Join(TakeOver(g, x), e.c, x, Bailed), Connected(g, e));
    case None =>
      if e.open && e.newId !in g.shells { JoinConns(g, g, e.c, Conn(e.newId, false, Authorizing, false)); }
      SameConnsAs(g, Opened(g, e.c, NewShell(g.ttl, e)), Connected(g, e));
  }

  lemma ClaimedIsKnown(g: Gateway, e: Event)
    requires e.Connect? && Claimed(g, e).Some?
    ensures Claimed(g, e).value in g.shells
  {
  }

  lemma SameConnsAs(g: Gateway, h: Gateway, i: Gateway)
    ensures ConnsStay(g, h) && i.conns == h.conns ==> ConnsStay(g, i)
  {
  }

  /** An open socket's claim of a shell that another connection is being authorized for. */
  ghost predicate ClaimsInside(g: Gateway, e: Event, a: ConnId, x: ShellId) {
    && e.Connect? && e.open && e.c !in g.conns && Claimed(g, e) == Some(x)
    && Holds(g, a, x) && g.conns[a].phase == Authorizing
  }

  /** It is let in beside the other connection. */
  lemma ClaimsInsideJoins(g: Gateway, e: Event, a: ConnId, x: ShellId)
    requires WellFormed(g) && NoOrphans(g) && ClaimsInside(g, e, a, x)
    ensures var h := Step(g, e);
            && h.conns == g.conns[e.c := Conn(x, true, Authorizing, false)]
            && x in g.shells && x in h.shells && !h.shells[x].ended && h.shells[x].stream == g.shells[x].stream
  {
    hide NoOrphans;
    if g.shells[x].attachment.Some? { AttachedHolder(g, x); }
  }

  /** An allowed connection attaches, and no other connection is touched. */
  lemma AllowedAttaches(g: Gateway, a: ConnId)
    requires WellFormed(g) && a in g.conns && g.conns[a].phase == Authorizing && !g.conns[a].stopped
    requires !g.shells[g.conns[a].shell].ended
    ensures var h, x := Step(g, Authorize(a, Allowed)), g.conns[a].shell;
            && h.conns == g.conns[a := g.conns[a].(phase := Attached)]
            && x in h.shells && !h.shells[x].ended && h.shells[x].stream == g.shells[x].stream && h.shells[x].attachment == Some(a)
  {
  }

  /** Only a first authorization that came for an unstopped connection of a live shell attaches it. */
  lemma AuthorizedConns(g: Gateway, c: ConnId, verdict: Verdict)
    requires WellFormed(g) && c in g.conns && g.conns[c].phase == Authorizing
    ensures var h := Authorized(g, c, verdict);
            && h.conns.Keys == g.conns.Keys && h.conns[c].shell == g.conns[c].shell
            && (g.conns[c].stopped ==> h.conns[c].stopped)
            && h.conns[c].phase in {Attached, Finished}
            && (forall d :: d in g.conns && d != c ==>
                  && h.conns[d].shell == g.conns[d].shell && h.conns[d].phase == g.conns[d].phase
                  && (g.conns[d].stopped ==> h.conns[d].stopped))
            && (h.conns[c].phase == Attached <==> verdict == Allowed && !g.conns[c].stopped && !g.shells[g.conns[c].shell].ended)
            && (h.conns[c].phase == Attached ==> !h.conns[c].stopped && h.shells.Keys == g.shells.Keys && !h.shells[g.conns[c].shell].ended)
  {
    hide LetGo, StopTerminal, Attach, WellFormed;
    match verdict
    case Allowed => AttachConns(g, c);
    case Refused => LetGoConnsStay(g, c); FinishConns(g, StopTerminal(g, c), c);
    case Unavailable => LetGoConnsStay(g, c); FinishConns(g, LetGo(g, c), c);
  }

  lemma AttachConns(g: Gateway, c: ConnId)
    requires WellFormed(g) && c in g.conns
    ensures var h := Attach(g, c); var k := g.conns[c];
            && g.conns[c].shell in g.shells
            && h.conns == g.conns[c := k.(phase := if k.stopped || g.shells[k.shell].ended then Finished else Attached)]
            && (!k.stopped && !g.shells[k.shell].ended ==> h.shells.Keys == g.shells.Keys && !h.shells[k.shell].ended)
  {
  }

  lemma FinishConns(g: Gateway, h: Gateway, c: ConnId)
    requires ConnsStay(g, h) && h.conns.Keys == g.conns.Keys && c in g.conns
    ensures var f := Finish(h, c);
            && f.conns.Keys == g.conns.Keys && f.conns[c].shell == g.conns[c].shell && f.conns[c].phase == Finished
            && (g.conns[c].stopped ==> f.conns[c].stopped)
            && forall d :: d in g.conns && d != c ==>
                 && f.conns[d].shell == g.conns[d].shell && f.conns[d].phase == g.conns[d].phase
                 && (g.conns[d].stopped ==> f.conns[d].stopped)
  {
  }

  /** Output and its flow control leave the connections as they are. */
  lemma QuietConns(g: Gateway, e: Event)
    requires WellFormed(g) && (e.Backlog? || e.Drained? || e.StreamOpens? || e.Prints?)
    ensures ConnsStay(g, Step(g, e)) && Step(g, e).conns == g.conns
  {
    hide Feeds, WellFormed;
  }

  /** A connection that lets go changes no other connection's place. */
  lemma LettingGoConns(g: Gateway, e: Event)
    requires WellFormed(g) && (e.Recheck? || e.SocketClosed? || e.QueueOverflow? || e.EndMessage? || e.InvalidMessage?)
    ensures ConnsStay(g, Step(g, e)) && Step(g, e).conns.Keys == g.conns.Keys
  {
    hide LetGo, StopTerminal, EndIn, WellFormed, ConnsStay;
    SameConns(g, g);
    if e.c in g.conns { LetGoConnsStay(g, e.c); }
  }

  lemma EndingConns(g: Gateway, e: Event)
    requires WellFormed(g) && (e.ShellGone? || e.TtlFires?)
    ensures ConnsStay(g, Step(g, e)) && Step(g, e).conns.Keys == g.conns.Keys
  {
    hide LetGo, StopTerminal, EndIn, WellFormed, ConnsStay;
    SameConns(g, g);
    if e.x in g.shells { EndInConns(g, e.x, e.ShellGone?); }
  }

  lemma StepConns(g: Gateway, e: Event)
    requires WellFormed(g) && !e.Authorize? && !e.Connect?
    ensures ConnsStay(g, Step(g, e)) && Step(g, e).conns.Keys == g.conns.Keys
  {
    hide Step, WellFormed, ConnsStay;
    if e.ShellGone? || e.TtlFires? {
      EndingConns(g, e);
    } else if e.Backlog? || e.Drained? || e.StreamOpens? || e.Prints? {
      QuietConns(g, e);
    } else {
      LettingGoConns(g, e);
    }
  }

  // ---- What each event does to the shell ----

  /** The shell has ended and nobody can continue it. */
  ghost predicate Over(g: Gateway, x: ShellId) {
    && x in g.shells && g.shells[x].ended && !g.shells[x].detachTimer
    && x !in g.registry.resumable && x !in g.registry.detached
  }

  /** The shell waits for a reconnect: it goes on, unread, and what it prints from here on will be replayed. */
  ghost predicate Waiting(g: Gateway, x: ShellId) {
    && x in g.shells && !g.shells[x].ended && g.shells[x].attachment == None && g.shells[x].detachTimer && !g.shells[x].paused
    && x in g.registry.detached && g.shells[x].detachedAt == Some(g.shells[x].outputEnd)
  }

  /** Events by which a connection gives up its shell for good: no session any more, or the user or a bad message ends it. */
  predicate EndsShell(g: Gateway, e: Event, c: ConnId) {
    && c in g.conns && !g.conns[c].stopped
    && (e == EndMessage(c) || e == InvalidMessage(c)
        || (e == Authorize(c, Refused) && g.conns[c].phase == Authorizing)
        || (e == Recheck(c, Refused) && g.conns[c].phase != Authorizing))
  }

  /** Events by which a connection goes away while its shell may wait for the next one. */
  predicate LeavesShell(g: Gateway, e: Event, c: ConnId) {
    && c in g.conns && !g.conns[c].stopped
    && (e == SocketClosed(c) || e == QueueOverflow(c)
        || (e == Authorize(c, Unavailable) && g.conns[c].phase == Authorizing)
        || (e == Recheck(c, Unavailable) && g.conns[c].phase != Authorizing))
  }

  lemma StopLeaves(g: Gateway, c: ConnId)
    requires WellFormed(g) && RegistryOk(g) && c in g.conns && !g.conns[c].stopped
    ensures var h, x := Stop(g, c), g.conns[c].shell;
            && h.ttl == g.ttl && h.registry == g.registry && c in h.conns && h.conns[c].stopped && h.conns[c].shell == x
            && x in g.shells && x in h.shells && h.shells[x].id == x
            && h.shells[x] == g.shells[x].(attachment := h.shells[x].attachment)
  {
    hide CountsExact, WithinCaps;
  }

  lemma EndInEnds(g: Gateway, x: ShellId)
    requires WellFormed(g) && x in g.shells && g.shells[x].id == x && (g.shells[x].ended ==> Over(g, x))
    ensures var h := EndIn(g, x, false);
            Over(h, x) && h.conns == g.conns && (!g.shells[x].ended ==> h.shells[x].attachment == None)
  {
  }

  lemma EndingEvents(g: Gateway, e: Event, c: ConnId)
    requires WellFormed(g) && RegistryOk(g) && EndsShell(g, e, c)
    ensures var h, x := Step(g, e), g.conns[c].shell;
            Over(h, x) && (!g.shells[x].ended ==> h.shells[x].attachment == None) && c in h.conns && h.conns[c].stopped
  {
    var x := g.conns[c].shell;
    StopLeaves(g, c);
    EndInEnds(Stop(g, c), x);
    EndingStep(g, e, c);
    hide Stop, EndIn, RegistryOk, Step, WellFormed;
  }

  lemma EndingStep(g: Gateway, e: Event, c: ConnId)
    requires WellFormed(g) && EndsShell(g, e, c)
    ensures Step(g, e) == if e.Authorize? then Finish(StopTerminal(g, c), c) else StopTerminal(g, c)
  {
    hide StopTerminal, WellFormed;
  }

  lemma DetachDecides(g: Gateway, x: ShellId)
    requires x in g.shells && g.shells[x].id == x && (g.shells[x].ended ==> Over(g, x)) && (g.shells[x].detachTimer <==> x in g.registry.detached)
    ensures var h := DetachIn(g, x); h.conns == g.conns && if DetachEnds(g, x) then Over(h, x) && h.shells[x].attachment == None else Waiting(h, x)
  {
  }

  lemma LeavingEvents(g: Gateway, e: Event, c: ConnId)
    requires WellFormed(g) && RegistryOk(g) && LeavesShell(g, e, c)
    ensures var h, x := Step(g, e), g.conns[c].shell;
            && c in h.conns && h.conns[c].stopped
            && if DetachEnds(g, x) then Over(h, x) && (!g.shells[x].ended ==> h.shells[x].attachment == None) else Waiting(h, x)
  {
    var x := g.conns[c].shell;
    StopLeaves(g, c);
    assert DetachEnds(Stop(g, c), x) <==> DetachEnds(g, x);
    DetachDecides(Stop(g, c), x);
    EndInEnds(Stop(g, c), x);
    LeavingStep(g, e, c);
    hide Stop, EndIn, DetachIn, RegistryOk, Step, WellFormed;
  }

  lemma LeavingStep(g: Gateway, e: Event, c: ConnId)
    requires WellFormed(g) && LeavesShell(g, e, c)
    ensures Step(g, e) == if e.Authorize? then Finish(LetGo(g, c), c) else LetGo(g, c)
  {
    hide LetGo, WellFormed;
  }

  /** A check that still allows, or that comes before the first one settled, changes nothing. */
  lemma GoodSessionGoesOn(g: Gateway, c: ConnId, verdict: Verdict)
    requires WellFormed(g) && c in g.conns
    ensures Step(g, Recheck(c, Allowed)) == g
    ensures g.conns[c].phase == Authorizing ==> Step(g, Recheck(c, verdict)) == g
  {
    hide LetGo, StopTerminal, WellFormed;
  }

  /** Nothing of a stopped connection has an effect. */
  lemma StoppedIsSilent(g: Gateway, e: Event, c: ConnId)
    requires WellFormed(g) && c in g.conns && g.conns[c].stopped
    requires e == SocketClosed(c) || e == QueueOverflow(c) || e == EndMessage(c) || e == InvalidMessage(c)
      || e == Backlog(c) || e == Drained(c) || (e.Recheck? && e.c == c)
    ensures Step(g, e) == g
  {
    LetGoOnce(g, c);
    hide LetGo, StopTerminal, WellFormed, SetPaused;
  }

  /** The SSH side went away: the shell is over, and its browser is told and stopped. */
  lemma GoneIsOver(g: Gateway, x: ShellId)
    requires WellFormed(g) && RegistryOk(g) && x in g.shells && !g.shells[x].ended
    ensures var h, a := Step(g, ShellGone(x)), g.shells[x].attachment;
            Over(h, x) && h.shells[x].attachment == None && (a.Some? ==> a.value in h.conns && h.conns[a.value].stopped)
  {
    hide CountsExact, WithinCaps;
  }

  /** The TTL ends detached shells, and only those. */
  lemma OnlyDetachedExpire(g: Gateway, x: ShellId)
    requires WellFormed(g) && RegistryOk(g) && x in g.shells
    ensures if x in g.registry.detached then Over(Step(g, TtlFires(x)), x) else Step(g, TtlFires(x)) == g
  {
    hide CountsExact, WithinCaps, Stop;
  }

  /** A long queue pauses the shell it feeds from, and a drained one lets it go on; output is counted once the stream is open. */
  lemma OutputEvents(g: Gateway, c: ConnId, x: ShellId, bytes: nat)
    requires WellFormed(g) && x in g.shells
    ensures Feeds(g, c) ==>
              var y := g.conns[c].shell;
              && Step(g, Backlog(c)) == g.(shells := g.shells[y := g.shells[y].(paused := true)])
              && Step(g, Drained(c)) == g.(shells := g.shells[y := g.shells[y].(paused := false)])
    ensures !Feeds(g, c) ==> Step(g, Backlog(c)) == Step(g, Drained(c)) == g
    ensures var s := g.shells[x];
            Step(g, Prints(x, bytes)).shells[x] == if s.stream then s.(outputEnd := s.outputEnd + bytes) else s
    ensures x in g.started && !g.shells[x].ended ==> Step(g, StreamOpens(x)).shells[x] == g.shells[x].(stream := true)
  {
  }

  /** A socket that is open gets the shell it claims, whose connection is stopped, or a shell of its own; a closed one gives the shell back. */
  lemma ConnectDecides(g: Gateway, e: Event)
    requires WellFormed(g) && RegistryOk(g) && e.Connect? && e.c !in g.conns
    ensures var h := Step(g, e);
            match Claimed(g, e)
            case Some(x) =>
              && x in g.shells && x in h.shells && e.c in h.conns
              && h.conns[e.c] == Conn(x, true, if e.open then Authorizing else Bailed, false)
              && (g.shells[x].attachment.Some? ==>
                    g.shells[x].attachment.value in h.conns && h.conns[g.shells[x].attachment.value].stopped)
              && (e.open ==> h.shells[x] == g.shells[x].(attachment := None, detachTimer := false) && x !in h.registry.detached)
              && (!e.open ==> Over(h, x) || Waiting(h, x))
            case None =>
              if e.open && e.newId !in g.shells
              then h == g.(shells := g.shells[e.newId := Shell(e.newId, e.user, e.server, e.endpoint, e.keepAlive && g.ttl > 0,
                                                               false, None, 0, None, false, false, false)],
                           conns := g.conns[e.c := Conn(e.newId, false, Authorizing, false)])
              else h == g
  {
    match Claimed(g, e)
    case Some(x) =>
      ClaimedIsKnown(g, e);
      TakesShell(g, x);
      if !e.open { DetachDecides(Join(TakeOver(g, x), e.c, x, Bailed), x); }
      hide TakeOver, DetachIn, RegistryOk;
    case None =>
  }

  lemma TakesShell(g: Gateway, x: ShellId)
    requires WellFormed(g) && RegistryOk(g) && x in g.shells && !g.shells[x].ended
    ensures var h := TakeOver(g, x);
            && h.ttl == g.ttl && x in h.shells && h.shells[x] == g.shells[x].(attachment := None, detachTimer := false)
            && h.shells[x].id == x && x !in h.registry.detached
            && (g.shells[x].attachment.Some? ==> g.shells[x].attachment.value in h.conns && h.conns[g.shells[x].attachment.value].stopped)
  {
    hide CountsExact, WithinCaps;
  }

  /** An allowed connection of a live shell attaches, unpausing a shell it resumes; one that is late attaches to nothing. */
  lemma AllowedDecides(g: Gateway, c: ConnId)
    requires WellFormed(g) && c in g.conns && g.conns[c].phase == Authorizing
    ensures var h, k, s := Step(g, Authorize(c, Allowed)), g.conns[c], g.shells[g.conns[c].shell];
            if k.stopped || s.ended then h == g.(conns := g.conns[c := k.(phase := Finished)])
            else
              && h.conns == g.conns[c := k.(phase := Attached)] && h.started == g.started + {k.shell}
              && h.shells == g.shells[k.shell := s.(attachment := Some(c), detachedAt := None, paused := s.paused && !k.resumed)]
              && h.registry.resumable == g.registry.resumable + (if s.keepAlive then {s.id} else {})
              && h.registry.detached == g.registry.detached
  {
  }

  // ---- Whose shell ----

  /** Who connected: the user, and the server and endpoint the connection is for. */
  datatype Caller = Caller(user: UserId, server: string, endpoint: string)

  /** The callers of the connections after `e`. */
  function CallersAfter(g: Gateway, e: Event, callers: map<ConnId, Caller>): map<ConnId, Caller> {
    if e.Connect? && e.c !in g.conns then callers[e.c := Caller(e.user, e.server, e.endpoint)] else callers
  }

  ghost function Callers(g: Gateway, es: seq<Event>, callers: map<ConnId, Caller>): map<ConnId, Caller>
    requires WellFormed(g) && RegistryOk(g)
    decreases |es|
  {
    if es == [] then callers else
    StepKeepsRegistry(g, es[0]);
    Callers(Step(g, es[0]), es[1..], CallersAfter(g, es[0], callers))
  }

  /** Every connection's shell is the caller's own, on the server and endpoint the caller connected for. */
  ghost predicate OwnShells(g: Gateway, callers: map<ConnId, Caller>)
    requires WellFormed(g)
  {
    forall c :: c in g.conns ==>
      var s := g.shells[g.conns[c].shell];
      c in callers && s.userId == callers[c].user && s.serverId == callers[c].server && s.endpointHash == callers[c].endpoint
  }

  lemma ConnectOwns(g: Gateway, e: Event)
    requires WellFormed(g) && e.Connect? && e.c !in g.conns
    ensures var h := Connected(g, e);
            && (e.c in h.conns ==> h.conns[e.c].shell in h.shells)
            && (e.c in h.conns ==>
                  var s := h.shells[h.conns[e.c].shell]; s.userId == e.user && s.serverId == e.server && s.endpointHash == e.endpoint)
  {
    ConnectGrows(g, e);
    match Claimed(g, e) {
      case Some(x) => TakeOverConns(g, x);
      case None =>
    }
  }

  lemma StepConnsStay(g: Gateway, e: Event)
    requires WellFormed(g)
    ensures var h := Step(g, e);
            (forall c :: c in g.conns ==> c in h.conns && h.conns[c].shell == g.conns[c].shell)
            && (forall c :: c in h.conns && c !in g.conns ==> e.Connect? && e.c == c && h == Connected(g, e))
  {
    hide Connected, Authorized, WellFormed, StopTerminal, LetGo, EndIn;
    if e.Connect? {
      if e.c !in g.conns { ConnectConns(g, e); }
    } else if e.Authorize? {
      if e.c in g.conns && g.conns[e.c].phase == Authorizing { AuthorizedConns(g, e.c, e.verdict); }
    } else {
      StepConns(g, e);
      hide Step;
    }
  }

  /** A connection there was keeps its shell, which keeps its owner. */
  lemma OldOwn(g: Gateway, h: Gateway, callers: map<ConnId, Caller>, c: ConnId)
    requires WellFormed(g) && WellFormed(h) && OwnShells(g, callers) && Grows(g, h)
    requires c in g.conns && c in h.conns && h.conns[c].shell == g.conns[c].shell
    ensures var s := h.shells[h.conns[c].shell];
            c in callers && s.userId == callers[c].user && s.serverId == callers[c].server && s.endpointHash == callers[c].endpoint
  {
  }

  lemma StepOwns(g: Gateway, e: Event, callers: map<ConnId, Caller>)
    requires WellFormed(g) && RegistryOk(g) && OwnShells(g, callers)
    ensures WellFormed(Step(g, e)) && OwnShells(Step(g, e), CallersAfter(g, e, callers))
  {
    StepKeepsRegistry(g, e);
    StepGrows(g, e);
    StepConnsStay(g, e);
    if e.Connect? && e.c !in g.conns { ConnectOwns(g, e); }
    var h := Step(g, e);
    forall c | c in h.conns && c in g.conns
      ensures var s := h.shells[h.conns[c].shell];
              c in callers && s.userId == callers[c].user && s.serverId == callers[c].server && s.endpointHash == callers[c].endpoint
    {
      OldOwn(g, h, callers, c);
    }
    hide Step, Connected, RegistryOk, Grows;
  }

  lemma {:induction false} RunOwns(g: Gateway, es: seq<Event>, callers: map<ConnId, Caller>)
    requires WellFormed(g) && RegistryOk(g) && OwnShells(g, callers)
    ensures OwnShells(Run(g, es), Callers(g, es, callers))
    decreases |es|
  {
    hide OwnShells, RegistryOk, Step, CallersAfter;
    if es != [] {
      StepKeepsRegistry(g, es[0]);
      StepOwns(g, es[0], callers);
      RunOwns(Step(g, es[0]), es[1..], CallersAfter(g, es[0], callers));
    }
  }

  /** In every run nobody gets a shell that another user opened, or that runs on another server or endpoint. */
  lemma NobodyGetsAnothersShell(ttl: nat, es: seq<Event>)
    ensures RegistryOk(Start(ttl))
    ensures OwnShells(Run(Start(ttl), es), Callers(Start(ttl), es, map[]))
  {
    StartOk(ttl);
    RunOwns(Start(ttl), es, map[]);
  }

  /**
   * A keep-alive connection to a gateway that keeps shells gets the shell it asks for exactly when that shell is live,
   * can be resumed, and is its own.
   */
  lemma ClaimedIff(g: Gateway, e: Event)
    requires RegistryOk(g) && e.Connect?
    ensures Claimed(g, e).Some? ==> Claimed(g, e) == e.request
    ensures Claimed(g, e).Some? <==>
              && e.keepAlive && g.ttl > 0 && e.request.Some? && e.request.value in g.registry.resumable
              && var s := g.shells[e.request.value];
                 s.userId == e.user && s.serverId == e.server && s.endpointHash == e.endpoint
  {
    hide CountsExact;
  }

  // ---- Both conditions are needed ----

  const USER := "user"
  const SERVER := "server"
  const ENDPOINT := "endpoint"
  const SHELL := "shell"

  function Resume(c: ConnId, open: bool): Event {
    Connect(c, open, true, Some(SHELL), "other", USER, SERVER, ENDPOINT)
  }

  /** A gateway with one keep-alive shell, waiting detached or held by `attachment`. */
  function OneShell(attachment: Option<ConnId>, detached: bool, detachedAt: Option<nat>, conns: map<ConnId, Conn>): Gateway {
    Gateway(1,
      if detached then Registry({SHELL}, {SHELL}, map[USER := 1]) else Registry({SHELL}, {}, map[]),
      map[SHELL := Shell(SHELL, USER, SERVER, ENDPOINT, true, true, attachment, 0, detachedAt, false, detached, false)], {SHELL}, conns)
  }

  const WAS_0: map<ConnId, Conn> := map[0 := Conn(SHELL, false, Attached, true)]

  /** Connection 0 opened the shell and is attached. */
  const OPENED_0: Gateway := OneShell(Some(0), false, None, map[0 := Conn(SHELL, false, Attached, false)])
  /** Connection 1 claimed it with its socket already gone, and gave it back. */
  const BAILED_1: Gateway := OneShell(None, true, Some(0), WAS_0[1 := Conn(SHELL, true, Bailed, false)])
  /** Connection 2 claimed it, and attached. */
  const CLAIMED_2: Gateway := OneShell(None, false, Some(0), WAS_0[1 := Conn(SHELL, true, Bailed, false)][2 := Conn(SHELL, true, Authorizing, false)])
  const ATTACHED_2: Gateway := OneShell(Some(2), false, None, WAS_0[1 := Conn(SHELL, true, Bailed, false)][2 := Conn(SHELL, true, Attached, false)])

  lemma BailStep()
    ensures WellFormed(OPENED_0) && Step(OPENED_0, Resume(1, false)) == BAILED_1
  {
    assert Claimed(OPENED_0, Resume(1, false)) == Some(SHELL);
    assert TakeOver(OPENED_0, SHELL) == OneShell(None, false, None, WAS_0);
    var g := Join(OneShell(None, false, None, WAS_0), 1, SHELL, Bailed);
    assert RoomLeft(g.registry, USER);
    assert DetachIn(g, SHELL) == BAILED_1;
  }

  lemma ClaimStep()
    ensures WellFormed(BAILED_1) && Step(BAILED_1, Resume(2, true)) == CLAIMED_2
  {
    assert Claimed(BAILED_1, Resume(2, true)) == Some(SHELL);
    assert Undetach(BAILED_1.registry, SHELL, USER) == Registry({SHELL}, {}, map[]);
    assert TakeOver(BAILED_1, SHELL) == OneShell(None, false, Some(0), BAILED_1.conns);
  }

  lemma AttachStep()
    ensures WellFormed(CLAIMED_2) && Step(CLAIMED_2, Authorize(2, Allowed)) == ATTACHED_2
  {
    assert Attach(CLAIMED_2, 2) == ATTACHED_2;
  }

  lemma LateCloseStep()
    ensures WellFormed(ATTACHED_2) && HeldBy(ATTACHED_2, 2, SHELL)
    ensures Step(ATTACHED_2, SocketClosed(1)) == OneShell(None, true, Some(0), ATTACHED_2.conns[1 := Conn(SHELL, true, Bailed, true)])
  {
    assert Stop(ATTACHED_2, 1) == OneShell(Some(2), false, None, ATTACHED_2.conns[1 := Conn(SHELL, true, Bailed, true)]);
    assert RoomLeft(ATTACHED_2.registry, USER);
  }

  /** How a browser opens the shell: it connects, is authorized, and the shell's stream comes. */
  const OPENING: seq<Event> :=
    [Connect(0, true, true, None, SHELL, USER, SERVER, ENDPOINT), Authorize(0, Allowed), StreamOpens(SHELL)]

  lemma OpeningSteps() returns (g: Gateway, h: Gateway)
    ensures g == Step(Start(1), OPENING[0]) && WellFormed(g)
    ensures h == Step(g, OPENING[1]) && WellFormed(h)
    ensures Step(h, OPENING[2]) == OPENED_0
    ensures SHELL in g.shells && !g.shells[SHELL].ended && g.conns == map[0 := Conn(SHELL, false, Authorizing, false)]
    ensures SHELL in h.shells && !h.shells[SHELL].ended && h.conns == map[0 := Conn(SHELL, false, Attached, false)]
  {
    var s := Shell(SHELL, USER, SERVER, ENDPOINT, true, false, None, 0, None, false, false, false);
    g := Gateway(1, IDLE, map[SHELL := s], {}, map[0 := Conn(SHELL, false, Authorizing, false)]);
    assert Claimed(Start(1), OPENING[0]) == None;
    assert Opened(Start(1), 0, s) == g;
    h := Gateway(1, Registry({SHELL}, {}, map[]), map[SHELL := s.(attachment := Some(0))], {SHELL}, map[0 := Conn(SHELL, false, Attached, false)]);
    assert Attach(g, 0) == h;
    assert h.(shells := h.shells[SHELL := h.shells[SHELL].(stream := true)]) == OPENED_0;
  }

  lemma OpeningRun()
    ensures RegistryOk(Start(1)) && Run(Start(1), OPENING) == OPENED_0
  {
    StartOk(1);
    var g, h := OpeningSteps();
    hide Step, RegistryOk, WellFormed;
    StepKeepsRegistry(Start(1), OPENING[0]);
    StepKeepsRegistry(g, OPENING[1]);
    StepKeepsRegistry(h, OPENING[2]);
    assert OPENING[1..] == [OPENING[1], OPENING[2]] && OPENING[1..][1..] == [OPENING[2]] && OPENING[1..][1..][1..] == [];
    assert Run(h, [OPENING[2]]) == OPENED_0 by { assert [OPENING[2]][1..] == []; }
    assert Run(g, [OPENING[1], OPENING[2]]) == OPENED_0 by { assert [OPENING[1], OPENING[2]][1..] == [OPENING[2]]; }
  }

  /**
   * A browser opens a shell. A resume whose socket was already gone gives the shell back; another resume attaches to it; then
   * the first socket's close event comes and detaches the shell, which connection 2 still holds.
   */
  lemma LateCloseOrphans()
    ensures RegistryOk(Start(1)) && Run(Start(1), OPENING) == OPENED_0
    ensures WellFormed(OPENED_0) && WellFormed(BAILED_1) && WellFormed(CLAIMED_2) && WellFormed(ATTACHED_2)
    ensures Step(OPENED_0, Resume(1, false)) == BAILED_1
    ensures Step(BAILED_1, Resume(2, true)) == CLAIMED_2
    ensures Step(CLAIMED_2, Authorize(2, Allowed)) == ATTACHED_2
    ensures var h := Step(ATTACHED_2, SocketClosed(1));
            Holds(h, 2, SHELL) && SHELL in h.registry.detached && SHELL in h.shells && h.shells[SHELL].attachment == None
              && !h.shells[SHELL].ended
  {
    hide Step, Run;
    OpeningRun();
    BailStep();
    ClaimStep();
    AttachStep();
    LateCloseStep();
  }

  lemma SecondClaimStep()
    ensures WellFormed(CLAIMED_2)
    ensures var h := Step(CLAIMED_2, Resume(3, true)); Holds(h, 2, SHELL) && Holds(h, 3, SHELL)
  {
    hide Stop, ClaimShell, DetachShell;
    AttachStep();
    assert Claimed(CLAIMED_2, Resume(3, true)) == Some(SHELL);
  }

  /** Two connections claim one shell before either is authorized: both end up holding it. */
  lemma OverlappingClaimsOrphan()
    ensures RegistryOk(Start(1)) && Run(Start(1), OPENING) == OPENED_0
    ensures WellFormed(OPENED_0) && WellFormed(BAILED_1) && WellFormed(CLAIMED_2)
    ensures Step(OPENED_0, Resume(1, false)) == BAILED_1
    ensures Step(BAILED_1, Resume(2, true)) == CLAIMED_2
    ensures var h := Step(CLAIMED_2, Resume(3, true)); Holds(h, 2, SHELL) && Holds(h, 3, SHELL)
  {
    hide Step, Run, Holds;
    OpeningRun();
    BailStep();
    ClaimStep();
    SecondClaimStep();
  }

  const CLAIMED_ONCE: Gateway := OneShell(None, false, None, WAS_0[2 := Conn(SHELL, true, Authorizing, false)])

  lemma FirstClaim()
    ensures WellFormed(OPENED_0) && Step(OPENED_0, Resume(2, true)) == CLAIMED_ONCE
  {
    assert Claimed(OPENED_0, Resume(2, true)) == Some(SHELL);
    assert TakeOver(OPENED_0, SHELL) == OneShell(None, false, None, WAS_0);
  }
}

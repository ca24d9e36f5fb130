/**
 * The gateway of Lifecycle and the world of OutputResume are two views of one program: the first decides what
 * becomes of connections and shells, the second what the terminals get to see. Every handler of the gateway
 * is a run of the world that ends in the matching state, so what is proved of the world holds for the gateway.
 * A message that no longer fits the send queue is one that never arrives: the link goes silent before it.
 */
module GatewayOutput {
  import opened Bytes
  import G = Lifecycle
  import R = OutputResume
  import S = ShellSessions
  import H = ShellHistory

  // ---- What both views agree on ----

  ghost predicate SameShell(s: S.Shell, h: R.Shell) {
    && s.ended == h.ended
    && (!s.ended ==>
          && s.keepAlive == h.keepAlive && s.stream == h.started && s.attachment == h.attachment
          && s.detachedAt == h.detachedAt && s.outputEnd == |h.output|)
  }

  ghost predicate SameConn(k: G.Conn, q: R.Sock) {
    q.shell == Some(k.shell) && q.resumed == k.resumed && (q.attached <==> k.phase == G.Attached)
  }

  /** A connection claimed a shell that was attached before, or its shell was opened for it. */
  ghost predicate HasShell(g: G.Gateway, w: R.World, c: S.ConnId)
    requires c in g.conns
  {
    var k := g.conns[c];
    k.shell in w.shells && if k.resumed then k.shell in g.started else w.shells[k.shell].opener == c
  }

  ghost predicate ShellsShow(g: G.Gateway, w: R.World) {
    g.shells.Keys == w.shells.Keys && forall x :: x in g.shells ==> SameShell(g.shells[x], w.shells[x])
  }

  ghost predicate ConnsShow(g: G.Gateway, w: R.World) {
    forall c :: c in g.conns ==> c in w.socks && SameConn(g.conns[c], w.socks[c]) && HasShell(g, w, c)
  }

  /** A started shell was attached to the connection it was opened for, and only started shells can be claimed. */
  ghost predicate StartedShow(g: G.Gateway, w: R.World) {
    && (forall x :: x in g.started ==>
          x in w.shells && w.shells[x].opener in w.socks && w.socks[w.shells[x].opener].attached)
    && g.registry.resumable <= g.started
  }

  /** A shell is attached only to a connection that has it. */
  ghost predicate AttachedHere(g: G.Gateway) {
    forall x :: x in g.shells && g.shells[x].attachment.Some? ==>
      var c := g.shells[x].attachment.value; c in g.conns && g.conns[c].shell == x
  }

  ghost predicate Shows(g: G.Gateway, w: R.World) {
    ShellsShow(g, w) && ConnsShow(g, w) && StartedShow(g, w) && AttachedHere(g)
  }

  /** The sockets differ at most in what is sent on them. */
  ghost predicate SocksAlike(w: R.World, v: R.World) {
    && v.socks.Keys == w.socks.Keys
    && forall s :: s in w.socks ==>
         v.socks[s].shell == w.socks[s].shell && v.socks[s].resumed == w.socks[s].resumed && v.socks[s].attached == w.socks[s].attached
  }

  ghost predicate ConnsAlike(g: G.Gateway, h: G.Gateway) {
    && h.conns.Keys == g.conns.Keys
    && forall c :: c in g.conns ==>
         h.conns[c].shell == g.conns[c].shell && h.conns[c].resumed == g.conns[c].resumed
         && (h.conns[c].phase == G.Attached <==> g.conns[c].phase == G.Attached)
  }

  /** Only the shell `x` changed in `v`, and it is the same shell. */
  ghost predicate OnlyShell(w: R.World, v: R.World, x: S.ShellId) {
    x in w.shells && x in v.shells && v.shells == w.shells[x := v.shells[x]] && v.shells[x].opener == w.shells[x].opener
  }

  ghost predicate StartedAlike(g: G.Gateway, h: G.Gateway) {
    h.started == g.started && h.registry.resumable <= g.registry.resumable
  }

  lemma ConnsStay(g: G.Gateway, h: G.Gateway, w: R.World, v: R.World, x: S.ShellId)
    requires ConnsShow(g, w) && ConnsAlike(g, h) && SocksAlike(w, v) && h.started == g.started && OnlyShell(w, v, x)
    ensures ConnsShow(h, v)
  {
    forall d | d in h.conns ensures d in v.socks && SameConn(h.conns[d], v.socks[d]) && HasShell(h, v, d) {
      assert SameConn(g.conns[d], w.socks[d]) && HasShell(g, w, d);
    }
  }

  lemma StartedStay(g: G.Gateway, h: G.Gateway, w: R.World, v: R.World, x: S.ShellId)
    requires StartedShow(g, w) && StartedAlike(g, h) && SocksAlike(w, v) && OnlyShell(w, v, x)
    ensures StartedShow(h, v)
  {
  }

  lemma AttachedStay(g: G.Gateway, h: G.Gateway, x: S.ShellId)
    requires AttachedHere(g) && ConnsAlike(g, h) && x in h.shells && h.shells == g.shells[x := h.shells[x]]
    requires h.shells[x].attachment.Some? ==> x in g.shells && h.shells[x].attachment == g.shells[x].attachment
    ensures AttachedHere(h)
  {
  }

  /** Only the shell `x` changed, in both views alike, and it was not attached. */
  lemma ShellChanges(g: G.Gateway, h: G.Gateway, w: R.World, v: R.World, x: S.ShellId)
    requires Shows(g, w) && ConnsAlike(g, h) && StartedAlike(g, h) && SocksAlike(w, v) && OnlyShell(w, v, x)
    requires x in g.shells && x in h.shells && h.shells == g.shells[x := h.shells[x]] && SameShell(h.shells[x], v.shells[x])
    requires h.shells[x].attachment.Some? ==> h.shells[x].attachment == g.shells[x].attachment
    ensures Shows(h, v)
  {
    AttachedStay(g, h, x);
    ConnsStay(g, h, w, v, x);
    StartedStay(g, h, w, v, x);
    hide ConnsShow, StartedShow, AttachedHere, ConnsAlike, SocksAlike, SameShell;
  }

  lemma NothingChanges(g: G.Gateway, h: G.Gateway, w: R.World, v: R.World)
    requires Shows(g, w) && ConnsAlike(g, h) && StartedAlike(g, h) && SocksAlike(w, v) && h.shells == g.shells && v.shells == w.shells
    ensures Shows(h, v)
  {
    hide SameShell;
  }

  // ---- The handlers as runs of the world ----

  function StopEvents(g: G.Gateway, c: S.ConnId): seq<R.Event>
    requires G.WellFormed(g) && c in g.conns
  {
    var k := g.conns[c];
    if k.stopped then []
    else if g.shells[k.shell].attachment == Some(c) then [R.ClosesSocket(c), R.Detaches(k.shell, false)]
    else [R.ClosesSocket(c)]
  }

  /** A shell that ends without a notice is detached first, so that nobody is told. */
  function EndEvents(x: S.ShellId, notice: bool): seq<R.Event> {
    if notice then [R.EndsShell(x, false)] else [R.Detaches(x, false), R.EndsShell(x, false)]
  }

  function DetachEvents(g: G.Gateway, x: S.ShellId): seq<R.Event>
    requires x in g.shells
  {
    if G.DetachEnds(g, x) then EndEvents(x, false) else [R.Detaches(x, true)]
  }

  function StopTerminalEvents(g: G.Gateway, c: S.ConnId): seq<R.Event>
    requires G.WellFormed(g) && c in g.conns
  {
    if g.conns[c].stopped then [] else StopEvents(g, c) + EndEvents(g.conns[c].shell, false)
  }

  function LetGoEvents(g: G.Gateway, c: S.ConnId): seq<R.Event>
    requires G.WellFormed(g) && c in g.conns
  {
    var x := g.conns[c].shell;
    if g.conns[c].stopped then []
    else StopEvents(g, c) + if g.shells[x].keepAlive then DetachEvents(G.Stop(g, c), x) else EndEvents(x, false)
  }

  function ConnectEvents(g: G.Gateway, e: G.Event): seq<R.Event>
    requires G.WellFormed(g) && e.Connect? && e.c !in g.conns
  {
    match G.Claimed(g, e)
    case Some(x) =>
      [R.Accepts(e.c, true, e.newId)] +
      if e.open then [] else [R.ClosesSocket(e.c)] + DetachEvents(G.Join(G.TakeOver(g, x), e.c, x, G.Bailed), x)
    case None => if !e.open || e.newId in g.shells then [] else [R.Accepts(e.c, false, e.newId)]
  }

  function AuthorizeEvents(g: G.Gateway, c: S.ConnId, verdict: G.Verdict): seq<R.Event>
    requires G.WellFormed(g) && c in g.conns
  {
    match verdict
    case Allowed => if g.conns[c].stopped || g.shells[g.conns[c].shell].ended then [] else [R.Attaches(c, true)]
    case Refused => StopTerminalEvents(g, c)
    case Unavailable => LetGoEvents(g, c)
  }

  /** What the handler of `e` is in the world; `printed` are the bytes a shell prints. */
  function EventsOf(g: G.Gateway, e: G.Event, printed: seq<byte>): seq<R.Event>
    requires G.WellFormed(g)
  {
    match e
    case Connect(c, _, _, _, _, _, _, _) => if c in g.conns then [] else ConnectEvents(g, e)
    case Authorize(c, verdict) =>
      if c in g.conns && g.conns[c].phase == G.Authorizing then AuthorizeEvents(g, c, verdict) else []
    case Recheck(c, verdict) =>
      if c !in g.conns || g.conns[c].phase == G.Authorizing || verdict == G.Allowed then []
      else if verdict == G.Refused then StopTerminalEvents(g, c)
      else LetGoEvents(g, c)
    case SocketClosed(c) => if c in g.conns then LetGoEvents(g, c) else []
    case QueueOverflow(c) => if c in g.conns then LetGoEvents(g, c) else []
    case EndMessage(c) => if c in g.conns then StopTerminalEvents(g, c) else []
    case InvalidMessage(c) => if c in g.conns then StopTerminalEvents(g, c) else []
    case Backlog(_) => []
    case Drained(_) => []
    case StreamOpens(x) => if x in g.shells && x in g.started && !g.shells[x].ended then [R.OpensShell(x)] else []
    case Prints(x, _) => [R.Prints(x, printed, true)]
    case ShellGone(x) => if x in g.shells then EndEvents(x, true) else []
    case TtlFires(x) => if x in g.shells && g.shells[x].detachTimer then EndEvents(x, false) else []
  }

  // ---- Each handler ends in the matching state ----

  lemma RunTwo(w: R.World, a: R.Event, b: R.Event)
    ensures R.Run(w, [a, b]) == R.Step(R.Step(w, a), b)
  {
    hide R.Step, R.Run;
    assert [a, b] == [a] + [b];
    R.RunAppend(w, [a], [b]);
    R.RunOne(w, a);
    R.RunOne(R.Step(w, a), b);
  }

  lemma ClosingIsAlike(w: R.World, s: nat)
    ensures SocksAlike(w, R.CloseSock(w, s)) && R.CloseSock(w, s).shells == w.shells
  {
  }

  lemma EndingIsAlike(w: R.World, x: S.ShellId, forget: bool)
    requires x in w.shells && !w.shells[x].ended
    ensures var v := R.EndShell(w, x, forget);
            SocksAlike(w, v) && v.shells == w.shells[x := w.shells[x].(ended := true, attachment := None)]
  {
  }

  lemma StopIsAlike(g: G.Gateway, c: S.ConnId)
    requires G.WellFormed(g) && c in g.conns
    ensures var h, x := G.Stop(g, c), g.conns[c].shell;
            && ConnsAlike(g, h) && StartedAlike(g, h) && x in g.shells
            && h.shells == if !g.conns[c].stopped && g.shells[x].attachment == Some(c) then g.shells[x := g.shells[x].(attachment := None)]
                           else g.shells
  {
  }

  lemma CloseThenDetach(w: R.World, s: nat, x: S.ShellId)
    requires x in w.shells
    ensures R.Run(w, [R.ClosesSocket(s)]) == R.CloseSock(w, s)
    ensures R.Run(w, [R.ClosesSocket(s), R.Detaches(x, false)]) == R.Unattach(R.CloseSock(w, s), x, false)
  {
    ClosingIsAlike(w, s);
    R.RunOne(w, R.ClosesSocket(s));
    RunTwo(w, R.ClosesSocket(s), R.Detaches(x, false));
    hide R.Run, R.CloseSock, R.Unattach, SocksAlike;
  }

  lemma StopRun(g: G.Gateway, w: R.World, c: S.ConnId)
    requires G.WellFormed(g) && c in g.conns && g.conns[c].shell in w.shells
    ensures var v, x := R.Run(w, StopEvents(g, c)), g.conns[c].shell;
            && SocksAlike(w, v)
            && v.shells == if !g.conns[c].stopped && g.shells[x].attachment == Some(c) then w.shells[x := w.shells[x].(attachment := None)]
                           else w.shells
  {
    assert R.Run(w, []) == w;
    hide R.Run, R.Step, R.CloseSock;
    ClosingIsAlike(w, c);
    CloseThenDetach(w, c, g.conns[c].shell);
  }

  /** The shell `x` is taken from its connection in both views. */
  lemma TakenShows(g: G.Gateway, h: G.Gateway, w: R.World, v: R.World, x: S.ShellId)
    requires Shows(g, w) && ConnsAlike(g, h) && StartedAlike(g, h) && SocksAlike(w, v)
    requires x in g.shells && x in w.shells && x in h.shells && h.shells == g.shells[x := h.shells[x]] && h.shells[x].attachment == None
    requires h.shells[x] == g.shells[x].(attachment := None, paused := h.shells[x].paused, detachTimer := h.shells[x].detachTimer)
    requires v.shells == w.shells[x := w.shells[x].(attachment := None)]
    ensures Shows(h, v)
  {
    ShellHas(g, w, x);
    hide Shows, ConnsAlike, StartedAlike, SocksAlike;
    ShellChanges(g, h, w, v, x);
  }

  lemma StopShows(g: G.Gateway, w: R.World, c: S.ConnId)
    requires G.WellFormed(g) && Shows(g, w) && c in g.conns
    ensures Shows(G.Stop(g, c), R.Run(w, StopEvents(g, c)))
  {
    StopIsAlike(g, c);
    var x := g.conns[c].shell;
    ShellHas(g, w, x);
    StopRun(g, w, c);
    var h, v := G.Stop(g, c), R.Run(w, StopEvents(g, c));
    hide *;
    if !g.conns[c].stopped && g.shells[x].attachment == Some(c) { TakenShows(g, h, w, v, x); } else { NothingChanges(g, h, w, v); }
  }

  lemma ShellHas(g: G.Gateway, w: R.World, x: S.ShellId)
    requires Shows(g, w) && x in g.shells
    ensures x in w.shells && SameShell(g.shells[x], w.shells[x])
  {
  }

  lemma EndRun(w: R.World, x: S.ShellId, notice: bool)
    requires x in w.shells
    ensures var v := R.Run(w, EndEvents(x, notice));
            SocksAlike(w, v) && OnlyShell(w, v, x)
            && v.shells[x].ended && (!w.shells[x].ended ==> v.shells[x].attachment == None)
  {
    var u := if notice then w else R.Unattach(w, x, false);
    if notice { R.RunOne(w, R.EndsShell(x, false)); } else { RunTwo(w, R.Detaches(x, false), R.EndsShell(x, false)); }
    if !u.shells[x].ended { EndingIsAlike(u, x, false); }
    hide R.Run;
    assert R.Run(w, EndEvents(x, notice)) == R.EndShell(u, x, false);
  }

  lemma EndIsAlike(g: G.Gateway, x: S.ShellId, notice: bool)
    requires G.WellFormed(g) && AttachedHere(g) && x in g.shells
    ensures var h := G.EndIn(g, x, notice);
            && ConnsAlike(g, h) && StartedAlike(g, h)
            && x in h.shells && h.shells == g.shells[x := h.shells[x]] && h.shells[x].ended
            && (h.shells[x].attachment.Some? ==> h.shells[x].attachment == g.shells[x].attachment)
  {
    if notice && !g.shells[x].ended && g.shells[x].attachment.Some? { StopIsAlike(g, g.shells[x].attachment.value); }
    hide G.Stop;
  }

  lemma EndShows(g: G.Gateway, w: R.World, x: S.ShellId, notice: bool)
    requires G.WellFormed(g) && Shows(g, w) && x in g.shells
    ensures Shows(G.EndIn(g, x, notice), R.Run(w, EndEvents(x, notice)))
  {
    ShellHas(g, w, x);
    EndIsAlike(g, x, notice);
    EndRun(w, x, notice);
    hide R.Run, EndEvents, Shows, SocksAlike, ConnsAlike, StartedAlike, G.EndIn, G.WellFormed;
    ShellChanges(g, G.EndIn(g, x, notice), w, R.Run(w, EndEvents(x, notice)), x);
  }

  lemma DetachIsAlike(g: G.Gateway, x: S.ShellId)
    requires x in g.shells
    ensures var h := G.DetachIn(g, x);
            && ConnsAlike(g, h) && StartedAlike(g, h) && x in h.shells && h.shells == g.shells[x := h.shells[x]]
            && h.shells[x].attachment == None
            && (if G.DetachEnds(g, x) then h.shells[x].ended
                else var s := g.shells[x]; h.shells[x] == s.(attachment := None, detachedAt := Some(s.outputEnd), paused := false, detachTimer := true))
  {
  }

  lemma KeepRun(w: R.World, x: S.ShellId)
    requires x in w.shells
    ensures var v := R.Run(w, [R.Detaches(x, true)]); var h := w.shells[x];
            SocksAlike(w, v) && v.shells == w.shells[x := h.(attachment := None, detachedAt := Some(|h.output|))]
  {
    R.RunOne(w, R.Detaches(x, true));
  }

  lemma DetachShows(g: G.Gateway, w: R.World, x: S.ShellId)
    requires Shows(g, w) && x in g.shells
    ensures Shows(G.DetachIn(g, x), R.Run(w, DetachEvents(g, x)))
  {
    ShellHas(g, w, x);
    DetachIsAlike(g, x);
    hide R.Run, R.Step, Shows, SocksAlike, ConnsAlike, StartedAlike, G.DetachIn, G.DetachEnds, EndEvents;
    if G.DetachEnds(g, x) { EndRun(w, x, false); } else { KeepRun(w, x); }
    ShellChanges(g, G.DetachIn(g, x), w, R.Run(w, DetachEvents(g, x)), x);
  }

  lemma StopTerminalShows(g: G.Gateway, w: R.World, c: S.ConnId)
    requires G.WellFormed(g) && Shows(g, w) && c in g.conns
    ensures Shows(G.StopTerminal(g, c), R.Run(w, StopTerminalEvents(g, c)))
  {
    var x := g.conns[c].shell;
    assert R.Run(w, []) == w;
    hide R.Run, R.Step, Shows, StopEvents, EndEvents, G.EndIn;
    if !g.conns[c].stopped {
      StopShows(g, w, c);
      R.RunAppend(w, StopEvents(g, c), EndEvents(x, false));
      EndShows(G.Stop(g, c), R.Run(w, StopEvents(g, c)), x, false);
    }
  }

  lemma LetGoShows(g: G.Gateway, w: R.World, c: S.ConnId)
    requires G.WellFormed(g) && Shows(g, w) && c in g.conns
    ensures Shows(G.LetGo(g, c), R.Run(w, LetGoEvents(g, c)))
  {
    var x := g.conns[c].shell;
    assert R.Run(w, []) == w;
    hide R.Run, R.Step, Shows, StopEvents, EndEvents, G.EndIn, G.DetachIn, DetachEvents;
    if !g.conns[c].stopped {
      StopShows(g, w, c);
      var h, v := G.Stop(g, c), R.Run(w, StopEvents(g, c));
      if g.shells[x].keepAlive {
        R.RunAppend(w, StopEvents(g, c), DetachEvents(h, x));
        DetachShows(h, v, x);
      } else {
        R.RunAppend(w, StopEvents(g, c), EndEvents(x, false));
        EndShows(h, v, x, false);
      }
    }
  }

  // ---- Attaching ----

  ghost predicate AttachesIn(g: G.Gateway, h: G.Gateway, c: S.ConnId, x: S.ShellId) {
    && c in g.conns && g.conns[c].shell == x && h.conns == g.conns[c := g.conns[c].(phase := G.Attached)]
    && x in g.shells && x in h.shells && h.shells == g.shells[x := h.shells[x]]
    && h.shells[x] == g.shells[x].(attachment := Some(c), detachedAt := None, paused := h.shells[x].paused)
    && h.started == g.started + {x} && h.registry.resumable <= g.registry.resumable + {x}
  }

  ghost predicate AttachesTo(w: R.World, v: R.World, c: S.ConnId, x: S.ShellId) {
    && x in w.shells && v.shells == w.shells[x := w.shells[x].(attachment := Some(c), detachedAt := None)]
    && c in w.socks && c in v.socks && v.socks == w.socks[c := v.socks[c]]
    && v.socks[c].shell == w.socks[c].shell && v.socks[c].resumed == w.socks[c].resumed && v.socks[c].attached
  }

  lemma AttachRun(w: R.World, c: S.ConnId, x: S.ShellId)
    requires c in w.socks && w.socks[c].shell == Some(x) && !w.socks[c].attached && x in w.shells && !w.shells[x].ended
    ensures AttachesTo(w, R.Run(w, [R.Attaches(c, true)]), c, x)
  {
    R.RunOne(w, R.Attaches(c, true));
    hide H.ReplayOf, R.Run;
  }

  lemma AttachedShells(g: G.Gateway, h: G.Gateway, w: R.World, v: R.World, c: S.ConnId, x: S.ShellId)
    requires ShellsShow(g, w) && AttachedHere(g) && AttachesIn(g, h, c, x) && AttachesTo(w, v, c, x)
    ensures ShellsShow(h, v) && AttachedHere(h)
  {
  }

  lemma AttachedConns(g: G.Gateway, h: G.Gateway, w: R.World, v: R.World, c: S.ConnId, x: S.ShellId)
    requires ConnsShow(g, w) && AttachesIn(g, h, c, x) && AttachesTo(w, v, c, x)
    ensures ConnsShow(h, v)
  {
    forall d | d in h.conns ensures d in v.socks && SameConn(h.conns[d], v.socks[d]) && HasShell(h, v, d) {
      assert SameConn(g.conns[d], w.socks[d]) && HasShell(g, w, d);
    }
  }

  lemma AttachedStarted(g: G.Gateway, h: G.Gateway, w: R.World, v: R.World, c: S.ConnId, x: S.ShellId)
    requires StartedShow(g, w) && ConnsShow(g, w) && AttachesIn(g, h, c, x) && AttachesTo(w, v, c, x)
    ensures StartedShow(h, v)
  {
    assert SameConn(g.conns[c], w.socks[c]) && HasShell(g, w, c);
    forall y | y in h.started ensures y in v.shells && v.shells[y].opener in v.socks && v.socks[v.shells[y].opener].attached {
      assert y in g.started || (y == x && w.shells[x].opener == c);
    }
  }

  lemma AttachIsIn(g: G.Gateway, c: S.ConnId)
    requires G.WellFormed(g) && c in g.conns && g.conns[c].phase == G.Authorizing && g.shells[g.conns[c].shell].id == g.conns[c].shell
    ensures var h, x := G.Attach(g, c), g.conns[c].shell;
            if g.conns[c].stopped || g.shells[x].ended
            then ConnsAlike(g, h) && StartedAlike(g, h) && h.shells == g.shells
            else AttachesIn(g, h, c, x)
  {
  }

  /** An authorized connection whose shell ended, or that was stopped, attaches nowhere. */
  lemma AttachShows(g: G.Gateway, w: R.World, c: S.ConnId)
    requires G.WellFormed(g) && Shows(g, w) && c in g.conns && g.conns[c].phase == G.Authorizing
    requires g.shells[g.conns[c].shell].id == g.conns[c].shell
    ensures Shows(G.Attach(g, c), R.Run(w, AuthorizeEvents(g, c, G.Allowed)))
  {
    var x, h := g.conns[c].shell, G.Attach(g, c);
    AttachIsIn(g, c);
    ShellHas(g, w, x);
    ConnHas(g, w, c);
    assert R.Run(w, []) == w && SocksAlike(w, w);
    hide R.Run, R.Step, G.Attach, ShellsShow, ConnsShow, StartedShow, AttachedHere, AttachesIn, AttachesTo, ConnsAlike, SocksAlike, StartedAlike,
      G.WellFormed;
    if g.conns[c].stopped || g.shells[x].ended {
      NothingChanges(g, h, w, w);
    } else {
      AttachRun(w, c, x);
      var v := R.Run(w, [R.Attaches(c, true)]);
      AttachedShells(g, h, w, v, c, x);
      AttachedConns(g, h, w, v, c, x);
      AttachedStarted(g, h, w, v, c, x);
    }
  }

  lemma ConnHas(g: G.Gateway, w: R.World, c: S.ConnId)
    requires Shows(g, w) && c in g.conns
    ensures c in w.socks && SameConn(g.conns[c], w.socks[c]) && HasShell(g, w, c)
  {
  }

  // ---- Connecting ----

  /** The browser dialed the socket that the gateway accepts now, with what the handler reads from it. */
  ghost predicate Dialed(w: R.World, e: G.Event) {
    && e.Connect? && e.c in w.socks
    && var q := w.socks[e.c]; q.shell.None? && q.keepAlive == e.keepAlive && (e.keepAlive ==> q.request == e.request)
  }

  /** A shell that is claimed has its stream: its id is announced only then. */
  ghost predicate ClaimsStarted(g: G.Gateway, e: G.Event) {
    e.Connect? && G.Claimed(g, e).Some? ==> G.Claimed(g, e).value in g.shells && g.shells[G.Claimed(g, e).value].stream
  }

  /** The shell `x` is taken over: nobody is attached, and `c` has it. */
  ghost predicate JoinsIn(g: G.Gateway, h: G.Gateway, c: S.ConnId, x: S.ShellId, phase: G.Phase) {
    && x in g.shells && x in h.shells && h.shells == g.shells[x := h.shells[x]]
    && h.shells[x] == g.shells[x].(attachment := None, detachTimer := false)
    && c !in g.conns && h.conns.Keys == g.conns.Keys + {c} && h.conns[c] == G.Conn(x, true, phase, false)
    && (forall d :: d in g.conns ==> h.conns[d] == g.conns[d].(stopped := h.conns[d].stopped))
    && StartedAlike(g, h)
  }

  ghost predicate JoinsTo(w: R.World, v: R.World, c: S.ConnId, x: S.ShellId) {
    && x in w.shells && v.shells == w.shells[x := w.shells[x].(attachment := None)]
    && c in w.socks && v.socks.Keys == w.socks.Keys
    && v.socks[c].shell == Some(x) && v.socks[c].resumed && v.socks[c].attached == w.socks[c].attached
    && forall s :: s in w.socks && s != c ==>
         v.socks[s].shell == w.socks[s].shell && v.socks[s].resumed == w.socks[s].resumed && v.socks[s].attached == w.socks[s].attached
  }

  lemma TakeOverIsAlike(g: G.Gateway, x: S.ShellId)
    requires G.WellFormed(g) && AttachedHere(g) && x in g.shells
    ensures var h := G.TakeOver(g, x);
            && x in h.shells && h.shells == g.shells[x := h.shells[x]]
            && h.shells[x] == g.shells[x].(attachment := None, detachTimer := false)
            && h.conns.Keys == g.conns.Keys
            && (forall d :: d in g.conns ==> h.conns[d] == g.conns[d].(stopped := h.conns[d].stopped))
            && StartedAlike(g, h)
  {
    var s := g.shells[x];
    if s.attachment.Some? {
      StopIsAlike(g, s.attachment.value);
      StopsOne(g, s.attachment.value);
    }
    hide G.Stop, ConnsAlike, AttachedHere;
  }

  lemma StopsOne(g: G.Gateway, c: S.ConnId)
    requires G.WellFormed(g) && c in g.conns
    ensures var h := G.Stop(g, c);
            && h.conns.Keys == g.conns.Keys && (forall d :: d in g.conns ==> h.conns[d] == g.conns[d].(stopped := h.conns[d].stopped))
            && (forall x :: x in h.shells && x in g.shells && g.shells[x].attachment == Some(c) && g.conns[c].shell == x ==>
                  h.shells[x].(attachment := None) == g.shells[x].(attachment := None))
  {
  }

  lemma TakesOver(g: G.Gateway, c: S.ConnId, x: S.ShellId, phase: G.Phase)
    requires G.WellFormed(g) && AttachedHere(g) && x in g.shells && c !in g.conns
    ensures JoinsIn(g, G.Join(G.TakeOver(g, x), c, x, phase), c, x, phase)
  {
    TakeOverIsAlike(g, x);
    hide G.TakeOver, G.WellFormed, AttachedHere, StartedAlike;
    var h := G.TakeOver(g, x);
    assert StartedAlike(g, G.Join(h, c, x, phase)) by { StartedTwice(g, h, G.Join(h, c, x, phase)); }
  }

  lemma StartedTwice(g: G.Gateway, h: G.Gateway, i: G.Gateway)
    requires StartedAlike(g, h) && i.started == h.started && i.registry == h.registry
    ensures StartedAlike(g, i)
  {
  }

  lemma ClaimRun(w: R.World, c: S.ConnId, x: S.ShellId, newId: S.ShellId)
    requires c in w.socks && w.socks[c].shell.None? && R.CanClaim(w, w.socks[c]) && w.socks[c].request == Some(x)
    ensures JoinsTo(w, R.Run(w, [R.Accepts(c, true, newId)]), c, x)
  {
    R.RunOne(w, R.Accepts(c, true, newId));
    hide R.Run;
  }

  lemma JoinedShells(g: G.Gateway, h: G.Gateway, w: R.World, v: R.World, c: S.ConnId, x: S.ShellId, phase: G.Phase)
    requires ShellsShow(g, w) && AttachedHere(g) && JoinsIn(g, h, c, x, phase) && JoinsTo(w, v, c, x)
    ensures ShellsShow(h, v) && AttachedHere(h)
  {
  }

  lemma JoinedConns(g: G.Gateway, h: G.Gateway, w: R.World, v: R.World, c: S.ConnId, x: S.ShellId, phase: G.Phase)
    requires ConnsShow(g, w) && JoinsIn(g, h, c, x, phase) && JoinsTo(w, v, c, x)
    requires x in g.started && phase != G.Attached && !w.socks[c].attached
    ensures ConnsShow(h, v)
  {
    forall d | d in h.conns ensures d in v.socks && SameConn(h.conns[d], v.socks[d]) && HasShell(h, v, d) {
      if d != c { assert SameConn(g.conns[d], w.socks[d]) && HasShell(g, w, d); }
    }
  }

  lemma JoinedStarted(g: G.Gateway, h: G.Gateway, w: R.World, v: R.World, c: S.ConnId, x: S.ShellId, phase: G.Phase)
    requires StartedShow(g, w) && JoinsIn(g, h, c, x, phase) && JoinsTo(w, v, c, x)
    ensures StartedShow(h, v)
  {
  }

  lemma JoinedShows(g: G.Gateway, h: G.Gateway, w: R.World, v: R.World, c: S.ConnId, x: S.ShellId, phase: G.Phase)
    requires Shows(g, w) && JoinsIn(g, h, c, x, phase) && JoinsTo(w, v, c, x)
    requires x in g.started && phase != G.Attached && !w.socks[c].attached
    ensures Shows(h, v)
  {
    hide ShellsShow, ConnsShow, StartedShow, AttachedHere, JoinsIn, JoinsTo;
    JoinedShells(g, h, w, v, c, x, phase);
    JoinedConns(g, h, w, v, c, x, phase);
    JoinedStarted(g, h, w, v, c, x, phase);
  }

  /** The claim itself: the shell is taken over. */
  lemma TakeOverShows(g: G.Gateway, w: R.World, e: G.Event, x: S.ShellId, phase: G.Phase)
    requires G.WellFormed(g) && G.RegistryOk(g) && Shows(g, w) && WorldFresh(w) && Dialed(w, e) && e.c !in g.conns
    requires G.Claimed(g, e) == Some(x) && ClaimsStarted(g, e) && phase != G.Attached
    ensures var h := G.Join(G.TakeOver(g, x), e.c, x, phase);
            x in h.shells && Shows(h, R.Run(w, [R.Accepts(e.c, true, e.newId)]))
  {
    ClaimFits(g, w, e, x);
    ShowsHere(g, w);
    hide *;
    TakesOver(g, e.c, x, phase);
    ClaimRun(w, e.c, x, e.newId);
    var h := G.Join(G.TakeOver(g, x), e.c, x, phase);
    JoinedHas(g, h, e.c, x, phase);
    JoinedShows(g, h, w, R.Run(w, [R.Accepts(e.c, true, e.newId)]), e.c, x, phase);
  }

  lemma ClaimSteps(g: G.Gateway, e: G.Event, x: S.ShellId)
    requires G.WellFormed(g) && e.Connect? && e.c !in g.conns && G.Claimed(g, e) == Some(x)
    ensures var h := G.Join(G.TakeOver(g, x), e.c, x, if e.open then G.Authorizing else G.Bailed);
            x in h.shells
            && G.Connected(g, e) == (if e.open then h else G.DetachIn(h, x))
            && ConnectEvents(g, e) ==
               [R.Accepts(e.c, true, e.newId)] + if e.open then [] else [R.ClosesSocket(e.c)] + DetachEvents(h, x)
  {
    hide G.WellFormed, G.DetachIn, DetachEvents, G.RegistryOk;
  }

  /** A socket that claims a shell, or one that was gone by then and gives it back. */
  lemma ClaimShows(g: G.Gateway, w: R.World, e: G.Event, x: S.ShellId)
    requires G.WellFormed(g) && G.RegistryOk(g) && Shows(g, w) && WorldFresh(w) && Dialed(w, e) && e.c !in g.conns
    requires G.Claimed(g, e) == Some(x) && ClaimsStarted(g, e)
    ensures Shows(G.Connected(g, e), R.Run(w, ConnectEvents(g, e)))
  {
    var phase := if e.open then G.Authorizing else G.Bailed;
    TakeOverShows(g, w, e, x, phase);
    ClaimSteps(g, e, x);
    var h, claim := G.Join(G.TakeOver(g, x), e.c, x, phase), [R.Accepts(e.c, true, e.newId)];
    hide *;
    if e.open {
      assert claim + [] == claim;
    } else {
      GivesBack(h, R.Run(w, claim), e.c, x);
      R.RunAppend(w, claim, [R.ClosesSocket(e.c)] + DetachEvents(h, x));
    }
  }

  lemma ShowsHere(g: G.Gateway, w: R.World)
    requires Shows(g, w)
    ensures AttachedHere(g) && g.shells.Keys == w.shells.Keys
  {
  }

  lemma JoinedHas(g: G.Gateway, h: G.Gateway, c: S.ConnId, x: S.ShellId, phase: G.Phase)
    requires JoinsIn(g, h, c, x, phase)
    ensures x in h.shells
  {
  }

  lemma GivesBack(g: G.Gateway, w: R.World, c: S.ConnId, x: S.ShellId)
    requires Shows(g, w) && x in g.shells
    ensures Shows(G.DetachIn(g, x), R.Run(w, [R.ClosesSocket(c)] + DetachEvents(g, x)))
  {
    var v := R.CloseSock(w, c);
    ClosingIsAlike(w, c);
    R.RunOne(w, R.ClosesSocket(c));
    assert ConnsAlike(g, g) && StartedAlike(g, g);
    hide R.Run, R.CloseSock, Shows, SocksAlike, ConnsAlike, StartedAlike, G.DetachIn, DetachEvents;
    NothingChanges(g, g, w, v);
    R.RunAppend(w, [R.ClosesSocket(c)], DetachEvents(g, x));
    DetachShows(g, v, x);
  }

  /** A socket without a shell was not attached. */
  ghost predicate WorldFresh(w: R.World) {
    forall s :: s in w.socks && w.socks[s].shell.None? ==> !w.socks[s].attached
  }

  lemma ClaimFits(g: G.Gateway, w: R.World, e: G.Event, x: S.ShellId)
    requires G.WellFormed(g) && G.RegistryOk(g) && Shows(g, w) && WorldFresh(w) && Dialed(w, e)
    requires G.Claimed(g, e) == Some(x) && ClaimsStarted(g, e)
    ensures x in g.shells && x in g.started
    ensures e.c in w.socks && w.socks[e.c].shell.None? && !w.socks[e.c].attached && R.CanClaim(w, w.socks[e.c]) && w.socks[e.c].request == Some(x)
  {
    ShellHas(g, w, x);
  }

  ghost predicate OpensIn(g: G.Gateway, h: G.Gateway, c: S.ConnId, x: S.ShellId, keepAlive: bool) {
    && x !in g.shells && c !in g.conns
    && x in h.shells && h.shells == g.shells[x := h.shells[x]]
    && h.shells[x] == S.Shell(x, h.shells[x].userId, h.shells[x].serverId, h.shells[x].endpointHash, keepAlive,
                              false, None, 0, None, false, false, false)
    && h.conns == g.conns[c := G.Conn(x, false, G.Authorizing, false)]
    && h.started == g.started && h.registry == g.registry
  }

  ghost predicate OpensTo(w: R.World, v: R.World, c: S.ConnId, x: S.ShellId, keepAlive: bool) {
    && x !in w.shells && v.shells == w.shells[x := R.Shell([], keepAlive, c, false, false, None, None)]
    && c in w.socks && !w.socks[c].attached && v.socks == w.socks[c := w.socks[c].(shell := Some(x), resumed := false)]
  }

  lemma OpenedShells(g: G.Gateway, h: G.Gateway, w: R.World, v: R.World, c: S.ConnId, x: S.ShellId, keepAlive: bool)
    requires ShellsShow(g, w) && AttachedHere(g) && OpensIn(g, h, c, x, keepAlive) && OpensTo(w, v, c, x, keepAlive)
    ensures ShellsShow(h, v) && AttachedHere(h)
  {
  }

  lemma OpenedStarted(g: G.Gateway, h: G.Gateway, w: R.World, v: R.World, c: S.ConnId, x: S.ShellId, keepAlive: bool)
    requires StartedShow(g, w) && OpensIn(g, h, c, x, keepAlive) && OpensTo(w, v, c, x, keepAlive)
    ensures StartedShow(h, v)
  {
  }

  lemma OpenedShows(g: G.Gateway, h: G.Gateway, w: R.World, v: R.World, c: S.ConnId, x: S.ShellId, keepAlive: bool)
    requires Shows(g, w) && OpensIn(g, h, c, x, keepAlive) && OpensTo(w, v, c, x, keepAlive)
    ensures Shows(h, v)
  {
    hide ShellsShow, ConnsShow, StartedShow, AttachedHere, OpensIn, OpensTo;
    OpenedShells(g, h, w, v, c, x, keepAlive);
    OpenedConns(g, h, w, v, c, x, keepAlive);
    OpenedStarted(g, h, w, v, c, x, keepAlive);
  }

  lemma OpenedConns(g: G.Gateway, h: G.Gateway, w: R.World, v: R.World, c: S.ConnId, x: S.ShellId, keepAlive: bool)
    requires ConnsShow(g, w) && OpensIn(g, h, c, x, keepAlive) && OpensTo(w, v, c, x, keepAlive)
    ensures ConnsShow(h, v)
  {
    forall d | d in h.conns ensures d in v.socks && SameConn(h.conns[d], v.socks[d]) && HasShell(h, v, d) {
      if d != c { assert SameConn(g.conns[d], w.socks[d]) && HasShell(g, w, d); }
    }
  }

  lemma OpenRun(w: R.World, c: S.ConnId, x: S.ShellId)
    requires c in w.socks && w.socks[c].shell.None? && !w.socks[c].attached && x !in w.shells
    ensures OpensTo(w, R.Run(w, [R.Accepts(c, false, x)]), c, x, w.socks[c].keepAlive)
  {
    R.RunOne(w, R.Accepts(c, false, x));
    hide R.Run;
  }

  /** A socket that claims nothing opens a shell of its own, unless it is gone. */
  lemma OpenShows(g: G.Gateway, w: R.World, e: G.Event)
    requires G.WellFormed(g) && Shows(g, w) && WorldFresh(w) && Dialed(w, e) && e.c !in g.conns && g.ttl > 0
    requires G.Claimed(g, e) == None
    ensures Shows(G.Connected(g, e), R.Run(w, ConnectEvents(g, e)))
  {
    assert R.Run(w, []) == w;
    ShowsHere(g, w);
    if e.open && e.newId !in g.shells {
      assert OpensIn(g, G.Connected(g, e), e.c, e.newId, e.keepAlive);
      hide R.Run, R.Step, Shows, OpensIn, OpensTo, G.Connected;
      OpenRun(w, e.c, e.newId);
      OpenedShows(g, G.Connected(g, e), w, R.Run(w, [R.Accepts(e.c, false, e.newId)]), e.c, e.newId, e.keepAlive);
    }
  }

  // ---- Output ----

  /** The shell `x` changed in neither its connection nor its life, and in both views alike. */
  lemma TouchShows(g: G.Gateway, w: R.World, x: S.ShellId, s: S.Shell, h: R.Shell)
    requires Shows(g, w) && x in g.shells && x in w.shells && SameShell(s, h)
    requires s.attachment == g.shells[x].attachment && h.opener == w.shells[x].opener
    ensures Shows(g.(shells := g.shells[x := s]), w.(shells := w.shells[x := h]))
  {
    var k, v := g.(shells := g.shells[x := s]), w.(shells := w.shells[x := h]);
    assert ConnsAlike(g, k) && StartedAlike(g, k) && SocksAlike(w, v);
    hide Shows, ConnsAlike, SocksAlike, StartedAlike, SameShell;
    ShellChanges(g, k, w, v, x);
  }

  lemma PauseShows(g: G.Gateway, w: R.World, c: S.ConnId, paused: bool)
    requires G.WellFormed(g) && Shows(g, w) && G.Feeds(g, c)
    ensures Shows(G.SetPaused(g, c, paused), w)
  {
    var x := g.conns[c].shell;
    ShellHas(g, w, x);
    hide Shows;
    TouchShows(g, w, x, g.shells[x].(paused := paused), w.shells[x]);
    assert w.(shells := w.shells[x := w.shells[x]]) == w;
  }

  lemma StreamRun(w: R.World, x: S.ShellId)
    requires x in w.shells && !w.shells[x].ended && w.shells[x].opener in w.socks && w.socks[w.shells[x].opener].attached
    ensures var v := R.Run(w, [R.OpensShell(x)]);
            SocksAlike(w, v) && v.shells == w.shells[x := w.shells[x].(started := true)]
  {
    R.RunOne(w, R.OpensShell(x));
    hide R.Run;
  }

  lemma StreamShows(g: G.Gateway, w: R.World, x: S.ShellId)
    requires G.WellFormed(g) && Shows(g, w) && x in g.shells && x in g.started && !g.shells[x].ended
    ensures Shows(g.(shells := g.shells[x := g.shells[x].(stream := true)]), R.Run(w, [R.OpensShell(x)]))
  {
    var h, v := g.(shells := g.shells[x := g.shells[x].(stream := true)]), R.Run(w, [R.OpensShell(x)]);
    ShellHas(g, w, x);
    StreamRun(w, x) by { StartedHas(g, w, x); }
    assert ConnsAlike(g, h) && StartedAlike(g, h);
    hide Shows, ConnsAlike, SocksAlike, StartedAlike, R.Run, R.Step, G.WellFormed;
    ShellChanges(g, h, w, v, x);
  }

  lemma StartedHas(g: G.Gateway, w: R.World, x: S.ShellId)
    requires Shows(g, w) && x in g.started
    ensures x in w.shells && w.shells[x].opener in w.socks && w.socks[w.shells[x].opener].attached
  {
  }

  lemma PrintRun(w: R.World, x: S.ShellId, data: seq<byte>)
    requires x in w.shells
    ensures var v, h := R.Run(w, [R.Prints(x, data, true)]), w.shells[x];
            SocksAlike(w, v) && v.shells == if h.started && !h.ended then w.shells[x := h.(output := h.output + data)] else w.shells
  {
    R.RunOne(w, R.Prints(x, data, true));
    hide R.Run;
  }

  lemma PrintIsAlike(g: G.Gateway, x: S.ShellId, bytes: nat)
    requires G.WellFormed(g) && x in g.shells
    ensures var h, s := G.Step(g, G.Prints(x, bytes)), g.shells[x];
            && ConnsAlike(g, h) && StartedAlike(g, h)
            && h.shells == g.shells[x := if s.stream then s.(outputEnd := s.outputEnd + bytes) else s]
  {
  }

  lemma PrintShows(g: G.Gateway, w: R.World, x: S.ShellId, data: seq<byte>)
    requires G.WellFormed(g) && Shows(g, w) && x in g.shells
    ensures Shows(G.Step(g, G.Prints(x, |data|)), R.Run(w, [R.Prints(x, data, true)]))
  {
    var h, v := G.Step(g, G.Prints(x, |data|)), R.Run(w, [R.Prints(x, data, true)]);
    ShellHas(g, w, x);
    PrintRun(w, x, data);
    PrintIsAlike(g, x, |data|);
    hide Shows, ConnsAlike, SocksAlike, StartedAlike, R.Run, R.Step, G.Step, G.WellFormed;
    assert v.shells == w.shells[x := v.shells[x]];
    ShellChanges(g, h, w, v, x);
  }

  // ---- Every step and every run ----

  /** What the gateway gets from outside is what the world has: a dialed socket, the bytes printed. */
  ghost predicate Fits(g: G.Gateway, w: R.World, e: G.Event, printed: seq<byte>) {
    && (e.Connect? ==> Dialed(w, e) && ClaimsStarted(g, e))
    && (e.Prints? ==> |printed| == e.bytes)
  }

  /** Every handler of the gateway is a run of the world that ends in the matching state. */
  lemma StepShows(g: G.Gateway, w: R.World, e: G.Event, printed: seq<byte>)
    requires G.WellFormed(g) && G.RegistryOk(g) && Shows(g, w) && WorldFresh(w) && g.ttl > 0 && Fits(g, w, e, printed)
    ensures Shows(G.Step(g, e), R.Run(w, EventsOf(g, e, printed)))
  {
    hide *;
    if e.Connect? {
      ConnectShows(g, w, e, printed);
    } else if e.Authorize? {
      AuthorizeShows(g, w, e, printed);
    } else if e.Backlog? || e.Drained? {
      PausingShows(g, w, e, printed);
    } else if e.StreamOpens? {
      StreamingShows(g, w, e, printed);
    } else if e.Prints? {
      PrintingShows(g, w, e, printed);
    } else if e.ShellGone? || e.TtlFires? {
      EndingShows(g, w, e, printed);
    } else {
      OwnEndShows(g, w, e, printed);
    }
  }

  lemma ConnectShows(g: G.Gateway, w: R.World, e: G.Event, printed: seq<byte>)
    requires G.WellFormed(g) && G.RegistryOk(g) && Shows(g, w) && WorldFresh(w) && g.ttl > 0 && Fits(g, w, e, printed) && e.Connect?
    ensures Shows(G.Step(g, e), R.Run(w, EventsOf(g, e, printed)))
  {
    assert R.Run(w, []) == w;
    hide R.Run, R.Step, Shows, G.RegistryOk, G.Connected, ConnectEvents, Dialed, WorldFresh;
    if e.c !in g.conns {
      match G.Claimed(g, e) {
        case Some(x) => ClaimShows(g, w, e, x);
        case None => OpenShows(g, w, e);
      }
    }
  }

  lemma AuthorizeShows(g: G.Gateway, w: R.World, e: G.Event, printed: seq<byte>)
    requires G.WellFormed(g) && G.RegistryOk(g) && Shows(g, w) && e.Authorize?
    ensures Shows(G.Step(g, e), R.Run(w, EventsOf(g, e, printed)))
  {
    assert R.Run(w, []) == w;
    if e.c in g.conns && g.conns[e.c].phase == G.Authorizing {
      assert g.shells[g.conns[e.c].shell].id == g.conns[e.c].shell;
      hide R.Run, R.Step, Shows, G.RegistryOk, G.Attach, G.StopTerminal, G.LetGo, StopTerminalEvents, LetGoEvents;
      match e.verdict {
        case Allowed => AttachShows(g, w, e.c);
        case Refused => StopTerminalShows(g, w, e.c); FinishShows(G.StopTerminal(g, e.c), R.Run(w, StopTerminalEvents(g, e.c)), e.c);
        case Unavailable => LetGoShows(g, w, e.c); FinishShows(G.LetGo(g, e.c), R.Run(w, LetGoEvents(g, e.c)), e.c);
      }
    }
  }

  lemma FinishShows(h: G.Gateway, w: R.World, c: S.ConnId)
    requires Shows(h, w) && (c in h.conns ==> h.conns[c].phase != G.Attached)
    ensures Shows(G.Finish(h, c), w)
  {
    assert ConnsAlike(h, G.Finish(h, c)) && StartedAlike(h, G.Finish(h, c)) && SocksAlike(w, w);
    hide Shows, ConnsAlike, StartedAlike, SocksAlike;
    NothingChanges(h, G.Finish(h, c), w, w);
  }

  lemma PauseStep(g: G.Gateway, e: G.Event, printed: seq<byte>)
    requires G.WellFormed(g) && (e.Backlog? || e.Drained?)
    ensures EventsOf(g, e, printed) == []
    ensures G.Step(g, e) == if G.Feeds(g, e.c) then G.SetPaused(g, e.c, e.Backlog?) else g
  {
    hide G.WellFormed, G.Feeds, G.SetPaused;
  }

  lemma PausingShows(g: G.Gateway, w: R.World, e: G.Event, printed: seq<byte>)
    requires G.WellFormed(g) && Shows(g, w) && (e.Backlog? || e.Drained?)
    ensures Shows(G.Step(g, e), R.Run(w, EventsOf(g, e, printed)))
  {
    assert R.Run(w, []) == w;
    PauseStep(g, e, printed);
    hide *;
    if G.Feeds(g, e.c) { PauseShows(g, w, e.c, e.Backlog?); }
  }

  lemma StreamStep(g: G.Gateway, e: G.Event, printed: seq<byte>)
    requires G.WellFormed(g) && e.StreamOpens?
    ensures var opens := e.x in g.shells && e.x in g.started && !g.shells[e.x].ended;
            && G.Step(g, e) == (if opens then g.(shells := g.shells[e.x := g.shells[e.x].(stream := true)]) else g)
            && EventsOf(g, e, printed) == if opens then [R.OpensShell(e.x)] else []
  {
    hide G.WellFormed;
  }

  lemma StreamingShows(g: G.Gateway, w: R.World, e: G.Event, printed: seq<byte>)
    requires G.WellFormed(g) && Shows(g, w) && e.StreamOpens?
    ensures Shows(G.Step(g, e), R.Run(w, EventsOf(g, e, printed)))
  {
    assert R.Run(w, []) == w;
    StreamStep(g, e, printed);
    hide *;
    if e.x in g.shells && e.x in g.started && !g.shells[e.x].ended { StreamShows(g, w, e.x); }
  }

  lemma PrintingShows(g: G.Gateway, w: R.World, e: G.Event, printed: seq<byte>)
    requires G.WellFormed(g) && Shows(g, w) && e.Prints? && Fits(g, w, e, printed)
    ensures Shows(G.Step(g, e), R.Run(w, EventsOf(g, e, printed)))
  {
    ShowsHere(g, w);
    R.RunOne(w, R.Prints(e.x, printed, true));
    hide R.Run, R.Print, Shows, G.WellFormed;
    if e.x in g.shells { PrintShows(g, w, e.x, printed); }
  }

  lemma ShellEnd(g: G.Gateway, e: G.Event, printed: seq<byte>)
    requires G.WellFormed(g) && (e.ShellGone? || e.TtlFires?)
    ensures var h, es := G.Step(g, e), EventsOf(g, e, printed);
            || (h == g && es == [])
            || (e.x in g.shells && h == G.EndIn(g, e.x, e.ShellGone?) && es == EndEvents(e.x, e.ShellGone?))
  {
    hide G.EndIn, EndEvents, G.WellFormed;
  }

  lemma EndingShows(g: G.Gateway, w: R.World, e: G.Event, printed: seq<byte>)
    requires G.WellFormed(g) && Shows(g, w) && (e.ShellGone? || e.TtlFires?)
    ensures Shows(G.Step(g, e), R.Run(w, EventsOf(g, e, printed)))
  {
    assert R.Run(w, []) == w;
    ShellEnd(g, e, printed);
    hide *;
    if e.x in g.shells { EndShows(g, w, e.x, e.ShellGone?); }
  }

  /** A connection's own end either stops its terminal or lets go of its shell, or changes nothing. */
  lemma OwnEnd(g: G.Gateway, e: G.Event, printed: seq<byte>)
    requires G.WellFormed(g) && (e.Recheck? || e.SocketClosed? || e.QueueOverflow? || e.EndMessage? || e.InvalidMessage?)
    ensures var h, es := G.Step(g, e), EventsOf(g, e, printed);
            || (h == g && es == [])
            || (e.c in g.conns && h == G.StopTerminal(g, e.c) && es == StopTerminalEvents(g, e.c))
            || (e.c in g.conns && h == G.LetGo(g, e.c) && es == LetGoEvents(g, e.c))
  {
    hide G.StopTerminal, G.LetGo, StopTerminalEvents, LetGoEvents, G.WellFormed;
  }

  lemma OwnEndShows(g: G.Gateway, w: R.World, e: G.Event, printed: seq<byte>)
    requires G.WellFormed(g) && Shows(g, w)
    requires e.Recheck? || e.SocketClosed? || e.QueueOverflow? || e.EndMessage? || e.InvalidMessage?
    ensures Shows(G.Step(g, e), R.Run(w, EventsOf(g, e, printed)))
  {
    assert R.Run(w, []) == w;
    OwnEnd(g, e, printed);
    hide *;
    if e.c in g.conns {
      StopTerminalShows(g, w, e.c);
      LetGoShows(g, w, e.c);
    }
  }

  lemma {:induction false} RunFresh(w: R.World, es: seq<R.Event>)
    requires WorldFresh(w)
    ensures WorldFresh(R.Run(w, es))
    decreases |es|
  {
    hide WorldFresh, R.Step;
    if es != [] {
      StepFresh(w, es[0]);
      RunFresh(R.Step(w, es[0]), es[1..]);
    }
  }

  lemma StepFresh(w: R.World, e: R.Event)
    requires WorldFresh(w)
    ensures WorldFresh(R.Step(w, e))
  {
    if e.Attaches? && e.s in w.socks { AttachFresh(w, e.s, e.fits); }
    hide R.OnMessage, R.Attach;
  }

  lemma AttachToFresh(w: R.World, s: nat, x: S.ShellId, ms: seq<R.Message>, keepOpen: bool)
    requires WorldFresh(w) && s in w.socks && x in w.shells && w.socks[s].shell.Some?
    ensures WorldFresh(R.AttachTo(w, s, x, ms, keepOpen))
  {
  }

  lemma AttachFresh(w: R.World, s: nat, fits: bool)
    requires WorldFresh(w) && s in w.socks
    ensures WorldFresh(R.Attach(w, s, fits))
  {
    forall x, ms, keepOpen | x in w.shells && w.socks[s].shell.Some? ensures WorldFresh(R.AttachTo(w, s, x, ms, keepOpen)) {
      AttachToFresh(w, s, x, ms, keepOpen);
    }
    forall v, x, mark | WorldFresh(v) && x in v.shells ensures WorldFresh(R.Unattach(v, x, mark)) {}
    hide H.ReplayOf, R.AttachTo, R.Unattach, WorldFresh;
  }

  // ---- Gateway and browsers together ----

  datatype Joint = Joint(gateway: G.Gateway, world: R.World)

  datatype JointEvent = AtGateway(ge: G.Event, printed: seq<byte>) | AtBrowser(be: R.Event)

  predicate FromBrowser(e: R.Event) {
    e.Loads? || e.Dials? || e.HangsUp? || e.Forgets? || e.GoesSilent? || e.Delivers?
  }

  /** An event that cannot happen changes nothing. */
  ghost function JointStep(j: Joint, e: JointEvent): Joint
    requires G.WellFormed(j.gateway)
  {
    match e
    case AtGateway(ge, printed) =>
      if Fits(j.gateway, j.world, ge, printed)
      then Joint(G.Step(j.gateway, ge), R.Run(j.world, EventsOf(j.gateway, ge, printed))) else j
    case AtBrowser(be) => if FromBrowser(be) then j.(world := R.Step(j.world, be)) else j
  }

  ghost predicate JointOk(j: Joint) {
    G.WellFormed(j.gateway) && G.RegistryOk(j.gateway) && j.gateway.ttl > 0 && Shows(j.gateway, j.world) && WorldFresh(j.world)
  }

  /** New sockets may have been dialed; the others have what they had. */
  ghost predicate SocksKept(w: R.World, v: R.World) {
    && v.shells == w.shells
    && forall s :: s in w.socks ==>
         && s in v.socks && v.socks[s].shell == w.socks[s].shell
         && v.socks[s].resumed == w.socks[s].resumed && v.socks[s].attached == w.socks[s].attached
  }

  lemma BrowserKeeps(w: R.World, e: R.Event)
    requires FromBrowser(e)
    ensures SocksKept(w, R.Step(w, e))
  {
    hide R.OnMessage;
  }

  lemma KeptConns(g: G.Gateway, w: R.World, v: R.World)
    requires ConnsShow(g, w) && SocksKept(w, v)
    ensures ConnsShow(g, v)
  {
    forall d | d in g.conns ensures d in v.socks && SameConn(g.conns[d], v.socks[d]) && HasShell(g, v, d) {
      assert SameConn(g.conns[d], w.socks[d]) && HasShell(g, w, d);
    }
  }

  lemma BrowserShows(g: G.Gateway, w: R.World, e: R.Event)
    requires Shows(g, w) && FromBrowser(e)
    ensures Shows(g, R.Step(w, e))
  {
    BrowserKeeps(w, e);
    KeptConns(g, w, R.Step(w, e));
    hide R.Step, SameShell, ConnsShow;
  }

  lemma EndingTtl(g: G.Gateway, c: S.ConnId)
    requires G.WellFormed(g) && c in g.conns
    ensures G.StopTerminal(g, c).ttl == g.ttl && G.LetGo(g, c).ttl == g.ttl
  {
  }

  lemma ConnectTtl(g: G.Gateway, e: G.Event)
    requires G.WellFormed(g) && e.Connect? && e.c !in g.conns
    ensures G.Connected(g, e).ttl == g.ttl
  {
  }

  lemma StepTtl(g: G.Gateway, e: G.Event)
    requires G.WellFormed(g)
    ensures G.Step(g, e).ttl == g.ttl
  {
    hide G.Connected, G.StopTerminal, G.LetGo, G.WellFormed, G.Feeds, G.Claimed;
    match e {
      case Connect(c, _, _, _, _, _, _, _) => if c !in g.conns { ConnectTtl(g, e); }
      case Authorize(c, _) => if c in g.conns { EndingTtl(g, c); }
      case Recheck(c, _) => if c in g.conns { EndingTtl(g, c); }
      case SocketClosed(c) => if c in g.conns { EndingTtl(g, c); }
      case QueueOverflow(c) => if c in g.conns { EndingTtl(g, c); }
      case EndMessage(c) => if c in g.conns { EndingTtl(g, c); }
      case InvalidMessage(c) => if c in g.conns { EndingTtl(g, c); }
      case _ =>
    }
  }

  lemma JointStepOk(j: Joint, e: JointEvent)
    requires JointOk(j)
    ensures JointOk(JointStep(j, e))
  {
    var g, w := j.gateway, j.world;
    match e {
      case AtGateway(ge, printed) =>
        hide G.Step, R.Run, EventsOf, Shows, WorldFresh, G.RegistryOk, Fits;
        if Fits(g, w, ge, printed) {
          G.StepKeepsRegistry(g, ge);
          StepTtl(g, ge);
          StepShows(g, w, ge, printed);
          RunFresh(w, EventsOf(g, ge, printed));
        }
      case AtBrowser(be) =>
        hide R.Step, Shows, WorldFresh, G.RegistryOk;
        if FromBrowser(be) { BrowserShows(g, w, be); StepFresh(w, be); }
    }
  }

  ghost function JointRun(j: Joint, es: seq<JointEvent>): Joint
    requires JointOk(j)
    decreases |es|
  {
    if es == [] then j else
    JointStepOk(j, es[0]);
    JointRun(JointStep(j, es[0]), es[1..])
  }

  ghost function StartJoint(ttl: nat): (j: Joint)
    requires ttl > 0
    ensures JointOk(j)
  {
    G.StartOk(ttl);
    Joint(G.Start(ttl), R.NOTHING)
  }

  /** The world of a joint run is that of a run of the world alone. */
  lemma {:induction false} JointIsRun(j: Joint, es: seq<JointEvent>) returns (ws: seq<R.Event>)
    requires JointOk(j)
    ensures JointOk(JointRun(j, es)) && JointRun(j, es).world == R.Run(j.world, ws)
    decreases |es|
  {
    ws := [];
    if es != [] {
      JointStepOk(j, es[0]);
      var k := JointStep(j, es[0]);
      var first := StepIsRun(j, es[0]);
      hide JointOk, JointStep, R.Run;
      var rest := JointIsRun(k, es[1..]);
      ws := first + rest;
      R.RunAppend(j.world, first, rest);
    }
  }

  lemma StepIsRun(j: Joint, e: JointEvent) returns (ws: seq<R.Event>)
    requires JointOk(j)
    ensures JointStep(j, e).world == R.Run(j.world, ws)
  {
    var k := JointStep(j, e);
    ws := [];
    assert R.Run(j.world, []) == j.world;
    match e {
      case AtGateway(ge, printed) => if Fits(j.gateway, j.world, ge, printed) { ws := EventsOf(j.gateway, ge, printed); }
      case AtBrowser(be) => if FromBrowser(be) { ws := [be]; R.RunOne(j.world, be); }
    }
  }

  /**
   * In every run of the gateway and its browsers in which no shell prints 10^15 bytes, what a terminal did for the
   * shell it shows is that shell's output, once and in order up to announced gaps; and the output of a
   * live shell is as long as the gateway's own count says.
   */
  lemma GatewayShowsExactlyOnce(ttl: nat, es: seq<JointEvent>, t: nat)
    requires ttl > 0 && R.Small(JointRun(StartJoint(ttl), es).world)
    ensures var j := JointRun(StartJoint(ttl), es);
            && (t in j.world.terminals ==>
                  var c := j.world.terminals[t]; R.Faithful(c.log, R.OutputOf(j.world, c.shown), c.receivedBytes))
            && j.gateway.shells.Keys == j.world.shells.Keys
            && (forall x :: x in j.gateway.shells && !j.gateway.shells[x].ended ==>
                  && j.gateway.shells[x].outputEnd == |j.world.shells[x].output|
                  && j.gateway.shells[x].attachment == j.world.shells[x].attachment)
  {
    var j := JointRun(StartJoint(ttl), es);
    var ws := JointIsRun(StartJoint(ttl), es);
    R.ExactlyOnce(ws, t);
    hide R.Run, G.RegistryOk, R.Faithful, JointRun;
    assert forall x :: x in j.gateway.shells ==> SameShell(j.gateway.shells[x], j.world.shells[x]);
  }
}

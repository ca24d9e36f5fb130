/**
 * What goes wrong outside orderly runs: whenever an open socket claims a shell another connection is being
 * authorized for, both may attach, and the shell reads what their terminals type mixed.
 */
module MixedInput {
  import opened Bytes
  import opened ShellSessions
  import opened TerminalInput
  import G = Lifecycle
  import P = MessagePipeline
  import I = InputPath

  // ---- Runs ----

  lemma {:induction false} RunAppend(w: World, es: seq<Event>, more: seq<Event>)
    requires GatewayOk(w.gateway)
    ensures Run(w, es + more) == Run(Run(w, es), more)
    decreases |es|
  {
    hide GatewayOk, Step;
    if es == [] {
      assert es + more == more;
    } else {
      StepOk(w, es[0]);
      assert (es + more)[0] == es[0] && (es + more)[1..] == es[1..] + more;
      RunAppend(Step(w, es[0]), es[1..], more);
    }
  }

  lemma RunOne(w: World, e: Event)
    requires GatewayOk(w.gateway)
    ensures Run(w, [e]) == Step(w, e)
  {
    hide GatewayOk, Step;
    assert [e][1..] == [];
  }

  lemma RunMore(w: World, es: seq<Event>, e: Event)
    requires GatewayOk(w.gateway)
    ensures Run(w, es + [e]) == Step(Run(w, es), e)
  {
    hide GatewayOk, Step;
    RunAppend(w, es, [e]);
    RunOne(Run(w, es), e);
  }

  lemma RunFirst(w: World, e: Event, es: seq<Event>)
    requires GatewayOk(w.gateway)
    ensures GatewayOk(Step(w, e).gateway) && Run(w, [e] + es) == Run(Step(w, e), es)
  {
    hide GatewayOk, Step;
    StepOk(w, e);
    assert ([e] + es)[1..] == es;
  }

  // ---- A terminal types, and its connection writes all of it ----

  /** Terminal `t` types into `d`, which has the shell `x`. */
  ghost predicate TypesInto(w: World, t: TerminalId, d: ConnId, x: ShellId) {
    && GatewayOk(w.gateway) && t in w.current && w.current[t] == d && d in w.links
    && d in w.gateway.conns && w.gateway.conns[d].shell == x
  }

  /** From `w` to `v` only the connection `d` moved, and wrote `data` to the shell `x`. */
  ghost predicate Moved(w: World, v: World, d: ConnId, x: ShellId, data: seq<byte>) {
    && v.gateway == w.gateway && v.current == w.current
    && d in v.links && v.links == w.links[d := v.links[d]]
    && Entry(v.input, x) == Entry(w.input, x) + data
  }

  function AtTerminal(t: TerminalId, d: ConnId, e: I.Event): Event {
    if FromBrowser(e) then Browser(t, e) else Network(d, e)
  }

  lemma LinkMoves(w: World, t: TerminalId, d: ConnId, x: ShellId, e: I.Event)
    requires TypesInto(w, t, d, x) && (FromBrowser(e) || FromNetwork(e))
    requires var k := I.Step(w.links[d], e); !k.pipe.stopped && w.links[d].pipe.written <= k.pipe.written
    ensures var v := Step(w, AtTerminal(t, d, e));
            && Moved(w, v, d, x, I.Step(w.links[d], e).pipe.written[|w.links[d].pipe.written|..])
            && v.links[d] == I.Step(w.links[d], e)
  {
    hide I.Step, GatewayOk, Push;
    var l, k := w.links[d], I.Step(w.links[d], e);
    PushNone(OnLink(w, d, e), d);
    if l.pipe.written == k.pipe.written { assert Entry(w.input, x) + k.pipe.written[|l.pipe.written|..] == Entry(w.input, x); }
  }

  lemma PushNone(w: World, c: ConnId)
    requires GatewayOk(w.gateway) && c in w.links && !w.links[c].pipe.stopped
    ensures Push(w, c) == w
  {
  }

  lemma MovedTwice(w: World, u: World, v: World, d: ConnId, x: ShellId, data: seq<byte>, more: seq<byte>)
    requires Moved(w, u, d, x, data) && Moved(u, v, d, x, more)
    ensures Moved(w, v, d, x, data + more)
  {
    assert (Entry(w.input, x) + data) + more == Entry(w.input, x) + (data + more);
  }

  lemma StaysTypedInto(w: World, v: World, t: TerminalId, d: ConnId, x: ShellId, data: seq<byte>)
    requires TypesInto(w, t, d, x) && Moved(w, v, d, x, data)
    ensures TypesInto(v, t, d, x)
  {
  }

  /** Connection `d` wrote all it accepted, and nothing else moved. */
  ghost predicate Flushed(w: World, v: World, d: ConnId, x: ShellId)
    requires d in w.links
  {
    var l := w.links[d];
    && l.pipe.written <= l.accepted
    && Moved(w, v, d, x, l.accepted[|l.pipe.written|..])
    && I.Flushable(v.links[d]) && v.links[d].accepted == v.links[d].pipe.written == l.accepted
  }

  lemma NothingToFlush(w: World, t: TerminalId, d: ConnId, x: ShellId)
    requires TypesInto(w, t, d, x) && I.Flushable(w.links[d]) && I.Unfinished(w.links[d]) == 0
    ensures Flushed(w, w, d, x)
  {
    I.FlushedWroteAll(w.links[d]);
    assert w.links == w.links[d := w.links[d]];
  }

  lemma FlushMoves(w: World, t: TerminalId, d: ConnId, x: ShellId) returns (e: Event)
    requires TypesInto(w, t, d, x) && I.Flushable(w.links[d]) && I.Unfinished(w.links[d]) > 0
    ensures var u, l := Step(w, e), w.links[d];
            && TypesInto(u, t, d, x) && d in u.links && I.Flushable(u.links[d])
            && I.Unfinished(u.links[d]) < I.Unfinished(l) && u.links[d].accepted == l.accepted
            && l.pipe.written <= u.links[d].pipe.written <= l.accepted
            && Moved(w, u, d, x, u.links[d].pipe.written[|l.pipe.written|..])
  {
    var l := w.links[d];
    var m := I.NextMove(l);
    var k := I.Step(l, m);
    assert FromBrowser(m) || FromNetwork(m);
    I.MoveFlushes(l);
    hide GatewayOk, I.Flushable, I.Unfinished, I.Step, Step, I.NextMove;
    LiveIsNotStopped(k);
    LinkMoves(w, t, d, x, m);
    e := AtTerminal(t, d, m);
    StaysTypedInto(w, Step(w, e), t, d, x, k.pipe.written[|l.pipe.written|..]);
  }

  lemma FlushedTwice(w: World, u: World, v: World, d: ConnId, x: ShellId)
    requires d in w.links && d in u.links && u.links[d].accepted == w.links[d].accepted
    requires w.links[d].pipe.written <= u.links[d].pipe.written <= w.links[d].accepted
    requires Moved(w, u, d, x, u.links[d].pipe.written[|w.links[d].pipe.written|..]) && Flushed(u, v, d, x)
    ensures Flushed(w, v, d, x)
  {
    hide I.Flushable;
    var all, some, most := w.links[d].accepted, w.links[d].pipe.written, u.links[d].pipe.written;
    assert most[|some|..] + all[|most|..] == all[|some|..];
    MovedTwice(w, u, v, d, x, most[|some|..], all[|most|..]);
  }

  /** Whatever a live connection accepted, it can write all of it. */
  lemma {:induction false} Flush(w: World, t: TerminalId, d: ConnId, x: ShellId) returns (es: seq<Event>)
    requires TypesInto(w, t, d, x) && I.Flushable(w.links[d])
    ensures Flushed(w, Run(w, es), d, x)
    decreases I.Unfinished(w.links[d])
  {
    hide GatewayOk, I.Flushable, I.Unfinished, Step, Moved, Flushed;
    if I.Unfinished(w.links[d]) == 0 {
      es := [];
      NothingToFlush(w, t, d, x);
    } else {
      var e := FlushMoves(w, t, d, x);
      var rest := Flush(Step(w, e), t, d, x);
      es := [e] + rest;
      RunFirst(w, e, rest);
      FlushedTwice(w, Step(w, e), Run(w, es), d, x);
    }
  }

  lemma LiveIsNotStopped(l: I.Link)
    requires I.Flushable(l)
    ensures !l.pipe.stopped && !l.pipe.ended && l.pipe.written <= l.accepted
  {
    I.OrderedPrefix(l);
  }

  lemma TypeMoves(w: World, t: TerminalId, d: ConnId, x: ShellId, data: seq<byte>)
    requires TypesInto(w, t, d, x) && I.Flushable(w.links[d])
    ensures var u := Step(w, Types(t, data));
            && TypesInto(u, t, d, x) && Moved(w, u, d, x, []) && I.Flushable(u.links[d])
            && u.links[d].accepted == w.links[d].accepted + data && u.links[d].pipe.written == w.links[d].pipe.written
  {
    I.StepOrdered(w.links[d], I.Accepts(data));
    hide GatewayOk, I.Ordered, I.NoEnding;
    assert Step(w, Types(t, data)) == Type(w, t, data);
    hide Step;
    assert Entry(w.input, x) + [] == Entry(w.input, x);
  }

  /** Terminal `t` types `data`, and all its connection accepted so far reaches the shell. */
  lemma TypeAndFlush(w: World, t: TerminalId, d: ConnId, x: ShellId, data: seq<byte>) returns (es: seq<Event>)
    requires TypesInto(w, t, d, x) && I.Flushable(w.links[d])
    ensures var v, l := Run(w, es), w.links[d];
            && l.pipe.written <= l.accepted && Moved(w, v, d, x, l.accepted[|l.pipe.written|..] + data)
            && I.Flushable(v.links[d]) && v.links[d].accepted == v.links[d].pipe.written == l.accepted + data
  {
    var l := w.links[d];
    LiveIsNotStopped(l);
    TypeMoves(w, t, d, x, data);
    hide GatewayOk, I.Flushable, Step, Moved, TypesInto;
    var u := Step(w, Types(t, data));
    MovedLink(w, u, d, x, []);
    var rest := Flush(u, t, d, x);
    es := [Types(t, data)] + rest;
    RunFirst(w, Types(t, data), rest);
    assert (l.accepted + data)[|l.pipe.written|..] == l.accepted[|l.pipe.written|..] + data;
    MovedTwice(w, u, Run(w, es), d, x, [], l.accepted[|l.pipe.written|..] + data);
    assert [] + (l.accepted[|l.pipe.written|..] + data) == l.accepted[|l.pipe.written|..] + data;
  }

  lemma MovedLink(w: World, v: World, d: ConnId, x: ShellId, data: seq<byte>)
    requires Moved(w, v, d, x, data)
    ensures d in v.links
  {
  }

  // ---- Both connections attach ----

  /** Nothing stopped, cut or ended the connection, and nothing under way will. */
  predicate Usable(l: I.Link) {
    !I.Dead(l.pipe) && !l.cut && I.NoEnding(l.up) && I.NoEnding(l.pipe.early)
  }

  ghost predicate Waits(l: I.Link) {
    I.Ordered(l) && Usable(l) && l.pipe.phase == P.Awaiting && l.pipe.checking && l.pipe.stream
  }

  /** The connection has its claimed shell, whose stream is open. */
  ghost predicate Claims(g: G.Gateway, d: ConnId, phase: G.Phase, x: ShellId)
    requires G.WellFormed(g)
  {
    && d in g.conns && g.conns[d] == G.Conn(x, true, phase, false)
    && !g.shells[x].ended && g.shells[x].stream
  }

  ghost predicate SameBytes(l: I.Link, k: I.Link) {
    k.accepted == l.accepted && k.pipe.written == l.pipe.written
  }

  lemma OlderWaits(g: G.Gateway, h: G.Gateway, e: G.Event, d: ConnId, l: I.Link, x: ShellId)
    requires G.WellFormed(g) && G.WellFormed(h) && LinkOk(g, d, l) && Usable(l)
    requires e.Connect? && e.c != d && d in g.conns && g.conns[d].phase == G.Authorizing && Claims(h, d, G.Authorizing, x)
    ensures var k := LinkAfter(g, h, e, d, l); Waits(k) && SameBytes(l, k)
  {
    I.MarkedOrdered(l, false, false, true);
    hide I.Ordered, I.Step;
  }

  lemma NewerWaits(g: G.Gateway, h: G.Gateway, e: G.Event, l: I.Link, x: ShellId)
    requires G.WellFormed(g) && G.WellFormed(h) && e.Connect? && LinkOk(g, e.c, l) && Usable(l)
    requires e.c !in g.conns && Claims(h, e.c, G.Authorizing, x)
    ensures var k := LinkAfter(g, h, e, e.c, l); Waits(k) && SameBytes(l, k)
  {
    var k := I.Step(l, I.StartsListening);
    I.StepOrdered(l, I.StartsListening);
    I.MarkedOrdered(k, false, false, true);
    hide I.Ordered;
  }

  lemma WaiterAttaches(g: G.Gateway, h: G.Gateway, d: ConnId, l: I.Link, x: ShellId)
    requires G.WellFormed(g) && G.WellFormed(h) && Waits(l) && Claims(g, d, G.Authorizing, x) && Claims(h, d, G.Attached, x)
    ensures var k := LinkAfter(g, h, G.Authorize(d, G.Allowed), d, l); I.Flushable(k) && SameBytes(l, k)
  {
    I.SettleFlushes(l);
    hide I.Ordered, I.Step;
    var k := I.Step(l, I.Settles(P.Allowed));
    assert I.Marked(k.pipe, false, false, true) == k.pipe;
  }

  lemma OtherStays(g: G.Gateway, h: G.Gateway, d: ConnId, c: ConnId, l: I.Link, phase: G.Phase, x: ShellId)
    requires G.WellFormed(g) && G.WellFormed(h) && d != c && Claims(h, d, phase, x) && l.pipe.stream
    ensures LinkAfter(g, h, G.Authorize(c, G.Allowed), d, l) == l
  {
    assert I.Marked(l.pipe, false, false, true) == l.pipe;
  }

  /** A gateway step that stops none of the pipelines it reaches. */
  lemma GatewayMoves(w: World, e: G.Event)
    requires GatewayOk(w.gateway) && (e.Connect? ==> e.c in w.links)
    requires var h := GatewayStep(w.gateway, e);
             e.Authorize? ==> e.c in w.links && !LinkAfter(w.gateway, h, e, e.c, w.links[e.c]).pipe.stopped
    ensures var v, h := Step(w, AtGateway(e)), GatewayStep(w.gateway, e);
            && v.gateway == h && GatewayOk(h) && v.current == w.current && v.input == w.input
            && v.links == LinksAfter(w.gateway, h, e, w.links)
  {
    hide LinkAfter, GatewayStep, G.RegistryOk;
    if e.Authorize? { PushNone(OnGateway(w, e), e.c); }
  }

  /** Terminal `t` types into `older`, terminal `u` into `newer`; both connections claimed the shell `x`. */
  datatype Rivals = Rivals(t: TerminalId, older: ConnId, u: TerminalId, newer: ConnId, x: ShellId)

  ghost predicate Connected(w: World, r: Rivals) {
    && r.older != r.newer && r.older in w.links && r.newer in w.links
    && r.t in w.current && w.current[r.t] == r.older && r.u in w.current && w.current[r.u] == r.newer
  }

  ghost predicate Together(w: World, r: Rivals, older: G.Phase, newer: G.Phase) {
    && GatewayOk(w.gateway) && Connected(w, r)
    && Claims(w.gateway, r.older, older, r.x) && Claims(w.gateway, r.newer, newer, r.x)
  }

  /**
   * The newer connection's open socket claims the shell while the older one, which claimed it before, is being
   * authorized for it. Both terminals keep their connection, and no message that ends one is under way.
   */
  ghost predicate Overlaps(w: World, r: Rivals, e: G.Event) {
    && GatewayOk(w.gateway) && G.ClaimsInside(w.gateway, e, r.older, r.x) && e.c == r.newer
    && w.gateway.conns[r.older].resumed && r.x in w.gateway.shells && w.gateway.shells[r.x].stream
    && Connected(w, r) && Usable(w.links[r.older]) && Usable(w.links[r.newer])
  }

  /** The two pipelines' bytes and the shell's input are the same in `v`. */
  ghost predicate NothingWritten(w: World, v: World, r: Rivals)
    requires Connected(w, r) && Connected(v, r)
  {
    SameBytes(w.links[r.older], v.links[r.older]) && SameBytes(w.links[r.newer], v.links[r.newer]) && v.input == w.input
  }

  lemma OverlapClaims(w: World, r: Rivals, e: G.Event)
    requires InputOk(w) && Overlaps(w, r, e)
    ensures var g, h := w.gateway, GatewayStep(w.gateway, e);
            && G.WellFormed(g) && G.WellFormed(h) && e.Connect? && e.c == r.newer != r.older && e.c !in g.conns
            && r.older in g.conns && g.conns[r.older].phase == G.Authorizing
            && Claims(h, r.older, G.Authorizing, r.x) && Claims(h, r.newer, G.Authorizing, r.x)
  {
    hide G.NoOrphans, G.Step, Usable, Linked, Latest, AttachedOnce, Recorded, G.RegistryOk;
    G.ClaimsInsideJoins(w.gateway, e, r.older, r.x);
  }

  lemma OverlapLinks(w: World, r: Rivals, e: G.Event)
    requires InputOk(w) && Overlaps(w, r, e)
    ensures r.older in w.links && r.newer in w.links && G.WellFormed(w.gateway)
    ensures LinkOk(w.gateway, r.older, w.links[r.older]) && LinkOk(w.gateway, r.newer, w.links[r.newer])
    ensures Usable(w.links[r.older]) && Usable(w.links[r.newer])
  {
    hide LinkOk, Usable, G.NoOrphans, G.RegistryOk, Latest, AttachedOnce, Recorded;
  }

  lemma BothLinksWait(w: World, r: Rivals, e: G.Event)
    requires InputOk(w) && Overlaps(w, r, e)
    ensures var g, h := w.gateway, GatewayStep(w.gateway, e);
            && Claims(h, r.older, G.Authorizing, r.x) && Claims(h, r.newer, G.Authorizing, r.x)
            && var k, l := LinkAfter(g, h, e, r.older, w.links[r.older]), LinkAfter(g, h, e, r.newer, w.links[r.newer]);
               Waits(k) && Waits(l) && SameBytes(w.links[r.older], k) && SameBytes(w.links[r.newer], l)
  {
    hide *;
    OverlapClaims(w, r, e);
    OverlapLinks(w, r, e);
    OverlapOk(w, r, e);
    OlderWaits(w.gateway, GatewayStep(w.gateway, e), e, r.older, w.links[r.older], r.x);
    NewerWaits(w.gateway, GatewayStep(w.gateway, e), e, w.links[r.newer], r.x);
  }

  lemma OverlapOk(w: World, r: Rivals, e: G.Event)
    requires Overlaps(w, r, e)
    ensures GatewayOk(w.gateway)
  {
  }

  /** Where a gateway step leaves the two connections. */
  lemma StepLeaves(w: World, r: Rivals, e: G.Event, older: G.Phase, newer: G.Phase, v: World)
    requires Connected(w, r) && G.WellFormed(w.gateway) && GatewayOk(v.gateway) && v.current == w.current && v.input == w.input
    requires v.links == LinksAfter(w.gateway, v.gateway, e, w.links)
    requires Claims(v.gateway, r.older, older, r.x) && Claims(v.gateway, r.newer, newer, r.x)
    ensures Together(v, r, older, newer)
    ensures v.links[r.older] == LinkAfter(w.gateway, v.gateway, e, r.older, w.links[r.older])
    ensures v.links[r.newer] == LinkAfter(w.gateway, v.gateway, e, r.newer, w.links[r.newer])
  {
    hide LinkAfter, Claims, G.RegistryOk;
  }

  lemma OverlapConnects(w: World, r: Rivals, e: G.Event)
    requires Overlaps(w, r, e)
    ensures Connected(w, r) && e.Connect? && e.c in w.links
  {
  }

  lemma SameInput(w: World, v: World, r: Rivals)
    requires Connected(w, r) && Connected(v, r) && v.input == w.input
    requires SameBytes(w.links[r.older], v.links[r.older]) && SameBytes(w.links[r.newer], v.links[r.newer])
    ensures NothingWritten(w, v, r)
  {
  }

  lemma TogetherConnected(w: World, r: Rivals, older: G.Phase, newer: G.Phase)
    requires Together(w, r, older, newer)
    ensures GatewayOk(w.gateway) && G.WellFormed(w.gateway) && Connected(w, r)
    ensures r.older in w.links && r.newer in w.links && r.older != r.newer
    ensures Claims(w.gateway, r.older, older, r.x) && Claims(w.gateway, r.newer, newer, r.x)
  {
  }

  lemma BothClaim(w: World, r: Rivals, e: G.Event)
    requires InputOk(w) && Overlaps(w, r, e)
    ensures var v := Step(w, AtGateway(e));
            && Together(v, r, G.Authorizing, G.Authorizing)
            && Waits(v.links[r.older]) && Waits(v.links[r.newer]) && NothingWritten(w, v, r)
  {
    hide *;
    BothLinksWait(w, r, e);
    OverlapConnects(w, r, e);
    OverlapClaims(w, r, e);
    OverlapOk(w, r, e);
    GatewayMoves(w, e);
    var v := Step(w, AtGateway(e));
    StepLeaves(w, r, e, G.Authorizing, G.Authorizing, v);
    TogetherConnected(v, r, G.Authorizing, G.Authorizing);
    SameInput(w, v, r);
  }

  lemma OlderAttaches(w: World, r: Rivals)
    requires Together(w, r, G.Authorizing, G.Authorizing) && Waits(w.links[r.older]) && Waits(w.links[r.newer])
    ensures var v := Step(w, AtGateway(G.Authorize(r.older, G.Allowed)));
            && Together(v, r, G.Attached, G.Authorizing)
            && I.Flushable(v.links[r.older]) && v.links[r.newer] == w.links[r.newer] && NothingWritten(w, v, r)
  {
    var e := G.Authorize(r.older, G.Allowed);
    var g, h := w.gateway, GatewayStep(w.gateway, e);
    G.AllowedAttaches(g, r.older);
    assert G.WellFormed(g) && G.WellFormed(h) && w.links[r.newer].pipe.stream;
    assert Claims(h, r.older, G.Attached, r.x) && Claims(h, r.newer, G.Authorizing, r.x);
    hide GatewayOk, GatewayStep, Step, LinkAfter, Waits, Claims, I.Flushable, G.Step, G.WellFormed;
    WaiterAttaches(g, h, r.older, w.links[r.older], r.x);
    LiveIsNotStopped(LinkAfter(g, h, e, r.older, w.links[r.older]));
    OtherStays(g, h, r.newer, r.older, w.links[r.newer], G.Authorizing, r.x);
    GatewayMoves(w, e);
  }

  lemma NewerAttaches(w: World, r: Rivals)
    requires Together(w, r, G.Attached, G.Authorizing) && I.Flushable(w.links[r.older]) && Waits(w.links[r.newer])
    ensures var v := Step(w, AtGateway(G.Authorize(r.newer, G.Allowed)));
            && Together(v, r, G.Attached, G.Attached)
            && v.links[r.older] == w.links[r.older] && I.Flushable(v.links[r.newer]) && NothingWritten(w, v, r)
            && r.x in v.gateway.shells && v.gateway.shells[r.x].attachment == Some(r.newer)
  {
    var e := G.Authorize(r.newer, G.Allowed);
    var g, h := w.gateway, GatewayStep(w.gateway, e);
    G.AllowedAttaches(g, r.newer);
    assert G.WellFormed(g) && G.WellFormed(h) && w.links[r.older].pipe.stream;
    assert Claims(h, r.older, G.Attached, r.x) && Claims(h, r.newer, G.Attached, r.x);
    hide GatewayOk, GatewayStep, Step, LinkAfter, Waits, Claims, I.Flushable, G.Step, G.WellFormed;
    WaiterAttaches(g, h, r.newer, w.links[r.newer], r.x);
    LiveIsNotStopped(LinkAfter(g, h, e, r.newer, w.links[r.newer]));
    OtherStays(g, h, r.older, r.newer, w.links[r.older], G.Attached, r.x);
    GatewayMoves(w, e);
  }

  /** Neither connection wrote anything before it attached. */
  lemma NothingWrittenYet(w: World, r: Rivals, e: G.Event)
    requires InputOk(w) && Overlaps(w, r, e)
    ensures w.links[r.older].pipe.written == [] && w.links[r.newer].pipe.written == []
  {
    assert LinkOk(w.gateway, r.newer, w.links[r.newer]);
    hide I.Ordered, Usable, G.NoOrphans, G.RegistryOk, Latest;
    assert Written(w.links)[r.older] == w.links[r.older].pipe.written;
  }

  // ---- Every overlapping claim can be continued to mixed input ----

  /** Both connections are attached and live, and the shell's output goes to the newer one. */
  ghost predicate Live(w: World, r: Rivals) {
    && Together(w, r, G.Attached, G.Attached) && I.Flushable(w.links[r.older]) && I.Flushable(w.links[r.newer])
    && r.x in w.gateway.shells && w.gateway.shells[r.x].attachment == Some(r.newer)
  }

  /** Both connections attach, the newer one last. */
  lemma BothAttach(w: World, r: Rivals, e: G.Event) returns (es: seq<Event>)
    requires InputOk(w) && Overlaps(w, r, e)
    ensures es != [] && es[0] == AtGateway(e)
    ensures var v := Run(w, es);
            && Live(v, r) && v.input == w.input
            && v.links[r.older].pipe.written == [] && v.links[r.older].accepted == w.links[r.older].accepted
            && v.links[r.newer].pipe.written == [] && v.links[r.newer].accepted == w.links[r.newer].accepted
  {
    NothingWrittenYet(w, r, e);
    var a, b := AtGateway(G.Authorize(r.older, G.Allowed)), AtGateway(G.Authorize(r.newer, G.Allowed));
    hide InputOk, GatewayOk, Step, Waits, Claims, I.Flushable, Usable, Run, Connected, Overlaps, G.WellFormed;
    OverlapOk(w, r, e);
    OverlapConnects(w, r, e);
    BothClaim(w, r, e);
    OlderAttaches(Step(w, AtGateway(e)), r);
    NewerAttaches(Step(Step(w, AtGateway(e)), a), r);
    es := [AtGateway(e)] + [a];
    RunOne(w, AtGateway(e));
    RunMore(w, [AtGateway(e)], a);
    RunMore(w, es, b);
    es := es + [b];
  }

  lemma RivalTypes(w: World, r: Rivals)
    requires Together(w, r, G.Attached, G.Attached)
    ensures TypesInto(w, r.t, r.older, r.x) && TypesInto(w, r.u, r.newer, r.x)
  {
  }

  lemma StayTogether(w: World, v: World, r: Rivals, d: ConnId, data: seq<byte>)
    requires Together(w, r, G.Attached, G.Attached) && Moved(w, v, d, r.x, data)
    ensures Together(v, r, G.Attached, G.Attached)
  {
  }

  /** What the shell read when both wrote all they have, and the older one wrote again. */
  ghost predicate Mixed(w: World, v: World, r: Rivals, p: seq<byte>, q: seq<byte>, s: seq<byte>) {
    && r.older in w.links && r.newer in w.links && r.older in v.links && r.newer in v.links
    && var a, c := w.links[r.older].accepted, w.links[r.newer].accepted;
       && Entry(v.input, r.x) == Entry(w.input, r.x) + (a + p) + (c + q) + s
       && v.links[r.older].pipe.written == a + p + s && v.links[r.newer].pipe.written == c + q
  }

  /**
   * From any state of an orderly run: an overlapping claim can be continued so that both connections attach, the newer one
   * last, and the shell then reads what the older terminal types (`p`), what the newer types (`q`), and more of the older (`s`).
   */
  lemma OverlappingClaimMixes(ttl: nat, before: seq<Event>, r: Rivals, e: G.Event, p: seq<byte>, q: seq<byte>, s: seq<byte>)
    returns (es: seq<Event>)
    requires OrderlyRun(Start(ttl), before) && Overlaps(Run(Start(ttl), before), r, e)
    ensures es != [] && es[0] == AtGateway(e)
    ensures var w, v := Run(Start(ttl), before), Run(Start(ttl), before + es);
            Live(v, r) && Mixed(w, v, r, p, q, s)
  {
    StartInputOk(ttl);
    RunInputOk(Start(ttl), before);
    hide InputOk, GatewayOk, OrderlyRun, Run, Together, Overlaps, Step;
    var w := Run(Start(ttl), before);
    es := BothAttach(w, r, e);
    var more := RivalsType(Run(w, es), r, p, q, s);
    OverlapOk(w, r, e);
    RunAppend(w, es, more);
    es := es + more;
    RunAppend(Start(ttl), before, es);
  }

  /** What one of them accepted and not yet wrote, then `data`, goes to the shell; the other does not move. */
  ghost predicate Wrote(w: World, v: World, d: ConnId, o: ConnId, x: ShellId, data: seq<byte>) {
    && d in w.links && d in v.links && o in w.links && o in v.links && v.links[o] == w.links[o]
    && var l := w.links[d];
       && l.pipe.written <= l.accepted
       && Entry(v.input, x) == Entry(w.input, x) + (l.accepted[|l.pipe.written|..] + data)
       && v.links[d].accepted == v.links[d].pipe.written == l.accepted + data
  }

  lemma OlderTypes(w: World, r: Rivals, data: seq<byte>) returns (es: seq<Event>)
    requires Live(w, r)
    ensures GatewayOk(w.gateway) && Live(Run(w, es), r) && Wrote(w, Run(w, es), r.older, r.newer, r.x, data)
  {
    RivalTypes(w, r);
    es := TypeAndFlush(w, r.t, r.older, r.x, data);
    var v, l := Run(w, es), w.links[r.older];
    StayTogether(w, v, r, r.older, l.accepted[|l.pipe.written|..] + data);
    hide Run, Together, I.Flushable, GatewayOk;
  }

  lemma NewerTypes(w: World, r: Rivals, data: seq<byte>) returns (es: seq<Event>)
    requires Live(w, r)
    ensures GatewayOk(w.gateway) && Live(Run(w, es), r) && Wrote(w, Run(w, es), r.newer, r.older, r.x, data)
  {
    RivalTypes(w, r);
    es := TypeAndFlush(w, r.u, r.newer, r.x, data);
    var v, l := Run(w, es), w.links[r.newer];
    StayTogether(w, v, r, r.newer, l.accepted[|l.pipe.written|..] + data);
    hide Run, Together, I.Flushable, GatewayOk;
  }

  lemma WroteThrice(w: World, u: World, t: World, v: World, r: Rivals, p: seq<byte>, q: seq<byte>, s: seq<byte>)
    requires Wrote(w, u, r.older, r.newer, r.x, p) && Wrote(u, t, r.newer, r.older, r.x, q) && Wrote(t, v, r.older, r.newer, r.x, s)
    requires w.links[r.older].pipe.written == [] && w.links[r.newer].pipe.written == []
    ensures Mixed(w, v, r, p, q, s)
  {
    var a, c := w.links[r.older].accepted, w.links[r.newer].accepted;
    assert a[0..] == a && c[0..] == c && (a + p)[|a + p|..] + s == s;
  }

  lemma RivalsType(w: World, r: Rivals, p: seq<byte>, q: seq<byte>, s: seq<byte>) returns (es: seq<Event>)
    requires Live(w, r) && w.links[r.older].pipe.written == [] && w.links[r.newer].pipe.written == []
    ensures GatewayOk(w.gateway) && Live(Run(w, es), r) && Mixed(w, Run(w, es), r, p, q, s)
  {
    var first := OlderTypes(w, r, p);
    var u := Run(w, first);
    var second := NewerTypes(u, r, q);
    var t := Run(u, second);
    var third := OlderTypes(t, r, s);
    WroteThrice(w, u, t, Run(t, third), r, p, q, s);
    hide *;
    RunAppend(w, first, second);
    RunAppend(w, first + second, third);
    es := first + second + third;
  }

  // ---- Such a run ----

  const DIALS: seq<Event> := [Dials(0, 0), Dials(2, 2), Dials(3, 3)]
  const NEW: I.Link := I.NewLink(false, None)
  /** A new connection that listens, before and after its shell has a stream. */
  const LISTENING: I.Link := NEW.(pipe := NEW.pipe.(phase := P.Awaiting, checking := true))
  const CLAIMING: I.Link := LISTENING.(pipe := LISTENING.pipe.(stream := true))

  /** Terminals 2 and 3 have dialed connections 2 and 3, beside connection 0; nothing was written. */
  ghost predicate Trio(w: World, g: G.Gateway, l: I.Link, a: I.Link, b: I.Link) {
    && w.gateway == g && GatewayOk(g)
    && 0 in w.links && w.links[0] == l && 2 in w.links && w.links[2] == a && 3 in w.links && w.links[3] == b
    && 2 in w.current && w.current[2] == 2 && 3 in w.current && w.current[3] == 3
    && Entry(w.input, G.SHELL) == []
  }

  lemma {:induction false} OrderlyMore(w: World, es: seq<Event>, e: Event)
    requires GatewayOk(w.gateway) && OrderlyRun(w, es) && (e.AtGateway? ==> G.Orderly(Run(w, es).gateway, e.ge))
    ensures OrderlyRun(w, es + [e]) && Run(w, es + [e]) == Step(Run(w, es), e)
    decreases |es|
  {
    RunMore(w, es, e);
    hide GatewayOk, Step, G.Orderly;
    if es == [] {
      assert es + [e] == [e] && [e][1..] == [];
      StepOk(w, e);
      assert OrderlyRun(Step(w, e), []);
    } else {
      StepOk(w, es[0]);
      assert (es + [e])[0] == es[0] && (es + [e])[1..] == es[1..] + [e];
      OrderlyMore(Step(w, es[0]), es[1..], e);
    }
  }

  lemma DialSteps() returns (u: World, v: World)
    ensures GatewayOk(u.gateway) && GatewayOk(v.gateway)
    ensures Step(Start(1), DIALS[0]) == u && Step(u, DIALS[1]) == v && Trio(Step(v, DIALS[2]), G.Start(1), NEW, NEW, NEW)
  {
    u, v := Dial(Start(1), 0, 0), Dial(Dial(Start(1), 0, 0), 2, 2);
    hide GatewayOk;
  }

  lemma Dialed()
    ensures OrderlyRun(Start(1), DIALS) && Trio(Run(Start(1), DIALS), G.Start(1), NEW, NEW, NEW)
  {
    var u, v := DialSteps();
    assert OrderlyRun(Start(1), []) && Run(Start(1), []) == Start(1);
    hide GatewayOk, Run, Step, Trio, OrderlyRun;
    var a, b, c := DIALS[0], DIALS[1], DIALS[2];
    OrderlyMore(Start(1), [], a);
    assert [] + [a] == [a] && [a] + [b] == [a, b] && [a, b] + [c] == [a, b, c] == DIALS;
    OrderlyMore(Start(1), [a], b);
    OrderlyMore(Start(1), [a, b], c);
  }

  lemma TrioMore(es: seq<Event>, g: G.Gateway, e: G.Event, h: G.Gateway, l: I.Link, a: I.Link, b: I.Link, k: I.Link, c: I.Link, d: I.Link)
    requires G.WellFormed(g) && G.Step(g, e) == h && G.WellFormed(h) && G.Orderly(g, e)
    requires OrderlyRun(Start(1), es) && Trio(Run(Start(1), es), g, l, a, b)
    requires LinkAfter(g, h, e, 0, l) == k && LinkAfter(g, h, e, 2, a) == c && LinkAfter(g, h, e, 3, b) == d
    requires e.Connect? ==> e.c in {0, 2, 3}
    requires e.Authorize? ==> e.c == 0 && !k.pipe.stopped
    ensures var more := es + [AtGateway(e)]; OrderlyRun(Start(1), more) && Trio(Run(Start(1), more), h, k, c, d)
  {
    var w := Run(Start(1), es);
    OrderlyMore(Start(1), es, AtGateway(e));
    hide GatewayOk, Run, LinkAfter, G.Step, G.WellFormed, Step, OrderlyRun, G.Orderly;
    assert GatewayStep(g, e) == h;
    GatewayMoves(w, e);
  }

  lemma OthersWait(g: G.Gateway, h: G.Gateway, e: G.Event, c: ConnId)
    requires G.WellFormed(h) && c !in g.conns && c !in h.conns
    ensures LinkAfter(g, h, e, c, NEW) == NEW
  {
  }

  lemma OpenerListens(g: G.Gateway)
    requires G.WellFormed(g) && g.conns == map[0 := G.Conn(G.SHELL, false, G.Authorizing, false)]
    requires G.SHELL in g.shells && !g.shells[G.SHELL].ended
    ensures LinkAfter(G.Start(1), g, G.OPENING[0], 0, NEW) == LISTENING
  {
  }

  lemma ListeningSettles()
    ensures !I.Step(LISTENING, I.Settles(P.Allowed)).pipe.stopped
  {
  }

  lemma OpenerAttaches(g: G.Gateway, h: G.Gateway)
    requires G.WellFormed(g) && 0 in g.conns && g.conns[0] == G.Conn(G.SHELL, false, G.Authorizing, false)
    requires G.WellFormed(h) && 0 in h.conns && h.conns[0] == G.Conn(G.SHELL, false, G.Attached, false)
    requires G.SHELL in h.shells && !h.shells[G.SHELL].ended
    ensures !LinkAfter(g, h, G.OPENING[1], 0, LISTENING).pipe.stopped
  {
    ListeningSettles();
    hide I.Step, G.WellFormed;
  }

  lemma OpeningIsOrderly(g: G.Gateway, h: G.Gateway)
    requires g.conns == map[0 := G.Conn(G.SHELL, false, G.Authorizing, false)]
    requires h.conns == map[0 := G.Conn(G.SHELL, false, G.Attached, false)]
    ensures G.Orderly(G.Start(1), G.OPENING[0]) && G.Orderly(g, G.OPENING[1]) && G.Orderly(h, G.OPENING[2])
  {
  }

  /** Connection 0 opens the shell. */
  lemma ShellOpens() returns (es: seq<Event>, l: I.Link)
    ensures OrderlyRun(Start(1), es) && Trio(Run(Start(1), es), G.OPENED_0, l, NEW, NEW)
  {
    var g, h := G.OpeningSteps();
    OpenerListens(g);
    OpenerAttaches(g, h);
    OpeningIsOrderly(g, h);
    assert G.WellFormed(G.OPENED_0) && G.WellFormed(G.Start(1));
    hide GatewayOk, Run, LinkAfter, G.Step, G.WellFormed, Step, Trio, OrderlyRun, G.Orderly;
    forall c | c in {2, 3}
      ensures LinkAfter(G.Start(1), g, G.OPENING[0], c, NEW) == LinkAfter(g, h, G.OPENING[1], c, NEW)
           == LinkAfter(h, G.OPENED_0, G.OPENING[2], c, NEW) == NEW
    {
      OthersWait(G.Start(1), g, G.OPENING[0], c);
      OthersWait(g, h, G.OPENING[1], c);
      OthersWait(h, G.OPENED_0, G.OPENING[2], c);
    }
    Dialed();
    es, l := DIALS, LinkAfter(g, h, G.OPENING[1], 0, LISTENING);
    TrioMore(es, G.Start(1), G.OPENING[0], g, NEW, NEW, NEW, LISTENING, NEW, NEW);
    es := es + [AtGateway(G.OPENING[0])];
    TrioMore(es, g, G.OPENING[1], h, LISTENING, NEW, NEW, l, NEW, NEW);
    es := es + [AtGateway(G.OPENING[1])];
    var k := LinkAfter(h, G.OPENED_0, G.OPENING[2], 0, l);
    TrioMore(es, h, G.OPENING[2], G.OPENED_0, l, NEW, NEW, k, NEW, NEW);
    es, l := es + [AtGateway(G.OPENING[2])], k;
  }

  lemma FirstClaimLinks()
    ensures G.WellFormed(G.OPENED_0) && G.WellFormed(G.CLAIMED_ONCE) && G.Orderly(G.OPENED_0, G.Resume(2, true))
    ensures LinkAfter(G.OPENED_0, G.CLAIMED_ONCE, G.Resume(2, true), 2, NEW) == CLAIMING
    ensures LinkAfter(G.OPENED_0, G.CLAIMED_ONCE, G.Resume(2, true), 3, NEW) == NEW
  {
    OthersWait(G.OPENED_0, G.CLAIMED_ONCE, G.Resume(2, true), 3);
    assert forall d :: d in G.OPENED_0.conns ==> G.OPENED_0.conns[d].phase == G.Attached;
  }

  /** Connection 2 claims it, in an orderly run. */
  lemma FirstClaims() returns (es: seq<Event>, l: I.Link)
    ensures OrderlyRun(Start(1), es) && Trio(Run(Start(1), es), G.CLAIMED_ONCE, l, CLAIMING, NEW)
  {
    G.FirstClaim();
    FirstClaimLinks();
    hide GatewayOk, Run, LinkAfter, G.Step, G.WellFormed, Step, Trio, OrderlyRun, G.Orderly;
    es, l := ShellOpens();
    var k := LinkAfter(G.OPENED_0, G.CLAIMED_ONCE, G.Resume(2, true), 0, l);
    TrioMore(es, G.OPENED_0, G.Resume(2, true), G.CLAIMED_ONCE, l, NEW, NEW, k, CLAIMING, NEW);
    es, l := es + [AtGateway(G.Resume(2, true))], k;
  }

  lemma SecondOverlaps(w: World, l: I.Link)
    requires Trio(w, G.CLAIMED_ONCE, l, CLAIMING, NEW)
    ensures Overlaps(w, Rivals(2, 2, 3, 3, G.SHELL), G.Resume(3, true))
  {
    assert G.Claimed(G.CLAIMED_ONCE, G.Resume(3, true)) == Some(G.SHELL);
  }

  /**
   * A run from the empty gateway. Two connections claim one shell before either is authorized; both attach,
   * connection 3 last, and the shell reads 1, 2, 3, of which connection 2 wrote 1 and 3.
   */
  lemma OverlappingClaimsMixInput() returns (es: seq<Event>)
    ensures var w := Run(Start(1), es);
            && Entry(w.input, G.SHELL) == [1, 2, 3]
            && 2 in w.links && w.links[2].pipe.written == [1, 3] && 3 in w.links && w.links[3].pipe.written == [2]
  {
    var l;
    es, l := FirstClaims();
    var w := Run(Start(1), es);
    SecondOverlaps(w, l);
    var r := Rivals(2, 2, 3, 3, G.SHELL);
    var none: seq<byte> := [];
    assert none + (none + [1]) + (none + [2]) + [3] == [1, 2, 3] && none + [1] + [3] == [1, 3] && none + [2] == [2];
    hide GatewayOk, Run, Step, OrderlyRun, Overlaps, Claims;
    var more := OverlappingClaimMixes(1, es, r, G.Resume(3, true), [1], [2], [3]);
    es := es + more;
  }
}

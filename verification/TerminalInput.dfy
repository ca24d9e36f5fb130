/**
 * Terminals, their connections and the gateway's shells: whose keystrokes reach a shell, and in which
 * order, while connections drop, resume and take shells over from each other.
 *
 * The gateway is the state machine of Lifecycle; every connection has the message pipeline and the wire
 * of InputPath. A connection's pipeline stops with the connection and ends with its shell. A terminal
 * types into its current connection only; a drop or a new attempt disposes the sender before.
 */
module TerminalInput {
  import opened Bytes
  import opened ShellSessions
  import G = Lifecycle
  import P = MessagePipeline
  import I = InputPath

  type TerminalId = nat

  /**
   * `current`: the connection whose sender a terminal types into. `dialed`: the connections it made,
   * in order. `typed`: what it accepted from the user. `order`: the connections that attached to a
   * shell, in order. `input`: what was written to a shell.
   */
  datatype World = World(
    gateway: G.Gateway, links: map<ConnId, I.Link>,
    current: map<TerminalId, ConnId>, owner: map<ConnId, TerminalId>,
    dialed: map<TerminalId, seq<ConnId>>, typed: map<TerminalId, seq<byte>>,
    order: map<ShellId, seq<ConnId>>, input: map<ShellId, seq<byte>>)

  datatype Event =
    | Dials(t: TerminalId, c: ConnId)
    | HangsUp(t: TerminalId)
    | Types(t: TerminalId, data: seq<byte>)
    | Browser(t: TerminalId, le: I.Event)
    | Network(c: ConnId, le: I.Event)
    | AtGateway(ge: G.Event)

  /** The list under a key; none yet is the empty one. */
  function Entry<K, V>(m: map<K, seq<V>>, k: K): seq<V> {
    if k in m then m[k] else []
  }

  /** What the parts of `cs` hold, one after the other. */
  function Gather(parts: map<ConnId, seq<byte>>, cs: seq<ConnId>): seq<byte> {
    if cs == [] then []
    else
      var last := cs[|cs| - 1];
      Gather(parts, cs[..|cs| - 1]) + if last in parts then parts[last] else []
  }

  function Accepted(links: map<ConnId, I.Link>): map<ConnId, seq<byte>> {
    map c | c in links :: links[c].accepted
  }

  function Written(links: map<ConnId, I.Link>): map<ConnId, seq<byte>> {
    map c | c in links :: links[c].pipe.written
  }

  ghost predicate GatewayOk(g: G.Gateway) {
    G.WellFormed(g) && G.RegistryOk(g)
  }

  ghost function GatewayStep(g: G.Gateway, e: G.Event): (h: G.Gateway)
    requires GatewayOk(g)
    ensures GatewayOk(h)
  {
    G.StepKeepsRegistry(g, e);
    G.Step(g, e)
  }

  // ---- The browser ----

  /** What a sender and its socket do on their own. */
  predicate FromBrowser(e: I.Event) {
    e.Sends? || e.SendsResize? || e.SendsOther? || e.TellsBrowser?
  }

  function Dial(w: World, t: TerminalId, c: ConnId): World {
    w.(links := w.links[c := I.NewLink(false, None)], current := w.current[t := c], owner := w.owner[c := t],
       dialed := w.dialed[t := Entry(w.dialed, t) + [c]])
  }

  function Type(w: World, t: TerminalId, data: seq<byte>): World
    requires t in w.current && w.current[t] in w.links
  {
    var c := w.current[t];
    w.(links := w.links[c := I.Step(w.links[c], I.Accepts(data))], typed := w.typed[t := Entry(w.typed, t) + data])
  }

  // ---- The gateway ----

  /** What the network and the gateway's promise queue do to one connection. */
  predicate FromNetwork(e: I.Event) {
    e.Delivers? || e.LosesLink? || e.Rechecks? || e.RunsCallback? || e.RequestsShell?
  }

  function AsPipe(verdict: G.Verdict): P.Verdict {
    match verdict
    case Allowed => P.Allowed
    case Refused => P.Refused
    case Unavailable => P.Unavailable
  }

  /**
   * A pipeline stops with its connection and ends with its shell; a connection that claimed a shell
   * writes to that shell's stream.
   */
  function Sync(g: G.Gateway, c: ConnId, l: I.Link): I.Link
    requires G.WellFormed(g)
  {
    if c !in g.conns then l
    else
      var k, s := g.conns[c], g.shells[g.conns[c].shell];
      l.(pipe := I.Marked(l.pipe, k.stopped, s.ended, k.resumed && s.stream))
  }

  /** An event of the pipeline at the gateway's step from `g` to `h`, if there is one. */
  function PipeEvent(g: G.Gateway, h: G.Gateway, e: G.Event, c: ConnId, l: I.Link): Option<I.Event>
    requires G.WellFormed(h)
  {
    match e
    case Connect(d, _, _, _, _, _, _, _) =>
      if d == c && c !in g.conns && c in h.conns && h.conns[c].phase == G.Authorizing then Some(I.StartsListening) else None
    case Authorize(d, verdict) =>
      if d == c && c in g.conns && g.conns[c].phase == G.Authorizing then Some(I.Settles(AsPipe(verdict))) else None
    case Recheck(d, verdict) => if d == c && l.pipe.phase == P.Live then Some(I.Settles(AsPipe(verdict))) else None
    case StreamOpens(x) => if c in h.conns && h.conns[c].shell == x then Some(I.OpensStream) else None
    case _ => None
  }

  function LinkAfter(g: G.Gateway, h: G.Gateway, e: G.Event, c: ConnId, l: I.Link): I.Link
    requires G.WellFormed(h)
  {
    var pe := PipeEvent(g, h, e, c, l);
    Sync(h, c, if pe.Some? then I.Step(l, pe.value) else l)
  }

  function LinksAfter(g: G.Gateway, h: G.Gateway, e: G.Event, links: map<ConnId, I.Link>): map<ConnId, I.Link>
    requires G.WellFormed(h)
  {
    map c | c in links :: LinkAfter(g, h, e, c, links[c])
  }

  /** The connection attaches at this step. */
  predicate Attaches(g: G.Gateway, h: G.Gateway, e: G.Event) {
    && e.Authorize? && e.c in g.conns && g.conns[e.c].phase == G.Authorizing
    && e.c in h.conns && h.conns[e.c].phase == G.Attached
  }

  function OrderAfter(g: G.Gateway, h: G.Gateway, e: G.Event, order: map<ShellId, seq<ConnId>>): map<ShellId, seq<ConnId>> {
    if Attaches(g, h, e) then order[g.conns[e.c].shell := Entry(order, g.conns[e.c].shell) + [e.c]] else order
  }

  ghost function OnGateway(w: World, e: G.Event): World
    requires GatewayOk(w.gateway)
  {
    var g := w.gateway;
    var h := GatewayStep(g, e);
    w.(gateway := h, links := LinksAfter(g, h, e, w.links), order := OrderAfter(g, h, e, w.order))
  }

  /** A message that ended the connection in its pipeline ends it, and its shell, at the gateway. */
  ghost function Push(w: World, c: ConnId): World
    requires GatewayOk(w.gateway)
  {
    if c in w.links && c in w.gateway.conns && w.links[c].pipe.stopped && !w.gateway.conns[c].stopped
    then OnGateway(w, G.EndMessage(c))
    else w
  }

  /** What a reaction of connection `c` wrote goes to its shell. */
  function InputAfter(g: G.Gateway, c: ConnId, before: seq<byte>, after: seq<byte>, input: map<ShellId, seq<byte>>): map<ShellId, seq<byte>> {
    if c in g.conns && before < after then
      var x := g.conns[c].shell;
      input[x := Entry(input, x) + after[|before|..]]
    else input
  }

  /** One event at one connection. */
  function OnLink(w: World, c: ConnId, e: I.Event): World
    requires c in w.links
  {
    var l, k := w.links[c], I.Step(w.links[c], e);
    w.(links := w.links[c := k], input := InputAfter(w.gateway, c, l.pipe.written, k.pipe.written, w.input))
  }

  ghost function Step(w: World, e: Event): World
    requires GatewayOk(w.gateway)
  {
    match e
    case Dials(t, c) => if c in w.links || c in w.gateway.conns then w else Dial(w, t, c)
    case HangsUp(t) => w.(current := w.current - {t})
    case Types(t, data) => if t in w.current && w.current[t] in w.links then Type(w, t, data) else w
    case Browser(t, le) =>
      if t in w.current && w.current[t] in w.links && FromBrowser(le) then OnLink(w, w.current[t], le) else w
    case Network(c, le) => if c in w.links && FromNetwork(le) then Push(OnLink(w, c, le), c) else w
    case AtGateway(ge) =>
      if ge.Connect? && ge.c !in w.links then w
      else if ge.Authorize? then Push(OnGateway(w, ge), ge.c)
      else OnGateway(w, ge)
  }

  lemma PushOk(w: World, c: ConnId)
    requires GatewayOk(w.gateway)
    ensures GatewayOk(Push(w, c).gateway)
  {
  }

  lemma StepOk(w: World, e: Event)
    requires GatewayOk(w.gateway)
    ensures GatewayOk(Step(w, e).gateway)
  {
    hide GatewayOk, GatewayStep, LinkAfter;
    match e {
      case Network(c, le) => if c in w.links { PushOk(OnLink(w, c, le), c); }
      case AtGateway(ge) => if ge.Authorize? { PushOk(OnGateway(w, ge), ge.c); }
      case _ =>
    }
  }

  ghost function Run(w: World, es: seq<Event>): (r: World)
    requires GatewayOk(w.gateway)
    ensures GatewayOk(r.gateway)
    decreases |es|
  {
    if es == [] then w else
    StepOk(w, es[0]);
    Run(Step(w, es[0]), es[1..])
  }

  /** No event claims a shell another connection is being authorized for, or detaches one somebody holds. */
  ghost predicate OrderlyRun(w: World, es: seq<Event>)
    requires GatewayOk(w.gateway)
    decreases |es|
  {
    es == [] || ((es[0].AtGateway? ==> G.Orderly(w.gateway, es[0].ge)) && (StepOk(w, es[0]); OrderlyRun(Step(w, es[0]), es[1..])))
  }

  ghost function Start(ttl: nat): (w: World)
    ensures GatewayOk(w.gateway)
  {
    G.StartOk(ttl);
    World(G.Start(ttl), map[], map[], map[], map[], map[], map[], map[])
  }

  // ---- Each pipeline follows its connection ----

  ghost predicate LinkOk(g: G.Gateway, c: ConnId, l: I.Link)
    requires G.WellFormed(g)
  {
    && I.Ordered(l)
    && PhaseOk(g, c, l.pipe)
    && (c in g.conns ==> (g.conns[c].stopped ==> l.pipe.stopped) && (g.shells[g.conns[c].shell].ended ==> l.pipe.ended))
  }

  /** A pipeline buffers until its connection claims or opens a shell, waits while that is authorized, and is live once attached. */
  predicate PhaseOk(g: G.Gateway, c: ConnId, p: P.Pipe) {
    if c in g.conns then
      && (p.phase == P.Live ==> g.conns[c].phase == G.Attached)
      && (g.conns[c].phase == G.Authorizing && !p.stopped ==> p.phase == P.Awaiting && p.checking)
    else p == P.Fresh(false, None).(early := p.early)
  }

  ghost predicate Linked(g: G.Gateway, links: map<ConnId, I.Link>)
    requires G.WellFormed(g)
  {
    g.conns.Keys <= links.Keys && forall c :: c in links ==> LinkOk(g, c, links[c])
  }

  lemma LinkStepOk(g: G.Gateway, c: ConnId, l: I.Link, e: I.Event)
    requires G.WellFormed(g) && LinkOk(g, c, l) && !e.StartsListening? && !e.Settles? && !e.Stops?
    ensures LinkOk(g, c, I.Step(l, e))
  {
    hide I.Ordered, I.Step;
    if c !in g.conns { I.OnlyBuffers(l, e); } else if l.pipe.phase == P.Awaiting && l.pipe.checking { I.WaitsOn(l, e); }
    I.StepOrdered(l, e);
    I.PhaseChanges(l, e);
    I.StaysDead(l, e);
  }

  /** What a step does to the connection `c` of a pipeline. */
  ghost predicate ConnFollows(g: G.Gateway, h: G.Gateway, e: G.Event, c: ConnId)
    requires G.WellFormed(g)
  {
    if c in g.conns then
      && c in h.conns && h.conns[c].shell == g.conns[c].shell && (g.conns[c].stopped ==> h.conns[c].stopped)
      && (if e.Authorize? && e.c == c && g.conns[c].phase == G.Authorizing then
            && (h.conns[c].phase == G.Attached <==>
                e.verdict == G.Allowed && !g.conns[c].stopped && !g.shells[g.conns[c].shell].ended)
            && (h.conns[c].phase == G.Attached ==>
                  !h.conns[c].stopped && h.conns[c].shell in h.shells && !h.shells[h.conns[c].shell].ended)
            && h.conns[c].phase != G.Authorizing
          else h.conns[c].phase == g.conns[c].phase)
    else c in h.conns ==> e.Connect? && e.c == c && h.conns[c].phase in {G.Authorizing, G.Bailed}
  }

  lemma GatewayConns(g: G.Gateway, e: G.Event, c: ConnId)
    requires G.WellFormed(g)
    ensures ConnFollows(g, G.Step(g, e), e, c)
  {
    hide G.Connected, G.Authorized;
    match e {
      case Connect(d, _, _, _, _, _, _, _) => if d !in g.conns { G.ConnectConns(g, e); }
      case Authorize(d, verdict) => if d in g.conns && g.conns[d].phase == G.Authorizing { G.AuthorizedConns(g, d, verdict); }
      case _ => G.StepConns(g, e); hide G.Step;
    }
  }

  lemma SyncOk(h: G.Gateway, c: ConnId, l: I.Link)
    requires G.WellFormed(h) && I.Ordered(l)
    requires PhaseOk(h, c, l.pipe)
    ensures LinkOk(h, c, Sync(h, c, l))
    ensures var k := Sync(h, c, l); k.pipe.written == l.pipe.written && k.accepted == l.accepted && k.sent == l.sent
  {
    hide I.Ordered;
    if c in h.conns {
      var k, s := h.conns[c], h.shells[h.conns[c].shell];
      I.MarkedOrdered(l, k.stopped, s.ended, k.resumed && s.stream);
    }
  }

  lemma PhaseFollows(g: G.Gateway, h: G.Gateway, e: G.Event, c: ConnId, l: I.Link)
    requires G.WellFormed(g) && G.WellFormed(h) && LinkOk(g, c, l) && ConnFollows(g, h, e, c)
    ensures var pe := PipeEvent(g, h, e, c, l); pe.Some? ==> PhaseOk(h, c, I.Step(l, pe.value).pipe)
  {
    hide I.Ordered, I.Step;
    var pe := PipeEvent(g, h, e, c, l);
    if pe.Some? {
      if c !in g.conns { I.ListenWaits(l); }
      if l.pipe.phase == P.Awaiting && l.pipe.checking && !pe.value.Settles? { I.WaitsOn(l, pe.value); }
      I.PhaseChanges(l, pe.value);
      I.StaysDead(l, pe.value);
    }
  }

  lemma LinkAfterOk(g: G.Gateway, h: G.Gateway, e: G.Event, c: ConnId, l: I.Link)
    requires G.WellFormed(g) && G.WellFormed(h) && LinkOk(g, c, l) && ConnFollows(g, h, e, c)
    ensures LinkOk(h, c, LinkAfter(g, h, e, c, l))
    ensures var k := LinkAfter(g, h, e, c, l); k.pipe.written == l.pipe.written && k.accepted == l.accepted && k.sent == l.sent
  {
    hide I.Ordered, I.Step, Sync, LinkOk;
    LinkParts(g, c, l);
    var pe := PipeEvent(g, h, e, c, l);
    if pe.Some? {
      PhaseFollows(g, h, e, c, l);
      I.StepOrdered(l, pe.value);
      I.PhaseChanges(l, pe.value);
      I.WritesOnlyWhenLive(l, pe.value);
      I.AcceptsAndSends(l, pe.value);
      SyncOk(h, c, I.Step(l, pe.value));
    } else {
      SyncOk(h, c, l);
    }
  }

  lemma LinkParts(g: G.Gateway, c: ConnId, l: I.Link)
    requires G.WellFormed(g) && LinkOk(g, c, l)
    ensures I.Ordered(l) && PhaseOk(g, c, l.pipe)
    ensures c in g.conns ==> (g.conns[c].stopped ==> l.pipe.stopped) && (g.shells[g.conns[c].shell].ended ==> l.pipe.ended)
  {
  }

  // ---- The order of attachments ----

  /** An attached connection that was not stopped is the last that attached to its shell. */
  ghost predicate Latest(g: G.Gateway, order: map<ShellId, seq<ConnId>>) {
    forall c :: c in g.conns && g.conns[c].phase == G.Attached && !g.conns[c].stopped ==>
      var cs := Entry(order, g.conns[c].shell);
      cs != [] && cs[|cs| - 1] == c
  }

  ghost predicate AttachedOnce(g: G.Gateway, order: map<ShellId, seq<ConnId>>) {
    && (forall x: ShellId, i :: 0 <= i < |Entry(order, x)| ==>
          var c := Entry(order, x)[i];
          c in g.conns && g.conns[c].shell == x && g.conns[c].phase != G.Authorizing)
    && (forall x: ShellId, i, j :: 0 <= i < j < |Entry(order, x)| ==> Entry(order, x)[i] != Entry(order, x)[j])
  }

  /** A shell's input is what its connections wrote, in the order in which they attached. */
  ghost predicate Recorded(g: G.Gateway, parts: map<ConnId, seq<byte>>, order: map<ShellId, seq<ConnId>>, input: map<ShellId, seq<byte>>) {
    && (forall x: ShellId :: Entry(input, x) == Gather(parts, Entry(order, x)))
    && (forall c :: c in parts && parts[c] != [] ==> c in g.conns && c in Entry(order, g.conns[c].shell))
  }

  ghost predicate InputOk(w: World) {
    && GatewayOk(w.gateway) && G.NoOrphans(w.gateway)
    && Linked(w.gateway, w.links)
    && Latest(w.gateway, w.order)
    && AttachedOnce(w.gateway, w.order)
    && Recorded(w.gateway, Written(w.links), w.order, w.input)
  }

  lemma {:induction false} GatherSame(p: map<ConnId, seq<byte>>, q: map<ConnId, seq<byte>>, cs: seq<ConnId>)
    requires forall i :: 0 <= i < |cs| ==> (cs[i] in p <==> cs[i] in q) && (cs[i] in p ==> p[cs[i]] == q[cs[i]])
    ensures Gather(p, cs) == Gather(q, cs)
  {
    if cs != [] { GatherSame(p, q, cs[..|cs| - 1]); }
  }

  lemma GatherLast(p: map<ConnId, seq<byte>>, q: map<ConnId, seq<byte>>, cs: seq<ConnId>, data: seq<byte>)
    requires cs != [] && cs[|cs| - 1] in p && q == p[cs[|cs| - 1] := p[cs[|cs| - 1]] + data]
    requires forall i :: 0 <= i < |cs| - 1 ==> cs[i] != cs[|cs| - 1]
    ensures Gather(q, cs) == Gather(p, cs) + data
  {
    GatherSame(p, q, cs[..|cs| - 1]);
    assert (Gather(p, cs[..|cs| - 1]) + p[cs[|cs| - 1]]) + data == Gather(p, cs[..|cs| - 1]) + (p[cs[|cs| - 1]] + data);
  }

  // ---- Every event keeps it ----

  lemma RecordedGrows(g: G.Gateway, parts: map<ConnId, seq<byte>>, order: map<ShellId, seq<ConnId>>, input: map<ShellId, seq<byte>>,
                      c: ConnId, data: seq<byte>)
    requires Recorded(g, parts, order, input) && AttachedOnce(g, order) && c in g.conns && c in parts
    requires var cs := Entry(order, g.conns[c].shell); cs != [] && cs[|cs| - 1] == c
    ensures var x := g.conns[c].shell;
            Recorded(g, parts[c := parts[c] + data], order, input[x := Entry(input, x) + data])
  {
    var x := g.conns[c].shell;
    var q, input' := parts[c := parts[c] + data], input[x := Entry(input, x) + data];
    forall y: ShellId ensures Gather(q, Entry(order, y)) == Gather(parts, Entry(order, y)) + if y == x then data else [] {
      GatherGrows(g, parts, order, c, data, y);
    }
    hide AttachedOnce, Gather;
    InputGrows(input, x, data);
    hide Entry;
    assert forall y: ShellId :: Entry(input', y) == Entry(input, y) + if y == x then data else [];
  }

  lemma InputGrows(input: map<ShellId, seq<byte>>, x: ShellId, data: seq<byte>)
    ensures forall y: ShellId :: Entry(input[x := Entry(input, x) + data], y) == Entry(input, y) + if y == x then data else []
  {
  }

  lemma GatherGrows(g: G.Gateway, parts: map<ConnId, seq<byte>>, order: map<ShellId, seq<ConnId>>, c: ConnId, data: seq<byte>, y: ShellId)
    requires AttachedOnce(g, order) && c in g.conns && c in parts
    requires var cs := Entry(order, g.conns[c].shell); cs != [] && cs[|cs| - 1] == c
    ensures Gather(parts[c := parts[c] + data], Entry(order, y)) == Gather(parts, Entry(order, y)) + if y == g.conns[c].shell then data else []
  {
    var q := parts[c := parts[c] + data];
    if y == g.conns[c].shell {
      GatherLast(parts, q, Entry(order, y), data);
    } else {
      GatherSame(parts, q, Entry(order, y));
      assert Gather(parts, Entry(order, y)) + [] == Gather(parts, Entry(order, y));
    }
  }

  /** Which connections wrote at a step: at most one, the last that attached to its shell. */
  ghost predicate OnlyLatestWrites(w: World, v: World) {
    forall c :: c in w.links ==>
      && c in v.links
      && (v.links[c].pipe.written == w.links[c].pipe.written
          || (c in w.gateway.conns
              && var cs := Entry(w.order, w.gateway.conns[c].shell);
                 cs != [] && cs[|cs| - 1] == c && w.links[c].pipe.written <= v.links[c].pipe.written))
  }

  lemma LinkedOne(g: G.Gateway, links: map<ConnId, I.Link>, c: ConnId, k: I.Link)
    requires G.WellFormed(g) && Linked(g, links) && c in links && LinkOk(g, c, k)
    ensures Linked(g, links[c := k])
  {
    hide LinkOk;
  }

  lemma WriterIsLatest(g: G.Gateway, order: map<ShellId, seq<ConnId>>, c: ConnId, l: I.Link)
    requires G.WellFormed(g) && LinkOk(g, c, l) && Latest(g, order) && l.pipe.phase == P.Live && !I.Dead(l.pipe)
    ensures c in g.conns
    ensures var cs := Entry(order, g.conns[c].shell); cs != [] && cs[|cs| - 1] == c
  {
    hide I.Ordered;
  }

  lemma WrittenOne(links: map<ConnId, I.Link>, c: ConnId, k: I.Link, data: seq<byte>)
    requires c in links && links[c].pipe.written <= k.pipe.written && data == k.pipe.written[|links[c].pipe.written|..]
    ensures c in Written(links) && Written(links)[c] == links[c].pipe.written
    ensures Written(links[c := k]) == Written(links)[c := Written(links)[c] + data]
  {
    assert k.pipe.written == links[c].pipe.written + data;
  }

  /** Attachments are only ever added. */
  ghost predicate OrderGrows(w: World, v: World) {
    && (forall x: ShellId :: Entry(w.order, x) <= Entry(v.order, x))
    && (forall c :: c in w.gateway.conns ==> c in v.gateway.conns && v.gateway.conns[c].shell == w.gateway.conns[c].shell)
  }

  lemma OneWrites(w: World, v: World, c: ConnId)
    requires c in w.links && c in v.links && v.links == w.links[c := v.links[c]]
    requires
      || v.links[c].pipe.written == w.links[c].pipe.written
      || (w.links[c].pipe.written <= v.links[c].pipe.written && c in w.gateway.conns
          && var cs := Entry(w.order, w.gateway.conns[c].shell); cs != [] && cs[|cs| - 1] == c)
    ensures OnlyLatestWrites(w, v)
  {
  }

  lemma OnLinkRecorded(w: World, c: ConnId, e: I.Event)
    requires G.WellFormed(w.gateway) && c in w.links && LinkOk(w.gateway, c, w.links[c])
    requires Latest(w.gateway, w.order) && AttachedOnce(w.gateway, w.order)
    requires Recorded(w.gateway, Written(w.links), w.order, w.input)
    ensures var v := OnLink(w, c, e);
            Recorded(w.gateway, Written(v.links), w.order, v.input) && OnlyLatestWrites(w, v)
  {
    hide LinkOk, Latest, AttachedOnce, Recorded, OnlyLatestWrites, Written, Entry, I.Step, I.Ordered, G.WellFormed;
    var g, l, k := w.gateway, w.links[c], I.Step(w.links[c], e);
    LinkParts(g, c, l);
    I.WritesOnlyWhenLive(l, e);
    var parts, data := Written(w.links), k.pipe.written[|l.pipe.written|..];
    WrittenOne(w.links, c, k, data);
    if k.pipe.written == l.pipe.written {
      assert data == [] && parts[c] + data == parts[c];
      assert parts[c := parts[c] + data] == parts;
    } else {
      WriterIsLatest(g, w.order, c, l);
      RecordedGrows(g, parts, w.order, w.input, c, data);
    }
    OneWrites(w, OnLink(w, c, e), c);
  }

  lemma OnLinkOk(w: World, c: ConnId, e: I.Event)
    requires InputOk(w) && c in w.links && !e.StartsListening? && !e.Settles? && !e.Stops?
    ensures InputOk(OnLink(w, c, e)) && OnlyLatestWrites(w, OnLink(w, c, e))
    ensures OrderGrows(w, OnLink(w, c, e))
  {
    GatewayParts(w);
    assert LinkOk(w.gateway, c, w.links[c]);
    hide GatewayOk, LinkOk, Linked, Latest, AttachedOnce, Recorded, OnlyLatestWrites, Written, InputAfter, Entry,
      I.Step, I.Ordered, G.NoOrphans, G.WellFormed;
    LinkStepOk(w.gateway, c, w.links[c], e);
    LinkParts(w.gateway, c, w.links[c]);
    I.WritesOnlyWhenLive(w.links[c], e);
    LinkedOne(w.gateway, w.links, c, I.Step(w.links[c], e));
    OnLinkRecorded(w, c, e);
  }

  lemma GatewayParts(w: World)
    requires GatewayOk(w.gateway)
    ensures G.WellFormed(w.gateway) && G.RegistryOk(w.gateway)
  {
  }

  lemma LatestAfter(g: G.Gateway, h: G.Gateway, e: G.Event, order: map<ShellId, seq<ConnId>>)
    requires G.WellFormed(g) && G.NoOrphans(h) && Latest(g, order) && forall c :: ConnFollows(g, h, e, c)
    ensures Latest(h, OrderAfter(g, h, e, order))
  {
    hide G.NoOrphans, G.WellFormed;
    forall c | c in h.conns && h.conns[c].phase == G.Attached && !h.conns[c].stopped
      ensures var cs := Entry(OrderAfter(g, h, e, order), h.conns[c].shell); cs != [] && cs[|cs| - 1] == c
    {
      assert ConnFollows(g, h, e, c);
      if Attaches(g, h, e) {
        assert ConnFollows(g, h, e, e.c);
        var x := g.conns[e.c].shell;
        if c != e.c && h.conns[c].shell == x { OneHolder(h, x, c, e.c); }
      }
    }
  }

  lemma OneHolder(h: G.Gateway, x: ShellId, c: ConnId, d: ConnId)
    requires G.NoOrphans(h) && x in h.shells && !h.shells[x].ended && G.Holds(h, c, x) && G.Holds(h, d, x)
    ensures c == d
  {
    G.HolderIsOnly(h, c, x);
  }

  lemma AttachedOnceAfter(g: G.Gateway, h: G.Gateway, e: G.Event, order: map<ShellId, seq<ConnId>>)
    requires G.WellFormed(g) && AttachedOnce(g, order) && forall c :: ConnFollows(g, h, e, c)
    ensures AttachedOnce(h, OrderAfter(g, h, e, order))
  {
    hide G.WellFormed;
    var after := OrderAfter(g, h, e, order);
    forall x: ShellId, i | 0 <= i < |Entry(after, x)|
      ensures var c := Entry(after, x)[i]; c in h.conns && h.conns[c].shell == x && h.conns[c].phase != G.Authorizing
    {
      assert ConnFollows(g, h, e, Entry(after, x)[i]);
      if i < |Entry(order, x)| { assert Entry(after, x)[i] == Entry(order, x)[i]; }
    }
    forall x: ShellId, i, j | 0 <= i < j < |Entry(after, x)|
      ensures Entry(after, x)[i] != Entry(after, x)[j]
    {
      assert Entry(after, x)[i] == Entry(order, x)[i];
      if j < |Entry(order, x)| { assert Entry(after, x)[j] == Entry(order, x)[j]; }
    }
  }

  /** A connection that attaches has written nothing yet. */
  lemma NothingWrittenYet(g: G.Gateway, parts: map<ConnId, seq<byte>>, order: map<ShellId, seq<ConnId>>, input: map<ShellId, seq<byte>>, c: ConnId)
    requires AttachedOnce(g, order) && Recorded(g, parts, order, input) && c in g.conns && g.conns[c].phase == G.Authorizing
    ensures Gather(parts, Entry(order, g.conns[c].shell) + [c]) == Gather(parts, Entry(order, g.conns[c].shell))
  {
    var cs := Entry(order, g.conns[c].shell);
    assert (cs + [c])[..|cs|] == cs;
    assert c in parts ==> parts[c] == [];
    assert Gather(parts, cs + [c]) == Gather(parts, cs) + [];
  }

  lemma RecordedAfter(g: G.Gateway, h: G.Gateway, e: G.Event, parts: map<ConnId, seq<byte>>,
                      order: map<ShellId, seq<ConnId>>, input: map<ShellId, seq<byte>>)
    requires G.WellFormed(g) && AttachedOnce(g, order) && Recorded(g, parts, order, input) && forall c :: ConnFollows(g, h, e, c)
    ensures Recorded(h, parts, OrderAfter(g, h, e, order), input)
  {
    hide G.WellFormed, Gather;
    var after := OrderAfter(g, h, e, order);
    if Attaches(g, h, e) { NothingWrittenYet(g, parts, order, input, e.c); }
    hide AttachedOnce;
    forall c | c in parts && parts[c] != [] ensures c in h.conns && c in Entry(after, h.conns[c].shell) {
      assert ConnFollows(g, h, e, c);
    }
  }

  lemma SameParts(links: map<ConnId, I.Link>, after: map<ConnId, I.Link>)
    requires after.Keys == links.Keys
    requires forall c :: c in links ==> after[c].pipe.written == links[c].pipe.written && after[c].accepted == links[c].accepted
    ensures Written(after) == Written(links) && Accepted(after) == Accepted(links)
  {
  }

  lemma LinksAfterOk(g: G.Gateway, h: G.Gateway, e: G.Event, links: map<ConnId, I.Link>)
    requires G.WellFormed(g) && G.WellFormed(h) && Linked(g, links) && forall c :: ConnFollows(g, h, e, c)
    ensures forall c :: c in links ==> LinkOk(h, c, LinkAfter(g, h, e, c, links[c]))
    ensures Written(LinksAfter(g, h, e, links)) == Written(links) && Accepted(LinksAfter(g, h, e, links)) == Accepted(links)
  {
    hide G.WellFormed, LinkOk, LinkAfter, ConnFollows, Written, Accepted;
    forall c | c in links
      ensures var k := LinkAfter(g, h, e, c, links[c]);
              LinkOk(h, c, k) && k.pipe.written == links[c].pipe.written && k.accepted == links[c].accepted
    {
      LinkAfterOk(g, h, e, c, links[c]);
    }
    SameParts(links, LinksAfter(g, h, e, links));
  }

  lemma LinkedAfter(g: G.Gateway, h: G.Gateway, e: G.Event, links: map<ConnId, I.Link>)
    requires G.WellFormed(g) && G.WellFormed(h) && Linked(g, links) && (e.Connect? ==> e.c in links) && forall c :: ConnFollows(g, h, e, c)
    ensures Linked(h, LinksAfter(g, h, e, links))
  {
    hide G.WellFormed, LinkOk, LinkAfter;
    LinksAfterOk(g, h, e, links);
    forall c | c in h.conns ensures c in links {
      assert ConnFollows(g, h, e, c);
    }
  }

  lemma OnGatewayOk(w: World, e: G.Event)
    requires InputOk(w) && G.Orderly(w.gateway, e) && (e.Connect? ==> e.c in w.links)
    ensures InputOk(OnGateway(w, e)) && Written(OnGateway(w, e).links) == Written(w.links)
  {
    hide G.WellFormed, G.RegistryOk, G.NoOrphans, G.Orderly, G.Step, Linked, Latest, AttachedOnce, Recorded, LinksAfter, ConnFollows, OrderAfter, Written, Accepted;
    var g, h := w.gateway, GatewayStep(w.gateway, e);
    G.OrderlyStepPlaces(g, e);
    forall c ensures ConnFollows(g, h, e, c) { GatewayConns(g, e, c); }
    LinkedAfter(g, h, e, w.links);
    LinksAfterOk(g, h, e, w.links);
    LatestAfter(g, h, e, w.order);
    AttachedOnceAfter(g, h, e, w.order);
    RecordedAfter(g, h, e, Written(w.links), w.order, w.input);
  }

  lemma SameWritten(w: World, v: World)
    requires Written(v.links) == Written(w.links)
    ensures OnlyLatestWrites(w, v)
  {
    forall c | c in w.links ensures c in v.links && v.links[c].pipe.written == w.links[c].pipe.written {
      assert c in Written(w.links);
      assert Written(v.links)[c] == Written(w.links)[c];
    }
  }

  lemma GatewayGrows(w: World, e: G.Event)
    requires GatewayOk(w.gateway)
    ensures OrderGrows(w, OnGateway(w, e))
  {
    hide G.RegistryOk, G.Step, LinksAfter;
    var h := GatewayStep(w.gateway, e);
    forall c | c in w.gateway.conns ensures c in h.conns && h.conns[c].shell == w.gateway.conns[c].shell {
      GatewayConns(w.gateway, e, c);
    }
  }

  lemma PushInputOk(w: World, c: ConnId)
    requires InputOk(w)
    ensures GatewayOk(w.gateway)
    ensures InputOk(Push(w, c)) && Written(Push(w, c).links) == Written(w.links) && OrderGrows(w, Push(w, c))
  {
    EndIsOrderly(w, c);
    hide InputOk, G.Orderly, OnGateway, G.WellFormed, G.RegistryOk;
    if c in w.links && c in w.gateway.conns && w.links[c].pipe.stopped && !w.gateway.conns[c].stopped {
      OnGatewayOk(w, G.EndMessage(c));
      GatewayGrows(w, G.EndMessage(c));
    }
  }

  lemma EndIsOrderly(w: World, c: ConnId)
    requires InputOk(w)
    ensures GatewayOk(w.gateway) && G.WellFormed(w.gateway) && G.Orderly(w.gateway, G.EndMessage(c))
  {
  }

  lemma NewLinked(g: G.Gateway, links: map<ConnId, I.Link>, c: ConnId)
    requires G.WellFormed(g) && Linked(g, links) && c !in links && c !in g.conns
    ensures Linked(g, links[c := I.NewLink(false, None)])
  {
    hide I.Ordered;
    I.NewLinkOrdered(false, None);
  }

  lemma NotInOrder(g: G.Gateway, parts: map<ConnId, seq<byte>>, order: map<ShellId, seq<ConnId>>, c: ConnId, x: ShellId)
    requires AttachedOnce(g, order) && c !in parts && c !in g.conns
    ensures Gather(parts[c := []], Entry(order, x)) == Gather(parts, Entry(order, x))
  {
    GatherSame(parts, parts[c := []], Entry(order, x));
  }

  lemma NewRecorded(g: G.Gateway, parts: map<ConnId, seq<byte>>, order: map<ShellId, seq<ConnId>>, input: map<ShellId, seq<byte>>, c: ConnId)
    requires AttachedOnce(g, order) && Recorded(g, parts, order, input) && c !in parts && c !in g.conns
    ensures Recorded(g, parts[c := []], order, input)
  {
    hide AttachedOnce, Gather, Entry;
    forall x: ShellId ensures Entry(input, x) == Gather(parts[c := []], Entry(order, x)) {
      NotInOrder(g, parts, order, c, x);
    }
  }

  lemma NewWritten(links: map<ConnId, I.Link>, c: ConnId)
    requires c !in links
    ensures c !in Written(links) && Written(links[c := I.NewLink(false, None)]) == Written(links)[c := []]
  {
  }

  lemma DialWrites(w: World, t: TerminalId, c: ConnId)
    requires c !in w.links
    ensures OnlyLatestWrites(w, Dial(w, t, c))
  {
    hide Entry;
  }

  lemma DialInputOk(w: World, t: TerminalId, c: ConnId)
    requires InputOk(w) && c !in w.links && c !in w.gateway.conns
    ensures InputOk(Dial(w, t, c)) && OnlyLatestWrites(w, Dial(w, t, c))
  {
    GatewayParts(w);
    DialWrites(w, t, c);
    hide GatewayOk, G.NoOrphans, Latest, Linked, AttachedOnce, Recorded, OnlyLatestWrites, G.WellFormed, Written, Entry;
    NewLinked(w.gateway, w.links, c);
    NewWritten(w.links, c);
    NewRecorded(w.gateway, Written(w.links), w.order, w.input, c);
  }

  lemma TypeInputOk(w: World, t: TerminalId, data: seq<byte>)
    requires InputOk(w) && t in w.current && w.current[t] in w.links
    ensures InputOk(Type(w, t, data)) && OnlyLatestWrites(w, Type(w, t, data))
  {
    var c := w.current[t];
    var e := I.Accepts(data);
    GatewayParts(w);
    assert LinkOk(w.gateway, c, w.links[c]);
    TypeWritten(w.links, c, data);
    hide GatewayOk, G.NoOrphans, LinkOk, Linked, Latest, AttachedOnce, Recorded, OnlyLatestWrites, G.WellFormed, Written, I.Step;
    LinkStepOk(w.gateway, c, w.links[c], e);
    LinkedOne(w.gateway, w.links, c, I.Step(w.links[c], e));
    SameWritten(w, Type(w, t, data));
  }

  lemma TypeWritten(links: map<ConnId, I.Link>, c: ConnId, data: seq<byte>)
    requires c in links
    ensures Written(links[c := I.Step(links[c], I.Accepts(data))]) == Written(links)
  {
  }

  /** What every step keeps: the invariant, that only the last attached connection writes, and the order so far. */
  ghost predicate Kept(w: World, v: World) {
    InputOk(v) && OnlyLatestWrites(w, v) && OrderGrows(w, v)
  }

  lemma QuietKept(w: World, v: World)
    requires InputOk(v) && Written(v.links) == Written(w.links) && OrderGrows(w, v)
    ensures Kept(w, v)
  {
    SameWritten(w, v);
  }

  lemma ThenQuiet(w: World, u: World, v: World)
    requires Kept(w, u) && InputOk(v) && Written(v.links) == Written(u.links) && OrderGrows(u, v)
    ensures Kept(w, v)
  {
    hide InputOk;
    SameWritten(u, v);
    forall c | c in w.links ensures c in v.links && v.links[c].pipe.written == u.links[c].pipe.written {
      assert c in Written(u.links) && Written(v.links)[c] == Written(u.links)[c];
    }
    forall x: ShellId ensures Entry(w.order, x) <= Entry(v.order, x) {
      assert Entry(w.order, x) <= Entry(u.order, x) <= Entry(v.order, x);
    }
  }

  lemma LinkEventKept(w: World, c: ConnId, e: I.Event)
    requires InputOk(w) && c in w.links && !e.StartsListening? && !e.Settles? && !e.Stops?
    ensures Kept(w, OnLink(w, c, e))
  {
    OnLinkOk(w, c, e);
    hide InputOk, OnlyLatestWrites, OrderGrows, OnLink;
  }

  lemma NetworkKept(w: World, c: ConnId, e: I.Event)
    requires InputOk(w) && c in w.links && FromNetwork(e)
    ensures GatewayOk(w.gateway) && Kept(w, Push(OnLink(w, c, e), c))
  {
    LinkEventKept(w, c, e);
    var u := OnLink(w, c, e);
    PushInputOk(u, c);
    hide InputOk, OnlyLatestWrites, OrderGrows, Push, OnLink, Written;
    ThenQuiet(w, u, Push(u, c));
  }

  lemma GatewayKept(w: World, e: G.Event)
    requires InputOk(w) && G.WellFormed(w.gateway) && G.Orderly(w.gateway, e) && (e.Connect? ==> e.c in w.links)
    ensures Kept(w, OnGateway(w, e))
  {
    OnGatewayOk(w, e);
    GatewayGrows(w, e);
    hide InputOk, OnlyLatestWrites, OrderGrows, OnGateway, Written;
    QuietKept(w, OnGateway(w, e));
  }

  lemma AuthorizeKept(w: World, e: G.Event)
    requires InputOk(w) && G.WellFormed(w.gateway) && G.Orderly(w.gateway, e) && e.Authorize?
    ensures GatewayOk(w.gateway) && Kept(w, Push(OnGateway(w, e), e.c))
  {
    GatewayKept(w, e);
    var u := OnGateway(w, e);
    PushInputOk(u, e.c);
    hide InputOk, OnlyLatestWrites, OrderGrows, Push, OnGateway, Written;
    ThenQuiet(w, u, Push(u, e.c));
  }

  lemma DialKept(w: World, t: TerminalId, c: ConnId)
    requires InputOk(w) && c !in w.links && c !in w.gateway.conns
    ensures Kept(w, Dial(w, t, c))
  {
    DialInputOk(w, t, c);
    hide InputOk, OnlyLatestWrites;
  }

  lemma TypeKept(w: World, t: TerminalId, data: seq<byte>)
    requires InputOk(w) && t in w.current && w.current[t] in w.links
    ensures Kept(w, Type(w, t, data))
  {
    TypeInputOk(w, t, data);
    hide InputOk, OnlyLatestWrites;
  }

  lemma IdleKept(w: World, current: map<TerminalId, ConnId>)
    requires InputOk(w)
    ensures Kept(w, w) && Kept(w, w.(current := current))
  {
    QuietKept(w, w);
    QuietKept(w, w.(current := current));
  }

  lemma BrowserKept(w: World, e: Event)
    requires GatewayOk(w.gateway) && InputOk(w) && !e.AtGateway? && !e.Network?
    ensures Kept(w, Step(w, e))
  {
    hide InputOk, Kept, GatewayOk, OnLink, Type, Dial;
    IdleKept(w, w.current);
    match e {
      case Dials(t, c) => if c !in w.links && c !in w.gateway.conns { DialKept(w, t, c); }
      case HangsUp(t) => IdleKept(w, w.current - {t});
      case Types(t, data) => if t in w.current && w.current[t] in w.links { TypeKept(w, t, data); }
      case Browser(t, le) => if t in w.current && w.current[t] in w.links && FromBrowser(le) { LinkEventKept(w, w.current[t], le); }
    }
  }

  lemma StepKept(w: World, e: Event)
    requires GatewayOk(w.gateway) && InputOk(w) && (e.AtGateway? ==> G.Orderly(w.gateway, e.ge))
    ensures Kept(w, Step(w, e))
  {
    GatewayParts(w);
    hide InputOk, Kept, GatewayOk, OnGateway, Push, OnLink, G.Orderly, G.WellFormed;
    IdleKept(w, w.current);
    match e {
      case Network(c, le) => if c in w.links && FromNetwork(le) { NetworkKept(w, c, le); }
      case AtGateway(ge) =>
        if ge.Authorize? { AuthorizeKept(w, ge); } else if ge.Connect? ==> ge.c in w.links { GatewayKept(w, ge); }
      case _ => BrowserKept(w, e); hide Step;
    }
  }

  // ---- Runs ----

  lemma {:induction false} RunInputOk(w: World, es: seq<Event>)
    requires GatewayOk(w.gateway) && InputOk(w) && OrderlyRun(w, es)
    ensures InputOk(Run(w, es))
    decreases |es|
  {
    hide GatewayOk, InputOk, Step, G.Orderly, OnlyLatestWrites, OrderGrows;
    if es != [] {
      StepOk(w, es[0]);
      StepKept(w, es[0]);
      RunInputOk(Step(w, es[0]), es[1..]);
    }
  }

  lemma StartInputOk(ttl: nat)
    ensures InputOk(Start(ttl))
  {
  }

  /**
   * In every orderly run, whatever is lost, resumed or taken over: what was written to a shell is, in
   * the order in which its connections attached, a prefix of what each of them accepted. Each attached
   * once, so nothing of one connection is written by, or after, a later one.
   */
  lemma NoInputCrossesConnections(ttl: nat, es: seq<Event>, x: ShellId)
    requires OrderlyRun(Start(ttl), es)
    ensures var w := Run(Start(ttl), es);
            var cs := Entry(w.order, x);
            && Entry(w.input, x) == Gather(Written(w.links), cs)
            && (forall i :: 0 <= i < |cs| ==> cs[i] in w.links && w.links[cs[i]].pipe.written <= w.links[cs[i]].accepted)
            && (forall i, j :: 0 <= i < j < |cs| ==> cs[i] != cs[j])
  {
    StartInputOk(ttl);
    RunInputOk(Start(ttl), es);
    InputParts(Run(Start(ttl), es), x);
  }

  lemma InputParts(w: World, x: ShellId)
    requires InputOk(w)
    ensures var cs := Entry(w.order, x);
            && Entry(w.input, x) == Gather(Written(w.links), cs)
            && (forall i :: 0 <= i < |cs| ==>
                  && cs[i] in w.gateway.conns && w.gateway.conns[cs[i]].shell == x
                  && cs[i] in w.links && w.links[cs[i]].pipe.written <= w.links[cs[i]].accepted)
            && (forall i, j :: 0 <= i < j < |cs| ==> cs[i] != cs[j])
  {
    GatewayParts(w);
    hide G.NoOrphans, GatewayOk, I.Ordered, G.WellFormed, Written;
    var cs := Entry(w.order, x);
    forall i | 0 <= i < |cs| ensures cs[i] in w.links && w.links[cs[i]].pipe.written <= w.links[cs[i]].accepted {
      LinkParts(w.gateway, cs[i], w.links[cs[i]]);
      I.OrderedPrefix(w.links[cs[i]]);
    }
  }

  /** Once a later connection attached to a shell, an earlier one never writes to it again. */
  lemma {:induction false} OlderNeverWritesAgain(w: World, es: seq<Event>, x: ShellId, i: nat)
    requires GatewayOk(w.gateway) && InputOk(w) && OrderlyRun(w, es) && i + 1 < |Entry(w.order, x)|
    ensures var c := Entry(w.order, x)[i]; var v := Run(w, es);
            c in w.links && c in v.links && v.links[c].pipe.written == w.links[c].pipe.written
            && i + 1 < |Entry(v.order, x)| && Entry(v.order, x)[i] == c
    decreases |es|
  {
    hide GatewayOk, InputOk, Step, G.Orderly, OnlyLatestWrites, OrderGrows, Gather, Written;
    InputParts(w, x);
    if es != [] {
      StepOk(w, es[0]);
      StepKept(w, es[0]);
      OlderStepQuiet(w, Step(w, es[0]), x, i);
      OlderNeverWritesAgain(Step(w, es[0]), es[1..], x, i);
    }
  }

  lemma OlderStepQuiet(w: World, v: World, x: ShellId, i: nat)
    requires InputOk(w) && OnlyLatestWrites(w, v) && OrderGrows(w, v) && i + 1 < |Entry(w.order, x)|
    ensures var c := Entry(w.order, x)[i];
            c in w.links && c in v.links && v.links[c].pipe.written == w.links[c].pipe.written
            && i + 1 < |Entry(v.order, x)| && Entry(v.order, x)[i] == c
  {
    InputParts(w, x);
    hide InputOk, Gather, Written, Entry;
    assert Entry(w.order, x) <= Entry(v.order, x);
  }

  // ---- Whose keystrokes ----

  /** What a terminal accepted is, in the order in which it dialed, what its connections accepted. */
  ghost predicate TypedOk(parts: map<ConnId, seq<byte>>, dialed: map<TerminalId, seq<ConnId>>, typed: map<TerminalId, seq<byte>>) {
    forall t: TerminalId :: Entry(typed, t) == Gather(parts, Entry(dialed, t))
  }

  /** Every connection was dialed once, by its owner. */
  ghost predicate DialedOk(conns: set<ConnId>, owner: map<ConnId, TerminalId>, dialed: map<TerminalId, seq<ConnId>>) {
    && (forall t: TerminalId, i :: 0 <= i < |Entry(dialed, t)| ==>
          var c := Entry(dialed, t)[i]; c in conns && c in owner && owner[c] == t)
    && (forall t: TerminalId, i, j :: 0 <= i < j < |Entry(dialed, t)| ==> Entry(dialed, t)[i] != Entry(dialed, t)[j])
    && (forall c :: c in conns ==> c in owner && c in Entry(dialed, owner[c]))
  }

  /** A terminal types into the connection it dialed last, or into none. */
  ghost predicate CurrentOk(current: map<TerminalId, ConnId>, dialed: map<TerminalId, seq<ConnId>>) {
    forall t :: t in current ==> var cs := Entry(dialed, t); cs != [] && cs[|cs| - 1] == current[t]
  }

  ghost predicate Typing(w: World) {
    && TypedOk(Accepted(w.links), w.dialed, w.typed)
    && DialedOk(w.links.Keys, w.owner, w.dialed)
    && CurrentOk(w.current, w.dialed)
  }

  /** No terminal types into the connection any more. */
  predicate Left(w: World, c: ConnId) {
    forall t :: t in w.current ==> w.current[t] != c
  }

  /** Only the browser changes what a connection accepted and sent, and only at a terminal's current one. */
  ghost predicate SendersStay(w: World, v: World) {
    forall c :: c in w.links ==>
      && c in v.links
      && (Left(w, c) ==> v.links[c].accepted == w.links[c].accepted && v.links[c].sent == w.links[c].sent && Left(v, c))
  }

  lemma LinkAfterSends(g: G.Gateway, h: G.Gateway, e: G.Event, c: ConnId, l: I.Link)
    requires G.WellFormed(h)
    ensures var k := LinkAfter(g, h, e, c, l); k.accepted == l.accepted && k.sent == l.sent
  {
    hide I.Step;
    var pe := PipeEvent(g, h, e, c, l);
    if pe.Some? { I.AcceptsAndSends(l, pe.value); }
  }

  lemma CurrentHasNotLeft(w: World, t: TerminalId)
    requires t in w.current
    ensures !Left(w, w.current[t])
  {
  }

  lemma AcceptedOne(links: map<ConnId, I.Link>, c: ConnId, k: I.Link)
    ensures Accepted(links[c := k]) == Accepted(links)[c := k.accepted] && links[c := k].Keys == links.Keys + {c}
    ensures c in links ==> links[c := k].Keys == links.Keys && Accepted(links)[c] == links[c].accepted
    ensures c in links && k.accepted == links[c].accepted ==> Accepted(links[c := k]) == Accepted(links)
    ensures Accepted(links).Keys == links.Keys
  {
  }

  lemma StayOne(w: World, v: World, c: ConnId)
    requires c in w.links && c in v.links && v.links == w.links[c := v.links[c]] && v.current == w.current
    requires Left(w, c) ==> v.links[c].accepted == w.links[c].accepted && v.links[c].sent == w.links[c].sent
    ensures SendersStay(w, v)
  {
    assert forall d :: Left(w, d) <==> Left(v, d);
    hide Left;
  }

  lemma StayAll(w: World, v: World)
    requires v.links.Keys == w.links.Keys && v.current == w.current
    requires forall c :: c in w.links ==> v.links[c].accepted == w.links[c].accepted && v.links[c].sent == w.links[c].sent
    ensures SendersStay(w, v) && Accepted(v.links) == Accepted(w.links)
  {
    assert forall d :: Left(w, d) <==> Left(v, d);
    hide Left;
  }

  lemma LinksAfterSend(g: G.Gateway, h: G.Gateway, e: G.Event, links: map<ConnId, I.Link>)
    requires G.WellFormed(h)
    ensures var after := LinksAfter(g, h, e, links);
            && after.Keys == links.Keys
            && forall c :: c in links ==> after[c].accepted == links[c].accepted && after[c].sent == links[c].sent
  {
    hide LinkAfter, G.WellFormed;
    forall c | c in links ensures var k := LinkAfter(g, h, e, c, links[c]); k.accepted == links[c].accepted && k.sent == links[c].sent {
      LinkAfterSends(g, h, e, c, links[c]);
    }
  }

  lemma OnGatewayTyping(w: World, e: G.Event)
    requires GatewayOk(w.gateway) && Typing(w)
    ensures Typing(OnGateway(w, e)) && SendersStay(w, OnGateway(w, e))
  {
    var h := GatewayStep(w.gateway, e);
    assert G.WellFormed(h);
    hide GatewayOk, GatewayStep, LinksAfter, OrderAfter, TypedOk, DialedOk, CurrentOk, SendersStay, Accepted, G.WellFormed;
    LinksAfterSend(w.gateway, h, e, w.links);
    StayAll(w, OnGateway(w, e));
  }

  lemma OnLinkTyping(w: World, c: ConnId, e: I.Event)
    requires Typing(w) && c in w.links && !e.Accepts? && (e.Sends? ==> !Left(w, c))
    ensures Typing(OnLink(w, c, e)) && SendersStay(w, OnLink(w, c, e))
  {
    hide I.Step, TypedOk, DialedOk, CurrentOk, SendersStay, Accepted, Left;
    I.AcceptsAndSends(w.links[c], e);
    AcceptedOne(w.links, c, I.Step(w.links[c], e));
    StayOne(w, OnLink(w, c, e), c);
  }

  lemma TypedGrows(parts: map<ConnId, seq<byte>>, conns: set<ConnId>, owner: map<ConnId, TerminalId>, dialed: map<TerminalId, seq<ConnId>>,
                   typed: map<TerminalId, seq<byte>>, t: TerminalId, data: seq<byte>)
    requires TypedOk(parts, dialed, typed) && DialedOk(conns, owner, dialed) && parts.Keys == conns && Entry(dialed, t) != []
    ensures var cs := Entry(dialed, t); var c := cs[|cs| - 1];
            c in parts && TypedOk(parts[c := parts[c] + data], dialed, typed[t := Entry(typed, t) + data])
  {
    var cs := Entry(dialed, t);
    var c := cs[|cs| - 1];
    var q, typed' := parts[c := parts[c] + data], typed[t := Entry(typed, t) + data];
    forall u: TerminalId ensures Entry(typed', u) == Gather(q, Entry(dialed, u)) {
      if u == t { GatherLast(parts, q, cs, data); } else { GatherSame(parts, q, Entry(dialed, u)); }
    }
  }

  lemma TypeParts(w: World, t: TerminalId, data: seq<byte>)
    requires t in w.current && w.current[t] in w.links
    ensures var c := w.current[t]; var v := Type(w, t, data);
            && v.current == w.current && v.owner == w.owner && v.dialed == w.dialed
            && v.typed == w.typed[t := Entry(w.typed, t) + data]
            && v.links == w.links[c := I.Step(w.links[c], I.Accepts(data))]
  {
  }

  lemma TypeTyping(w: World, t: TerminalId, data: seq<byte>)
    requires Typing(w) && t in w.current && w.current[t] in w.links
    ensures Typing(Type(w, t, data)) && SendersStay(w, Type(w, t, data))
  {
    var c := w.current[t];
    assert CurrentOk(w.current, w.dialed);
    TypeParts(w, t, data);
    CurrentHasNotLeft(w, t);
    I.AcceptsAndSends(w.links[c], I.Accepts(data));
    hide TypedOk, DialedOk, CurrentOk, SendersStay, Accepted, Left, I.Step, Type;
    AcceptedOne(w.links, c, I.Step(w.links[c], I.Accepts(data)));
    TypedGrows(Accepted(w.links), w.links.Keys, w.owner, w.dialed, w.typed, t, data);
    StayOne(w, Type(w, t, data), c);
  }

  lemma DialedGrows(parts: map<ConnId, seq<byte>>, conns: set<ConnId>, owner: map<ConnId, TerminalId>, dialed: map<TerminalId, seq<ConnId>>,
                    typed: map<TerminalId, seq<byte>>, t: TerminalId, c: ConnId)
    requires TypedOk(parts, dialed, typed) && DialedOk(conns, owner, dialed) && parts.Keys == conns && c !in conns
    ensures TypedOk(parts[c := []], dialed[t := Entry(dialed, t) + [c]], typed)
  {
    var cs, q, dialed' := Entry(dialed, t), parts[c := []], dialed[t := Entry(dialed, t) + [c]];
    assert (cs + [c])[..|cs|] == cs;
    forall u: TerminalId ensures Entry(typed, u) == Gather(q, Entry(dialed', u)) {
      GatherSame(parts, q, Entry(dialed, u));
      if u == t { assert Gather(q, cs + [c]) == Gather(q, cs) + []; }
    }
  }

  lemma OwnersGrow(conns: set<ConnId>, owner: map<ConnId, TerminalId>, dialed: map<TerminalId, seq<ConnId>>, t: TerminalId, c: ConnId)
    requires DialedOk(conns, owner, dialed) && c !in conns
    ensures DialedOk(conns + {c}, owner[c := t], dialed[t := Entry(dialed, t) + [c]])
  {
    var cs, owner', dialed' := Entry(dialed, t), owner[c := t], dialed[t := Entry(dialed, t) + [c]];
    forall u: TerminalId, i | 0 <= i < |Entry(dialed', u)|
      ensures var d := Entry(dialed', u)[i]; d in conns + {c} && d in owner' && owner'[d] == u
    {
      if i < |Entry(dialed, u)| { assert Entry(dialed', u)[i] == Entry(dialed, u)[i]; }
    }
    forall u: TerminalId, i, j | 0 <= i < j < |Entry(dialed', u)| ensures Entry(dialed', u)[i] != Entry(dialed', u)[j] {
      assert Entry(dialed', u)[i] == Entry(dialed, u)[i];
      if j < |Entry(dialed, u)| { assert Entry(dialed', u)[j] == Entry(dialed, u)[j]; }
    }
    forall d | d in conns + {c} ensures d in owner' && d in Entry(dialed', owner'[d]) {
      if d == c { assert (cs + [c])[|cs|] == c; }
    }
  }

  lemma CurrentGrows(current: map<TerminalId, ConnId>, dialed: map<TerminalId, seq<ConnId>>, t: TerminalId, c: ConnId)
    requires CurrentOk(current, dialed)
    ensures CurrentOk(current[t := c], dialed[t := Entry(dialed, t) + [c]])
  {
  }

  lemma DialStays(w: World, t: TerminalId, c: ConnId)
    requires c !in w.links
    ensures SendersStay(w, Dial(w, t, c))
  {
  }

  lemma DialTyping(w: World, t: TerminalId, c: ConnId)
    requires Typing(w) && c !in w.links
    ensures Typing(Dial(w, t, c)) && SendersStay(w, Dial(w, t, c))
  {
    hide TypedOk, DialedOk, CurrentOk, SendersStay, Accepted;
    AcceptedOne(w.links, c, I.NewLink(false, None));
    DialedGrows(Accepted(w.links), w.links.Keys, w.owner, w.dialed, w.typed, t, c);
    OwnersGrow(w.links.Keys, w.owner, w.dialed, t, c);
    CurrentGrows(w.current, w.dialed, t, c);
    DialStays(w, t, c);
  }

  lemma HangUpTyping(w: World, t: TerminalId)
    requires Typing(w)
    ensures Typing(w.(current := w.current - {t})) && SendersStay(w, w.(current := w.current - {t}))
    ensures SendersStay(w, w)
  {
    hide TypedOk, DialedOk;
  }

  lemma PushTyping(w: World, u: World, c: ConnId)
    requires GatewayOk(u.gateway) && Typing(u) && SendersStay(w, u)
    ensures Typing(Push(u, c)) && SendersStay(w, Push(u, c))
  {
    hide GatewayOk, Typing, OnGateway;
    if Push(u, c) != u {
      OnGatewayTyping(u, G.EndMessage(c));
      StayTwice(w, u, Push(u, c));
    }
  }

  lemma StayTwice(w: World, u: World, v: World)
    requires SendersStay(w, u) && SendersStay(u, v)
    ensures SendersStay(w, v)
  {
    hide Left;
  }

  lemma StepTyping(w: World, e: Event)
    requires GatewayOk(w.gateway) && Typing(w)
    ensures Typing(Step(w, e)) && SendersStay(w, Step(w, e))
  {
    hide Typing, SendersStay, GatewayOk, OnGateway, Push, OnLink, Type, Dial, Left;
    match e {
      case Dials(t, c) => if c !in w.links { DialTyping(w, t, c); }
      case HangsUp(t) => HangUpTyping(w, t);
      case Types(t, data) => if t in w.current && w.current[t] in w.links { TypeTyping(w, t, data); }
      case Browser(t, le) =>
        if t in w.current && w.current[t] in w.links && FromBrowser(le) {
          CurrentHasNotLeft(w, t);
          OnLinkTyping(w, w.current[t], le);
        }
      case Network(c, le) =>
        if c in w.links && FromNetwork(le) {
          OnLinkTyping(w, c, le);
          OnLinkGateway(w, c, le);
          PushTyping(w, OnLink(w, c, le), c);
        }
      case AtGateway(ge) =>
        OnGatewayTyping(w, ge);
        if ge.Authorize? { OnGatewayStays(w, ge); PushTyping(w, OnGateway(w, ge), ge.c); }
    }
    HangUpTyping(w, 0);
  }

  lemma OnLinkGateway(w: World, c: ConnId, e: I.Event)
    requires c in w.links
    ensures OnLink(w, c, e).gateway == w.gateway
  {
  }

  lemma OnGatewayStays(w: World, e: G.Event)
    requires GatewayOk(w.gateway)
    ensures GatewayOk(OnGateway(w, e).gateway)
  {
  }

  lemma {:induction false} RunTyping(w: World, es: seq<Event>)
    requires GatewayOk(w.gateway) && Typing(w)
    ensures Typing(Run(w, es)) && SendersStay(w, Run(w, es))
    decreases |es|
  {
    hide GatewayOk, Typing, SendersStay, Step;
    if es == [] {
      HangUpTyping(w, 0);
    } else {
      StepOk(w, es[0]);
      StepTyping(w, es[0]);
      RunTyping(Step(w, es[0]), es[1..]);
      StayTwice(w, Step(w, es[0]), Run(w, es));
    }
  }

  /**
   * In every run: what a terminal accepted from its user is, one after the other, what its connections
   * accepted, each connection having one terminal and one place; and it types into the last only.
   */
  lemma EveryKeystrokeHasOneConnection(ttl: nat, es: seq<Event>)
    ensures var w := Run(Start(ttl), es);
            TypedOk(Accepted(w.links), w.dialed, w.typed) && DialedOk(w.links.Keys, w.owner, w.dialed) && CurrentOk(w.current, w.dialed)
  {
    assert Typing(Start(ttl));
    RunTyping(Start(ttl), es);
  }

  /** A connection that its terminal dropped or replaced accepts and sends nothing any more. */
  lemma DroppedSenderIsDone(w: World, es: seq<Event>, c: ConnId)
    requires GatewayOk(w.gateway) && Typing(w) && c in w.links && Left(w, c)
    ensures var v := Run(w, es); c in v.links && v.links[c].accepted == w.links[c].accepted && v.links[c].sent == w.links[c].sent
  {
    RunTyping(w, es);
  }
}

/**
 * Terminals, sockets and shells: output across any number of drops, resumes and take-overs.
 *
 * The network delivers each socket's messages in order until it goes silent for good. Claiming a
 * shell and attaching to it are separate steps, in any interleaving; shells end, sockets close and
 * terminals redial whenever they like.
 */
module OutputResume {
  import opened Bytes
  import opened ShellHistory

  type ShellId = string

  /** The gateway reads an offset of at most fifteen digits; the browser sends none beyond 2^53 - 1. */
  const OFFSET_LIMIT: nat := 1_000_000_000_000_000
  const MAX_SAFE_INTEGER: nat := 9_007_199_254_740_991

  /** The `offset` the gateway gets from a browser that has `received` bytes. */
  function OffsetParam(received: nat): Option<nat> {
    if received < OFFSET_LIMIT then Some(received) else None
  }

  /** `end`: how much the shell had printed when the message was made (not on the wire; gaps are judged by it). */
  datatype Message =
    | Session(shell: ShellId, keepAlive: bool, resumed: bool, offset: nat, truncated: bool, end: nat)
    | Output(data: seq<byte>)
    | Closed(forget: bool)

  /** What the terminal did for the shell it shows: wrote bytes, or moved to another offset. */
  datatype Item = Data(data: seq<byte>) | Jump(from: nat, to: nat, announced: bool, end: nat)

  /** `shown`: the shell `receivedBytes` counts; `log`: what the terminal did for it. */
  datatype Terminal = Terminal(
    resumeId: Option<ShellId>, receivedBytes: nat, socket: Option<nat>, shown: Option<ShellId>, log: seq<Item>)

  /** `opener`: the socket the shell was opened for; `started`: its stream exists. */
  datatype Shell = Shell(
    output: seq<byte>, keepAlive: bool, opener: nat, started: bool, ended: bool,
    attachment: Option<nat>, detachedAt: Option<nat>)

  /**
   * `shell`: once the gateway accepted the socket, the shell it claimed (`resumed`) or created.
   * `open`: the gateway still sends on it. `silent`: nothing more gets through. `announced` and
   * `seen`: the session message was sent, and was handled by the terminal.
   */
  datatype Sock = Sock(
    terminal: nat, keepAlive: bool, request: Option<ShellId>, offset: Option<nat>,
    shell: Option<ShellId>, resumed: bool, attached: bool,
    open: bool, silent: bool, announced: bool, seen: bool, down: seq<Message>)

  datatype World = World(terminals: map<nat, Terminal>, socks: map<nat, Sock>, shells: map<ShellId, Shell>)

  datatype Event =
    | Loads(t: nat, stored: Option<ShellId>)
    | Dials(t: nat, s: nat, keepAlive: bool)
    | HangsUp(t: nat)
    | Forgets(t: nat)
    | Accepts(s: nat, claim: bool, newId: ShellId)
    | Attaches(s: nat, fits: bool)
    | OpensShell(x: ShellId)
    | Prints(x: ShellId, data: seq<byte>, fits: bool)
    | Detaches(x: ShellId, mark: bool)
    | EndsShell(x: ShellId, forget: bool)
    | ClosesSocket(s: nat)
    | GoesSilent(s: nat)
    | Delivers(s: nat)

  // ---- The gateway ----

  function Post(w: World, s: nat, m: Message): World {
    if s in w.socks && w.socks[s].open then w.(socks := w.socks[s := w.socks[s].(down := w.socks[s].down + [m])]) else w
  }

  function CloseSock(w: World, s: nat): World {
    if s in w.socks then w.(socks := w.socks[s := w.socks[s].(open := false)]) else w
  }

  function CloseAttached(w: World, x: ShellId): World
    requires x in w.shells
  {
    if w.shells[x].attachment.Some? then CloseSock(w, w.shells[x].attachment.value) else w
  }

  predicate CanClaim(w: World, q: Sock) {
    && q.request.Some? && q.request.value in w.shells
    && var h := w.shells[q.request.value]; h.keepAlive && h.started && !h.ended
  }

  /** The connection handler reaches the claim: the shell asked for, or a new one. */
  function Accept(w: World, s: nat, claim: bool, newId: ShellId): World
    requires s in w.socks
  {
    var q := w.socks[s];
    if q.shell.Some? then w
    else if claim && CanClaim(w, q) then
      TakeShell(CloseAttached(w, q.request.value), s, q.request.value)
    else if newId in w.shells then w
    else CreateShell(w, s, newId)
  }

  function TakeShell(w: World, s: nat, x: ShellId): World
    requires s in w.socks && x in w.shells
  {
    w.(socks := w.socks[s := w.socks[s].(shell := Some(x), resumed := true)],
       shells := w.shells[x := w.shells[x].(attachment := None)])
  }

  function CreateShell(w: World, s: nat, x: ShellId): World
    requires s in w.socks
  {
    w.(socks := w.socks[s := w.socks[s].(shell := Some(x), resumed := false)],
       shells := w.shells[x := Shell([], w.socks[s].keepAlive, s, false, false, None, None)])
  }

  /** The shell's output goes to `s` from now on; `ms` are sent on it at once. */
  function AttachTo(w: World, s: nat, x: ShellId, ms: seq<Message>, keepOpen: bool): World
    requires s in w.socks && x in w.shells
  {
    var q := w.socks[s];
    w.(shells := w.shells[x := w.shells[x].(attachment := Some(s), detachedAt := None)],
       socks := w.socks[s := q.(attached := true, announced := q.resumed && q.open, open := q.open && keepOpen,
                                down := if q.open then q.down + ms else q.down)])
  }

  /** The authorized connection attaches; a resumed shell is announced and replayed at once. */
  function Attach(w: World, s: nat, fits: bool): World
    requires s in w.socks
  {
    var q := w.socks[s];
    if q.attached || q.shell.None? || q.shell.value !in w.shells || w.shells[q.shell.value].ended then w else
    var x := q.shell.value;
    var h := w.shells[x];
    if !q.resumed then AttachTo(w, s, x, [], true) else
    var r := ReplayOf(h.output, q.offset, h.detachedAt);
    var session := Session(x, h.keepAlive, true, r.from, r.truncated, |h.output|);
    if r.data == [] then AttachTo(w, s, x, [session], true)
    else if fits || !q.open then AttachTo(w, s, x, [session, Output(r.data)], true)
    else Unattach(AttachTo(w, s, x, [session], false), x, true)
  }

  function Unattach(w: World, x: ShellId, mark: bool): World
    requires x in w.shells
  {
    var h := w.shells[x];
    w.(shells := w.shells[x := h.(attachment := None, detachedAt := if mark then Some(|h.output|) else h.detachedAt)])
  }

  /** The new shell's stream exists: it is announced to the connection it was opened for, if still attached. */
  function OpenShell(w: World, x: ShellId): World
    requires x in w.shells
  {
    var h := w.shells[x];
    if h.started || h.ended || h.opener !in w.socks || !w.socks[h.opener].attached then w else
    var v := w.(shells := w.shells[x := h.(started := true)]);
    var q := w.socks[h.opener];
    if h.attachment == Some(h.opener) && q.open then
      v.(socks := w.socks[h.opener := q.(announced := true, down := q.down + [Session(x, h.keepAlive, false, |h.output|, false, |h.output|)])])
    else v
  }

  /** The shell prints: into the history, and to the attached socket unless its queue is full. */
  function Print(w: World, x: ShellId, data: seq<byte>, fits: bool): World
    requires x in w.shells
  {
    var h := w.shells[x];
    if !h.started || h.ended then w else
    var v := w.(shells := w.shells[x := h.(output := h.output + data)]);
    if h.attachment.None? || h.attachment.value !in w.socks || !w.socks[h.attachment.value].open then v else
    var s := h.attachment.value;
    if fits then Post(v, s, Output(data)) else Unattach(CloseSock(v, s), x, true)
  }

  function EndShell(w: World, x: ShellId, forget: bool): World
    requires x in w.shells
  {
    var h := w.shells[x];
    if h.ended then w else
    var v := if h.attachment.Some? then CloseSock(Post(w, h.attachment.value, Closed(forget)), h.attachment.value) else w;
    v.(shells := w.shells[x := h.(ended := true, attachment := None)])
  }

  // ---- The terminal ----

  function OnSession(t: Terminal, m: Message): Terminal
    requires m.Session?
  {
    var offset := if m.offset <= MAX_SAFE_INTEGER then m.offset else 0;
    var t1 := t.(resumeId := if m.keepAlive then Some(m.shell) else None, receivedBytes := offset, shown := Some(m.shell));
    if !m.resumed then t1.(log := if offset == 0 then [] else [Jump(0, offset, false, m.end)])
    else if offset == t.receivedBytes then t1
    else t1.(log := t.log + [Jump(t.receivedBytes, offset, m.truncated, m.end)])
  }

  function OnMessage(t: Terminal, m: Message): Terminal {
    match m
    case Session(_, _, _, _, _, _) => OnSession(t, m)
    case Output(data) => t.(receivedBytes := t.receivedBytes + |data|, log := t.log + [Data(data)])
    case Closed(forget) => if forget then t.(resumeId := None) else t
  }

  /** The part of the browser's connection that follows a shell's output, updated in place. */
  class OutputFollower {
    var resumeId: Option<ShellId>
    var receivedBytes: nat
    var socket: Option<nat>
    var shown: Option<ShellId>
    ghost var log: seq<Item>

    ghost function View(): Terminal
      reads this
    {
      Terminal(resumeId, receivedBytes, socket, shown, log)
    }

    /** A page that loads with an id kept from before has none of that shell's output. */
    constructor (stored: Option<ShellId>)
      ensures View() == Terminal(stored, 0, None, stored, [])
    {
      resumeId, receivedBytes, socket, shown, log := stored, 0, None, stored, [];
    }

    method OutputReceived(data: seq<byte>)
      modifies this
      ensures View() == OnMessage(old(View()), Output(data))
      ensures receivedBytes == old(receivedBytes) + |data| && log == old(log) + [Data(data)] && shown == old(shown) && resumeId == old(resumeId)
    {
      receivedBytes := receivedBytes + |data|;
      log := log + [Data(data)];
    }

    method SessionReceived(shell: ShellId, keepAlive: bool, resumed: bool, offset: nat, truncated: bool, ghost end: nat)
      modifies this
      ensures View() == OnMessage(old(View()), Session(shell, keepAlive, resumed, offset, truncated, end))
      ensures resumeId == (if keepAlive then Some(shell) else None) && shown == Some(shell)
      ensures receivedBytes == if offset <= MAX_SAFE_INTEGER then offset else 0
      ensures resumed && receivedBytes == old(receivedBytes) ==> log == old(log)
      ensures resumed && receivedBytes != old(receivedBytes) ==>
                log == old(log) + [Jump(old(receivedBytes), receivedBytes, truncated, end)]
      ensures !resumed ==> log == if receivedBytes == 0 then [] else [Jump(0, receivedBytes, false, end)]
    {
      resumeId := if keepAlive then Some(shell) else None;
      var before := receivedBytes;
      receivedBytes := if offset <= MAX_SAFE_INTEGER then offset else 0;
      if !resumed { log, before := [], 0; }
      if receivedBytes != before { log := log + [Jump(before, receivedBytes, resumed && truncated, end)]; }
      shown := Some(shell);
    }

    method ClosedReceived(forget: bool)
      modifies this
      ensures View() == OnMessage(old(View()), Closed(forget))
      ensures resumeId == (if forget then None else old(resumeId)) && receivedBytes == old(receivedBytes) && log == old(log)
    {
      if forget { resumeId := None; }
    }

    /** What the next connection asks for: the shell, and the byte its replay has to start at. */
    method ResumeRequest(keepAlive: bool) returns (request: Option<ShellId>, offset: Option<nat>)
      ensures request.Some? <==> keepAlive && resumeId.Some?
      ensures request.Some? ==> request == resumeId
      ensures offset.Some? <==> request.Some? && receivedBytes < OFFSET_LIMIT
      ensures offset.Some? ==> offset.value == receivedBytes
    {
      var resuming := keepAlive && resumeId.Some?;
      request, offset := None, None;
      if resuming {
        request := resumeId;
        offset := OffsetParam(receivedBytes);
      }
    }
  }

  function Dial(w: World, t: nat, s: nat, keepAlive: bool): World
    requires t in w.terminals
  {
    if s in w.socks then w else
    var c := w.terminals[t];
    var request := if keepAlive then c.resumeId else None;
    var offset := if request.Some? then OffsetParam(c.receivedBytes) else None;
    w.(terminals := w.terminals[t := c.(socket := Some(s))],
       socks := w.socks[s := Sock(t, keepAlive, request, offset, None, false, false, true, false, false, false, [])])
  }

  /** The next message arrives; only the terminal's current socket is listened to. */
  function Deliver(w: World, s: nat): World
    requires s in w.socks
  {
    var q := w.socks[s];
    if q.silent || q.down == [] then w else
    var m := q.down[0];
    var v := w.(socks := w.socks[s := q.(down := q.down[1..], seen := q.seen || m.Session?)]);
    if q.terminal in w.terminals && w.terminals[q.terminal].socket == Some(s)
    then v.(terminals := w.terminals[q.terminal := OnMessage(w.terminals[q.terminal], m)])
    else v
  }

  function Step(w: World, e: Event): World {
    match e
    case Loads(t, stored) => if t in w.terminals then w else w.(terminals := w.terminals[t := Terminal(stored, 0, None, stored, [])])
    case Dials(t, s, keepAlive) => if t in w.terminals then Dial(w, t, s, keepAlive) else w
    case HangsUp(t) => if t in w.terminals then w.(terminals := w.terminals[t := w.terminals[t].(socket := None)]) else w
    case Forgets(t) => if t in w.terminals then w.(terminals := w.terminals[t := w.terminals[t].(resumeId := None)]) else w
    case Accepts(s, claim, newId) => if s in w.socks then Accept(w, s, claim, newId) else w
    case Attaches(s, fits) => if s in w.socks then Attach(w, s, fits) else w
    case OpensShell(x) => if x in w.shells then OpenShell(w, x) else w
    case Prints(x, data, fits) => if x in w.shells then Print(w, x, data, fits) else w
    case Detaches(x, mark) => if x in w.shells then Unattach(w, x, mark) else w
    case EndsShell(x, forget) => if x in w.shells then EndShell(w, x, forget) else w
    case ClosesSocket(s) => CloseSock(w, s)
    case GoesSilent(s) => if s in w.socks then w.(socks := w.socks[s := w.socks[s].(silent := true)]) else w
    case Delivers(s) => if s in w.socks then Deliver(w, s) else w
  }

  function Run(w: World, es: seq<Event>): World
    decreases |es|
  {
    if es == [] then w else Run(Step(w, es[0]), es[1..])
  }

  const NOTHING: World := World(map[], map[], map[])

  // ---- What a terminal may show ----

  function OutputOf(w: World, x: Option<ShellId>): seq<byte> {
    if x.Some? && x.value in w.shells then w.shells[x.value].output else []
  }

  /**
   * A gap is announced, goes forward, and covers only output that the history no longer held when the
   * shell had printed `end` bytes (and a safe-start margin).
   */
  predicate FairGap(end: nat, from: nat, to: nat, announced: bool) {
    announced && from < to <= end && from < HistoryStart(end) && to <= HistoryStart(end) + SAFE_START_WINDOW
  }

  /** The terminal's log is exactly `out[..p]`, in order and without a repeat, except for fair gaps. */
  ghost predicate Faithful(log: seq<Item>, out: seq<byte>, p: nat) {
    if log == [] then p == 0
    else
      var init := log[..|log| - 1];
      match log[|log| - 1]
      case Data(data) => |data| <= p <= |out| && out[p - |data|..p] == data && Faithful(init, out, p - |data|)
      case Jump(from, to, announced, end) => to == p && end <= |out| && FairGap(end, from, to, announced) && Faithful(init, out, from)
  }

  lemma {:induction false} FaithfulGrows(log: seq<Item>, out: seq<byte>, more: seq<byte>, p: nat)
    requires Faithful(log, out, p)
    ensures Faithful(log, out + more, p)
  {
    if log != [] {
      match log[|log| - 1]
      case Data(data) =>
        assert (out + more)[p - |data|..p] == out[p - |data|..p];
        FaithfulGrows(log[..|log| - 1], out, more, p - |data|);
      case Jump(from, _, _, _) => FaithfulGrows(log[..|log| - 1], out, more, from);
    }
  }

  /** What a session message must say to a terminal that has `received` bytes, for its socket `q`. */
  predicate FairSession(m: Message, q: Sock, received: nat, out: seq<byte>)
    requires m.Session?
  {
    && q.shell == Some(m.shell) && m.resumed == q.resumed
    && (if m.resumed then
          q.request == Some(m.shell) && m.offset <= |out|
          && (m.offset == received || (m.end <= |out| && FairGap(m.end, received, m.offset, m.truncated)))
        else m.offset == 0)
  }

  /** The messages still on their way continue the output from `at` (unknown before the session message). */
  ghost predicate Continues(down: seq<Message>, q: Sock, received: nat, out: seq<byte>, at: Option<nat>)
    decreases |down|
  {
    if down == [] then true
    else
      match down[0]
      case Session(_, _, _, offset, _, _) => at == None && FairSession(down[0], q, received, out)
        && Continues(down[1..], q, received, out, Some(offset))
      case Output(data) =>
        && at.Some? && at.value + |data| <= |out| && out[at.value..at.value + |data|] == data
        && Continues(down[1..], q, received, out, Some(at.value + |data|))
      case Closed(_) => Continues(down[1..], q, received, out, at)
  }

  /** The offset after all of them. */
  function Reached(down: seq<Message>, at: Option<nat>): Option<nat>
    decreases |down|
  {
    if down == [] then at
    else
      match down[0]
      case Session(_, _, _, offset, _, _) => Reached(down[1..], Some(offset))
      case Output(data) => Reached(down[1..], if at.Some? then Some(at.value + |data|) else None)
      case Closed(_) => Reached(down[1..], at)
  }

  lemma {:induction false} ContinuesGrows(down: seq<Message>, q: Sock, received: nat, out: seq<byte>, more: seq<byte>, at: Option<nat>)
    requires Continues(down, q, received, out, at)
    ensures Continues(down, q, received, out + more, at)
    decreases |down|
  {
    if down != [] {
      match down[0]
      case Session(_, _, _, offset, _, _) => ContinuesGrows(down[1..], q, received, out, more, Some(offset));
      case Output(data) =>
        assert (out + more)[at.value..at.value + |data|] == out[at.value..at.value + |data|];
        ContinuesGrows(down[1..], q, received, out, more, Some(at.value + |data|));
      case Closed(_) => ContinuesGrows(down[1..], q, received, out, more, at);
    }
  }

  lemma {:induction false} ContinuesSnoc(down: seq<Message>, m: Message, q: Sock, received: nat, out: seq<byte>, at: Option<nat>)
    requires Continues(down, q, received, out, at)
    requires Continues([m], q, received, out, Reached(down, at))
    ensures Continues(down + [m], q, received, out, at)
    ensures Reached(down + [m], at) == Reached([m], Reached(down, at))
    decreases |down|
  {
    if down == [] {
      assert down + [m] == [m];
    } else {
      assert (down + [m])[1..] == down[1..] + [m];
      match down[0]
      case Session(_, _, _, offset, _, _) => ContinuesSnoc(down[1..], m, q, received, out, Some(offset));
      case Output(data) => ContinuesSnoc(down[1..], m, q, received, out, Some(at.value + |data|));
      case Closed(_) => ContinuesSnoc(down[1..], m, q, received, out, at);
    }
  }

  // ---- The invariant ----

  predicate AttachedTo(w: World, x: Option<ShellId>, s: nat) {
    x.Some? && x.value in w.shells && w.shells[x.value].attachment == Some(s)
  }

  predicate Started(w: World, x: Option<ShellId>) {
    x.Some? && x.value in w.shells && w.shells[x.value].started
  }

  ghost predicate WorldOk(w: World) {
    && (forall s :: s in w.socks ==>
          var q := w.socks[s];
          && (q.shell.Some? ==> q.shell.value in w.shells)
          && (q.resumed ==> q.shell.Some? && q.request == q.shell && Started(w, q.shell))
          && (q.shell.Some? && !q.resumed ==> w.shells[q.shell.value].opener == s)
          && (q.shell.None? ==> !q.attached)
          && (q.announced ==> q.attached && Started(w, q.shell))
          && (AttachedTo(w, q.shell, s) && q.open && Started(w, q.shell) ==> q.announced))
    && (forall x :: x in w.shells ==>
          var h := w.shells[x];
          && (h.attachment.Some? ==> h.attachment.value in w.socks && w.socks[h.attachment.value].shell == Some(x)
                                     && w.socks[h.attachment.value].attached)
          && (if h.started then h.opener in w.socks && w.socks[h.opener].attached else h.output == []))
  }

  function At(c: Terminal, q: Sock): Option<nat> {
    if q.seen then Some(c.receivedBytes) else None
  }

  /** The terminal's current socket: what it asked for, and what is still on its way to the terminal. */
  ghost predicate SockOk(w: World, c: Terminal, s: nat)
    requires s in w.socks
  {
    var q := w.socks[s];
    var out := OutputOf(w, q.shell);
    && (!q.seen && q.request.Some? ==> c.shown == q.request && q.offset == OffsetParam(c.receivedBytes))
    && (q.seen ==> q.announced && c.shown == q.shell)
    && (q.shell.None? ==> q.down == [])
    && Continues(q.down, q, c.receivedBytes, out, At(c, q))
    && (q.announced <==> Reached(q.down, At(c, q)).Some?)
    && (q.open && q.announced && AttachedTo(w, q.shell, s) ==> Reached(q.down, At(c, q)) == Some(|out|))
  }

  ghost predicate TerminalOk(w: World, t: nat)
    requires t in w.terminals
  {
    var c := w.terminals[t];
    && Faithful(c.log, OutputOf(w, c.shown), c.receivedBytes)
    && (c.resumeId.Some? ==> c.shown == c.resumeId)
    && (c.socket.Some? ==> c.socket.value in w.socks && w.socks[c.socket.value].terminal == t
                           && SockOk(w, c, c.socket.value))
  }

  ghost predicate Inv(w: World) {
    WorldOk(w) && forall t :: t in w.terminals ==> TerminalOk(w, t)
  }

  /** No shell printed as much as 10^15 bytes. */
  predicate Small(w: World) {
    forall x :: x in w.shells ==> |w.shells[x].output| < OFFSET_LIMIT
  }

  /** A terminal is not affected by what happens to other sockets and other shells' output. */
  lemma Unaffected(w: World, v: World, t: nat)
    requires t in w.terminals && TerminalOk(w, t)
    requires t in v.terminals && v.terminals[t] == w.terminals[t]
    requires OutputOf(v, w.terminals[t].shown) == OutputOf(w, w.terminals[t].shown)
    requires var c := w.terminals[t]; c.socket.Some? ==>
               var s := c.socket.value; var q := w.socks[s];
               && s in v.socks && v.socks[s] == q.(open := v.socks[s].open, silent := v.socks[s].silent, attached := v.socks[s].attached)
               && (v.socks[s].open ==> q.open)
               && OutputOf(v, q.shell) == OutputOf(w, q.shell)
               && (AttachedTo(v, q.shell, s) ==> AttachedTo(w, q.shell, s) || !q.announced)
    ensures TerminalOk(v, t)
  {
    var c := w.terminals[t];
    if c.socket.Some? {
      var s := c.socket.value;
      SameContinues(w.socks[s].down, w.socks[s], v.socks[s], c.receivedBytes, OutputOf(w, w.socks[s].shell), At(c, w.socks[s]));
    }
  }

  lemma {:induction false} SameContinues(down: seq<Message>, q: Sock, r: Sock, received: nat, out: seq<byte>, at: Option<nat>)
    requires Continues(down, q, received, out, at)
    requires r.shell == q.shell && r.resumed == q.resumed && r.request == q.request
    ensures Continues(down, r, received, out, at)
    decreases |down|
  {
    if down != [] {
      match down[0]
      case Session(_, _, _, offset, _, _) => SameContinues(down[1..], q, r, received, out, Some(offset));
      case Output(data) => SameContinues(down[1..], q, r, received, out, Some(at.value + |data|));
      case Closed(_) => SameContinues(down[1..], q, r, received, out, at);
    }
  }

  /** Once the session message was handled, what the terminal has no longer matters for the rest. */
  lemma {:induction false} RestContinues(down: seq<Message>, q: Sock, r: Sock, received: nat, now: nat, out: seq<byte>, at: Option<nat>)
    requires Continues(down, q, received, out, at) && at.Some?
    requires r.shell == q.shell && r.resumed == q.resumed && r.request == q.request
    ensures Continues(down, r, now, out, at) && Reached(down, at).Some?
    decreases |down|
  {
    if down != [] {
      match down[0]
      case Output(data) => RestContinues(down[1..], q, r, received, now, out, Some(at.value + |data|));
      case Closed(_) => RestContinues(down[1..], q, r, received, now, out, at);
    }
  }

  lemma FaithfulWithin(log: seq<Item>, out: seq<byte>, p: nat)
    requires Faithful(log, out, p)
    ensures p <= |out|
  {
  }

  // ---- The terminal's side ----

  /** What delivering the next message to the terminal that listens does to it and to its socket. */
  lemma DeliverEffect(w: World, s: nat)
    requires s in w.socks && !w.socks[s].silent && w.socks[s].down != []
    requires var t := w.socks[s].terminal; t in w.terminals && w.terminals[t].socket == Some(s)
    ensures var q := w.socks[s]; var t := q.terminal; var v := Deliver(w, s); var m := q.down[0];
            && v.shells == w.shells && s in v.socks && t in v.terminals
            && v.socks[s] == q.(down := q.down[1..], seen := q.seen || m.Session?)
            && v.terminals[t] == OnMessage(w.terminals[t], m)
  {
  }

  lemma SessionFaithful(c: Terminal, m: Message, q: Sock, out: seq<byte>)
    requires m.Session? && FairSession(m, q, c.receivedBytes, out) && Faithful(c.log, out, c.receivedBytes)
      && |out| < OFFSET_LIMIT
    ensures Faithful(OnSession(c, m).log, out, m.offset) && OnSession(c, m).receivedBytes == m.offset
  {
    var d := OnSession(c, m);
    if m.resumed && m.offset != c.receivedBytes {
      assert d.log[..|d.log| - 1] == c.log;
    }
  }

  lemma SessionKeepsTerminal(w: World, s: nat)
    requires s in w.socks && !w.socks[s].silent && w.socks[s].down != [] && w.socks[s].down[0].Session? && Small(w)
    requires var t := w.socks[s].terminal; t in w.terminals && w.terminals[t].socket == Some(s) && TerminalOk(w, t)
    ensures TerminalOk(Deliver(w, s), w.socks[s].terminal)
  {
    hide Deliver, FairSession, Faithful;
    var q := w.socks[s];
    var t := q.terminal;
    var c := w.terminals[t];
    var m := q.down[0];
    var out := OutputOf(w, q.shell);
    DeliverEffect(w, s);
    var v := Deliver(w, s);
    SessionParts(m, q, c.receivedBytes, out);
    if m.resumed { assert out == OutputOf(w, c.shown); SessionFaithful(c, m, q, out); } else { FreshFaithful(out); }
    RestContinues(q.down[1..], q, v.socks[s], c.receivedBytes, m.offset, out, Some(m.offset));
  }

  lemma SessionParts(m: Message, q: Sock, received: nat, out: seq<byte>)
    requires m.Session? && FairSession(m, q, received, out)
    ensures q.shell == Some(m.shell) && m.offset <= |out| && (if m.resumed then q.request == q.shell else m.offset == 0)
  {
  }

  lemma FreshFaithful(out: seq<byte>)
    ensures Faithful([], out, 0)
  {
  }

  lemma OutputKeepsTerminal(w: World, s: nat)
    requires s in w.socks && !w.socks[s].silent && w.socks[s].down != [] && w.socks[s].down[0].Output?
    requires var t := w.socks[s].terminal; t in w.terminals && w.terminals[t].socket == Some(s) && TerminalOk(w, t)
    ensures TerminalOk(Deliver(w, s), w.socks[s].terminal)
  {
    hide Deliver;
    var q := w.socks[s];
    var c := w.terminals[q.terminal];
    DeliverEffect(w, s);
    var v := Deliver(w, s);
    var d := v.terminals[q.terminal];
    RestContinues(q.down[1..], q, v.socks[s], c.receivedBytes, d.receivedBytes, OutputOf(w, q.shell), Some(d.receivedBytes));
    assert d.log[..|d.log| - 1] == c.log;
  }

  lemma ClosedKeepsTerminal(w: World, s: nat)
    requires s in w.socks && !w.socks[s].silent && w.socks[s].down != [] && w.socks[s].down[0].Closed?
    requires var t := w.socks[s].terminal; t in w.terminals && w.terminals[t].socket == Some(s) && TerminalOk(w, t)
    ensures TerminalOk(Deliver(w, s), w.socks[s].terminal)
  {
    hide Deliver;
    var q := w.socks[s];
    var c := w.terminals[q.terminal];
    DeliverEffect(w, s);
    SameContinues(q.down[1..], q, Deliver(w, s).socks[s], c.receivedBytes, OutputOf(w, q.shell), At(c, q));
  }

  lemma DeliverWorld(w: World, s: nat)
    requires WorldOk(w) && s in w.socks
    ensures WorldOk(Deliver(w, s))
  {
    hide WorldOk, OnMessage;
    var q := w.socks[s];
    if !q.silent && q.down != [] {
      var u := w.(socks := w.socks[s := q.(down := q.down[1..], seen := q.seen || q.down[0].Session?)]);
      TakenWorld(w, s);
      SameWorld(u, Deliver(w, s));
    }
  }

  lemma TakenWorld(w: World, s: nat)
    requires WorldOk(w) && s in w.socks && w.socks[s].down != []
    ensures var q := w.socks[s];
            WorldOk(w.(socks := w.socks[s := q.(down := q.down[1..], seen := q.seen || q.down[0].Session?)]))
  {
  }

  lemma DeliverKeeps(w: World, s: nat)
    requires Inv(w) && Small(w) && s in w.socks
    ensures Inv(Deliver(w, s))
  {
    hide TerminalOk, Small, OnMessage, WorldOk;
    var q := w.socks[s];
    var v := Deliver(w, s);
    DeliverWorld(w, s);
    if !q.silent && q.down != [] {
      forall t | t in v.terminals ensures TerminalOk(v, t) {
        if t == q.terminal && w.terminals[t].socket == Some(s) {
          match q.down[0]
          case Session(_, _, _, _, _, _) => SessionKeepsTerminal(w, s);
          case Output(_) => OutputKeepsTerminal(w, s);
          case Closed(_) => ClosedKeepsTerminal(w, s);
        } else {
          NotListening(w, t, s);
          Unaffected(w, v, t);
        }
      }
    }
  }

  /** A terminal whose current socket is another one. */
  lemma NotListening(w: World, t: nat, s: nat)
    requires t in w.terminals && TerminalOk(w, t) && s in w.socks
    requires !(t == w.socks[s].terminal && w.terminals[t].socket == Some(s))
    ensures w.terminals[t].socket != Some(s)
    ensures w.terminals[t].socket.Some? ==> w.terminals[t].socket.value in w.socks
  {
  }

  lemma LoadsKeeps(w: World, t: nat, stored: Option<ShellId>)
    requires Inv(w)
    ensures Inv(Step(w, Loads(t, stored)))
  {
    hide WorldOk, TerminalOk;
    var v := Step(w, Loads(t, stored));
    SameWorld(w, v);
    forall k | k in v.terminals ensures TerminalOk(v, k) {
      if k == t && t !in w.terminals { NewTerminal(v, t, stored); } else { Untouched(w, v, k); }
    }
  }

  lemma SameWorld(w: World, v: World)
    requires WorldOk(w) && v.socks == w.socks && v.shells == w.shells
    ensures WorldOk(v)
  {
  }

  lemma NewTerminal(v: World, t: nat, stored: Option<ShellId>)
    requires t in v.terminals && v.terminals[t] == Terminal(stored, 0, None, stored, [])
    ensures TerminalOk(v, t)
  {
  }

  /** Nothing a terminal depends on changed. */
  lemma Untouched(w: World, v: World, t: nat)
    requires t in w.terminals && TerminalOk(w, t)
    requires t in v.terminals && v.terminals[t] == w.terminals[t] && v.shells == w.shells
    requires w.terminals[t].socket.Some? && w.terminals[t].socket.value in w.socks ==>
               w.terminals[t].socket.value in v.socks
                 && v.socks[w.terminals[t].socket.value] == w.socks[w.terminals[t].socket.value]
    ensures TerminalOk(v, t)
  {
    hide Faithful, Continues;
    Unaffected(w, v, t);
  }

  lemma LeavesKeeps(w: World, t: nat, c: Terminal)
    requires Inv(w) && t in w.terminals
    requires c == w.terminals[t].(socket := None) || c == w.terminals[t].(resumeId := None)
    ensures Inv(w.(terminals := w.terminals[t := c]))
  {
    hide WorldOk;
    var v := w.(terminals := w.terminals[t := c]);
    SameWorld(w, v);
    assert TerminalOk(w, t);
    assert TerminalOk(v, t) by { hide Faithful, Continues; }
    hide TerminalOk;
    forall k | k in v.terminals ensures TerminalOk(v, k) {
      if k != t { Untouched(w, v, k); }
    }
  }

  lemma DialWorld(w: World, t: nat, s: nat, keepAlive: bool)
    requires WorldOk(w) && t in w.terminals
    ensures WorldOk(Dial(w, t, s, keepAlive))
  {
  }

  lemma DialKeeps(w: World, t: nat, s: nat, keepAlive: bool)
    requires Inv(w) && t in w.terminals
    ensures Inv(Dial(w, t, s, keepAlive))
  {
    hide WorldOk;
    var v := Dial(w, t, s, keepAlive);
    DialWorld(w, t, s, keepAlive);
    if s !in w.socks {
      assert TerminalOk(w, t);
      assert TerminalOk(v, t);
      hide TerminalOk;
      forall k | k in v.terminals ensures TerminalOk(v, k) {
        if k != t { Untouched(w, v, k); }
      }
    }
  }

  // ---- The gateway's side ----

  lemma TakeWorld(w: World, s: nat, x: ShellId)
    requires WorldOk(w) && s in w.socks && x in w.shells && w.socks[s].shell.None? && w.socks[s].request == Some(x)
      && w.shells[x].started
    requires w.shells[x].attachment.Some? ==> w.shells[x].attachment.value in w.socks
                                              && !w.socks[w.shells[x].attachment.value].open
    ensures WorldOk(TakeShell(w, s, x))
  {
  }

  lemma CreateWorld(w: World, s: nat, x: ShellId)
    requires WorldOk(w) && s in w.socks && x !in w.shells && w.socks[s].shell.None?
    ensures WorldOk(CreateShell(w, s, x))
  {
  }

  lemma AcceptWorld(w: World, s: nat, claim: bool, newId: ShellId)
    requires WorldOk(w) && s in w.socks
    ensures WorldOk(Accept(w, s, claim, newId))
  {
    hide TakeShell, CreateShell;
    var q := w.socks[s];
    if q.shell.None? {
      if claim && CanClaim(w, q) {
        var x := q.request.value;
        if w.shells[x].attachment.Some? {
          var a := w.shells[x].attachment.value;
          QuietSockWorld(w, a, w.socks[a].(open := false));
        }
        TakeWorld(CloseAttached(w, x), s, x);
      } else if newId !in w.shells {
        CreateWorld(w, s, newId);
      }
    }
  }

  lemma AcceptKeeps(w: World, s: nat, claim: bool, newId: ShellId)
    requires Inv(w) && s in w.socks
    ensures Inv(Accept(w, s, claim, newId))
  {
    hide WorldOk, TerminalOk;
    var v := Accept(w, s, claim, newId);
    AcceptWorld(w, s, claim, newId);
    if w.socks[s].shell.None? {
      forall t | t in v.terminals ensures TerminalOk(v, t) {
        if w.terminals[t].socket == Some(s) {
          AcceptCurrent(w, s, claim, newId, t);
        } else {
          CurrentKnown(w, t);
          Unaffected(w, v, t);
        }
      }
    }
  }

  lemma CurrentKnown(w: World, t: nat)
    requires t in w.terminals && TerminalOk(w, t)
    ensures w.terminals[t].socket.Some? ==> w.terminals[t].socket.value in w.socks
  {
  }

  lemma AcceptCurrent(w: World, s: nat, claim: bool, newId: ShellId, t: nat)
    requires WorldOk(w) && s in w.socks && w.socks[s].shell.None? && t in w.terminals
      && w.terminals[t].socket == Some(s) && TerminalOk(w, t)
    ensures t in Accept(w, s, claim, newId).terminals && TerminalOk(Accept(w, s, claim, newId), t)
  {
    hide Faithful;
    var v := Accept(w, s, claim, newId);
    assert OutputOf(v, w.terminals[t].shown) == OutputOf(w, w.terminals[t].shown);
  }

  lemma UnattachWorld(w: World, x: ShellId, mark: bool)
    requires WorldOk(w) && x in w.shells
    ensures WorldOk(Unattach(w, x, mark))
  {
  }

  lemma UnattachKeeps(w: World, x: ShellId, mark: bool)
    requires Inv(w) && x in w.shells
    ensures Inv(Unattach(w, x, mark))
  {
    hide WorldOk, TerminalOk;
    UnattachWorld(w, x, mark);
    forall t | t in w.terminals ensures TerminalOk(Unattach(w, x, mark), t) {
      UnattachTerminal(w, x, mark, t);
    }
  }

  lemma UnattachTerminal(w: World, x: ShellId, mark: bool, t: nat)
    requires x in w.shells && t in w.terminals && TerminalOk(w, t)
    ensures t in Unattach(w, x, mark).terminals && TerminalOk(Unattach(w, x, mark), t)
  {
    hide TerminalOk;
    CurrentKnown(w, t);
    Unaffected(w, Unattach(w, x, mark), t);
  }

  lemma QuietSockWorld(w: World, s: nat, q: Sock)
    requires WorldOk(w) && s in w.socks
    requires q == w.socks[s].(open := q.open, silent := q.silent) && (q.open ==> w.socks[s].open)
    ensures WorldOk(w.(socks := w.socks[s := q]))
  {
  }

  lemma QuietSockKeeps(w: World, s: nat, q: Sock)
    requires Inv(w) && s in w.socks
    requires q == w.socks[s].(open := q.open, silent := q.silent) && (q.open ==> w.socks[s].open)
    ensures Inv(w.(socks := w.socks[s := q]))
  {
    hide WorldOk, TerminalOk;
    var v := w.(socks := w.socks[s := q]);
    QuietSockWorld(w, s, q);
    forall t | t in w.terminals ensures TerminalOk(v, t) {
      CurrentKnown(w, t);
      Unaffected(w, v, t);
    }
  }

  lemma CloseKeeps(w: World, s: nat)
    requires Inv(w)
    ensures Inv(CloseSock(w, s))
  {
    if s in w.socks { QuietSockKeeps(w, s, w.socks[s].(open := false)); }
  }

  lemma AttachWorld(w: World, s: nat, x: ShellId, ms: seq<Message>, keepOpen: bool)
    requires WorldOk(w) && s in w.socks && x in w.shells && w.socks[s].shell == Some(x) && !w.socks[s].attached
    ensures WorldOk(AttachTo(w, s, x, ms, keepOpen))
  {
  }

  /** The messages a resumed connection is sent when it attaches continue what its terminal has. */
  lemma ReplayContinues(q: Sock, h: Shell, x: ShellId, received: nat)
    requires q.shell == Some(x) == q.request && q.resumed && q.offset == Some(received) && received <= |h.output|
    ensures var r := ReplayOf(h.output, q.offset, h.detachedAt);
            var session := Session(x, h.keepAlive, true, r.from, r.truncated, |h.output|);
            && Continues([session], q, received, h.output, None) && Reached([session], None) == Some(r.from)
            && Continues([Output(r.data)], q, received, h.output, Some(r.from))
               && Reached([Output(r.data)], Some(r.from)) == Some(|h.output|)
            && r.from <= |h.output| && r.data == h.output[r.from..]
  {
    ReplayIsExact(h.output, q.offset, h.detachedAt);
    var r := ReplayOf(h.output, q.offset, h.detachedAt);
    var session := Session(x, h.keepAlive, true, r.from, r.truncated, |h.output|);
    assert [session][1..] == [] && [Output(r.data)][1..] == [];
  }

  lemma ReplayPosted(q: Sock, h: Shell, x: ShellId, received: nat)
    requires q.shell == Some(x) == q.request && q.resumed && q.offset == Some(received) && received <= |h.output|
    requires Continues(q.down, q, received, h.output, None) && Reached(q.down, None) == None
    ensures var r := ReplayOf(h.output, q.offset, h.detachedAt);
            var session := Session(x, h.keepAlive, true, r.from, r.truncated, |h.output|);
            && Continues(q.down + [session], q, received, h.output, None)
               && Reached(q.down + [session], None) == Some(r.from)
            && Continues(q.down + [session, Output(r.data)], q, received, h.output, None)
            && Reached(q.down + [session, Output(r.data)], None) == Some(|h.output|)
            && (r.data == [] ==> r.from == |h.output|)
  {
    hide ReplayOf;
    var r := ReplayOf(h.output, q.offset, h.detachedAt);
    var session := Session(x, h.keepAlive, true, r.from, r.truncated, |h.output|);
    ReplayContinues(q, h, x, received);
    ContinuesSnoc(q.down, session, q, received, h.output, None);
    ContinuesSnoc(q.down + [session], Output(r.data), q, received, h.output, None);
    assert q.down + [session, Output(r.data)] == (q.down + [session]) + [Output(r.data)];
  }

  /** TerminalOk for a terminal whose socket was just announced, and sent `down` in all. */
  lemma AnnouncedTerminal(w: World, v: World, t: nat, s: nat)
    requires t in w.terminals && TerminalOk(w, t) && w.terminals[t].socket == Some(s) && s in w.socks
    requires v.terminals == w.terminals && s in v.socks
      && OutputOf(v, w.terminals[t].shown) == OutputOf(w, w.terminals[t].shown)
    requires var c := w.terminals[t]; var q := w.socks[s]; var u := v.socks[s]; var out := OutputOf(v, q.shell);
             && u == q.(attached := true, announced := true, open := u.open, down := u.down) && !q.seen && q.shell.Some?
             && Continues(u.down, q, c.receivedBytes, out, None) && Reached(u.down, None).Some?
             && (u.open && AttachedTo(v, q.shell, s) ==> Reached(u.down, None) == Some(|out|))
    ensures TerminalOk(v, t)
  {
    hide Faithful, Continues, Reached;
    var c := w.terminals[t];
    SameContinues(v.socks[s].down, w.socks[s], v.socks[s], c.receivedBytes, OutputOf(v, w.socks[s].shell), None);
  }

  lemma AttachCurrent(w: World, s: nat, fits: bool, t: nat)
    requires WorldOk(w) && Small(w) && s in w.socks && t in w.terminals && w.terminals[t].socket == Some(s)
      && TerminalOk(w, t)
    requires var q := w.socks[s]; !q.attached && q.shell.Some? && q.shell.value in w.shells
                                  && !w.shells[q.shell.value].ended && q.resumed && q.open
    ensures t in Attach(w, s, fits).terminals && TerminalOk(Attach(w, s, fits), t)
  {
    AttachedLater(w, s);
    hide Faithful, ReplayOf, WorldOk, Continues, Reached;
    var q := w.socks[s];
    var x := q.shell.value;
    var h := w.shells[x];
    var c := w.terminals[t];
    FaithfulWithin(c.log, OutputOf(w, c.shown), c.receivedBytes);
    ReplayPosted(q, h, x, c.receivedBytes);
    AnnouncedTerminal(w, Attach(w, s, fits), t, s);
  }

  /** A resumed connection that has not attached was not announced, and its shell has a stream. */
  lemma AttachedLater(w: World, s: nat)
    requires WorldOk(w) && s in w.socks && !w.socks[s].attached && w.socks[s].shell.Some?
    ensures !w.socks[s].announced && (w.socks[s].resumed ==> w.socks[s].request == w.socks[s].shell)
  {
  }

  lemma AttachKeepsWorld(w: World, s: nat, fits: bool)
    requires WorldOk(w) && s in w.socks
    ensures WorldOk(Attach(w, s, fits))
  {
    hide WorldOk, AttachTo, ReplayOf, Unattach;
    var q := w.socks[s];
    if !q.attached && q.shell.Some? && q.shell.value in w.shells {
      var x := q.shell.value;
      var r := ReplayOf(w.shells[x].output, q.offset, w.shells[x].detachedAt);
      var session := Session(x, w.shells[x].keepAlive, true, r.from, r.truncated, |w.shells[x].output|);
      AttachWorld(w, s, x, [], true);
      AttachWorld(w, s, x, [session], true);
      AttachWorld(w, s, x, [session, Output(r.data)], true);
      AttachWorld(w, s, x, [session], false);
      AttachKnows(w, s, x, [session], false);
      UnattachWorld(AttachTo(w, s, x, [session], false), x, true);
    }
  }

  lemma AttachKnows(w: World, s: nat, x: ShellId, ms: seq<Message>, keepOpen: bool)
    requires s in w.socks && x in w.shells
    ensures x in AttachTo(w, s, x, ms, keepOpen).shells
  {
  }

  /** Terminals that do not listen to the socket, and a socket that is closed or opened a new shell, see no difference. */
  lemma AttachElsewhere(w: World, s: nat, fits: bool, t: nat)
    requires WorldOk(w) && s in w.socks && t in w.terminals && TerminalOk(w, t)
    requires var q := w.socks[s]; !q.attached && q.shell.Some? && q.shell.value in w.shells
                                  && !w.shells[q.shell.value].ended
    requires !(w.terminals[t].socket == Some(s) && w.socks[s].resumed && w.socks[s].open)
    ensures t in Attach(w, s, fits).terminals && TerminalOk(Attach(w, s, fits), t)
  {
    hide TerminalOk, ReplayOf, WorldOk, AttachTo, Unattach;
    var q := w.socks[s];
    var x := q.shell.value;
    if !q.resumed {
      AttachToElsewhere(w, s, x, [], true, t);
    } else {
      var h := w.shells[x];
      var r := ReplayOf(h.output, q.offset, h.detachedAt);
      var session := Session(x, h.keepAlive, true, r.from, r.truncated, |h.output|);
      AttachToElsewhere(w, s, x, [session], true, t);
      AttachToElsewhere(w, s, x, [session, Output(r.data)], true, t);
      AttachToElsewhere(w, s, x, [session], false, t);
      UnattachTerminal(AttachTo(w, s, x, [session], false), x, true, t);
    }
  }

  lemma AttachToElsewhere(w: World, s: nat, x: ShellId, ms: seq<Message>, keepOpen: bool, t: nat)
    requires WorldOk(w) && s in w.socks && w.socks[s].shell == Some(x) && !w.socks[s].attached && x in w.shells
    requires t in w.terminals && TerminalOk(w, t)
    requires !(w.terminals[t].socket == Some(s) && w.socks[s].resumed && w.socks[s].open)
    requires !w.socks[s].resumed ==> ms == [] && keepOpen
    ensures var v := AttachTo(w, s, x, ms, keepOpen); x in v.shells && t in v.terminals && TerminalOk(v, t)
  {
    AttachedLater(w, s);
    hide TerminalOk, WorldOk;
    CurrentKnown(w, t);
    assert w.socks[s].down + [] == w.socks[s].down;
    Unaffected(w, AttachTo(w, s, x, ms, keepOpen), t);
  }

  lemma AttachLists(w: World, s: nat, fits: bool)
    requires s in w.socks
    ensures Attach(w, s, fits).terminals == w.terminals
  {
    hide ReplayOf;
  }

  lemma AttachKeeps(w: World, s: nat, fits: bool)
    requires Inv(w) && Small(w) && s in w.socks
    ensures Inv(Attach(w, s, fits))
  {
    var v := Attach(w, s, fits);
    AttachKeepsWorld(w, s, fits);
    AttachLists(w, s, fits);
    var q := w.socks[s];
    if !q.attached && q.shell.Some? && q.shell.value in w.shells && !w.shells[q.shell.value].ended {
      hide TerminalOk, Attach, WorldOk, Small;
      forall t | t in v.terminals ensures TerminalOk(v, t) {
        if w.terminals[t].socket == Some(s) && q.resumed
          && q.open { AttachCurrent(w, s, fits, t); } else { AttachElsewhere(w, s, fits, t); }
      }
    }
  }

  // ---- A new shell's stream, its output and its end ----

  lemma OpenShellWorld(w: World, x: ShellId)
    requires WorldOk(w) && x in w.shells
    ensures WorldOk(OpenShell(w, x))
  {
    var h := w.shells[x];
    if !h.started && !h.ended && h.opener in w.socks && w.socks[h.opener].attached {
      var q := w.socks[h.opener];
      if h.attachment == Some(h.opener) && q.open {
        AnnouncedWorld(w, x, q.down + [Session(x, h.keepAlive, false, |h.output|, false, |h.output|)]);
      } else {
        StartedWorld(w, x);
      }
    }
  }

  lemma StartedWorld(w: World, x: ShellId)
    requires WorldOk(w) && x in w.shells && !w.shells[x].started && w.shells[x].opener in w.socks
      && w.socks[w.shells[x].opener].attached
    requires !(w.shells[x].attachment == Some(w.shells[x].opener) && w.socks[w.shells[x].opener].open)
    ensures WorldOk(w.(shells := w.shells[x := w.shells[x].(started := true)]))
  {
  }

  lemma AnnouncedWorld(w: World, x: ShellId, down: seq<Message>)
    requires WorldOk(w) && x in w.shells && !w.shells[x].started && w.shells[x].attachment == Some(w.shells[x].opener)
    requires w.shells[x].opener in w.socks && w.socks[w.shells[x].opener].attached
    ensures var s := w.shells[x].opener;
            WorldOk(w.(shells := w.shells[x := w.shells[x].(started := true)], socks := w.socks[s := w.socks[s].(announced := true, down := down)]))
  {
  }

  /** Before its stream exists a shell has printed nothing and nobody was told of it. */
  lemma Unstarted(w: World, x: ShellId, s: nat)
    requires WorldOk(w) && x in w.shells && !w.shells[x].started && w.shells[x].attachment == Some(s)
    ensures w.shells[x].output == [] && s in w.socks && w.socks[s].shell == Some(x) && !w.socks[s].resumed
      && !w.socks[s].announced && w.socks[s].attached
  {
  }

  lemma OpenShellKeeps(w: World, x: ShellId)
    requires Inv(w) && x in w.shells
    ensures Inv(OpenShell(w, x))
  {
    OpenShellWorld(w, x);
    hide TerminalOk, WorldOk, OpenShell;
    forall t | t in OpenShell(w, x).terminals ensures TerminalOk(OpenShell(w, x), t) {
      OpenShellTerminal(w, x, t);
    }
  }

  lemma OpenShellTerminal(w: World, x: ShellId, t: nat)
    requires WorldOk(w) && x in w.shells
    ensures OpenShell(w, x).terminals == w.terminals
    ensures t in w.terminals && TerminalOk(w, t) ==> TerminalOk(OpenShell(w, x), t)
  {
    hide TerminalOk, WorldOk, Faithful, Continues, Reached;
    var v := OpenShell(w, x);
    var h := w.shells[x];
    var s := h.opener;
    if t in w.terminals && TerminalOk(w, t) {
      if w.terminals[t].socket == Some(s) && h.attachment == Some(s) && !h.started && !h.ended && s in w.socks
        && w.socks[s].attached && w.socks[s].open {
        Unstarted(w, x, s);
        FreshPosted(w, t, s, x);
        AnnouncedTerminal(w, v, t, s);
      } else {
        OpenShellElsewhere(w, x, t);
      }
    }
  }

  lemma OpenShellElsewhere(w: World, x: ShellId, t: nat)
    requires x in w.shells && t in w.terminals && TerminalOk(w, t)
    requires var h := w.shells[x]; var s := h.opener;
             !(w.terminals[t].socket == Some(s) && h.attachment == Some(s) && !h.started && !h.ended && s in w.socks
               && w.socks[s].attached && w.socks[s].open)
    ensures TerminalOk(OpenShell(w, x), t)
  {
    OpenShellEffect(w, x);
    hide TerminalOk, OpenShell, OutputOf, AttachedTo;
    CurrentKnown(w, t);
    Unaffected(w, OpenShell(w, x), t);
  }

  /** Only the opener's socket changes, and only if its stream was awaited there. */
  lemma OpenShellEffect(w: World, x: ShellId)
    requires x in w.shells
    ensures var v := OpenShell(w, x); var h := w.shells[x];
            && v.terminals == w.terminals
            && (forall y :: OutputOf(v, y) == OutputOf(w, y))
            && (forall y, s :: AttachedTo(v, y, s) == AttachedTo(w, y, s))
            && forall s :: s in w.socks ==>
                 && s in v.socks
                 && (v.socks[s] == w.socks[s]
                     || (s == h.opener && h.attachment == Some(s) && !h.started && !h.ended && w.socks[s].attached && w.socks[s].open))
  {
  }

  lemma FreshPosted(w: World, t: nat, s: nat, x: ShellId)
    requires t in w.terminals && w.terminals[t].socket == Some(s) && TerminalOk(w, t)
    requires s in w.socks && w.socks[s].shell == Some(x) && !w.socks[s].resumed && !w.socks[s].announced
      && x in w.shells && w.shells[x].output == []
    ensures var q := w.socks[s]; var m := Session(x, w.shells[x].keepAlive, false, 0, false, 0);
            && !q.seen && Continues(q.down + [m], q, w.terminals[t].receivedBytes, [], None)
               && Reached(q.down + [m], None) == Some(0)
  {
    hide Faithful;
    var q := w.socks[s];
    var m := Session(x, w.shells[x].keepAlive, false, 0, false, 0);
    assert [m][1..] == [];
    ContinuesSnoc(q.down, m, q, w.terminals[t].receivedBytes, [], None);
  }

  lemma OutputWorld(w: World, x: ShellId, output: seq<byte>)
    requires WorldOk(w) && x in w.shells && w.shells[x].started
    ensures WorldOk(w.(shells := w.shells[x := w.shells[x].(output := output)]))
  {
  }

  lemma PostWorld(w: World, s: nat, m: Message)
    requires WorldOk(w) && s in w.socks
    ensures WorldOk(Post(w, s, m))
  {
  }

  lemma PrintWorld(w: World, x: ShellId, data: seq<byte>, fits: bool)
    requires WorldOk(w) && x in w.shells
    ensures WorldOk(Print(w, x, data, fits))
  {
    hide WorldOk, Post, Unattach;
    var h := w.shells[x];
    if h.started && !h.ended {
      OutputWorld(w, x, h.output + data);
      var v := w.(shells := w.shells[x := h.(output := h.output + data)]);
      if h.attachment.Some? && h.attachment.value in w.socks {
        var s := h.attachment.value;
        PostWorld(v, s, Output(data));
        QuietSockWorld(v, s, v.socks[s].(open := false));
        UnattachWorld(CloseSock(v, s), x, true);
      }
    }
  }

  /** A terminal that is not sent the new output. */
  lemma OutputGrows(w: World, v: World, t: nat, x: ShellId, data: seq<byte>)
    requires t in w.terminals && TerminalOk(w, t) && x in w.shells && x in v.shells && v.terminals == w.terminals
    requires forall y: Option<ShellId> :: OutputOf(v, y) == if y == Some(x) then OutputOf(w, y) + data else OutputOf(w, y)
    requires var c := w.terminals[t]; c.socket.Some? ==>
               var s := c.socket.value; var q := w.socks[s];
               && s in v.socks && v.socks[s] == q.(open := v.socks[s].open) && (v.socks[s].open ==> q.open)
               && (AttachedTo(v, q.shell, s) ==> AttachedTo(w, q.shell, s))
               && (q.shell == Some(x) && AttachedTo(v, q.shell, s) ==> !v.socks[s].open)
    ensures TerminalOk(v, t)
  {
    var c := w.terminals[t];
    if c.shown == Some(x) { FaithfulGrows(c.log, OutputOf(w, c.shown), data, c.receivedBytes); }
    if c.socket.Some? {
      var q := w.socks[c.socket.value];
      if q.shell == Some(x) { ContinuesGrows(q.down, q, c.receivedBytes, OutputOf(w, q.shell), data, At(c, q)); }
      SameContinues(q.down, q, v.socks[c.socket.value], c.receivedBytes, OutputOf(v, q.shell), At(c, q));
    }
  }

  lemma PrintCurrent(w: World, x: ShellId, data: seq<byte>, t: nat)
    requires WorldOk(w) && x in w.shells && t in w.terminals && TerminalOk(w, t)
    requires var h := w.shells[x]; h.started && !h.ended && h.attachment.Some?
                                   && w.terminals[t].socket == h.attachment && w.socks[h.attachment.value].open
    ensures t in Print(w, x, data, true).terminals && TerminalOk(Print(w, x, data, true), t)
  {
    var s := w.shells[x].attachment.value;
    var c := w.terminals[t];
    var q := w.socks[s];
    var out := w.shells[x].output;
    var v := Print(w, x, data, true);
    assert q.announced;
    hide WorldOk;
    PrintPosted(q, c.receivedBytes, out, data, At(c, q));
    if c.shown == Some(x) { FaithfulGrows(c.log, out, data, c.receivedBytes); }
    SameContinues(q.down + [Output(data)], q, v.socks[s], c.receivedBytes, out + data, At(c, q));
  }

  lemma PrintPosted(q: Sock, received: nat, out: seq<byte>, data: seq<byte>, at: Option<nat>)
    requires Continues(q.down, q, received, out, at) && Reached(q.down, at) == Some(|out|)
    ensures Continues(q.down + [Output(data)], q, received, out + data, at)
    ensures Reached(q.down + [Output(data)], at) == Some(|out + data|)
  {
    ContinuesGrows(q.down, q, received, out, data, at);
    assert [Output(data)][1..] == [];
    assert (out + data)[|out|..|out| + |data|] == data;
    ContinuesSnoc(q.down, Output(data), q, received, out + data, at);
  }

  lemma PrintKeeps(w: World, x: ShellId, data: seq<byte>, fits: bool)
    requires Inv(w) && x in w.shells
    ensures Inv(Print(w, x, data, fits))
  {
    hide TerminalOk, WorldOk;
    var v := Print(w, x, data, fits);
    PrintWorld(w, x, data, fits);
    var h := w.shells[x];
    if h.started && !h.ended {
      AttachmentKnown(w, x);
      forall t | t in v.terminals ensures TerminalOk(v, t) {
        CurrentKnown(w, t);
        if fits && h.attachment.Some? && w.terminals[t].socket == h.attachment && w.socks[h.attachment.value].open {
          PrintCurrent(w, x, data, t);
        } else {
          OutputGrows(w, v, t, x, data);
        }
      }
    }
  }

  lemma AttachmentKnown(w: World, x: ShellId)
    requires WorldOk(w) && x in w.shells
    ensures w.shells[x].attachment.Some? ==> w.shells[x].attachment.value in w.socks
                                             && w.socks[w.shells[x].attachment.value].shell == Some(x)
  {
  }

  lemma PostClosedKeeps(w: World, s: nat, forget: bool)
    requires Inv(w) && (s in w.socks ==> w.socks[s].shell.Some?)
    ensures Inv(CloseSock(Post(w, s, Closed(forget)), s))
  {
    hide TerminalOk, WorldOk;
    if s in w.socks && w.socks[s].open {
      var v := CloseSock(Post(w, s, Closed(forget)), s);
      PostClosedWorld(w, s, forget);
      forall t | t in v.terminals ensures TerminalOk(v, t) {
        CurrentKnown(w, t);
        if w.terminals[t].socket == Some(s) { PostClosedCurrent(w, s, forget, t); } else { Unaffected(w, v, t); }
      }
    } else {
      CloseKeeps(w, s);
    }
  }

  lemma PostClosedWorld(w: World, s: nat, forget: bool)
    requires WorldOk(w) && s in w.socks
    ensures WorldOk(CloseSock(Post(w, s, Closed(forget)), s))
  {
    hide WorldOk;
    PostWorld(w, s, Closed(forget));
    var v := Post(w, s, Closed(forget));
    QuietSockWorld(v, s, v.socks[s].(open := false));
  }

  lemma PostClosedCurrent(w: World, s: nat, forget: bool, t: nat)
    requires s in w.socks && w.socks[s].open && w.socks[s].shell.Some? && t in w.terminals
      && w.terminals[t].socket == Some(s) && TerminalOk(w, t)
    ensures TerminalOk(CloseSock(Post(w, s, Closed(forget)), s), t)
  {
    hide Faithful;
    var q := w.socks[s];
    var c := w.terminals[t];
    var out := OutputOf(w, q.shell);
    var m := Closed(forget);
    assert [m][1..] == [];
    ContinuesSnoc(q.down, m, q, c.receivedBytes, out, At(c, q));
    var v := CloseSock(Post(w, s, m), s);
    SameContinues(q.down + [m], q, v.socks[s], c.receivedBytes, out, At(c, q));
  }

  lemma EndKeeps(w: World, x: ShellId, forget: bool)
    requires Inv(w) && x in w.shells
    ensures Inv(EndShell(w, x, forget))
  {
    hide TerminalOk, WorldOk;
    var h := w.shells[x];
    if !h.ended {
      var v := if h.attachment.Some? then CloseSock(Post(w, h.attachment.value, Closed(forget)), h.attachment.value) else w;
      if h.attachment.Some? {
        AttachmentKnown(w, x);
        PostClosedKeeps(w, h.attachment.value, forget);
      }
      EndMark(v, x);
      var u := EndShell(w, x, forget);
      forall t | t in u.terminals ensures TerminalOk(u, t) {
        CurrentKnown(v, t);
        Unaffected(v, u, t);
      }
    }
  }

  lemma EndMark(w: World, x: ShellId)
    requires WorldOk(w) && x in w.shells
    ensures WorldOk(w.(shells := w.shells[x := w.shells[x].(ended := true, attachment := None)]))
  {
  }

  // ---- Every step, every run ----

  lemma StepKeeps(w: World, e: Event)
    requires Inv(w) && Small(w)
    ensures Inv(Step(w, e))
  {
    hide Inv, Small, Dial, Accept, Attach, OpenShell, Print, Unattach, EndShell, CloseSock, Deliver;
    match e {
      case Loads(t, stored) => LoadsKeeps(w, t, stored);
      case Dials(t, s, keepAlive) => if t in w.terminals { DialKeeps(w, t, s, keepAlive); }
      case HangsUp(t) => if t in w.terminals { LeavesKeeps(w, t, w.terminals[t].(socket := None)); }
      case Forgets(t) => if t in w.terminals { LeavesKeeps(w, t, w.terminals[t].(resumeId := None)); }
      case Accepts(s, claim, newId) => if s in w.socks { AcceptKeeps(w, s, claim, newId); }
      case Attaches(s, fits) => if s in w.socks { AttachKeeps(w, s, fits); }
      case OpensShell(x) => if x in w.shells { OpenShellKeeps(w, x); }
      case Prints(x, data, fits) => if x in w.shells { PrintKeeps(w, x, data, fits); }
      case Detaches(x, mark) => if x in w.shells { UnattachKeeps(w, x, mark); }
      case EndsShell(x, forget) => if x in w.shells { EndKeeps(w, x, forget); }
      case ClosesSocket(s) => CloseKeeps(w, s);
      case GoesSilent(s) => if s in w.socks { QuietSockKeeps(w, s, w.socks[s].(silent := true)); }
      case Delivers(s) => if s in w.socks { DeliverKeeps(w, s); }
    }
  }

  /** Shells stay and their output only grows. */
  ghost predicate Extends(w: World, v: World) {
    forall x :: x in w.shells ==> x in v.shells && w.shells[x].output <= v.shells[x].output
  }

  lemma AcceptExtends(w: World, s: nat, claim: bool, newId: ShellId)
    requires s in w.socks
    ensures Extends(w, Accept(w, s, claim, newId))
  {
  }

  lemma AttachExtends(w: World, s: nat, fits: bool)
    requires s in w.socks
    ensures Extends(w, Attach(w, s, fits))
  {
    hide ReplayOf;
  }

  lemma PrintExtends(w: World, x: ShellId, data: seq<byte>, fits: bool)
    requires x in w.shells
    ensures Extends(w, Print(w, x, data, fits))
  {
  }

  lemma EndExtends(w: World, x: ShellId, forget: bool)
    requires x in w.shells
    ensures Extends(w, EndShell(w, x, forget))
  {
  }

  lemma OpenExtends(w: World, x: ShellId)
    requires x in w.shells
    ensures Extends(w, OpenShell(w, x))
  {
  }

  lemma DeliverExtends(w: World, s: nat)
    requires s in w.socks
    ensures Extends(w, Deliver(w, s))
  {
    hide OnMessage;
  }

  lemma StepExtends(w: World, e: Event)
    ensures Extends(w, Step(w, e))
  {
    hide Accept, Attach, Print, EndShell, OpenShell, Deliver;
    match e {
      case Accepts(s, claim, newId) => if s in w.socks { AcceptExtends(w, s, claim, newId); }
      case Attaches(s, fits) => if s in w.socks { AttachExtends(w, s, fits); }
      case Prints(x, data, fits) => if x in w.shells { PrintExtends(w, x, data, fits); }
      case EndsShell(x, forget) => if x in w.shells { EndExtends(w, x, forget); }
      case OpensShell(x) => if x in w.shells { OpenExtends(w, x); }
      case Delivers(s) => if s in w.socks { DeliverExtends(w, s); }
      case _ =>
    }
  }

  lemma {:induction false} RunExtends(w: World, es: seq<Event>)
    ensures Extends(w, Run(w, es))
    decreases |es|
  {
    hide Step;
    if es != [] {
      StepExtends(w, es[0]);
      RunExtends(Step(w, es[0]), es[1..]);
    }
  }

  lemma {:induction false} RunKeeps(w: World, es: seq<Event>)
    requires Inv(w) && Small(Run(w, es))
    ensures Inv(Run(w, es))
    decreases |es|
  {
    hide Inv, Step;
    if es != [] {
      RunExtends(w, es);
      StepKeeps(w, es[0]);
      RunKeeps(Step(w, es[0]), es[1..]);
    }
  }

  lemma {:induction false} FaithfulWithoutGaps(log: seq<Item>, out: seq<byte>, p: nat)
    requires Faithful(log, out, p) && forall i :: 0 <= i < |log| ==> log[i].Data?
    ensures p <= |out| && Written(log) == out[..p]
  {
    if log != [] {
      var data := log[|log| - 1].data;
      FaithfulWithoutGaps(log[..|log| - 1], out, p - |data|);
      assert out[..p] == out[..p - |data|] + out[p - |data|..p];
    }
  }

  /** The bytes the terminal wrote. */
  function Written(log: seq<Item>): seq<byte> {
    if log == [] then []
    else Written(log[..|log| - 1]) + if log[|log| - 1].Data? then log[|log| - 1].data else []
  }

  /**
   * In every run in which no shell prints 10^15 bytes: what a terminal did for the shell it shows is
   * exactly that shell's output up to `receivedBytes`, in order and without a repeat, except for gaps
   * that were announced and cover only output the history had dropped.
   */
  lemma ExactlyOnce(es: seq<Event>, t: nat)
    requires Small(Run(NOTHING, es))
    ensures var w := Run(NOTHING, es); t in w.terminals ==>
              var c := w.terminals[t];
              && Faithful(c.log, OutputOf(w, c.shown), c.receivedBytes)
              && ((forall i :: 0 <= i < |c.log| ==> c.log[i].Data?)
                 ==> Written(c.log) == OutputOf(w, c.shown)[..c.receivedBytes])
  {
    assert Inv(NOTHING);
    RunKeeps(NOTHING, es);
    hide Run, WorldOk;
    var w := Run(NOTHING, es);
    if t in w.terminals {
      var c := w.terminals[t];
      assert TerminalOk(w, t);
      if forall i :: 0 <= i < |c.log| ==> c.log[i].Data? {
        FaithfulWithoutGaps(c.log, OutputOf(w, c.shown), c.receivedBytes);
      }
    }
  }

  /**
   * Nothing is held back either: a terminal whose socket is open, attached and announced, with nothing
   * on its way, has its shell's whole output.
   */
  lemma NothingHeldBack(es: seq<Event>, t: nat, s: nat)
    requires Small(Run(NOTHING, es))
    ensures var w := Run(NOTHING, es);
            t in w.terminals && w.terminals[t].socket == Some(s) && s in w.socks && w.socks[s].open && w.socks[s].announced
            && AttachedTo(w, w.socks[s].shell, s) && w.socks[s].down == []
            ==> w.terminals[t].shown == w.socks[s].shell && w.terminals[t].receivedBytes == |OutputOf(w, w.socks[s].shell)|
  {
    assert Inv(NOTHING);
    RunKeeps(NOTHING, es);
    hide Run, WorldOk, Faithful;
    var w := Run(NOTHING, es);
    if t in w.terminals { assert TerminalOk(w, t); }
  }

  // ---- Offsets of sixteen digits ----

  /** The replay continues exactly what the browser has, or announces the gap. */
  predicate ExactReplay(out: seq<byte>, received: nat, r: Replay) {
    r.from == received || FairGap(|out|, received, r.from, r.truncated)
  }

  /**
   * The gateway reads no offset of more than fifteen digits and falls back to the detach point. The
   * replay is exact if and only if the offset is shorter, or that fall-back is where the browser is
   * (or the history lost them both).
   */
  lemma ReplayExactIff(out: seq<byte>, received: nat, detachedAt: Option<nat>)
    requires received <= |out|
    ensures var r := ReplayOf(out, OffsetParam(received), detachedAt);
            var start := HistoryStart(|out|);
            var fallback := Min(Wanted(|out|, None, detachedAt), |out|);
            ExactReplay(out, received, r) <==>
              || received < OFFSET_LIMIT
              || (if fallback >= start then fallback == received else received < start
                                                                      || received == start + SafeStart(out[start..]))
  {
    ReplayIsExact(out, OffsetParam(received), detachedAt);
  }

  /** A browser 5 bytes behind the detach point of a shell that printed 10^15 + 5 bytes never gets them, and is not told. */
  lemma HugeOffsetSkipsOutput(out: seq<byte>)
    requires |out| == OFFSET_LIMIT + 5
    ensures var r := ReplayOf(out, OffsetParam(OFFSET_LIMIT), Some(|out|));
            r.from == |out| && r.data == [] && !r.truncated && !ExactReplay(out, OFFSET_LIMIT, r)
  {
    ReplayIsExact(out, OffsetParam(OFFSET_LIMIT), Some(|out|));
  }

  // ---- What a reconnect asks for, and what it is told ----

  /** A terminal that keeps its shell asks for the shell it remembers, from the byte behind those it has. */
  lemma DialAsks(w: World, t: nat, s: nat, keepAlive: bool)
    requires t in w.terminals && s !in w.socks
    ensures var v, c := Step(w, Dials(t, s, keepAlive)), w.terminals[t];
            && t in v.terminals && v.terminals[t] == c.(socket := Some(s)) && s in v.socks
            && v.shells == w.shells && (forall r :: r in w.socks ==> r in v.socks && v.socks[r] == w.socks[r])
            && var q := v.socks[s];
               && q.terminal == t && q.keepAlive == keepAlive && q.open && !q.silent && !q.attached && q.shell == None && q.down == []
               && (keepAlive && c.resumeId.Some? ==>
                     q.request == c.resumeId && q.offset == if c.receivedBytes < 1_000_000_000_000_000 then Some(c.receivedBytes) else None)
               && (!keepAlive || c.resumeId.None? ==> q.request == None && q.offset == None)
  {
  }

  /** A live, started, keep-alive shell may be continued. */
  predicate MayResume(w: World, x: ShellId) {
    x in w.shells && w.shells[x].keepAlive && w.shells[x].started && !w.shells[x].ended
  }

  /** A socket that asks for such a shell gets it, and the socket attached until then is closed. */
  lemma AcceptResumes(w: World, s: nat, newId: ShellId, x: ShellId)
    requires s in w.socks && w.socks[s].shell == None && w.socks[s].request == Some(x) && MayResume(w, x)
    ensures var v, a := Step(w, Accepts(s, true, newId)), w.shells[x].attachment;
            && s in v.socks && v.socks[s].shell == Some(x) && v.socks[s].resumed
            && v.shells == w.shells[x := w.shells[x].(attachment := None)]
            && (a.Some? && a.value in w.socks ==> a.value in v.socks && !v.socks[a.value].open)
  {
  }

  /** Any other gets a new shell of its own, kept when the socket asks for that. */
  lemma AcceptOpens(w: World, s: nat, claim: bool, newId: ShellId)
    requires s in w.socks && w.socks[s].shell == None && newId !in w.shells
    requires w.socks[s].request == None || !MayResume(w, w.socks[s].request.value)
    ensures var v := Step(w, Accepts(s, claim, newId));
            && s in v.socks && v.socks[s].shell == Some(newId) && !v.socks[s].resumed
            && v.shells == w.shells[newId := Shell([], w.socks[s].keepAlive, s, false, false, None, None)]
  {
  }

  /**
   * The browser of a resumed shell is told the shell, that it is resumed, whether it is kept, and where the output that
   * follows starts; then it gets that output.
   */
  lemma AttachTells(w: World, s: nat, x: ShellId)
    requires s in w.socks && w.socks[s].shell == Some(x) && w.socks[s].resumed && !w.socks[s].attached && w.socks[s].open
    requires x in w.shells && !w.shells[x].ended
    ensures var v, q, h := Step(w, Attaches(s, true)), w.socks[s], w.shells[x];
            && s in v.socks && x in v.shells && v.shells[x] == h.(attachment := Some(s), detachedAt := None)
            && v.socks[s].attached && v.socks[s].open && v.socks[s].announced
            && |v.socks[s].down| > |q.down| && v.socks[s].down[..|q.down|] == q.down
            && var m := v.socks[s].down[|q.down|];
               && m.Session? && m.shell == x && m.keepAlive == h.keepAlive && m.resumed && m.end == |h.output| && m.offset <= |h.output|
               && v.socks[s].down[|q.down| + 1..] == if m.offset < |h.output| then [Output(h.output[m.offset..])] else []
  {
    var h := w.shells[x];
    ReplayIsExact(h.output, w.socks[s].offset, h.detachedAt);
    hide ReplayOf;
  }

  /** A replay that does not fit the send queue: the browser is told of it, then dropped, and the shell is detached again. */
  lemma ReplayOverflowDetaches(w: World, s: nat, x: ShellId)
    requires s in w.socks && w.socks[s].shell == Some(x) && w.socks[s].resumed && !w.socks[s].attached && w.socks[s].open
    requires x in w.shells && !w.shells[x].ended && ReplayOf(w.shells[x].output, w.socks[s].offset, w.shells[x].detachedAt).data != []
    ensures var v, q, h := Step(w, Attaches(s, false)), w.socks[s], w.shells[x];
            && s in v.socks && x in v.shells && v.shells[x] == h.(attachment := None, detachedAt := Some(|h.output|))
            && !v.socks[s].open && v.socks[s].attached && |v.socks[s].down| == |q.down| + 1
            && v.socks[s].down[|q.down|].Session?
  {
    hide ReplayOf;
  }

  /** What else may happen to a terminal, a socket or a shell. */
  lemma OtherEvents(w: World, t: nat, s: nat, x: ShellId, mark: bool)
    ensures t in w.terminals ==>
              && Step(w, HangsUp(t)) == w.(terminals := w.terminals[t := w.terminals[t].(socket := None)])
              && Step(w, Forgets(t)) == w.(terminals := w.terminals[t := w.terminals[t].(resumeId := None)])
    ensures s in w.socks ==>
              && Step(w, ClosesSocket(s)) == w.(socks := w.socks[s := w.socks[s].(open := false)])
              && Step(w, GoesSilent(s)) == w.(socks := w.socks[s := w.socks[s].(silent := true)])
    ensures x in w.shells ==>
              var h := w.shells[x];
              Step(w, Detaches(x, mark)) ==
                w.(shells := w.shells[x := h.(attachment := None, detachedAt := if mark then Some(|h.output|) else h.detachedAt)])
  {
  }

  /** A new shell's browser is told the shell once it is there, that it is new, and that its output starts at zero. */
  lemma OpenTells(w: World, x: ShellId)
    requires x in w.shells && !w.shells[x].started && !w.shells[x].ended
    requires var h := w.shells[x]; h.attachment == Some(h.opener) && h.opener in w.socks && w.socks[h.opener].attached && w.socks[h.opener].open
    ensures var v, h := Step(w, OpensShell(x)), w.shells[x];
            && v.shells == w.shells[x := h.(started := true)] && h.opener in v.socks && v.socks[h.opener].announced
            && v.socks[h.opener].down == w.socks[h.opener].down + [Session(x, h.keepAlive, false, |h.output|, false, |h.output|)]
  {
  }

  /** Output that does not fit the send queue stays in the shell, which is detached where that output ends. */
  lemma OverflowDetaches(w: World, x: ShellId, data: seq<byte>)
    requires x in w.shells && w.shells[x].started && !w.shells[x].ended
    requires w.shells[x].attachment.Some? && w.shells[x].attachment.value in w.socks && w.socks[w.shells[x].attachment.value].open
    ensures var v, h := Step(w, Prints(x, data, false)), w.shells[x];
            && x in v.shells && v.shells[x] == h.(output := h.output + data, attachment := None, detachedAt := Some(|h.output + data|))
            && h.attachment.value in v.socks && !v.socks[h.attachment.value].open
            && v.socks[h.attachment.value].down == w.socks[h.attachment.value].down
  {
  }

  /** An ending is announced, once, to the attached socket, which is closed behind it. */
  lemma EndTells(w: World, x: ShellId, forget: bool)
    requires x in w.shells && !w.shells[x].ended
    ensures var v, h := Step(w, EndsShell(x, forget)), w.shells[x];
            && v.shells == w.shells[x := h.(ended := true, attachment := None)]
            && Step(v, EndsShell(x, forget)) == v
            && (h.attachment.Some? && h.attachment.value in w.socks && w.socks[h.attachment.value].open ==>
                  && h.attachment.value in v.socks && !v.socks[h.attachment.value].open
                  && v.socks[h.attachment.value].down == w.socks[h.attachment.value].down + [Closed(forget)])
  {
  }

  // ---- A run in which output is lost ----

  lemma {:induction false} RunAppend(w: World, es: seq<Event>, more: seq<Event>)
    ensures Run(w, es + more) == Run(Run(w, es), more)
    decreases |es|
  {
    hide Step;
    if es == [] {
      assert es + more == more;
    } else {
      assert (es + more)[0] == es[0] && (es + more)[1..] == es[1..] + more;
      RunAppend(Step(w, es[0]), es[1..], more);
    }
  }

  lemma RunOne(w: World, e: Event)
    ensures Run(w, [e]) == Step(w, e)
  {
    assert [e][1..] == [];
  }

  lemma RunMore(es: seq<Event>, e: Event, w: World)
    requires Run(NOTHING, es) == w
    ensures Run(NOTHING, es + [e]) == Step(w, e)
  {
    hide Step;
    RunAppend(NOTHING, es, [e]);
    RunOne(w, e);
  }

  const LONG: ShellId := "long"

  /** Terminal 0 shows the only shell, which printed `out`, over its one socket. */
  function Showing(received: nat, log: seq<Item>, socks: map<nat, Sock>, socket: nat, shell: Shell): World {
    World(map[0 := Terminal(Some(LONG), received, Some(socket), Some(LONG), log)], socks, map[LONG := shell])
  }

  function First(open: bool, silent: bool, down: seq<Message>): Sock {
    Sock(0, true, None, None, Some(LONG), false, true, open, silent, true, true, down)
  }

  function Printed(out: seq<byte>, attachment: Option<nat>, detachedAt: Option<nat>): Shell {
    Shell(out, true, 0, true, false, attachment, detachedAt)
  }

  /** A page loads and opens a shell. */
  lemma LongShellOpens() returns (es: seq<Event>, w: World)
    ensures Run(NOTHING, es) == w
    ensures w == World(map[0 := Terminal(None, 0, Some(0), None, [])],
                       map[0 := Sock(0, true, None, None, Some(LONG), false, true, true, false, true, false, [Session(LONG, true, false, 0, false, 0)])],
                       map[LONG := Printed([], Some(0), None)])
  {
    es, w := [Loads(0, None)], Step(NOTHING, Loads(0, None));
    RunOne(NOTHING, Loads(0, None));
    hide Run;
    RunMore(es, Dials(0, 0, true), w);
    es, w := es + [Dials(0, 0, true)], Step(w, Dials(0, 0, true));
    RunMore(es, Accepts(0, false, LONG), w);
    es, w := es + [Accepts(0, false, LONG)], Step(w, Accepts(0, false, LONG));
    RunMore(es, Attaches(0, true), w);
    es, w := es + [Attaches(0, true)], Step(w, Attaches(0, true));
    RunMore(es, OpensShell(LONG), w);
    es, w := es + [OpensShell(LONG)], Step(w, OpensShell(LONG));
    assert w.socks[0].down == [Session(LONG, true, false, 0, false, 0)];
    assert w.socks == map[0 := w.socks[0]] && w.terminals == map[0 := w.terminals[0]] && w.shells == map[LONG := w.shells[LONG]];
  }

  /** The shell prints `out`, and the terminal shows it. */
  lemma LongShellIsShown(out: seq<byte>) returns (es: seq<Event>, w: World)
    ensures Run(NOTHING, es) == w && w == Showing(|out|, [Data(out)], map[0 := First(true, false, [])], 0, Printed(out, Some(0), None))
  {
    es, w := LongShellOpens();
    hide Run;
    RunMore(es, Prints(LONG, out, true), w);
    es, w := es + [Prints(LONG, out, true)], Step(w, Prints(LONG, out, true));
    assert [] + out == out;
    assert w.socks[0].down == [Session(LONG, true, false, 0, false, 0), Output(out)];
    RunMore(es, Delivers(0), w);
    es, w := es + [Delivers(0)], Step(w, Delivers(0));
    assert w.socks[0].down == [Output(out)];
    RunMore(es, Delivers(0), w);
    es, w := es + [Delivers(0)], Step(w, Delivers(0));
    assert w.socks[0].down == [] && w.terminals[0].log == [Data(out)];
    assert w.socks == map[0 := w.socks[0]] && w.terminals == map[0 := w.terminals[0]] && w.shells == map[LONG := w.shells[LONG]];
  }

  /** The link goes silent, the shell prints `more`, and the gateway notices. */
  lemma LongShellDetaches(out: seq<byte>, more: seq<byte>) returns (es: seq<Event>, w: World)
    ensures Run(NOTHING, es) == w
    ensures w == Showing(|out|, [Data(out)], map[0 := First(false, true, [Output(more)])], 0, Printed(out + more, None, Some(|out + more|)))
  {
    es, w := LongShellIsShown(out);
    hide Run;
    RunMore(es, GoesSilent(0), w);
    es, w := es + [GoesSilent(0)], Step(w, GoesSilent(0));
    RunMore(es, Prints(LONG, more, true), w);
    es, w := es + [Prints(LONG, more, true)], Step(w, Prints(LONG, more, true));
    RunMore(es, ClosesSocket(0), w);
    es, w := es + [ClosesSocket(0)], Step(w, ClosesSocket(0));
    RunMore(es, Detaches(LONG, true), w);
    es, w := es + [Detaches(LONG, true)], Step(w, Detaches(LONG, true));
    assert w.socks[0].down == [Output(more)];
    assert w.socks == map[0 := w.socks[0]] && w.terminals == map[0 := w.terminals[0]] && w.shells == map[LONG := w.shells[LONG]];
  }

  /**
   * A terminal that shows 10^15 bytes misses what its shell prints while the link is down: the resumed
   * connection moves it past those bytes, and announces no gap.
   */
  lemma HugeOffsetLosesOutput(out: seq<byte>, more: seq<byte>) returns (es: seq<Event>)
    requires |out| == OFFSET_LIMIT && |more| == 5
    ensures var w := Run(NOTHING, es);
            && 0 in w.terminals && LONG in w.shells && w.shells[LONG].output == out + more
            && w.terminals[0].shown == Some(LONG) && w.terminals[0].receivedBytes == |out + more|
            && w.terminals[0].log == [Data(out), Jump(|out|, |out + more|, false, |out + more|)]
            && !Faithful(w.terminals[0].log, out + more, |out + more|)
  {
    var w;
    es, w := LongShellDetaches(out, more);
    HugeOffsetSkipsOutput(out + more);
    hide Run, ReplayOf, ExactReplay;
    RunMore(es, Dials(0, 1, true), w);
    es, w := es + [Dials(0, 1, true)], Step(w, Dials(0, 1, true));
    RunMore(es, Accepts(1, true, LONG), w);
    es, w := es + [Accepts(1, true, LONG)], Step(w, Accepts(1, true, LONG));
    RunMore(es, Attaches(1, true), w);
    es, w := es + [Attaches(1, true)], Step(w, Attaches(1, true));
    RunMore(es, Delivers(1), w);
    es, w := es + [Delivers(1)], Step(w, Delivers(1));
  }
}

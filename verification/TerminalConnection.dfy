/**
 * The browser's connection: attempts, retries, the heartbeat and disposal. Attempt numbers silence
 * what belongs to an earlier attempt; a socket is named by the attempt that created it.
 */
module TerminalConnection {
  import opened Bytes

  const RECONNECT_DELAYS_MS: seq<nat> := [1_000, 2_000, 4_000, 8_000, 15_000]
  const RECONNECT_WINDOW_MS: nat := 3 * 60_000

  datatype Status = Connecting | Connected | Error | Closed

  /** How the handshake token request of an attempt ended. */
  datatype Token = Granted | Empty | Failed | Unauthorized

  /** A gateway message, as far as the connection's life goes; `waits`: the user has to decide. */
  datatype Message = ConnectedMessage(heartbeat: bool) | ErrorMessage(fatal: bool) | ClosedMessage(waits: bool) | OtherMessage

  /** The heartbeat of a socket: whether the gateway answers pings, and the sockets its timers are armed for. */
  datatype Heartbeat = Heartbeat(supported: bool, timer: Option<nat>, deadline: Option<nat>)

  const NO_HEARTBEAT := Heartbeat(false, None, None)

  /** How often the connection created a socket, emitted a state and scheduled a retry so far. */
  datatype Tally = Tally(dialed: nat, emitted: nat, scheduled: nat)

  /**
   * `fetching`: attempts whose token is awaited. `listening`: sockets whose handlers are installed.
   * `reached`: the current socket opened. `ending`: the status a message announced for its end, if one did.
   * `retryAt`: when the retry timer fires, if it is armed.
   */
  datatype Connection = Connection(
    disposed: bool, attemptId: nat, socket: Option<nat>, fetching: set<nat>, listening: set<nat>,
    reached: bool, ending: Option<Status>,
    retryAt: Option<nat>, retryIndex: nat, outageStartedAt: Option<nat>, waitingForUser: bool, status: Status,
    heartbeat: Heartbeat, clock: nat, tally: Tally)

  datatype Event =
    | Start
    | Reconnect
    | Wake(open: bool)
    | TimePasses(ms: nat)
    | RetryFires
    | TokenSettles(id: nat, token: Token)
    | SocketOpens(id: nat)
    | Receives(id: nat, m: Message)
    | SocketCloses(id: nat, replaced: bool)
    | HeartbeatTicks(open: bool)
    | DeadlineFires
    | Disposes

  const INITIAL: Connection :=
    Connection(false, 0, None, {}, {}, false, None, None, 0, None, false, Connecting, NO_HEARTBEAT, 0, Tally(0, 0, 0))

  function Emit(c: Connection, status: Status): Connection {
    c.(status := status, tally := c.tally.(emitted := c.tally.emitted + 1))
  }

  function StopHeartbeat(c: Connection): Connection {
    c.(heartbeat := NO_HEARTBEAT)
  }

  /** No socket is current and none of its events will be handled; its heartbeat is off. */
  function DropSocket(c: Connection): Connection {
    StopHeartbeat(c).(socket := None, listening := if c.socket.Some? then c.listening - {c.socket.value} else c.listening)
  }

  function Delay(retryIndex: nat): nat {
    RECONNECT_DELAYS_MS[Min(retryIndex, |RECONNECT_DELAYS_MS| - 1)]
  }

  /** How the current attempt ends: in a wait for the user, past the retry window, or with a retry armed. */
  function Settle(c: Connection, id: nat, status: Status): Connection {
    if c.disposed || id != c.attemptId then c else
    var c1 := c.(retryAt := None);
    if c1.waitingForUser then Emit(c1, status) else
    var startedAt := if c1.outageStartedAt.Some? then c1.outageStartedAt.value else c1.clock;
    var c2 := c1.(outageStartedAt := Some(startedAt));
    if c2.clock - startedAt >= RECONNECT_WINDOW_MS then Emit(c2, status)
    else
      var c3 := Emit(c2, status);
      c3.(retryIndex := c2.retryIndex + 1, retryAt := Some(c2.clock + Delay(c2.retryIndex)),
          tally := c3.tally.(scheduled := c3.tally.scheduled + 1))
  }

  function Attempt(c: Connection): Connection {
    var c1 := DropSocket(c.(retryAt := None));
    if c1.disposed then c1 else Numbered(c1)
  }

  /** The attempt gets its number, which silences all before it, and awaits its token. */
  function Numbered(c: Connection): Connection {
    Emit(c.(attemptId := c.attemptId + 1, waitingForUser := false, fetching := c.fetching + {c.attemptId + 1}), Connecting)
  }

  function FreshWindow(c: Connection): Connection {
    c.(retryIndex := 0, outageStartedAt := None)
  }

  /** A deadline is armed for socket `id`, unless one is, or the socket is closed or without heartbeat. */
  function Probe(c: Connection, id: nat, open: bool): Connection {
    if !c.heartbeat.supported || !open || c.heartbeat.deadline.Some? then c else c.(heartbeat := c.heartbeat.(deadline := Some(id)))
  }

  function TokenSettled(c: Connection, id: nat, token: Token): Connection {
    var c1 := c.(fetching := c.fetching - {id});
    if c1.disposed || id != c1.attemptId then c1
    else
      match token
      case Granted => c1.(socket := Some(id), listening := c1.listening + {id}, reached := false, ending := None,
                             tally := c1.tally.(dialed := c1.tally.dialed + 1))
      case Failed => Settle(c1, id, Error)
      case _ => Settle(c1.(waitingForUser := true), id, Error)
  }

  /** The deadline is disarmed. */
  function Silenced(c: Connection): Connection {
    c.(heartbeat := c.heartbeat.(deadline := None))
  }

  function OnOpen(c: Connection, id: nat): Connection {
    if id != c.attemptId then c else c.(reached := true)
  }

  /** The shell is announced: the outage is over, and the heartbeat starts where it is supported. */
  function OnConnected(c: Connection, id: nat, supported: bool): Connection {
    var c1 := Emit(FreshWindow(c), Connected);
    if supported then c1.(heartbeat := c1.heartbeat.(supported := true, timer := Some(id))) else c1
  }

  /** An error or an end is announced; `waits`: then the user has to decide. */
  function OnEnding(c: Connection, status: Status, waits: bool): Connection {
    Emit(c.(waitingForUser := c.waitingForUser || waits, ending := Some(status)), status)
  }

  function OnMessage(c: Connection, id: nat, m: Message): Connection {
    if id != c.attemptId then c else
    var c1 := Silenced(c);
    match m
    case ConnectedMessage(supported) => OnConnected(c1, id, supported)
    case ErrorMessage(fatal) => OnEnding(c1, Error, fatal)
    case ClosedMessage(waits) => OnEnding(c1, Closed, waits)
    case OtherMessage => c1
  }

  /** What a closed socket is settled as: what the gateway said, or how far the socket got. */
  function Outcome(c: Connection): Status {
    if c.ending.Some? then c.ending.value else if c.reached then Closed else Error
  }

  /** The current socket is gone; the close code says whether another connection continued the shell. */
  function Detached(c: Connection, id: nat, replaced: bool): Connection {
    StopHeartbeat(c).(
      listening := c.listening - {id}, socket := if c.socket == Some(id) then None else c.socket,
      waitingForUser := c.waitingForUser || replaced,
      ending := if replaced && c.ending.None? then Some(Closed) else c.ending)
  }

  function OnClose(c: Connection, id: nat, replaced: bool): Connection {
    if id != c.attemptId then c.(listening := c.listening - {id})
    else
      var c1 := Detached(c, id, replaced);
      Settle(c1, id, Outcome(c1))
  }

  /** The deadline of the current socket starts an attempt with a fresh window; any other does nothing. */
  function OnDeadline(c: Connection): Connection
    requires c.heartbeat.deadline.Some?
  {
    var id := c.heartbeat.deadline.value;
    var c1 := Silenced(c);
    if c1.disposed || id != c1.attemptId || c1.socket != Some(id) then c1
    else Attempt(FreshWindow(DropSocket(c1)))
  }

  function OnWake(c: Connection, open: bool): Connection {
    if c.disposed || c.waitingForUser then c
    else if c.status == Connected then if c.socket.Some? then Probe(c, c.attemptId, open) else c
    else if c.socket.Some? || (c.status == Connecting && c.retryAt.None?) then c
    else Attempt(FreshWindow(c))
  }

  function Dispose(c: Connection): Connection {
    if c.disposed then c else DropSocket(c.(disposed := true, retryAt := None))
  }

  function Step(c: Connection, e: Event): Connection {
    match e
    case Start => if c.disposed || c.attemptId > 0 then c else Attempt(c)
    case Reconnect => if c.disposed then c else Attempt(FreshWindow(c).(waitingForUser := false))
    case Wake(open) => OnWake(c, open)
    case TimePasses(ms) => c.(clock := c.clock + ms)
    case RetryFires => if c.retryAt.Some? && c.retryAt.value <= c.clock then Attempt(c.(retryAt := None)) else c
    case TokenSettles(id, token) => if id in c.fetching then TokenSettled(c, id, token) else c
    case SocketOpens(id) => if id in c.listening then OnOpen(c, id) else c
    case Receives(id, m) => if id in c.listening then OnMessage(c, id, m) else c
    case SocketCloses(id, replaced) => if id in c.listening then OnClose(c, id, replaced) else c
    case HeartbeatTicks(open) => if c.heartbeat.timer.Some? then Probe(c, c.heartbeat.timer.value, open) else c
    case DeadlineFires => if c.heartbeat.deadline.Some? then OnDeadline(c) else c
    case Disposes => Dispose(c)
  }

  function Run(c: Connection, es: seq<Event>): Connection
    decreases |es|
  {
    if es == [] then c else Run(Step(c, es[0]), es[1..])
  }

  /** The connection as the browser keeps it: variables that the handlers update in place. */
  class BrowserConnection {
    var disposed: bool
    var attemptId: nat
    var socket: Option<nat>
    var fetching: set<nat>
    var listening: set<nat>
    var reached: bool
    var ending: Option<Status>
    var retryAt: Option<nat>
    var retryIndex: nat
    var outageStartedAt: Option<nat>
    var waitingForUser: bool
    var status: Status
    var heartbeat: Heartbeat
    var clock: nat
    var tally: Tally

    ghost function View(): Connection
      reads this
    {
      Connection(disposed, attemptId, socket, fetching, listening, reached, ending, retryAt, retryIndex, outageStartedAt,
                 waitingForUser, status, heartbeat, clock, tally)
    }

    constructor ()
      ensures View() == INITIAL
    {
      disposed, attemptId, socket, fetching, listening, reached, ending := false, 0, None, {}, {}, false, None;
      retryAt, retryIndex, outageStartedAt, waitingForUser, status := None, 0, None, false, Connecting;
      heartbeat, clock, tally := NO_HEARTBEAT, 0, Tally(0, 0, 0);
    }

    method DropCurrentSocket()
      modifies this
      ensures View() == DropSocket(old(View()))
    {
      heartbeat := NO_HEARTBEAT;
      var previous := socket;
      socket := None;
      if previous == None { return; }
      listening := listening - {previous.value};
    }

    method SettleAttempt(id: nat, outcome: Status)
      modifies this
      ensures View() == Settle(old(View()), id, outcome)
    {
      if disposed || id != attemptId { return; }
      retryAt := None;
      status, tally := outcome, tally.(emitted := tally.emitted + 1);
      if waitingForUser { return; }
      if outageStartedAt == None { outageStartedAt := Some(clock); }
      if clock - outageStartedAt.value >= RECONNECT_WINDOW_MS { return; }
      retryAt := Some(clock + Delay(retryIndex));
      retryIndex := retryIndex + 1;
      tally := tally.(scheduled := tally.scheduled + 1);
    }

    /** A new attempt, up to the point where its token is awaited. */
    method StartAttempt()
      modifies this
      ensures View() == Attempt(old(View()))
    {
      retryAt := None;
      DropCurrentSocket();
      hide DropSocket;
      if disposed { return; }
      NumberAttempt();
    }

    /** The attempt gets its number and awaits its token. */
    method NumberAttempt()
      modifies this`attemptId, this`waitingForUser, this`status, this`tally, this`fetching
      ensures View() == Numbered(old(View()))
    {
      attemptId := attemptId + 1;
      waitingForUser := false;
      status, tally := Connecting, tally.(emitted := tally.emitted + 1);
      fetching := fetching + {attemptId};
    }

    /** What the attempt does with the outcome of its token request. */
    method ContinueAttempt(id: nat, token: Token)
      modifies this
      ensures View() == TokenSettled(old(View()), id, token)
    {
      hide Settle;
      fetching := fetching - {id};
      if disposed || id != attemptId { return; }
      if token == Empty || token == Unauthorized { waitingForUser := true; }
      if token != Granted {
        SettleAttempt(id, Error);
        return;
      }
      socket := Some(id);
      listening := listening + {id};
      reached := false;
      ending := None;
      tally := tally.(dialed := tally.dialed + 1);
    }

    method SocketOpened(id: nat)
      modifies this
      ensures View() == OnOpen(old(View()), id)
    {
      if id != attemptId { return; }
      reached := true;
    }

    /** The gateway announced the shell: the outage is over. */
    method ShellAnnounced(id: nat, supported: bool)
      modifies this`retryIndex, this`outageStartedAt, this`status, this`tally, this`heartbeat
      ensures View() == OnConnected(old(View()), id, supported)
    {
      retryIndex := 0;
      outageStartedAt := None;
      status, tally := Connected, tally.(emitted := tally.emitted + 1);
      if supported { heartbeat := heartbeat.(supported := true, timer := Some(id)); }
    }

    /** The gateway said how this will end, and whether the user has to decide then. */
    method EndAnnounced(outcome: Status, waits: bool)
      modifies this`ending, this`waitingForUser, this`status, this`tally
      ensures View() == OnEnding(old(View()), outcome, waits)
    {
      ending := Some(outcome);
      if waits { waitingForUser := true; }
      status, tally := outcome, tally.(emitted := tally.emitted + 1);
    }

    method MessageReceived(id: nat, m: Message)
      modifies this
      ensures View() == OnMessage(old(View()), id, m)
    {
      hide OnConnected, OnEnding;
      if id != attemptId { return; }
      heartbeat := heartbeat.(deadline := None);
      match m {
        case ConnectedMessage(supported) => ShellAnnounced(id, supported);
        case ErrorMessage(fatal) => EndAnnounced(Error, fatal);
        case ClosedMessage(waits) => EndAnnounced(Closed, waits);
        case OtherMessage =>
      }
    }

    /** The socket is no longer current, listened to or probed. */
    method DetachSocket(id: nat, replaced: bool)
      modifies this`listening, this`heartbeat, this`socket, this`waitingForUser, this`ending
      ensures View() == Detached(old(View()), id, replaced)
    {
      listening := listening - {id};
      heartbeat := NO_HEARTBEAT;
      if socket == Some(id) { socket := None; }
      if replaced {
        waitingForUser := true;
        if ending == None { ending := Some(Closed); }
      }
    }

    method SocketClosed(id: nat, replaced: bool)
      modifies this
      ensures View() == OnClose(old(View()), id, replaced)
    {
      hide Settle, Detached;
      if id != attemptId {
        listening := listening - {id};
        return;
      }
      DetachSocket(id, replaced);
      var fallback := if reached then Closed else Error;
      SettleAttempt(id, if ending.Some? then ending.value else fallback);
    }

    method ProbeSocket(id: nat, open: bool)
      modifies this
      ensures View() == Probe(old(View()), id, open)
    {
      if !heartbeat.supported || !open || heartbeat.deadline.Some? { return; }
      heartbeat := heartbeat.(deadline := Some(id));
    }

    method DeadlinePasses()
      requires heartbeat.deadline.Some?
      modifies this
      ensures View() == OnDeadline(old(View()))
    {
      var id := heartbeat.deadline.value;
      heartbeat := heartbeat.(deadline := None);
      if disposed || id != attemptId || socket != Some(id) { return; }
      DropCurrentSocket();
      retryIndex := 0;
      outageStartedAt := None;
      StartAttempt();
    }

    method Start()
      modifies this
      ensures View() == Step(old(View()), Event.Start)
    {
      if disposed || attemptId > 0 { return; }
      StartAttempt();
    }

    method Reconnect()
      modifies this
      ensures View() == Step(old(View()), Event.Reconnect)
    {
      if disposed { return; }
      retryIndex := 0;
      outageStartedAt := None;
      waitingForUser := false;
      StartAttempt();
    }

    method Wake(open: bool)
      modifies this
      ensures View() == OnWake(old(View()), open)
    {
      if disposed || waitingForUser { return; }
      if status == Connected {
        if socket.Some? { ProbeSocket(attemptId, open); }
        return;
      }
      if socket.Some? || (status == Connecting && retryAt == None) { return; }
      retryIndex := 0;
      outageStartedAt := None;
      StartAttempt();
    }

    method DisposeConnection()
      modifies this
      ensures View() == Dispose(old(View()))
    {
      if disposed { return; }
      disposed := true;
      retryAt := None;
      DropCurrentSocket();
    }

    /** One attempt at a time, and never stuck. */
    ghost predicate Valid()
      reads this
    {
      SingleAttempt(View()) && NeverStuck(View()) && EndingOk(View())
    }

    /** Whatever happens, its handler runs; an event that nothing is armed or installed for does nothing. */
    method OnEvent(e: Event)
      requires Valid()
      modifies this
      ensures Valid() && View() == Step(old(View()), e)
    {
      StepSingle(View(), e);
      StepNeverStuck(View(), e);
      hide SingleAttempt, NeverStuck, EndingOk, Attempt, TokenSettled, OnOpen, OnMessage, OnClose, OnDeadline, OnWake, Dispose, Probe;
      match e {
        case Start => Start();
        case Reconnect => Reconnect();
        case Wake(open) => Wake(open);
        case TimePasses(ms) => clock := clock + ms;
        case RetryFires => RetryTimer();
        case TokenSettles(id, token) => if id in fetching { ContinueAttempt(id, token); }
        case SocketOpens(id) => if id in listening { SocketOpened(id); }
        case Receives(id, m) => if id in listening { MessageReceived(id, m); }
        case SocketCloses(id, replaced) => if id in listening { SocketClosed(id, replaced); }
        case HeartbeatTicks(open) => if heartbeat.timer.Some? { ProbeSocket(heartbeat.timer.value, open); }
        case DeadlineFires => if heartbeat.deadline.Some? { DeadlinePasses(); }
        case Disposes => DisposeConnection();
      }
    }

    method RetryTimer()
      modifies this
      ensures View() == Step(old(View()), RetryFires)
    {
      if retryAt == None || retryAt.value > clock { return; }
      retryAt := None;
      StartAttempt();
    }
  }

  // ---- One attempt at a time ----

  /** A token is awaited for the current attempt. */
  predicate Fetching(c: Connection) {
    c.attemptId in c.fetching
  }

  ghost predicate SingleAttempt(c: Connection) {
    // The only socket that is listened to is the current one, and it belongs to the current attempt.
    && c.listening == (if c.socket.Some? then {c.socket.value} else {})
    && (c.socket.Some? ==> c.socket.value == c.attemptId)
    && (forall id :: id in c.fetching ==> 1 <= id <= c.attemptId)
    // A socket, an awaited token and an armed retry exclude each other.
    && (c.socket.Some? ==> c.retryAt.None? && !Fetching(c))
    && (Fetching(c) ==> c.retryAt.None? && !c.waitingForUser)
    && (c.waitingForUser ==> c.retryAt.None?)
    && (c.heartbeat.timer.Some? ==> c.heartbeat.timer == c.socket)
    && (c.heartbeat.deadline.Some? ==> c.heartbeat.deadline == c.socket)
    && (c.disposed ==> c.socket.None? && c.retryAt.None?)
    && (c.attemptId == 0 ==> c.socket.None? && c.retryAt.None? && !c.waitingForUser)
    && (c.retryIndex == 0 <==> c.outageStartedAt.None?)
    && (c.heartbeat.supported ==> c.socket.Some?)
  }

  lemma AttemptSingle(c: Connection)
    requires SingleAttempt(c)
    ensures SingleAttempt(Attempt(c))
  {
  }

  lemma PreparedSingle(c: Connection)
    requires SingleAttempt(c)
    ensures SingleAttempt(FreshWindow(c)) && SingleAttempt(FreshWindow(c).(waitingForUser := false))
    ensures SingleAttempt(c.(retryAt := None))
    ensures SingleAttempt(FreshWindow(DropSocket(Silenced(c))))
  {
  }

  lemma TokenSingle(c: Connection, id: nat, token: Token)
    requires SingleAttempt(c) && id in c.fetching
    ensures SingleAttempt(TokenSettled(c, id, token))
  {
  }

  lemma MessageSingle(c: Connection, id: nat, m: Message)
    requires SingleAttempt(c) && id in c.listening
    ensures SingleAttempt(OnMessage(c, id, m))
  {
  }

  lemma CloseSingle(c: Connection, id: nat, replaced: bool)
    requires SingleAttempt(c) && id in c.listening
    ensures SingleAttempt(OnClose(c, id, replaced))
  {
  }

  lemma WakeSingle(c: Connection, open: bool)
    requires SingleAttempt(c)
    ensures SingleAttempt(OnWake(c, open))
  {
    hide Attempt;
    PreparedSingle(c);
    AttemptSingle(FreshWindow(c));
  }

  lemma SilencedSingle(c: Connection)
    requires SingleAttempt(c)
    ensures SingleAttempt(Silenced(c))
  {
  }

  lemma OtherSingle(c: Connection, e: Event)
    requires SingleAttempt(c) && (e.TimePasses? || e.SocketOpens? || e.HeartbeatTicks? || e.Disposes?)
    ensures SingleAttempt(Step(c, e))
  {
  }

  lemma StepSingle(c: Connection, e: Event)
    requires SingleAttempt(c)
    ensures SingleAttempt(Step(c, e))
  {
    hide SingleAttempt, Attempt, TokenSettled, OnMessage, OnClose, Dispose;
    PreparedSingle(c);
    match e {
      case Start => AttemptSingle(c);
      case Reconnect => AttemptSingle(FreshWindow(c).(waitingForUser := false));
      case Wake(open) => WakeSingle(c, open);
      case RetryFires => AttemptSingle(c.(retryAt := None));
      case DeadlineFires =>
        if c.heartbeat.deadline.Some? {
          SilencedSingle(c);
          AttemptSingle(FreshWindow(DropSocket(Silenced(c))));
        }
      case TokenSettles(id, token) => if id in c.fetching { TokenSingle(c, id, token); }
      case Receives(id, m) => if id in c.listening { MessageSingle(c, id, m); }
      case SocketCloses(id, replaced) => if id in c.listening { CloseSingle(c, id, replaced); }
      case _ => OtherSingle(c, e);
    }
  }

  lemma {:induction false} RunSingle(c: Connection, es: seq<Event>)
    requires SingleAttempt(c)
    ensures SingleAttempt(Run(c, es))
    decreases |es|
  {
    hide SingleAttempt, Step;
    if es != [] {
      StepSingle(c, es[0]);
      RunSingle(Step(c, es[0]), es[1..]);
    }
  }

  /** In every run a live socket belongs to the current attempt, and never coexists with an armed retry. */
  lemma SingleAttemptInEveryRun(es: seq<Event>)
    ensures SingleAttempt(Run(INITIAL, es))
  {
    assert SingleAttempt(INITIAL);
    RunSingle(INITIAL, es);
  }

  /** Which attempt an event belongs to, if it belongs to one. */
  predicate Concerns(e: Event, id: nat) {
    || (e.TokenSettles? && e.id == id)
    || (e.SocketOpens? && e.id == id)
    || (e.Receives? && e.id == id)
    || (e.SocketCloses? && e.id == id)
  }

  /** Events of a superseded attempt change nothing, beyond its own token no longer being awaited. */
  lemma SupersededIsSilent(c: Connection, e: Event, id: nat)
    requires SingleAttempt(c) && Concerns(e, id) && id != c.attemptId
    ensures Step(c, e) == c.(fetching := if e.TokenSettles? then c.fetching - {id} else c.fetching)
  {
    if e.TokenSettles? && id !in c.fetching { assert c.fetching - {id} == c.fetching; }
  }

  /** From `c` to `d` no socket was opened, no state emitted and no attempt started; none will be. */
  predicate StaysOver(c: Connection, d: Connection) {
    && d.disposed && d.socket == None && d.retryAt == None
    && d.tally.dialed == c.tally.dialed && d.tally.emitted == c.tally.emitted && d.attemptId == c.attemptId
  }

  lemma DisposedStep(c: Connection, e: Event)
    requires SingleAttempt(c) && c.disposed
    ensures StaysOver(c, Step(c, e))
  {
  }

  /** After disposal no socket is opened, no state is emitted and no attempt starts, whatever happens. */
  lemma {:induction false} DisposedForGood(c: Connection, es: seq<Event>)
    requires SingleAttempt(c) && c.disposed
    ensures StaysOver(c, Run(c, es))
    decreases |es|
  {
    hide SingleAttempt, Step;
    if es != [] {
      StepSingle(c, es[0]);
      DisposedStep(c, es[0]);
      DisposedForGood(Step(c, es[0]), es[1..]);
    }
    DisposedIsQuiet(c);
  }

  lemma DisposedIsQuiet(c: Connection)
    requires SingleAttempt(c) && c.disposed
    ensures c.socket == None && c.retryAt == None
  {
  }

  /**
   * While the user has to decide, an event starts an attempt exactly when it is the user's reconnect,
   * or the heartbeat deadline of the socket that is still open.
   */
  lemma WaitingStartsIff(c: Connection, e: Event)
    requires SingleAttempt(c) && c.waitingForUser && !c.disposed
    ensures Step(c, e).attemptId != c.attemptId <==> e == Reconnect || (e == DeadlineFires && c.heartbeat.deadline.Some?)
    ensures e != Reconnect && !(e == DeadlineFires && c.heartbeat.deadline.Some?) ==> Step(c, e).waitingForUser
  {
  }

  /** The gateway says the shell exited; its socket stays open, and a ping on it gets no answer. */
  const UNANSWERED: seq<Event> :=
    [Start, TokenSettles(1, Granted), SocketOpens(1), Receives(1, ConnectedMessage(true)), Receives(1, ClosedMessage(true)), HeartbeatTicks(true)]

  /** The connection waits for the user, and starts an attempt all the same when the deadline passes. */
  lemma HeartbeatIgnoresTheWait()
    ensures var c := Run(INITIAL, UNANSWERED);
            c.waitingForUser && c.attemptId == 1 && Step(c, DeadlineFires).attemptId == 2
  {
    var c1 := Step(INITIAL, UNANSWERED[0]);
    var c2 := Step(c1, UNANSWERED[1]);
    var c3 := Step(c2, UNANSWERED[2]);
    var c4 := Step(c3, UNANSWERED[3]);
    var c5 := Step(c4, UNANSWERED[4]);
    var c6 := Step(c5, UNANSWERED[5]);
    assert c6.waitingForUser && c6.attemptId == 1 && c6.heartbeat.deadline == Some(1) && c6.socket == Some(1);
    hide Step;
    assert UNANSWERED[5..] == [UNANSWERED[5]] && UNANSWERED[6..] == [];
    assert Run(c5, UNANSWERED[5..]) == c6 by { assert UNANSWERED[5..][1..] == []; }
    assert Run(c4, UNANSWERED[4..]) == c6 by { assert UNANSWERED[4..][1..] == UNANSWERED[5..]; }
    assert Run(c3, UNANSWERED[3..]) == c6 by { assert UNANSWERED[3..][1..] == UNANSWERED[4..]; }
    assert Run(c2, UNANSWERED[2..]) == c6 by { assert UNANSWERED[2..][1..] == UNANSWERED[3..]; }
    assert Run(c1, UNANSWERED[1..]) == c6 by { assert UNANSWERED[1..][1..] == UNANSWERED[2..]; }
  }

  /** With the socket closed, only reconnect() starts another attempt. */
  lemma {:induction false} WaitsForUser(c: Connection, es: seq<Event>)
    requires SingleAttempt(c) && c.waitingForUser && c.socket == None && !c.disposed
    requires forall i :: 0 <= i < |es| ==> es[i] != Reconnect
    ensures Run(c, es).attemptId == c.attemptId
    decreases |es|
  {
    if es != [] {
      StepSingle(c, es[0]);
      WaitingStep(c, es[0]);
      hide SingleAttempt, Step;
      if Step(c, es[0]).disposed { DisposedForGood(Step(c, es[0]), es[1..]); } else { WaitsForUser(Step(c, es[0]), es[1..]); }
    }
  }

  lemma WaitingStep(c: Connection, e: Event)
    requires SingleAttempt(c) && c.waitingForUser && c.socket == None && !c.disposed && e != Reconnect
    ensures var d := Step(c, e); d.attemptId == c.attemptId && d.socket == None && d.waitingForUser
  {
  }

  // ---- Never stuck ----

  /** The outage outlasted the window in which retries are automatic. */
  predicate GaveUp(c: Connection) {
    c.outageStartedAt.Some? && c.clock >= c.outageStartedAt.value + RECONNECT_WINDOW_MS
  }

  /** Nothing is under way: no socket, no awaited token. */
  predicate Resting(c: Connection) {
    c.socket.None? && !Fetching(c)
  }

  ghost predicate NeverStuck(c: Connection) {
    && (Fetching(c) || c.attemptId == 0 ==> c.status == Connecting)
    && (c.attemptId > 0 && !c.disposed && Resting(c) ==>
          c.status in {Error, Closed} && (c.retryAt.Some? || c.waitingForUser || GaveUp(c)))
  }

  /** What the gateway says before closing is an error or an end. */
  predicate EndingOk(c: Connection) {
    c.ending.Some? ==> c.ending.value in {Error, Closed}
  }

  lemma AttemptNeverStuck(c: Connection)
    requires SingleAttempt(c) && !c.disposed
    ensures NeverStuck(Attempt(c))
  {
  }

  lemma SettleNeverStuck(c: Connection, id: nat, status: Status)
    requires !c.disposed && id == c.attemptId && id > 0 && !Fetching(c) && status in {Error, Closed}
    ensures NeverStuck(Settle(c, id, status))
  {
  }

  lemma TokenNeverStuck(c: Connection, id: nat, token: Token)
    requires SingleAttempt(c) && NeverStuck(c) && id in c.fetching
    ensures NeverStuck(TokenSettled(c, id, token))
  {
    hide Settle;
    if !c.disposed && id == c.attemptId {
      var c1 := c.(fetching := c.fetching - {id});
      SettleNeverStuck(c1, id, Error);
      SettleNeverStuck(c1.(waitingForUser := true), id, Error);
    }
  }

  lemma CloseNeverStuck(c: Connection, id: nat, replaced: bool)
    requires SingleAttempt(c) && NeverStuck(c) && EndingOk(c) && id in c.listening
    ensures NeverStuck(OnClose(c, id, replaced))
  {
    hide Settle;
    if !c.disposed && id == c.attemptId { SettleNeverStuck(Detached(c, id, replaced), id, Outcome(Detached(c, id, replaced))); }
  }

  lemma StepNeverStuck(c: Connection, e: Event)
    requires SingleAttempt(c) && NeverStuck(c) && EndingOk(c)
    ensures NeverStuck(Step(c, e)) && EndingOk(Step(c, e))
  {
    EndingStays(c, e);
    PreparedSingle(c);
    hide SingleAttempt, NeverStuck, EndingOk, Attempt, TokenSettled, OnMessage, OnClose, Dispose;
    match e {
      case Start => if !c.disposed { AttemptNeverStuck(c); }
      case Reconnect => if !c.disposed { AttemptNeverStuck(FreshWindow(c).(waitingForUser := false)); }
      case Wake(open) => WakeNeverStuck(c, open);
      case RetryFires => RetryNeverStuck(c);
      case DeadlineFires => if c.heartbeat.deadline.Some? { DeadlineNeverStuck(c); }
      case TokenSettles(id, token) => if id in c.fetching { TokenNeverStuck(c, id, token); }
      case Receives(id, m) => if id in c.listening { MessageNeverStuck(c, id, m); }
      case SocketCloses(id, replaced) => if id in c.listening { CloseNeverStuck(c, id, replaced); }
      case _ => OtherNeverStuck(c, e);
    }
  }

  lemma EndingStays(c: Connection, e: Event)
    requires EndingOk(c)
    ensures EndingOk(Step(c, e))
  {
  }

  lemma WakeNeverStuck(c: Connection, open: bool)
    requires SingleAttempt(c) && NeverStuck(c)
    ensures NeverStuck(OnWake(c, open))
  {
    hide Attempt;
    PreparedSingle(c);
    if !c.disposed { AttemptNeverStuck(FreshWindow(c)); }
  }

  lemma RetryNeverStuck(c: Connection)
    requires SingleAttempt(c) && NeverStuck(c)
    ensures NeverStuck(Step(c, RetryFires))
  {
    hide Attempt;
    PreparedSingle(c);
    if !c.disposed { AttemptNeverStuck(c.(retryAt := None)); }
  }

  lemma DeadlineNeverStuck(c: Connection)
    requires SingleAttempt(c) && NeverStuck(c) && c.heartbeat.deadline.Some?
    ensures NeverStuck(OnDeadline(c))
  {
    hide Attempt;
    PreparedSingle(c);
    if !c.disposed { AttemptNeverStuck(FreshWindow(DropSocket(Silenced(c)))); }
  }

  lemma MessageNeverStuck(c: Connection, id: nat, m: Message)
    requires SingleAttempt(c) && NeverStuck(c) && id in c.listening
    ensures NeverStuck(OnMessage(c, id, m))
  {
  }

  lemma OtherNeverStuck(c: Connection, e: Event)
    requires SingleAttempt(c) && NeverStuck(c) && (e.TimePasses? || e.SocketOpens? || e.HeartbeatTicks? || e.Disposes?)
    ensures NeverStuck(Step(c, e))
  {
  }

  lemma {:induction false} RunNeverStuck(c: Connection, es: seq<Event>)
    requires SingleAttempt(c) && NeverStuck(c) && EndingOk(c)
    ensures NeverStuck(Run(c, es)) && SingleAttempt(Run(c, es))
    decreases |es|
  {
    hide SingleAttempt, NeverStuck, EndingOk, Step;
    if es != [] {
      StepSingle(c, es[0]);
      StepNeverStuck(c, es[0]);
      RunNeverStuck(Step(c, es[0]), es[1..]);
    }
  }

  /**
   * In every run a started connection that has neither a socket nor an awaited token has a retry
   * armed, waits for the user, or gave up after the window; and a wake starts an attempt exactly
   * when nothing is under way and the user does not have to decide.
   */
  lemma NeverStuckInEveryRun(es: seq<Event>, open: bool)
    ensures var c := Run(INITIAL, es);
            && (c.attemptId > 0 && !c.disposed && Resting(c) ==> c.retryAt.Some? || c.waitingForUser || GaveUp(c))
            && (OnWake(c, open).attemptId != c.attemptId <==> c.attemptId > 0 && !c.disposed && !c.waitingForUser && Resting(c))
  {
    RunNeverStuck(INITIAL, es);
    hide Run;
    WakeStartsIff(Run(INITIAL, es), open);
  }

  lemma WakeStartsIff(c: Connection, open: bool)
    requires SingleAttempt(c) && NeverStuck(c)
    ensures OnWake(c, open).attemptId != c.attemptId <==> c.attemptId > 0 && !c.disposed && !c.waitingForUser && Resting(c)
  {
  }

  // ---- What each event does ----

  /** An attempt begins: nothing of an earlier one is left, and its token is awaited. */
  predicate Begins(c: Connection, d: Connection) {
    && d.attemptId == c.attemptId + 1 && d.fetching == c.fetching + {d.attemptId}
    && d.socket == None && d.listening == {} && d.retryAt == None && d.heartbeat == Heartbeat(false, None, None)
    && d.status == Connecting && !d.waitingForUser && !d.disposed && d.clock == c.clock
    && d.tally == Tally(c.tally.dialed, c.tally.emitted + 1, c.tally.scheduled)
  }

  /** No outage is counted: the next drop starts a retry window of its own. */
  predicate FreshlyWindowed(c: Connection) {
    c.retryIndex == 0 && c.outageStartedAt == None
  }

  predicate SameWindow(c: Connection, d: Connection) {
    d.retryIndex == c.retryIndex && d.outageStartedAt == c.outageStartedAt
  }

  /**
   * The user's reconnect, a wake without a socket and a heartbeat without an answer begin an attempt with a fresh window;
   * a retry that is due begins one in the same window, and one that is not due does nothing.
   */
  lemma AttemptsBegin(c: Connection, open: bool)
    requires SingleAttempt(c) && NeverStuck(c) && !c.disposed
    ensures if c.attemptId == 0 then Begins(c, Step(c, Start)) && SameWindow(c, Step(c, Start)) else Step(c, Start) == c
    ensures Begins(c, Step(c, Reconnect)) && FreshlyWindowed(Step(c, Reconnect))
    ensures var d := Step(c, RetryFires);
            if c.retryAt.Some? && c.retryAt.value <= c.clock then Begins(c, d) && SameWindow(c, d) else d == c
    ensures var d := Step(c, DeadlineFires);
            if c.heartbeat.deadline.Some? then Begins(c, d) && FreshlyWindowed(d) else d == c
    ensures var d := Step(c, Wake(open));
            c.attemptId > 0 && !c.waitingForUser && Resting(c) ==> Begins(c, d) && FreshlyWindowed(d)
  {
    if c.attemptId > 0 && !c.waitingForUser && Resting(c) { WakeStartsIff(c, open); }
  }

  /** A wake or a tick of a connection with a socket asks the gateway for an answer, once, where it gives any. */
  lemma ProbesOnce(c: Connection, open: bool)
    requires SingleAttempt(c) && !c.disposed && c.socket.Some?
    ensures var asked := c.(heartbeat := c.heartbeat.(deadline := c.socket));
            var probed := if c.heartbeat.supported && open then asked else c;
            && (c.status == Connected && !c.waitingForUser ==> Step(c, Wake(open)) == probed)
            && (c.status != Connected || c.waitingForUser ==> Step(c, Wake(open)) == c)
            && Step(c, HeartbeatTicks(open)) == if c.heartbeat.timer.Some? then probed else c
  {
  }

  /** How long an attempt waits for its turn after `failed` earlier ones of the same outage. */
  predicate Backoff(failed: nat, delay: nat) {
    delay == if failed == 0 then 1_000 else if failed == 1 then 2_000 else if failed == 2 then 4_000 else if failed == 3 then 8_000 else 15_000
  }

  /**
   * An attempt failed or a socket closed: the user has to decide, or the window of three minutes since the outage
   * began is over, or a retry is armed. `status` is shown.
   */
  predicate Settled(c: Connection, d: Connection, waits: bool, status: Status) {
    && d.socket == None && d.listening == {} && !Fetching(d) && d.attemptId == c.attemptId && !d.disposed
    && d.status == status && d.waitingForUser == waits && d.clock == c.clock
    && var began := if c.outageStartedAt.Some? then c.outageStartedAt.value else c.clock;
       if waits then d.retryAt == None && SameWindow(c, d)
       else
         && d.outageStartedAt == Some(began)
         && (c.clock >= began + 3 * 60_000 ==> d.retryAt == None && d.retryIndex == c.retryIndex)
         && (c.clock < began + 3 * 60_000 ==>
               d.retryAt.Some? && d.retryAt.value >= c.clock && Backoff(c.retryIndex, d.retryAt.value - c.clock)
               && d.retryIndex == c.retryIndex + 1)
  }

  /** A token opens the socket; none, or no session, is the user's affair; anything else is tried again. */
  lemma TokenDecides(c: Connection, token: Token)
    requires SingleAttempt(c) && !c.disposed && Fetching(c)
    ensures var d := Step(c, TokenSettles(c.attemptId, token));
            match token
            case Granted =>
              && d.socket == Some(c.attemptId) && d.listening == {c.attemptId} && !d.reached && d.ending == None && !Fetching(d)
              && d.status == c.status && SameWindow(c, d) && d.tally.dialed == c.tally.dialed + 1
            case Failed => Settled(c, d, false, Error)
            case Empty => Settled(c, d, true, Error)
            case Unauthorized => Settled(c, d, true, Error)
  {
  }

  /** What the gateway says is shown at once; every message disarms the deadline. */
  lemma MessageShows(c: Connection, id: nat, m: Message)
    requires SingleAttempt(c) && c.socket == Some(id)
    ensures var d := Step(c, Receives(id, m));
            && d.heartbeat.deadline == None && d.socket == c.socket && d.retryAt == c.retryAt && d.attemptId == c.attemptId
            && (m.ConnectedMessage? ==>
                  && d.status == Connected && FreshlyWindowed(d) && d.waitingForUser == c.waitingForUser && d.ending == c.ending
                  && d.heartbeat.supported == (m.heartbeat || c.heartbeat.supported)
                  && d.heartbeat.timer == if m.heartbeat then Some(id) else c.heartbeat.timer)
            && (m.ErrorMessage? ==>
                  d.status == Error && d.ending == Some(Error) && d.waitingForUser == (c.waitingForUser || m.fatal) && SameWindow(c, d))
            && (m.ClosedMessage? ==>
                  d.status == Closed && d.ending == Some(Closed) && d.waitingForUser == (c.waitingForUser || m.waits) && SameWindow(c, d))
            && (m.OtherMessage? ==> d == c.(heartbeat := c.heartbeat.(deadline := None)))
  {
  }

  /** A closed socket ends as the gateway said, else as a drop if it had opened, else as a failure. */
  lemma CloseDecides(c: Connection, id: nat, replaced: bool)
    requires SingleAttempt(c) && c.socket == Some(id)
    ensures var d := Step(c, SocketCloses(id, replaced));
            && d.heartbeat == Heartbeat(false, None, None)
            && Settled(c, d, c.waitingForUser || replaced,
                       if c.ending.Some? then c.ending.value else if replaced || c.reached then Closed else Error)
  {
  }

  lemma OpenIsNoted(c: Connection, id: nat)
    requires SingleAttempt(c) && c.socket == Some(id)
    ensures Step(c, SocketOpens(id)) == c.(reached := true)
  {
  }

  lemma DisposeStopsAll(c: Connection)
    requires SingleAttempt(c) && !c.disposed
    ensures var d := Step(c, Disposes);
            && d.disposed && d.socket == None && d.listening == {} && d.retryAt == None && d.heartbeat == Heartbeat(false, None, None)
            && d.status == c.status && d.attemptId == c.attemptId && d.tally == c.tally
  {
  }

  // ---- An announced shell ends the outage ----

  predicate ConnectedIsFresh(c: Connection) {
    c.status == Connected ==> FreshlyWindowed(c)
  }

  lemma StepConnectedIsFresh(c: Connection, e: Event)
    requires SingleAttempt(c) && EndingOk(c) && ConnectedIsFresh(c)
    ensures ConnectedIsFresh(Step(c, e))
  {
  }

  lemma {:induction false} RunConnectedIsFresh(c: Connection, es: seq<Event>)
    requires SingleAttempt(c) && EndingOk(c) && ConnectedIsFresh(c)
    ensures SingleAttempt(Run(c, es)) && EndingOk(Run(c, es)) && ConnectedIsFresh(Run(c, es))
    decreases |es|
  {
    hide SingleAttempt, EndingOk, ConnectedIsFresh, Step;
    if es != [] {
      StepSingle(c, es[0]);
      EndingStays(c, es[0]);
      StepConnectedIsFresh(c, es[0]);
      RunConnectedIsFresh(Step(c, es[0]), es[1..]);
    }
  }

  /**
   * In every run a connected terminal counts no outage; so when its socket drops, however long after the last outage,
   * it tries again one second later, unless the user has to decide.
   */
  lemma DropIsRetriedInEveryRun(es: seq<Event>, id: nat)
    ensures var c := Run(INITIAL, es);
            c.status == Connected ==>
              && FreshlyWindowed(c)
              && (c.socket == Some(id) && !c.waitingForUser ==>
                    var d := Step(c, SocketCloses(id, false));
                    d.retryAt == Some(c.clock + 1_000) && d.retryIndex == 1 && d.outageStartedAt == Some(c.clock) && d.status != Connected)
  {
    RunConnectedIsFresh(INITIAL, es);
    hide Run;
    var c := Run(INITIAL, es);
    if c.status == Connected && c.socket == Some(id) && !c.waitingForUser { CloseDecides(c, id, false); }
  }

  // ---- Bounded retries ----

  /** Everything but a connect, a wake, a heartbeat restart, a first start and the user. */
  predicate Unattended(e: Event) {
    match e
    case Start => false
    case Reconnect => false
    case Wake(_) => false
    case DeadlineFires => false
    case Receives(_, m) => !m.ConnectedMessage?
    case _ => true
  }

  /** The delays of the first `n` retries together. */
  function Delays(n: nat): nat {
    if n == 0 then 0 else Delays(n - 1) + Delay(n - 1)
  }

  lemma {:induction false} DelaysTable(n: nat)
    ensures n >= 3 ==> Delays(n) == 15_000 * (n - 3) + if n == 3 then 7_000 else 0
    ensures n < 3 ==> Delays(n) < 7_000
  {
    if n > 0 {
      DelaysTable(n - 1);
      assert Delay(0) == 1_000 && Delay(1) == 2_000 && Delay(2) == 4_000 && Delay(3) == 8_000;
      if n >= 5 { assert Delay(n - 1) == 15_000; }
    }
  }

  const MAX_RETRIES: nat := 15

  /** The retry after `n` scheduled ones is due no earlier than the delays so far allow. */
  ghost predicate Paced(c: Connection) {
    && c.retryIndex <= MAX_RETRIES
    && (c.outageStartedAt.Some? && !c.disposed ==>
          (if c.retryAt.Some? then c.retryAt.value else c.clock) >= c.outageStartedAt.value + Delays(c.retryIndex))
  }

  lemma SettlePaced(c: Connection, id: nat, status: Status)
    requires Paced(c) && c.retryAt.None? && (c.retryIndex == 0 <==> c.outageStartedAt.None?)
    ensures var d := Settle(c, id, status); Paced(d) && d.tally.scheduled - c.tally.scheduled == d.retryIndex - c.retryIndex
  {
    DelaysTable(c.retryIndex);
    DelaysTable(MAX_RETRIES);
    assert Delays(0) == 0;
  }

  lemma StepPaced(c: Connection, e: Event)
    requires SingleAttempt(c) && Paced(c) && Unattended(e)
    ensures Paced(Step(c, e)) && Step(c, e).tally.scheduled - c.tally.scheduled == Step(c, e).retryIndex - c.retryIndex
  {
    hide Settle, Delays;
    match e {
      case TokenSettles(id, token) =>
        if id in c.fetching && id == c.attemptId && !c.disposed {
          var c1 := c.(fetching := c.fetching - {id});
          SettlePaced(c1, id, Error);
          SettlePaced(c1.(waitingForUser := true), id, Error);
        }
      case SocketCloses(id, replaced) =>
        if id in c.listening {
          var c1 := Detached(c, id, replaced);
          SettlePaced(c1, id, Outcome(c1));
        }
      case _ =>
    }
  }

  lemma {:induction false} RunPaced(c: Connection, es: seq<Event>)
    requires SingleAttempt(c) && Paced(c) && forall i :: 0 <= i < |es| ==> Unattended(es[i])
    ensures Paced(Run(c, es)) && Run(c, es).tally.scheduled - c.tally.scheduled == Run(c, es).retryIndex - c.retryIndex
    decreases |es|
  {
    hide SingleAttempt, Paced, Step, Unattended;
    if es != [] {
      StepSingle(c, es[0]);
      StepPaced(c, es[0]);
      RunPaced(Step(c, es[0]), es[1..]);
    }
  }

  /**
   * From a connection without an outage, left to itself and whatever fails however often, at most
   * fifteen automatic attempts are ever scheduled.
   */
  lemma RetriesAreBounded(c: Connection, es: seq<Event>)
    requires SingleAttempt(c) && c.outageStartedAt == None
    requires forall i :: 0 <= i < |es| ==> Unattended(es[i])
    ensures Run(c, es).tally.scheduled <= c.tally.scheduled + MAX_RETRIES
  {
    RunPaced(c, es);
  }

  // ---- The bound is reached ----

  /** A retry is due at once-failing token requests: `n` were scheduled since the outage began at `start`. */
  ghost predicate Failing(c: Connection, n: nat, start: nat) {
    && SingleAttempt(c) && !c.disposed
    && c.retryIndex == n && c.outageStartedAt == Some(start) && c.retryAt == Some(c.clock + Delay(n - 1)) && n > 0
    && c.clock == start + Delays(n - 1)
  }

  function FailOnce(c: Connection, n: nat): seq<Event>
    requires n > 0
  {
    [TimePasses(Delay(n - 1)), RetryFires, TokenSettles(c.attemptId + 1, Failed)]
  }

  lemma FailsAgain(c: Connection, n: nat, start: nat)
    requires Failing(c, n, start) && n < MAX_RETRIES
    ensures var d := Run(c, FailOnce(c, n)); Failing(d, n + 1, start) && d.tally.scheduled == c.tally.scheduled + 1
    ensures forall i :: 0 <= i < 3 ==> Unattended(FailOnce(c, n)[i])
  {
    var es := FailOnce(c, n);
    var c1 := Step(c, es[0]);
    var c2 := Step(c1, es[1]);
    var c3 := Step(c2, es[2]);
    RunThree(c, es[0], es[1], es[2]);
    assert [es[0], es[1], es[2]] == es;
    RunSingle(c, es);
    hide Run, SingleAttempt;
    DelaysTable(n);
    assert c3.outageStartedAt == Some(start);
  }

  lemma RunThree(c: Connection, a: Event, b: Event, e: Event)
    ensures Run(c, [a, b, e]) == Step(Step(Step(c, a), b), e)
  {
    hide Step;
    assert [a, b, e][1..] == [b, e] && [b, e][1..] == [e] && [e][1..] == [];
    assert Run(Step(Step(c, a), b), [e]) == Run(Step(Step(Step(c, a), b), e), []);
    assert Run(Step(c, a), [b, e]) == Run(Step(Step(c, a), b), [e]);
  }

  lemma {:induction false} RunConcat(c: Connection, a: seq<Event>, b: seq<Event>)
    ensures Run(c, a + b) == Run(Run(c, a), b)
    decreases |a|
  {
    if a == [] {
      assert a + b == b;
    } else {
      assert (a + b)[0] == a[0] && (a + b)[1..] == a[1..] + b;
      RunConcat(Step(c, a[0]), a[1..], b);
    }
  }

  lemma {:induction false} FailsUntil(c: Connection, n: nat, start: nat) returns (es: seq<Event>)
    requires Failing(c, n, start) && n <= MAX_RETRIES
    ensures forall i :: 0 <= i < |es| ==> Unattended(es[i])
    ensures Run(c, es).tally.scheduled == c.tally.scheduled + (MAX_RETRIES - n)
    decreases MAX_RETRIES - n
  {
    if n == MAX_RETRIES {
      es := [];
    } else {
      FailsAgain(c, n, start);
      var d := Run(c, FailOnce(c, n));
      hide Failing, Run, Unattended;
      var rest := FailsUntil(d, n + 1, start);
      es := FailOnce(c, n) + rest;
      RunConcat(c, FailOnce(c, n), rest);
    }
  }

  /** A terminal whose token requests all fail at once does schedule fifteen attempts. */
  lemma FifteenRetriesHappen() returns (es: seq<Event>)
    ensures forall i :: 0 <= i < |es| ==> Unattended(es[i])
    ensures Run(Step(INITIAL, Start), es).tally.scheduled == MAX_RETRIES
  {
    var c := Step(INITIAL, Start);
    var fail := TokenSettles(1, Failed);
    var d := Step(c, fail);
    assert Run(d, []) == d;
    assert [fail][1..] == [];
    assert Run(c, [fail]) == d;
    RunSingle(INITIAL, [Start]);
    StepSingle(INITIAL, Start);
    StepSingle(c, fail);
    assert Failing(d, 1, 0);
    hide Run, Failing;
    var rest := FailsUntil(d, 1, 0);
    es := [fail] + rest;
    RunConcat(c, [fail], rest);
  }
}

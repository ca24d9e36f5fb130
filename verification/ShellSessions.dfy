/**
 * The gateway's shells and the registry of those a reconnect may continue. The functions say what
 * each operation does to one shell and to the registry; the classes do it in place.
 */
module ShellSessions {
  import opened Bytes
  import opened ShellHistory

  type ShellId = string
  type UserId = string
  type ConnId = nat

  const MAX_DETACHED_SESSIONS: nat := 32
  const MAX_DETACHED_PER_USER: nat := 4

  /** The part of a ShellSession that decides its life; `stream` says the remote shell is open. */
  datatype Shell = Shell(
    id: ShellId, userId: UserId, serverId: string, endpointHash: string, keepAlive: bool,
    stream: bool, attachment: Option<ConnId>, outputEnd: nat, detachedAt: Option<nat>,
    paused: bool, detachTimer: bool, ended: bool)

  datatype Registry = Registry(resumable: set<ShellId>, detached: set<ShellId>, byUser: map<UserId, nat>)

  function CountFor(byUser: map<UserId, nat>, user: UserId): nat {
    if user in byUser then byUser[user] else 0
  }

  function AdjustDetachedCount(byUser: map<UserId, nat>, user: UserId, delta: int): map<UserId, nat> {
    var next := CountFor(byUser, user) + delta;
    if next <= 0 then byUser - {user} else byUser[user := next]
  }

  predicate RoomLeft(r: Registry, user: UserId) {
    |r.detached| < MAX_DETACHED_SESSIONS && CountFor(r.byUser, user) < MAX_DETACHED_PER_USER
  }

  /** Without shell `id` among the detached ones; its user's count follows. */
  function Undetach(r: Registry, id: ShellId, user: UserId): Registry {
    if id in r.detached then
      r.(detached := r.detached - {id}, byUser := AdjustDetachedCount(r.byUser, user, -1))
    else r
  }

  function EndShell(r: Registry, s: Shell): (Registry, Shell) {
    if s.ended then (r, s) else
    var r1 := Undetach(r, s.id, s.userId);
    (r1.(resumable := r1.resumable - {s.id}), s.(ended := true, detachTimer := false, attachment := None))
  }

  function DetachShell(ttl: nat, r: Registry, s: Shell): (Registry, Shell) {
    var s1 := s.(attachment := None);
    if s1.ended then (r, s1)
    else if !s1.keepAlive || ttl == 0 || !s1.stream || !RoomLeft(r, s1.userId) then EndShell(r, s1)
    else
      var r1 := if s1.id in r.detached then r
                else r.(detached := r.detached + {s1.id}, byUser := AdjustDetachedCount(r.byUser, s1.userId, 1));
      (r1, s1.(detachedAt := Some(s1.outputEnd), paused := false, detachTimer := true))
  }

  predicate Claimable(r: Registry, s: Shell, user: UserId, server: string, endpoint: string) {
    s.id in r.resumable && !s.ended && s.userId == user && s.serverId == server && s.endpointHash == endpoint
  }

  function ClaimShell(r: Registry, s: Shell): (Registry, Shell) {
    (Undetach(r, s.id, s.userId), s.(attachment := None, detachTimer := false))
  }

  /** An authorized connection takes the shell; a resumed shell's output starts unpaused. */
  function AttachShell(r: Registry, s: Shell, c: ConnId, resumed: bool): (Registry, Shell) {
    (if s.keepAlive then r.(resumable := r.resumable + {s.id}) else r,
     s.(attachment := Some(c), detachedAt := None, paused := s.paused && !resumed))
  }

  class ShellSession {
    const id: ShellId
    const userId: UserId
    const serverId: string
    const endpointHash: string
    const keepAlive: bool
    var stream: bool
    var attachment: Option<ConnId>
    var history: seq<seq<byte>>
    var historyBytes: nat
    var historyStart: nat
    var outputEnd: nat
    var detachedAt: Option<nat>
    var paused: bool
    var streamPaused: bool  // what the stream was told last
    var detachTimer: bool
    var ended: bool
    ghost var output: seq<byte>  // all output, also what the history dropped

    /** What the history holds, and where it starts in the output. */
    ghost predicate HistoryMatches()
      reads this
    {
      && historyBytes == |Flatten(history)|
      && historyStart + historyBytes == outputEnd == |output|
      && Flatten(history) == output[historyStart..]
    }

    ghost predicate Valid()
      reads this
    {
      && outputEnd == |output|
      && historyBytes == |Flatten(history)|
      && (stream ==> streamPaused == paused)
      && (keepAlive && !ended ==> HistoryMatches() && historyStart == HistoryStart(|output|))
    }

    ghost function View(): Shell
      reads this
    {
      Shell(id, userId, serverId, endpointHash, keepAlive, stream, attachment, outputEnd, detachedAt, paused, detachTimer, ended)
    }

    constructor (id: ShellId, userId: UserId, serverId: string, endpointHash: string, keepAlive: bool)
      ensures Valid() && output == []
      ensures View() == Shell(id, userId, serverId, endpointHash, keepAlive, false, None, 0, None, false, false, false)
    {
      this.id, this.userId, this.serverId, this.endpointHash := id, userId, serverId, endpointHash;
      this.keepAlive := keepAlive;
      stream, attachment, detachedAt, paused, streamPaused, detachTimer, ended := false, None, None, false, false, false, false;
      history, historyBytes, historyStart, outputEnd, output := [], 0, 0, 0, [];
    }

    /** The oldest bytes leave until the history fits; a history that was cut stays full. */
    method TrimHistory()
      requires historyBytes == |Flatten(history)| && (!ended ==> HistoryMatches())
      requires !ended && historyStart > 0 ==> historyBytes >= OUTPUT_HISTORY_BYTES
      modifies this`history, this`historyBytes, this`historyStart
      ensures historyBytes == |Flatten(history)| && (!ended ==> HistoryMatches() && historyStart == HistoryStart(|output|))
    {
      while historyBytes > OUTPUT_HISTORY_BYTES
        invariant historyBytes == |Flatten(history)|
        invariant !ended ==> HistoryMatches()
        invariant !ended && historyStart > 0 ==> historyBytes >= OUTPUT_HISTORY_BYTES
        decreases historyBytes + |history|
      {
        var first := history[0];
        var excess := historyBytes - OUTPUT_HISTORY_BYTES;
        assert Flatten(history) == first + Flatten(history[1..]);
        if |first| <= excess {
          assert !ended ==> Flatten(history[1..]) == output[historyStart..][|first|..];
          history := history[1..];
          historyBytes := historyBytes - |first|;
          historyStart := historyStart + |first|;
        } else {
          ghost var rest := history[1..];
          assert !ended ==> first[excess..] + Flatten(rest) == output[historyStart..][excess..];
          history := history[0 := first[excess..]];
          assert history[1..] == rest;
          historyBytes := historyBytes - excess;
          historyStart := historyStart + excess;
        }
      }
    }

    /** The shell printed `data`: of a keep-alive shell the last OUTPUT_HISTORY_BYTES stay available. */
    method RecordShellOutput(data: seq<byte>)
      requires Valid()
      modifies this`history, this`historyBytes, this`historyStart, this`outputEnd, this`output
      ensures Valid()
      ensures output == old(output) + data
    {
      outputEnd := outputEnd + |data|;
      output := output + data;
      if !keepAlive { return; }
      FlattenSnoc(history, data);
      history := history + [data];
      historyBytes := historyBytes + |data|;
      TrimHistory();
    }

    /** The chunks yield the replay of the plain output. */
    method ShellReplay(offset: Option<nat>) returns (r: Replay)
      requires Valid() && keepAlive && !ended
      ensures r == ReplayOf(output, offset, detachedAt)
      ensures r.from <= |output| && r.data == output[r.from..]
      ensures var start := HistoryStart(|output|);
              r.truncated ==> start <= r.from && CleanCut(output[start..], r.from - start)
    {
      if ReplayOf(output, offset, detachedAt).truncated { TruncatedReplayIsClean(output, offset, detachedAt); }
      hide CleanCut;
      var plan := PlanShellReplay(historyStart, outputEnd, offset, detachedAt);
      if plan.from >= outputEnd { return Replay(outputEnd, [], false); }
      var data := Flatten(history)[plan.from - historyStart..];
      var from := plan.from;
      assert data == output[plan.from..];
      if plan.truncated {
        var cut := SafeReplayStart(data);
        assert data[cut..] == output[plan.from + cut..];
        data := data[cut..];
        from := from + cut;
      }
      r := Replay(from, data, plan.truncated);
    }

    /** The stream, once there is one, is paused or resumed when this changes, and only then. */
    method SetShellPaused(paused: bool)
      modifies this`paused, this`streamPaused
      ensures this.paused == paused
      ensures streamPaused == if stream && old(this.paused) != paused then paused else old(streamPaused)
    {
      if this.paused == paused { return; }
      this.paused := paused;
      if stream { streamPaused := paused; }
    }
  }

  class ShellRegistry {
    const detachTtlMs: nat
    var resumableSessions: map<ShellId, ShellSession>
    var detachedSessions: map<ShellId, ShellSession>
    var detachedSessionsByUser: map<UserId, nat>

    ghost function View(): Registry
      reads this
    {
      Registry(resumableSessions.Keys, detachedSessions.Keys, detachedSessionsByUser)
    }

    /** Every entry sits under its own shell's id. */
    ghost predicate Valid()
      reads this
    {
      && (forall id :: id in resumableSessions ==> resumableSessions[id].id == id)
      && (forall id :: id in detachedSessions ==> detachedSessions[id].id == id)
    }

    constructor (detachTtlMs: nat)
      ensures Valid() && this.detachTtlMs == detachTtlMs && View() == Registry({}, {}, map[])
    {
      this.detachTtlMs := detachTtlMs;
      resumableSessions, detachedSessions, detachedSessionsByUser := map[], map[], map[];
    }

    method DeleteDetached(session: ShellSession)
      requires Valid()
      modifies this`detachedSessions, this`detachedSessionsByUser
      ensures Valid() && View() == Undetach(old(View()), session.id, session.userId)
      ensures detachedSessions.Keys == old(detachedSessions.Keys) - {session.id}
      ensures forall u :: CountFor(detachedSessionsByUser, u) ==
                old(CountFor(detachedSessionsByUser, u)) - if session.id in old(detachedSessions) && u == session.userId
                                                              && old(CountFor(detachedSessionsByUser, u)) > 0 then 1 else 0
    {
      if session.id in detachedSessions {
        detachedSessions := detachedSessions - {session.id};
        detachedSessionsByUser := AdjustDetachedCount(detachedSessionsByUser, session.userId, -1);
      }
    }

    /** The shell leaves both maps for good; `notified` is the connection that was attached, when there is a notice. */
    method EndShellSession(session: ShellSession, notice: bool) returns (notified: Option<ConnId>)
      requires Valid() && session.Valid()
      modifies this, session
      ensures Valid() && session.Valid() && session.output == old(session.output)
      ensures (View(), session.View()) == EndShell(old(View()), old(session.View()))
      ensures session.ended
      ensures !old(session.ended) ==>
                && session.attachment == None && !session.detachTimer && session.history == []
                && session.id !in resumableSessions && session.id !in detachedSessions
      ensures notified == if notice && !old(session.ended) then old(session.attachment) else None
    {
      notified := None;
      if session.ended { return; }
      session.ended := true;
      session.detachTimer := false;
      DeleteDetached(session);
      resumableSessions := resumableSessions - {session.id};
      session.history := [];
      session.historyBytes := 0;
      if notice { notified := session.attachment; }
      session.attachment := None;
    }

    /** The shell is detached, counted once, unpaused, and marked with its output end; its TTL timer is armed. */
    method KeepDetached(session: ShellSession)
      requires Valid() && session.Valid()
      modifies this`detachedSessions, this`detachedSessionsByUser, session`detachedAt, session`paused, session`streamPaused, session`detachTimer
      ensures Valid() && session.Valid() && session.output == old(session.output)
      ensures View() == if session.id in old(detachedSessions) then old(View())
                        else old(View()).(detached := old(View()).detached + {session.id},
                                          byUser := AdjustDetachedCount(old(View()).byUser, session.userId, 1))
      ensures session.View() == old(session.View()).(detachedAt := Some(old(session.outputEnd)), paused := false, detachTimer := true)
    {
      session.detachedAt := Some(session.outputEnd);
      session.SetShellPaused(false);
      if session.id !in detachedSessions {
        detachedSessions := detachedSessions[session.id := session];
        assert detachedSessions.Keys == old(detachedSessions.Keys) + {session.id};
        detachedSessionsByUser := AdjustDetachedCount(detachedSessionsByUser, session.userId, 1);
      }
      session.detachTimer := true;
    }

    /** Detached if it is live, keep-alive, open, and there is room under both caps; ended otherwise. */
    method DetachShellSession(session: ShellSession)
      requires Valid() && session.Valid()
      modifies this, session
      ensures Valid() && session.Valid() && session.output == old(session.output)
      ensures (View(), session.View()) == DetachShell(detachTtlMs, old(View()), old(session.View()))
      ensures session.attachment == None
      ensures !old(session.ended) ==>
                if session.keepAlive && detachTtlMs > 0 && session.stream && |old(detachedSessions)| < 32
                   && CountFor(old(detachedSessionsByUser), session.userId) < 4
                then
                  && !session.ended && session.id in detachedSessions && session.detachTimer
                  && session.detachedAt == Some(session.outputEnd) && !session.paused && !session.streamPaused
                else session.ended && session.id !in detachedSessions && session.id !in resumableSessions
    {
      session.attachment := None;
      if session.ended { return; }
      var roomLeft := |detachedSessions| < MAX_DETACHED_SESSIONS
                      && CountFor(detachedSessionsByUser, session.userId) < MAX_DETACHED_PER_USER;
      assert |detachedSessions.Keys| == |detachedSessions|;
      if !session.keepAlive || detachTtlMs == 0 || !session.stream || !roomLeft {
        var _ := EndShellSession(session, false);
      } else {
        KeepDetached(session);
      }
    }

    /**
     * The resumable shell under `id`, if this user, server and endpoint may have it: then it is neither
     * attached nor detached. `replaced` is the connection it was attached to.
     */
    method ClaimShellSession(id: ShellId, userId: UserId, serverId: string, endpointHash: string)
      returns (session: ShellSession?, replaced: Option<ConnId>)
      requires Valid()
      modifies this, resumableSessions.Values
      ensures Valid()
      ensures session != null <==> id in old(resumableSessions)
                                   && Claimable(old(View()), old(resumableSessions[id].View()), userId, serverId, endpointHash)
      ensures session != null ==> session.id == id && session.userId == userId && session.serverId == serverId
                                  && session.endpointHash == endpointHash && !session.ended && session.attachment == None
      ensures id in old(resumableSessions) ==>
                var s := old(resumableSessions[id]);
                !old(resumableSessions[id].ended) && s.userId == userId && s.serverId == serverId && s.endpointHash == endpointHash
                ==> session == s
      ensures session == null ==> replaced == None && View() == old(View())
      ensures forall s :: s in old(resumableSessions.Values) && s != session ==> unchanged(s)
      ensures session != null ==>
                && session == old(resumableSessions[id])
                && replaced == old(resumableSessions[id].attachment)
                && (View(), session.View()) == ClaimShell(old(View()), old(resumableSessions[id].View()))
                && unchanged(session`history, session`historyBytes, session`historyStart, session`output)
                && id !in detachedSessions && !session.detachTimer && id in resumableSessions
    {
      session, replaced := null, None;
      if id !in resumableSessions { return; }
      var s := resumableSessions[id];
      if s.ended || s.userId != userId || s.serverId != serverId || s.endpointHash != endpointHash { return; }
      session := s;
      replaced := s.attachment;
      s.attachment := None;
      DeleteDetached(s);
      s.detachTimer := false;
    }

    /** The shell is attached to `c`, has no detach point, and is resumable if it is keep-alive. */
    method AttachShellSession(session: ShellSession, c: ConnId, resumed: bool)
      requires Valid() && session.Valid()
      modifies this, session
      ensures Valid() && session.Valid() && session.output == old(session.output)
      ensures (View(), session.View()) == AttachShell(old(View()), old(session.View()), c, resumed)
      ensures session.attachment == Some(c) && session.detachedAt == None
      ensures session.paused == (old(session.paused) && !resumed)
      ensures resumableSessions.Keys == old(resumableSessions.Keys) + (if session.keepAlive then {session.id} else {})
    {
      session.attachment := Some(c);
      session.detachedAt := None;
      if session.keepAlive { resumableSessions := resumableSessions[session.id := session]; }
      assert View().resumable == AttachShell(old(View()), old(session.View()), c, resumed).0.resumable;
      if resumed { session.SetShellPaused(false); }
    }
  }
}

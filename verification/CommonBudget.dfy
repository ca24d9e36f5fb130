/**
 * All connections of the gateway at once: what is pending on one counts against the common limit that
 * the next message of every other one is measured by.
 */
module CommonBudget {
  import opened Bytes
  import B = InputBudget

  const TERMINAL_CAPACITY: nat := 64

  /** Three times the bytes that a window of input can have pending. */
  const WINDOW_COST: nat := 4 * B.INPUT_WINDOW_BYTES + 152 * B.INPUT_WINDOW_CHUNKS

  /** One connection in each place. A connection that was dropped keeps its place until nothing of it is pending. */
  type Places = seq<B.Traffic>

  datatype Event = At(i: nat, e: B.Event) | Arrives(i: nat) | Reopens(i: nat)

  function PendingBytes(ts: Places): nat {
    if ts == [] then 0 else B.TotalMessageBytes(ts[0].pending) + PendingBytes(ts[1..])
  }

  function Others(ts: Places, i: nat): nat
    requires i < |ts|
  {
    PendingBytes(ts[..i]) + PendingBytes(ts[i + 1..])
  }

  predicate Sound(ts: Places) {
    forall i :: 0 <= i < |ts| ==> ts[i].released <= |ts[i].chunks|
  }

  /** `Arrives`: a message reaches the gateway, which measures it against what is pending everywhere. */
  function Step(ts: Places, e: Event): (r: Places)
    requires Sound(ts)
    ensures Sound(r) && |r| == |ts|
  {
    match e
    case At(i, be) => if i < |ts| && !be.MessageArrives? then ts[i := B.Step(ts[i], be)] else ts
    case Arrives(i) => if i < |ts| then ts[i := B.Step(ts[i], B.MessageArrives(Others(ts, i)))] else ts
    case Reopens(i) => if i < |ts| && ts[i].pending == [] then ts[i := B.QUIET] else ts
  }

  function Run(ts: Places, es: seq<Event>): (r: Places)
    requires Sound(ts)
    ensures Sound(r) && |r| == |ts|
    decreases |es|
  {
    if es == [] then ts else Run(Step(ts, es[0]), es[1..])
  }

  function Quiet(k: nat): (ts: Places)
    ensures |ts| == k && forall i :: 0 <= i < k ==> ts[i] == B.QUIET
  {
    seq(k, _ => B.QUIET)
  }

  function Timeouts(ts: Places): nat {
    if ts == [] then 0 else ts[0].timeouts + Timeouts(ts[1..])
  }

  /**
   * Every connection had at most `n` ack timeouts and has at most `resizes` resizes under way, and
   * together the connections had at most `total` timeouts.
   */
  predicate Calm(ts: Places, n: nat, total: nat, resizes: nat) {
    && (forall i :: 0 <= i < |ts| ==> ts[i].timeouts <= n && B.Resizes(ts[i].pending) + B.Resizes(ts[i].up) <= resizes)
    && Timeouts(ts) <= total
  }

  predicate CalmRun(ts: Places, es: seq<Event>, n: nat, total: nat, resizes: nat)
    requires Sound(ts)
    decreases |es|
  {
    Calm(ts, n, total, resizes) && (es != [] ==> CalmRun(Step(ts, es[0]), es[1..], n, total, resizes))
  }

  predicate NoneRefused(ts: Places) {
    forall i :: 0 <= i < |ts| ==> !ts[i].refused
  }

  ghost predicate AllFit(ts: Places) {
    forall i :: 0 <= i < |ts| ==> B.Fits(ts[i])
  }

  lemma AllFitSound(ts: Places)
    requires AllFit(ts)
    ensures Sound(ts)
  {
  }

  lemma FitsSet(ts: Places, i: nat, t: B.Traffic)
    requires AllFit(ts) && i < |ts|
    ensures B.Fits(ts[i]) && (B.Fits(t) ==> AllFit(ts[i := t]))
  {
    hide B.Fits;
  }

  lemma StepFits(ts: Places, e: Event)
    requires AllFit(ts)
    ensures Sound(ts) && AllFit(Step(ts, e))
  {
    hide B.Fits, B.Step, AllFit, Others, PendingBytes;
    AllFitSound(ts);
    if e.i < |ts| {
      var i, t := e.i, ts[e.i];
      FitsSet(ts, i, B.QUIET);
      B.QuietFits();
      if e.At? && !e.e.MessageArrives? {
        B.StepFits(t, e.e);
        FitsSet(ts, i, B.Step(t, e.e));
      } else if e.Arrives? {
        B.StepFits(t, B.MessageArrives(Others(ts, i)));
        FitsSet(ts, i, B.Step(t, B.MessageArrives(Others(ts, i))));
      }
    }
  }

  lemma QuietFits(k: nat)
    ensures AllFit(Quiet(k)) && NoneRefused(Quiet(k)) && forall n, total, resizes :: Calm(Quiet(k), n, total, resizes)
  {
    B.QuietFits();
    QuietTimeouts(k);
  }

  lemma {:induction false} QuietTimeouts(k: nat)
    ensures Timeouts(Quiet(k)) == 0
  {
    if k > 0 {
      QuietTimeouts(k - 1);
      assert Quiet(k)[1..] == Quiet(k - 1);
    }
  }

  // ---- Sums over the places ----

  lemma {:induction false} PendingSplit(ts: Places, i: nat)
    requires i < |ts|
    ensures PendingBytes(ts) == Others(ts, i) + B.TotalMessageBytes(ts[i].pending)
  {
    if i == 0 {
      assert ts[..0] == [];
    } else {
      PendingSplit(ts[1..], i - 1);
      assert ts[1..][..i - 1] == ts[..i][1..] && ts[1..][i..] == ts[i + 1..];
    }
  }

  lemma OthersStay(ts: Places, i: nat, t: B.Traffic)
    requires i < |ts|
    ensures Others(ts[i := t], i) == Others(ts, i)
  {
    assert ts[i := t][..i] == ts[..i] && ts[i := t][i + 1..] == ts[i + 1..];
  }

  lemma PendingSet(ts: Places, i: nat, t: B.Traffic)
    requires i < |ts|
    ensures PendingBytes(ts[i := t]) == Others(ts, i) + B.TotalMessageBytes(t.pending)
  {
    OthersStay(ts, i, t);
    PendingSplit(ts[i := t], i);
  }

  lemma {:induction false} TimeoutsSet(ts: Places, i: nat, t: B.Traffic)
    requires i < |ts|
    ensures Timeouts(ts[i := t]) == Timeouts(ts) - ts[i].timeouts + t.timeouts
  {
    if i > 0 {
      TimeoutsSet(ts[1..], i - 1, t);
      assert ts[i := t][1..] == ts[1..][i - 1 := t];
    } else {
      assert ts[i := t][1..] == ts[1..];
    }
  }

  // ---- The gateway's limits hold in every run ----

  predicate WithinLimits(ts: Places) {
    && (forall i :: 0 <= i < |ts| ==>
          |ts[i].pending| <= B.MAX_PENDING_MESSAGES && B.TotalMessageBytes(ts[i].pending) <= B.MAX_PENDING_BYTES)
    && PendingBytes(ts) <= B.MAX_TOTAL_PENDING_BYTES
  }

  lemma TotalWithout(ms: seq<B.Message>, i: nat)
    requires i < |ms|
    ensures B.TotalMessageBytes(B.Without(ms, i)) <= B.TotalMessageBytes(ms)
  {
    hide B.MessageBytes, B.TotalMessageBytes;
    assert ms == ms[..i] + ([ms[i]] + ms[i + 1..]);
    B.TotalConcat(ms[..i], [ms[i]] + ms[i + 1..]);
    B.TotalConcat([ms[i]], ms[i + 1..]);
    B.TotalConcat(ms[..i], ms[i + 1..]);
  }

  /** Only an arrival adds to what is pending, and it stays within the limits it was measured by. */
  lemma PendingAfter(t: B.Traffic, e: B.Event)
    requires t.released <= |t.chunks|
    ensures var u := B.Step(t, e);
            var m, k := B.TotalMessageBytes(t.pending), B.TotalMessageBytes(u.pending);
            || (|u.pending| <= |t.pending| && k <= m)
            || (e.MessageArrives? && |u.pending| <= B.MAX_PENDING_MESSAGES && k <= B.MAX_PENDING_BYTES
                && e.others + k <= B.MAX_TOTAL_PENDING_BYTES)
  {
    hide B.MessageBytes, B.TotalMessageBytes;
    match e {
      case MessageArrives(others) => if t.up != [] { B.TotalSnoc(t.pending, t.up[0]); }
      case InputWritten => if B.FirstInput(t.pending).Some? { TotalWithout(t.pending, B.FirstInput(t.pending).value); }
      case ResizeDone(i) => if i < |t.pending| { TotalWithout(t.pending, i); }
      case _ =>
    }
  }

  lemma StepWithinLimits(ts: Places, e: Event)
    requires Sound(ts) && WithinLimits(ts)
    ensures WithinLimits(Step(ts, e))
  {
    hide B.TotalMessageBytes, PendingBytes, Others, B.Step;
    if e.i < |ts| {
      PendingSplit(ts, e.i);
      PendingSet(ts, e.i, Step(ts, e)[e.i]);
      match e {
        case At(i, be) => PendingAfter(ts[i], be);
        case Arrives(i) => PendingAfter(ts[i], B.MessageArrives(Others(ts, i)));
        case Reopens(i) => if ts[i].pending == [] { assert B.QUIET.pending == ts[i].pending; }
      }
    }
  }

  lemma {:induction false} RunWithinLimits(ts: Places, es: seq<Event>)
    requires Sound(ts) && WithinLimits(ts)
    ensures WithinLimits(Run(ts, es))
    decreases |es|
  {
    hide WithinLimits, Step;
    if es != [] {
      StepWithinLimits(ts, es[0]);
      RunWithinLimits(Step(ts, es[0]), es[1..]);
    }
  }

  lemma {:induction false} QuietPending(k: nat)
    ensures PendingBytes(Quiet(k)) == 0
  {
    if k > 0 {
      QuietPending(k - 1);
      assert Quiet(k)[1..] == Quiet(k - 1);
    }
  }

  /** In every run, with whatever the browsers send: no connection holds more than its limits, all together no more than theirs. */
  lemma LimitsHoldInEveryRun(k: nat, es: seq<Event>)
    ensures WithinLimits(Run(Quiet(k), es))
  {
    QuietPending(k);
    RunWithinLimits(Quiet(k), es);
  }

  lemma {:induction false} PendingAtMost(ts: Places)
    requires forall i :: 0 <= i < |ts| ==> B.TotalMessageBytes(ts[i].pending) <= B.MAX_PENDING_BYTES
    ensures PendingBytes(ts) <= |ts| * B.MAX_PENDING_BYTES
  {
    hide B.TotalMessageBytes;
    if ts != [] { PendingAtMost(ts[1..]); }
  }

  /** Up to 31 other connections always leave a connection its own share of the common limit. */
  lemma OthersLeaveRoom(k: nat, es: seq<Event>, i: nat)
    requires i < k <= 32
    ensures Others(Run(Quiet(k), es), i) + B.MAX_PENDING_BYTES <= B.MAX_TOTAL_PENDING_BYTES
  {
    LimitsHoldInEveryRun(k, es);
    FewOthers(Run(Quiet(k), es), i);
  }

  lemma FewOthers(ts: Places, i: nat)
    requires WithinLimits(ts) && i < |ts| <= 32
    ensures Others(ts, i) + B.MAX_PENDING_BYTES <= B.MAX_TOTAL_PENDING_BYTES
  {
    hide PendingBytes, B.TotalMessageBytes;
    PendingAtMost(ts[..i]);
    PendingAtMost(ts[i + 1..]);
    assert |ts[..i]| * B.MAX_PENDING_BYTES + |ts[i + 1..]| * B.MAX_PENDING_BYTES == (|ts| - 1) * B.MAX_PENDING_BYTES;
  }

  // ---- Calm runs are never refused ----

  /** What that many windows and resizes may cost fits the limits. */
  predicate Affordable(k: nat, n: nat, total: nat, resizes: nat) {
    && n <= 1 && resizes + B.INPUT_WINDOW_CHUNKS * (n + 1) <= B.MAX_PENDING_MESSAGES
    && WINDOW_COST * (k + total) + 120 * (resizes * k) <= 3 * B.MAX_TOTAL_PENDING_BYTES
  }

  lemma OneCost(t: B.Traffic, resizes: nat)
    requires B.Fits(t) && B.Resizes(t.pending) + B.Resizes(t.up) <= resizes
    ensures 3 * B.TotalMessageBytes(t.pending) <= WINDOW_COST * (t.timeouts + 1) + 120 * resizes
  {
    hide B.MessageBytes, B.Inputs, B.InputBytes, B.Resizes, B.TotalMessageBytes, B.Numbered;
    B.UnwrittenBound(t);
    B.TotalBound(t.pending);
  }

  lemma {:induction false} PendingCost(ts: Places, resizes: nat)
    requires AllFit(ts) && forall i :: 0 <= i < |ts| ==> B.Resizes(ts[i].pending) + B.Resizes(ts[i].up) <= resizes
    ensures 3 * PendingBytes(ts) <= WINDOW_COST * (|ts| + Timeouts(ts)) + 120 * (resizes * |ts|)
  {
    hide B.Resizes, B.TotalMessageBytes, B.Fits;
    if ts != [] {
      OneCost(ts[0], resizes);
      PendingCost(ts[1..], resizes);
      assert resizes * |ts| == resizes * |ts[1..]| + resizes;
    }
  }

  lemma {:induction false} TimeoutsSplit(ts: Places, i: nat)
    requires i < |ts|
    ensures Timeouts(ts) == Timeouts(ts[..i]) + ts[i].timeouts + Timeouts(ts[i + 1..])
  {
    if i == 0 {
      assert ts[..0] == [];
    } else {
      TimeoutsSplit(ts[1..], i - 1);
      assert ts[1..][..i - 1] == ts[..i][1..] && ts[1..][i..] == ts[i + 1..];
    }
  }

  lemma OthersCost(ts: Places, i: nat, resizes: nat)
    requires i < |ts| && AllFit(ts) && forall j :: 0 <= j < |ts| ==> B.Resizes(ts[j].pending) + B.Resizes(ts[j].up) <= resizes
    ensures 3 * Others(ts, i) <= WINDOW_COST * (|ts| - 1 + Timeouts(ts) - ts[i].timeouts) + 120 * (resizes * (|ts| - 1))
  {
    hide B.Resizes, B.Fits, PendingBytes, Timeouts;
    var a, b := ts[..i], ts[i + 1..];
    PendingCost(a, resizes);
    PendingCost(b, resizes);
    TimeoutsSplit(ts, i);
    assert resizes * |a| + resizes * |b| == resizes * (|ts| - 1);
  }

  lemma NextResizes(t: B.Traffic)
    requires t.up != []
    ensures B.Resizes(t.pending + [t.up[0]]) <= B.Resizes(t.pending) + B.Resizes(t.up)
  {
    hide B.Resizes, B.Inputs, B.InputBytes;
    assert t.up == [t.up[0]] + t.up[1..];
    B.InputsConcat([t.up[0]], t.up[1..]);
    B.InputsConcat(t.pending, [t.up[0]]);
  }

  lemma NextMessageAccepted(ts: Places, i: nat, n: nat, total: nat, resizes: nat)
    requires i < |ts| && AllFit(ts) && Calm(ts, n, total, resizes) && Affordable(|ts|, n, total, resizes) && ts[i].up != []
    ensures !B.QueueFull(ts[i].pending, ts[i].up[0], Others(ts, i)) && B.MessageBytes(ts[i].up[0]) <= B.MAX_MESSAGE_BYTES
  {
    hide B.Resizes, B.Fits, Others, Timeouts, B.MessageBytes, B.TotalMessageBytes;
    var t := ts[i];
    B.NextMessageBound(t);
    NextResizes(t);
    OthersCost(ts, i, resizes);
    assert resizes * (|ts| - 1) + resizes == resizes * |ts|;
    assert WINDOW_COST * (|ts| - 1 + Timeouts(ts) - t.timeouts) + WINDOW_COST * (t.timeouts + 1) == WINDOW_COST * (|ts| + Timeouts(ts));
  }

  /**
   * Whatever happened before: while the connections are calm and the gateway can afford them, it refuses
   * no connection's next message, by its slots, its own bytes or the common ones.
   */
  lemma WindowNeverTripsLimits(k: nat, es: seq<Event>, i: nat, n: nat, total: nat, resizes: nat)
    requires i < k && Affordable(k, n, total, resizes)
    ensures var ts := Run(Quiet(k), es);
            Calm(ts, n, total, resizes) && ts[i].up != []
            ==> !B.QueueFull(ts[i].pending, ts[i].up[0], Others(ts, i)) && B.MessageBytes(ts[i].up[0]) <= B.MAX_MESSAGE_BYTES
  {
    QuietFits(k);
    RunFits(Quiet(k), es);
    hide Run, Calm, AllFit, Affordable;
    var ts := Run(Quiet(k), es);
    if Calm(ts, n, total, resizes) && ts[i].up != [] { NextMessageAccepted(ts, i, n, total, resizes); }
  }

  lemma {:induction false} RunFits(ts: Places, es: seq<Event>)
    requires AllFit(ts)
    ensures Sound(ts) && AllFit(Run(ts, es))
    decreases |es|
  {
    AllFitSound(ts);
    hide AllFit, Step;
    if es != [] {
      StepFits(ts, es[0]);
      RunFits(Step(ts, es[0]), es[1..]);
    }
  }

  lemma StepNotRefused(ts: Places, e: Event, n: nat, total: nat, resizes: nat)
    requires AllFit(ts) && Sound(ts) && Calm(ts, n, total, resizes) && Affordable(|ts|, n, total, resizes) && NoneRefused(ts)
    ensures NoneRefused(Step(ts, e))
  {
    if e.Arrives? && e.i < |ts| && ts[e.i].up != [] { NextMessageAccepted(ts, e.i, n, total, resizes); }
    hide AllFit, Calm, Affordable, B.QueueFull, Others;
  }

  lemma {:induction false} RunNotRefused(ts: Places, es: seq<Event>, n: nat, total: nat, resizes: nat)
    requires AllFit(ts) && Sound(ts) && CalmRun(ts, es, n, total, resizes) && Affordable(|ts|, n, total, resizes) && NoneRefused(ts)
    ensures NoneRefused(Run(ts, es))
    decreases |es|
  {
    hide AllFit, Sound, Calm, Affordable, NoneRefused, Step;
    if es != [] {
      StepFits(ts, es[0]);
      StepNotRefused(ts, es[0], n, total, resizes);
      RunNotRefused(Step(ts, es[0]), es[1..], n, total, resizes);
    }
  }

  // ---- A run of one connection, in its place ----

  function Placed(es: seq<B.Event>, i: nat): (r: seq<Event>)
    ensures |r| == |es|
  {
    seq(|es|, j requires 0 <= j < |es| => if es[j].MessageArrives? then Arrives(i) else At(i, es[j]))
  }

  /** The other places are calm, and with this one's `timeouts` there are at most `total`. */
  predicate OthersCalm(ts: Places, i: nat, timeouts: nat, n: nat, total: nat, resizes: nat)
    requires i < |ts|
  {
    && (forall j :: 0 <= j < |ts| && j != i ==> ts[j].timeouts <= n && B.Resizes(ts[j].pending) + B.Resizes(ts[j].up) <= resizes)
    && Timeouts(ts) - ts[i].timeouts + timeouts <= total
  }

  lemma OthersCalmIsCalm(ts: Places, i: nat, timeouts: nat, n: nat, total: nat, resizes: nat)
    requires i < |ts| && OthersCalm(ts, i, timeouts, n, total, resizes)
    requires ts[i].timeouts <= timeouts <= n && B.Resizes(ts[i].pending) + B.Resizes(ts[i].up) <= resizes
    ensures Calm(ts, n, total, resizes)
  {
  }

  lemma OthersCalmStay(ts: Places, i: nat, t: B.Traffic, timeouts: nat, n: nat, total: nat, resizes: nat)
    requires i < |ts| && OthersCalm(ts, i, timeouts, n, total, resizes)
    ensures OthersCalm(ts[i := t], i, timeouts, n, total, resizes)
  {
    TimeoutsSet(ts, i, t);
  }

  lemma {:induction false} PlacedRun(ts: Places, i: nat, es: seq<B.Event>, n: nat, total: nat, resizes: nat)
    requires i < |ts| && AllFit(ts) && Sound(ts)
    requires forall j :: 0 <= j < |es| && es[j].MessageArrives? ==> es[j].others == Others(ts, i)
    requires B.Run(ts[i], es).timeouts <= n && OthersCalm(ts, i, B.Run(ts[i], es).timeouts, n, total, resizes)
    requires B.Resizes(ts[i].pending) + B.Resizes(ts[i].up) + B.ResizesSent(es) <= resizes
    ensures Run(ts, Placed(es, i)) == ts[i := B.Run(ts[i], es)] && CalmRun(ts, Placed(es, i), n, total, resizes)
    decreases |es|
  {
    hide AllFit, Calm, OthersCalm, B.Fits, B.Resizes, Others, B.Step;
    FitsSet(ts, i, ts[i]);
    var end := B.Run(ts[i], es);
    B.TimeoutsGrow(ts[i], es);
    OthersCalmIsCalm(ts, i, end.timeouts, n, total, resizes);
    if es == [] {
      assert ts[i := end] == ts;
    } else {
      var u := B.Step(ts[i], es[0]);
      var us := ts[i := u];
      assert Step(ts, Placed(es, i)[0]) == us;
      assert Placed(es, i)[1..] == Placed(es[1..], i);
      B.ResizesLeft(ts[i], es[0]);
      OthersStay(ts, i, u);
      OthersCalmStay(ts, i, u, end.timeouts, n, total, resizes);
      StepFits(ts, Placed(es, i)[0]);
      PlacedRun(us, i, es[1..], n, total, resizes);
      assert us[i := end] == ts[i := end];
    }
  }

  /** A connection that is alone makes its own runs. */
  lemma AloneRun(k: nat, es: seq<B.Event>, n: nat, total: nat, resizes: nat)
    requires k > 0 && B.Alone(es) && B.ResizesSent(es) <= resizes
    requires B.Run(B.QUIET, es).timeouts <= n && B.Run(B.QUIET, es).timeouts <= total
    ensures CalmRun(Quiet(k), Placed(es, 0), n, total, resizes)
    ensures B.Run(B.QUIET, es).refused ==> !NoneRefused(Run(Quiet(k), Placed(es, 0)))
  {
    QuietFits(k);
    QuietTimeouts(k);
    NothingElsewhere(k, 0);
    hide B.Run, Run, B.ResizesSent;
    PlacedRun(Quiet(k), 0, es, n, total, resizes);
    assert Run(Quiet(k), Placed(es, 0))[0] == B.Run(B.QUIET, es);
  }

  lemma NothingElsewhere(k: nat, i: nat)
    requires i < k
    ensures Others(Quiet(k), i) == 0
  {
    QuietPending(k);
    PendingSplit(Quiet(k), i);
  }

  // ---- Full windows on every connection ----

  /** One full window, and another one after an ack timeout, arrive while `others` bytes are pending elsewhere. */
  function FullWindows(timeouts: nat, others: nat): seq<B.Event> {
    B.WindowsOf(B.FULL_WINDOW, timeouts) + B.Repeat(B.MessageArrives(others), 6 * (timeouts + 1))
  }

  lemma {:induction false} WindowsBringNoArrivals(sizes: seq<nat>, n: nat)
    ensures forall e :: e in B.WindowsOf(sizes, n) ==> !e.MessageArrives?
  {
    if n > 0 { WindowsBringNoArrivals(sizes, n - 1); }
  }

  lemma FullWindowsQuiet(timeouts: nat, others: nat)
    ensures var es := FullWindows(timeouts, others);
            B.ResizesSent(es) == 0 && forall j :: 0 <= j < |es| && es[j].MessageArrives? ==> es[j].others == others
  {
    B.WindowsQuiet(B.FULL_WINDOW, timeouts);
    WindowsBringNoArrivals(B.FULL_WINDOW, timeouts);
    var arrivals := B.Repeat(B.MessageArrives(others), 6 * (timeouts + 1));
    B.NoResizes(arrivals);
    hide B.WindowsOf, B.ResizesSent;
    B.ResizesSentConcat(B.WindowsOf(B.FULL_WINDOW, timeouts), arrivals);
  }

  /** At least three times the bytes of a full window. */
  const FULL_COST: nat := 4 * B.INPUT_WINDOW_BYTES + 6

  lemma WindowsSent(sizes: seq<nat>, timeouts: nat)
    requires |sizes| == 6 && Sum(sizes) == B.INPUT_WINDOW_BYTES && timeouts <= 1
    requires forall i :: 0 <= i < |sizes| ==> 0 < sizes[i] <= B.MAX_CHUNK_BYTES
    ensures var t := B.Run(B.QUIET, B.WindowsOf(sizes, timeouts));
            && B.Fits(t) && t.released <= |t.chunks| && t.timeouts == timeouts && !t.refused && t.pending == []
            && |t.up| == 6 * (timeouts + 1) && B.InputBytes(t.up) == B.INPUT_WINDOW_BYTES * (timeouts + 1)
  {
    hide B.Fits, B.Run, B.WindowsOf, B.InputBytes, Sum, B.Times, B.Numbered;
    B.Flood(sizes, timeouts);
    var t := B.Run(B.QUIET, B.WindowsOf(sizes, timeouts));
    B.FitsReleased(t);
    B.InputBytesOfNumbered(t.chunks, 0);
    B.SumTimes(sizes, timeouts + 1);
    assert t.chunks[0..] == t.chunks;
  }

  lemma FullWindowsArrive(timeouts: nat, others: nat)
    requires timeouts <= 1
    ensures var t := B.Run(B.QUIET, FullWindows(timeouts, others));
            && t.timeouts == timeouts
            && (t.refused || 3 * B.TotalMessageBytes(t.pending) >= FULL_COST * (timeouts + 1))
  {
    hide B.Fits, B.Run, B.Step, B.WindowsOf, B.TotalMessageBytes, B.InputBytes, B.Repeat;
    B.FullSum();
    WindowsSent(B.FULL_WINDOW, timeouts);
    B.QuietFits();
    var es := B.WindowsOf(B.FULL_WINDOW, timeouts);
    var t := B.Run(B.QUIET, es);
    B.RunConcat(B.QUIET, es, B.Repeat(B.MessageArrives(others), 6 * (timeouts + 1)));
    B.TotalLower(t.up);
    B.ArriveOrRefuse(t, |t.up|, others);
    B.ArrivalsKeepTimeouts(t, |t.up|, others);
    assert [] + t.up[..|t.up|] == t.up;
  }

  /** The first `j` places have their full windows pending, the first `total` of them two; nothing happened elsewhere. */
  predicate Filled(ts: Places, j: nat, total: nat) {
    && j <= |ts| && Timeouts(ts) == Min(j, total)
    && (forall i :: 0 <= i < j ==>
          && 3 * B.TotalMessageBytes(ts[i].pending) >= FULL_COST * (ts[i].timeouts + 1)
          && ts[i].timeouts <= 1 && B.Resizes(ts[i].pending) + B.Resizes(ts[i].up) == 0)
    && (forall i :: j <= i < |ts| ==> ts[i] == B.QUIET)
  }

  lemma FilledMore(ts: Places, j: nat, total: nat, t: B.Traffic)
    requires j < |ts| && Filled(ts, j, total)
    requires t.timeouts == (if j < total then 1 else 0) && B.Resizes(t.pending) + B.Resizes(t.up) == 0
    requires t.refused || 3 * B.TotalMessageBytes(t.pending) >= FULL_COST * (t.timeouts + 1)
    ensures NoneRefused(ts[j := t]) ==> Filled(ts[j := t], j + 1, total)
  {
    TimeoutsSet(ts, j, t);
    hide B.TotalMessageBytes, Timeouts, B.Resizes;
    if NoneRefused(ts[j := t]) { assert !ts[j := t][j].refused; }
  }

  lemma QuietPlace(ts: Places, j: nat, total: nat)
    requires j < |ts| && Filled(ts, j, total)
    ensures ts[j] == B.QUIET && B.Resizes(ts[j].pending) + B.Resizes(ts[j].up) == 0
  {
  }

  lemma FilledIsCalm(ts: Places, j: nat, total: nat)
    requires j < |ts| && Filled(ts, j, total)
    ensures OthersCalm(ts, j, if j < total then 1 else 0, 1, total, 0)
  {
    hide B.TotalMessageBytes, Timeouts;
  }

  lemma FullWindowsLeaveNoResize(timeouts: nat, others: nat)
    ensures var t := B.Run(B.QUIET, FullWindows(timeouts, others)); B.Resizes(t.pending) + B.Resizes(t.up) == 0
  {
    FullWindowsQuiet(timeouts, others);
    B.QuietFits();
    assert B.Resizes([]) == 0;
    hide B.Run, FullWindows, B.ResizesSent, B.Fits, B.Resizes;
    RunResizes(B.QUIET, FullWindows(timeouts, others));
  }

  lemma FillOne(ts: Places, j: nat, total: nat) returns (es: seq<Event>)
    requires AllFit(ts) && Sound(ts) && j < |ts| && Filled(ts, j, total)
    ensures CalmRun(ts, es, 1, total, 0) && (NoneRefused(Run(ts, es)) ==> Filled(Run(ts, es), j + 1, total))
  {
    hide *;
    var timeouts := if j < total then 1 else 0;
    var own := FullWindows(timeouts, Others(ts, j));
    es := Placed(own, j);
    QuietPlace(ts, j, total);
    FilledIsCalm(ts, j, total);
    FullWindowsQuiet(timeouts, Others(ts, j));
    FullWindowsArrive(timeouts, Others(ts, j));
    FullWindowsLeaveNoResize(timeouts, Others(ts, j));
    PlacedRun(ts, j, own, 1, total, 0);
    B.QuietFits();
    B.FitsReleased(B.QUIET);
    FilledMore(ts, j, total, B.Run(B.QUIET, own));
  }

  lemma {:induction false} RunResizes(t: B.Traffic, es: seq<B.Event>)
    requires B.Fits(t)
    ensures var u := B.Run(t, es); B.Resizes(u.pending) + B.Resizes(u.up) <= B.Resizes(t.pending) + B.Resizes(t.up) + B.ResizesSent(es)
    decreases |es|
  {
    hide B.Fits, B.Step, B.Resizes;
    if es != [] {
      B.FitsReleased(t);
      B.StepFits(t, es[0]);
      B.ResizesLeft(t, es[0]);
      RunResizes(B.Step(t, es[0]), es[1..]);
    }
  }

  lemma {:induction false} CalmConcat(ts: Places, a: seq<Event>, b: seq<Event>, n: nat, total: nat, resizes: nat)
    requires Sound(ts) && CalmRun(ts, a, n, total, resizes) && CalmRun(Run(ts, a), b, n, total, resizes)
    ensures Run(ts, a + b) == Run(Run(ts, a), b) && CalmRun(ts, a + b, n, total, resizes)
    decreases |a|
  {
    hide Calm, Step, Sound;
    if a == [] {
      assert a + b == b;
    } else {
      assert (a + b)[0] == a[0] && (a + b)[1..] == a[1..] + b;
      CalmConcat(Step(ts, a[0]), a[1..], b, n, total, resizes);
    }
  }

  lemma {:induction false} Fill(k: nat, j: nat, total: nat) returns (es: seq<Event>)
    requires j <= k
    ensures CalmRun(Quiet(k), es, 1, total, 0)
    ensures NoneRefused(Run(Quiet(k), es)) ==> Filled(Run(Quiet(k), es), j, total)
  {
    QuietFits(k);
    if j == 0 {
      es := [];
      QuietTimeouts(k);
    } else {
      hide AllFit, CalmRun, Run, NoneRefused, Filled, Calm, Sound;
      es := Fill(k, j - 1, total);
      var ts := Run(Quiet(k), es);
      if NoneRefused(ts) {
        RunFits(Quiet(k), es);
        var more := FillOne(ts, j - 1, total);
        CalmConcat(Quiet(k), es, more, 1, total, 0);
        es := es + more;
      }
    }
  }

  lemma {:induction false} FilledCost(ts: Places)
    requires forall i :: 0 <= i < |ts| ==> 3 * B.TotalMessageBytes(ts[i].pending) >= FULL_COST * (ts[i].timeouts + 1)
    ensures 3 * PendingBytes(ts) >= FULL_COST * (|ts| + Timeouts(ts))
  {
    hide B.TotalMessageBytes;
    if ts != [] { FilledCost(ts[1..]); }
  }

  /**
   * Ninety-six full windows are too much for all connections together: a run in which each of `k` connections
   * sends one, and `total` of them another one after an ack timeout, has a message refused.
   */
  lemma FullWindowsAreTooMany(k: nat, total: nat) returns (es: seq<Event>)
    requires k + Min(k, total) >= 96
    ensures CalmRun(Quiet(k), es, 1, total, 0) && !NoneRefused(Run(Quiet(k), es))
  {
    es := Fill(k, k, total);
    var ts := Run(Quiet(k), es);
    LimitsHoldInEveryRun(k, es);
    hide CalmRun, Run, NoneRefused, WithinLimits, Filled;
    if NoneRefused(ts) {
      FilledIsTooMuch(ts, total);
      assert false;
    }
  }

  lemma FilledIsTooMuch(ts: Places, total: nat)
    requires Filled(ts, |ts|, total) && |ts| + Min(|ts|, total) >= 96
    ensures !WithinLimits(ts)
  {
    hide B.TotalMessageBytes, PendingBytes, Timeouts;
    FilledCost(ts);
    assert FULL_COST * (|ts| + Timeouts(ts)) >= FULL_COST * 96;
  }

  // ---- Exactly when runs are refused ----

  lemma MoreResizesAllowed(ts: Places, es: seq<Event>, n: nat, total: nat, resizes: nat, k: nat, more: nat)
    requires Sound(ts) && CalmRun(ts, es, n, total, resizes) && n <= k && resizes <= more
    ensures CalmRun(ts, es, k, total, more)
    decreases |es|
  {
    hide Step, B.Resizes;
    if es != [] { MoreResizesAllowed(Step(ts, es[0]), es[1..], n, total, resizes, k, more); }
  }

  /**
   * No run of `k` connections, each with at most one ack timeout, `total` timeouts in all and no resize, is refused
   * if and only if these are at most 95 windows.
   */
  lemma TimeoutsIff(k: nat, total: nat)
    ensures (forall es :: CalmRun(Quiet(k), es, 1, total, 0) ==> NoneRefused(Run(Quiet(k), es))) <==> k + Min(k, total) <= 95
  {
    QuietFits(k);
    hide CalmRun, Run, NoneRefused, AllFit, Calm;
    if k + Min(k, total) <= 95 {
      forall es | CalmRun(Quiet(k), es, 1, total, 0) ensures NoneRefused(Run(Quiet(k), es)) {
        var least := Min(k, total);
        AtMostOneEach(Quiet(k), es, total);
        RunNotRefused(Quiet(k), es, 1, least, 0);
      }
    } else {
      var es := FullWindowsAreTooMany(k, total);
    }
  }

  lemma {:induction false} TimeoutsAtMost(ts: Places)
    requires forall i :: 0 <= i < |ts| ==> ts[i].timeouts <= 1
    ensures Timeouts(ts) <= |ts|
  {
    if ts != [] { TimeoutsAtMost(ts[1..]); }
  }

  lemma {:induction false} AtMostOneEach(ts: Places, es: seq<Event>, total: nat)
    requires Sound(ts) && CalmRun(ts, es, 1, total, 0)
    ensures CalmRun(ts, es, 1, Min(|ts|, total), 0)
    decreases |es|
  {
    hide Step, B.Resizes;
    TimeoutsAtMost(ts);
    if es != [] { AtMostOneEach(Step(ts, es[0]), es[1..], total); }
  }

  /**
   * No run of `k` connections, each with at most `n` ack timeouts and `resizes` resizes under way, is refused if and
   * only if there is at most one timeout each, the resizes find a slot beside that many windows of input, and with
   * a timeout there are at most 47 connections. The `n * k` timeouts in all are no further limit.
   */
  lemma RefusalIff(k: nat, n: nat, resizes: nat)
    requires 1 <= k <= TERMINAL_CAPACITY
    ensures (forall es :: CalmRun(Quiet(k), es, n, n * k, resizes) ==> NoneRefused(Run(Quiet(k), es)))
            <==> n <= 1 && resizes + B.INPUT_WINDOW_CHUNKS * (n + 1) <= B.MAX_PENDING_MESSAGES && (n == 1 ==> k <= 47)
  {
    QuietFits(k);
    if n <= 1 && resizes + B.INPUT_WINDOW_CHUNKS * (n + 1) <= B.MAX_PENDING_MESSAGES && (n == 1 ==> k <= 47) {
      WithinBudget(k, n, resizes);
      hide CalmRun, Run, NoneRefused, AllFit, Calm, Affordable;
      forall es | CalmRun(Quiet(k), es, n, n * k, resizes) ensures NoneRefused(Run(Quiet(k), es)) {
        RunNotRefused(Quiet(k), es, n, n * k, resizes);
      }
    } else {
      var es := RefusedRun(k, n, resizes);
    }
  }

  lemma WithinBudget(k: nat, n: nat, resizes: nat)
    requires n <= 1 && resizes + B.INPUT_WINDOW_CHUNKS * (n + 1) <= B.MAX_PENDING_MESSAGES
    requires k <= (if n == 0 then TERMINAL_CAPACITY else 47)
    ensures Affordable(k, n, n * k, resizes)
  {
    if n == 0 { assert resizes * k <= 48 * k; } else { assert resizes * k <= 32 * k; }
  }

  lemma RefusedRun(k: nat, n: nat, resizes: nat) returns (es: seq<Event>)
    requires 1 <= k && !(n <= 1 && resizes + B.INPUT_WINDOW_CHUNKS * (n + 1) <= B.MAX_PENDING_MESSAGES && (n == 1 ==> k <= 47))
    ensures CalmRun(Quiet(k), es, n, n * k, resizes) && !NoneRefused(Run(Quiet(k), es))
  {
    hide CalmRun, Run, B.Run, NoneRefused, B.Alone, B.ResizesSent, B.Fits;
    assert n * k >= n;
    if n >= 2 {
      B.ThreeWindowsAreTooMuch();
      AloneRun(k, B.ThreeWindows(), n, n * k, resizes);
      es := Placed(B.ThreeWindows(), 0);
    } else if resizes + B.INPUT_WINDOW_CHUNKS * (n + 1) > B.MAX_PENDING_MESSAGES {
      var least := B.MAX_PENDING_MESSAGES + 1 - B.INPUT_WINDOW_CHUNKS * (n + 1);
      B.TooManyAreRefused(n, least);
      AloneRun(k, B.TooMany(n, least), n, n * k, resizes);
      es := Placed(B.TooMany(n, least), 0);
    } else {
      es := FullWindowsAreTooMany(k, k);
      MoreResizesAllowed(Quiet(k), es, 1, k, 0, n, resizes);
    }
  }
}

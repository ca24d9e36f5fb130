/**
 * What the gateway keeps of a shell's output, and what it replays to a browser that comes back.
 * Everything here is about the plain stream `output` (all bytes the shell ever printed); the class
 * ShellSession keeps the chunked form and is proved to hold exactly this.
 */
module ShellHistory {
  import opened Bytes
  import Utf8

  const OUTPUT_HISTORY_BYTES: nat := 256 * 1024
  const SAFE_START_WINDOW: nat := 4096

  datatype ReplayPlan = ReplayPlan(from: nat, truncated: bool)

  datatype Replay = Replay(from: nat, data: seq<byte>, truncated: bool)

  /** Offset of the oldest byte a full history still holds. */
  function HistoryStart(end: nat): nat {
    if end <= OUTPUT_HISTORY_BYTES then 0 else end - OUTPUT_HISTORY_BYTES
  }

  /** What a browser is taken to have: its own count, else the detach point, else everything. */
  function Wanted(end: nat, offset: Option<nat>, detachedAt: Option<nat>): nat {
    match offset
    case Some(o) => o
    case None => match detachedAt case Some(d) => d case None => end
  }

  function PlanShellReplay(start: nat, end: nat, offset: Option<nat>, detachedAt: Option<nat>): ReplayPlan {
    var wanted := Wanted(end, offset, detachedAt);
    if wanted >= end then ReplayPlan(end, false)
    else if wanted >= start then ReplayPlan(wanted, false)
    else ReplayPlan(start, true)
  }

  function IndexOf(s: seq<byte>, b: byte): (r: Option<nat>)
    ensures r.None? ==> b !in s
    ensures r.Some? ==> r.value < |s| && s[r.value] == b && b !in s[..r.value]
  {
    if s == [] then None
    else if s[0] == b then Some(0)
    else
      match IndexOf(s[1..], b)
      case None => None
      case Some(i) => assert s[..i + 1] == [s[0]] + s[1..][..i]; Some(i + 1)
  }

  /** How many bytes at the front continue a character that started earlier. */
  function LeadingTails(s: seq<byte>): (n: nat)
    ensures n <= |s|
    ensures forall i :: 0 <= i < n ==> Utf8.IsTail(s[i])
    ensures n < |s| ==> !Utf8.IsTail(s[n])
  {
    if s == [] || !Utf8.IsTail(s[0]) then 0 else 1 + LeadingTails(s[1..])
  }

  function SafeStart(data: seq<byte>): (cut: nat)
    ensures cut <= |data| && cut <= SAFE_START_WINDOW
  {
    var window := data[..Min(|data|, SAFE_START_WINDOW)];
    match IndexOf(window, 0x0A)
    case Some(lineBreak) => lineBreak + 1
    case None =>
      match IndexOf(window, 0x1B)
      case Some(escape) => escape
      case None => LeadingTails(window)
  }

  /**
   * Behind the first line break of the window; without one, at its first escape; without either, behind the
   * bytes that continue a character, and no further.
   */
  predicate CleanCut(data: seq<byte>, cut: nat) {
    var w := data[..Min(|data|, 4096)];
    && cut <= |w|
    && (0x0A in w ==> cut > 0 && w[cut - 1] == 0x0A && 0x0A !in w[..cut - 1])
    && (0x0A !in w && 0x1B in w ==> cut < |w| && w[cut] == 0x1B && 0x1B !in w[..cut])
    && (0x0A !in w && 0x1B !in w ==>
          (forall i :: 0 <= i < cut ==> Utf8.IsTail(w[i])) && (cut < |w| ==> !Utf8.IsTail(w[cut])))
  }

  lemma SafeStartIsClean(data: seq<byte>)
    ensures CleanCut(data, SafeStart(data))
  {
  }

  method SafeReplayStart(data: seq<byte>) returns (cut: nat)
    ensures cut == SafeStart(data) && CleanCut(data, cut)
  {
    SafeStartIsClean(data);
    var window := data[..Min(|data|, SAFE_START_WINDOW)];
    var lineBreak := IndexOf(window, 0x0A);
    if lineBreak.Some? { return lineBreak.value + 1; }
    var escape := IndexOf(window, 0x1B);
    if escape.Some? { return escape.value; }
    cut := 0;
    assert window[cut..] == window;
    while cut < |window| && Utf8.IsTail(window[cut])
      invariant cut <= |window|
      invariant LeadingTails(window) == cut + LeadingTails(window[cut..])
    {
      assert window[cut..][1..] == window[cut + 1..];
      cut := cut + 1;
    }
  }

  /** The replay for a shell that printed `output`, from the last OUTPUT_HISTORY_BYTES of it. */
  function ReplayOf(output: seq<byte>, offset: Option<nat>, detachedAt: Option<nat>): Replay {
    var start := HistoryStart(|output|);
    var plan := PlanShellReplay(start, |output|, offset, detachedAt);
    if plan.from >= |output| then Replay(|output|, [], false)
    else if plan.truncated then
      var cut := SafeStart(output[start..]);
      Replay(start + cut, output[start + cut..], true)
    else Replay(plan.from, output[plan.from..], false)
  }

  predicate Has(wanted: nat, k: nat) {
    k < wanted
  }

  predicate Replays(from: nat, k: nat) {
    from <= k
  }

  /**
   * Without truncation every byte so far is either one the browser has or one that is replayed,
   * never both and never neither; with truncation the first byte it lacks is in neither part.
   */
  lemma PlanPartitionsOutput(start: nat, end: nat, offset: Option<nat>, detachedAt: Option<nat>)
    requires start <= end
    ensures var p := PlanShellReplay(start, end, offset, detachedAt);
            var wanted := Wanted(end, offset, detachedAt);
            && start <= p.from <= end
            && (!p.truncated <==> forall k: nat :: k < end ==> (Has(wanted, k) <==> !Replays(p.from, k)))
            && (p.truncated ==> wanted < p.from)
  {
    var p := PlanShellReplay(start, end, offset, detachedAt);
    var wanted := Wanted(end, offset, detachedAt);
    if p.truncated {
      assert !Has(wanted, wanted) && !Replays(p.from, wanted);
    }
  }

  /**
   * A replay is a suffix of the output. It is truncated exactly when the history no longer holds
   * the first byte the browser lacks; otherwise it starts at that byte. A truncated replay gives up
   * at most SAFE_START_WINDOW bytes that the history still held.
   */
  lemma ReplayIsExact(output: seq<byte>, offset: Option<nat>, detachedAt: Option<nat>)
    ensures var r := ReplayOf(output, offset, detachedAt);
            var wanted := Wanted(|output|, offset, detachedAt);
            var start := HistoryStart(|output|);
            && r.from <= |output| && r.data == output[r.from..]
            && (r.truncated <==> wanted < start)
            && (!r.truncated ==> r.from == Min(wanted, |output|))
            && (r.truncated ==> start <= r.from <= start + SAFE_START_WINDOW && r.data != [])
  {
  }

  /** A truncated replay starts at a clean cut of what the history holds. */
  lemma TruncatedReplayIsClean(output: seq<byte>, offset: Option<nat>, detachedAt: Option<nat>)
    requires ReplayOf(output, offset, detachedAt).truncated
    ensures var r, start := ReplayOf(output, offset, detachedAt), HistoryStart(|output|);
            start <= r.from && CleanCut(output[start..], r.from - start)
  {
    SafeStartIsClean(output[HistoryStart(|output|)..]);
    hide SafeStart, CleanCut;
  }

  /**
   * While the history holds it, a replay starts at the byte the browser asks for; a browser that names none gets what
   * was printed since the detach point, or nothing if the shell was never detached. The history holds the last
   * 256 KiB, or everything if that is less.
   */
  lemma ReplayStartsWhereAsked(output: seq<byte>, offset: Option<nat>, detachedAt: Option<nat>)
    ensures var r := ReplayOf(output, offset, detachedAt);
            && (offset.Some? && |output| - 256 * 1024 <= offset.value <= |output| ==>
                  r == Replay(offset.value, output[offset.value..], false))
            && (offset.None? && detachedAt.Some? && |output| - 256 * 1024 <= detachedAt.value <= |output| ==>
                  r == Replay(detachedAt.value, output[detachedAt.value..], false))
            && (offset.None? && detachedAt.None? ==> r == Replay(|output|, [], false))
            && (offset.Some? && offset.value >= |output| ==> r == Replay(|output|, [], false))
            && (offset.Some? && offset.value < |output| - 256 * 1024 ==> r.truncated)
            && (offset.None? && detachedAt.Some? && detachedAt.value < |output| - 256 * 1024 ==> r.truncated)
  {
  }

  lemma AfterSingleByte(s: seq<byte>, p: nat)
    requires Utf8.WellFormed(s) && p < |s| && s[p] < 0x80
    ensures Utf8.WellFormed(s[..p + 1]) && Utf8.WellFormed(s[p + 1..])
  {
    Utf8.CutBeforeNonTail(s, p);
    assert s[p..][0] == s[p];
    assert s[p..][1..] == s[p + 1..];
    if p + 1 < |s| {
      assert Utf8.CharLength(s[p + 1..]) > 0;
      assert s[p + 1..][0] == s[p + 1];
    }
    Utf8.CutBeforeNonTail(s, p + 1);
  }

  /** Without a line break, the safe start is a byte of the window that continues no character. */
  lemma SafeStartIsNoTail(stream: seq<byte>, start: nat, data: seq<byte>)
    requires Utf8.WellFormed(stream)
    requires |data| >= SAFE_START_WINDOW && start + |data| <= |stream| && data == stream[start..start + |data|]
    requires IndexOf(data[..SAFE_START_WINDOW], 0x0A).None?
    ensures SafeStart(data) < SAFE_START_WINDOW && !Utf8.IsTail(data[SafeStart(data)])
  {
    var window := data[..SAFE_START_WINDOW];
    hide Utf8.WellFormed, IndexOf;
    if IndexOf(window, 0x1B).None? {
      var q := Utf8.NonTailWithinFour(stream, start);
      assert window[q - start] == stream[q];
      assert window[SafeStart(data)] == data[SafeStart(data)];
    }
  }

  /** Cut at the safe start, a full window of a well-formed stream begins with a whole character. */
  lemma SafeStartOnCharacter(stream: seq<byte>, start: nat, data: seq<byte>)
    requires Utf8.WellFormed(stream)
    requires |data| >= SAFE_START_WINDOW && start + |data| <= |stream| && data == stream[start..start + |data|]
    ensures Utf8.WellFormed(stream[..start + SafeStart(data)]) && Utf8.WellFormed(stream[start + SafeStart(data)..])
  {
    hide Utf8.WellFormed, IndexOf;
    var lineBreak := IndexOf(data[..SAFE_START_WINDOW], 0x0A);
    if lineBreak.Some? {
      assert stream[start + lineBreak.value] == data[..SAFE_START_WINDOW][lineBreak.value];
      AfterSingleByte(stream, start + lineBreak.value);
    } else {
      SafeStartIsNoTail(stream, start, data);
      hide SafeStart;
      assert stream[start + SafeStart(data)] == data[SafeStart(data)];
      Utf8.CutBeforeNonTail(stream, start + SafeStart(data));
    }
  }

  /**
   * If the output is the beginning of a well-formed UTF-8 stream, a truncated replay starts at a
   * character boundary of it.
   */
  lemma TruncatedReplayStartsOnCharacter(stream: seq<byte>, end: nat, offset: Option<nat>, detachedAt: Option<nat>)
    requires Utf8.WellFormed(stream) && end <= |stream|
    requires ReplayOf(stream[..end], offset, detachedAt).truncated
    ensures var from := ReplayOf(stream[..end], offset, detachedAt).from;
            && from <= end
            && Utf8.WellFormed(stream[..from]) && Utf8.WellFormed(stream[from..])
  {
    ReplayIsExact(stream[..end], offset, detachedAt);
    var start := HistoryStart(end);
    assert stream[..end][start..] == stream[start..start + (end - start)];
    SafeStartOnCharacter(stream, start, stream[..end][start..]);
  }
}

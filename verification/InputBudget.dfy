/**
 * What the browser's window lets it have on its way, against what the gateway is willing to have pending
 * on one connection: they fit with one ack timeout, not with two.
 */
module InputBudget {
  import opened Bytes
  import opened Utf16
  import B = InputSender

  // The browser's window.
  const INPUT_WINDOW_CHUNKS: nat := B.INPUT_WINDOW_CHUNKS
  const INPUT_WINDOW_BYTES: nat := B.INPUT_WINDOW_BYTES
  const MAX_CHUNK_BYTES: nat := B.MAX_CHUNK_BYTES

  // The gateway's limits: for one connection, and for all of them.
  const MAX_PENDING_MESSAGES: nat := 64
  const MAX_PENDING_BYTES: nat := 256 * 1024
  const MAX_TOTAL_PENDING_BYTES: nat := 8 * 1024 * 1024
  const MAX_MESSAGE_BYTES: nat := 64 * 1024
  const MAX_ROWS: nat := 500
  const MAX_COLS: nat := 1000
  const MAX_SAFE_INTEGER: nat := 9_007_199_254_740_991

  datatype Message = Input(id: nat, bytes: nat) | Resize(rows: nat, cols: nat)

  function Digits(n: nat): (d: nat)
    ensures d >= 1
  {
    if n < 10 then 1 else 1 + Digits(n / 10)
  }

  function Base64Length(bytes: nat): nat {
    (bytes + 2) / 3 * 4
  }

  const INPUT_HEAD: string := "{\"type\":\"input\",\"data\":\""
  const INPUT_MIDDLE: string := "\",\"id\":"
  const RESIZE_HEAD: string := "{\"type\":\"resize\",\"cols\":"
  const RESIZE_MIDDLE: string := ",\"rows\":"

  /** Bytes of the JSON text of a message. */
  function MessageBytes(m: Message): nat {
    match m
    case Input(id, bytes) => |INPUT_HEAD| + Base64Length(bytes) + |INPUT_MIDDLE| + Digits(id) + 1
    case Resize(rows, cols) => |RESIZE_HEAD| + Digits(cols) + |RESIZE_MIDDLE| + Digits(rows) + 1
  }

  function TotalMessageBytes(ms: seq<Message>): nat {
    if ms == [] then 0 else MessageBytes(ms[0]) + TotalMessageBytes(ms[1..])
  }

  /** Would the gateway refuse `m` because of what is pending here, or of the `others` pending bytes elsewhere? */
  predicate QueueFull(pending: seq<Message>, m: Message, others: nat) {
    || |pending| >= MAX_PENDING_MESSAGES
    || TotalMessageBytes(pending) + MessageBytes(m) > MAX_PENDING_BYTES
    || others + TotalMessageBytes(pending) + MessageBytes(m) > MAX_TOTAL_PENDING_BYTES
  }

  /**
   * One connection. `chunks[i]` is the size of the chunk with id `i + 1`; the first `released` of them
   * left the browser's window, the first `completed` were written to the shell and acknowledged.
   * `abandoned`: the chunks in the window at each of the `timeouts` ack timeouts.
   */
  datatype Traffic = Traffic(
    chunks: seq<nat>, released: nat, completed: nat,
    up: seq<Message>, pending: seq<Message>, acks: seq<nat>,
    timeouts: nat, abandoned: seq<nat>, refused: bool)

  datatype Event =
    | SendsInput(bytes: nat)
    | SendsResize(rows: nat, cols: nat)
    | MessageArrives(others: nat)
    | InputWritten
    | ResizeDone(i: nat)
    | AckArrives
    | AckTimesOut

  const QUIET: Traffic := Traffic([], 0, 0, [], [], [], 0, [], false)

  function Window(t: Traffic): seq<nat>
    requires t.released <= |t.chunks|
  {
    t.chunks[t.released..]
  }

  function FirstInput(ms: seq<Message>): (r: Option<nat>)
    ensures r.Some? ==> r.value < |ms| && ms[r.value].Input?
  {
    if ms == [] then None
    else if ms[0].Input? then Some(0)
    else match FirstInput(ms[1..]) case None => None case Some(i) => Some(i + 1)
  }

  function Without(ms: seq<Message>, i: nat): seq<Message>
    requires i < |ms|
  {
    ms[..i] + ms[i + 1..]
  }

  function Step(t: Traffic, e: Event): Traffic
    requires t.released <= |t.chunks|
  {
    match e
    case SendsInput(bytes) =>
      if |Window(t)| >= INPUT_WINDOW_CHUNKS || Sum(Window(t)) >= INPUT_WINDOW_BYTES
         || bytes == 0 || bytes > Min(MAX_CHUNK_BYTES, INPUT_WINDOW_BYTES - Sum(Window(t)))
         || |t.chunks| >= MAX_SAFE_INTEGER then t
      else t.(chunks := t.chunks + [bytes], up := t.up + [Input(|t.chunks| + 1, bytes)])
    case SendsResize(rows, cols) => if rows > MAX_ROWS || cols > MAX_COLS then t else t.(up := t.up + [Resize(rows, cols)])
    case MessageArrives(others) =>
      if t.up == [] || t.refused then t
      else if QueueFull(t.pending, t.up[0], others) then t.(refused := true)
      else t.(up := t.up[1..], pending := t.pending + [t.up[0]])
    case InputWritten =>
      if FirstInput(t.pending).None? then t
      else
        t.(pending := Without(t.pending, FirstInput(t.pending).value), completed := t.completed + 1,
           acks := t.acks + [t.completed + 1])
    case ResizeDone(i) => if i < |t.pending| && t.pending[i].Resize? then t.(pending := Without(t.pending, i)) else t
    case AckArrives =>
      if t.acks == [] then t else t.(acks := t.acks[1..], released := Min(|t.chunks|, Max(t.released, t.acks[0])))
    case AckTimesOut =>
      if Window(t) == [] then t
      else t.(abandoned := t.abandoned + Window(t), released := |t.chunks|, timeouts := t.timeouts + 1)
  }

  function Inputs(ms: seq<Message>): seq<Message> {
    if ms == [] then [] else (if ms[0].Input? then [ms[0]] else []) + Inputs(ms[1..])
  }

  function Resizes(ms: seq<Message>): nat {
    if ms == [] then 0 else (if ms[0].Resize? then 1 else 0) + Resizes(ms[1..])
  }

  function Numbered(chunks: seq<nat>, from: nat): seq<Message>
    requires from <= |chunks|
  {
    seq(|chunks| - from, i requires 0 <= i < |chunks| - from => Input(from + i + 1, chunks[from + i]))
  }

  ghost predicate SizesOk(ms: seq<Message>) {
    forall i :: 0 <= i < |ms| ==>
      match ms[i]
      case Input(id, bytes) => 0 < bytes <= MAX_CHUNK_BYTES && id <= MAX_SAFE_INTEGER
      case Resize(rows, cols) => rows <= MAX_ROWS && cols <= MAX_COLS
  }

  /** The inputs the gateway has or will get are the chunks not completed; those lie in the window or were abandoned. */
  ghost predicate Fits(t: Traffic) {
    && t.completed <= |t.chunks| <= MAX_SAFE_INTEGER && t.released <= |t.chunks|
    && Inputs(t.pending) + Inputs(t.up) == Numbered(t.chunks, t.completed)
    && SizesOk(t.pending) && SizesOk(t.up)
    && (forall i :: 0 <= i < |t.chunks| ==> 0 < t.chunks[i] <= MAX_CHUNK_BYTES)
    && (forall i :: 0 <= i < |t.acks| ==> t.acks[i] <= t.completed)
    && |Window(t)| <= INPUT_WINDOW_CHUNKS && Sum(Window(t)) <= INPUT_WINDOW_BYTES
    && |t.abandoned| <= INPUT_WINDOW_CHUNKS * t.timeouts && Sum(t.abandoned) <= INPUT_WINDOW_BYTES * t.timeouts
    && (t.completed < t.released ==>
          t.released - t.completed <= |t.abandoned| && Sum(t.chunks[t.completed..t.released]) <= Sum(t.abandoned))
  }

  /** The decimal digits of a number. */
  function DigitString(n: nat): (s: string)
    ensures |s| == Digits(n)
  {
    (if n < 10 then "" else DigitString(n / 10)) + [('0' as int + n % 10) as char]
  }

  /** The JSON text of a message; `data` is its input in base64. */
  function JsonText(m: Message, data: string): string {
    match m
    case Input(id, _) => "{\"type\":\"input\",\"data\":\"" + data + "\",\"id\":" + DigitString(id) + "}"
    case Resize(rows, cols) => "{\"type\":\"resize\",\"cols\":" + DigitString(cols) + ",\"rows\":" + DigitString(rows) + "}"
  }

  /** Base64 takes four characters for every three bytes, the last group padded. */
  predicate Base64Of(bytes: nat, data: string) {
    |data| % 4 == 0 && 3 * |data| >= 4 * bytes && 3 * |data| < 4 * bytes + 12
  }

  /** A message has as many bytes as its text has characters, which are all ASCII. */
  lemma MessageBytesIsLength(m: Message, data: string)
    requires m.Input? ==> Base64Of(m.bytes, data)
    ensures MessageBytes(m) == |JsonText(m, data)|
  {
  }

  /** The sender sends within its window, the browser reports a grid of at most 500 by 1000. */
  lemma SendsWithinLimits(t: Traffic, bytes: nat, rows: nat, cols: nat)
    requires t.released <= |t.chunks| < MAX_SAFE_INTEGER
    ensures var u := Step(t, SendsInput(bytes));
            if |Window(t)| < 16 && Sum(Window(t)) < 64 * 1024 && 0 < bytes <= 12 * 1024 && Sum(Window(t)) + bytes <= 64 * 1024
            then u == t.(chunks := t.chunks + [bytes], up := t.up + [Input(|t.chunks| + 1, bytes)])
            else u == t
    ensures Step(t, SendsResize(rows, cols)) == if rows <= 500 && cols <= 1000 then t.(up := t.up + [Resize(rows, cols)]) else t
  {
  }

  /** Input is written in order, and each chunk is acknowledged once. */
  lemma WrittenIsAcknowledged(t: Traffic, ms: seq<Message>, m: Message, more: seq<Message>)
    requires t.released <= |t.chunks| && t.pending == ms + [m] + more && m.Input? && Inputs(ms) == []
    ensures Step(t, InputWritten) == t.(pending := ms + more, completed := t.completed + 1, acks := t.acks + [t.completed + 1])
  {
    FirstInputAt(ms, m, more);
    assert Without(t.pending, |ms|) == ms + more;
    hide FirstInput, Inputs, Without;
  }

  /** A resize is done with in its turn, without an ack. */
  lemma ResizeIsDone(t: Traffic, ms: seq<Message>, m: Message, more: seq<Message>)
    requires t.released <= |t.chunks| && t.pending == ms + [m] + more && m.Resize?
    ensures Step(t, ResizeDone(|ms|)) == t.(pending := ms + more)
  {
    assert Without(t.pending, |ms|) == ms + more;
    hide Without;
  }

  lemma {:induction false} FirstInputAt(ms: seq<Message>, m: Message, more: seq<Message>)
    requires Inputs(ms) == [] && m.Input?
    ensures FirstInput(ms + [m] + more) == Some(|ms|)
  {
    var all := ms + [m] + more;
    if ms != [] {
      FirstInputAt(ms[1..], m, more);
      assert all[0] == ms[0] && all[1..] == ms[1..] + [m] + more;
    }
  }

  /** An ack releases the chunks up to its id; a timeout gives up on the window, if there is one. */
  lemma AcksRelease(t: Traffic)
    requires t.released <= |t.chunks|
    ensures t.acks != [] ==>
              Step(t, AckArrives) == t.(acks := t.acks[1..], released := Min(|t.chunks|, Max(t.released, t.acks[0])))
    ensures t.acks == [] ==> Step(t, AckArrives) == t
    ensures t.released < |t.chunks| ==>
              Step(t, AckTimesOut) == t.(abandoned := t.abandoned + t.chunks[t.released..], released := |t.chunks|, timeouts := t.timeouts + 1)
    ensures t.released == |t.chunks| ==> Step(t, AckTimesOut) == t
  {
  }

  /** A message is taken exactly when what is pending with it stays within the limits. */
  lemma ArrivalIff(t: Traffic, others: nat)
    requires t.released <= |t.chunks| && t.up != [] && !t.refused
    ensures var u, ms := Step(t, MessageArrives(others)), t.pending + [t.up[0]];
            if |ms| <= 64 && TotalMessageBytes(ms) <= 256 * 1024 && others + TotalMessageBytes(ms) <= 8 * 1024 * 1024
            then u == t.(up := t.up[1..], pending := ms)
            else u == t.(refused := true)
  {
    hide MessageBytes, TotalMessageBytes;
    TotalSnoc(t.pending, t.up[0]);
  }

  // ---- Sizes ----

  lemma {:induction false} DigitsBound(n: nat, k: nat)
    requires k >= 1 && n < Pow10(k)
    ensures Digits(n) <= k
    decreases k
  {
    if n >= 10 {
      assert k >= 2;
      DigitsBound(n / 10, k - 1);
    }
  }

  function Pow10(k: nat): nat {
    if k == 0 then 1 else 10 * Pow10(k - 1)
  }

  lemma MessageBytesBound(m: Message)
    requires SizesOk([m])
    ensures m.Input? ==> 3 * MessageBytes(m) <= 4 * m.bytes + 152 && MessageBytes(m) <= MAX_MESSAGE_BYTES
    ensures m.Resize? ==> MessageBytes(m) <= 40
  {
    assert [m][0] == m;
    match m
    case Input(id, bytes) =>
      assert MAX_SAFE_INTEGER < Pow10(16) by { Pow10Values(); }
      DigitsBound(id, 16);
    case Resize(rows, cols) =>
      Pow10Values();
      DigitsBound(cols, 4);
      DigitsBound(rows, 3);
  }

  lemma Pow10Values()
    ensures Pow10(3) == 1000 && Pow10(4) == 10000 && Pow10(16) == 10_000_000_000_000_000
  {
    assert Pow10(2) == 100;
    assert Pow10(6) == 1_000_000 by { assert Pow10(4) == 10000; assert Pow10(5) == 100000; }
    assert Pow10(8) == 100_000_000;
    assert Pow10(10) == 10_000_000_000;
    assert Pow10(12) == 1_000_000_000_000;
    assert Pow10(14) == 100_000_000_000_000;
  }

  function InputBytes(ms: seq<Message>): nat {
    if ms == [] then 0 else (if ms[0].Input? then ms[0].bytes else 0) + InputBytes(ms[1..])
  }

  lemma {:induction false} TotalBound(ms: seq<Message>)
    requires SizesOk(ms)
    ensures 3 * TotalMessageBytes(ms) <= 4 * InputBytes(ms) + 152 * |Inputs(ms)| + 120 * Resizes(ms)
    ensures |ms| == |Inputs(ms)| + Resizes(ms)
  {
    hide MessageBytes;
    if ms != [] {
      assert [ms[0]][0] == ms[0];
      MessageBytesBound(ms[0]);
      TotalBound(ms[1..]);
    }
  }

  // ---- Every step keeps the halves fitting ----

  lemma {:induction false} InputsConcat(a: seq<Message>, b: seq<Message>)
    ensures Inputs(a + b) == Inputs(a) + Inputs(b) && InputBytes(a + b) == InputBytes(a) + InputBytes(b)
      && Resizes(a + b) == Resizes(a) + Resizes(b)
  {
    if a == [] {
      assert a + b == b;
    } else {
      var first := if a[0].Input? then [a[0]] else [];
      InputsConcat(a[1..], b);
      assert (a + b)[0] == a[0] && (a + b)[1..] == a[1..] + b;
      assert Inputs(a + b) == first + Inputs(a[1..] + b);
      assert first + (Inputs(a[1..]) + Inputs(b)) == (first + Inputs(a[1..])) + Inputs(b);
    }
  }

  lemma InputsOne(m: Message)
    ensures Inputs([m]) == (if m.Input? then [m] else []) && InputBytes([m]) == (if m.Input? then m.bytes else 0)
    ensures Resizes([m]) == if m.Resize? then 1 else 0
  {
    assert [m][1..] == [];
  }

  lemma {:induction false} FirstInputTaken(ms: seq<Message>)
    requires FirstInput(ms).Some?
    ensures Inputs(ms) != [] && Inputs(Without(ms, FirstInput(ms).value)) == Inputs(ms)[1..]
  {
    var i := FirstInput(ms).value;
    if ms[0].Input? {
      assert Without(ms, 0) == ms[1..];
    } else {
      FirstInputTaken(ms[1..]);
      assert Without(ms, i) == [ms[0]] + Without(ms[1..], i - 1);
      hide Without;
    }
  }

  lemma ResizeTaken(ms: seq<Message>, i: nat)
    requires i < |ms| && ms[i].Resize?
    ensures Inputs(Without(ms, i)) == Inputs(ms)
  {
    assert ms == ms[..i] + ([ms[i]] + ms[i + 1..]);
    InputsConcat(ms[..i], [ms[i]] + ms[i + 1..]);
    InputsConcat([ms[i]], ms[i + 1..]);
    InputsOne(ms[i]);
    InputsConcat(ms[..i], ms[i + 1..]);
  }

  lemma SumSlice(s: seq<nat>, a: nat, b: nat)
    requires a <= b <= |s|
    ensures Sum(s[a..]) == Sum(s[a..b]) + Sum(s[b..])
  {
    assert s[a..] == s[a..b] + s[b..];
    SumConcat(s[a..b], s[b..]);
  }

  lemma NumberedSnoc(chunks: seq<nat>, from: nat, bytes: nat)
    requires from <= |chunks|
    ensures Numbered(chunks + [bytes], from) == Numbered(chunks, from) + [Input(|chunks| + 1, bytes)]
  {
  }

  lemma NumberedTail(chunks: seq<nat>, from: nat)
    requires from <= |chunks| && Numbered(chunks, from) != []
    ensures from < |chunks| && Numbered(chunks, from + 1) == Numbered(chunks, from)[1..]
  {
  }

  lemma SendFits(t: Traffic, bytes: nat)
    requires Fits(t)
    ensures Fits(Step(t, SendsInput(bytes)))
  {
    hide Sum, Inputs, InputBytes, Resizes, Numbered;
    var u := Step(t, SendsInput(bytes));
    if u != t {
      var m := Input(|t.chunks| + 1, bytes);
      InputsConcat(t.up, [m]);
      InputsOne(m);
      NumberedSnoc(t.chunks, t.completed, bytes);
      assert Inputs(t.pending) + (Inputs(t.up) + [m]) == (Inputs(t.pending) + Inputs(t.up)) + [m];
      assert Window(u) == Window(t) + [bytes];
      SumSnoc(Window(t), bytes);
      if t.completed < t.released { assert u.chunks[t.completed..t.released] == t.chunks[t.completed..t.released]; }
    }
  }

  lemma WrittenFits(t: Traffic)
    requires Fits(t)
    ensures Fits(Step(t, InputWritten))
  {
    hide Sum, Inputs;
    var u := Step(t, InputWritten);
    if u != t {
      FirstInputTaken(t.pending);
      NumberedTail(t.chunks, t.completed);
      assert (Inputs(t.pending) + Inputs(t.up))[1..] == Inputs(t.pending)[1..] + Inputs(t.up);
      hide Numbered;
      if t.completed < t.released {
        var s := t.chunks[t.completed..t.released];
        assert t.chunks[u.completed..t.released] == s[1..];
        SumSlice(s, 0, 1);
        assert s[0..] == s;
      }
    }
  }

  lemma AckFits(t: Traffic)
    requires Fits(t)
    ensures Fits(Step(t, AckArrives))
  {
    hide Sum;
    var u := Step(t, AckArrives);
    if t.acks != [] { SumSlice(t.chunks, t.released, u.released); }
  }

  lemma TimeoutFits(t: Traffic)
    requires Fits(t)
    ensures Fits(Step(t, AckTimesOut))
  {
    hide Sum;
    var u := Step(t, AckTimesOut);
    if u != t {
      SumConcat(t.abandoned, Window(t));
      assert Window(u) == [] && Sum([]) == 0 by { SumOfNone(); }
      assert t.chunks[t.completed..|t.chunks|] == t.chunks[t.completed..];
      if t.completed < t.released { SumSlice(t.chunks, t.completed, t.released); } else { SumSlice(t.chunks, t.released, t.completed); }
    }
  }

  lemma SumOfNone()
    ensures Sum([]) == 0
  {
  }

  lemma ResizeFits(t: Traffic, rows: nat, cols: nat)
    requires Fits(t)
    ensures Fits(Step(t, SendsResize(rows, cols)))
  {
    hide Sum, Inputs, InputBytes, Resizes, Numbered;
    InputsConcat(t.up, [Resize(rows, cols)]);
    InputsOne(Resize(rows, cols));
  }

  lemma ArriveFits(t: Traffic, others: nat)
    requires Fits(t)
    ensures Fits(Step(t, MessageArrives(others)))
  {
    hide Sum, Inputs, InputBytes, Resizes, Numbered, QueueFull;
    if t.up != [] {
      InputsConcat(t.pending, [t.up[0]]);
      InputsConcat([t.up[0]], t.up[1..]);
      assert t.up == [t.up[0]] + t.up[1..];
      assert (Inputs(t.pending) + Inputs([t.up[0]])) + Inputs(t.up[1..]) == Inputs(t.pending) + (Inputs([t.up[0]]) + Inputs(t.up[1..]));
    }
  }

  lemma ResizeDoneFits(t: Traffic, i: nat)
    requires Fits(t)
    ensures Fits(Step(t, ResizeDone(i)))
  {
    hide Sum, Inputs, InputBytes, Resizes, Numbered;
    if i < |t.pending| && t.pending[i].Resize? { ResizeTaken(t.pending, i); }
  }

  lemma StepFits(t: Traffic, e: Event)
    requires Fits(t)
    ensures Fits(Step(t, e))
  {
    FitsReleased(t);
    hide Fits, Step;
    match e {
      case SendsInput(bytes) => SendFits(t, bytes);
      case SendsResize(rows, cols) => ResizeFits(t, rows, cols);
      case MessageArrives(others) => ArriveFits(t, others);
      case InputWritten => WrittenFits(t);
      case ResizeDone(i) => ResizeDoneFits(t, i);
      case AckArrives => AckFits(t);
      case AckTimesOut => TimeoutFits(t);
    }
  }

  function Run(t: Traffic, es: seq<Event>): Traffic
    requires t.released <= |t.chunks|
    decreases |es|
  {
    if es == [] then t else Run(Step(t, es[0]), es[1..])
  }

  lemma {:induction false} RunFits(t: Traffic, es: seq<Event>)
    requires Fits(t)
    ensures Fits(Run(t, es))
    decreases |es|
  {
    hide Fits, Step;
    if es != [] {
      FitsReleased(t);
      StepFits(t, es[0]);
      RunFits(Step(t, es[0]), es[1..]);
    }
  }

  lemma FitsReleased(t: Traffic)
    requires Fits(t)
    ensures t.released <= |t.chunks|
  {
  }

  // ---- The gateway never refuses ----

  lemma {:induction false} InputBytesOfNumbered(chunks: seq<nat>, from: nat)
    requires from <= |chunks|
    ensures InputBytes(Numbered(chunks, from)) == Sum(chunks[from..]) && |Numbered(chunks, from)| == |chunks| - from
    decreases |chunks| - from
  {
    var ms := Numbered(chunks, from);
    if from < |chunks| {
      InputBytesOfNumbered(chunks, from + 1);
      assert ms[1..] == Numbered(chunks, from + 1);
      assert chunks[from..][1..] == chunks[from + 1..];
    }
  }

  lemma {:induction false} InputBytesOfInputs(ms: seq<Message>)
    ensures InputBytes(Inputs(ms)) == InputBytes(ms)
  {
    if ms != [] {
      InputBytesOfInputs(ms[1..]);
      InputsConcat(if ms[0].Input? then [ms[0]] else [], Inputs(ms[1..]));
      InputsOne(ms[0]);
    }
  }

  /** What is unwritten is at most one window, and one more for each ack timeout. */
  lemma UnwrittenBound(t: Traffic)
    requires Fits(t)
    ensures |Inputs(t.pending)| + |Inputs(t.up)| <= INPUT_WINDOW_CHUNKS * (t.timeouts + 1)
    ensures InputBytes(t.pending) + InputBytes(t.up) <= INPUT_WINDOW_BYTES * (t.timeouts + 1)
  {
    hide Sum, Inputs, InputBytes, Resizes, Numbered, SizesOk;
    InputBytesOfNumbered(t.chunks, t.completed);
    InputsConcat(Inputs(t.pending), Inputs(t.up));
    assert InputBytes(Inputs(t.pending) + Inputs(t.up)) == InputBytes(Numbered(t.chunks, t.completed));
    assert |Inputs(t.pending)| + |Inputs(t.up)| == |Inputs(t.pending) + Inputs(t.up)|;
    InputBytesOfInputs(t.pending);
    InputBytesOfInputs(t.up);
    if t.completed < t.released { SumSlice(t.chunks, t.completed, t.released); } else { SumSlice(t.chunks, t.released, t.completed); }
  }

  lemma {:induction false} TotalSnoc(ms: seq<Message>, m: Message)
    ensures TotalMessageBytes(ms + [m]) == TotalMessageBytes(ms) + MessageBytes(m)
  {
    hide MessageBytes;
    if ms == [] {
      assert [m][1..] == [];
      assert ms + [m] == [m];
    } else {
      TotalSnoc(ms[1..], m);
      assert (ms + [m])[1..] == ms[1..] + [m];
    }
  }

  lemma NextMessageBound(t: Traffic)
    requires Fits(t) && t.up != []
    ensures var ms := t.pending + [t.up[0]];
            && |ms| <= INPUT_WINDOW_CHUNKS * (t.timeouts + 1) + Resizes(ms)
            && 3 * TotalMessageBytes(ms) <= (4 * INPUT_WINDOW_BYTES + 152 * INPUT_WINDOW_CHUNKS) * (t.timeouts + 1) + 120 * Resizes(ms)
            && TotalMessageBytes(ms) == TotalMessageBytes(t.pending) + MessageBytes(t.up[0])
            && MessageBytes(t.up[0]) <= MAX_MESSAGE_BYTES
  {
    hide MessageBytes, Inputs, InputBytes, Resizes, Sum, TotalMessageBytes, Numbered;
    var m := t.up[0];
    UnwrittenBound(t);
    assert t.up == [m] + t.up[1..];
    InputsConcat([m], t.up[1..]);
    InputsConcat(t.pending, [m]);
    assert SizesOk([m]) && SizesOk(t.pending + [m]);
    hide Fits;
    MessageBytesBound(m);
    TotalBound(t.pending + [m]);
    TotalSnoc(t.pending, m);
  }

  lemma NextMessageAccepted(t: Traffic, others: nat)
    requires Fits(t) && t.up != [] && t.timeouts <= 1 && others + MAX_PENDING_BYTES <= MAX_TOTAL_PENDING_BYTES
    requires Resizes(t.pending + [t.up[0]]) + INPUT_WINDOW_CHUNKS * (t.timeouts + 1) <= MAX_PENDING_MESSAGES
    ensures !QueueFull(t.pending, t.up[0], others) && MessageBytes(t.up[0]) <= MAX_MESSAGE_BYTES
  {
    NextMessageBound(t);
    hide Fits, MessageBytes, Resizes, TotalMessageBytes;
  }

  lemma QuietFits()
    ensures Fits(QUIET)
  {
  }

  // ---- A run is refused exactly when its limits are exceeded ----

  function ResizesSent(es: seq<Event>): nat {
    if es == [] then 0 else (if es[0].SendsResize? then 1 else 0) + ResizesSent(es[1..])
  }

  /** At every arrival the other connections leave this one its share. */
  ghost predicate RoomLeft(es: seq<Event>) {
    forall i :: 0 <= i < |es| && es[i].MessageArrives? ==> es[i].others + MAX_PENDING_BYTES <= MAX_TOTAL_PENDING_BYTES
  }

  /** Nothing is pending on any other connection. */
  ghost predicate Alone(es: seq<Event>) {
    forall i :: 0 <= i < |es| && es[i].MessageArrives? ==> es[i].others == 0
  }

  lemma ResizesLeft(t: Traffic, e: Event)
    requires Fits(t)
    ensures var u := Step(t, e);
            && Resizes(u.pending) + Resizes(u.up) <= Resizes(t.pending) + Resizes(t.up) + (if e.SendsResize? then 1 else 0)
            && t.timeouts <= u.timeouts
  {
    hide Sum, Inputs, InputBytes, Numbered, QueueFull, Resizes, FirstInput;
    match e {
      case SendsInput(bytes) => InputsConcat(t.up, [Input(|t.chunks| + 1, bytes)]); InputsOne(Input(|t.chunks| + 1, bytes));
      case SendsResize(rows, cols) => InputsConcat(t.up, [Resize(rows, cols)]); InputsOne(Resize(rows, cols));
      case MessageArrives(others) =>
        if t.up != [] {
          InputsConcat(t.pending, [t.up[0]]);
          InputsConcat([t.up[0]], t.up[1..]);
          assert t.up == [t.up[0]] + t.up[1..];
        }
      case InputWritten => if FirstInput(t.pending).Some? { WithoutResizes(t.pending, FirstInput(t.pending).value); }
      case ResizeDone(i) => if i < |t.pending| { WithoutResizes(t.pending, i); }
      case _ =>
    }
  }

  lemma WithoutResizes(ms: seq<Message>, i: nat)
    requires i < |ms|
    ensures Resizes(Without(ms, i)) <= Resizes(ms)
  {
    hide Resizes, Inputs, InputBytes;
    assert ms == ms[..i] + ([ms[i]] + ms[i + 1..]);
    InputsConcat(ms[..i], [ms[i]] + ms[i + 1..]);
    InputsConcat([ms[i]], ms[i + 1..]);
    InputsConcat(ms[..i], ms[i + 1..]);
  }

  lemma {:induction false} TimeoutsGrow(t: Traffic, es: seq<Event>)
    requires Fits(t)
    ensures t.timeouts <= Run(t, es).timeouts
    decreases |es|
  {
    hide Fits, Step;
    if es != [] {
      FitsReleased(t);
      StepFits(t, es[0]);
      ResizesLeft(t, es[0]);
      TimeoutsGrow(Step(t, es[0]), es[1..]);
    }
  }

  lemma StepNotRefused(t: Traffic, e: Event)
    requires Fits(t) && !t.refused && t.timeouts <= 1
    requires e.MessageArrives? ==> e.others + MAX_PENDING_BYTES <= MAX_TOTAL_PENDING_BYTES
    requires Resizes(t.pending) + Resizes(t.up) + INPUT_WINDOW_CHUNKS * (t.timeouts + 1) <= MAX_PENDING_MESSAGES
    ensures !Step(t, e).refused
  {
    if e.MessageArrives? && t.up != [] {
      hide Fits, QueueFull, Inputs, InputBytes, Resizes;
      assert t.up == [t.up[0]] + t.up[1..];
      InputsConcat([t.up[0]], t.up[1..]);
      InputsConcat(t.pending, [t.up[0]]);
      NextMessageAccepted(t, e.others);
    }
  }

  lemma {:induction false} RunNotRefused(t: Traffic, es: seq<Event>, n: nat, resizes: nat)
    requires Fits(t) && !t.refused && RoomLeft(es)
    requires Run(t, es).timeouts <= n <= 1 && resizes + INPUT_WINDOW_CHUNKS * (n + 1) <= MAX_PENDING_MESSAGES
    requires Resizes(t.pending) + Resizes(t.up) + ResizesSent(es) <= resizes
    ensures !Run(t, es).refused
    decreases |es|
  {
    hide Fits, Step, Resizes;
    if es != [] {
      FitsReleased(t);
      TimeoutsGrow(t, es);
      StepFits(t, es[0]);
      ResizesLeft(t, es[0]);
      StepNotRefused(t, es[0]);
      RunNotRefused(Step(t, es[0]), es[1..], n, resizes);
    }
  }

  // ---- Runs that are refused ----

  lemma {:induction false} RunConcat(t: Traffic, a: seq<Event>, b: seq<Event>)
    requires Fits(t)
    ensures Fits(Run(t, a)) && Run(t, a + b) == Run(Run(t, a), b)
    decreases |a|
  {
    hide Fits, Step;
    FitsReleased(t);
    RunFits(t, a);
    if a == [] {
      assert a + b == b;
    } else {
      assert (a + b)[0] == a[0] && (a + b)[1..] == a[1..] + b;
      StepFits(t, a[0]);
      FitsReleased(Step(t, a[0]));
      FitsReleased(Run(t, a));
      RunConcat(Step(t, a[0]), a[1..], b);
    }
  }

  function Sends(sizes: seq<nat>): (es: seq<Event>)
    ensures |es| == |sizes|
  {
    seq(|sizes|, i requires 0 <= i < |sizes| => SendsInput(sizes[i]))
  }

  lemma SendOne(t: Traffic, bytes: nat)
    requires t.released <= |t.chunks| < MAX_SAFE_INTEGER && |Window(t)| < INPUT_WINDOW_CHUNKS
    requires 0 < bytes <= MAX_CHUNK_BYTES && Sum(Window(t)) + bytes <= INPUT_WINDOW_BYTES
    ensures var u := Step(t, SendsInput(bytes));
            && u == t.(chunks := t.chunks + [bytes], up := t.up + [Input(|t.chunks| + 1, bytes)])
            && Window(u) == Window(t) + [bytes] && Sum(Window(u)) == Sum(Window(t)) + bytes
  {
    hide Sum;
    assert (t.chunks + [bytes])[t.released..] == t.chunks[t.released..] + [bytes];
    SumSnoc(Window(t), bytes);
  }

  /** Chunks that fit the window together go out one after the other. */
  lemma {:induction false} SendWindow(t: Traffic, sizes: seq<nat>)
    requires t.released <= |t.chunks| && |t.chunks| + |sizes| <= MAX_SAFE_INTEGER
    requires |Window(t)| + |sizes| <= INPUT_WINDOW_CHUNKS && Sum(Window(t)) + Sum(sizes) <= INPUT_WINDOW_BYTES
    requires forall i :: 0 <= i < |sizes| ==> 0 < sizes[i] <= MAX_CHUNK_BYTES
    ensures Run(t, Sends(sizes)) == t.(chunks := t.chunks + sizes, up := t.up + Numbered(t.chunks + sizes, |t.chunks|))
    decreases |sizes|
  {
    hide Numbered, Step, Window;
    if sizes == [] {
      assert t.chunks + sizes == t.chunks && t.up + Numbered(t.chunks + sizes, |t.chunks|) == t.up by { NumberedNone(t.chunks + sizes); }
    } else {
      var u := Step(t, SendsInput(sizes[0]));
      SendOne(t, sizes[0]);
      SendWindow(u, sizes[1..]);
      assert Sends(sizes)[0] == SendsInput(sizes[0]) && Sends(sizes)[1..] == Sends(sizes[1..]);
      assert u.chunks + sizes[1..] == t.chunks + sizes;
      NumberedFirst(t.chunks + sizes, |t.chunks|);
      assert (t.up + [Input(|t.chunks| + 1, sizes[0])]) + Numbered(t.chunks + sizes, |t.chunks| + 1)
          == t.up + ([Input(|t.chunks| + 1, sizes[0])] + Numbered(t.chunks + sizes, |t.chunks| + 1));
    }
  }

  lemma NumberedNone(chunks: seq<nat>)
    ensures Numbered(chunks, |chunks|) == []
  {
  }

  lemma NumberedFirst(chunks: seq<nat>, from: nat)
    requires from < |chunks|
    ensures Numbered(chunks, from) == [Input(from + 1, chunks[from])] + Numbered(chunks, from + 1)
  {
  }

  function Repeat(e: Event, k: nat): (es: seq<Event>)
    ensures |es| == k
  {
    seq(k, _ => e)
  }

  lemma {:induction false} SendResizes(t: Traffic, k: nat)
    requires t.released <= |t.chunks|
    ensures Run(t, Repeat(SendsResize(1, 1), k)) == t.(up := t.up + seq(k, _ => Resize(1, 1)))
    ensures ResizesSent(Repeat(SendsResize(1, 1), k)) == k
    decreases k
  {
    var es := Repeat(SendsResize(1, 1), k);
    if k == 0 {
      assert t.up + seq(0, _ => Resize(1, 1)) == t.up;
    } else {
      SendResizes(Step(t, SendsResize(1, 1)), k - 1);
      assert es[1..] == Repeat(SendsResize(1, 1), k - 1);
      assert (t.up + [Resize(1, 1)]) + seq(k - 1, _ => Resize(1, 1)) == t.up + seq(k, _ => Resize(1, 1));
    }
  }

  lemma {:induction false} TotalConcat(a: seq<Message>, b: seq<Message>)
    ensures TotalMessageBytes(a + b) == TotalMessageBytes(a) + TotalMessageBytes(b)
  {
    hide MessageBytes;
    if a == [] {
      assert a + b == b;
    } else {
      TotalConcat(a[1..], b);
      assert (a + b)[0] == a[0] && (a + b)[1..] == a[1..] + b;
    }
  }

  /** Messages that fit the limits together arrive one after the other. */
  lemma {:induction false} Arrivals(t: Traffic, k: nat)
    requires t.released <= |t.chunks| && !t.refused && k <= |t.up|
    requires |t.pending| + k <= MAX_PENDING_MESSAGES && TotalMessageBytes(t.pending + t.up[..k]) <= MAX_PENDING_BYTES
    ensures Run(t, Repeat(MessageArrives(0), k)) == t.(up := t.up[k..], pending := t.pending + t.up[..k])
    decreases k
  {
    hide MessageBytes, TotalMessageBytes;
    if k == 0 {
      assert t.pending + t.up[..0] == t.pending;
    } else {
      var m := t.up[0];
      assert t.pending + t.up[..k] == (t.pending + [m]) + t.up[1..][..k - 1];
      TotalConcat(t.pending + [m], t.up[1..][..k - 1]);
      TotalSnoc(t.pending, m);
      Arrivals(Step(t, MessageArrives(0)), k - 1);
      assert Repeat(MessageArrives(0), k)[1..] == Repeat(MessageArrives(0), k - 1);
    }
  }

  lemma {:induction false} TotalLower(ms: seq<Message>)
    ensures 3 * TotalMessageBytes(ms) >= 4 * InputBytes(ms) + |ms|
  {
    if ms != [] { TotalLower(ms[1..]); }
  }

  /** The first `k` messages on the wire fit, the next one does not: it is refused. */
  lemma Refused(t: Traffic, k: nat)
    requires t.released <= |t.chunks| && !t.refused && t.pending == [] && k < |t.up| && k <= MAX_PENDING_MESSAGES
    requires TotalMessageBytes(t.up[..k]) <= MAX_PENDING_BYTES
    requires k == MAX_PENDING_MESSAGES || TotalMessageBytes(t.up[..k + 1]) > MAX_PENDING_BYTES
    ensures Run(t, Repeat(MessageArrives(0), k + 1)) == t.(up := t.up[k..], pending := t.up[..k], refused := true)
  {
    hide MessageBytes, TotalMessageBytes, Run;
    assert [] + t.up[..k] == t.up[..k];
    Arrivals(t, k);
    var u := t.(up := t.up[k..], pending := t.up[..k]);
    assert t.up[..k + 1] == t.up[..k] + [t.up[k]];
    TotalSnoc(t.up[..k], t.up[k]);
    assert Repeat(MessageArrives(0), k + 1) == Repeat(MessageArrives(0), k) + [MessageArrives(0)];
    RunSnoc(t, Repeat(MessageArrives(0), k), MessageArrives(0));
  }

  lemma {:induction false} RunSnoc(t: Traffic, es: seq<Event>, e: Event)
    requires t.released <= |t.chunks| && Run(t, es).released <= |Run(t, es).chunks|
    ensures Run(t, es + [e]) == Step(Run(t, es), e)
    decreases |es|
  {
    if es == [] {
      assert es + [e] == [e] && [e][1..] == [];
      assert Run(t, [e]) == Run(Step(t, e), []);
    } else {
      assert (es + [e])[0] == es[0] && (es + [e])[1..] == es[1..] + [e];
      RunSnoc(Step(t, es[0]), es[1..], e);
    }
  }

  /** `n + 1` windows of the same chunks, each but the last given up on. */
  function WindowsOf(sizes: seq<nat>, n: nat): seq<Event> {
    if n == 0 then Sends(sizes) else WindowsOf(sizes, n - 1) + ([AckTimesOut] + Sends(sizes))
  }

  function Times(sizes: seq<nat>, n: nat): (r: seq<nat>)
    ensures |r| == n * |sizes|
  {
    if n == 0 then [] else Times(sizes, n - 1) + sizes
  }

  lemma {:induction false} SumTimes(sizes: seq<nat>, n: nat)
    ensures Sum(Times(sizes, n)) == n * Sum(sizes)
  {
    if n > 0 {
      SumTimes(sizes, n - 1);
      SumConcat(Times(sizes, n - 1), sizes);
    }
  }

  /** `n + 1` windows are on the wire, and nothing arrived. */
  ghost predicate Flooded(t: Traffic, sizes: seq<nat>, n: nat) {
    && Fits(t) && t.chunks == Times(sizes, n + 1) && t.released == n * |sizes|
    && t.up == Numbered(t.chunks, 0) && t.pending == [] && t.acks == [] && !t.refused && t.timeouts == n
  }

  lemma FirstFlood(sizes: seq<nat>)
    requires 0 < |sizes| <= INPUT_WINDOW_CHUNKS && Sum(sizes) <= INPUT_WINDOW_BYTES
    requires forall i :: 0 <= i < |sizes| ==> 0 < sizes[i] <= MAX_CHUNK_BYTES
    ensures Flooded(Run(QUIET, Sends(sizes)), sizes, 0)
  {
    QuietFits();
    RunFits(QUIET, Sends(sizes));
    SumOfNone();
    hide Fits, Sum;
    SendWindow(QUIET, sizes);
    assert Times(sizes, 1) == Times(sizes, 0) + sizes == sizes;
    assert QUIET.chunks + sizes == sizes;
  }

  lemma {:induction false} Flood(sizes: seq<nat>, n: nat)
    requires 0 < |sizes| <= INPUT_WINDOW_CHUNKS && Sum(sizes) <= INPUT_WINDOW_BYTES && (n + 1) * |sizes| <= MAX_SAFE_INTEGER
    requires forall i :: 0 <= i < |sizes| ==> 0 < sizes[i] <= MAX_CHUNK_BYTES
    ensures Flooded(Run(QUIET, WindowsOf(sizes, n)), sizes, n)
  {
    hide Fits, Sum, Flooded, Step, Run;
    if n == 0 {
      FirstFlood(sizes);
    } else {
      QuietFits();
      assert (n + 1) * |sizes| == n * |sizes| + |sizes|;
      Flood(sizes, n - 1);
      FloodMore(Run(QUIET, WindowsOf(sizes, n - 1)), sizes, n - 1);
      RunConcat(QUIET, WindowsOf(sizes, n - 1), [AckTimesOut] + Sends(sizes));
    }
  }

  lemma NumberedJoin(chunks: seq<nat>, more: seq<nat>)
    ensures Numbered(chunks, 0) + Numbered(chunks + more, |chunks|) == Numbered(chunks + more, 0)
  {
  }

  lemma TimeOut(t: Traffic)
    requires t.released < |t.chunks|
    ensures Step(t, AckTimesOut) == t.(abandoned := t.abandoned + Window(t), released := |t.chunks|, timeouts := t.timeouts + 1)
    ensures Window(Step(t, AckTimesOut)) == []
  {
  }

  lemma FloodMore(t: Traffic, sizes: seq<nat>, n: nat)
    requires Flooded(t, sizes, n) && 0 < |sizes| <= INPUT_WINDOW_CHUNKS && Sum(sizes) <= INPUT_WINDOW_BYTES
    requires (n + 2) * |sizes| <= MAX_SAFE_INTEGER && forall i :: 0 <= i < |sizes| ==> 0 < sizes[i] <= MAX_CHUNK_BYTES
    ensures t.released <= |t.chunks|
    ensures Flooded(Run(t, [AckTimesOut] + Sends(sizes)), sizes, n + 1)
  {
    hide Fits, Sum, Numbered, Step, Window;
    var es := [AckTimesOut] + Sends(sizes);
    FitsReleased(t);
    RunFits(t, es);
    assert (n + 1) * |sizes| == n * |sizes| + |sizes| && (n + 2) * |sizes| == (n + 1) * |sizes| + |sizes|;
    TimeOut(t);
    var u := Step(t, AckTimesOut);
    SumOfNone();
    SendWindow(u, sizes);
    assert es[0] == AckTimesOut && es[1..] == Sends(sizes);
    NumberedJoin(t.chunks, sizes);
  }

  lemma {:induction false} ResizesSentConcat(a: seq<Event>, b: seq<Event>)
    ensures ResizesSent(a + b) == ResizesSent(a) + ResizesSent(b)
  {
    if a == [] {
      assert a + b == b;
    } else {
      ResizesSentConcat(a[1..], b);
      assert (a + b)[0] == a[0] && (a + b)[1..] == a[1..] + b;
    }
  }

  lemma {:induction false} NoResizes(es: seq<Event>)
    requires forall i :: 0 <= i < |es| ==> !es[i].SendsResize?
    ensures ResizesSent(es) == 0
  {
    if es != [] { NoResizes(es[1..]); }
  }

  /** No resize, and no arrival that finds other connections in the way. */
  ghost predicate Harmless(es: seq<Event>) {
    ResizesSent(es) == 0 && Alone(es)
  }

  lemma HarmlessAll(es: seq<Event>)
    requires forall i :: 0 <= i < |es| ==> !es[i].SendsResize? && (es[i].MessageArrives? ==> es[i].others == 0)
    ensures Harmless(es)
  {
    NoResizes(es);
  }

  lemma AloneConcat(a: seq<Event>, b: seq<Event>)
    requires Alone(a) && Alone(b)
    ensures Alone(a + b)
  {
  }

  lemma HarmlessConcat(a: seq<Event>, b: seq<Event>)
    requires Harmless(a) && Harmless(b)
    ensures Harmless(a + b)
  {
    ResizesSentConcat(a, b);
    AloneConcat(a, b);
  }

  lemma {:induction false} WindowsQuiet(sizes: seq<nat>, n: nat)
    ensures Harmless(WindowsOf(sizes, n))
  {
    hide Harmless;
    HarmlessAll(Sends(sizes));
    if n > 0 {
      WindowsQuiet(sizes, n - 1);
      HarmlessAll([AckTimesOut] + Sends(sizes));
      HarmlessConcat(WindowsOf(sizes, n - 1), [AckTimesOut] + Sends(sizes));
    }
  }

  function Ones(k: nat): (r: seq<nat>)
    ensures |r| == k && forall i :: 0 <= i < k ==> r[i] == 1
  {
    seq(k, _ => 1)
  }

  const SMALL_WINDOW: seq<nat> := Ones(INPUT_WINDOW_CHUNKS)

  /** One message more than the gateway has slots for: small inputs, then resizes. */
  function TooMany(n: nat, resizes: nat): seq<Event> {
    WindowsOf(SMALL_WINDOW, n) + (Repeat(SendsResize(1, 1), resizes) + Repeat(MessageArrives(0), MAX_PENDING_MESSAGES + 1))
  }

  lemma TooManyAreRefused(n: nat, resizes: nat)
    requires n <= 1 && INPUT_WINDOW_CHUNKS * (n + 1) + resizes == MAX_PENDING_MESSAGES + 1
    ensures var es := TooMany(n, resizes);
            Run(QUIET, es).refused && Run(QUIET, es).timeouts == n && ResizesSent(es) == resizes && Alone(es)
  {
    SmallSum(INPUT_WINDOW_CHUNKS);
    Flood(SMALL_WINDOW, n);
    TooManySent(n, resizes);
    QuietFits();
    hide Fits, Run, Step, WindowsOf, Sum, ResizesSent, Alone;
    var t := Run(QUIET, WindowsOf(SMALL_WINDOW, n));
    var a, b := Repeat(SendsResize(1, 1), resizes), Repeat(MessageArrives(0), MAX_PENDING_MESSAGES + 1);
    RunConcat(QUIET, WindowsOf(SMALL_WINDOW, n), a + b);
    RunConcat(t, a, b);
    FitsReleased(t);
    SendResizes(t, resizes);
    TooManyArrive(t, Run(t, a), n, resizes);
  }

  lemma TooManySent(n: nat, resizes: nat)
    ensures ResizesSent(TooMany(n, resizes)) == resizes && Alone(TooMany(n, resizes))
  {
    var a, b := Repeat(SendsResize(1, 1), resizes), Repeat(MessageArrives(0), MAX_PENDING_MESSAGES + 1);
    WindowsQuiet(SMALL_WINDOW, n);
    HarmlessAll(b);
    SendResizes(QUIET, resizes);
    assert Alone(a);
    hide WindowsOf, ResizesSent, Alone;
    ResizesSentConcat(WindowsOf(SMALL_WINDOW, n), a + b);
    ResizesSentConcat(a, b);
    AloneConcat(a, b);
    AloneConcat(WindowsOf(SMALL_WINDOW, n), a + b);
  }

  lemma {:induction false} SmallSum(k: nat)
    ensures Sum(Ones(k)) == k
  {
    if k > 0 {
      SmallSum(k - 1);
      assert Ones(k)[1..] == Ones(k - 1);
    }
  }

  lemma TooManyArrive(t: Traffic, u: Traffic, n: nat, resizes: nat)
    requires n <= 1 && INPUT_WINDOW_CHUNKS * (n + 1) + resizes == MAX_PENDING_MESSAGES + 1
    requires Flooded(t, SMALL_WINDOW, n) && Fits(u) && u == t.(up := t.up + seq(resizes, _ => Resize(1, 1)))
    ensures var v := Run(u, Repeat(MessageArrives(0), MAX_PENDING_MESSAGES + 1)); v.refused && v.timeouts == n
  {
    var k := MAX_PENDING_MESSAGES;
    assert |u.up| == k + 1;
    hide Sum, Inputs, InputBytes, Resizes, MessageBytes, TotalMessageBytes, Numbered;
    var ms := u.up[..k];
    assert SizesOk(ms);
    TotalBound(ms);
    InputsConcat(ms, u.up[k..]);
    assert ms + u.up[k..] == u.up;
    InputBytesOfNumbered(t.chunks, 0);
    assert t.chunks[0..] == t.chunks;
    SmallSum(INPUT_WINDOW_CHUNKS);
    SumTimes(SMALL_WINDOW, n + 1);
    InputsConcat(t.up, seq(resizes, _ => Resize(1, 1)));
    ResizesHoldNoBytes(resizes);
    assert Inputs(ms) == Inputs(ms) && |Inputs(ms)| <= |ms| && Resizes(ms) <= |ms|;
    Refused(u, k);
  }

  lemma {:induction false} ResizesHoldNoBytes(k: nat)
    ensures InputBytes(seq(k, _ => Resize(1, 1))) == 0
  {
    if k > 0 {
      ResizesHoldNoBytes(k - 1);
      assert seq(k, _ => Resize(1, 1))[1..] == seq(k - 1, _ => Resize(1, 1));
    }
  }

  const FULL_WINDOW: seq<nat> := [MAX_CHUNK_BYTES, MAX_CHUNK_BYTES, MAX_CHUNK_BYTES, MAX_CHUNK_BYTES, MAX_CHUNK_BYTES, INPUT_WINDOW_BYTES - 5 * MAX_CHUNK_BYTES]

  lemma FullSum()
    ensures |FULL_WINDOW| == 6 && Sum(FULL_WINDOW) == INPUT_WINDOW_BYTES
  {
    var f := FULL_WINDOW;
    assert f == [f[0]] + ([f[1]] + ([f[2]] + ([f[3]] + ([f[4]] + [f[5]]))));
    assert f[5..] == [f[5]] && Sum([f[5]]) == f[5] by { assert [f[5]][1..] == []; }
    assert f[1..][1..] == f[2..] && f[2..][1..] == f[3..] && f[3..][1..] == f[4..] && f[4..][1..] == f[5..];
    assert Sum(f[4..]) == f[4] + f[5];
    assert Sum(f[2..]) == f[2] + f[3] + Sum(f[4..]);
  }

  /** Three full windows arrive after two ack timeouts. */
  function ThreeWindows(): seq<Event> {
    WindowsOf(FULL_WINDOW, 2) + Repeat(MessageArrives(0), 18)
  }

  /**
   * Three full windows are too much: with two ack timeouts, no resize, and nothing pending on any other
   * connection, the gateway refuses the eighteenth message.
   */
  lemma ThreeWindowsAreTooMuch()
    ensures var t := Run(QUIET, ThreeWindows());
            && t.refused && t.timeouts == 2 && ResizesSent(ThreeWindows()) == 0 && Alone(ThreeWindows())
            && Fits(t) && |t.chunks| == 18 && t.released == 12
  {
    FullSum();
    Flood(FULL_WINDOW, 2);
    QuietFits();
    WindowsQuiet(FULL_WINDOW, 2);
    HarmlessAll(Repeat(MessageArrives(0), 18));
    HarmlessConcat(WindowsOf(FULL_WINDOW, 2), Repeat(MessageArrives(0), 18));
    hide Fits, Sum, Run, Step, ResizesSent, Alone, WindowsOf, Numbered, Repeat;
    var t := Run(QUIET, WindowsOf(FULL_WINDOW, 2));
    RunConcat(QUIET, WindowsOf(FULL_WINDOW, 2), Repeat(MessageArrives(0), 18));
    RunFits(t, Repeat(MessageArrives(0), 18));
    ThreeWindowsArrive(t);
  }

  lemma ThreeWindowsArrive(t: Traffic)
    requires Flooded(t, FULL_WINDOW, 2)
    ensures Run(t, Repeat(MessageArrives(0), 18)) == t.(up := t.up[17..], pending := t.up[..17], refused := true)
  {
    FullSum();
    assert |t.up| == 18 && t.chunks[17] == INPUT_WINDOW_BYTES - 5 * MAX_CHUNK_BYTES by { assert t.chunks == Times(FULL_WINDOW, 2) + FULL_WINDOW; }
    assert t.up[17] == Input(18, INPUT_WINDOW_BYTES - 5 * MAX_CHUNK_BYTES);
    hide Sum, Inputs, InputBytes, Resizes, MessageBytes, TotalMessageBytes, Numbered, Times;
    var ms := t.up[..17];
    assert t.up == ms + [t.up[17]] && t.up[..18] == t.up && SizesOk(ms);
    InputBytesOfNumbered(t.chunks, 0);
    assert t.chunks[0..] == t.chunks;
    SumTimes(FULL_WINDOW, 3);
    InputsConcat(ms, [t.up[17]]);
    InputsOne(t.up[17]);
    TotalBound(ms);
    TotalLower(t.up);
    Refused(t, 17);
  }

  /** Messages that arrive while other connections have `others` bytes pending are all taken, or one is refused. */
  lemma {:induction false} ArriveOrRefuse(t: Traffic, k: nat, others: nat)
    requires t.released <= |t.chunks| && !t.refused && k <= |t.up|
    ensures var u := Run(t, Repeat(MessageArrives(others), k)); u.refused || u == t.(up := t.up[k..], pending := t.pending + t.up[..k])
    decreases k
  {
    hide QueueFull;
    var es := Repeat(MessageArrives(others), k);
    if k == 0 {
      assert t.pending + t.up[..0] == t.pending;
    } else {
      var u := Step(t, MessageArrives(others));
      assert es[1..] == Repeat(MessageArrives(others), k - 1);
      if u.refused {
        StaysRefused(u, es[1..]);
      } else {
        ArriveOrRefuse(u, k - 1, others);
        assert t.pending + t.up[..k] == (t.pending + [t.up[0]]) + t.up[1..][..k - 1];
      }
    }
  }

  lemma {:induction false} ArrivalsKeepTimeouts(t: Traffic, k: nat, others: nat)
    requires t.released <= |t.chunks|
    ensures Run(t, Repeat(MessageArrives(others), k)).timeouts == t.timeouts
    decreases k
  {
    hide QueueFull;
    if k > 0 {
      assert Repeat(MessageArrives(others), k)[1..] == Repeat(MessageArrives(others), k - 1);
      ArrivalsKeepTimeouts(Step(t, MessageArrives(others)), k - 1, others);
    }
  }

  lemma {:induction false} StaysRefused(t: Traffic, es: seq<Event>)
    requires t.released <= |t.chunks| && t.refused
    ensures Run(t, es).refused
    decreases |es|
  {
    if es != [] { StaysRefused(Step(t, es[0]), es[1..]); }
  }

  // ---- Exactly when a connection is refused ----

  lemma OneMoreChunk(t: Traffic)
    requires t.released <= |t.chunks| && Window(t) == [] && |t.chunks| < MAX_SAFE_INTEGER
    ensures var u := Step(t, SendsInput(1));
            |u.chunks| == |t.chunks| + 1 && u.released < |u.chunks| && u.refused == t.refused && u.timeouts == t.timeouts
  {
    SumOfNone();
  }

  lemma OneMoreTimeout(t: Traffic)
    requires Fits(t) && Window(t) == [] && |t.chunks| < MAX_SAFE_INTEGER
    ensures var u := Run(t, [SendsInput(1), AckTimesOut]);
            Fits(u) && Window(u) == [] && |u.chunks| == |t.chunks| + 1 && u.refused == t.refused && u.timeouts == t.timeouts + 1
  {
    hide Fits;
    FitsReleased(t);
    var u := Step(t, SendsInput(1));
    OneMoreChunk(t);
    StepFits(t, SendsInput(1));
    hide Step, Window;
    TimeOut(u);
    StepFits(u, AckTimesOut);
    assert [SendsInput(1), AckTimesOut][1..] == [AckTimesOut] && [AckTimesOut][1..] == [];
    assert Run(u, [AckTimesOut]) == Run(Step(u, AckTimesOut), []);
  }

  /** More ack timeouts after a refusal, one chunk each. */
  lemma {:induction false} MoreTimeouts(t: Traffic, k: nat) returns (es: seq<Event>)
    requires Fits(t) && t.refused && Window(t) == [] && |t.chunks| + k <= MAX_SAFE_INTEGER
    ensures Run(t, es).refused && Run(t, es).timeouts == t.timeouts + k && Harmless(es)
    decreases k
  {
    if k == 0 {
      es := [];
    } else {
      var two := [SendsInput(1), AckTimesOut];
      HarmlessAll(two);
      hide Fits, Run, Window, Harmless;
      OneMoreTimeout(t);
      FitsReleased(t);
      var rest := MoreTimeouts(Run(t, two), k - 1);
      es := two + rest;
      RunConcat(t, two, rest);
      HarmlessConcat(two, rest);
    }
  }

  lemma RefusedAfter(n: nat) returns (es: seq<Event>)
    requires 2 <= n <= MAX_SAFE_INTEGER - 15
    ensures Run(QUIET, es).refused && Run(QUIET, es).timeouts == n && ResizesSent(es) == 0 && Alone(es)
  {
    hide Fits, Step, ThreeWindows, ResizesSent, Alone, Window;
    ThreeWindowsAreTooMuch();
    es := ThreeWindows();
    if n > 2 {
      var t := Run(QUIET, es);
      TimeOut(t);
      StepFits(t, AckTimesOut);
      var rest := MoreTimeouts(Step(t, AckTimesOut), n - 3);
      var more := [AckTimesOut] + rest;
      assert more[0] == AckTimesOut && more[1..] == rest;
      assert Run(t, more) == Run(Step(t, AckTimesOut), rest);
      HarmlessAll([AckTimesOut]);
      HarmlessConcat([AckTimesOut], rest);
      HarmlessConcat(es, more);
      hide Run;
      QuietFits();
      RunConcat(QUIET, es, more);
      es := es + more;
    }
  }

  /**
   * Without resizes, and for every number of ack timeouts that the browser's ids allow: no run with
   * exactly `n` of them is refused if and only if `n` is at most one.
   */
  lemma NoRefusalIff(n: nat)
    requires n <= MAX_SAFE_INTEGER - 15
    ensures (forall es :: RoomLeft(es) && Run(QUIET, es).timeouts == n && ResizesSent(es) == 0 ==> !Run(QUIET, es).refused) <==> n <= 1
  {
    if n <= 1 {
      forall es | RoomLeft(es) && Run(QUIET, es).timeouts == n && ResizesSent(es) == 0 ensures !Run(QUIET, es).refused {
        QuietFits();
        RunNotRefused(QUIET, es, n, 0);
      }
    } else {
      var es := RefusedAfter(n);
      assert RoomLeft(es);
    }
  }

  // ---- The browser's half is the sender ----

  /** The traffic is that of a live sender: the same chunks, the same window. */
  ghost predicate Mirrors(s: B.InputSender, t: Traffic)
    reads s, s.socket
  {
    && !s.disposed && t.released <= |t.chunks|
    && t.chunks == B.Sizes(s.socket.frames) && t.released == s.sequence - |s.inFlight|
  }

  lemma {:induction false} InFlightBytes(inFlight: seq<B.Chunk>, sizes: seq<nat>)
    requires |inFlight| == |sizes| && forall i :: 0 <= i < |sizes| ==> inFlight[i].bytes == sizes[i]
    ensures B.TotalBytes(inFlight) == Sum(sizes)
  {
    if sizes != [] { InFlightBytes(inFlight[1..], sizes[1..]); }
  }

  /** Chunks that extend a window and still fit it were sent one by one. */
  lemma WindowIsSends(t: Traffic, sizes: seq<nat>, inFlight: seq<B.Chunk>)
    requires t.released <= |t.chunks| && t.chunks <= sizes && |sizes| <= MAX_SAFE_INTEGER
    requires |inFlight| == |sizes| - t.released && |inFlight| <= INPUT_WINDOW_CHUNKS && B.TotalBytes(inFlight) <= INPUT_WINDOW_BYTES
    requires forall i :: 0 <= i < |inFlight| ==> inFlight[i].bytes == sizes[t.released + i] && 0 < inFlight[i].bytes <= MAX_CHUNK_BYTES
    ensures Run(t, Sends(sizes[|t.chunks|..])) == t.(chunks := sizes, up := t.up + Numbered(sizes, |t.chunks|))
  {
    hide Sum, Numbered;
    var more := sizes[|t.chunks|..];
    assert sizes[t.released..] == Window(t) + more;
    InFlightBytes(inFlight, sizes[t.released..]);
    SumConcat(Window(t), more);
    forall i | 0 <= i < |more| ensures 0 < more[i] <= MAX_CHUNK_BYTES {
      assert more[i] == inFlight[|t.chunks| + i - t.released].bytes;
    }
    SendWindow(t, more);
    assert t.chunks + more == sizes;
  }

  /** What a sender put on the wire since `t` are sends of the model. */
  lemma SentSince(s: B.InputSender, t: Traffic)
    requires s.Valid() && !s.disposed && s.sequence <= MAX_SAFE_INTEGER
    requires t.released <= |t.chunks| && t.chunks <= B.Sizes(s.socket.frames) && t.released == s.sequence - |s.inFlight|
    ensures Mirrors(s, Run(t, Sends(B.Sizes(s.socket.frames)[|t.chunks|..])))
  {
    hide B.Sizes, B.TotalBytes, B.Data, B.Numbered;
    WindowIsSends(t, B.Sizes(s.socket.frames), s.inFlight);
  }

  method Enqueue(s: B.InputSender, text: seq<unit>, ghost t: Traffic) returns (ok: bool, ghost sizes: seq<nat>)
    requires s.Valid() && Mirrors(s, t)
    modifies s, s.socket`bufferedAmount, s.socket`frames
    ensures s.Valid()
    ensures !s.disposed && s.sequence <= MAX_SAFE_INTEGER ==> Mirrors(s, Run(t, Sends(sizes)))
  {
    hide B.Sizes;
    ok := s.Enqueue(text);
    sizes := [];
    if !s.disposed && s.sequence <= MAX_SAFE_INTEGER {
      sizes := B.Sizes(s.socket.frames)[|t.chunks|..];
      SentSince(s, t);
    }
  }

  method Connect(s: B.InputSender, ackSupported: bool, ghost t: Traffic) returns (ghost sizes: seq<nat>)
    requires s.Valid() && Mirrors(s, t) && s.socket.readyState != 0
    modifies s, s.socket`bufferedAmount, s.socket`frames
    ensures s.Valid()
    ensures !s.disposed && s.sequence <= MAX_SAFE_INTEGER ==> Mirrors(s, Run(t, Sends(sizes)))
  {
    hide B.Sizes;
    s.Connected(ackSupported);
    sizes := [];
    if !s.disposed && s.sequence <= MAX_SAFE_INTEGER {
      sizes := B.Sizes(s.socket.frames)[|t.chunks|..];
      SentSince(s, t);
    }
  }

  method Retry(s: B.InputSender, ghost t: Traffic) returns (ghost sizes: seq<nat>)
    requires s.Valid() && Mirrors(s, t) && s.timer
    modifies s, s.socket`bufferedAmount, s.socket`frames
    ensures s.Valid()
    ensures !s.disposed && s.sequence <= MAX_SAFE_INTEGER ==> Mirrors(s, Run(t, Sends(sizes)))
  {
    hide B.Sizes;
    s.RetryTimeout();
    sizes := [];
    if !s.disposed && s.sequence <= MAX_SAFE_INTEGER {
      sizes := B.Sizes(s.socket.frames)[|t.chunks|..];
      SentSince(s, t);
    }
  }

  /** An ack of the gateway arrives, and what it lets go out is sent. */
  method Acknowledge(s: B.InputSender, id: nat, ghost t: Traffic) returns (ghost sizes: seq<nat>)
    requires s.Valid() && Mirrors(s, t) && t.acks != [] && t.acks[0] == id
    modifies s, s.socket`bufferedAmount, s.socket`frames
    ensures s.Valid()
    ensures !s.disposed && s.sequence <= MAX_SAFE_INTEGER ==> Mirrors(s, Run(Step(t, AckArrives), Sends(sizes)))
  {
    hide B.Sizes;
    ghost var window := s.inFlight;
    ghost var k := s.Acknowledge(B.Number(id as real));
    sizes := [];
    if !s.disposed && s.sequence <= MAX_SAFE_INTEGER {
      AckReleases(t, window, id, k);
      sizes := B.Sizes(s.socket.frames)[|t.chunks|..];
      SentSince(s, Step(t, AckArrives));
    }
  }

  /** Both halves release the same chunks for an ack. */
  lemma AckReleases(t: Traffic, window: seq<B.Chunk>, id: nat, k: nat)
    requires t.released + |window| == |t.chunks| && t.acks != [] && t.acks[0] == id && k <= |window|
    requires forall i :: 0 <= i < |window| ==> window[i].id == t.released + 1 + i
    requires forall i :: 0 <= i < k ==> window[i].id as real <= id as real
    requires forall i :: k <= i < |window| ==> window[i].id as real > id as real
    ensures Step(t, AckArrives).released == t.released + k && Step(t, AckArrives).chunks == t.chunks
  {
    if k > 0 { assert window[k - 1].id as real <= id as real; }
    if k < |window| { assert window[k].id as real > id as real; }
  }

  method AckTimeout(s: B.InputSender, ghost t: Traffic) returns (ghost sizes: seq<nat>)
    requires s.Valid() && Mirrors(s, t) && s.ackTimer
    modifies s, s.socket`bufferedAmount, s.socket`frames
    ensures s.Valid()
    ensures !s.disposed && s.sequence <= MAX_SAFE_INTEGER ==> Mirrors(s, Run(Step(t, AckTimesOut), Sends(sizes)))
  {
    hide B.Sizes;
    TimeOut(t);
    s.AckTimeout();
    sizes := [];
    if !s.disposed && s.sequence <= MAX_SAFE_INTEGER {
      sizes := B.Sizes(s.socket.frames)[|t.chunks|..];
      SentSince(s, Step(t, AckTimesOut));
    }
  }
}

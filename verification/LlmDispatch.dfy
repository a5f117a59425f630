/** How the main loop calls the provider: per iteration a pass of up to three attempts, the first of which
    may stream and fall back; one reactive compaction per run gives a pass one more attempt, and one
    response per run that contradicts itself gives an iteration a second pass. */
module LlmDispatch {

  const MAX_RETRIES := 3
  const MAX_INCONSISTENT := 1

  /** What the code asks of a failed call, in the order it asks. */
  datatype Error = Error(cancelled: bool, expired: bool, budget: bool, overflow: bool, retryable: bool)

  /** `inconsistent`: it claims tool calls and has none, nor text.  `more`: the run goes on after it. */
  datatype Reply = Ok(inconsistent: bool, more: bool) | Err(error: Error)

  /** `idle` and `dropped` matter for a streaming attempt; `reply` is that of the last call made.
      `preparesAgain` and `waits`: the request can be rebuilt, and nobody cancels the backoff. */
  datatype Attempt = Attempt(idle: bool, dropped: bool, reply: Reply, preparesAgain: bool, waits: bool)

  /** What the top of an iteration does before it dispatches. */
  datatype Top = Quit | Skip | Go

  datatype World = World(maxIter: nat, streaming: bool, tops: nat -> Top, attempts: nat -> Attempt)

  /** One attempt: its iteration, its number in its pass, and what came of it. */
  datatype Try = Try(i: nat, attempt: nat, tried: Attempt)

  /** `tries`: the attempts made; `calls`: completion calls made. */
  datatype Machine = Machine(i: nat, attempt: nat, inconsistent: nat, reactive: bool, tries: seq<Try>, calls: nat)

  datatype Exit = Exhausted | Stopped | StreamIdle | Cancelled | Budget | NotPrepared | Failed | Answered

  datatype Final = Final(machine: Machine, exit: Exit)

  datatype Turn = Again(m: Machine) | Repass(m: Machine) | NextIteration(m: Machine) | Over(m: Machine, exit: Exit)

  function Calls(m: Machine, a: Attempt, w: World): nat {
    if w.streaming && m.attempt == 0 && !a.idle && a.dropped then 2 else 1
  }

  function AfterError(m: Machine, e: Error, a: Attempt): Turn {
    if e.cancelled then Over(m, Cancelled)
    else if e.expired then NextIteration(m.(i := m.i + 1, attempt := 0))
    else if e.budget then Over(m, Budget)
    else if e.overflow && !m.reactive then
      if a.preparesAgain then Again(m.(reactive := true, attempt := m.attempt + 1))
      else Over(m.(reactive := true), NotPrepared)
    else if !e.retryable || m.attempt >= MAX_RETRIES - 1 then Over(m, Failed)
    else if a.waits then Again(m.(attempt := m.attempt + 1))
    else Over(m, Cancelled)
  }

  function Tried(m: Machine, a: Attempt, w: World): Machine {
    m.(tries := m.tries + [Try(m.i, m.attempt, a)], calls := m.calls + Calls(m, a, w))
  }

  function AfterAttempt(m0: Machine, a: Attempt, w: World): Turn {
    var m := Tried(m0, a, w);
    if w.streaming && m.attempt == 0 && a.idle then Over(m, StreamIdle)
    else match a.reply
      case Err(e) => AfterError(m, e, a)
      case Ok(inconsistent, more) =>
        if inconsistent && m.inconsistent < MAX_INCONSISTENT then
          Repass(m.(inconsistent := m.inconsistent + 1, attempt := 0))
        else if more then NextIteration(m.(i := m.i + 1, attempt := 0))
        else Over(m, Answered)
  }

  /** Within a pass. */
  predicate InPass(m: Machine, w: World) {
    m.i < w.maxIter && m.inconsistent <= MAX_INCONSISTENT && m.attempt <= if m.reactive then 3 else 2
  }

  predicate AtTop(m: Machine, w: World) {
    m.i <= w.maxIter && m.inconsistent <= MAX_INCONSISTENT && m.attempt == 0
  }

  function AttemptsLeft(m: Machine): nat
    requires m.attempt <= 3
  {
    (if m.reactive then 0 else 2) + 3 - m.attempt
  }

  /** The whole run; that it is a function says that it ends for every world. */
  function Iterate(m: Machine, w: World): Final
    requires AtTop(m, w)
    decreases w.maxIter - m.i, MAX_INCONSISTENT + 1 - m.inconsistent, 10
  {
    if m.i >= w.maxIter then Final(m, Exhausted)
    else match w.tops(m.i)
      case Quit => Final(m, Stopped)
      case Skip => Iterate(m.(i := m.i + 1), w)
      case Go => Dispatch(m, w)
  }

  function Dispatch(m: Machine, w: World): Final
    requires InPass(m, w)
    decreases w.maxIter - m.i, MAX_INCONSISTENT + 1 - m.inconsistent, AttemptsLeft(m)
  {
    match AfterAttempt(m, w.attempts(|m.tries|), w)
    case Again(n) => Dispatch(n, w)
    case Repass(n) => Dispatch(n, w)
    case NextIteration(n) => Iterate(n, w)
    case Over(n, exit) => Final(n, exit)
  }

  const INITIAL := Machine(0, 0, 0, false, [], 0)

  // ---- the bound ----

  function ReactiveCost(m: Machine): nat {
    if m.reactive then 1 else 0
  }

  predicate TopBound(m: Machine) {
    m.calls <= 4 * m.i + 4 * m.inconsistent + ReactiveCost(m)
  }

  function Spent(attempt: nat): nat {
    if attempt == 0 then 0 else attempt + 1
  }

  /** The extra attempt is paid for in this pass, or was paid for in an earlier one. */
  predicate PassBound(m: Machine) {
    || m.calls <= 4 * m.i + 4 * m.inconsistent + Spent(m.attempt)
    || (m.reactive && m.attempt <= 2 && m.calls <= 4 * m.i + 4 * m.inconsistent + 1 + Spent(m.attempt))
  }

  /** `PassBound` once the calls of the attempt are counted. */
  predicate TriedBound(m: Machine) {
    || m.calls <= 4 * m.i + 4 * m.inconsistent + m.attempt + 2
    || (m.reactive && m.attempt <= 2 && m.calls <= 4 * m.i + 4 * m.inconsistent + m.attempt + 3)
  }

  predicate TurnBound(out: Turn, w: World) {
    match out
    case Again(n) => PassBound(n) && InPass(n, w)
    case Repass(n) => PassBound(n) && InPass(n, w)
    case NextIteration(n) => TopBound(n) && AtTop(n, w)
    case Over(n, _) => n.calls <= 4 * n.i + 4 * n.inconsistent + 4 + ReactiveCost(n)
                       && n.i < w.maxIter && n.inconsistent <= MAX_INCONSISTENT
  }

  lemma ErrorIsBounded(m: Machine, e: Error, a: Attempt, w: World)
    requires InPass(m, w) && TriedBound(m)
    ensures TurnBound(AfterError(m, e, a), w)
  {
  }

  lemma CallsAreCounted(m: Machine, a: Attempt, w: World)
    requires InPass(m, w) && PassBound(m)
    ensures TriedBound(Tried(m, a, w))
  {
  }

  lemma AttemptIsBounded(m: Machine, a: Attempt, w: World)
    requires InPass(m, w) && PassBound(m)
    ensures TurnBound(AfterAttempt(m, a, w), w)
  {
    CallsAreCounted(m, a, w);
    var m1 := Tried(m, a, w);
    if a.reply.Err? && !(w.streaming && m.attempt == 0 && a.idle) {
      assert AfterAttempt(m, a, w) == AfterError(m1, a.reply.error, a);
      ErrorIsBounded(m1, a.reply.error, a, w);
    } else {
      assert TurnBound(AfterAttempt(m, a, w), w);
    }
  }

  lemma {:induction false} DispatchIsBounded(m: Machine, w: World)
    requires InPass(m, w) && PassBound(m)
    ensures Dispatch(m, w).machine.calls <= 4 * w.maxIter + 5
    decreases w.maxIter - m.i, MAX_INCONSISTENT + 1 - m.inconsistent, AttemptsLeft(m)
  {
    AttemptIsBounded(m, w.attempts(|m.tries|), w);
    match AfterAttempt(m, w.attempts(|m.tries|), w)
    case Again(n) => DispatchIsBounded(n, w);
    case Repass(n) => DispatchIsBounded(n, w);
    case NextIteration(n) => IterateIsBounded(n, w);
    case Over(n, _) =>
  }

  lemma {:induction false} IterateIsBounded(m: Machine, w: World)
    requires AtTop(m, w) && TopBound(m)
    ensures Iterate(m, w).machine.calls <= 4 * w.maxIter + 5
    decreases w.maxIter - m.i, MAX_INCONSISTENT + 1 - m.inconsistent, 10
  {
    if m.i < w.maxIter {
      match w.tops(m.i)
      case Quit =>
      case Skip => IterateIsBounded(m.(i := m.i + 1), w);
      case Go => DispatchIsBounded(m, w);
    }
  }

  /** Whatever the provider does, the main loop ends within `4 * maxIter + 5` completion calls. */
  lemma CallsAreBounded(w: World)
    ensures Iterate(INITIAL, w).machine.calls <= 4 * w.maxIter + 5
  {
    IterateIsBounded(INITIAL, w);
  }

  // ---- the bound is reached ----

  const TRANSIENT := Err(Error(false, false, false, false, true))
  const TOO_LONG := Err(Error(false, false, false, true, false))

  /** Dropped stream, transient failure, and then an answer, over and over; the first pass overflows in
      place of its answer and then contradicts itself. */
  function WorstAttempt(k: nat): Attempt {
    if k == 2 then Attempt(false, false, TOO_LONG, true, true)
    else if k == 3 then Attempt(false, false, Ok(true, true), true, true)
    else if k == 0 || (k >= 4 && (k - 4) % 3 == 0) then Attempt(false, true, TRANSIENT, true, true)
    else if k == 1 || (k >= 4 && (k - 4) % 3 == 1) then Attempt(false, false, TRANSIENT, true, true)
    else Attempt(false, false, Ok(false, true), true, true)
  }

  function Worst(maxIter: nat): World {
    World(maxIter, true, _ => Go, WorstAttempt)
  }

  lemma WorstCycle(j: nat)
    ensures WorstAttempt(4 + 3 * j) == Attempt(false, true, TRANSIENT, true, true)
    ensures WorstAttempt(5 + 3 * j) == Attempt(false, false, TRANSIENT, true, true)
    ensures WorstAttempt(6 + 3 * j) == Attempt(false, false, Ok(false, true), true, true)
  {
    assert (3 * j) % 3 == 0 && (3 * j + 1) % 3 == 1 && (3 * j + 2) % 3 == 2;
  }

  /** A machine at the top of a later iteration, and the one three attempts on. */
  function NextOf(m: Machine): Machine {
    var tries := [Try(m.i, 0, Attempt(false, true, TRANSIENT, true, true)),
                  Try(m.i, 1, Attempt(false, false, TRANSIENT, true, true)),
                  Try(m.i, 2, Attempt(false, false, Ok(false, true), true, true))];
    m.(i := m.i + 1, tries := m.tries + tries, calls := m.calls + 4)
  }

  lemma WorstIteration(m: Machine, maxIter: nat, j: nat)
    requires AtTop(m, Worst(maxIter)) && m.i < maxIter && m.inconsistent == 1 && |m.tries| == 4 + 3 * j
    ensures Iterate(m, Worst(maxIter)) == Iterate(NextOf(m), Worst(maxIter))
  {
    var w := Worst(maxIter);
    WorstCycle(j);
    var m1 := Tried(m, w.attempts(|m.tries|), w).(attempt := 1);
    var m2 := Tried(m1, w.attempts(|m1.tries|), w).(attempt := 2);
    var n := Tried(m2, w.attempts(|m2.tries|), w).(i := m.i + 1, attempt := 0);
    assert n == NextOf(m);
    assert Dispatch(m, w) == Dispatch(m1, w) by { assert AfterAttempt(m, w.attempts(|m.tries|), w) == Again(m1); }
    assert Dispatch(m1, w) == Dispatch(m2, w) by { assert AfterAttempt(m1, w.attempts(|m1.tries|), w) == Again(m2); }
    assert Dispatch(m2, w) == Iterate(n, w) by {
      assert AfterAttempt(m2, w.attempts(|m2.tries|), w) == NextIteration(n);
    }
  }

  /** Every later iteration costs four calls. */
  lemma {:induction false} LaterIterations(m: Machine, maxIter: nat, j: nat)
    requires AtTop(m, Worst(maxIter)) && m.inconsistent == 1 && |m.tries| == 4 + 3 * j
    ensures Iterate(m, Worst(maxIter)).machine.calls == m.calls + 4 * (maxIter - m.i)
    decreases maxIter - m.i
  {
    if m.i < maxIter {
      WorstIteration(m, maxIter, j);
      LaterIterations(NextOf(m), maxIter, j + 1);
    }
  }

  lemma BoundIsReached(maxIter: nat)
    requires maxIter >= 1
    ensures Iterate(INITIAL, Worst(maxIter)).machine.calls == 4 * maxIter + 5
  {
    var w := Worst(maxIter);
    var m1 := Tried(INITIAL, w.attempts(0), w).(attempt := 1);
    var m2 := Tried(m1, w.attempts(1), w).(attempt := 2);
    var m3 := Tried(m2, w.attempts(2), w).(attempt := 3, reactive := true);
    var n0 := Tried(m3, w.attempts(3), w).(attempt := 0, inconsistent := 1);
    assert AfterAttempt(INITIAL, w.attempts(0), w) == Again(m1);
    assert AfterAttempt(m1, w.attempts(1), w) == Again(m2);
    assert AfterAttempt(m2, w.attempts(2), w) == Again(m3);
    assert AfterAttempt(m3, w.attempts(3), w) == Repass(n0);
    assert Iterate(INITIAL, w) == Dispatch(INITIAL, w) == Dispatch(m1, w);
    assert Dispatch(m1, w) == Dispatch(m2, w) == Dispatch(m3, w) == Dispatch(n0, w);
    assert Dispatch(n0, w) == Iterate(n0, w);
    LaterIterations(n0, maxIter, 0);
  }

  // ---- what follows which reply ----

  /** The stream of a first attempt went silent; the run ends on the spot. */
  predicate Idles(t: Try, w: World) {
    w.streaming && t.attempt == 0 && t.tried.idle
  }

  predicate Fails(t: Try, w: World) {
    !Idles(t, w) && t.tried.reply.Err?
  }

  predicate Succeeds(t: Try, w: World) {
    !Idles(t, w) && t.tried.reply.Ok?
  }

  /** An error that neither compaction nor a retry is considered for. */
  predicate IsGrave(e: Error) {
    e.cancelled || e.expired || e.budget
  }

  predicate Overflows(t: Try, w: World) {
    Fails(t, w) && !IsGrave(t.tried.reply.error) && t.tried.reply.error.overflow
  }

  predicate Contradicts(t: Try, w: World) {
    Succeeds(t, w) && t.tried.reply.inconsistent
  }

  /** The first response of a run that contradicts itself is thrown away and asked for again. */
  predicate IsAskedAgain(t: Try, w: World, first: bool) {
    Contradicts(t, w) && first
  }

  predicate IsRetryable(t: Try, w: World)
    requires Fails(t, w)
  {
    t.tried.reply.error.retryable && t.attempt < MAX_RETRIES - 1
  }

  /** A failed attempt is followed by another in its pass: after the run's first overflow if the request can be
      rebuilt, else after a retryable error while attempts are left and nobody cancels the wait. */
  predicate IsRetried(t: Try, w: World, first: bool) {
    && Fails(t, w) && !IsGrave(t.tried.reply.error)
    && if Overflows(t, w) && first then t.tried.preparesAgain else IsRetryable(t, w) && t.tried.waits
  }

  /** The run goes on to the next iteration. */
  predicate MovesOn(t: Try, w: World, first: bool) {
    || (Fails(t, w) && !t.tried.reply.error.cancelled && t.tried.reply.error.expired)
    || (Succeeds(t, w) && !IsAskedAgain(t, w, first) && t.tried.reply.more)
  }

  /** Where the run is after an attempt; the flags say that none before it overflowed, or contradicted itself. */
  predicate LeadsTo(t: Try, w: World, firstOverflow: bool, firstContradiction: bool, i: nat, attempt: nat) {
    if IsRetried(t, w, firstOverflow) then i == t.i && attempt == t.attempt + 1
    else if IsAskedAgain(t, w, firstContradiction) then i == t.i && attempt == 0
    else
      && MovesOn(t, w, firstContradiction) && i > t.i && attempt == 0
      && forall j :: t.i < j < i ==> w.tops(j).Skip?
  }

  /** An error that is neither grave nor the run's first overflow. */
  predicate FailsPlainly(t: Try, w: World, firstOverflow: bool) {
    Fails(t, w) && !IsGrave(t.tried.reply.error) && !(Overflows(t, w) && firstOverflow)
  }

  /** Which reply each way of ending in mid-iteration stands for. */
  predicate EndsAfter(t: Try, w: World, firstOverflow: bool, firstContradiction: bool, exit: Exit) {
    match exit
    case Exhausted => false
    case Stopped => false
    case StreamIdle => Idles(t, w)
    case Answered => Succeeds(t, w) && !IsAskedAgain(t, w, firstContradiction) && !t.tried.reply.more
    case Budget =>
      Fails(t, w) && (var e := t.tried.reply.error; !e.cancelled && !e.expired && e.budget)
    case NotPrepared => Overflows(t, w) && firstOverflow && !t.tried.preparesAgain
    case Failed => FailsPlainly(t, w, firstOverflow) && !IsRetryable(t, w)
    case Cancelled =>
      && Fails(t, w)
      && (t.tried.reply.error.cancelled
          || (FailsPlainly(t, w, firstOverflow) && IsRetryable(t, w) && !t.tried.waits))
  }

  predicate NoneOverflowed(tries: seq<Try>, k: nat, w: World)
    requires k <= |tries|
  {
    forall j :: 0 <= j < k ==> !Overflows(tries[j], w)
  }

  predicate NoneContradicted(tries: seq<Try>, k: nat, w: World)
    requires k <= |tries|
  {
    forall j :: 0 <= j < k ==> !Contradicts(tries[j], w)
  }

  /** Where the run is after attempt `k`. */
  predicate IsPlace(tries: seq<Try>, k: nat, w: World, i: nat, attempt: nat)
    requires k < |tries|
  {
    LeadsTo(tries[k], w, NoneOverflowed(tries, k, w), NoneContradicted(tries, k, w), i, attempt)
  }

  predicate IsStart(w: World, i: nat, attempt: nat) {
    attempt == 0 && forall j :: 0 <= j < i ==> w.tops(j).Skip?
  }

  function CallsOf(tries: seq<Try>, w: World): nat {
    if tries == [] then 0
    else
      var t := tries[|tries| - 1];
      CallsOf(tries[..|tries| - 1], w)
      + if w.streaming && t.attempt == 0 && !t.tried.idle && t.tried.dropped then 2 else 1
  }

  /** Attempt `k` got the provider's next answer, in an iteration that dispatches, where the one before it leads. */
  ghost predicate Fits(tries: seq<Try>, k: nat, w: World)
    requires k < |tries|
  {
    var t := tries[k];
    && t.tried == w.attempts(k) && t.i < w.maxIter && w.tops(t.i).Go?
    && if k == 0 then IsStart(w, t.i, t.attempt) else IsPlace(tries, k - 1, w, t.i, t.attempt)
  }

  ghost predicate IsTranscript(tries: seq<Try>, w: World) {
    forall k :: 0 <= k < |tries| ==> Fits(tries, k, w)
  }

  /** The replies say where the run is. */
  ghost predicate Recorded(m: Machine, w: World) {
    && IsTranscript(m.tries, w) && m.calls == CallsOf(m.tries, w)
    && (if m.tries == [] then IsStart(w, m.i, m.attempt) else IsPlace(m.tries, |m.tries| - 1, w, m.i, m.attempt))
    && (m.reactive <==> !NoneOverflowed(m.tries, |m.tries|, w))
    && (m.inconsistent > 0 <==> !NoneContradicted(m.tries, |m.tries|, w))
  }

  /** No attempt was made, or the last one ended its iteration. */
  predicate IsBetween(m: Machine, w: World) {
    m.tries == [] || MovesOn(m.tries[|m.tries| - 1], w, NoneContradicted(m.tries, |m.tries| - 1, w))
  }

  /** Which reply each way of ending stands for. */
  predicate EndsAs(m: Machine, w: World, exit: Exit) {
    var k := |m.tries| - 1;
    if exit.Exhausted? then IsBetween(m, w) && m.i >= w.maxIter
    else if exit.Stopped? then IsBetween(m, w) && m.i < w.maxIter && w.tops(m.i).Quit?
    else
      k >= 0 && EndsAfter(m.tries[k], w, NoneOverflowed(m.tries, k, w), NoneContradicted(m.tries, k, w), exit)
  }

  // ---- the run has this transcript ----

  /** One attempt, seen from its reply. */
  predicate TurnFits(m: Machine, t: Try, w: World, out: Turn) {
    var n := out.m;
    && n.tries == m.tries + [t]
    && n.calls == m.calls + (if w.streaming && t.attempt == 0 && !t.tried.idle && t.tried.dropped then 2 else 1)
    && if out.Over? then EndsAfter(t, w, !m.reactive, m.inconsistent == 0, out.exit)
       else
         && LeadsTo(t, w, !m.reactive, m.inconsistent == 0, n.i, n.attempt)
         && (n.reactive <==> m.reactive || Overflows(t, w))
         && (n.inconsistent > 0 <==> m.inconsistent > 0 || Contradicts(t, w))
         && (out.NextIteration? <==> MovesOn(t, w, m.inconsistent == 0))
         && (!out.NextIteration? ==> n.i == m.i)
  }

  lemma ErrorFits(m: Machine, a: Attempt, w: World)
    requires a.reply.Err? && !(w.streaming && m.attempt == 0 && a.idle)
    ensures TurnFits(m, Try(m.i, m.attempt, a), w, AfterError(Tried(m, a, w), a.reply.error, a))
  {
  }

  lemma ReplyFits(m: Machine, a: Attempt, w: World)
    ensures TurnFits(m, Try(m.i, m.attempt, a), w, AfterAttempt(m, a, w))
  {
    if a.reply.Err? && !(w.streaming && m.attempt == 0 && a.idle) {
      ErrorFits(m, a, w);
    }
  }

  /** What fits depends on the attempts before only. */
  lemma StillFits(tries: seq<Try>, t: Try, k: nat, w: World)
    requires k < |tries| && Fits(tries, k, w)
    ensures Fits(tries + [t], k, w)
  {
    var more := tries + [t];
    assert forall j :: 0 <= j <= k ==> more[j] == tries[j];
    if k > 0 {
      assert NoneOverflowed(more, k - 1, w) <==> NoneOverflowed(tries, k - 1, w);
      assert NoneContradicted(more, k - 1, w) <==> NoneContradicted(tries, k - 1, w);
    }
  }

  /** One more attempt at the place the run is at. */
  lemma LastFits(tries: seq<Try>, t: Try, w: World)
    requires t.tried == w.attempts(|tries|) && t.i < w.maxIter && w.tops(t.i).Go?
    requires if tries == [] then IsStart(w, t.i, t.attempt) else IsPlace(tries, |tries| - 1, w, t.i, t.attempt)
    ensures Fits(tries + [t], |tries|, w)
  {
    var more, k := tries + [t], |tries|;
    assert forall j :: 0 <= j < k ==> more[j] == tries[j];
    if k > 0 {
      assert NoneOverflowed(more, k - 1, w) <==> NoneOverflowed(tries, k - 1, w);
      assert NoneContradicted(more, k - 1, w) <==> NoneContradicted(tries, k - 1, w);
    }
  }

  lemma OneMoreTry(tries: seq<Try>, t: Try, w: World)
    requires IsTranscript(tries, w) && t.tried == w.attempts(|tries|) && t.i < w.maxIter && w.tops(t.i).Go?
    requires if tries == [] then IsStart(w, t.i, t.attempt) else IsPlace(tries, |tries| - 1, w, t.i, t.attempt)
    ensures IsTranscript(tries + [t], w)
  {
    LastFits(tries, t, w);
    forall k | 0 <= k < |tries|
      ensures Fits(tries + [t], k, w)
    {
      StillFits(tries, t, k, w);
    }
  }

  /** The two flags say whether the next reply can be the first of its kind. */
  lemma FlagsSayFirst(tries: seq<Try>, t: Try, w: World)
    ensures var more := tries + [t]; var k := |tries|;
      && NoneOverflowed(more, k, w) == NoneOverflowed(tries, k, w)
      && NoneContradicted(more, k, w) == NoneContradicted(tries, k, w)
      && (NoneOverflowed(more, k + 1, w) <==> NoneOverflowed(tries, k, w) && !Overflows(t, w))
      && (NoneContradicted(more, k + 1, w) <==> NoneContradicted(tries, k, w) && !Contradicts(t, w))
  {
    var more := tries + [t];
    assert more[|tries|] == t && forall j :: 0 <= j < |tries| ==> more[j] == tries[j];
  }

  ghost predicate IsRecorded(out: Turn, w: World) {
    match out
    case Over(n, exit) => IsTranscript(n.tries, w) && n.calls == CallsOf(n.tries, w) && EndsAs(n, w, exit)
    case NextIteration(n) => Recorded(n, w) && IsBetween(n, w)
    case Again(n) => Recorded(n, w)
    case Repass(n) => Recorded(n, w)
  }

  /** What fits the replies is recorded by them. */
  lemma FittingIsRecorded(m: Machine, t: Try, w: World, out: Turn)
    requires Recorded(m, w) && TurnFits(m, t, w, out) && IsTranscript(m.tries + [t], w)
    ensures IsRecorded(out, w)
  {
    FlagsSayFirst(m.tries, t, w);
    assert (m.tries + [t])[..|m.tries|] == m.tries && (m.tries + [t])[|m.tries|] == t;
  }

  lemma ReplyIsRecorded(m: Machine, w: World)
    requires Recorded(m, w) && InPass(m, w) && w.tops(m.i).Go?
    ensures var out := AfterAttempt(m, w.attempts(|m.tries|), w);
      IsRecorded(out, w) && (out.Again? || out.Repass? ==> out.m.i == m.i)
  {
    var t := Try(m.i, m.attempt, w.attempts(|m.tries|));
    OneMoreTry(m.tries, t, w);
    ReplyFits(m, t.tried, w);
    FittingIsRecorded(m, t, w, AfterAttempt(m, t.tried, w));
  }

  lemma SkipIsRecorded(m: Machine, w: World)
    requires Recorded(m, w) && IsBetween(m, w) && w.tops(m.i).Skip? && m.attempt == 0
    ensures Recorded(m.(i := m.i + 1), w) && IsBetween(m.(i := m.i + 1), w)
  {
  }

  /** A whole run, as its replies have it. */
  ghost predicate IsDecided(r: Final, w: World) {
    && IsTranscript(r.machine.tries, w) && r.machine.calls == CallsOf(r.machine.tries, w)
    && EndsAs(r.machine, w, r.exit)
  }

  lemma {:induction false} DispatchIsDecided(m: Machine, w: World)
    requires InPass(m, w) && Recorded(m, w) && w.tops(m.i).Go?
    ensures IsDecided(Dispatch(m, w), w)
    decreases w.maxIter - m.i, MAX_INCONSISTENT + 1 - m.inconsistent, AttemptsLeft(m)
  {
    ReplyIsRecorded(m, w);
    match AfterAttempt(m, w.attempts(|m.tries|), w)
    case Again(n) => DispatchIsDecided(n, w);
    case Repass(n) => DispatchIsDecided(n, w);
    case NextIteration(n) => IterateIsDecided(n, w);
    case Over(n, _) =>
  }

  lemma {:induction false} IterateIsDecided(m: Machine, w: World)
    requires AtTop(m, w) && Recorded(m, w) && IsBetween(m, w)
    ensures IsDecided(Iterate(m, w), w)
    decreases w.maxIter - m.i, MAX_INCONSISTENT + 1 - m.inconsistent, 10
  {
    if m.i < w.maxIter {
      match w.tops(m.i)
      case Quit =>
      case Skip =>
        SkipIsRecorded(m, w);
        IterateIsDecided(m.(i := m.i + 1), w);
      case Go => DispatchIsDecided(m, w);
    }
  }

  /** Whatever the provider replies: each attempt of the run is where the reply before it leads, retries and all;
      the calls are those of the attempts; and the way the run ends is what its last reply stands for. */
  lemma RepliesDecide(w: World)
    ensures IsDecided(Iterate(INITIAL, w), w)
  {
    IterateIsDecided(INITIAL, w);
  }

  // ---- the nested loops ----  // ---- the nested loops ----

  method HandleError(start: Machine, e: Error, a: Attempt) returns (out: Turn)
    ensures out == AfterError(start, e, a)
  {
    var m := start;
    if e.cancelled {
      return Over(m, Cancelled);
    }
    if e.expired {
      return NextIteration(m.(i := m.i + 1, attempt := 0));
    }
    if e.budget {
      return Over(m, Budget);
    }
    if e.overflow && !m.reactive {
      m := m.(reactive := true);
      if !a.preparesAgain {
        return Over(m, NotPrepared);
      }
      return Again(m.(attempt := m.attempt + 1));
    }
    if !e.retryable || m.attempt >= MAX_RETRIES - 1 {
      return Over(m, Failed);
    }
    if !a.waits {
      return Over(m, Cancelled);
    }
    return Again(m.(attempt := m.attempt + 1));
  }

  method TryOnce(start: Machine, a: Attempt, w: World) returns (out: Turn)
    ensures out == AfterAttempt(start, a, w)
  {
    var m := start.(tries := start.tries + [Try(start.i, start.attempt, a)], calls := start.calls + 1);
    if m.attempt == 0 && w.streaming {
      if a.idle {
        return Over(m, StreamIdle);
      }
      if a.dropped {
        m := m.(calls := m.calls + 1);
      }
    }
    if a.reply.Err? {
      out := HandleError(m, a.reply.error, a);
      return;
    }
    if a.reply.inconsistent && m.inconsistent < MAX_INCONSISTENT {
      return Repass(m.(inconsistent := m.inconsistent + 1, attempt := 0));
    }
    return if a.reply.more then NextIteration(m.(i := m.i + 1, attempt := 0)) else Over(m, Answered);
  }

  /** Going on from `out` completes the run that was to go on from `start`; only a new pass or iteration
      starts afresh. */
  predicate Continues(w: World, start: Machine, out: Turn)
    requires InPass(start, w)
  {
    match out
    case Again(n) =>
      InPass(n, w) && n.i == start.i && n.inconsistent == start.inconsistent && Dispatch(n, w) == Dispatch(start, w)
    case Repass(n) =>
      n.attempt == 0 && n.inconsistent > start.inconsistent && n.i == start.i && InPass(n, w)
      && Dispatch(n, w) == Dispatch(start, w)
    case NextIteration(n) => n.i > start.i && AtTop(n, w) && Iterate(n, w) == Dispatch(start, w)
    case Over(n, exit) => Final(n, exit) == Dispatch(start, w)
  }

  /** One pass: attempts until a reply or an end. */
  method Pass(w: World, start: Machine) returns (out: Turn)
    requires InPass(start, w) && start.attempt == 0
    ensures !out.Again? && Continues(w, start, out)
  {
    out := Again(start);
    while out.Again?
      invariant Continues(w, start, out)
      decreases if out.Again? then 1 + AttemptsLeft(out.m) else 0
    {
      out := TryOnce(out.m, w.attempts(|out.m.tries|), w);
    }
  }

  method Run(w: World) returns (r: Final)
    ensures r == Iterate(INITIAL, w)
  {
    var m := INITIAL;
    while m.i < w.maxIter
      invariant AtTop(m, w) && Iterate(m, w) == Iterate(INITIAL, w)
      decreases w.maxIter - m.i
    {
      var top := w.tops(m.i);
      if top.Quit? {
        return Final(m, Stopped);
      }
      if top.Skip? {
        m := m.(i := m.i + 1);
        continue;
      }
      var out := Repass(m);
      while out.Repass?
        invariant out.Again? ==> false
        invariant out.Repass? ==> out.m.i == m.i && out.m.attempt == 0 && InPass(out.m, w)
                                  && Dispatch(out.m, w) == Iterate(INITIAL, w)
        invariant out.NextIteration? ==> out.m.i > m.i && AtTop(out.m, w) && Iterate(out.m, w) == Iterate(INITIAL, w)
        invariant out.Over? ==> Final(out.m, out.exit) == Iterate(INITIAL, w)
        decreases if out.Repass? then 2 + MAX_INCONSISTENT - out.m.inconsistent else 0
      {
        out := Pass(w, out.m);
      }
      if out.Over? {
        return Final(out.m, out.exit);
      }
      m := out.m;
    }
    return Final(m, Exhausted);
  }
}

/** The relay as a set of concurrent parties over one spool directory: callers of `Enqueue`, two
    workers, `Close`, the process exiting at any moment, and the next process starting.  Each locked
    region of the relay is one atomic step.  The directory part of a step is whatever the spool's file
    procedures promise of it, with every fault they allow. */
module RelayProtocol {
  import JsonEncoding
  import opened RelaySpool
  import opened Wrappers

  datatype Dir = Dir(usage: UsageFiles, pending: PendingFiles)

  datatype Worker = Waiting | Sending(item: Report) | Sent(item: Report) | Backoff(item: Report) | Gone

  /** `kept` is every identity `Enqueue` returned nil for and no record of which was taken away since, except
      a new report whose envelope cannot be read back. */
  datatype State = State(
    dir: Dir,
    up: bool,
    backlog: seq<Report>,
    closed: bool,
    cancelled: bool,
    refused: bool,
    workers: seq<Worker>,
    kept: set<Identity>,
    delivered: set<Identity>)

  datatype Action =
    | Enqueue(report: Report, result: Persisted, lost: Losses)
    | Take(w: nat)
    | Quit(w: nat)
    | SendOk(w: nat)
    | SendFailed(w: nat)
    | RemoveDone(w: nat)
    | RemoveFailed(w: nat, removed: bool)
    | Retry(w: nat)
    | Close
    | Cancel
    | ProcessExit
    | Restart(loaded: Loaded, lost: Losses)

  /** What the file procedures of the step recorded. */
  function LostIn(a: Action): Losses {
    match a
    case Enqueue(_, _, lost) => lost
    case Restart(_, lost) => lost
    case _ => Losses(false, false, {}, {}, {})
  }

  /** `Enqueue` returned nil for it, and it can be read back. */
  predicate Accepts(a: Action, id: Identity) {
    a.Enqueue? && a.report.id == id && a.result.Stored? && (a.result.created ==> Readable(a.report))
  }

  ghost predicate Found(d: Dir, id: Identity) {
    Recoverable(d.usage, d.pending, id)
  }

  /** Some file holds this very report. */
  ghost predicate FileHolds(d: Dir, r: Report) {
    StoredIn(d.usage, d.pending, r)
  }

  /** What a directory procedure keeps: an identity goes missing only if a record of it is taken away, and
      only `added` appears. */
  ghost predicate DirKept(d: Dir, d': Dir, added: set<Identity>, taken: set<Identity>) {
    && (forall id :: Durable(d.usage, id) ==> Durable(d'.usage, id) || id in taken)
    && (forall id :: Found(d, id) ==> Found(d', id) || id in taken)
    && (forall id :: Found(d', id) ==> Found(d, id) || id in added)
  }

  /** A spool write takes away no record but one of its own identity, and that only after a failed read. */
  ghost predicate PersistRel(d: Dir, d': Dir, report: Report, r: Persisted, lost: Losses) {
    && DirKept(d, d', Added(report, r), lost.taken)
    && lost.taken <= {report.id} && (!lost.readFailed ==> lost.taken == {})
    && (NoneMarked(d.pending) ==> NoneMarked(d'.pending))
    && (r == Stored(false) ==> Durable(d'.usage, report.id))
    && (r == Stored(true) && Readable(report) ==> Durable(d'.usage, report.id))
    && (forall other :: FileHolds(d', other) ==> FileHolds(d, other) || other == report || other in lost.rivals)
  }

  /** A load takes away or passes over only what it found, and only after a failure. */
  ghost predicate LoadRel(d: Dir, d': Dir, r: Loaded, lost: Losses) {
    && DirKept(d, d', {}, lost.taken)
    && (forall id :: id in lost.taken || id in lost.passedOver ==> Found(d, id))
    && (!lost.readFailed && NoneMarked(d.pending) ==> lost.taken == {} && NoneMarked(d'.pending))
    && (!lost.readFailed && !lost.modeFailed ==> lost.passedOver == {})
    && (r.Items? ==>
          && (forall i, j :: 0 <= i < j < |r.items| ==> r.items[i].id != r.items[j].id)
          && (forall id :: id in Ids(r.items) ==> Found(d, id))
          && (forall id :: Found(d, id) ==> id in Ids(r.items) || id in lost.passedOver || id in lost.taken))
    && (forall other :: FileHolds(d', other) || (r.Items? && other in r.items) ==>
          FileHolds(d, other) || other in lost.rivals)
  }

  /** The directory and the promises after a file procedure. */
  function After(s: State, d: Dir, lost: Losses): State {
    s.(dir := d, kept := s.kept - lost.taken)
  }

  function Stop(s: State): State {
    s.(up := false, backlog := [], closed := false, cancelled := false, refused := false, workers := [])
  }

  function Queue(s: State, item: Report): State {
    s.(backlog := s.backlog + [item])
  }

  predicate At(s: State, w: nat) {
    s.up && w < |s.workers|
  }

  function Move(s: State, w: nat, to: Worker): State
    requires At(s, w)
  {
    s.(workers := s.workers[w := to])
  }

  /** `removeSpool` of a queued item: its path is always the canonical name. */
  function Removed(d: Dir, id: Identity): Dir {
    d.(usage := d.usage - {Canonical(id)})
  }

  /** `Enqueue` for an admissible report, with the outcome of its spool write in `s`. */
  function AfterEnqueue(s: State, report: Report, r: Persisted): State {
    match r
    case Stored(created) =>
      var s1 := if created then Queue(s, report) else s;
      if !created || Readable(report) then s1.(kept := s1.kept + {report.id}) else s1
    case Rejected(installed) => if installed then Queue(s, report) else s
    case Stopped => Stop(s)
  }

  function AfterRestart(s: State, r: Loaded): State {
    var s1 := Stop(s);
    match r
    case Items(items) => s1.(up := true, backlog := items, workers := [Waiting, Waiting])
    case LoadFailed => s1.(up := true, refused := true, workers := [Waiting, Waiting])
    case LoadStopped => s1
  }

  ghost predicate Next(s: State, a: Action, s': State) {
    match a
    case Enqueue(report, r, lost) =>
      s.up && !s.closed && !s.refused && PersistRel(s.dir, s'.dir, report, r, lost)
      && s' == AfterEnqueue(After(s, s'.dir, lost), report, r)
    case Take(w) =>
      At(s, w) && s.workers[w].Waiting? && s.backlog != []
      && s' == Move(s, w, if s.cancelled then Gone else Sending(s.backlog[0])).(backlog := s.backlog[1..])
    case Quit(w) =>
      At(s, w) && s.workers[w].Waiting? && s.backlog == [] && s.closed && s' == Move(s, w, Gone)
    case SendOk(w) =>
      At(s, w) && s.workers[w].Sending?
      && s' == Move(s, w, Sent(s.workers[w].item)).(delivered := s.delivered + {s.workers[w].item.id})
    case SendFailed(w) =>
      At(s, w) && s.workers[w].Sending?
      && s' == Move(s, w, if s.cancelled then Gone else Backoff(s.workers[w].item))
    case RemoveDone(w) =>
      At(s, w) && s.workers[w].Sent? && s' == Move(s, w, Waiting).(dir := Removed(s.dir, s.workers[w].item.id))
    case RemoveFailed(w, removed) =>
      At(s, w) && s.workers[w].Sent?
      && s' == Move(s, w, if s.cancelled then Gone else Backoff(s.workers[w].item))
               .(dir := if removed then Removed(s.dir, s.workers[w].item.id) else s.dir)
    case Retry(w) =>
      At(s, w) && s.workers[w].Backoff?
      && s' == if s.closed || s.cancelled then Move(s, w, Gone)
               else Move(s, w, Waiting).(backlog := s.backlog + [s.workers[w].item])
    case Close => s.up && s' == s.(closed := true)
    case Cancel => s.up && s.closed && s' == s.(cancelled := true)
    case ProcessExit => s.up && s' == Stop(s)
    case Restart(r, lost) =>
      !s.up && LoadRel(s.dir, s'.dir, r, lost) && s' == AfterRestart(After(s, s'.dir, lost), r)
  }

  // ---- what every run keeps ----

  /** Nothing kept is gone before it was delivered. */
  ghost predicate Safe(s: State) {
    forall id :: id in s.kept ==> id in s.delivered || Durable(s.dir.usage, id)
  }

  /** Only a delivered item is ever on its way to removal, and a worker leaves only after closing. */
  predicate WorkersOk(s: State) {
    forall w :: 0 <= w < |s.workers| ==>
      (s.workers[w].Sent? ==> s.workers[w].item.id in s.delivered) && (s.workers[w].Gone? ==> s.closed)
  }

  predicate InBacklog(s: State, id: Identity) {
    exists item :: item in s.backlog && item.id == id
  }

  predicate InHand(w: Worker, id: Identity) {
    (w.Sending? || w.Sent? || w.Backoff?) && w.item.id == id
  }

  predicate Holding(s: State, id: Identity) {
    InBacklog(s, id) || exists w :: 0 <= w < |s.workers| && InHand(s.workers[w], id)
  }

  /** The process runs and admits reports. */
  predicate Open(s: State) {
    s.up && !s.closed
  }

  /** While the relay is open, what it has in its queue or in hand stays there until it is delivered. */
  ghost predicate Holds(s: State, s': State) {
    s.up && Open(s') ==> forall id :: Holding(s, id) ==> Holding(s', id) || id in s'.delivered
  }

  ghost predicate Inv(s: State) {
    Safe(s) && WorkersOk(s) && (s.cancelled ==> s.closed)
  }

  predicate Start(s: State) {
    !s.up && s == Stop(s) && s.kept == {} && s.delivered == {}
  }

  /** No promise is forgotten, except where a record was taken away. */
  predicate Grows(s: State, s': State, taken: set<Identity>) {
    s.kept <= s'.kept + taken && s.delivered <= s'.delivered
  }

  lemma QueueKeepsHolding(s: State, report: Report, id: Identity)
    requires Holding(s, id)
    ensures Holding(Queue(s, report), id)
  {
    if InBacklog(s, id) {
      var item :| item in s.backlog && item.id == id;
      assert item in Queue(s, report).backlog;
    }
  }

  lemma EnqueueKeeps(s: State, report: Report, r: Persisted, lost: Losses, s': State)
    requires Inv(s) && Next(s, Enqueue(report, r, lost), s')
    ensures Inv(s') && Grows(s, s', lost.taken) && Holds(s, s')
  {
    forall id | Holding(s, id)
      ensures Holding(Queue(s, report), id)
    {
      QueueKeepsHolding(s, report, id);
    }
  }

  /** A report stored as new, or stored before an error, goes to the end of the queue, and nothing else does. */
  lemma EnqueueQueues(s: State, report: Report, r: Persisted, lost: Losses, s': State)
    requires Next(s, Enqueue(report, r, lost), s')
    ensures r in {Stored(true), Rejected(true)} ==> s'.up && s'.backlog == s.backlog + [report]
    ensures r in {Stored(false), Rejected(false)} ==> s'.up && s'.backlog == s.backlog
    ensures r != Stopped ==> s'.workers == s.workers && s'.closed == s.closed && s'.cancelled == s.cancelled
  {
  }

  /** An `Enqueue` of another identity never touches this one, whatever fails in it. */
  lemma EnqueueTouchesNoOther(s: State, report: Report, r: Persisted, lost: Losses, s': State, id: Identity)
    requires Next(s, Enqueue(report, r, lost), s') && id != report.id
    ensures Durable(s.dir.usage, id) ==> Durable(s'.dir.usage, id)
    ensures Found(s'.dir, id) <==> Found(s.dir, id)
    ensures id in s'.kept <==> id in s.kept
  {
  }

  lemma RestartKeeps(s: State, r: Loaded, lost: Losses, s': State)
    requires Inv(s) && Next(s, Restart(r, lost), s')
    ensures Inv(s') && Grows(s, s', lost.taken) && Holds(s, s')
  {
  }

  /** A worker that keeps what it has in hand, or has delivered it, keeps what the relay holds. */
  lemma MoveKeepsHolding(s: State, w: nat, to: Worker, delivered: set<Identity>, id: Identity)
    requires At(s, w) && Holding(s, id)
    requires InHand(s.workers[w], id) ==> InHand(to, id) || id in delivered
    ensures Holding(Move(s, w, to), id) || id in delivered
  {
    var s' := Move(s, w, to);
    if InBacklog(s, id) {
      assert InBacklog(s', id);
    } else {
      var v :| 0 <= v < |s.workers| && InHand(s.workers[v], id);
      assert InHand(s'.workers[v], id) || id in delivered;
    }
  }

  lemma TakeKeeps(s: State, w: nat, s': State)
    requires Inv(s) && Next(s, Take(w), s')
    ensures Inv(s') && Grows(s, s', {}) && Holds(s, s')
  {
    forall id | Open(s') && Holding(s, id)
      ensures Holding(s', id)
    {
      if InBacklog(s, id) {
        var item :| item in s.backlog && item.id == id;
        if item == s.backlog[0] {
          assert InHand(s'.workers[w], id);
        } else {
          assert item in s.backlog[1..];
        }
      } else {
        var v :| 0 <= v < |s.workers| && InHand(s.workers[v], id);
        assert InHand(s'.workers[v], id);
      }
    }
  }

  lemma QuitKeeps(s: State, w: nat, s': State)
    requires Inv(s) && Next(s, Quit(w), s')
    ensures Inv(s') && Grows(s, s', {}) && Holds(s, s')
  {
  }

  lemma SendKeeps(s: State, w: nat, ok: bool, s': State)
    requires Inv(s) && Next(s, if ok then SendOk(w) else SendFailed(w), s')
    ensures Inv(s') && Grows(s, s', {}) && Holds(s, s')
  {
    forall id | Open(s') && Holding(s, id)
      ensures Holding(s', id) || id in s'.delivered
    {
      MoveKeepsHolding(s, w, s'.workers[w], s'.delivered, id);
    }
  }

  lemma RemoveKeeps(s: State, w: nat, a: Action, s': State)
    requires Inv(s) && a in {RemoveDone(w), RemoveFailed(w, true), RemoveFailed(w, false)} && Next(s, a, s')
    ensures Inv(s') && Grows(s, s', {}) && Holds(s, s')
  {
    assert s.workers[w].item.id in s.delivered;
    forall id | Open(s') && Holding(s, id)
      ensures Holding(s', id) || id in s'.delivered
    {
      MoveKeepsHolding(s, w, s'.workers[w], s'.delivered, id);
    }
  }

  lemma RetryKeeps(s: State, w: nat, s': State)
    requires Inv(s) && Next(s, Retry(w), s')
    ensures Inv(s') && Grows(s, s', {}) && Holds(s, s')
  {
    forall id | Open(s') && Holding(s, id)
      ensures Holding(s', id)
    {
      if InBacklog(s, id) {
        var item :| item in s.backlog && item.id == id;
        assert item in s'.backlog;
      } else {
        var v :| 0 <= v < |s.workers| && InHand(s.workers[v], id);
        if v == w {
          assert s.workers[w].item in s'.backlog;
        } else {
          assert InHand(s'.workers[v], id);
        }
      }
    }
  }

  lemma StepKeepsInv(s: State, a: Action, s': State)
    requires Inv(s) && Next(s, a, s')
    ensures Inv(s') && Grows(s, s', LostIn(a).taken) && Holds(s, s')
  {
    match a
    case Enqueue(report, r, lost) => EnqueueKeeps(s, report, r, lost, s');
    case Take(w) => TakeKeeps(s, w, s');
    case Quit(w) => QuitKeeps(s, w, s');
    case SendOk(w) => SendKeeps(s, w, true, s');
    case SendFailed(w) => SendKeeps(s, w, false, s');
    case RemoveDone(w) => RemoveKeeps(s, w, a, s');
    case RemoveFailed(w, removed) => RemoveKeeps(s, w, a, s');
    case Retry(w) => RetryKeeps(s, w, s');
    case Restart(r, lost) => RestartKeeps(s, r, lost, s');
    case _ =>
  }

  ghost predicate Steps(run: seq<State>, actions: seq<Action>, i: nat)
    requires i < |actions| < |run|
  {
    Next(run[i], actions[i], run[i + 1])
  }

  ghost predicate IsRun(run: seq<State>, actions: seq<Action>) {
    && |run| == |actions| + 1 && Start(run[0])
    && forall i :: 0 <= i < |actions| ==> Steps(run, actions, i)
  }

  lemma {:induction false} RunKeepsInv(run: seq<State>, actions: seq<Action>, j: nat)
    requires IsRun(run, actions) && j < |run|
    ensures Inv(run[j])
  {
    if j > 0 {
      RunKeepsInv(run, actions, j - 1);
      assert Steps(run, actions, j - 1);
      StepKeepsInv(run[j - 1], actions[j - 1], run[j]);
    }
  }

  /** A record of the identity was taken away by one of the actions in [from, to). */
  predicate TakenIn(actions: seq<Action>, from: nat, to: nat, id: Identity)
    requires to <= |actions|
  {
    exists k :: from <= k < to && id in LostIn(actions[k]).taken
  }

  lemma {:induction false} PromiseStays(run: seq<State>, actions: seq<Action>, i: nat, j: nat, id: Identity)
    requires IsRun(run, actions) && i <= j < |run| && id in run[i].kept && !TakenIn(actions, i, j, id)
    ensures id in run[j].kept
  {
    if i < j {
      assert forall k :: i <= k < j - 1 && id in LostIn(actions[k]).taken ==> TakenIn(actions, i, j, id);
      PromiseStays(run, actions, i, j - 1, id);
      RunKeepsInv(run, actions, j - 1);
      assert Steps(run, actions, j - 1);
      StepKeepsInv(run[j - 1], actions[j - 1], run[j]);
    }
  }

  /** In every interleaving of callers, workers, retries, closing, exits and restarts, whatever fails: an
      identity `Enqueue` accepted is from then on delivered, or on disk as a valid record, unless a later step
      took away a record of that very identity. */
  lemma AcceptedIsNeverLost(run: seq<State>, actions: seq<Action>, i: nat, j: nat, id: Identity)
    requires IsRun(run, actions) && i < j < |run| && Accepts(actions[i], id)
    ensures id in run[j].delivered || Durable(run[j].dir.usage, id) || TakenIn(actions, i + 1, j, id)
  {
    RunKeepsInv(run, actions, j);
    if !TakenIn(actions, i + 1, j, id) {
      assert Steps(run, actions, i);
      PromiseStays(run, actions, i + 1, j, id);
    }
  }

  lemma {:induction false} NoneMarkedStays(run: seq<State>, actions: seq<Action>, i: nat, j: nat)
    requires IsRun(run, actions) && i <= j < |run| && NoneMarked(run[i].dir.pending)
    requires forall k :: i <= k < j ==> !LostIn(actions[k]).readFailed
    ensures NoneMarked(run[j].dir.pending)
  {
    if i < j {
      NoneMarkedStays(run, actions, i, j - 1);
      assert Steps(run, actions, j - 1);
    }
  }

  lemma NothingTakenAt(run: seq<State>, actions: seq<Action>, i: nat, k: nat)
    requires IsRun(run, actions) && i <= k < |actions| && NoneMarked(run[i].dir.pending)
    requires forall m :: i <= m <= k ==> !LostIn(actions[m]).readFailed
    ensures LostIn(actions[k]).taken == {}
  {
    NoneMarkedStays(run, actions, i, k);
    assert Steps(run, actions, k);
  }

  /** While no read fails nothing is taken away, so nothing accepted is lost at all. */
  lemma AcceptedIsDurable(run: seq<State>, actions: seq<Action>, i: nat, j: nat, id: Identity)
    requires IsRun(run, actions) && i < j < |run| && Accepts(actions[i], id)
    requires NoneMarked(run[i + 1].dir.pending) && forall k :: i < k < j ==> !LostIn(actions[k]).readFailed
    ensures id in run[j].delivered || Durable(run[j].dir.usage, id)
  {
    forall k | i < k < j
      ensures LostIn(actions[k]).taken == {}
    {
      NothingTakenAt(run, actions, i + 1, k);
    }
    AcceptedIsNeverLost(run, actions, i, j, id);
  }

  // ---- what is queued is worked on ----

  lemma StepHolds(s: State, a: Action, s': State, id: Identity)
    requires Inv(s) && Next(s, a, s') && Open(s) && Open(s') && (id in s.delivered || Holding(s, id))
    ensures id in s'.delivered || Holding(s', id)
  {
    StepKeepsInv(s, a, s');
  }

  lemma {:induction false} HeldWhileOpen(run: seq<State>, actions: seq<Action>, i: nat, j: nat, id: Identity)
    requires IsRun(run, actions) && i <= j < |run| && forall m :: i <= m <= j ==> Open(run[m])
    requires Holding(run[i], id)
    ensures id in run[j].delivered || Holding(run[j], id)
  {
    if i < j {
      HeldWhileOpen(run, actions, i, j - 1, id);
      RunKeepsInv(run, actions, j - 1);
      assert Steps(run, actions, j - 1);
      StepHolds(run[j - 1], actions[j - 1], run[j], id);
    }
  }

  /** What is stored as new, or stored before an error, is delivered or in the hands of the relay as long as
      the process neither closes nor exits. */
  lemma StoredIsWorkedOn(run: seq<State>, actions: seq<Action>, i: nat, j: nat)
    requires IsRun(run, actions) && i < j < |run| && forall m :: i < m <= j ==> Open(run[m])
    requires actions[i].Enqueue? && actions[i].result in {Stored(true), Rejected(true)}
    ensures var id := actions[i].report.id;
      id in run[j].delivered || Holding(run[j], id)
  {
    var a := actions[i];
    assert Steps(run, actions, i);
    EnqueueQueues(run[i], a.report, a.result, a.lost, run[i + 1]);
    assert a.report in run[i + 1].backlog;
    HeldWhileOpen(run, actions, i + 1, j, a.report.id);
  }

  /** So is everything a start-up loads. */
  lemma LoadedIsWorkedOn(run: seq<State>, actions: seq<Action>, i: nat, j: nat, item: Report)
    requires IsRun(run, actions) && i < j < |run| && forall m :: i < m <= j ==> Open(run[m])
    requires actions[i].Restart? && actions[i].loaded.Items? && item in actions[i].loaded.items
    ensures item.id in run[j].delivered || Holding(run[j], item.id)
  {
    assert Steps(run, actions, i);
    assert item in run[i + 1].backlog;
    HeldWhileOpen(run, actions, i + 1, j, item.id);
  }

  /** How many of the actions in [from, to) take an item from the queue. */
  function Takes(actions: seq<Action>, from: nat, to: nat): nat
    requires from <= to <= |actions|
  {
    if from == to then 0 else Takes(actions, from, to - 1) + if actions[to - 1].Take? then 1 else 0
  }

  /** A take serves the head of the queue, and whatever else happens the queue only grows at its end. */
  lemma QueueIsFifo(s: State, a: Action, s': State)
    requires Next(s, a, s') && s.up && s'.up
    ensures a.Take? ==> s.backlog != [] && s'.backlog == s.backlog[1..]
    ensures !a.Take? ==> s.backlog <= s'.backlog
  {
  }

  /** The queue is served in order: after `t` takes, what was at place `t` is at the head. */
  lemma {:induction false} ServedInOrder(run: seq<State>, actions: seq<Action>, i: nat, j: nat)
    requires IsRun(run, actions) && i <= j < |run| && forall m :: i <= m <= j ==> run[m].up
    ensures var t := Takes(actions, i, j);
      t <= |run[i].backlog| ==> run[i].backlog[t..] <= run[j].backlog
  {
    if i < j {
      ServedInOrder(run, actions, i, j - 1);
      assert Steps(run, actions, j - 1);
      QueueIsFifo(run[j - 1], actions[j - 1], run[j]);
      var queue, t := run[i].backlog, Takes(actions, i, j - 1);
      if t < |queue| {
        assert queue[t..][1..] == queue[t + 1..];
      }
    }
  }

  /** So an item waits for those ahead of it and no others: the take after them sends it, also after closing,
      unless the drain was cancelled. */
  lemma TheNextTakeSendsIt(run: seq<State>, actions: seq<Action>, i: nat, j: nat, w: nat)
    requires IsRun(run, actions) && i <= j < |actions| && forall m :: i <= m <= j ==> run[m].up
    requires actions[j] == Take(w) && Takes(actions, i, j) < |run[i].backlog| && !run[j].cancelled
    ensures w < |run[j + 1].workers| && run[j + 1].workers[w] == Sending(run[i].backlog[Takes(actions, i, j)])
  {
    ServedInOrder(run, actions, i, j);
    assert Steps(run, actions, j);
  }

  // ---- what was sent is not sent again ----

  /** The removal after a delivery takes the record from under its canonical name and touches no other file. */
  lemma RemovalRemoves(s: State, w: nat, s': State)
    requires Next(s, RemoveDone(w), s') || Next(s, RemoveFailed(w, true), s')
    ensures var name := Canonical(s.workers[w].item.id);
      && name !in s'.dir.usage && s'.dir.pending == s.dir.pending
      && (forall n :: n != name ==> (n in s'.dir.usage <==> n in s.dir.usage))
      && (forall n :: n in s'.dir.usage ==> s'.dir.usage[n] == s.dir.usage[n])
  {
  }

  /** In no file and in nobody's hands. */
  ghost predicate Forgotten(s: State, id: Identity) {
    !Found(s.dir, id) && !Holding(s, id)
  }

  lemma MoveForgets(s: State, v: nat, s': State, id: Identity)
    requires At(s, v) && |s'.workers| == |s.workers| && s'.workers == s.workers[v := s'.workers[v]]
    requires !Holding(s, id) && !InHand(s'.workers[v], id) && !InBacklog(s', id)
    ensures !Holding(s', id)
  {
    forall w | 0 <= w < |s'.workers|
      ensures !InHand(s'.workers[w], id)
    {
      assert w != v ==> !InHand(s.workers[w], id);
    }
  }

  lemma NotQueued(s: State, id: Identity, k: nat)
    requires !InBacklog(s, id) && k < |s.backlog|
    ensures s.backlog[k].id != id
  {
    assert s.backlog[k] in s.backlog;
  }

  lemma TakeForgets(s: State, w: nat, s': State, id: Identity)
    requires Next(s, Take(w), s') && Forgotten(s, id)
    ensures Forgotten(s', id)
  {
    NotQueued(s, id, 0);
    assert forall item :: item in s'.backlog ==> item in s.backlog;
    MoveForgets(s, w, s', id);
  }

  lemma RetryForgets(s: State, w: nat, s': State, id: Identity)
    requires Next(s, Retry(w), s') && Forgotten(s, id)
    ensures Forgotten(s', id)
  {
    assert !InHand(s.workers[w], id);
    assert forall item :: item in s'.backlog ==> item in s.backlog || item == s.workers[w].item;
    MoveForgets(s, w, s', id);
  }

  lemma WorkerForgets(s: State, a: Action, w: nat, s': State, id: Identity)
    requires Next(s, a, s') && Forgotten(s, id)
    requires a in {Quit(w), SendOk(w), SendFailed(w), RemoveDone(w), RemoveFailed(w, true), RemoveFailed(w, false)}
    ensures Forgotten(s', id)
  {
    assert !InHand(s.workers[w], id);
    assert s'.backlog == s.backlog;
    assert !InBacklog(s', id) by {
      forall item | item in s'.backlog
        ensures item.id != id
      {
        assert item in s.backlog;
      }
    }
    MoveForgets(s, w, s', id);
  }

  lemma StepForgets(s: State, a: Action, s': State, id: Identity)
    requires Next(s, a, s') && Forgotten(s, id) && !(a.Enqueue? && a.report.id == id)
    ensures Forgotten(s', id)
  {
    match a
    case Take(w) => TakeForgets(s, w, s', id);
    case Retry(w) => RetryForgets(s, w, s', id);
    case Quit(w) => WorkerForgets(s, a, w, s', id);
    case SendOk(w) => WorkerForgets(s, a, w, s', id);
    case SendFailed(w) => WorkerForgets(s, a, w, s', id);
    case RemoveDone(w) => WorkerForgets(s, a, w, s', id);
    case RemoveFailed(w, _) => WorkerForgets(s, a, w, s', id);
    case _ =>
  }

  /** Once no file and no worker holds an identity, it is not sent again, in this process or a later one,
      until `Enqueue` is called with it. */
  lemma {:induction false} RemovedIsNotSentAgain(run: seq<State>, actions: seq<Action>, i: nat, j: nat, id: Identity)
    requires IsRun(run, actions) && i <= j < |run| && Forgotten(run[i], id)
    requires forall k :: i <= k < j ==> !(actions[k].Enqueue? && actions[k].report.id == id)
    ensures Forgotten(run[j], id)
  {
    if i < j {
      RemovedIsNotSentAgain(run, actions, i, j - 1, id);
      assert Steps(run, actions, j - 1);
      StepForgets(run[j - 1], actions[j - 1], run[j], id);
    }
  }

  // ---- what is sent was stored ----

  predicate GivenBy(a: Action, r: Report) {
    (a.Enqueue? && a.report == r) || r in LostIn(a).rivals
  }

  /** The report was in the directory at the start, was given to `Enqueue`, or was installed by a rival. */
  ghost predicate Known(d: Dir, actions: seq<Action>, k: nat, r: Report)
    requires k <= |actions|
  {
    FileHolds(d, r) || exists i :: 0 <= i < k && GivenBy(actions[i], r)
  }

  predicate Carries(w: Worker, r: Report) {
    (w.Sending? || w.Sent? || w.Backoff?) && w.item == r
  }

  ghost predicate Handles(s: State, r: Report) {
    FileHolds(s.dir, r) || r in s.backlog || exists w :: 0 <= w < |s.workers| && Carries(s.workers[w], r)
  }

  lemma FilesAreNotMadeUp(s: State, a: Action, s': State, r: Report)
    requires Next(s, a, s') && FileHolds(s'.dir, r)
    ensures FileHolds(s.dir, r) || GivenBy(a, r)
  {
  }

  lemma QueueIsNotMadeUp(s: State, a: Action, s': State, r: Report)
    requires Next(s, a, s') && r in s'.backlog
    ensures Handles(s, r) || GivenBy(a, r)
  {
    if a.Retry? && r !in s.backlog {
      assert Carries(s.workers[a.w], r);
    }
  }

  lemma MovedCarries(s: State, v: nat, to: Worker, w: nat, r: Report)
    requires At(s, v) && w < |s.workers| && Carries(Move(s, v, to).workers[w], r)
    ensures Carries(s.workers[w], r) || (w == v && Carries(to, r))
  {
  }

  ghost predicate HandsFrom(s: State, s': State, r: Report) {
    forall w :: 0 <= w < |s'.workers| && Carries(s'.workers[w], r) ==> Handles(s, r)
  }

  lemma MovedHands(s: State, v: nat, s': State, r: Report)
    requires At(s, v) && |s'.workers| == |s.workers| && s'.workers == s.workers[v := s'.workers[v]]
    requires Carries(s'.workers[v], r) ==> Handles(s, r)
    ensures HandsFrom(s, s', r)
  {
    forall w | 0 <= w < |s'.workers| && Carries(s'.workers[w], r) && w != v
      ensures Handles(s, r)
    {
      assert Carries(s.workers[w], r);
    }
  }

  lemma TakeHands(s: State, v: nat, s': State, r: Report)
    requires Next(s, Take(v), s')
    ensures HandsFrom(s, s', r)
  {
    MovedHands(s, v, s', r);
  }

  lemma QuitHands(s: State, v: nat, s': State, r: Report)
    requires Next(s, Quit(v), s')
    ensures HandsFrom(s, s', r)
  {
    MovedHands(s, v, s', r);
  }

  lemma SendHands(s: State, v: nat, ok: bool, s': State, r: Report)
    requires Next(s, if ok then SendOk(v) else SendFailed(v), s')
    ensures HandsFrom(s, s', r)
  {
    assert Carries(s.workers[v], s.workers[v].item);
    MovedHands(s, v, s', r);
  }

  lemma RemoveHands(s: State, v: nat, a: Action, s': State, r: Report)
    requires a in {RemoveDone(v), RemoveFailed(v, true), RemoveFailed(v, false)} && Next(s, a, s')
    ensures HandsFrom(s, s', r)
  {
    assert Carries(s.workers[v], s.workers[v].item);
    MovedHands(s, v, s', r);
  }

  lemma RetryHands(s: State, v: nat, s': State, r: Report)
    requires Next(s, Retry(v), s')
    ensures HandsFrom(s, s', r)
  {
    MovedHands(s, v, s', r);
  }

  lemma SameHands(s: State, s': State, r: Report)
    requires s'.workers == s.workers
    ensures HandsFrom(s, s', r)
  {
    forall w | 0 <= w < |s'.workers| && Carries(s'.workers[w], r)
      ensures Handles(s, r)
    {
      assert Carries(s.workers[w], r);
    }
  }

  lemma HandsAreNotMadeUp(s: State, a: Action, s': State, r: Report)
    requires Next(s, a, s')
    ensures HandsFrom(s, s', r)
  {
    match a
    case Enqueue(report, p, lost) =>
      if !p.Stopped? { SameHands(s, s', r); }
    case Take(v) => TakeHands(s, v, s', r);
    case Quit(v) => QuitHands(s, v, s', r);
    case SendOk(v) => SendHands(s, v, true, s', r);
    case SendFailed(v) => SendHands(s, v, false, s', r);
    case RemoveDone(v) => RemoveHands(s, v, a, s', r);
    case RemoveFailed(v, removed) => RemoveHands(s, v, a, s', r);
    case Retry(v) => RetryHands(s, v, s', r);
    case Close => SameHands(s, s', r);
    case Cancel => SameHands(s, s', r);
    case ProcessExit =>
    case Restart(_, _) =>
  }

  /** A step makes nothing up. */
  lemma StepMakesNothingUp(s: State, a: Action, s': State, r: Report)
    requires Next(s, a, s') && Handles(s', r)
    ensures Handles(s, r) || GivenBy(a, r)
  {
    if FileHolds(s'.dir, r) {
      FilesAreNotMadeUp(s, a, s', r);
    } else if r in s'.backlog {
      QueueIsNotMadeUp(s, a, s', r);
    } else {
      var w :| 0 <= w < |s'.workers| && Carries(s'.workers[w], r);
      HandsAreNotMadeUp(s, a, s', r);
    }
  }

  lemma {:induction false} HandledIsKnown(run: seq<State>, actions: seq<Action>, k: nat, r: Report)
    requires IsRun(run, actions) && k < |run| && Handles(run[k], r)
    ensures Known(run[0].dir, actions, k, r)
  {
    if k > 0 {
      assert Steps(run, actions, k - 1);
      StepMakesNothingUp(run[k - 1], actions[k - 1], run[k], r);
      if GivenBy(actions[k - 1], r) {
        assert Known(run[0].dir, actions, k, r);
      } else {
        HandledIsKnown(run, actions, k - 1, r);
        assert Known(run[0].dir, actions, k - 1, r) ==> Known(run[0].dir, actions, k, r);
      }
    }
  }

  /** Over any run, what a worker sends is, whole, a report some file held at the start, one given to
      `Enqueue`, or one a rival installed. */
  lemma SentWasStored(run: seq<State>, actions: seq<Action>, k: nat, w: nat)
    requires IsRun(run, actions) && k < |run| && w < |run[k].workers| && run[k].workers[w].Sending?
    ensures Known(run[0].dir, actions, k, run[k].workers[w].item)
  {
    assert Carries(run[k].workers[w], run[k].workers[w].item);
    HandledIsKnown(run, actions, k, run[k].workers[w].item);
  }

  // ---- across a restart ----

  /** A restart that manages to load the spool takes back every accepted, undelivered identity, except one
      that it passed over or a record of which it took away. */
  lemma RestartResumes(s: State, s': State, r: Loaded, lost: Losses, id: Identity)
    requires Inv(s) && Next(s, Restart(r, lost), s') && r.Items?
    requires id in s.kept && id !in s.delivered
    ensures InBacklog(s', id) || id in lost.passedOver || id in lost.taken
  {
    assert Found(s.dir, id);
  }

  /** A new report outlives the process that accepted it exactly when its envelope can be read back. */
  lemma SurvivesExitIffReadable(d0: Dir, d1: Dir, d2: Dir, report: Report, items: seq<Report>,
                                written: Losses, loaded: Losses)
    requires !Found(d0, report.id) && PersistRel(d0, d1, report, Stored(true), written)
    requires LoadRel(d1, d2, Items(items), loaded) && report.id !in loaded.taken && report.id !in loaded.passedOver
    ensures (exists item :: item in items && item.id == report.id) <==> Readable(report)
  {
    assert Found(d1, report.id) <==> Readable(report);
    assert report.id in Ids(items) <==> exists item :: item in items && item.id == report.id;
  }

  /** One of the attempts took away a record of it. */
  predicate TakenBy(losts: seq<Losses>, id: Identity) {
    exists k :: 0 <= k < |losts| && id in losts[k].taken
  }

  /** Recovery is restartable: however many attempts stop or fail part-way, and whatever fails in them, the
      one that succeeds queues only identities that were there before the first, each once, and leaves out
      only those it passed over itself and those of which an attempt took away a record. */
  lemma {:induction false} RecoveryIsRestartable(dirs: seq<Dir>, attempts: seq<Loaded>, losts: seq<Losses>,
      items: seq<Report>)
    requires |dirs| == |attempts| + 1 && attempts != [] && attempts[|attempts| - 1] == Items(items)
    requires |losts| == |attempts|
    requires forall i :: 0 <= i < |attempts| ==> LoadRel(dirs[i], dirs[i + 1], attempts[i], losts[i])
    ensures var last := |attempts| - 1;
      && (forall id :: id in Ids(items) ==> Found(dirs[0], id))
      && (forall id :: Found(dirs[0], id) ==> id in Ids(items) || id in losts[last].passedOver || TakenBy(losts, id))
      && (forall i, j :: 0 <= i < j < |items| ==> items[i].id != items[j].id)
      && (forall id :: Found(dirs[last + 1], id) ==> Found(dirs[0], id))
      && (forall id :: Found(dirs[0], id) ==> Found(dirs[last + 1], id) || TakenBy(losts, id))
  {
    assert LoadRel(dirs[0], dirs[1], attempts[0], losts[0]);
    if |attempts| > 1 {
      RecoveryIsRestartable(dirs[1..], attempts[1..], losts[1..], items);
      forall id | TakenBy(losts[1..], id)
        ensures TakenBy(losts, id)
      {
        var k :| 0 <= k < |losts[1..]| && id in losts[1..][k].taken;
        assert id in losts[k + 1].taken;
      }
    }
  }

  lemma {:induction false} NothingTaken(dirs: seq<Dir>, attempts: seq<Loaded>, losts: seq<Losses>)
    requires |dirs| == |attempts| + 1 && |losts| == |attempts| && NoneMarked(dirs[0].pending)
    requires forall i :: 0 <= i < |attempts| ==> LoadRel(dirs[i], dirs[i + 1], attempts[i], losts[i])
    requires forall i :: 0 <= i < |attempts| ==> !losts[i].readFailed
    ensures forall i :: 0 <= i < |attempts| ==> losts[i].taken == {}
  {
    if attempts != [] {
      assert LoadRel(dirs[0], dirs[1], attempts[0], losts[0]);
      NothingTaken(dirs[1..], attempts[1..], losts[1..]);
      forall i | 0 <= i < |attempts|
        ensures losts[i].taken == {}
      {
        assert i > 0 ==> losts[i] == losts[1..][i - 1];
      }
    }
  }

  /** When reads work in every attempt and mode changes in the last, exactly the same identities. */
  lemma RecoveryIsExact(dirs: seq<Dir>, attempts: seq<Loaded>, losts: seq<Losses>, items: seq<Report>)
    requires |dirs| == |attempts| + 1 && attempts != [] && attempts[|attempts| - 1] == Items(items)
    requires |losts| == |attempts| && NoneMarked(dirs[0].pending) && !losts[|losts| - 1].modeFailed
    requires forall i :: 0 <= i < |attempts| ==> LoadRel(dirs[i], dirs[i + 1], attempts[i], losts[i])
    requires forall i :: 0 <= i < |attempts| ==> !losts[i].readFailed
    ensures forall id :: id in Ids(items) <==> Found(dirs[0], id)
    ensures forall id :: Found(dirs[|attempts|], id) <==> Found(dirs[0], id)
  {
    NothingTaken(dirs, attempts, losts);
    RecoveryIsRestartable(dirs, attempts, losts, items);
    var last := |attempts| - 1;
    assert LoadRel(dirs[last], dirs[last + 1], attempts[last], losts[last]);
  }

  // ---- what can be read back ----

  /** What `Enqueue` checks of a body: its length, and that it parses, which it does not when nested too deep. */
  predicate Admissible(parsed: Option<Identity>, body: string) {
    0 < |body| <= MAX_BODY && JsonEncoding.Depth(body) <= JsonEncoding.MAX_NESTING && parsed.Some?
  }

  /** When what is written for a body can be read back: the file adds the principal and one level of nesting. */
  lemma ReadableIff(id: Identity, body: string)
    ensures var usage := JsonEncoding.EncodeRaw(body);
      Readable(ReportOf(id, body)) <==>
        && 0 < |usage| <= MAX_BODY && 25 + JsonEncoding.EscapedLen(id.principal) + |usage| <= MAX_SPOOL + 1
        && JsonEncoding.Depth(body) < JsonEncoding.MAX_NESTING
  {
    JsonEncoding.DepthIsKept(body, JsonEncoding.Outside, 0);
  }

  /** For a body that comes from an encoder, as the only caller passes, the length depends on the principal alone. */
  lemma EncodedReadableIff(id: Identity, body: string)
    requires Admissible(Some(id), body) && JsonEncoding.Compacted(body, JsonEncoding.Outside)
    ensures Readable(ReportOf(id, body)) <==>
      && 25 + JsonEncoding.EscapedLen(id.principal) + |body| <= MAX_SPOOL + 1
      && JsonEncoding.Depth(body) < JsonEncoding.MAX_NESTING
  {
    JsonEncoding.UnchangedIffCompacted(body, JsonEncoding.Outside);
    ReadableIff(id, body);
  }

  /** So no body, however small, can be read back if its principal does not fit into what it leaves. */
  lemma LongPrincipalIsUnreadable(id: Identity, body: string)
    requires 25 + |JsonEncoding.EncodeRaw(body)| + |id.principal| > MAX_SPOOL + 1
    ensures !Readable(ReportOf(id, body))
  {
    JsonEncoding.QuotedIsLonger(id.principal);
  }

  const NOTE_START := "\"provider\":\"qwen\",\"response_id\":\"r\",\"note\":\""
  const MEMBERS_END := ",\"provider\":\"qwen\",\"response_id\":\"r\"}"

  /** A usage body with a string of `n` less-than signs that no encoder has escaped. */
  function MarkedBody(n: nat): string {
    JsonEncoding.InObject(NOTE_START, JsonEncoding.Repeat('<', n) + "\"}")
  }

  /** It is admitted and cannot be read back, which takes a caller that does not encode what it passes. */
  lemma RawMarksAreUnreadable(id: Identity)
    ensures Admissible(Some(id), MarkedBody(11000)) && !Readable(ReportOf(id, MarkedBody(11000)))
  {
    JsonEncoding.MarksInside(NOTE_START, 11000, "\"}");
  }

  /** A usage body with `n` arrays in one another. */
  function DeepBody(n: nat): string {
    JsonEncoding.Nested(n, MEMBERS_END)
  }

  /** One at the limit of the parser is admitted; one level deeper, as the file has it, it is refused. */
  lemma DeepestBodyIsUnreadable(id: Identity)
    ensures Admissible(Some(id), DeepBody(9999)) && !Readable(ReportOf(id, DeepBody(9999)))
  {
    JsonEncoding.NestedDepth(9999, MEMBERS_END);
    ReadableIff(id, DeepBody(9999));
  }

  // ---- the relay itself ----

  /** With no fault a write stores the report once. */
  ghost predicate StoresQuietly(spool: Spool, usage: UsageFiles, usage': UsageFiles,
                                pending: PendingFiles, pending': PendingFiles, report: Report, r: Persisted) {
    spool.Quiet() && spool.ReadsAlways(Fine) && spool.TagsAreNew(pending) && Legacy(report.id.response) !in usage ==>
      StoresOnce(usage, usage', pending, pending', report, r)
  }

  /** On a directory without pending files a load whose reads work succeeds if nothing has to be migrated, and
      one whose reads all fail takes every record away, if nothing else fails. */
  ghost predicate LoadsQuietly(spool: Spool, usage: UsageFiles, usage': UsageFiles, pending': PendingFiles, r: Loaded) {
    && pending' == map[] && (usage == map[] ==> usage' == map[])
    && (spool.Quiet() && spool.ReadsAlways(Fine) && NoLegacy(usage) ==> r.Items?)
    && (spool.Quiet() && spool.ReadsAlways(Error) ==> r == Items([]) && usage' == map[])
  }

  class UsageRelay {
    const spool: Spool
    var up: bool
    var backlog: seq<Report>
    var closed: bool
    var cancelled: bool
    var refused: bool
    var workers: seq<Worker>
    ghost var kept: set<Identity>
    ghost var delivered: set<Identity>

    ghost function DirNow(): Dir
      reads spool
    {
      Dir(spool.usage, spool.pending)
    }

    ghost function View(): State
      reads this, spool
    {
      State(DirNow(), up, backlog, closed, cancelled, refused, workers, kept, delivered)
    }

    ghost predicate Valid()
      reads this, spool
    {
      Inv(View())
    }

    /** A process that has not loaded its spool yet, with the history of the ones before it. */
    constructor (spool: Spool, ghost kept: set<Identity>, ghost delivered: set<Identity>)
      ensures this.spool == spool
      ensures View() == Stop(State(DirNow(), false, [], false, false, false, [], kept, delivered))
    {
      this.spool := spool;
      up, backlog, closed, cancelled, refused, workers := false, [], false, false, false, [];
      this.kept, this.delivered := kept, delivered;
    }

    /** The process stops: only the directory is left. */
    method Die()
      modifies this`up, this`backlog, this`closed, this`cancelled, this`refused, this`workers
      ensures View() == Stop(old(View()))
    {
      up, backlog, closed, cancelled, refused, workers := false, [], false, false, false, [];
    }

    method LoadDir() returns (r: Loaded)
      modifies this`kept, spool
      ensures LoadRel(old(DirNow()), DirNow(), r, spool.Lost(old(spool.tick))) && old(spool.tick) <= spool.tick
      ensures kept == old(kept) - spool.taken
      ensures old(spool.pending) == map[] ==>
        LoadsQuietly(spool, old(spool.usage), spool.usage, spool.pending, r)
    {
      r := spool.LoadSpool();
      kept := kept - spool.taken;
    }

    method PersistDir(report: Report) returns (r: Persisted)
      modifies this`kept, spool
      ensures PersistRel(old(DirNow()), DirNow(), report, r, spool.Lost(old(spool.tick)))
      ensures kept == old(kept) - spool.taken
      ensures StoresQuietly(spool, old(spool.usage), spool.usage, old(spool.pending), spool.pending, report, r)
    {
      r := spool.Persist(report);
      kept := kept - spool.taken;
    }

    /** What start-up makes of the loaded spool: a backlog and two workers. */
    method Begin(r: Loaded)
      requires !up
      modifies this
      ensures View() == AfterRestart(old(View()), r)
    {
      closed, cancelled := false, false;
      match r {
        case Items(items) =>
          up, refused, backlog, workers := true, false, items, [Waiting, Waiting];
        case LoadFailed =>
          up, refused, backlog, workers := true, true, [], [Waiting, Waiting];
        case LoadStopped =>
          up, refused, backlog, workers := false, false, [], [];
      }
    }

    /** `newRealtimeUsageRelayWithSpool`: load the spool and start two workers. */
    method StartUp() returns (ghost loaded: Loaded)
      requires Valid() && !up
      modifies this, spool
      ensures Next(old(View()), Restart(loaded, spool.Lost(old(spool.tick))), View()) && Valid()
      ensures old(spool.pending) == map[] ==>
        LoadsQuietly(spool, old(spool.usage), spool.usage, spool.pending, loaded)
    {
      var r := LoadDir();
      loaded := r;
      Begin(r);
      RestartKeeps(old(View()), r, spool.Lost(old(spool.tick)), View());
    }

    /** The locked part of `Enqueue`. */
    method EnqueueReport(report: Report) returns (accepted: bool, ghost r: Persisted)
      requires Valid() && up && !closed && !refused
      modifies this, spool
      ensures Next(old(View()), Action.Enqueue(report, r, spool.Lost(old(spool.tick))), View()) && Valid()
      ensures accepted <==> r.Stored?
      ensures StoresQuietly(spool, old(spool.usage), spool.usage, old(spool.pending), spool.pending, report, r)
    {
      var p := PersistDir(report);
      r := p;
      accepted := p.Stored?;
      if p.Stopped? {
        Die();
      } else {
        if p == Stored(true) || p == Rejected(true) {
          backlog := backlog + [report];
        }
        if p == Stored(false) || (p == Stored(true) && Readable(report)) {
          kept := kept + {report.id};
        }
      }
      EnqueueKeeps(old(View()), report, r, spool.Lost(old(spool.tick)), View());
    }

    /** `Enqueue` for a body and the identity it parses to, if it does; `accepted` is a nil error. */
    method Enqueue(parsed: Option<Identity>, body: string) returns (accepted: bool, ghost r: Persisted)
      requires Valid() && up
      modifies this, spool
      ensures Valid()
      ensures Admissible(parsed, body) && !old(closed) && !old(refused) ==>
        var report := ReportOf(parsed.value, body);
        && Next(old(View()), Action.Enqueue(report, r, spool.Lost(old(spool.tick))), View())
        && (accepted <==> r.Stored?)
        && StoresQuietly(spool, old(spool.usage), spool.usage, old(spool.pending), spool.pending, report, r)
      ensures !(Admissible(parsed, body) && !old(closed) && !old(refused)) ==> View() == old(View()) && !accepted
    {
      r := Stopped;
      if !Admissible(parsed, body) || closed || refused {
        return false, r;
      }
      accepted, r := EnqueueReport(ReportOf(parsed.value, body));
    }

    /** The locked head of a worker's loop; a waiting worker with nothing to do stays waiting. */
    method TakeNext(w: nat)
      requires Valid() && up && w < |workers| && workers[w].Waiting?
      modifies this
      ensures View() == old(View()) || Next(old(View()), Take(w), View()) || Next(old(View()), Quit(w), View())
      ensures View() == old(View()) <==> old(backlog) == [] && !old(closed)
      ensures Valid()
    {
      if backlog == [] {
        if !closed {
          return;
        }
        workers := workers[w := Gone];
        StepKeepsInv(old(View()), Quit(w), View());
        return;
      }
      var item := backlog[0];
      backlog := backlog[1..];
      workers := workers[w := if cancelled then Gone else Sending(item)];
      StepKeepsInv(old(View()), Take(w), View());
    }

    /** The send to the daemon came back. */
    method SendReturned(w: nat, ok: bool)
      requires Valid() && up && w < |workers| && workers[w].Sending?
      modifies this
      ensures Next(old(View()), if ok then SendOk(w) else SendFailed(w), View())
      ensures Valid()
    {
      var item := workers[w].item;
      if ok {
        delivered := delivered + {item.id};
        workers := workers[w := Sent(item)];
      } else {
        workers := workers[w := if cancelled then Gone else Backoff(item)];
      }
      StepKeepsInv(old(View()), if ok then SendOk(w) else SendFailed(w), View());
    }

    /** `removeSpool` after a successful send. */
    method RemoveSpool(w: nat) returns (ghost a: Action, ghost mid: State)
      requires Valid() && up && w < |workers| && workers[w].Sent?
      modifies this, spool
      ensures a in {RemoveDone(w), RemoveFailed(w, true), RemoveFailed(w, false)} && Next(old(View()), a, mid)
      ensures View() == mid || Next(mid, ProcessExit, View())
      ensures Valid()
    {
      var item := workers[w].item;
      var o := spool.RemoveUsage(Canonical(item.id));
      ghost var removed := o.Done?;
      a := RemoveFailed(w, removed);
      if o.Done? {
        o := spool.Call(spool.faults);
      }
      if o.Done? {
        a := RemoveDone(w);
        workers := workers[w := Waiting];
      } else {
        workers := workers[w := if cancelled then Gone else Backoff(item)];
      }
      StepKeepsInv(old(View()), a, View());
      mid := View();
      if o.Exited? {
        Die();
        StepKeepsInv(mid, ProcessExit, View());
      }
    }

    /** `retry`, once the backoff has passed or the workers were cancelled. */
    method RetryItem(w: nat)
      requires Valid() && up && w < |workers| && workers[w].Backoff?
      modifies this
      ensures Next(old(View()), Retry(w), View())
      ensures Valid()
    {
      var item := workers[w].item;
      if cancelled || closed {
        workers := workers[w := Gone];
      } else {
        backlog := backlog + [item];
        workers := workers[w := Waiting];
      }
      StepKeepsInv(old(View()), Retry(w), View());
    }

    /** `Close`: stop admission, and later, when the drain is over or timed out, cancel. */
    method CloseAdmission()
      requires Valid() && up
      modifies this
      ensures Next(old(View()), Action.Close, View())
      ensures Valid()
    {
      closed := true;
      StepKeepsInv(old(View()), Action.Close, View());
    }

    method CancelWorkers()
      requires Valid() && up && closed
      modifies this
      ensures Next(old(View()), Action.Cancel, View())
      ensures Valid()
    {
      cancelled := true;
      StepKeepsInv(old(View()), Action.Cancel, View());
    }
  }
  // ---- runs across a restart ----

  const EMPTY := Dir(map[], map[])

  function HoldsOnly(report: Report): Dir {
    Dir(map[Canonical(report.id) := Envelope(report)], map[])
  }

  lemma NothingFound(id: Identity)
    ensures !Found(EMPTY, id)
  {
    assert forall n :: !PendingAt(EMPTY.pending, n, id);
  }

  method StartOnNothing(tags: nat -> nat) returns (relay: UsageRelay)
    ensures fresh(relay) && fresh(relay.spool) && relay.Valid() && relay.DirNow() == EMPTY && relay.delivered == {}
    ensures relay.up && !relay.closed && !relay.refused && relay.spool.Quiet() && relay.spool.ReadsAlways(Fine)
  {
    var spool := new Spool(map[], map[], _ => Fine, _ => Fine, _ => Fine, _ => None, tags);
    relay := new UsageRelay(spool, {}, {});
    var _ := relay.StartUp();
  }

  /** A process on an empty directory, with nothing failing, stores a report for an admissible body and exits. */
  method StoreAndExit(id: Identity, body: string, tags: nat -> nat)
    returns (accepted: bool, relay: UsageRelay, ghost written: Losses)
    requires Admissible(Some(id), body)
    ensures accepted && fresh(relay) && fresh(relay.spool) && !relay.up && relay.Valid() && relay.delivered == {}
    ensures var report := ReportOf(id, body);
      && relay.DirNow() == HoldsOnly(report) && PersistRel(EMPTY, HoldsOnly(report), report, Stored(true), written)
      && (Readable(report) ==> id in relay.kept)
  {
    relay := StartOnNothing(tags);
    ghost var start, r := relay.spool.tick, Stopped;
    accepted, r := relay.Enqueue(Some(id), body);
    written := relay.spool.Lost(start);
    relay.Die();
  }

  /** The next process, with nothing failing either, has the report in its queue if and only if what was
      written for the body can be read back. */
  method StoredAcrossRestart(id: Identity, body: string, tags: nat -> nat) returns (accepted: bool, again: UsageRelay)
    requires Admissible(Some(id), body)
    ensures accepted && (InBacklog(again.View(), id) <==> Readable(ReportOf(id, body)))
  {
    var relay;
    ghost var written;
    accepted, relay, written := StoreAndExit(id, body, tags);
    var spool := new Spool(relay.spool.usage, relay.spool.pending, _ => Fine, _ => Fine, _ => Fine, _ => None, tags);
    again := new UsageRelay(spool, relay.kept, relay.delivered);
    ghost var r := again.StartUp();
    NothingFound(id);
    SurvivesExitIffReadable(EMPTY, relay.DirNow(), again.DirNow(), ReportOf(id, body), r.items, written, spool.Lost(0));
  }

  /** A next process whose read of the record fails takes it away: the report was accepted and not delivered,
      and is neither queued nor on disk. */
  method AcceptedCanBeTakenAway(id: Identity, body: string, tags: nat -> nat)
    returns (accepted: bool, again: UsageRelay, ghost kept: set<Identity>)
    requires Admissible(Some(id), body) && Readable(ReportOf(id, body))
    ensures accepted && id in kept && again.delivered == {} && again.backlog == []
    ensures !Durable(again.spool.usage, id) && again.spool.taken == {id}
  {
    var relay;
    ghost var written;
    accepted, relay, written := StoreAndExit(id, body, tags);
    kept := relay.kept;
    var spool := new Spool(relay.spool.usage, relay.spool.pending, _ => Fine, _ => Error, _ => Fine, _ => None, tags);
    again := new UsageRelay(spool, relay.kept, relay.delivered);
    var _ := again.StartUp();
  }
}

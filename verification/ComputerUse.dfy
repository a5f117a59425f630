/** Ownership of desktop control within one turn.  Four flags, changed while the calls of a model response
    are admitted and again when their results are read, must bound the desktop work of the whole run. */
module ComputerUse {
  import opened Strings
  import opened Wrappers

  // ---- the outcome a computer_use task reports ----

  datatype Status = Completed | NotCompleted | Unverified | BadStatus
  datatype Effect = NoEffect | Committed | Unknown | Unset | BadEffect
  datatype Recovery = NoRecovery | RetryWithApps | AlternateControl | BadRecovery

  datatype Outcome = Outcome(status: Status, effect: Effect, recovery: Recovery)

  predicate Validate(o: Outcome) {
    && !o.status.BadStatus? && (o.effect.NoEffect? || o.effect.Committed? || o.effect.Unknown?)
    && match o.recovery
       case NoRecovery => true
       case RetryWithApps => o.status.NotCompleted? && o.effect.NoEffect?
       case AlternateControl => !o.status.Completed? && o.effect.NoEffect?
       case BadRecovery => false
  }

  function Rank(e: Effect): nat {
    match e case Committed => 1 case Unknown => 2 case _ => 0
  }

  function Merge(left: Effect, right: Effect): Effect {
    if Rank(right) > Rank(left) then right else if left.Unset? then NoEffect else left
  }

  /** Folding the effects of a task's actions from the initial `none`. */
  function Merged(effects: seq<Effect>): Effect {
    if effects == [] then NoEffect else Merge(Merged(effects[..|effects| - 1]), effects[|effects| - 1])
  }

  /** The merged effect is the strongest one seen: `none` only if nothing else was, never weaker than any
      part, and itself one of them. */
  lemma {:induction false} MergedIsStrongest(effects: seq<Effect>)
    ensures forall e :: e in effects ==> Rank(e) <= Rank(Merged(effects))
    ensures Merged(effects) == NoEffect || (Merged(effects) in effects && Rank(Merged(effects)) > 0)
    ensures Merged(effects) == NoEffect <==> forall e :: e in effects ==> Rank(e) == 0
    ensures Merged(effects) == Unknown <==> Unknown in effects
    ensures Merged(effects) == Committed <==> Committed in effects && Unknown !in effects
  {
    if effects != [] {
      var last := |effects| - 1;
      MergedIsStrongest(effects[..last]);
      assert effects == effects[..last] + [effects[last]];
    }
  }

  // ---- calls ----

  datatype Args = Unparsed | Args(loadsDesktop: bool, apps: seq<string>, policy: string)

  /** `Gui` stands for every GUI tool but computer_use, and for ghostty.  The arguments are in normal form, so equal
      calls are duplicates. */
  datatype Call =
    | ComputerUse(args: Args)
    | Gui(name: string, args: Args)
    | ToolSearch(args: Args)
    | Tool(name: string, args: Args)

  predicate Blank(s: string) {
    forall c :: c in s ==> IsSpace(c)
  }

  predicate Corrected(args: Args) {
    && args.Args? && (args.policy == "foreground_allowed" || args.policy == "preserve_frontmost")
    && exists app :: app in args.apps && !Blank(app)
  }

  predicate ControlsDesktop(c: Call) {
    match c
    case ComputerUse(_) => true
    case Gui(_, _) => true
    case ToolSearch(args) => args.Args? && args.loadsDesktop
    case Tool(_, _) => false
  }

  // ---- admission of one response ----

  datatype Turn = Turn(owns: bool, needsApps: bool, alternateOnly: bool, recoveryUsed: bool)

  datatype Decision =
    | LoopBlocked
    | Duplicate
    | Blocked
    | AppsRequired
    | CorrectionRejected(wasted: bool)
    | Repeated
    | Admitted

  /** `besideCu`: the response has a computer_use call; `hasCorrection`: it has a well-formed correction. */
  function Decide(t: Turn, c: Call, besideCu: bool, hasCorrection: bool): Decision {
    var prior := t.owns && ControlsDesktop(c);
    var missingApps := t.needsApps && ControlsDesktop(c) && (!c.ComputerUse? || !Corrected(c.args));
    var repeated := t.alternateOnly && c.ComputerUse?;
    var beside := besideCu && !c.ComputerUse? && ControlsDesktop(c);
    if prior || missingApps || repeated || beside then
      if missingApps then (if c.ComputerUse? then CorrectionRejected(!hasCorrection) else AppsRequired)
      else if repeated then Repeated
      else Blocked
    else Admitted
  }

  function AfterDecision(t: Turn, c: Call, d: Decision): Turn {
    if d == CorrectionRejected(true) || (d == Admitted && c.ComputerUse?)
    then Turn(true, false, false, t.recoveryUsed)
    else t
  }

  predicate HasCu(calls: seq<Call>) {
    exists c :: c in calls && c.ComputerUse?
  }

  predicate HasCorrection(t: Turn, calls: seq<Call>) {
    t.needsApps && exists c: Call :: c in calls && c.ComputerUse? && Corrected(c.args)
  }

  datatype Admission = Admission(turn: Turn, decisions: seq<Decision>)

  /** The first `k` calls of the response. */
  function Admit(t: Turn, calls: seq<Call>, loopBlocked: bool, k: nat): (r: Admission)
    requires k <= |calls|
    ensures |r.decisions| == k
  {
    if k == 0 then Admission(t, [])
    else
      var before := Admit(t, calls, loopBlocked, k - 1);
      var c := calls[k - 1];
      var d := if loopBlocked then LoopBlocked
               else if c in calls[..k - 1] then Duplicate
               else Decide(before.turn, c, HasCu(calls), HasCorrection(t, calls));
      Admission(AfterDecision(before.turn, c, d), before.decisions + [d])
  }

  // ---- the results ----

  /** Only a call that went past admission can carry an outcome; the gates behind it may still have kept
      it from running, and then it has none. */
  function Visible(c: Call, d: Decision, reported: Option<Outcome>): Option<Outcome> {
    if c.ComputerUse? && d.Admitted? then reported else None
  }

  predicate Retry(o: Option<Outcome>) {
    o.Some? && Validate(o.value) && o.value.recovery.RetryWithApps?
    && o.value.status.NotCompleted? && o.value.effect.NoEffect?
  }

  predicate Alternate(o: Option<Outcome>) {
    o.Some? && Validate(o.value) && o.value.recovery.AlternateControl? && o.value.effect.NoEffect?
  }

  function Spent(t: Turn, o: Option<Outcome>): Option<Outcome> {
    if Retry(o) && t.recoveryUsed then Some(o.value.(recovery := NoRecovery)) else o
  }

  function AfterResult(t: Turn, o: Option<Outcome>): Turn {
    if Retry(o) && !t.recoveryUsed then Turn(false, true, false, true)
    else if Alternate(Spent(t, o)) then Turn(false, false, true, t.recoveryUsed)
    else t
  }

  /** The flags after the results of the first calls, as many as `decisions` has. */
  function Results(t: Turn, calls: seq<Call>, decisions: seq<Decision>, reports: seq<Option<Outcome>>): Turn
    requires |decisions| <= |calls| && |decisions| <= |reports|
  {
    if decisions == [] then t
    else
      var k := |decisions| - 1;
      AfterResult(Results(t, calls, decisions[..k], reports), Visible(calls[k], decisions[k], reports[k]))
  }

  // ---- what the guards let through ----

  /** The `k`-th character of the `i`-th application is not white space. */
  predicate Printed(args: Args, i: int, k: int)
    requires args.Args?
  {
    0 <= i < |args.apps| && 0 <= k < |args.apps[i]| && !IsSpace(args.apps[i][k])
  }

  /** A correction names an application, not only white space, and one of the two policies. */
  lemma CorrectedIff(args: Args)
    ensures Corrected(args) <==>
      args.Args? && args.policy in {"foreground_allowed", "preserve_frontmost"} && exists i, k :: Printed(args, i, k)
  {
    if Corrected(args) {
      var app :| app in args.apps && !Blank(app);
      var i :| 0 <= i < |args.apps| && args.apps[i] == app;
      var c :| c in app && !IsSpace(c);
      var k :| 0 <= k < |app| && app[k] == c;
      assert Printed(args, i, k);
    }
    if args.Args? {
      if i, k :| Printed(args, i, k) {
        assert args.apps[i] in args.apps && args.apps[i][k] in args.apps[i];
      }
    }
  }

  /** Which report asks for the retry and which releases the desktop; any other leaves the flags as
      they were. */
  lemma ReportDecides(t: Turn, o: Option<Outcome>)
    requires t.owns && !t.needsApps && !t.alternateOnly
    ensures var t' := AfterResult(t, o);
      if o == Some(Outcome(NotCompleted, NoEffect, RetryWithApps)) && !t.recoveryUsed
      then t' == Turn(false, true, false, true)
      else if o in {Some(Outcome(NotCompleted, NoEffect, AlternateControl)),
                    Some(Outcome(Unverified, NoEffect, AlternateControl))}
      then t' == Turn(false, false, true, t.recoveryUsed)
      else t' == t
  {
  }

  /** While a task owns the desktop every call that would control it is refused, a search that loads desktop
      tools among them, and everything else goes on. */
  lemma OwnedDesktopRefuses(t: Turn, c: Call, besideCu: bool, hasCorrection: bool)
    requires t.owns
    ensures Decide(t, c, besideCu, hasCorrection).Admitted? <==>
        c.Tool? || (c.ToolSearch? && !(c.args.Args? && c.args.loadsDesktop))
  {
  }

  // ---- the policy: an automaton over what was admitted and reported ----

  datatype Event = Did(call: Call) | Reported(outcome: Option<Outcome>) | Wasted

  datatype Phase = Free | Owned(retried: bool) | Retrying | Over(retried: bool) | Released(retried: bool)

  /** What may happen: one goal-level computer_use task owns the desktop; a valid no-effect outcome may ask
      for one corrected retry, or release the desktop to everything but computer_use. */
  function Follow(p: Phase, e: Event): Option<Phase> {
    match e
    case Did(c) =>
      (match p
       case Free => Some(if c.ComputerUse? then Owned(false) else Free)
       case Retrying => if c.ComputerUse? && Corrected(c.args) then Some(Owned(true)) else None
       case Released(_) => if c.ComputerUse? then None else Some(p)
       case _ => None)
    case Reported(o) =>
      if p.Owned? then
        Some(if Retry(o) && !p.retried then Retrying
             else if Alternate(o) then Released(p.retried)
             else Over(p.retried))
      else None
    case Wasted => if p.Retrying? then Some(Over(true)) else None
  }

  function PhaseAfter(h: seq<Event>): Option<Phase> {
    if h == [] then Some(Free)
    else
      var p := PhaseAfter(h[..|h| - 1]);
      if p.None? then None else Follow(p.value, h[|h| - 1])
  }

  function Flags(p: Phase): Turn {
    match p
    case Free => Turn(false, false, false, false)
    case Owned(r) => Turn(true, false, false, r)
    case Retrying => Turn(false, true, false, true)
    case Over(r) => Turn(true, false, false, r)
    case Released(r) => Turn(false, false, true, r)
  }

  // ---- the history of a response ----

  function EventOf(c: Call, d: Decision): seq<Event> {
    if d.Admitted? && ControlsDesktop(c) then [Did(c)]
    else if d == CorrectionRejected(true) then [Wasted]
    else []
  }

  function AdmitLog(calls: seq<Call>, decisions: seq<Decision>): seq<Event>
    requires |decisions| <= |calls|
  {
    if decisions == [] then []
    else
      var k := |decisions| - 1;
      AdmitLog(calls, decisions[..k]) + EventOf(calls[k], decisions[k])
  }

  function ReportOf(c: Call, d: Decision, o: Option<Outcome>): seq<Event> {
    if c.ComputerUse? && d.Admitted? then [Reported(o)] else []
  }

  function ReportLog(calls: seq<Call>, decisions: seq<Decision>, reports: seq<Option<Outcome>>): seq<Event>
    requires |decisions| <= |calls| && |decisions| <= |reports|
  {
    if decisions == [] then []
    else
      var k := |decisions| - 1;
      ReportLog(calls, decisions[..k], reports) + ReportOf(calls[k], decisions[k], reports[k])
  }

  function CusAdmitted(calls: seq<Call>, decisions: seq<Decision>): nat
    requires |decisions| <= |calls|
  {
    if decisions == [] then 0
    else
      var k := |decisions| - 1;
      CusAdmitted(calls, decisions[..k]) + if calls[k].ComputerUse? && decisions[k].Admitted? then 1 else 0
  }

  // ---- a response follows the policy ----

  lemma Extend(h: seq<Event>, e: Event)
    requires PhaseAfter(h).Some?
    ensures PhaseAfter(h + [e]) == Follow(PhaseAfter(h).value, e)
  {
    assert (h + [e])[..|h|] == h;
  }

  /** `h` is a legal history that the flags reflect. */
  predicate Reflects(h: seq<Event>, t: Turn) {
    PhaseAfter(h).Some? && t == Flags(PhaseAfter(h).value)
  }

  predicate OwnedBy(h: seq<Event>, cus: nat) {
    PhaseAfter(h).Some? && cus == if PhaseAfter(h).value.Owned? then 1 else 0
  }

  /** One decision, seen from the phase the flags reflect. */
  lemma PolicyStep(p: Phase, c: Call, d: Decision, besideCu: bool, hasCorrection: bool)
    requires d.LoopBlocked? || d.Duplicate? || d == Decide(Flags(p), c, besideCu, hasCorrection)
    ensures var t' := AfterDecision(Flags(p), c, d); var es := EventOf(c, d); var cu := c.ComputerUse? && d.Admitted?;
      && (es == [] ==> t' == Flags(p) && !cu)
      && (es != [] ==> |es| == 1 && Follow(p, es[0]).Some? && t' == Flags(Follow(p, es[0]).value))
      && (es != [] ==> (Follow(p, es[0]).value.Owned? <==> cu || p.Owned?))
      && (p.Owned? ==> !cu)
  {
  }

  /** One decision is a legal step of the policy, and it takes the desktop exactly when it admits a
      computer_use call; while one owns the desktop no other is admitted. */
  lemma DecisionFollows(h: seq<Event>, t: Turn, cus: nat, c: Call, d: Decision, besideCu: bool, hasCorrection: bool)
    requires Reflects(h, t) && OwnedBy(h, cus)
    requires d.LoopBlocked? || d.Duplicate? || d == Decide(t, c, besideCu, hasCorrection)
    ensures Reflects(h + EventOf(c, d), AfterDecision(t, c, d))
    ensures OwnedBy(h + EventOf(c, d), cus + if c.ComputerUse? && d.Admitted? then 1 else 0)
  {
    var es := EventOf(c, d);
    PolicyStep(PhaseAfter(h).value, c, d, besideCu, hasCorrection);
    if es == [] {
      assert h + es == h;
    } else {
      Extend(h, es[0]);
      assert es == [es[0]];
    }
  }

  /** Nothing allowed is refused: a call that is neither vetoed nor a duplicate is admitted exactly when the
      policy allows it and no computer_use call stands beside it. */
  lemma AdmittedIffAllowed(p: Phase, c: Call, besideCu: bool, hasCorrection: bool)
    ensures Decide(Flags(p), c, besideCu, hasCorrection).Admitted? <==>
              (ControlsDesktop(c) ==> Follow(p, Did(c)).Some? && (c.ComputerUse? || !besideCu))
  {
  }

  lemma OneMore(calls: seq<Call>, decisions: seq<Decision>, d: Decision)
    requires |decisions| < |calls|
    ensures var c := calls[|decisions|];
      AdmitLog(calls, decisions + [d]) == AdmitLog(calls, decisions) + EventOf(c, d)
      && CusAdmitted(calls, decisions + [d]) ==
          CusAdmitted(calls, decisions) + if c.ComputerUse? && d.Admitted? then 1 else 0
  {
    assert (decisions + [d])[..|decisions|] == decisions;
  }

  /** The flags and decisions so far are a legal continuation of `h`, with the computer_use call counted. */
  predicate Follows(h: seq<Event>, calls: seq<Call>, a: Admission) {
    && |a.decisions| <= |calls|
    && Reflects(h + AdmitLog(calls, a.decisions), a.turn)
    && OwnedBy(h + AdmitLog(calls, a.decisions), CusAdmitted(calls, a.decisions))
  }

  lemma AdmitOneFollows(h: seq<Event>, calls: seq<Call>, a: Admission, d: Decision, besideCu: bool, hasCorrection: bool)
    requires Follows(h, calls, a) && |a.decisions| < |calls|
    requires d.LoopBlocked? || d.Duplicate? || d == Decide(a.turn, calls[|a.decisions|], besideCu, hasCorrection)
    ensures Follows(h, calls, Admission(AfterDecision(a.turn, calls[|a.decisions|], d), a.decisions + [d]))
  {
    var c := calls[|a.decisions|];
    var log := AdmitLog(calls, a.decisions);
    DecisionFollows(h + log, a.turn, CusAdmitted(calls, a.decisions), c, d, besideCu, hasCorrection);
    assert h + (log + EventOf(c, d)) == h + log + EventOf(c, d);
    OneMore(calls, a.decisions, d);
  }

  lemma {:induction false} AdmissionFollows(h: seq<Event>, t: Turn, calls: seq<Call>, loopBlocked: bool, k: nat)
    requires Reflects(h, t) && OwnedBy(h, 0) && k <= |calls|
    ensures Follows(h, calls, Admit(t, calls, loopBlocked, k))
  {
    if k == 0 {
      assert h + [] == h;
    } else {
      AdmissionFollows(h, t, calls, loopBlocked, k - 1);
      AdmitOneFollows(h, calls, Admit(t, calls, loopBlocked, k - 1),
                      Admit(t, calls, loopBlocked, k).decisions[k - 1], HasCu(calls), HasCorrection(t, calls));
    }
  }

  lemma ResultFollows(h: seq<Event>, t: Turn, c: Call, d: Decision, o: Option<Outcome>)
    requires Reflects(h, t) && (c.ComputerUse? && d.Admitted? ==> OwnedBy(h, 1))
    ensures Reflects(h + ReportOf(c, d, o), AfterResult(t, Visible(c, d, o)))
    ensures c.ComputerUse? && d.Admitted? ==> OwnedBy(h + ReportOf(c, d, o), 0)
  {
    if c.ComputerUse? && d.Admitted? {
      Extend(h, Reported(o));
    } else {
      assert h + [] == h;
    }
  }

  predicate AfterReports(h: seq<Event>, g: seq<Event>, t: Turn, cus: nat) {
    Reflects(g, t) && if cus == 0 then g == h else OwnedBy(g, 0)
  }

  lemma {:induction false} ResultsFollow(h: seq<Event>, t: Turn, calls: seq<Call>, decisions: seq<Decision>,
      reports: seq<Option<Outcome>>)
    requires Reflects(h, t) && |decisions| <= |calls| && |decisions| <= |reports|
    requires CusAdmitted(calls, decisions) <= 1 && (CusAdmitted(calls, decisions) == 1 ==> OwnedBy(h, 1))
    ensures AfterReports(h, h + ReportLog(calls, decisions, reports), Results(t, calls, decisions, reports),
                      CusAdmitted(calls, decisions))
  {
    if decisions == [] {
      assert h + [] == h;
    } else {
      var k := |decisions| - 1;
      ResultsFollow(h, t, calls, decisions[..k], reports);
      var g := h + ReportLog(calls, decisions[..k], reports);
      ResultFollows(g, Results(t, calls, decisions[..k], reports), calls[k], decisions[k], reports[k]);
      assert h + ReportLog(calls, decisions, reports) == g + ReportOf(calls[k], decisions[k], reports[k]);
      assert g + [] == g;
    }
  }

  // ---- whole runs ----

  /** One model response: its calls, whether the loop detector blocks the batch, and what the calls that
      were executed reported. */
  datatype Response = Response(calls: seq<Call>, loopBlocked: bool, reports: seq<Option<Outcome>>)

  datatype State = State(turn: Turn, history: seq<Event>)

  predicate Enabled(r: Response) {
    |r.reports| == |r.calls|
  }

  function Respond(s: State, r: Response): State
    requires Enabled(r)
  {
    var a := Admit(s.turn, r.calls, r.loopBlocked, |r.calls|);
    State(Results(a.turn, r.calls, a.decisions, r.reports),
          s.history + AdmitLog(r.calls, a.decisions) + ReportLog(r.calls, a.decisions, r.reports))
  }

  /** The flags when a turn starts. */
  const INITIAL := State(Turn(false, false, false, false), [])

  predicate Inv(s: State) {
    Reflects(s.history, s.turn) && OwnedBy(s.history, 0)
  }

  lemma RespondKeepsInv(s: State, r: Response)
    requires Inv(s) && Enabled(r)
    ensures Inv(Respond(s, r))
  {
    AdmissionFollows(s.history, s.turn, r.calls, r.loopBlocked, |r.calls|);
    var a := Admit(s.turn, r.calls, r.loopBlocked, |r.calls|);
    ResultsFollow(s.history + AdmitLog(r.calls, a.decisions), a.turn, r.calls, a.decisions, r.reports);
  }

  function RunOf(rs: seq<Response>): State
    requires forall r :: r in rs ==> Enabled(r)
  {
    if rs == [] then INITIAL else Respond(RunOf(rs[..|rs| - 1]), rs[|rs| - 1])
  }

  lemma {:induction false} RunFollowsPolicy(rs: seq<Response>)
    requires forall r :: r in rs ==> Enabled(r)
    ensures Inv(RunOf(rs))
  {
    if rs != [] {
      RunFollowsPolicy(rs[..|rs| - 1]);
      RespondKeepsInv(RunOf(rs[..|rs| - 1]), rs[|rs| - 1]);
    }
  }

  // ---- what the policy means ----

  function CuCount(h: seq<Event>): nat {
    if h == [] then 0
    else CuCount(h[..|h| - 1]) + match h[|h| - 1] case Did(c) => if c.ComputerUse? then 1 else 0 case _ => 0
  }

  lemma {:induction false} CountByPhase(h: seq<Event>)
    requires PhaseAfter(h).Some?
    ensures CuCount(h) <= match PhaseAfter(h).value
              case Free => 0 case Retrying => 1 case Owned(r) => (if r then 2 else 1)
              case Over(r) => (if r then 2 else 1) case Released(r) => if r then 2 else 1
  {
    if h != [] { CountByPhase(h[..|h| - 1]); }
  }

  lemma {:induction false} LegalPrefix(h: seq<Event>, n: nat)
    requires PhaseAfter(h).Some? && n <= |h|
    ensures PhaseAfter(h[..n]).Some?
    ensures n < |h| ==> PhaseAfter(h[..n + 1]) == Follow(PhaseAfter(h[..n]).value, h[n])
    decreases |h| - n
  {
    if n < |h| {
      LegalPrefix(h, n + 1);
      assert h[..n + 1][..n] == h[..n];
    } else {
      assert h[..n] == h;
    }
  }

  predicate RetryReported(h: seq<Event>, i: nat, j: nat) {
    exists k :: i < k < j < |h| && h[k].Reported? && Retry(h[k].outcome)
  }

  predicate AlternateReported(h: seq<Event>, i: nat, j: nat) {
    exists k :: i < k < j < |h| && h[k].Reported? && Alternate(h[k].outcome)
  }

  /** Once a computer_use call was admitted, only the matching report leads to a retry or a release. */
  lemma {:induction false} SinceCu(h: seq<Event>, i: nat, j: nat)
    requires PhaseAfter(h).Some? && i < j < |h| && h[i].Did? && h[i].call.ComputerUse?
    ensures PhaseAfter(h[..j]).Some? && !PhaseAfter(h[..j]).value.Free?
    ensures PhaseAfter(h[..j]).value.Retrying? ==> RetryReported(h, i, j)
    ensures PhaseAfter(h[..j]).value.Released? ==> AlternateReported(h, i, j)
  {
    LegalPrefix(h, j - 1);
    LegalPrefix(h, j);
    if i < j - 1 {
      SinceCu(h, i, j - 1);
    }
  }

  /** What lies between the computer_use call at `i` and the desktop call at `j`. */
  predicate Justified(h: seq<Event>, i: nat, j: nat)
    requires j < |h| && h[j].Did?
  {
    if h[j].call.ComputerUse? then Corrected(h[j].call.args) && RetryReported(h, i, j) else AlternateReported(h, i, j)
  }

  lemma SecondDesktopCall(h: seq<Event>, i: nat, j: nat)
    requires PhaseAfter(h).Some? && i < j < |h|
    requires h[i].Did? && h[i].call.ComputerUse? && h[j].Did?
    ensures Justified(h, i, j)
  {
    SinceCu(h, i, j);
    LegalPrefix(h, j);
  }

  /** Over any run of responses at most two computer_use calls get past admission. */
  lemma AtMostTwoTasks(rs: seq<Response>)
    requires forall r :: r in rs ==> Enabled(r)
    ensures CuCount(RunOf(rs).history) <= 2
  {
    RunFollowsPolicy(rs);
    CountByPhase(RunOf(rs).history);
  }

  /** Over any run of responses, for the computer_use call at `i` and a later desktop call at `j`: another
      computer_use call is a well-formed correction made after a report of a valid, not-completed, no-effect
      request for one, and any other desktop call comes after a valid no-effect outcome released it. */
  lemma DesktopIsOwned(rs: seq<Response>, i: nat, j: nat)
    requires forall r :: r in rs ==> Enabled(r)
    requires i < j < |RunOf(rs).history|
    requires RunOf(rs).history[i].Did? && RunOf(rs).history[i].call.ComputerUse? && RunOf(rs).history[j].Did?
    ensures Justified(RunOf(rs).history, i, j)
  {
    RunFollowsPolicy(rs);
    SecondDesktopCall(RunOf(rs).history, i, j);
  }

  /** Beside a computer_use call, even one that is itself refused, nothing else controls the desktop. */
  lemma {:induction false} NothingBesideCu(t: Turn, calls: seq<Call>, loopBlocked: bool, k: nat)
    requires HasCu(calls) && k <= |calls|
    ensures forall i | 0 <= i < k ::
        Admit(t, calls, loopBlocked, k).decisions[i].Admitted? && ControlsDesktop(calls[i]) ==>
              calls[i].ComputerUse?
  {
    if k > 0 { NothingBesideCu(t, calls, loopBlocked, k - 1); }
  }

  predicate CuAmong(calls: seq<Call>, onlyCorrected: bool) {
    exists c: Call :: c in calls && c.ComputerUse? && (onlyCorrected ==> Corrected(c.args))
  }

  lemma AmongOneMore(calls: seq<Call>, k: nat, onlyCorrected: bool)
    requires 0 < k <= |calls|
    ensures var c := calls[k - 1];
      CuAmong(calls[..k], onlyCorrected) <==>
        CuAmong(calls[..k - 1], onlyCorrected) || (c.ComputerUse? && (onlyCorrected ==> Corrected(c.args)))
    ensures (calls[k - 1] in calls[..k - 1] && calls[k - 1].ComputerUse?
             && (onlyCorrected ==> Corrected(calls[k - 1].args))) ==>
      CuAmong(calls[..k - 1], onlyCorrected)
  {
    assert calls[..k] == calls[..k - 1] + [calls[k - 1]];
  }

  const AWAITING := Turn(false, true, false, true)
  const SPENT := Turn(true, false, false, true)

  /** After the first calls: the retry is spent once one of them could spend it. */
  predicate Decided(calls: seq<Call>, a: Admission, valid: bool) {
    && |a.decisions| <= |calls|
    && a.turn == (if CuAmong(calls[..|a.decisions|], valid) then SPENT else AWAITING)
    && CusAdmitted(calls, a.decisions) == (if valid && CuAmong(calls[..|a.decisions|], true) then 1 else 0)
  }

  /** What one call does to a turn that awaits a correction, or whose correction was decided. */
  lemma DecisionOnRetry(t: Turn, c: Call, besideCu: bool, valid: bool)
    requires t == AWAITING || t == SPENT
    requires valid || !c.ComputerUse? || !Corrected(c.args)
    ensures var d := Decide(t, c, besideCu, valid); var spends := c.ComputerUse? && (valid ==> Corrected(c.args));
      && AfterDecision(t, c, d) == (if t == SPENT || spends then SPENT else AWAITING)
      && (c.ComputerUse? && d.Admitted? <==> t == AWAITING && valid && spends)
  {
  }

  lemma CorrectionStep(calls: seq<Call>, a: Admission, valid: bool, besideCu: bool)
    requires Decided(calls, a, valid) && |a.decisions| < |calls|
    requires valid || forall c: Call :: c in calls && c.ComputerUse? ==> !Corrected(c.args)
    ensures var c := calls[|a.decisions|];
      var d := if c in calls[..|a.decisions|] then Duplicate else Decide(a.turn, c, besideCu, valid);
      Decided(calls, Admission(AfterDecision(a.turn, c, d), a.decisions + [d]), valid)
  {
    var k := |a.decisions|;
    var c := calls[k];
    var d := if c in calls[..k] then Duplicate else Decide(a.turn, c, besideCu, valid);
    assert c in calls;
    OneMore(calls, a.decisions, d);
    AmongOneMore(calls, k + 1, valid);
    if c !in calls[..k] { DecisionOnRetry(a.turn, c, besideCu, valid); }
  }

  lemma {:induction false} AwaitingIsDecided(calls: seq<Call>, k: nat)
    requires k <= |calls|
    ensures Decided(calls, Admit(AWAITING, calls, false, k), HasCorrection(AWAITING, calls))
  {
    if k > 0 {
      AwaitingIsDecided(calls, k - 1);
      CorrectionStep(calls, Admit(AWAITING, calls, false, k - 1), HasCorrection(AWAITING, calls), HasCu(calls));
    }
  }

  /** The one correction allowed: if the response has a well-formed one it is admitted whatever malformed
      ones surround it, and if it has only malformed ones the retry is consumed. */
  lemma CorrectionIsDecided(t: Turn, calls: seq<Call>, k: nat)
    requires t == Turn(false, true, false, true) && k <= |calls|
    ensures var a := Admit(t, calls, false, k);
      var valid := HasCorrection(t, calls);
      a.turn == (if CuAmong(calls[..k], valid) then Turn(true, false, false, true) else t)
      && CusAdmitted(calls, a.decisions) == (if valid && CuAmong(calls[..k], true) then 1 else 0)
  {
    AwaitingIsDecided(calls, k);
  }

  // ---- a task and its correction ----

  function Task(args: Args, o: Option<Outcome>): Response {
    Response([ComputerUse(args)], false, [o])
  }

  const ASKS_FOR_APPS := Some(Outcome(NotCompleted, NoEffect, RetryWithApps))

  lemma TaskTurn(s: State, args: Args, o: Option<Outcome>)
    ensures var c := ComputerUse(args);
      var d := Decide(s.turn, c, true, s.turn.needsApps && Corrected(args));
      && Admit(s.turn, [c], false, 1) == Admission(AfterDecision(s.turn, c, d), [d])
      && Respond(s, Task(args, o)).turn == AfterResult(AfterDecision(s.turn, c, d), Visible(c, d, o))
      && Respond(s, Task(args, o)).history == s.history + EventOf(c, d) + ReportOf(c, d, o)
  {
    var c := ComputerUse(args);
    var d := Decide(s.turn, c, true, s.turn.needsApps && Corrected(args));
    assert [c][0] in [c] && c !in [c][..0];
    assert HasCu([c]);
    assert Admit(s.turn, [c], false, 0).decisions == [];
    assert [] + [d] == [d] && [d][..0] == [];
    assert AdmitLog([c], [d][..0]) == [] && ReportLog([c], [d][..0], [o]) == [];
    assert Results(AfterDecision(s.turn, c, d), [c], [d][..0], [o]) == AfterDecision(s.turn, c, d);
    assert [] + EventOf(c, d) == EventOf(c, d) && [] + ReportOf(c, d, o) == ReportOf(c, d, o);
  }

  lemma CountOneMore(h: seq<Event>, e: Event)
    ensures CuCount(h + [e]) == CuCount(h) + match e case Did(c) => if c.ComputerUse? then 1 else 0 case _ => 0
  {
    assert (h + [e])[..|h|] == h;
  }

  lemma CountWithTask(h: seq<Event>, args: Args, o: Option<Outcome>)
    ensures CuCount(h + [Did(ComputerUse(args))] + [Reported(o)]) == CuCount(h) + 1
  {
    CountOneMore(h, Did(ComputerUse(args)));
    CountOneMore(h + [Did(ComputerUse(args))], Reported(o));
  }

  lemma FirstTask(args: Args)
    ensures RunOf([Task(args, ASKS_FOR_APPS)]).turn == Turn(false, true, false, true)
    ensures CuCount(RunOf([Task(args, ASKS_FOR_APPS)]).history) == 1
  {
    var r := Task(args, ASKS_FOR_APPS);
    assert [r][..0] == [];
    TaskTurn(INITIAL, args, ASKS_FOR_APPS);
    CountWithTask([], args, ASKS_FOR_APPS);
  }

  lemma SecondTask(s: State, args: Args, o: Option<Outcome>)
    requires s.turn == Turn(false, true, false, true)
    ensures var r := Respond(s, Task(args, o));
      && CuCount(r.history) == CuCount(s.history) + (if Corrected(args) then 1 else 0)
      && (!Corrected(args) ==> r.turn == Turn(true, false, false, true))
  {
    TaskTurn(s, args, o);
    if Corrected(args) {
      CountWithTask(s.history, args, o);
    } else {
      assert s.history + [Wasted] + [] == s.history + [Wasted];
      CountOneMore(s.history, Wasted);
    }
  }

  /** The first task of a run that asks for applications does get its second attempt: the correction runs if it
      names one; a blank one uses the attempt up. */
  lemma TheCorrectionRuns(args: Args, args': Args, o: Option<Outcome>)
    ensures var s := RunOf([Task(args, ASKS_FOR_APPS), Task(args', o)]);
      && CuCount(s.history) == (if Corrected(args') then 2 else 1)
      && (!Corrected(args') ==> s.turn == Turn(true, false, false, true))
  {
    var r1, r2 := Task(args, ASKS_FOR_APPS), Task(args', o);
    assert [r1, r2][..1] == [r1];
    FirstTask(args);
    SecondTask(RunOf([r1]), args', o);
  }

  // ---- the flags in place ----

  class ComputerUseTurn {
    var owns: bool
    var needsApps: bool
    var alternateOnly: bool
    var recoveryUsed: bool

    function View(): Turn
      reads this
    {
      Turn(owns, needsApps, alternateOnly, recoveryUsed)
    }

    constructor ()
      ensures View() == INITIAL.turn
    {
      owns, needsApps, alternateOnly, recoveryUsed := false, false, false, false;
    }

    /** The scan before admission. */
    method Scan(calls: seq<Call>) returns (besideCu: bool, hasCorrection: bool)
      ensures besideCu == HasCu(calls) && hasCorrection == HasCorrection(View(), calls)
    {
      besideCu, hasCorrection := false, false;
      for i := 0 to |calls|
        invariant besideCu == HasCu(calls[..i])
        invariant hasCorrection == (needsApps && CuAmong(calls[..i], true))
      {
        assert calls[..i + 1] == calls[..i] + [calls[i]];
        if calls[i].ComputerUse? {
          besideCu := true;
          if needsApps && Corrected(calls[i].args) {
            hasCorrection := true;
          }
        }
      }
      assert calls[..|calls|] == calls;
    }

    method AdmitOne(c: Call, besideCu: bool, hasCorrection: bool) returns (d: Decision)
      modifies this
      ensures d == Decide(old(View()), c, besideCu, hasCorrection) && View() == AfterDecision(old(View()), c, d)
    {
      var priorCu := owns && ControlsDesktop(c);
      var missingApps := needsApps && ControlsDesktop(c) && (!c.ComputerUse? || !Corrected(c.args));
      var repeated := alternateOnly && c.ComputerUse?;
      var beside := besideCu && !c.ComputerUse? && ControlsDesktop(c);
      if priorCu || missingApps || repeated || beside {
        d := Blocked;
        if missingApps {
          if c.ComputerUse? {
            d := CorrectionRejected(!hasCorrection);
            if !hasCorrection {
              owns, needsApps, alternateOnly := true, false, false;
            }
          } else {
            d := AppsRequired;
          }
        } else if repeated {
          d := Repeated;
        }
        return;
      }
      if c.ComputerUse? {
        owns, needsApps, alternateOnly := true, false, false;
      }
      d := Admitted;
    }

    method AdmitResponse(calls: seq<Call>, loopBlocked: bool) returns (decisions: seq<Decision>)
      modifies this
      ensures Admission(View(), decisions) == Admit(old(View()), calls, loopBlocked, |calls|)
    {
      var besideCu, hasCorrection := Scan(calls);
      var seen: set<Call> := {};
      decisions := [];
      for i := 0 to |calls|
        invariant Admission(View(), decisions) == Admit(old(View()), calls, loopBlocked, i)
        invariant !loopBlocked ==> forall c :: c in seen <==> c in calls[..i]
      {
        var c := calls[i];
        var d;
        if loopBlocked {
          d := LoopBlocked;
        } else if c in seen {
          d := Duplicate;
        } else {
          seen := seen + {c};
          d := AdmitOne(c, besideCu, hasCorrection);
        }
        assert calls[..i + 1] == calls[..i] + [c];
        decisions := decisions + [d];
      }
    }

    /** `shown` is what the outcome of the call is turned into. */
    method ReadResult(o: Option<Outcome>) returns (shown: Option<Outcome>)
      modifies this
      ensures View() == AfterResult(old(View()), o) && shown == Spent(old(View()), o)
    {
      shown := o;
      var retry := Retry(o);
      if retry && recoveryUsed {
        shown := Some(o.value.(recovery := NoRecovery));
      }
      if retry && !recoveryUsed {
        owns, needsApps, alternateOnly, recoveryUsed := false, true, false, true;
      } else if Alternate(shown) {
        owns, needsApps, alternateOnly := false, false, true;
      }
    }

    method ReadResults(calls: seq<Call>, decisions: seq<Decision>, reports: seq<Option<Outcome>>)
      requires |calls| == |decisions| == |reports|
      modifies this
      ensures View() == Results(old(View()), calls, decisions, reports)
    {
      for i := 0 to |calls|
        invariant View() == Results(old(View()), calls, decisions[..i], reports)
      {
        assert decisions[..i + 1][..i] == decisions[..i];
        var _ := ReadResult(Visible(calls[i], decisions[i], reports[i]));
      }
      assert decisions[..|calls|] == decisions;
    }

    /** One response: what it does to the history of the turn follows the policy. */
    method HandleResponse(r: Response, ghost history: seq<Event>) returns (ghost history': seq<Event>)
      requires Enabled(r)
      modifies this
      ensures State(View(), history') == Respond(State(old(View()), history), r)
      ensures Inv(State(old(View()), history)) ==> Inv(State(View(), history'))
    {
      ghost var s := State(View(), history);
      var decisions := AdmitResponse(r.calls, r.loopBlocked);
      ReadResults(r.calls, decisions, r.reports);
      history' := Respond(s, r).history;
      if Inv(s) {
        RespondKeepsInv(s, r);
      }
    }
  }
}

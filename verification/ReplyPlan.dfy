/** Which inbound message the next answer is addressed to, and which the daemon acknowledges once the final
    reply is out.  A follow-up that arrives while the run is answering moves the target; the answer to the
    turn it supersedes goes out at once, and its id must then leave the plan. */
module ReplyPlan {

  /** A cloud message id; empty for a message that has none. */
  type Id = string

  /** `absorbed` and `answered` are history: the ids ever taken into the run, and those an intermediate
      answer was addressed to. */
  datatype Plan = Plan(reply: Id, pending: seq<Id>, absorbed: set<Id>, answered: seq<Id>)

  /** The follow-ups drained together, by their ids, and whether an answer to the turn they supersede goes
      out: there is a hook for it and the answer is not blank. */
  datatype Action = Drain(batch: seq<Id>) | EndTurn(batch: seq<Id>, delivered: bool)

  function Start(primary: Id): Plan {
    Plan(primary, if primary == "" then [] else [primary], if primary == "" then {} else {primary}, [])
  }

  function Append(pending: seq<Id>, id: Id): seq<Id> {
    if id == "" || id in pending then pending else pending + [id]
  }

  function Remove(pending: seq<Id>, id: Id): seq<Id> {
    if pending == [] then []
    else
      var rest := Remove(pending[..|pending| - 1], id);
      if pending[|pending| - 1] == id then rest else rest + [pending[|pending| - 1]]
  }

  function Commit(p: Plan, batch: seq<Id>): Plan {
    if batch == [] then p
    else
      var q := Commit(p, batch[..|batch| - 1]);
      var id := batch[|batch| - 1];
      if id == "" then q else q.(reply := id, pending := Append(q.pending, id), absorbed := q.absorbed + {id})
  }

  function Answer(p: Plan, id: Id): Plan {
    if id == "" then p else p.(pending := Remove(p.pending, id), answered := p.answered + [id])
  }

  function Next(p: Plan, a: Action): Plan {
    match a
    case Drain(batch) => Commit(p, batch)
    case EndTurn(batch, delivered) =>
      var q := Commit(p, batch);
      if batch != [] && delivered then Answer(q, p.reply) else q
  }

  // ---- sequences without duplicates ----

  predicate Distinct(s: seq<Id>) {
    forall i, j :: 0 <= i < j < |s| ==> s[i] != s[j]
  }

  function Elements(s: seq<Id>): set<Id> {
    set x | x in s
  }

  lemma {:induction false} RemoveRemoves(s: seq<Id>, id: Id)
    ensures forall x :: x in Remove(s, id) <==> x in s && x != id
    ensures Distinct(s) ==> Distinct(Remove(s, id))
  {
    if s != [] {
      var init, last := s[..|s| - 1], s[|s| - 1];
      RemoveRemoves(init, id);
      assert s == init + [last];
      assert Distinct(s) ==> last !in init;
    }
  }

  // ---- committing a batch ----

  function LastId(batch: seq<Id>): Id {
    if batch == [] then ""
    else if batch[|batch| - 1] != "" then batch[|batch| - 1]
    else LastId(batch[..|batch| - 1])
  }

  function Ids(batch: seq<Id>): set<Id> {
    set x | x in batch && x != ""
  }

  lemma OneMoreId(batch: seq<Id>, id: Id)
    ensures Ids(batch + [id]) == Ids(batch) + if id == "" then {} else {id}
    ensures LastId(batch + [id]) == if id == "" then LastId(batch) else id
  {
    assert (batch + [id])[..|batch|] == batch;
  }

  lemma AppendAdds(pending: seq<Id>, id: Id)
    requires id != ""
    ensures Elements(Append(pending, id)) == Elements(pending) + {id}
    ensures Distinct(pending) ==> Distinct(Append(pending, id))
  {
  }

  /** A batch moves the target to its last id, if it has one, and adds its ids. */
  lemma {:induction false} CommitAdds(p: Plan, batch: seq<Id>)
    ensures var q := Commit(p, batch);
      && q.reply == (if LastId(batch) != "" then LastId(batch) else p.reply)
      && Elements(q.pending) == Elements(p.pending) + Ids(batch)
      && q.absorbed == p.absorbed + Ids(batch) && q.answered == p.answered
      && (Distinct(p.pending) ==> Distinct(q.pending))
      && (LastId(batch) == "" <==> Ids(batch) == {}) && (LastId(batch) != "" ==> LastId(batch) in batch)
  {
    if batch != [] {
      var init, last := batch[..|batch| - 1], batch[|batch| - 1];
      CommitAdds(p, init);
      OneMoreId(init, last);
      assert batch == init + [last];
      if last != "" { AppendAdds(Commit(p, init).pending, last); }
    }
  }

  /** The ids come behind those that were pending, in the order of the batch: what the first `k` messages
      leave is the beginning of what all of them leave. */
  lemma {:induction false} CommitAppends(p: Plan, batch: seq<Id>, k: nat)
    requires k <= |batch|
    ensures Commit(p, batch[..k]).pending <= Commit(p, batch).pending
  {
    if k < |batch| {
      var init := batch[..|batch| - 1];
      CommitAppends(p, init, k);
      assert init[..k] == batch[..k];
      assert Commit(p, init).pending <= Commit(p, batch).pending;
    } else {
      assert batch[..k] == batch;
    }
  }

  // ---- the plan over a run ----

  /** What was absorbed is pending or was answered, once and not both; the target is pending. */
  predicate Inv(p: Plan) {
    && Distinct(p.pending) && Distinct(p.answered)
    && Elements(p.pending) + Elements(p.answered) == p.absorbed
    && Elements(p.pending) !! Elements(p.answered)
    && "" !in p.absorbed
    && (p.reply == "" <==> p.absorbed == {}) && (p.reply != "" ==> p.reply in p.pending)
  }

  /** Cloud ids are never delivered twice. */
  predicate Fresh(p: Plan, a: Action) {
    Ids(a.batch) !! p.absorbed
  }

  /** A batch whose arrival sends out an answer carries a cloud id. */
  predicate Addressed(a: Action) {
    a.EndTurn? && a.delivered && a.batch != [] ==> Ids(a.batch) != {}
  }

  lemma StepKeepsInv(p: Plan, a: Action)
    requires Inv(p) && Fresh(p, a) && Addressed(a)
    ensures Inv(Next(p, a))
  {
    CommitAdds(p, a.batch);
    var q := Commit(p, a.batch);
    assert q.reply != "" ==> q.reply in Elements(q.pending) by {
      if LastId(a.batch) != "" {
        assert LastId(a.batch) in Ids(a.batch);
      } else {
        assert p.reply != "" ==> p.reply in Elements(p.pending);
      }
    }
    assert Inv(q);
    if a.EndTurn? && a.delivered && a.batch != [] && p.reply != "" {
      RemoveRemoves(q.pending, p.reply);
      var r := Answer(q, p.reply);
      assert p.reply in Elements(p.pending) && p.reply in p.absorbed;
      assert r.answered == q.answered + [p.reply];
      assert Elements(r.pending) == Elements(q.pending) - {p.reply};
      assert Elements(r.answered) == Elements(q.answered) + {p.reply};
      assert LastId(a.batch) in Ids(a.batch);
    }
  }

  function RunOf(primary: Id, actions: seq<Action>): Plan {
    if actions == [] then Start(primary) else Next(RunOf(primary, actions[..|actions| - 1]), actions[|actions| - 1])
  }

  predicate RunFresh(primary: Id, actions: seq<Action>) {
    forall k :: 0 <= k < |actions| ==> Fresh(RunOf(primary, actions[..k]), actions[k])
  }

  /** Over any run: the absorbed ids split exactly into the pending ones and those answered on the way, no
      id is answered twice, pending has no duplicates and the final reply's target is in it. */
  lemma {:induction false} PlanIsKept(primary: Id, actions: seq<Action>)
    requires RunFresh(primary, actions) && forall a :: a in actions ==> Addressed(a)
    ensures Inv(RunOf(primary, actions))
  {
    if actions == [] {
      assert Elements(Start(primary).pending) == Start(primary).absorbed;
    } else {
      var init := actions[..|actions| - 1];
      forall k | 0 <= k < |init|
        ensures Fresh(RunOf(primary, init[..k]), init[k])
      {
        assert init[..k] == actions[..k] && init[k] == actions[k];
      }
      PlanIsKept(primary, init);
      assert actions[..|init|] == init;
      StepKeepsInv(RunOf(primary, init), actions[|init|]);
    }
  }

  lemma {:induction false} RemoveNothing(s: seq<Id>, id: Id)
    requires id !in s
    ensures Remove(s, id) == s
  {
    if s != [] {
      var init := s[..|s| - 1];
      assert s[|s| - 1] in s && forall x :: x in init ==> x in s;
      RemoveNothing(init, id);
    }
  }

  /** Of ids that are all different only the one is taken out, and the others stay where they were. */
  lemma {:induction false} RemoveTakesOne(a: seq<Id>, id: Id, b: seq<Id>)
    requires Distinct(a + [id] + b)
    ensures Remove(a + [id] + b, id) == a + b
  {
    var s := a + [id] + b;
    var init := s[..|s| - 1];
    assert s[|a|] == id;
    if b == [] {
      assert init == a && a + b == a;
      forall i | 0 <= i < |a|
        ensures a[i] != id
      {
        assert s[i] == a[i];
      }
      RemoveNothing(a, id);
    } else {
      assert init == a + [id] + b[..|b| - 1] && s[|s| - 1] == b[|b| - 1] != id;
      RemoveTakesOne(a, id, b[..|b| - 1]);
      assert a + b[..|b| - 1] + [b[|b| - 1]] == a + b;
    }
  }

  lemma PullOut(s: seq<Id>, id: Id, more: seq<Id>) returns (a: seq<Id>, b: seq<Id>)
    requires id in s && Distinct(s + more)
    ensures s == a + [id] + b && Remove(s + more, id) == a + b + more && id !in a + b
  {
    var i :| 0 <= i < |s| && s[i] == id;
    a, b := s[..i], s[i + 1..];
    assert s + more == a + [id] + (b + more);
    RemoveTakesOne(a, id, b + more);
    assert a + (b + more) == a + b + more;
    RemoveRemoves(s + more, id);
    assert forall x :: x in a + b ==> x in a + b + more;
  }

  /** The target and what was pending before and behind it. */
  predicate SplitAtTarget(p: Plan, a: seq<Id>, b: seq<Id>) {
    p.pending == a + [p.reply] + b
  }

  /** `q` has the ids of `a` and `b` as they stood, and behind them exactly those of the batch. */
  predicate KeepsAndAdds(a: seq<Id>, b: seq<Id>, q: Plan, batch: seq<Id>) {
    a + b <= q.pending && Elements(q.pending) == Elements(a + b) + Ids(batch)
  }

  /** No answer goes out: whatever was pending stays, and nothing is answered. */
  lemma SilentTurnKeeps(p: Plan, batch: seq<Id>, delivered: bool)
    requires !delivered || batch == [] || p.reply == ""
    ensures var q := Next(p, EndTurn(batch, delivered));
      && p.pending <= q.pending && Elements(q.pending) == Elements(p.pending) + Ids(batch)
      && q.answered == p.answered && q.absorbed == p.absorbed + Ids(batch) && (batch == [] ==> q == p)
  {
    CommitAdds(p, batch);
    CommitAppends(p, batch, 0);
    assert batch[..0] == [];
  }

  lemma TargetLeaves(p: Plan, c: Plan, batch: seq<Id>) returns (a: seq<Id>, b: seq<Id>)
    requires p.reply in p.pending && p.pending <= c.pending && Distinct(c.pending) && p.reply !in Ids(batch)
    requires Elements(c.pending) == Elements(p.pending) + Ids(batch)
    ensures SplitAtTarget(p, a, b) && a + b <= Remove(c.pending, p.reply)
    ensures Elements(Remove(c.pending, p.reply)) == Elements(a + b) + Ids(batch)
  {
    var more := c.pending[|p.pending|..];
    assert c.pending == p.pending + more;
    a, b := PullOut(p.pending, p.reply, more);
    RemoveRemoves(c.pending, p.reply);
    assert Elements(Remove(c.pending, p.reply)) == Elements(c.pending) - {p.reply};
    assert Elements(a + b) == Elements(p.pending) - {p.reply};
  }

  /** An answer goes out: it is to the target the batch supersedes, and exactly that id leaves the plan. */
  lemma DeliveredTurnAnswers(p: Plan, batch: seq<Id>)
    requires Inv(p) && p.reply != "" && batch != [] && Fresh(p, EndTurn(batch, true))
    ensures var q := Next(p, EndTurn(batch, true));
      q.answered == p.answered + [p.reply] && exists a, b :: SplitAtTarget(p, a, b) && KeepsAndAdds(a, b, q, batch)
  {
    CommitAdds(p, batch);
    CommitAppends(p, batch, 0);
    assert batch[..0] == [];
    assert p.reply in p.absorbed by { assert p.reply in Elements(p.pending); }
    var c := Commit(p, batch);
    assert Distinct(c.pending);
    var a, b := TargetLeaves(p, c, batch);
    assert KeepsAndAdds(a, b, Next(p, EndTurn(batch, true)), batch);
  }

  /** When an answer to a superseded turn goes out, the run's target stays pending exactly if the
      superseding batch carries a cloud id; otherwise the target was just answered and dropped. */
  lemma TargetIsPendingIff(p: Plan, batch: seq<Id>)
    requires Inv(p) && p.reply != "" && batch != [] && Fresh(p, EndTurn(batch, true))
    ensures var q := Next(p, EndTurn(batch, true));
      (q.reply in q.pending <==> Ids(batch) != {}) && (Ids(batch) == {} ==> q.reply == p.reply && q.reply in q.answered)
  {
    CommitAdds(p, batch);
    RemoveRemoves(Commit(p, batch).pending, p.reply);
    assert p.reply in p.absorbed by { assert p.reply in Elements(p.pending); }
    if Ids(batch) != {} { assert LastId(batch) in Ids(batch); }
  }

  /** Two follow-ups without cloud ids, each after an answer: the primary is answered twice and the final
      reply goes to an id that is no longer pending. */
  lemma AnIdlessFollowUpAnswersTwice(primary: Id)
    requires primary != ""
    ensures var p := RunOf(primary, [EndTurn([""], true), EndTurn([""], true)]);
      p.answered == [primary, primary] && p.reply == primary && p.pending == []
  {
    var a := EndTurn([""], true);
    assert [a, a][..1] == [a] && [a][..0] == [];
    assert [""][..0] == [];
    assert Commit(Start(primary), [""]) == Commit(Start(primary), []) == Start(primary);
    assert [primary][..0] == [];
    assert Remove([primary], primary) == Remove([], primary) == [];
    var p1 := Next(Start(primary), a);
    assert p1 == RunOf(primary, [a]) by { assert RunOf(primary, []) == Start(primary); }
    assert Commit(p1, [""]) == Commit(p1, []) == p1;
  }

  // ---- the fields in place ----

  class Loop {
    var replyCloudMessageID: Id
    var pendingAckIDs: seq<Id>
    ghost var absorbed: set<Id>
    ghost var answered: seq<Id>

    ghost function View(): Plan
      reads this
    {
      Plan(replyCloudMessageID, pendingAckIDs, absorbed, answered)
    }

    constructor (primary: Id)
      ensures View() == Start(primary)
    {
      replyCloudMessageID := primary;
      pendingAckIDs := if primary == "" then [] else [primary];
      absorbed := if primary == "" then {} else {primary};
      answered := [];
    }

    method AppendPendingAck(id: Id)
      modifies this`pendingAckIDs
      ensures pendingAckIDs == Append(old(pendingAckIDs), id)
    {
      if id == "" {
        return;
      }
      for i := 0 to |pendingAckIDs|
        invariant pendingAckIDs == old(pendingAckIDs) && id !in pendingAckIDs[..i]
      {
        if pendingAckIDs[i] == id {
          return;
        }
      }
      pendingAckIDs := pendingAckIDs + [id];
    }

    method RemovePendingAck(id: Id)
      modifies this`pendingAckIDs
      ensures pendingAckIDs == if id == "" then old(pendingAckIDs) else Remove(old(pendingAckIDs), id)
    {
      if id == "" {
        return;
      }
      var out := [];
      for i := 0 to |pendingAckIDs|
        invariant pendingAckIDs == old(pendingAckIDs) && out == Remove(pendingAckIDs[..i], id)
      {
        assert pendingAckIDs[..i + 1][..i] == pendingAckIDs[..i];
        if pendingAckIDs[i] != id {
          out := out + [pendingAckIDs[i]];
        }
      }
      assert pendingAckIDs[..|pendingAckIDs|] == pendingAckIDs;
      pendingAckIDs := out;
    }

    method CommitInjectedTurn(drained: seq<Id>) returns (committed: bool)
      modifies this
      ensures View() == Commit(old(View()), drained) && committed == (drained != [])
      ensures old(Inv(View())) && Fresh(old(View()), Drain(drained)) ==> Inv(View())
    {
      if Inv(View()) && Fresh(View(), Drain(drained)) {
        StepKeepsInv(View(), Drain(drained));
      }
      if drained == [] {
        return false;
      }
      for i := 0 to |drained|
        invariant View() == Commit(old(View()), drained[..i])
      {
        assert drained[..i + 1][..i] == drained[..i];
        if drained[i] != "" {
          replyCloudMessageID := drained[i];
          AppendPendingAck(drained[i]);
          absorbed := absorbed + {drained[i]};
        }
      }
      assert drained[..|drained|] == drained;
      return true;
    }

    /** The end of a turn: `again` when a follow-up superseded it and the run goes on. */
    method FinishTurn(survivors: seq<Id>, delivered: bool) returns (again: bool)
      modifies this
      ensures View() == Next(old(View()), EndTurn(survivors, delivered)) && again == (survivors != [])
      ensures var a := EndTurn(survivors, delivered);
        old(Inv(View())) && Fresh(old(View()), a) && Addressed(a) ==> Inv(View())
    {
      ghost var a := EndTurn(survivors, delivered);
      if Inv(View()) && Fresh(View(), a) && Addressed(a) {
        StepKeepsInv(View(), a);
      }
      var supersededReplyID := replyCloudMessageID;
      again := CommitInjectedTurn(survivors);
      if again && delivered {
        RemovePendingAck(supersededReplyID);
        answered := if supersededReplyID == "" then answered else answered + [supersededReplyID];
      }
    }
  }
}

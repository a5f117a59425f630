/** The one-shot cache of realtime client secrets: a secret is minted ahead of need, handed out once, and
    replaced only when it was used or has expired.  Takes and background mints run concurrently; a step is
    one locked region, or the return of a mint call made outside the lock. */
module WarmMint {

  type Secret = string
  type Principal = string

  datatype Minted = Minted(secret: Secret, principal: Principal) | Failed

  /** `since` is when the secret was cached, `asked` when the take read the clock, and `granted` when, having
      waited for the lock, it got the secret. */
  datatype Handout = Handout(secret: Secret, principal: Principal, cached: bool, since: int, asked: int, granted: int)

  /** The four fields and the history: the clock, takes and prefetches under way, background mints
      running, every secret ever minted with its principal, the handouts and the secrets overwritten. */
  datatype Cache = Cache(
    value: Secret, principal: Principal, mintedAt: int, inFlight: bool,
    clock: int, directs: nat, calls: nat, flights: nat,
    minted: map<Secret, Principal>, handed: seq<Handout>, dropped: map<Secret, int>)

  predicate Fresh(c: Cache, now: int, ttl: int) {
    c.value != "" && now - c.mintedAt < ttl
  }

  function TakeLocked(c: Cache, asked: int, ttl: int): Cache {
    if Fresh(c, asked, ttl) then
      c.(handed := c.handed + [Handout(c.value, c.principal, true, c.mintedAt, asked, c.clock)],
         value := "", principal := "", mintedAt := 0, calls := c.calls + 1)
    else c.(directs := c.directs + 1)
  }

  function PrefetchLocked(c: Cache, ttl: int): Cache
    requires c.calls > 0
  {
    var c0 := c.(calls := c.calls - 1);
    if c.inFlight || Fresh(c, c.clock, ttl) then c0 else c0.(inFlight := true, flights := c.flights + 1)
  }

  function Learn(c: Cache, r: Minted): Cache {
    if r.Minted? && r.secret != "" then c.(minted := c.minted[r.secret := r.principal]) else c
  }

  function PrefetchReturned(c: Cache, r: Minted): Cache
    requires c.flights > 0
  {
    var c0 := Learn(c, r).(inFlight := false, flights := c.flights - 1);
    if r.Failed? || r.secret == "" then c0
    else c0.(value := r.secret, principal := r.principal, mintedAt := c.clock,
             dropped := if c.value == "" then c.dropped else c.dropped[c.value := c.clock - c.mintedAt])
  }

  function DirectReturned(c: Cache, r: Minted): Cache
    requires c.directs > 0
  {
    var c0 := Learn(c, r).(directs := c.directs - 1);
    if r.Failed? then c0
    else c0.(handed := c.handed + [Handout(r.secret, r.principal, false, c.clock, c.clock, c.clock)])
  }

  datatype Action =
    | Take(asked: int)
    | Prefetch
    | Prefetched(r: Minted)
    | Direct(r: Minted)
    | Tick(now: int)

  predicate NeverSeen(c: Cache, r: Minted) {
    r.Minted? ==> r.secret !in c.minted
  }

  /** The clock is monotonic, a take cannot read it ahead of time, and the provider mints no secret twice. */
  predicate Enabled(c: Cache, a: Action) {
    match a
    case Take(asked) => asked <= c.clock
    case Prefetch => c.calls > 0
    case Prefetched(r) => c.flights > 0 && NeverSeen(c, r)
    case Direct(r) => c.directs > 0 && NeverSeen(c, r)
    case Tick(now) => c.clock <= now
  }

  function Next(c: Cache, a: Action, ttl: int): Cache
    requires Enabled(c, a)
  {
    match a
    case Take(asked) => TakeLocked(c, asked, ttl)
    case Prefetch => PrefetchLocked(c, ttl)
    case Prefetched(r) => PrefetchReturned(c, r)
    case Direct(r) => DirectReturned(c, r)
    case Tick(now) => c.(clock := now)
  }

  /** A new cache asks for its first secret at once. */
  function Initial(now: int): Cache {
    Cache("", "", 0, false, now, 0, 1, 0, map[], [], map[])
  }

  ghost predicate HandedOut(c: Cache, v: Secret) {
    exists i :: 0 <= i < |c.handed| && c.handed[i].secret == v
  }

  predicate HandoutsOk(c: Cache, ttl: int) {
    && (forall i :: 0 <= i < |c.handed| && c.handed[i].secret != "" ==>
         c.handed[i].secret in c.minted && c.minted[c.handed[i].secret] == c.handed[i].principal)
    && (forall i :: 0 <= i < |c.handed| && c.handed[i].cached ==>
         c.handed[i].secret != "" && c.handed[i].asked - c.handed[i].since < ttl
         && c.handed[i].since <= c.handed[i].granted && c.handed[i].asked <= c.handed[i].granted)
    && (forall i, j :: 0 <= i < j < |c.handed| && c.handed[i].secret == c.handed[j].secret ==> c.handed[i].secret == "")
  }

  ghost predicate CacheOk(c: Cache, ttl: int) {
    && (c.inFlight <==> c.flights == 1) && c.flights <= 1
    && (c.inFlight && c.value != "" ==> c.clock - c.mintedAt >= ttl)
    && "" !in c.minted
    && (c.value != "" ==> c.value in c.minted && c.minted[c.value] == c.principal && c.mintedAt <= c.clock)
    && (forall v :: v in c.dropped ==> v in c.minted && c.dropped[v] >= ttl)
  }

  ghost predicate InOnePlace(c: Cache, v: Secret) {
    if v == c.value then !HandedOut(c, v) && v !in c.dropped else HandedOut(c, v) <==> v !in c.dropped
  }

  /** Every minted secret is cached, handed out or dropped, and only one of these. */
  ghost predicate Accounted(c: Cache) {
    forall v :: v in c.minted ==> InOnePlace(c, v)
  }

  ghost predicate Inv(c: Cache, ttl: int) {
    HandoutsOk(c, ttl) && CacheOk(c, ttl) && Accounted(c)
  }

  lemma HandOver(c: Cache, h: Handout, v: Secret)
    ensures HandedOut(c.(handed := c.handed + [h]), v) <==> HandedOut(c, v) || v == h.secret
  {
    var d := c.(handed := c.handed + [h]);
    assert d.handed[|c.handed|] == h;
    if HandedOut(c, v) {
      var i :| 0 <= i < |c.handed| && c.handed[i].secret == v;
      assert d.handed[i].secret == v;
    }
  }

  lemma HandoverKeeps(c: Cache, h: Handout, ttl: int)
    requires HandoutsOk(c, ttl) && (h.secret != "" ==> !HandedOut(c, h.secret))
    requires h.secret != "" ==> h.secret in c.minted && c.minted[h.secret] == h.principal
    requires h.cached ==> h.secret != "" && h.asked - h.since < ttl && h.since <= h.granted && h.asked <= h.granted
    ensures HandoutsOk(c.(handed := c.handed + [h]), ttl)
  {
    forall i | 0 <= i < |c.handed| && c.handed[i].secret == h.secret
      ensures h.secret == ""
    {
      assert HandedOut(c, c.handed[i].secret);
    }
  }

  /** Handing out a secret that is nowhere else accounts for it. */
  lemma HandoverAccounts(c: Cache, h: Handout)
    requires forall v :: v in c.minted && v != h.secret ==> InOnePlace(c, v)
    requires h.secret in c.minted ==> h.secret != c.value && h.secret !in c.dropped
    ensures Accounted(c.(handed := c.handed + [h]))
  {
    forall v: Secret
      ensures HandedOut(c.(handed := c.handed + [h]), v) <==> HandedOut(c, v) || v == h.secret
    {
      HandOver(c, h, v);
    }
  }

  lemma TakeKeeps(c: Cache, asked: int, ttl: int)
    requires Inv(c, ttl) && asked <= c.clock
    ensures Inv(TakeLocked(c, asked, ttl), ttl)
  {
    if Fresh(c, asked, ttl) {
      var h := Handout(c.value, c.principal, true, c.mintedAt, asked, c.clock);
      HandoverKeeps(c, h, ttl);
      HandoverAccounts(c.(value := ""), h);
      var d := TakeLocked(c, asked, ttl);
      forall v: Secret | v in d.minted
        ensures InOnePlace(d, v)
      {
        assert InOnePlace(c.(value := "", handed := c.handed + [h]), v);
      }
    }
  }

  /** A secret that was never minted before was never handed out either. */
  lemma NotHandedYet(c: Cache, r: Minted, ttl: int)
    requires HandoutsOk(c, ttl) && NeverSeen(c, r) && r.Minted? && r.secret != ""
    ensures !HandedOut(c, r.secret)
  {
  }

  lemma PrefetchReturnedKeeps(c: Cache, r: Minted, ttl: int)
    requires Inv(c, ttl) && c.flights > 0 && NeverSeen(c, r)
    ensures Inv(PrefetchReturned(c, r), ttl)
  {
    if r.Minted? && r.secret != "" { NotHandedYet(c, r, ttl); }
  }

  /** Learning a secret and handing it out in one go. */
  lemma DirectHandoverAccounts(c: Cache, h: Handout)
    requires Accounted(c) && h.secret !in c.minted && h.secret !in c.dropped
    requires c.value != "" ==> c.value in c.minted
    requires "" !in c.minted
    ensures Accounted(c.(handed := c.handed + [h]))
    ensures h.secret != "" ==> Accounted(c.(minted := c.minted[h.secret := h.principal], handed := c.handed + [h]))
  {
    HandoverAccounts(c, h);
    if h.secret != "" {
      var c0 := c.(minted := c.minted[h.secret := h.principal]);
      forall v: Secret | v in c0.minted && v != h.secret
        ensures InOnePlace(c0, v)
      {
        assert InOnePlace(c, v);
      }
      HandoverAccounts(c0, h);
    }
  }

  lemma DirectReturnedAccounts(c: Cache, r: Minted, ttl: int)
    requires Inv(c, ttl) && c.directs > 0 && NeverSeen(c, r) && r.Minted?
    ensures Accounted(DirectReturned(c, r))
  {
    DirectHandoverAccounts(c, Handout(r.secret, r.principal, false, c.clock, c.clock, c.clock));
    var d := DirectReturned(c, r);
    var e := c.(minted := d.minted, handed := d.handed);
    forall v: Secret | v in d.minted
      ensures InOnePlace(d, v)
    {
      assert InOnePlace(e, v);
    }
  }

  lemma DirectReturnedHandouts(c: Cache, r: Minted, ttl: int)
    requires HandoutsOk(c, ttl) && c.directs > 0 && NeverSeen(c, r) && r.Minted?
    ensures HandoutsOk(DirectReturned(c, r), ttl)
  {
    if r.secret != "" { NotHandedYet(c, r, ttl); }
    HandoverKeeps(Learn(c, r), Handout(r.secret, r.principal, false, c.clock, c.clock, c.clock), ttl);
  }

  lemma DirectReturnedKeeps(c: Cache, r: Minted, ttl: int)
    requires Inv(c, ttl) && c.directs > 0 && NeverSeen(c, r)
    ensures Inv(DirectReturned(c, r), ttl)
  {
    if r.Minted? {
      DirectReturnedHandouts(c, r, ttl);
      DirectReturnedAccounts(c, r, ttl);
    }
  }

  lemma StepKeepsInv(c: Cache, a: Action, ttl: int)
    requires Inv(c, ttl) && Enabled(c, a)
    ensures Inv(Next(c, a, ttl), ttl)
  {
    match a
    case Take(asked) => TakeKeeps(c, asked, ttl);
    case Prefetched(r) => PrefetchReturnedKeeps(c, r, ttl);
    case Direct(r) => DirectReturnedKeeps(c, r, ttl);
    case Prefetch =>
    case Tick(_) =>
  }

  /** While the cached secret is fresh no step replaces it: it stays, or a take hands that very secret out. */
  lemma FreshIsNeverOverwritten(c: Cache, a: Action, ttl: int)
    requires Inv(c, ttl) && Enabled(c, a) && Fresh(c, c.clock, ttl)
    ensures var d := Next(c, a, ttl);
      (d.value, d.principal, d.mintedAt) == (c.value, c.principal, c.mintedAt)
      || (a.Take? && d.value == "" && |d.handed| == |c.handed| + 1
          && d.handed[|c.handed|] == Handout(c.value, c.principal, true, c.mintedAt, a.asked, c.clock))
  {
  }

  /** A take gets the cached secret exactly if there is one and it was younger than the limit when the take
      asked; it then leaves the cache empty and a prefetch due.  Otherwise the caller mints one itself. */
  lemma TakeIff(c: Cache, asked: int, ttl: int)
    ensures var d := TakeLocked(c, asked, ttl);
      if c.value != "" && asked - c.mintedAt < ttl
      then d.value == "" && d.calls == c.calls + 1 && d.directs == c.directs
           && d.handed == c.handed + [Handout(c.value, c.principal, true, c.mintedAt, asked, c.clock)]
      else d == c.(directs := c.directs + 1)
  {
  }

  /** A prefetch starts a mint exactly if none is under way and nothing cached is young enough. */
  lemma PrefetchLaunchesIff(c: Cache, ttl: int)
    requires c.calls > 0
    ensures var d := PrefetchLocked(c, ttl);
      && (d.flights == c.flights + 1 && d.inFlight <==> !c.inFlight && (c.value == "" || c.clock - c.mintedAt >= ttl))
      && d == c.(calls := c.calls - 1, inFlight := d.inFlight, flights := d.flights)
      && (d.flights == c.flights ==> d.inFlight == c.inFlight)
  {
  }

  /** What a mint brings is cached with its principal from now on, or handed to the take that asked for it; a
      mint that brings nothing changes nothing but that it is over. */
  lemma MintIsUsed(c: Cache, r: Minted)
    ensures c.flights > 0 ==> var d := PrefetchReturned(c, r);
      !d.inFlight && d.flights == c.flights - 1 && d.handed == c.handed
      && (if r.Minted? && r.secret != "" then (d.value, d.principal, d.mintedAt) == (r.secret, r.principal, c.clock)
          else (d.value, d.principal, d.mintedAt) == (c.value, c.principal, c.mintedAt))
    ensures c.directs > 0 ==> var d := DirectReturned(c, r);
      (d.value, d.principal, d.mintedAt) == (c.value, c.principal, c.mintedAt) && d.directs == c.directs - 1
      && (if r.Minted? then |d.handed| == |c.handed| + 1 && d.handed[..|c.handed|] == c.handed
                            && d.handed[|c.handed|].secret == r.secret && d.handed[|c.handed|].principal == r.principal
                            && !d.handed[|c.handed|].cached
          else d.handed == c.handed)
  {
  }

  predicate Steps(run: seq<Cache>, actions: seq<Action>, ttl: int, i: nat)
    requires i < |actions| < |run|
  {
    Enabled(run[i], actions[i]) && run[i + 1] == Next(run[i], actions[i], ttl)
  }

  predicate Run(run: seq<Cache>, actions: seq<Action>, ttl: int) {
    && |run| == |actions| + 1 && run[0] == Initial(run[0].clock)
    && (forall i :: 0 <= i < |actions| ==> Steps(run, actions, ttl, i))
  }

  lemma {:induction false} RunKeepsInv(run: seq<Cache>, actions: seq<Action>, ttl: int, k: nat)
    requires Run(run, actions, ttl) && k < |run|
    ensures Inv(run[k], ttl)
  {
    if k > 0 {
      RunKeepsInv(run, actions, ttl, k - 1);
      assert Steps(run, actions, ttl, k - 1);
      StepKeepsInv(run[k - 1], actions[k - 1], ttl);
    }
  }

  /** In every run: one handout per secret, always with the principal minted with it; a handout from the
      cache was younger than the ttl when the take asked; a secret that was never handed out is still
      cached or had expired when it was replaced. */
  lemma HandedOutOnce(run: seq<Cache>, actions: seq<Action>, ttl: int, k: nat)
    requires Run(run, actions, ttl) && k < |run|
    ensures var c := run[k];
      && (forall i, j | 0 <= i < j < |c.handed| ::
            c.handed[i].secret != "" ==> c.handed[i].secret != c.handed[j].secret)
      && (forall i :: 0 <= i < |c.handed| && c.handed[i].secret != "" ==>
           c.handed[i].secret in c.minted && c.minted[c.handed[i].secret] == c.handed[i].principal)
      && (forall i :: 0 <= i < |c.handed| && c.handed[i].cached ==> c.handed[i].asked - c.handed[i].since < ttl)
      && (forall v :: v in c.minted && !HandedOut(c, v) ==> v == c.value || (v in c.dropped && c.dropped[v] >= ttl))
  {
    RunKeepsInv(run, actions, ttl, k);
  }

  predicate Caches(c: Cache, r: Minted, at: int)
    requires r.Minted?
  {
    (c.value, c.principal, c.mintedAt) == (r.secret, r.principal, at)
  }

  lemma {:induction false} ClockOnlyAdvances(run: seq<Cache>, actions: seq<Action>, ttl: int, i: nat, k: nat)
    requires Run(run, actions, ttl) && i <= k < |run|
    ensures run[i].clock <= run[k].clock
  {
    if i < k {
      ClockOnlyAdvances(run, actions, ttl, i, k - 1);
      assert Steps(run, actions, ttl, k - 1);
    }
  }

  lemma StillCached(c: Cache, a: Action, ttl: int, r: Minted, at: int)
    requires Inv(c, ttl) && Enabled(c, a) && !a.Take? && r.Minted? && r.secret != ""
    requires Caches(c, r, at) && c.clock - at < ttl
    ensures Caches(Next(c, a, ttl), r, at)
  {
    FreshIsNeverOverwritten(c, a, ttl);
  }

  lemma {:induction false} StaysCached(run: seq<Cache>, actions: seq<Action>, ttl: int, i: nat, k: nat)
    requires Run(run, actions, ttl) && i < k < |run|
    requires actions[i].Prefetched? && actions[i].r.Minted? && actions[i].r.secret != ""
    requires run[k].clock - run[i].clock < ttl && forall m :: i < m < k ==> !actions[m].Take?
    ensures Caches(run[k], actions[i].r, run[i].clock)
  {
    if i + 1 < k {
      ClockOnlyAdvances(run, actions, ttl, k - 1, k);
      StaysCached(run, actions, ttl, i, k - 1);
      RunKeepsInv(run, actions, ttl, k - 1);
      assert Steps(run, actions, ttl, k - 1);
      StillCached(run[k - 1], actions[k - 1], ttl, actions[i].r, run[i].clock);
    } else {
      assert Steps(run, actions, ttl, i);
      MintIsUsed(run[i], actions[i].r);
    }
  }

  /** In every run the first take after a background mint gets that secret, with its principal, as long as it
      is young enough. */
  lemma NextTakeGetsIt(run: seq<Cache>, actions: seq<Action>, ttl: int, i: nat, k: nat)
    requires Run(run, actions, ttl) && i < k < |actions| && actions[k].Take? && run[k].clock - run[i].clock < ttl
    requires actions[i].Prefetched? && actions[i].r.Minted? && actions[i].r.secret != ""
    requires forall m :: i < m < k ==> !actions[m].Take?
    ensures var r := actions[i].r;
      run[k + 1].handed ==
        run[k].handed + [Handout(r.secret, r.principal, true, run[i].clock, actions[k].asked, run[k].clock)]
  {
    StaysCached(run, actions, ttl, i, k);
    assert Steps(run, actions, ttl, k);
    TakeIff(run[k], actions[k].asked, ttl);
  }

  /** The age limit is that of the moment the take asked.  What it gets is younger than the ttl when it gets it
      exactly if the cached secret is still fresh by the clock of that moment. */
  lemma YoungIffStillFresh(run: seq<Cache>, actions: seq<Action>, ttl: int, k: nat)
    requires Run(run, actions, ttl) && k < |actions| && actions[k].Take? && Fresh(run[k], actions[k].asked, ttl)
    ensures |run[k + 1].handed| == |run[k].handed| + 1
    ensures var h := run[k + 1].handed[|run[k].handed|];
      && h.secret == run[k].value && h.cached && 0 <= h.granted - h.since
      && (h.granted - h.since < ttl <==> Fresh(run[k], run[k].clock, ttl))
  {
    RunKeepsInv(run, actions, ttl, k);
    assert Steps(run, actions, ttl, k);
  }

  /** A take that waits for the lock until the expiry still gets the cached secret. */
  lemma AWaitingTakeGetsAnExpiredSecret(ttl: int)
    requires ttl > 0
    ensures var actions := [Prefetch, Prefetched(Minted("s", "p")), Tick(ttl), Take(0)];
      exists run: seq<Cache> :: Run(run, actions, ttl) && run[4].handed == [Handout("s", "p", true, 0, 0, ttl)]
  {
    var actions := [Prefetch, Prefetched(Minted("s", "p")), Tick(ttl), Take(0)];
    var c0 := Initial(0);
    var c1 := Next(c0, actions[0], ttl);
    var c2 := Next(c1, actions[1], ttl);
    var c3 := Next(c2, actions[2], ttl);
    var run := [c0, c1, c2, c3, Next(c3, actions[3], ttl)];
    assert Run(run, actions, ttl);
  }

  /** The object; `past` carries the history only. */
  class WarmMint {
    const ttl: int
    var value: Secret
    var valuePrincipal: Principal
    var mintedAt: int
    var inFlight: bool
    ghost var past: Cache

    ghost function View(): Cache
      reads this
    {
      past.(value := value, principal := valuePrincipal, mintedAt := mintedAt, inFlight := inFlight)
    }

    constructor (ttl: int, ghost now: int)
      ensures this.ttl == ttl && View() == Initial(now)
    {
      this.ttl := ttl;
      value, valuePrincipal, mintedAt, inFlight := "", "", 0, false;
      past := Initial(now);
    }

    /** The locked part of a take: a cached secret, or a miss, and the caller mints one itself. */
    method Take(asked: int) returns (hit: bool, v: Secret, p: Principal)
      modifies this
      ensures View() == TakeLocked(old(View()), asked, ttl)
      ensures hit == Fresh(old(View()), asked, ttl)
      ensures hit ==> v == old(value) && p == old(valuePrincipal)
      ensures old(Inv(View(), ttl)) && asked <= old(past.clock) ==> Inv(View(), ttl)
    {
      if Inv(View(), ttl) && asked <= past.clock {
        TakeKeeps(View(), asked, ttl);
      }
      hit := value != "" && asked - mintedAt < ttl;
      v, p := "", "";
      if hit {
        v, p := value, valuePrincipal;
        past := past.(handed := past.handed + [Handout(v, p, true, mintedAt, asked, past.clock)],
                      calls := past.calls + 1);
        value, valuePrincipal, mintedAt := "", "", 0;
      } else {
        past := past.(directs := past.directs + 1);
      }
    }

    /** `launch` says that the caller starts a background mint. */
    method Prefetch(now: int) returns (launch: bool)
      requires past.calls > 0 && now == past.clock
      modifies this
      ensures View() == PrefetchLocked(old(View()), ttl)
      ensures launch <==> inFlight && !old(inFlight)
      ensures launch <==> !old(inFlight) && (value == "" || now - mintedAt >= ttl)
      ensures (value, valuePrincipal, mintedAt) == old((value, valuePrincipal, mintedAt))
      ensures old(Inv(View(), ttl)) ==> Inv(View(), ttl)
    {
      if Inv(View(), ttl) {
        StepKeepsInv(View(), Action.Prefetch, ttl);
      }
      past := past.(calls := past.calls - 1);
      if inFlight || (value != "" && now - mintedAt < ttl) {
        return false;
      }
      inFlight := true;
      past := past.(flights := past.flights + 1);
      return true;
    }

    method Prefetched(r: Minted, now: int)
      requires past.flights > 0 && now == past.clock
      modifies this
      ensures View() == PrefetchReturned(old(View()), r)
      ensures old(Inv(View(), ttl)) && NeverSeen(old(View()), r) ==> Inv(View(), ttl)
    {
      if Inv(View(), ttl) && NeverSeen(View(), r) {
        PrefetchReturnedKeeps(View(), r, ttl);
      }
      past := Learn(past, r).(flights := past.flights - 1);
      inFlight := false;
      if r.Failed? || r.secret == "" {
        return;
      }
      past := past.(dropped := if value == "" then past.dropped else past.dropped[value := now - mintedAt]);
      value, valuePrincipal, mintedAt := r.secret, r.principal, now;
    }
  }
}

/** The warm realtime session of the resident desktop loop.  Connect attempts, rotation timers,
    retries, provider callbacks and the start and end of calls run concurrently; each holds the session
    mutex for one step.  A step here is one locked region, so handling the loss of the session of an
    active call is two steps with anything in between. */
module DesktopSession {
  import opened Wrappers

  type Conn = nat
  type Burst = nat

  datatype Event = Connecting | OnCall | Ended | VoiceIdle | Listening | Other

  /** The variables the closures share.  The last group records history: what was emitted, the attempts
      ever made and those whose connect has not returned, every connection a connect returned with the
      sequence number of its attempt, how often each was handed to a closer, and how many handlers are
      between their two locked regions. */
  datatype Session = Session(
    conn: Option<Conn>, state: Option<Burst>, audio: bool, audioStarted: bool,
    sessionSeq: nat, warming: bool, ready: bool, active: bool, emitted: bool, done: bool,
    events: seq<Event>, issued: set<nat>, attempts: set<nat>, returned: map<Conn, nat>, closers: multiset<Conn>,
    gaps: nat, bursts: nat)

  datatype Connected = Up(conn: Conn) | Refused

  // ---- the locked helpers ----

  predicate IsCallState(e: Event) {
    e.Connecting? || e.OnCall? || e.Ended?
  }

  function Emit(s: Session, es: seq<Event>): Session {
    s.(events := s.events + es)
  }

  function EmitReady(s: Session): Session {
    if s.active && s.ready && s.audioStarted && !s.emitted then Emit(s, [OnCall, Listening]).(emitted := true) else s
  }

  function HandOver(closers: multiset<Conn>, conn: Option<Conn>): multiset<Conn> {
    if conn.Some? then closers + multiset{conn.value} else closers
  }

  function CloseSession(s: Session, retire: bool): Session {
    s.(sessionSeq := s.sessionSeq + 1, conn := None, audio := false, state := if retire then None else s.state,
       audioStarted := false, warming := false, ready := false, emitted := false,
       closers := HandOver(s.closers, s.conn))
  }

  function FailActive(s: Session): Session {
    if s.active then Emit(s, [VoiceIdle, Ended]).(active := false, emitted := false) else s
  }

  /** `audioOk`: the audio device could be opened and configured. */
  function EnsureWarm(s: Session, audioOk: bool): Session {
    if s.done || s.conn.Some? || s.warming then s
    else if !audioOk then FailActive(s)
    else s.(warming := true, ready := false, emitted := false, sessionSeq := s.sessionSeq + 1,
            state := if s.active && s.state.Some? then s.state else Some(s.bursts),
            bursts := if s.active && s.state.Some? then s.bursts else s.bursts + 1,
            audio := true, audioStarted := false,
            issued := s.issued + {s.sessionSeq + 1}, attempts := s.attempts + {s.sessionSeq + 1})
  }

  predicate AudioStarts(s: Session, startOk: bool) {
    s.audioStarted || (s.audio && startOk)
  }

  // ---- the steps ----

  /** The rest of the start of a call, with a session warm or warming. */
  function Answer(s: Session, startOk: bool, rewarmOk: bool): Session {
    if !AudioStarts(s, startOk) then EnsureWarm(CloseSession(Emit(s, [VoiceIdle, Ended]), true), rewarmOk)
    else
      var s2 := s.(audioStarted := true, active := true);
      if s2.conn.Some? && s2.ready then EmitReady(s2) else EnsureWarm(s2, rewarmOk)
  }

  function StartCall(s: Session, warmOk: bool, startOk: bool, rewarmOk: bool): Session {
    if s.active then s
    else
      Answer(EnsureWarm(Emit(s, [Connecting]).(emitted := false), warmOk), startOk, rewarmOk)
  }

  function EndCall(s: Session, warmOk: bool): Session {
    if !s.active then s
    else EnsureWarm(Emit(CloseSession(s.(active := false), true), [VoiceIdle, Ended]), warmOk)
  }

  function RotationFired(s: Session, n: nat, warmOk: bool): Session {
    if n != s.sessionSeq || s.active || s.conn.None? then s else EnsureWarm(CloseSession(s, true), warmOk)
  }

  function RetryFired(s: Session, warmOk: bool): Session {
    if s.conn.None? && !s.warming then EnsureWarm(s, warmOk) else s
  }

  function SessionClosed(s: Session, n: nat, warmOk: bool): Session {
    if n != s.sessionSeq then s
    else if !s.active then EnsureWarm(CloseSession(s, true), warmOk)
    else CloseSession(Emit(s, [Connecting]), false).(gaps := s.gaps + 1)
  }

  /** The second locked region of a handler that found the call active. */
  function Reconnect(s: Session, warmOk: bool, startOk: bool, rewarmOk: bool): Session
    requires s.gaps > 0
  {
    var s0 := s.(gaps := s.gaps - 1);
    if !s0.active then s0
    else
      var s1 := EnsureWarm(s0, warmOk);
      if !AudioStarts(s1, startOk) then
        EnsureWarm(CloseSession(Emit(s1, [VoiceIdle, Ended]).(active := false), true), rewarmOk)
      else EmitReady(s1.(audioStarted := true))
  }

  /** The provider reported the session of attempt `n` usable. */
  function ProviderReady(s: Session, n: nat): Session {
    if n == s.sessionSeq then EmitReady(s.(ready := true)) else s
  }

  /** The books once a connect returned, before anything is done about it. */
  function Booked(s: Session, n: nat, r: Connected): Session {
    s.(attempts := s.attempts - {n}, returned := if r.Up? then s.returned[r.conn := n] else s.returned)
  }

  function ConnectReturned(s: Session, n: nat, r: Connected): Session {
    var s0 := Booked(s, n, r);
    if n != s.sessionSeq then
      if r.Up? then s0.(closers := s0.closers + multiset{r.conn}) else s0
    else if r.Refused? then CloseSession(FailActive(s0), true)
    else EmitReady(s0.(conn := Some(r.conn), warming := false))
  }

  datatype Action =
    | Start(warmOk: bool, startOk: bool, rewarmOk: bool)
    | End(warmOk: bool)
    | Rotate(n: nat, warmOk: bool)
    | Retry(warmOk: bool)
    | Lost(n: nat, warmOk: bool)
    | Resume(warmOk: bool, startOk: bool, rewarmOk: bool)
    | Ready(n: nat)
    | Returned(n: nat, r: Connected)
    | Provider(e: Event)
    | Cancelled

  /** Timers and callbacks carry the number of an attempt that was made; a connect returns once, with a
      connection nobody has seen.  The provider's own `connecting` is dropped and its `on_call` is `Ready`;
      beside these it reports voice states only. */
  predicate Enabled(s: Session, a: Action) {
    match a
    case Rotate(n, _) => n in s.issued
    case Lost(n, _) => n in s.issued
    case Ready(n) => n in s.issued
    case Resume(_, _, _) => s.gaps > 0
    case Returned(n, r) => n in s.attempts && (r.Up? ==> r.conn !in s.returned)
    case Provider(e) => !IsCallState(e)
    case _ => true
  }

  function Next(s: Session, a: Action): Session
    requires Enabled(s, a)
  {
    match a
    case Start(w, st, rw) => StartCall(s, w, st, rw)
    case End(w) => EndCall(s, w)
    case Rotate(n, w) => RotationFired(s, n, w)
    case Retry(w) => RetryFired(s, w)
    case Lost(n, w) => SessionClosed(s, n, w)
    case Resume(w, st, rw) => Reconnect(s, w, st, rw)
    case Ready(n) => ProviderReady(s, n)
    case Returned(n, r) => ConnectReturned(s, n, r)
    case Provider(e) => Emit(s, [e])
    case Cancelled => s.(done := true)
  }

  /** Before the first session is warmed. */
  const INITIAL := Session(None, None, false, false, 0, false, false, false, false, false,
                           [], {}, {}, map[], multiset{}, 0, 0)

  // ---- what every interleaving keeps ----

  /** The call state reported last; before any call it is as if one had ended. */
  function LastState(events: seq<Event>): Event {
    if events == [] then Ended
    else if IsCallState(events[|events| - 1]) then events[|events| - 1]
    else LastState(events[..|events| - 1])
  }

  /** Every `OnCall` follows a `Connecting`, with no other call state in between. */
  predicate Grammatical(events: seq<Event>) {
    || events == []
    || (&& Grammatical(events[..|events| - 1])
        && (events[|events| - 1].OnCall? ==> LastState(events[..|events| - 1]).Connecting?))
  }

  /** The protocol state on its own. */
  predicate FlagsInv(s: Session) {
    && (s.warming ==> s.conn.None?)
    && (s.audio <==> s.warming || s.conn.Some?)
    && (s.ready || s.audioStarted ==> s.audio)
    && (s.emitted ==> s.active && s.ready && s.audioStarted)
    && (s.active || s.audio ==> s.state.Some?)
    && (s.audio <==> s.sessionSeq in s.issued)
    && (s.warming <==> s.sessionSeq in s.attempts)
  }

  predicate LedgerInv(s: Session) {
    && (forall n :: n in s.issued ==> n <= s.sessionSeq) && s.attempts <= s.issued
    && (s.conn.Some? ==> s.conn.value in s.returned && s.returned[s.conn.value] == s.sessionSeq)
    && (forall c :: c in s.returned ==> s.closers[c] == if s.conn == Some(c) then 0 else 1)
    && (forall c :: c in s.closers ==> c in s.returned)
  }

  /** What was reported last is what is so. */
  predicate EventsInv(s: Session) {
    && Grammatical(s.events)
    && LastState(s.events) == if !s.active then Ended else if s.emitted then OnCall else Connecting
  }

  predicate Inv(s: Session) {
    FlagsInv(s) && LedgerInv(s) && EventsInv(s)
  }

  lemma EmitOne(events: seq<Event>, e: Event)
    ensures (events + [e])[..|events|] == events
    ensures Grammatical(events + [e]) <==> Grammatical(events) && (e.OnCall? ==> LastState(events).Connecting?)
    ensures LastState(events + [e]) == if IsCallState(e) then e else LastState(events)
  {
  }

  lemma EmitEnded(events: seq<Event>)
    ensures Grammatical(events + [VoiceIdle, Ended]) <==> Grammatical(events)
    ensures LastState(events + [VoiceIdle, Ended]) == Ended
  {
    EmitOne(events, VoiceIdle);
    EmitOne(events + [VoiceIdle], Ended);
    assert events + [VoiceIdle, Ended] == events + [VoiceIdle] + [Ended];
  }

  lemma EmitReadyKeeps(s: Session)
    requires Inv(s)
    ensures Inv(EmitReady(s))
  {
    EmitOne(s.events, OnCall);
    EmitOne(s.events + [OnCall], Listening);
    assert s.events + [OnCall, Listening] == s.events + [OnCall] + [Listening];
  }

  lemma FailActiveKeeps(s: Session)
    requires Inv(s)
    ensures Inv(FailActive(s)) && !FailActive(s).active
  {
    EmitEnded(s.events);
  }

  /** Closing may interrupt anything, once what it does to the call was reported. */
  lemma CloseKeeps(s: Session, retire: bool)
    requires LedgerInv(s) && Grammatical(s.events) && LastState(s.events) == if s.active then Connecting else Ended
    requires s.active ==> !retire && s.state.Some?
    ensures Inv(CloseSession(s, retire))
    ensures CloseSession(s, retire).active == s.active && CloseSession(s, retire).conn.None?
  {
  }

  lemma EnsureWarmKeeps(s: Session, audioOk: bool)
    requires Inv(s)
    ensures Inv(EnsureWarm(s, audioOk))
    ensures EnsureWarm(s, audioOk).active ==> s.active && EnsureWarm(s, audioOk).state == s.state
  {
    FailActiveKeeps(s);
  }

  /** Emitting the end of a call and closing its session, in either order. */
  lemma EndAndCloseKeeps(s: Session, warmOk: bool)
    requires LedgerInv(s) && Grammatical(s.events)
    ensures var ended := Emit(s.(active := false), [VoiceIdle, Ended]);
      Emit(CloseSession(s.(active := false), true), [VoiceIdle, Ended]) == CloseSession(ended, true)
      && Inv(EnsureWarm(CloseSession(ended, true), warmOk))
  {
    var ended := Emit(s.(active := false), [VoiceIdle, Ended]);
    assert Inv(CloseSession(ended, true)) by {
      EmitEnded(s.events);
      CloseKeeps(ended, true);
    }
    EnsureWarmKeeps(CloseSession(ended, true), warmOk);
  }

  lemma AnswerKeeps(s: Session, startOk: bool, rewarmOk: bool)
    requires FlagsInv(s) && LedgerInv(s) && !s.active && Grammatical(s.events) && LastState(s.events) == Connecting
    ensures Inv(Answer(s, startOk, rewarmOk))
  {
    if !AudioStarts(s, startOk) {
      EndAndCloseKeeps(s, rewarmOk);
    } else {
      var s2 := s.(audioStarted := true, active := true);
      EmitReadyKeeps(s2);
      EnsureWarmKeeps(s2, rewarmOk);
    }
  }

  lemma WarmingIgnoresEvents(s: Session, events: seq<Event>, audioOk: bool)
    requires !s.active && !s.emitted
    ensures EnsureWarm(s.(events := events).(emitted := false), audioOk) == EnsureWarm(s, audioOk).(events := events)
  {
  }

  lemma StartCallKeeps(s: Session, warmOk: bool, startOk: bool, rewarmOk: bool)
    requires Inv(s)
    ensures Inv(StartCall(s, warmOk, startOk, rewarmOk))
  {
    if !s.active {
      EmitOne(s.events, Connecting);
      EnsureWarmKeeps(s, warmOk);
      WarmingIgnoresEvents(s, s.events + [Connecting], warmOk);
      AnswerKeeps(EnsureWarm(s, warmOk).(events := s.events + [Connecting]), startOk, rewarmOk);
    }
  }

  lemma ReconnectKeeps(s: Session, warmOk: bool, startOk: bool, rewarmOk: bool)
    requires Inv(s) && s.gaps > 0
    ensures Inv(Reconnect(s, warmOk, startOk, rewarmOk))
  {
    var s0 := s.(gaps := s.gaps - 1);
    if s0.active {
      EnsureWarmKeeps(s0, warmOk);
      var s1 := EnsureWarm(s0, warmOk);
      if !AudioStarts(s1, startOk) {
        EndAndCloseKeeps(s1, rewarmOk);
      } else {
        EmitReadyKeeps(s1.(audioStarted := true));
      }
    }
  }

  lemma StaleConnectKeeps(s: Session, n: nat, r: Connected)
    requires Inv(s) && n in s.attempts && (r.Up? ==> r.conn !in s.returned) && n != s.sessionSeq
    ensures Inv(ConnectReturned(s, n, r))
  {
  }

  lemma RefusedConnectKeeps(s: Session)
    requires Inv(s) && s.sessionSeq in s.attempts
    ensures Inv(ConnectReturned(s, s.sessionSeq, Refused))
  {
    EmitEnded(s.events);
    CloseKeeps(FailActive(Booked(s, s.sessionSeq, Refused)), true);
  }

  lemma CurrentConnectKeeps(s: Session, conn: Conn)
    requires Inv(s) && s.sessionSeq in s.attempts && conn !in s.returned
    ensures Inv(ConnectReturned(s, s.sessionSeq, Up(conn)))
  {
    EmitReadyKeeps(Booked(s, s.sessionSeq, Up(conn)).(conn := Some(conn), warming := false));
  }

  lemma ConnectReturnedKeeps(s: Session, n: nat, r: Connected)
    requires Inv(s) && n in s.attempts && (r.Up? ==> r.conn !in s.returned)
    ensures Inv(ConnectReturned(s, n, r))
  {
    if n != s.sessionSeq {
      StaleConnectKeeps(s, n, r);
    } else if r.Refused? {
      RefusedConnectKeeps(s);
    } else {
      CurrentConnectKeeps(s, r.conn);
    }
  }

  lemma SessionClosedKeeps(s: Session, n: nat, warmOk: bool)
    requires Inv(s)
    ensures Inv(SessionClosed(s, n, warmOk))
  {
    if n == s.sessionSeq {
      if !s.active {
        CloseKeeps(s, true);
        EnsureWarmKeeps(CloseSession(s, true), warmOk);
      } else {
        EmitOne(s.events, Connecting);
        CloseKeeps(Emit(s, [Connecting]), false);
      }
    }
  }

  lemma EndCallKeeps(s: Session, warmOk: bool)
    requires Inv(s)
    ensures Inv(EndCall(s, warmOk))
  {
    EndAndCloseKeeps(s, warmOk);
  }

  lemma RotationFiredKeeps(s: Session, n: nat, warmOk: bool)
    requires Inv(s)
    ensures Inv(RotationFired(s, n, warmOk))
  {
    if !s.active {
      CloseKeeps(s, true);
      EnsureWarmKeeps(CloseSession(s, true), warmOk);
    }
  }

  lemma RetryFiredKeeps(s: Session, warmOk: bool)
    requires Inv(s)
    ensures Inv(RetryFired(s, warmOk))
  {
    EnsureWarmKeeps(s, warmOk);
  }

  lemma ProviderReadyKeeps(s: Session, n: nat)
    requires Inv(s) && n in s.issued
    ensures Inv(ProviderReady(s, n))
  {
    if n == s.sessionSeq { EmitReadyKeeps(s.(ready := true)); }
  }

  lemma VoiceKeeps(s: Session, e: Event)
    requires Inv(s) && !IsCallState(e)
    ensures Inv(Emit(s, [e]))
  {
    EmitOne(s.events, e);
  }

  lemma StepKeepsInv(s: Session, a: Action)
    requires Inv(s) && Enabled(s, a)
    ensures Inv(Next(s, a))
  {
    match a
    case Start(w, st, rw) => StartCallKeeps(s, w, st, rw);
    case End(w) => EndCallKeeps(s, w);
    case Rotate(n, w) => RotationFiredKeeps(s, n, w);
    case Retry(w) => RetryFiredKeeps(s, w);
    case Lost(n, w) => SessionClosedKeeps(s, n, w);
    case Resume(w, st, rw) => ReconnectKeeps(s, w, st, rw);
    case Ready(n) => ProviderReadyKeeps(s, n);
    case Returned(n, r) => ConnectReturnedKeeps(s, n, r);
    case Provider(e) => VoiceKeeps(s, e);
    case Cancelled => assert Inv(s.(done := true));
  }

  // ---- whole runs ----

  predicate Run(run: seq<Session>, actions: seq<Action>) {
    && |run| == |actions| + 1 && run[0] == INITIAL
    && (forall i :: 0 <= i < |actions| ==> Enabled(run[i], actions[i]) && run[i + 1] == Next(run[i], actions[i]))
  }

  lemma {:induction false} RunKeepsInv(run: seq<Session>, actions: seq<Action>, k: nat)
    requires Run(run, actions) && k < |run|
    ensures Inv(run[k])
  {
    if k > 0 {
      RunKeepsInv(run, actions, k - 1);
      StepKeepsInv(run[k - 1], actions[k - 1]);
    }
  }

  /** A connection that a connect returned is the current one and in no closer's hands, or it was handed
      to exactly one closer; the current one is that of the attempt `sessionSeq` counts. */
  lemma ConnectionsHaveOneOwner(run: seq<Session>, actions: seq<Action>, k: nat, c: Conn)
    requires Run(run, actions) && k < |run|
    ensures var s := run[k];
      && (s.conn == Some(c) ==> c in s.returned && s.returned[c] == s.sessionSeq)
      && s.closers[c] == (if c in s.returned && s.conn != Some(c) then 1 else 0)
  {
    RunKeepsInv(run, actions, k);
    if c !in run[k].returned { assert c !in run[k].closers; }
  }

  /** What every step but the completion of a current attempt keeps: no connection becomes current, the
      attempt number only grows, and the burst of a call that stays active is the same. */
  predicate Settled(s: Session, t: Session) {
    && (t.conn == s.conn || t.conn.None?)
    && s.sessionSeq <= t.sessionSeq
    && (s.active && t.active ==> t.state == s.state)
  }

  lemma EnsureWarmSettles(s: Session, audioOk: bool)
    requires s.active ==> s.state.Some?
    ensures Settled(s, EnsureWarm(s, audioOk)) && (EnsureWarm(s, audioOk).active ==> s.active)
  {
  }

  lemma StartCallSettles(s: Session, warmOk: bool, startOk: bool, rewarmOk: bool)
    requires FlagsInv(s)
    ensures Settled(s, StartCall(s, warmOk, startOk, rewarmOk))
  {
    if !s.active {
      var s0 := Emit(s, [Connecting]).(emitted := false);
      EnsureWarmSettles(s0, warmOk);
      var s1 := EnsureWarm(s0, warmOk);
      EnsureWarmSettles(CloseSession(Emit(s1, [VoiceIdle, Ended]), true), rewarmOk);
      if AudioStarts(s1, startOk) {
        EnsureWarmSettles(s1.(audioStarted := true, active := true), rewarmOk);
      }
    }
  }

  lemma ReconnectSettles(s: Session, warmOk: bool, startOk: bool, rewarmOk: bool)
    requires FlagsInv(s) && s.gaps > 0
    ensures Settled(s, Reconnect(s, warmOk, startOk, rewarmOk))
  {
    var s0 := s.(gaps := s.gaps - 1);
    if s0.active {
      EnsureWarmSettles(s0, warmOk);
      var s1 := EnsureWarm(s0, warmOk);
      EnsureWarmSettles(CloseSession(Emit(s1, [VoiceIdle, Ended]).(active := false), true), rewarmOk);
    }
  }

  lemma CloseAndWarmSettles(s: Session, warmOk: bool)
    requires !s.active
    ensures Settled(s, EnsureWarm(CloseSession(s, true), warmOk)) && !EnsureWarm(CloseSession(s, true), warmOk).active
  {
    EnsureWarmSettles(CloseSession(s, true), warmOk);
  }

  lemma EndCallSettles(s: Session, warmOk: bool)
    requires FlagsInv(s)
    ensures Settled(s, EndCall(s, warmOk))
  {
    EnsureWarmSettles(Emit(CloseSession(s.(active := false), true), [VoiceIdle, Ended]), warmOk);
  }

  lemma SessionClosedSettles(s: Session, n: nat, warmOk: bool)
    requires FlagsInv(s)
    ensures Settled(s, SessionClosed(s, n, warmOk))
  {
    if !s.active { CloseAndWarmSettles(s, warmOk); }
  }

  lemma RotationFiredSettles(s: Session, n: nat, warmOk: bool)
    requires FlagsInv(s)
    ensures Settled(s, RotationFired(s, n, warmOk))
  {
    if !s.active { CloseAndWarmSettles(s, warmOk); }
  }

  lemma StepSettles(s: Session, a: Action)
    requires FlagsInv(s) && Enabled(s, a) && !a.Returned?
    ensures Settled(s, Next(s, a))
  {
    match a
    case Start(w, st, rw) => StartCallSettles(s, w, st, rw);
    case End(w) => EndCallSettles(s, w);
    case Rotate(n, w) => RotationFiredSettles(s, n, w);
    case Retry(w) => EnsureWarmSettles(s, w);
    case Lost(n, w) => SessionClosedSettles(s, n, w);
    case Resume(w, st, rw) => ReconnectSettles(s, w, st, rw);
    case _ =>
  }

  /** The connection of `t` is that of `s`, or none, or the one that the attempt `sessionSeq` counts got. */
  predicate Promoted(s: Session, a: Action, t: Session) {
    && s.sessionSeq <= t.sessionSeq
    && (t.conn.Some? && t.conn != s.conn ==>
          a == Returned(s.sessionSeq, Up(t.conn.value)) && t.sessionSeq == s.sessionSeq)
    && (s.active && t.active ==> t.state == s.state)
  }

  lemma StepPromotes(s: Session, a: Action)
    requires FlagsInv(s) && Enabled(s, a)
    ensures Promoted(s, a, Next(s, a))
  {
    if !a.Returned? { StepSettles(s, a); }
  }

  /** A stale attempt never becomes current: in any run a connection is made current only by the return of
      the attempt `sessionSeq` counts, and the burst of a call that stays active is kept. */
  lemma StaleNeverBecomesCurrent(run: seq<Session>, actions: seq<Action>, k: nat)
    requires Run(run, actions) && k < |actions|
    ensures Promoted(run[k], actions[k], run[k + 1])
  {
    RunKeepsInv(run, actions, k);
    StepPromotes(run[k], actions[k]);
  }

  lemma {:induction false} NoConnectingSince(events: seq<Event>, i: nat)
    requires i < |events| && events[i].OnCall?
    requires forall k :: i < k < |events| ==> !events[k].Connecting?
    ensures !LastState(events).Connecting?
  {
    if i < |events| - 1 {
      NoConnectingSince(events[..|events| - 1], i);
    }
  }

  lemma {:induction false} GrammaticalPrefix(events: seq<Event>, n: nat)
    requires Grammatical(events) && n <= |events|
    ensures Grammatical(events[..n])
  {
    if n < |events| {
      GrammaticalPrefix(events[..|events| - 1], n);
      assert events[..|events| - 1][..n] == events[..n];
    } else {
      assert events[..n] == events;
    }
  }

  /** The call state reported last is the state of the call: none while it is not active, `on_call` once
      readiness was announced for this session, else `connecting`. */
  lemma ReportedStateIsTrue(run: seq<Session>, actions: seq<Action>, k: nat)
    requires Run(run, actions) && k < |run|
    ensures var s := run[k];
      (LastState(s.events) == Ended <==> !s.active) && (LastState(s.events) == OnCall <==> s.active && s.emitted)
      && (s.emitted ==> s.ready && s.audioStarted && (s.warming || s.conn.Some?))
  {
    RunKeepsInv(run, actions, k);
  }

  /** Between any two `on_call` emissions of a run there is a `connecting`. */
  lemma OnCallsAreSeparated(run: seq<Session>, actions: seq<Action>, k: nat, i: nat, j: nat)
    requires Run(run, actions) && k < |run|
    requires i < j < |run[k].events| && run[k].events[i].OnCall? && run[k].events[j].OnCall?
    ensures exists m :: i < m < j && run[k].events[m].Connecting?
  {
    RunKeepsInv(run, actions, k);
    var events := run[k].events;
    GrammaticalPrefix(events, j + 1);
    assert events[..j + 1][..j] == events[..j];
    if forall m :: i < m < j ==> !events[m].Connecting? {
      NoConnectingSince(events[..j], i);
      assert false;
    }
  }

  /** `after` extends `before` with no `on_call`. */
  predicate Quiet(before: seq<Event>, after: seq<Event>) {
    after == before
    || (after != [] && !after[|after| - 1].OnCall? && Quiet(before, after[..|after| - 1]))
  }

  lemma {:induction false} QuietMeans(before: seq<Event>, after: seq<Event>)
    requires Quiet(before, after)
    ensures before <= after && (forall i :: |before| <= i < |after| ==> !after[i].OnCall?)
  {
    if after != before { QuietMeans(before, after[..|after| - 1]); }
  }

  lemma QuietOne(before: seq<Event>, after: seq<Event>, e: Event)
    requires Quiet(before, after) && !e.OnCall?
    ensures Quiet(before, after + [e])
  {
    assert (after + [e])[..|after|] == after;
  }

  lemma QuietEnd(before: seq<Event>, after: seq<Event>)
    requires Quiet(before, after)
    ensures Quiet(before, after + [VoiceIdle, Ended])
  {
    QuietOne(before, after, VoiceIdle);
    QuietOne(before, after + [VoiceIdle], Ended);
    assert after + [VoiceIdle, Ended] == after + [VoiceIdle] + [Ended];
  }

  lemma EnsureWarmIsQuiet(before: seq<Event>, s: Session, audioOk: bool)
    requires Quiet(before, s.events)
    ensures Quiet(before, EnsureWarm(s, audioOk).events)
  {
    QuietEnd(before, s.events);
  }

  /** Nothing new but an `on_call` at the very end, emitted by a call that is active, ready and heard. */
  predicate Earned(before: seq<Event>, t: Session) {
    Quiet(before, t.events)
    || (|t.events| >= 2 && t.events[|t.events| - 2..] == [OnCall, Listening]
        && Quiet(before, t.events[..|t.events| - 2]) && t.active && t.ready && t.audioStarted && t.emitted)
  }

  lemma EmitReadyEarns(before: seq<Event>, s: Session)
    requires Quiet(before, s.events)
    ensures Earned(before, EmitReady(s))
  {
    assert (s.events + [OnCall, Listening])[..|s.events|] == s.events;
  }

  lemma StartCallEarns(s: Session, warmOk: bool, startOk: bool, rewarmOk: bool)
    ensures Earned(s.events, StartCall(s, warmOk, startOk, rewarmOk))
  {
    if !s.active {
      var s0 := Emit(s, [Connecting]).(emitted := false);
      QuietOne(s.events, s.events, Connecting);
      EnsureWarmIsQuiet(s.events, s0, warmOk);
      var s1 := EnsureWarm(s0, warmOk);
      QuietEnd(s.events, s1.events);
      EnsureWarmIsQuiet(s.events, CloseSession(Emit(s1, [VoiceIdle, Ended]), true), rewarmOk);
      var s2 := s1.(audioStarted := true, active := true);
      EnsureWarmIsQuiet(s.events, s2, rewarmOk);
      EmitReadyEarns(s.events, s2);
    }
  }

  lemma ReconnectEarns(s: Session, warmOk: bool, startOk: bool, rewarmOk: bool)
    requires s.gaps > 0
    ensures Earned(s.events, Reconnect(s, warmOk, startOk, rewarmOk))
  {
    var s0 := s.(gaps := s.gaps - 1);
    if s0.active {
      EnsureWarmIsQuiet(s.events, s0, warmOk);
      var s1 := EnsureWarm(s0, warmOk);
      QuietEnd(s.events, s1.events);
      EnsureWarmIsQuiet(s.events, CloseSession(Emit(s1, [VoiceIdle, Ended]).(active := false), true), rewarmOk);
      EmitReadyEarns(s.events, s1.(audioStarted := true));
    }
  }

  lemma EndCallEarns(s: Session, warmOk: bool)
    ensures Earned(s.events, EndCall(s, warmOk))
  {
    QuietEnd(s.events, s.events);
    EnsureWarmIsQuiet(s.events, Emit(CloseSession(s.(active := false), true), [VoiceIdle, Ended]), warmOk);
  }

  lemma SessionClosedEarns(s: Session, n: nat, warmOk: bool)
    ensures Earned(s.events, SessionClosed(s, n, warmOk))
  {
    EnsureWarmIsQuiet(s.events, CloseSession(s, true), warmOk);
    QuietOne(s.events, s.events, Connecting);
  }

  lemma ConnectReturnedEarns(s: Session, n: nat, r: Connected)
    requires n in s.attempts
    ensures Earned(s.events, ConnectReturned(s, n, r))
  {
    QuietEnd(s.events, s.events);
    if r.Up? { EmitReadyEarns(s.events, Booked(s, n, r).(conn := Some(r.conn), warming := false)); }
  }

  lemma StepEarns(s: Session, a: Action)
    requires Enabled(s, a)
    ensures Earned(s.events, Next(s, a))
  {
    match a
    case Start(w, st, rw) => StartCallEarns(s, w, st, rw);
    case Resume(w, st, rw) => ReconnectEarns(s, w, st, rw);
    case End(w) => EndCallEarns(s, w);
    case Rotate(_, w) => EnsureWarmIsQuiet(s.events, CloseSession(s, true), w);
    case Retry(w) => EnsureWarmIsQuiet(s.events, s, w);
    case Lost(n, w) => SessionClosedEarns(s, n, w);
    case Ready(_) => EmitReadyEarns(s.events, s.(ready := true));
    case Returned(n, r) => ConnectReturnedEarns(s, n, r);
    case Provider(e) => QuietOne(s.events, s.events, e);
    case Cancelled =>
  }

  lemma EarnedMeans(before: seq<Event>, t: Session)
    requires Earned(before, t)
    ensures before <= t.events
    ensures forall i :: |before| <= i < |t.events| && t.events[i].OnCall? ==>
              t.active && t.ready && t.audioStarted && t.emitted
  {
    if Quiet(before, t.events) {
      QuietMeans(before, t.events);
    } else {
      QuietMeans(before, t.events[..|t.events| - 2]);
    }
  }

  /** In any run emission only appends, and an `on_call` among what a step emits leaves the call active, the
      session ready and its audio started. */
  lemma OnCallMeansReady(run: seq<Session>, actions: seq<Action>, k: nat, i: nat)
    requires Run(run, actions) && k < |actions|
    requires |run[k].events| <= i < |run[k + 1].events| && run[k + 1].events[i].OnCall?
    ensures run[k].events <= run[k + 1].events
    ensures run[k + 1].active && run[k + 1].ready && run[k + 1].audioStarted && run[k + 1].emitted
  {
    StepEarns(run[k], actions[k]);
    EarnedMeans(run[k].events, run[k + 1]);
  }

  lemma BurstOfStep(run: seq<Session>, actions: seq<Action>, k: nat)
    requires Run(run, actions) && k < |run| && run[k].active
    ensures run[k].state.Some?
    ensures k > 0 && run[k - 1].active ==> run[k].state == run[k - 1].state
  {
    RunKeepsInv(run, actions, k);
    if k > 0 {
      StaleNeverBecomesCurrent(run, actions, k - 1);
    }
  }

  /** While a call stays active its burst does not change, whatever happens to the session under it. */
  lemma {:induction false} BurstIsKept(run: seq<Session>, actions: seq<Action>, i: nat, j: nat)
    requires Run(run, actions) && i <= j < |run|
    requires forall k :: i <= k <= j ==> run[k].active
    ensures run[i].state.Some? && run[j].state == run[i].state
  {
    BurstOfStep(run, actions, j);
    if i < j {
      BurstIsKept(run, actions, i, j - 1);
    }
  }

  // ---- what a step achieves ----

  /** Nothing is connected or on the way, and the loop is not over. */
  predicate CanWarm(s: Session) {
    !s.done && s.conn.None? && !s.warming
  }

  /** From one state to the other exactly one connect attempt was started, and it is the one that counts; the
      audio device is open for it. */
  predicate Attempts(s: Session, t: Session) {
    && t.warming && t.audio && t.conn.None? && !t.ready && !t.emitted && t.state.Some?
    && t.sessionSeq > s.sessionSeq && t.sessionSeq !in s.issued
    && t.attempts == s.attempts + {t.sessionSeq} && t.issued == s.issued + {t.sessionSeq}
  }

  /** A call started with nothing warm waits for a new session with its audio running. */
  lemma StartWarms(s: Session, rewarmOk: bool)
    requires Inv(s) && CanWarm(s) && !s.active
    ensures var t := Next(s, Start(true, true, rewarmOk));
      Attempts(s, t) && t.active && t.audioStarted && LastState(t.events).Connecting?
  {
    EmitOne(s.events, Connecting);
  }

  /** One started on a session that is on its way waits for that. */
  lemma StartWaits(s: Session, warmOk: bool, rewarmOk: bool)
    requires Inv(s) && s.warming && !s.active
    ensures var t := Next(s, Start(warmOk, true, rewarmOk));
      && t.active && t.audioStarted && t.warming && LastState(t.events).Connecting?
      && (t.sessionSeq, t.attempts, t.issued, t.ready) == (s.sessionSeq, s.attempts, s.issued, s.ready)
  {
    EmitOne(s.events, Connecting);
  }

  /** One started on a warm and ready session is on at once. */
  lemma StartIsOn(s: Session, warmOk: bool, rewarmOk: bool)
    requires Inv(s) && s.conn.Some? && s.ready && !s.active
    ensures var t := Next(s, Start(warmOk, true, rewarmOk));
      && t.active && t.emitted && t.conn == s.conn && t.attempts == s.attempts
      && t.events == s.events + [Connecting, OnCall, Listening]
  {
  }

  /** A call whose audio cannot be started ends again, and leaves a fresh session on its way. */
  lemma StartFails(s: Session, warmOk: bool)
    requires Inv(s) && !s.active && !s.audioStarted && !s.done
    ensures var t := Next(s, Start(warmOk, false, true));
      && !t.active && t.warming && t.audio && t.conn.None? && t.sessionSeq in t.attempts && t.sessionSeq !in s.issued
      && t.events == s.events + [Connecting, VoiceIdle, Ended]
  {
  }

  lemma RetryWarms(s: Session)
    requires Inv(s) && CanWarm(s)
    ensures Attempts(s, Next(s, Retry(true))) && Next(s, Retry(true)).active == s.active
    ensures Next(s, Retry(true)).events == s.events
  {
  }

  /** Without the device there is no attempt, and an active call ends. */
  lemma NoDeviceEndsTheCall(s: Session)
    requires Inv(s) && CanWarm(s)
    ensures var t := Next(s, Retry(false));
      && !t.active && !t.warming && t.attempts == s.attempts
      && t.events == s.events + if s.active then [VoiceIdle, Ended] else []
  {
  }

  /** The loss of the current session of an active call leaves the call active and a handler to go on. */
  lemma LostLeavesTheCall(s: Session, warmOk: bool)
    requires Inv(s) && s.active && s.sessionSeq in s.issued
    ensures var t := Next(s, Lost(s.sessionSeq, warmOk));
      && t.active && t.state == s.state && t.conn.None? && !t.warming && t.gaps == s.gaps + 1
      && t.attempts == s.attempts && t.events == s.events + [Connecting]
  {
  }

  /** That handler starts a new session for the same burst. */
  lemma ResumeWarms(s: Session, rewarmOk: bool)
    requires Inv(s) && CanWarm(s) && s.active && s.gaps > 0
    ensures var t := Next(s, Resume(true, true, rewarmOk));
      Attempts(s, t) && t.active && t.audioStarted && t.state == s.state && t.gaps == s.gaps - 1 && t.events == s.events
  {
  }

  /** Outside a call a lost or rotated session is replaced, and what was connected goes to a closer. */
  lemma IdleLossWarms(s: Session)
    requires Inv(s) && !s.active && !s.done && s.sessionSeq in s.issued
    ensures var t := Next(s, Lost(s.sessionSeq, true));
      Attempts(s, t) && !t.active && t.events == s.events && t.closers == HandOver(s.closers, s.conn)
  {
  }

  lemma RotationWarms(s: Session)
    requires Inv(s) && !s.active && !s.done && s.conn.Some?
    ensures var t := Next(s, Rotate(s.sessionSeq, true));
      Attempts(s, t) && !t.active && t.events == s.events && t.closers == HandOver(s.closers, s.conn)
  {
  }

  /** The end of a call is reported and warms the next session. */
  lemma EndWarms(s: Session)
    requires Inv(s) && s.active && !s.done
    ensures var t := Next(s, End(true));
      && Attempts(s, t) && !t.active && t.events == s.events + [VoiceIdle, Ended]
      && t.closers == HandOver(s.closers, s.conn)
  {
  }

  /** The connect of the current attempt makes its connection the session, or ends what waited for it. */
  lemma ConnectSettles(s: Session, r: Connected)
    requires Inv(s) && s.warming && (r.Up? ==> r.conn !in s.returned)
    ensures var t := Next(s, Returned(s.sessionSeq, r));
      if r.Up? then
        && t.conn == Some(r.conn) && !t.warming && t.audio && t.active == s.active && t.ready == s.ready
        && t.sessionSeq == s.sessionSeq && t.state == s.state
      else t.conn.None? && !t.warming && !t.audio && !t.active && t.sessionSeq > s.sessionSeq
  {
  }

  lemma ReadySettles(s: Session)
    requires Inv(s) && s.audio
    ensures var t := Next(s, Ready(s.sessionSeq));
      t.ready && t.conn == s.conn && t.active == s.active && (s.active && s.audioStarted ==> t.emitted)
  {
  }

  /** Readiness is announced as soon as an active call has a connected, ready and heard session, and an active
      call is heard unless a handler is about to see to it. */
  predicate Announced(s: Session) {
    && (s.active && s.conn.Some? && s.ready && s.audioStarted ==> s.emitted)
    && (s.active && s.gaps == 0 ==> s.audioStarted)
  }

  predicate AudioServes(s: Session) {
    (s.audio <==> s.warming || s.conn.Some?) && (s.audioStarted ==> s.audio)
  }

  lemma WarmingServes(s: Session, warmOk: bool)
    requires AudioServes(s) && !s.active
    ensures AudioServes(EnsureWarm(s, warmOk)) && !EnsureWarm(s, warmOk).active
  {
  }

  lemma AnswerAnnounces(s: Session, startOk: bool, rewarmOk: bool)
    requires AudioServes(s) && !s.active
    ensures Announced(Answer(s, startOk, rewarmOk))
  {
  }

  lemma StartAnnounces(s: Session, warmOk: bool, startOk: bool, rewarmOk: bool)
    requires FlagsInv(s) && Announced(s)
    ensures Announced(StartCall(s, warmOk, startOk, rewarmOk))
  {
    if !s.active {
      var s0 := Emit(s, [Connecting]).(emitted := false);
      WarmingServes(s0, warmOk);
      AnswerAnnounces(EnsureWarm(s0, warmOk), startOk, rewarmOk);
    }
  }

  lemma EndAnnounces(s: Session, warmOk: bool)
    requires FlagsInv(s) && Announced(s)
    ensures Announced(EndCall(s, warmOk))
  {
  }

  lemma LostAnnounces(s: Session, n: nat, warmOk: bool)
    requires FlagsInv(s) && Announced(s)
    ensures Announced(SessionClosed(s, n, warmOk))
  {
  }

  lemma ResumeAnnounces(s: Session, warmOk: bool, startOk: bool, rewarmOk: bool)
    requires FlagsInv(s) && Announced(s) && s.gaps > 0
    ensures Announced(Reconnect(s, warmOk, startOk, rewarmOk))
  {
  }

  lemma ReturnedAnnounces(s: Session, n: nat, r: Connected)
    requires FlagsInv(s) && Announced(s)
    ensures Announced(ConnectReturned(s, n, r))
  {
  }

  lemma TimersAnnounce(s: Session, n: nat, warmOk: bool)
    requires FlagsInv(s) && Announced(s)
    ensures Announced(RotationFired(s, n, warmOk)) && Announced(RetryFired(s, warmOk)) && Announced(ProviderReady(s, n))
  {
  }

  lemma StepAnnounces(s: Session, a: Action)
    requires Inv(s) && Announced(s) && Enabled(s, a)
    ensures Announced(Next(s, a))
  {
    match a
    case Start(w, st, rw) => StartAnnounces(s, w, st, rw);
    case End(w) => EndAnnounces(s, w);
    case Rotate(n, w) => TimersAnnounce(s, n, w);
    case Retry(w) => TimersAnnounce(s, 0, w);
    case Lost(n, w) => LostAnnounces(s, n, w);
    case Resume(w, st, rw) => ResumeAnnounces(s, w, st, rw);
    case Ready(n) => TimersAnnounce(s, n, true);
    case Returned(n, r) => ReturnedAnnounces(s, n, r);
    case Provider(_) =>
    case Cancelled =>
  }

  lemma {:induction false} RunAnnounces(run: seq<Session>, actions: seq<Action>, k: nat)
    requires Run(run, actions) && k < |run|
    ensures Announced(run[k])
  {
    if k > 0 {
      RunAnnounces(run, actions, k - 1);
      RunKeepsInv(run, actions, k - 1);
      StepAnnounces(run[k - 1], actions[k - 1]);
    }
  }

  /** In every reachable state with no handler between its two regions, an active call has audio and a session,
      connected or on its way, and once that is connected and ready the call is reported as on. */
  lemma ActiveCallsAreServed(run: seq<Session>, actions: seq<Action>, k: nat)
    requires Run(run, actions) && k < |run| && run[k].active && run[k].gaps == 0
    ensures run[k].audioStarted && (run[k].conn.Some? || run[k].warming)
    ensures run[k].conn.Some? && run[k].ready ==> LastState(run[k].events).OnCall?
  {
    RunKeepsInv(run, actions, k);
    RunAnnounces(run, actions, k);
  }

  /** The shortest call: nothing is warm, the session comes up and is ready; then it is lost, and a second one
      comes up for the same burst. */
  const FIRST_CALL := [Start(true, true, true), Returned(1, Up(0)), Ready(1)]
  const SECOND_SESSION := [Lost(1, true), Resume(true, true, true), Returned(3, Up(1)), Ready(3)]

  function RunOf(actions: seq<Action>): Option<Session> {
    if actions == [] then Some(INITIAL)
    else
      var s := RunOf(actions[..|actions| - 1]);
      if s.Some? && Enabled(s.value, actions[|actions| - 1]) then Some(Next(s.value, actions[|actions| - 1])) else None
  }

  lemma OneMoreAction(actions: seq<Action>, a: Action, s: Session)
    requires RunOf(actions) == Some(s) && Enabled(s, a)
    ensures RunOf(actions + [a]) == Some(Next(s, a))
  {
    assert (actions + [a])[..|actions|] == actions;
  }

  /** The state in which the first call is on. */
  const ON_CALL := Session(Some(0), Some(0), true, true, 1, false, true, true, true, false,
                           [Connecting, OnCall, Listening], {1}, {}, map[0 := 1], multiset{}, 0, 1)

  lemma FirstCall()
    ensures RunOf(FIRST_CALL) == Some(ON_CALL)
  {
    assert [] + [FIRST_CALL[0]] == FIRST_CALL[..1] && FIRST_CALL[..1] + [FIRST_CALL[1]] == FIRST_CALL[..2];
    assert FIRST_CALL[..2] + [FIRST_CALL[2]] == FIRST_CALL;
    OneMoreAction([], FIRST_CALL[0], INITIAL);
    var s1 := Next(INITIAL, FIRST_CALL[0]);
    OneMoreAction(FIRST_CALL[..1], FIRST_CALL[1], s1);
    var s2 := Next(s1, FIRST_CALL[1]);
    OneMoreAction(FIRST_CALL[..2], FIRST_CALL[2], s2);
    assert Next(s2, FIRST_CALL[2]) == ON_CALL;
  }

  /** The state once the session was lost and the next attempt is on its way. */
  const WARMING_AGAIN := Session(None, Some(0), true, true, 3, true, false, true, false, false,
                                 [Connecting, OnCall, Listening, Connecting], {1, 3}, {3}, map[0 := 1],
                                 multiset{0}, 0, 1)

  lemma LostSession()
    ensures RunOf(FIRST_CALL + SECOND_SESSION[..2]) == Some(WARMING_AGAIN)
  {
    FirstCall();
    var a, b := FIRST_CALL, SECOND_SESSION;
    OneMoreAction(a, b[0], ON_CALL);
    OneMoreAction(a + [b[0]], b[1], Next(ON_CALL, b[0]));
    assert Next(Next(ON_CALL, b[0]), b[1]) == WARMING_AGAIN;
    assert a + [b[0]] + [b[1]] == a + b[..2];
  }

  /** The call is on, loses its session, and is on again with the next one and the same burst. */
  lemma ALostCallIsOnAgain()
    ensures RunOf(FIRST_CALL) == Some(ON_CALL) && ON_CALL.active && ON_CALL.emitted
    ensures var t := RunOf(FIRST_CALL + SECOND_SESSION);
      && t.Some? && t.value.active && t.value.emitted && t.value.conn == Some(1) && t.value.state == ON_CALL.state
      && t.value.closers[0] == 1
      && t.value.events == [Connecting, OnCall, Listening, Connecting, OnCall, Listening]
  {
    FirstCall();
    LostSession();
    var a, b := FIRST_CALL + SECOND_SESSION[..2], SECOND_SESSION;
    OneMoreAction(a, b[2], WARMING_AGAIN);
    OneMoreAction(a + [b[2]], b[3], Next(WARMING_AGAIN, b[2]));
    assert a + [b[2]] + [b[3]] == FIRST_CALL + b;
  }

  // ---- the closures themselves ----

  /** The variables the closures capture, updated in place: each public method is one locked region and is
      proved to take the step of the protocol above. */
  class DesktopCall {
    var cur: Session

    constructor ()
      ensures cur == INITIAL && Inv(cur)
    {
      cur := INITIAL;
    }

    method EmitReadyLocked()
      modifies this
      ensures cur == EmitReady(old(cur))
    {
      if !cur.active || !cur.ready || !cur.audioStarted || cur.emitted {
        return;
      }
      cur := cur.(emitted := true);
      cur := Emit(cur, [OnCall, Listening]);
    }

    /** `toStop` is torn down by the caller once the lock is released. */
    method CloseSessionLocked(retireCall: bool) returns (toStop: Option<Conn>)
      modifies this
      ensures cur == CloseSession(old(cur), retireCall) && toStop == old(cur).conn
    {
      cur := cur.(sessionSeq := cur.sessionSeq + 1);
      toStop := cur.conn;
      cur := cur.(closers := HandOver(cur.closers, cur.conn));
      cur := cur.(state := if retireCall then None else cur.state);
      cur := cur.(conn := None, audio := false);
      cur := cur.(audioStarted := false, warming := false, ready := false, emitted := false);
    }

    method StartSessionAudioLocked(startOk: bool) returns (ok: bool)
      modifies this
      ensures ok == AudioStarts(old(cur), startOk)
      ensures cur == if ok then old(cur).(audioStarted := true) else old(cur)
    {
      if cur.audioStarted {
        return true;
      }
      if !cur.audio || !startOk {
        return false;
      }
      cur := cur.(audioStarted := true);
      return true;
    }

    method FailActiveCallLocked()
      modifies this
      ensures cur == FailActive(old(cur))
    {
      if cur.active {
        cur := cur.(active := false, emitted := false);
        cur := Emit(cur, [VoiceIdle, Ended]);
      }
    }

    /** The connect that is started returns by `ConnectDone`. */
    method EnsureWarmSessionLocked(audioOk: bool)
      modifies this
      ensures cur == EnsureWarm(old(cur), audioOk)
    {
      if cur.done {
        return;
      }
      if cur.conn.Some? || cur.warming {
        return;
      }
      if !audioOk {
        FailActiveCallLocked();
        return;
      }
      cur := cur.(warming := true, ready := false, emitted := false);
      cur := cur.(sessionSeq := cur.sessionSeq + 1);
      if !cur.active || cur.state.None? {
        cur := cur.(state := Some(cur.bursts), bursts := cur.bursts + 1);
      }
      cur := cur.(audio := true, audioStarted := false);
      cur := cur.(issued := cur.issued + {cur.sessionSeq}, attempts := cur.attempts + {cur.sessionSeq});
    }

    /** The rest of `Start`. */
    method AnswerLocked(startOk: bool, rewarmOk: bool)
      modifies this
      ensures cur == Answer(old(cur), startOk, rewarmOk)
    {
      var started := StartSessionAudioLocked(startOk);
      if !started {
        cur := Emit(cur, [VoiceIdle, Ended]);
        var _ := CloseSessionLocked(true);
        EnsureWarmSessionLocked(rewarmOk);
        return;
      }
      cur := cur.(active := true);
      if cur.conn.Some? && cur.ready {
        EmitReadyLocked();
        return;
      }
      EnsureWarmSessionLocked(rewarmOk);
    }

    method StartLocked(warmOk: bool, startOk: bool, rewarmOk: bool)
      modifies this
      ensures cur == StartCall(old(cur), warmOk, startOk, rewarmOk)
    {
      if cur.active {
        return;
      }
      cur := Emit(cur.(emitted := false), [Connecting]);
      if cur.conn.None? && !cur.warming {
        EnsureWarmSessionLocked(warmOk);
      }
      AnswerLocked(startOk, rewarmOk);
    }

    method Start(warmOk: bool, startOk: bool, rewarmOk: bool)
      modifies this
      ensures cur == StartCall(old(cur), warmOk, startOk, rewarmOk)
      ensures old(Inv(cur)) ==> Inv(cur)
    {
      if Inv(cur) {
        StartCallKeeps(cur, warmOk, startOk, rewarmOk);
      }
      StartLocked(warmOk, startOk, rewarmOk);
    }

    method End(warmOk: bool)
      modifies this
      ensures cur == EndCall(old(cur), warmOk)
      ensures old(Inv(cur)) ==> Inv(cur)
    {
      if Inv(cur) {
        EndCallKeeps(cur, warmOk);
      }
      if !cur.active {
        return;
      }
      cur := cur.(active := false);
      var _ := CloseSessionLocked(true);
      cur := Emit(cur, [VoiceIdle, Ended]);
      EnsureWarmSessionLocked(warmOk);
    }

    method Rotate(n: nat, warmOk: bool)
      modifies this
      ensures cur == RotationFired(old(cur), n, warmOk)
      ensures old(Inv(cur)) ==> Inv(cur)
    {
      if Inv(cur) {
        RotationFiredKeeps(cur, n, warmOk);
      }
      if n != cur.sessionSeq || cur.active || cur.conn.None? {
        return;
      }
      var _ := CloseSessionLocked(true);
      EnsureWarmSessionLocked(warmOk);
    }

    method Retry(warmOk: bool)
      modifies this
      ensures cur == RetryFired(old(cur), warmOk)
      ensures old(Inv(cur)) ==> Inv(cur)
    {
      if Inv(cur) {
        RetryFiredKeeps(cur, warmOk);
      }
      if cur.conn.None? && !cur.warming {
        EnsureWarmSessionLocked(warmOk);
      }
    }

    /** The first locked region; `again` sends the handler on to `Resume`. */
    method HandleSessionClosed(n: nat, warmOk: bool) returns (again: bool)
      modifies this
      ensures cur == SessionClosed(old(cur), n, warmOk)
      ensures again <==> n == old(cur).sessionSeq && old(cur).active
      ensures old(Inv(cur)) ==> Inv(cur)
    {
      if Inv(cur) {
        SessionClosedKeeps(cur, n, warmOk);
      }
      if n != cur.sessionSeq {
        return false;
      }
      if !cur.active {
        var _ := CloseSessionLocked(true);
        EnsureWarmSessionLocked(warmOk);
        return false;
      }
      cur := Emit(cur, [Connecting]);
      var _ := CloseSessionLocked(false);
      cur := cur.(gaps := cur.gaps + 1);
      return true;
    }

    /** The call ends here because no audio can be started for it. */
    method HangUpLocked(rewarmOk: bool)
      modifies this
      ensures cur == EnsureWarm(CloseSession(Emit(old(cur).(active := false), [VoiceIdle, Ended]), true), rewarmOk)
    {
      cur := cur.(active := false);
      cur := Emit(cur, [VoiceIdle, Ended]);
      var _ := CloseSessionLocked(true);
      EnsureWarmSessionLocked(rewarmOk);
    }

    method ResumeLocked(warmOk: bool, startOk: bool, rewarmOk: bool)
      requires cur.gaps > 0
      modifies this
      ensures cur == Reconnect(old(cur), warmOk, startOk, rewarmOk)
    {
      cur := cur.(gaps := cur.gaps - 1);
      if !cur.active {
        return;
      }
      EnsureWarmSessionLocked(warmOk);
      var started := StartSessionAudioLocked(startOk);
      if !started {
        HangUpLocked(rewarmOk);
        return;
      }
      EmitReadyLocked();
    }

    method Resume(warmOk: bool, startOk: bool, rewarmOk: bool)
      requires cur.gaps > 0
      modifies this
      ensures cur == Reconnect(old(cur), warmOk, startOk, rewarmOk)
      ensures old(Inv(cur)) ==> Inv(cur)
    {
      if Inv(cur) {
        ReconnectKeeps(cur, warmOk, startOk, rewarmOk);
      }
      ResumeLocked(warmOk, startOk, rewarmOk);
    }

    method OnReady(n: nat)
      modifies this
      ensures cur == ProviderReady(old(cur), n)
      ensures old(Inv(cur) && n in cur.issued) ==> Inv(cur)
    {
      if Inv(cur) && n in cur.issued {
        ProviderReadyKeeps(cur, n);
      }
      if n == cur.sessionSeq {
        cur := cur.(ready := true);
        EmitReadyLocked();
      }
    }

    /** `stale` says that the goroutine itself closes the connection it got. */
    method ConnectDone(n: nat, r: Connected) returns (stale: bool)
      modifies this
      ensures cur == ConnectReturned(old(cur), n, r) && stale == (n != old(cur).sessionSeq)
      ensures old(Inv(cur) && n in cur.attempts && (r.Up? ==> r.conn !in cur.returned)) ==> Inv(cur)
    {
      if Inv(cur) && n in cur.attempts && (r.Up? ==> r.conn !in cur.returned) {
        ConnectReturnedKeeps(cur, n, r);
      }
      cur := cur.(attempts := cur.attempts - {n},
                  returned := if r.Up? then cur.returned[r.conn := n] else cur.returned);
      stale := n != cur.sessionSeq;
      if stale {
        if r.Up? {
          cur := cur.(closers := cur.closers + multiset{r.conn});
        }
        return;
      }
      if r.Refused? {
        FailActiveCallLocked();
        var _ := CloseSessionLocked(true);
        return;
      }
      cur := cur.(conn := Some(r.conn), warming := false);
      EmitReadyLocked();
    }
  }
}

/** The durable spool of realtime usage reports: the directory, the system calls the relay makes on
    it, and the relay's file procedures written over those calls.  Every system call may fail, and at
    every system call the process may stop; a procedure that sees `Exited` returns at once, so what a
    procedure promises of `Exited` is promised of a process exit at any point inside it. */
module RelaySpool {
  import JsonEncoding
  import opened Wrappers

  const MAX_BODY := 64 * 1024
  const MAX_SPOOL := MAX_BODY + 4 * 1024

  /** Normalised principal, provider and response id. */
  datatype Identity = Identity(principal: string, provider: string, response: string)

  /** A report as a file holds it: its stored usage bytes, and the length and nesting of the whole file. */
  datatype Report = Report(id: Identity, usage: string, fileLen: nat, depth: nat)

  /** What `readRealtimeUsageRelayFile` followed by `decodeRealtimeUsageRelayEnvelope` accepts: at most
      MAX_SPOOL + 1 bytes are read, the decoder refuses what is nested too deep, and the stored usage must be
      nonempty and at most MAX_BODY. */
  predicate Readable(r: Report) {
    0 < |r.usage| <= MAX_BODY && r.fileLen <= MAX_SPOOL + 1 && r.depth <= JsonEncoding.MAX_NESTING
  }

  /** The envelope `persistRealtimeUsageRelaySpool` writes: {"principal":"..","usage":..}. */
  function ReportOf(id: Identity, body: string): Report {
    var usage := JsonEncoding.EncodeRaw(body);
    Report(id, usage, 13 + JsonEncoding.QuotedLen(id.principal) + 9 + |usage| + 1, 1 + JsonEncoding.Depth(usage))
  }

  datatype Content = Envelope(report: Report) | Garbage

  function Decode(c: Content): Option<Report> {
    if c.Envelope? && Readable(c.report) then Some(c.report) else None
  }

  /** The usage-*.json names, with SHA-256 injective and its canonical and legacy images disjoint;
      `Stray` is a name in neither image. */
  datatype UsageName = Canonical(id: Identity) | Legacy(response: string) | Stray(tag: nat)

  /** .pending-`tag` followed by `marks` times ".invalid": a quarantined pending file keeps the prefix
      that recovery scans for. */
  datatype PendingName = PendingName(tag: nat, marks: nat)

  type UsageFiles = map<UsageName, Content>
  type PendingFiles = map<PendingName, Content>

  /** A valid record of the identity under a name it belongs to. */
  ghost predicate RecordAt(usage: UsageFiles, n: UsageName, id: Identity) {
    && n in usage && Decode(usage[n]).Some? && Decode(usage[n]).value.id == id
    && (n == Canonical(id) || n == Legacy(id.response))
  }

  /** The identities with a valid canonical or legacy record on disk. */
  ghost predicate Durable(usage: UsageFiles, id: Identity) {
    RecordAt(usage, Canonical(id), id) || RecordAt(usage, Legacy(id.response), id)
  }

  /** How a persist ends: with a record, without one, or with the process. */
  datatype Persisted = Stored(created: bool) | Rejected(installed: bool) | Stopped

  /** The identity a persist may add: a new record counts only if it can be read back. */
  ghost function Added(report: Report, r: Persisted): set<Identity> {
    if r == Stored(true) && !Readable(report) then {} else {report.id}
  }

  ghost predicate PendingAt(pending: PendingFiles, n: PendingName, id: Identity) {
    n in pending && Decode(pending[n]).Some? && Decode(pending[n]).value.id == id
  }

  /** The identities with a valid pending record on disk. */
  ghost function PendingIds(pending: PendingFiles): (ids: set<Identity>)
    ensures forall n, id :: PendingAt(pending, n, id) ==> id in ids
    ensures forall id :: id in ids ==> exists n :: PendingAt(pending, n, id)
  {
    var ids := set n | n in pending && Decode(pending[n]).Some? :: Decode(pending[n]).value.id;
    assert forall n :: n in pending && Decode(pending[n]).Some? ==> PendingAt(pending, n, Decode(pending[n]).value.id);
    ids
  }

  /** An identity a restart will find, whichever kind of file holds it. */
  ghost predicate Recoverable(usage: UsageFiles, pending: PendingFiles, id: Identity) {
    Durable(usage, id) || id in PendingIds(pending)
  }

  function Aside(n: PendingName): PendingName {
    n.(marks := n.marks + 1)
  }

  /** Only undecodable pending files were ever set aside, so that setting another aside overwrites no record. */
  ghost predicate NoneMarked(pending: PendingFiles) {
    forall n :: n in pending && n.marks > 0 ==> Decode(pending[n]).None?
  }

  /** At most a rival's valid record of the identity has appeared. */
  ghost predicate UntouchedBy(before: UsageFiles, after: UsageFiles, id: Identity) {
    after == before
    || (Canonical(id) !in before && RecordAt(after, Canonical(id), id) && after - {Canonical(id)} == before)
  }

  /** A valid record stays, and otherwise the envelope is put there; nothing else changes. */
  predicate StoresOnce(usage: UsageFiles, usage': UsageFiles, pending: PendingFiles, pending': PendingFiles,
                       report: Report, r: Persisted) {
    var target := Canonical(report.id);
    && pending' == pending
    && if target in usage && Decode(usage[target]).Some? && Decode(usage[target]).value.id == report.id
       then r == Stored(false) && usage' == usage
       else r == Stored(true) && usage' == usage[target := Envelope(report)]
  }

  /** Some file holds this very report, whole. */
  ghost predicate StoredIn(usage: UsageFiles, pending: PendingFiles, r: Report) {
    || (exists n :: n in usage && usage[n] == Envelope(r))
    || (exists n :: n in pending && pending[n] == Envelope(r))
  }

  ghost function ReportsIn(usage: UsageFiles, pending: PendingFiles): (reports: set<Report>)
    ensures forall r :: r in reports <==> StoredIn(usage, pending, r)
  {
    (set n | n in usage && usage[n].Envelope? :: usage[n].report)
    + (set n | n in pending && pending[n].Envelope? :: pending[n].report)
  }

  predicate NoLegacy(usage: UsageFiles) {
    forall n :: n in usage ==> !n.Legacy?
  }

  function Ids(items: seq<Report>): set<Identity> {
    set item | item in items :: item.id
  }

  /** Dropping a pending file whose identity is durable. */
  lemma DropPendingKeeps(pending: PendingFiles, n: PendingName)
    ensures PendingIds(pending - {n}) <= PendingIds(pending)
    ensures forall m, id :: PendingAt(pending, m, id) && m != n ==> id in PendingIds(pending - {n})
    ensures NoneMarked(pending) ==> NoneMarked(pending - {n})
  {
    forall id | id in PendingIds(pending - {n}) ensures id in PendingIds(pending) {
      var m :| PendingAt(pending - {n}, m, id);
      assert PendingAt(pending, m, id);
    }
    forall m, id | PendingAt(pending, m, id) && m != n ensures id in PendingIds(pending - {n}) {
      assert PendingAt(pending - {n}, m, id);
    }
  }

  /** The pending files once `n` was renamed to its own name with ".invalid" added, whatever was there. */
  function AfterAside(pending: PendingFiles, n: PendingName): PendingFiles
    requires n in pending
  {
    (pending - {n})[Aside(n) := pending[n]]
  }

  /** The identity the file holds, if it can be decoded. */
  ghost function HeldAt(pending: PendingFiles, n: PendingName): (ids: set<Identity>)
    ensures forall id :: id in ids <==> PendingAt(pending, n, id)
  {
    if n in pending && Decode(pending[n]).Some? then {Decode(pending[n]).value.id} else {}
  }

  lemma AsideKeeps(pending: PendingFiles, n: PendingName)
    requires n in pending
    ensures var after := AfterAside(pending, n);
      && PendingIds(pending) <= PendingIds(after) + HeldAt(pending, Aside(n))
      && PendingIds(after) <= PendingIds(pending)
      && (NoneMarked(pending) && Decode(pending[n]).None? ==> NoneMarked(after) && HeldAt(pending, Aside(n)) == {})
  {
    var after := AfterAside(pending, n);
    forall id | id in PendingIds(after) ensures id in PendingIds(pending) {
      var m :| PendingAt(after, m, id);
      assert PendingAt(pending, if m == Aside(n) then n else m, id);
    }
    forall id | id in PendingIds(pending) && id !in HeldAt(pending, Aside(n)) ensures id in PendingIds(after) {
      var m :| PendingAt(pending, m, id);
      assert PendingAt(after, if m == n then Aside(n) else m, id);
    }
  }

  /** Renaming a pending file aside loses an identity exactly when the name it is renamed to held the only
      record of it. */
  lemma AsideLosesIff(pending: PendingFiles, n: PendingName, id: Identity)
    requires n in pending && id in PendingIds(pending)
    ensures id !in PendingIds(AfterAside(pending, n)) <==> forall m :: PendingAt(pending, m, id) ==> m == Aside(n)
  {
    var after := AfterAside(pending, n);
    if id in PendingIds(after) {
      var m :| PendingAt(after, m, id);
      assert PendingAt(pending, if m == Aside(n) then n else m, id);
    }
    forall m | PendingAt(pending, m, id) && m != Aside(n)
      ensures id in PendingIds(after)
    {
      assert PendingAt(after, if m == n then Aside(n) else m, id);
    }
  }

  /** A directory in which that happens: a partial file, and a readable one under the name with one mark. */
  lemma AShadowedRecordIsLost(r: Report)
    requires Readable(r)
    ensures var n := PendingName(0, 0); var pending: PendingFiles := map[n := Garbage, Aside(n) := Envelope(r)];
      r.id in PendingIds(pending) && PendingIds(AfterAside(pending, n)) == {} && !NoneMarked(pending)
  {
    var n := PendingName(0, 0);
    var pending: PendingFiles := map[n := Garbage, Aside(n) := Envelope(r)];
    assert PendingAt(pending, Aside(n), r.id);
    AsideLosesIff(pending, n, r.id);
    AsideKeeps(pending, n);
    assert forall id :: id in PendingIds(pending) ==> id == r.id;
  }

  /** Another name than `n` has a valid record of the identity too. */
  ghost predicate ElsewhereThan(usage: UsageFiles, n: UsageName, id: Identity) {
    exists m :: m != n && RecordAt(usage, m, id)
  }

  /** Taking a name away loses the identity unless another name has it too. */
  lemma SetAsideLosesSoleCopy(usage: UsageFiles, n: UsageName, id: Identity)
    requires RecordAt(usage, n, id)
    ensures Durable(usage - {n}, id) <==> ElsewhereThan(usage, n, id)
  {
    assert forall m :: m != n ==> (RecordAt(usage - {n}, m, id) <==> RecordAt(usage, m, id));
  }

  /** No pending record is gone, only `added` is new, and no record came to be marked. */
  ghost predicate PendingGrew(before: PendingFiles, after: PendingFiles, added: set<Identity>) {
    && PendingIds(before) <= PendingIds(after) <= PendingIds(before) + added
    && (NoneMarked(before) ==> NoneMarked(after))
  }

  /** A new pending file under a name nothing has, empty or filled, hides nothing. */
  lemma TempKeeps(pending: PendingFiles, temp: PendingName, c: Content)
    requires temp !in pending && temp.marks == 0
    ensures PendingGrew(pending, pending[temp := c], if Decode(c).Some? then {Decode(c).value.id} else {})
  {
    var after := pending[temp := c];
    forall other | other in PendingIds(pending) ensures other in PendingIds(after) {
      var n :| PendingAt(pending, n, other);
      assert PendingAt(after, n, other);
    }
  }

  datatype Fault = Fine | Error | Exit
  datatype Reply = Done | Exists | Missing | Failed | Exited
  datatype Check = Valid | Invalid | CheckFailed | CheckExited
  datatype Losses = Losses(readFailed: bool, modeFailed: bool, taken: set<Identity>, passedOver: set<Identity>,
                           rivals: set<Report>)
  datatype Loaded = Items(items: seq<Report>) | LoadFailed | LoadStopped

  function Answer(f: Fault): Reply {
    match f case Fine => Done case Error => Failed case Exit => Exited
  }

  /** A legacy record under its canonical name. */
  ghost function Migrated(usage: UsageFiles, legacy: UsageName, id: Identity): UsageFiles
    requires legacy in usage
  {
    (usage - {legacy})[Canonical(id) := usage[legacy]]
  }

  class Spool {
    var usage: UsageFiles
    var pending: PendingFiles
    var tick: nat

    /** What the operating system does at each successive call; reads and mode changes are listed
        apart because some promises depend on them. */
    const faults: nat -> Fault
    const readFaults: nat -> Fault
    const chmodFaults: nat -> Fault

    /** A record another Koe process using the same directory installs just before our link. */
    const rival: nat -> Option<Report>

    /** The random part of the name `os.CreateTemp` settles on, which an earlier file may have had. */
    const tags: nat -> nat

    /** Identities a valid record of which the running operation took away: its name was renamed because a
        read of it failed, or another pending file was renamed over it. */
    ghost var taken: set<Identity>
    /** Identities of which it passed over a valid record that is still there: its mode could not be set, or a
        read of it failed and the rename failed too or was to another pending name. */
    ghost var skipped: set<Identity>
    /** The reports the running operation found in the directory or was given, and those rivals installed. */
    ghost var origin: set<Report>
    ghost var rivals: set<Report>

    /** Every file in the directory holds one of these. */
    ghost predicate Traced()
      reads this`usage, this`pending, this`origin, this`rivals
    {
      && (forall n :: n in usage && usage[n].Envelope? ==> usage[n].report in origin + rivals)
      && (forall n :: n in pending && pending[n].Envelope? ==> pending[n].report in origin + rivals)
    }

    ghost predicate ReadsWorkIn(from: nat, to: nat) { forall t :: from <= t < to ==> readFaults(t) != Error }
    ghost predicate ModesWorkIn(from: nat, to: nat) { forall t :: from <= t < to ==> chmodFaults(t) != Error }

    /** What the operation that began at call `from` has recorded. */
    ghost function Lost(from: nat): Losses
      reads this`tick, this`taken, this`skipped, this`rivals
    {
      Losses(!ReadsWorkIn(from, tick), !ModesWorkIn(from, tick), taken, skipped, rivals)
    }

    /** Nothing fails except perhaps reads, and no other process interferes. */
    ghost predicate Quiet() { forall t :: faults(t) == Fine && chmodFaults(t) == Fine && rival(t).None? }
    ghost predicate ReadsAlways(f: Fault) { forall t :: readFaults(t) == f }

    /** Whatever is drawn for a temporary file, none of these has that name. */
    ghost predicate TagsAreNew(pending: PendingFiles) {
      forall t :: PendingName(tags(t), 0) !in pending
    }

    constructor (usage: UsageFiles, pending: PendingFiles,
                 faults: nat -> Fault, readFaults: nat -> Fault, chmodFaults: nat -> Fault,
                 rival: nat -> Option<Report>, tags: nat -> nat)
      ensures this.usage == usage && this.pending == pending && tick == 0 && taken == {} && skipped == {}
      ensures Traced()
      ensures this.faults == faults && this.readFaults == readFaults && this.chmodFaults == chmodFaults
      ensures this.rival == rival && this.tags == tags
    {
      this.usage, this.pending, this.tick := usage, pending, 0;
      this.faults, this.readFaults, this.chmodFaults := faults, readFaults, chmodFaults;
      this.rival, this.tags := rival, tags;
      taken, skipped, origin, rivals := {}, {}, ReportsIn(usage, pending), {};
    }

    /** An operation starts to record what it takes, passes over and sees. */
    ghost method Begin(given: set<Report>)
      modifies this`taken, this`skipped, this`origin, this`rivals
      ensures taken == {} && skipped == {} && rivals == {} && Traced()
      ensures forall r :: r in origin <==> StoredIn(usage, pending, r) || r in given
    {
      taken, skipped, origin, rivals := {}, {}, ReportsIn(usage, pending) + given, {};
    }

    // ---- system calls ----

    /** A call with no effect on the directory's names. */
    method Call(oracle: nat -> Fault) returns (o: Reply)
      modifies this`tick
      ensures o == Answer(oracle(old(tick))) && tick == old(tick) + 1
    {
      o := Answer(oracle(tick));
      tick := tick + 1;
    }

    method ReadFile(file: Option<Content>) returns (o: Reply, c: Content)
      modifies this`tick
      ensures o == (if readFaults(old(tick)) == Fine && file.None? then Missing else Answer(readFaults(old(tick))))
      ensures o.Done? ==> file == Some(c)
      ensures tick == old(tick) + 1
    {
      c := Garbage;
      o := Call(readFaults);
      if o.Done? {
        match file {
          case None => o := Missing;
          case Some(stored) => c := stored;
        }
      }
    }

    function UsageFile(n: UsageName): Option<Content>
      reads this`usage
    {
      if n in usage then Some(usage[n]) else None
    }

    function PendingFile(n: PendingName): Option<Content>
      reads this`pending
    {
      if n in pending then Some(pending[n]) else None
    }

    /** Another process may have installed its own valid record of the identity since we looked. */
    method Rival(id: Identity)
      modifies this`usage, this`rivals
      ensures UntouchedBy(old(usage), usage, id) && (rival(tick).None? ==> usage == old(usage))
      ensures old(rivals) <= rivals && (old(Traced()) ==> Traced())
    {
      var r := rival(tick);
      if r.Some? && r.value.id == id && Readable(r.value) && Canonical(id) !in usage {
        usage := usage[Canonical(id) := Envelope(r.value)];
        rivals := rivals + {r.value};
      }
    }

    /** `os.Link` to an identity's canonical name: never replaces an existing file. */
    method Link(source: Option<Content>, id: Identity) returns (o: Reply)
      modifies this`rivals, this`tick, this`usage
      ensures o in {Done, Exists, Failed, Exited}
      ensures o.Done? ==>
          source.Some? && Canonical(id) !in old(usage) && usage == old(usage)[Canonical(id) := source.value]
      ensures o.Exists? ==> Canonical(id) in usage
      ensures !o.Done? ==> UntouchedBy(old(usage), usage, id)
      ensures tick == old(tick) + 1
      ensures Quiet() && source.Some? && Canonical(id) !in old(usage) ==> o.Done?
      ensures old(rivals) <= rivals
      ensures old(Traced())
              && (source.Some? && source.value.Envelope? ==> source.value.report in origin + old(rivals)) ==>
        Traced()
    {
      Rival(id);
      o := Call(faults);
      if o.Done? {
        if Canonical(id) in usage {
          o := Exists;
        } else if source.Some? {
          usage := usage[Canonical(id) := source.value];
        } else {
          o := Failed;
        }
      }
    }

    method RemoveUsage(n: UsageName) returns (o: Reply)
      modifies this`tick, this`usage
      ensures o == Answer(faults(old(tick))) && tick == old(tick) + 1
      ensures usage == if o.Done? then old(usage) - {n} else old(usage)
      ensures old(Traced()) ==> Traced()
    {
      o := Call(faults);
      if o.Done? {
        usage := usage - {n};
      }
    }

    method RemovePending(n: PendingName) returns (o: Reply)
      modifies this`tick, this`pending
      ensures o == Answer(faults(old(tick))) && tick == old(tick) + 1
      ensures pending == if o.Done? then old(pending) - {n} else old(pending)
      ensures old(Traced()) ==> Traced()
    {
      o := Call(faults);
      if o.Done? {
        pending := pending - {n};
      }
    }

    /** `os.CreateTemp`: an empty file under a name that no file has now. */
    method CreateTemp() returns (o: Reply, n: PendingName)
      modifies this`tick, this`pending
      ensures n == PendingName(tags(old(tick)), 0) && tick == old(tick) + 1
      ensures o == if faults(old(tick)) == Fine && n in old(pending) then Failed else Answer(faults(old(tick)))
      ensures pending == if o.Done? then old(pending)[n := Garbage] else old(pending)
      ensures old(Traced()) ==> Traced()
    {
      n := PendingName(tags(tick), 0);
      o := Call(faults);
      if o.Done? {
        if n in pending {
          o := Failed;
        } else {
          pending := pending[n := Garbage];
        }
      }
    }

    // ---- procedures on one file ----

    /** What every procedure keeps of the directory, whatever fails and wherever the process stops: an identity
        goes missing only if a record of it was taken away, and none appears except `added`. */
    twostate predicate Conserves(added: set<Identity>)
      reads this
    {
      && (forall id :: old(Durable(usage, id)) ==> Durable(usage, id) || id in taken)
      && (forall id :: old(Recoverable(usage, pending, id)) ==> Recoverable(usage, pending, id) || id in taken)
      && (forall id :: Recoverable(usage, pending, id) ==> old(Recoverable(usage, pending, id)) || id in added)
    }

    /** What start-up records: only identities that were there, and nothing unless something failed. */
    twostate predicate Accounts()
      reads this
    {
      && old(tick) <= tick && old(taken) <= taken && old(skipped) <= skipped
      && (forall id :: id in taken ==> id in old(taken) || old(Recoverable(usage, pending, id)))
      && (forall id :: id in skipped ==> id in old(skipped) || old(Recoverable(usage, pending, id)))
      && (ReadsWorkIn(old(tick), tick) && old(NoneMarked(pending)) ==> taken == old(taken) && NoneMarked(pending))
      && (ReadsWorkIn(old(tick), tick) && ModesWorkIn(old(tick), tick) ==> skipped == old(skipped))
    }

    /** The same of the entries of the queueing scan. */
    twostate predicate UsageAccounts()
      reads this
    {
      && old(tick) <= tick && old(taken) <= taken && old(skipped) <= skipped
      && (forall id :: id in taken ==> id in old(taken) || old(Durable(usage, id)))
      && (forall id :: id in skipped ==> id in old(skipped) || old(Durable(usage, id)))
      && (ReadsWorkIn(old(tick), tick) ==> taken == old(taken))
      && (ReadsWorkIn(old(tick), tick) && ModesWorkIn(old(tick), tick) ==> skipped == old(skipped))
    }

    ghost function RecordIds(n: UsageName): (ids: set<Identity>)
      reads this`usage
      ensures forall id :: id in ids <==> RecordAt(usage, n, id)
    {
      if n in usage && Decode(usage[n]).Some? && RecordAt(usage, n, Decode(usage[n]).value.id) then
        {Decode(usage[n]).value.id}
      else {}
    }

    /** Rename a usage file to its .invalid name, which nothing reads again. */
    method SetUsageAside(n: UsageName) returns (o: Reply)
      modifies this`tick, this`usage, this`taken
      ensures o == Answer(faults(old(tick))) && tick == old(tick) + 1
      ensures usage == if o.Done? then old(usage) - {n} else old(usage)
      ensures taken == if o.Done? then old(taken) + old(RecordIds(n)) else old(taken)
      ensures old(Traced()) ==> Traced()
    {
      o := Call(faults);
      if o.Done? {
        taken := taken + RecordIds(n);
        usage := usage - {n};
      }
    }

    /** A read at call `t` fails and the rename after it succeeds. */
    ghost predicate SetsAsideAt(t: nat) { readFaults(t) == Error && faults(t + 1) == Fine }

    /** `realtimeUsageRelayTargetIsValid` on the identity's canonical name.  A valid record leaves that name
        exactly when it is there to be looked at, the read of it fails and the rename succeeds. */
    method TargetIsValid(id: Identity) returns (c: Check)
      modifies this`tick, this`usage, this`taken
      ensures old(RecordAt(usage, Canonical(id), id)) ==>
        (Canonical(id) !in usage <==> faults(old(tick)) == Fine && SetsAsideAt(old(tick) + 1))
      ensures taken == old(taken) + (if Canonical(id) in usage then {} else old(RecordIds(Canonical(id))))
      ensures c.Valid? ==> RecordAt(usage, Canonical(id), id) && usage == old(usage)
      ensures c.Invalid? ==> Canonical(id) !in usage
      ensures usage == old(usage) || usage == old(usage) - {Canonical(id)}
      ensures forall other :: old(Durable(usage, other)) ==> Durable(usage, other) || other in taken
      ensures forall other :: Durable(usage, other) ==> old(Durable(usage, other))
      ensures old(tick) <= tick && old(taken) <= taken <= old(taken) + old(RecordIds(Canonical(id)))
      ensures ReadsWorkIn(old(tick), tick) ==> taken == old(taken)
      ensures Quiet() && ReadsAlways(Fine) ==> c == if old(RecordAt(usage, Canonical(id), id)) then Valid else Invalid
      ensures old(Traced()) ==> Traced()
    {
      var target := Canonical(id);
      var o := Call(faults);
      if !o.Done? {
        return if o.Exited? then CheckExited else CheckFailed;
      }
      if target !in usage {
        return Invalid;
      }
      var content;
      o, content := ReadFile(UsageFile(target));
      if o.Exited? {
        return CheckExited;
      }
      if o.Done? && Decode(content).Some? && Decode(content).value.id == id {
        return Valid;
      }
      o := SetUsageAside(target);
      c := match o case Done => Invalid case Exited => CheckExited case _ => CheckFailed;
    }

    /** `realtimeUsageRelayCanonicalMatches`: `Done` is a match, `Missing` no file. */
    method CanonicalMatches(id: Identity) returns (o: Reply)
      modifies this`tick
      ensures o in {Done, Missing, Failed, Exited}
      ensures o.Done? ==> RecordAt(usage, Canonical(id), id)
      ensures tick == old(tick) + 1
      ensures Quiet() && ReadsAlways(Fine) && RecordAt(usage, Canonical(id), id) ==> o.Done?
    {
      var content;
      o, content := ReadFile(UsageFile(Canonical(id)));
      if o.Done? {
        o := if Decode(content).Some? && Decode(content).value.id == id then Done else Failed;
      }
    }

    /** `installRealtimeUsageRelayFile` for a legacy file. */
    method InstallLegacy(legacy: UsageName, id: Identity) returns (o: Reply)
      requires RecordAt(usage, legacy, id) && legacy == Legacy(id.response)
      modifies this`rivals, this`tick, this`usage
      ensures o in {Done, Exists, Failed, Exited}
      ensures forall other :: Durable(usage, other) <==> old(Durable(usage, other))
      ensures UsageFile(legacy) in {None, old(UsageFile(legacy))}
      ensures forall n :: n != Canonical(id) && n != legacy ==> UsageFile(n) == old(UsageFile(n))
      ensures old(tick) <= tick
      ensures old(rivals) <= rivals && (old(Traced()) ==> Traced())
      ensures Quiet() && Canonical(id) !in old(usage) ==> o.Done? && usage == Migrated(old(usage), legacy, id)
    {
      var envelope := usage[legacy];
      o := Link(Some(envelope), id);
      if !o.Done? {
        return;
      }
      o := RemoveUsage(legacy);
      forall other ensures Durable(usage, other) <==> old(Durable(usage, other)) {
        assert old(RecordAt(usage, legacy, other)) ==> other == id;
      }
    }

    /** `installRealtimeUsageRelayFile` for a pending file: link without replacing, then drop it. */
    method InstallPending(n: PendingName, id: Identity) returns (o: Reply)
      requires n in pending && pending[n].Envelope? && pending[n].report.id == id
      modifies this`rivals, this`tick, this`usage, this`pending
      ensures o in {Done, Exists, Failed, Exited}
      ensures o.Done? ==> Canonical(id) !in old(usage) && usage == old(usage)[Canonical(id) := old(pending)[n]]
                          && pending == old(pending) - {n}
      ensures !o.Done? ==> pending == old(pending)
      ensures !o.Done? ==> UntouchedBy(old(usage), usage, id)
                           || (Canonical(id) !in old(usage) && usage == old(usage)[Canonical(id) := old(pending)[n]])
      ensures o.Exists? ==> Canonical(id) in usage && UntouchedBy(old(usage), usage, id)
      ensures old(tick) <= tick && (Quiet() && Canonical(id) !in old(usage) ==> o.Done?)
      ensures old(rivals) <= rivals && (old(Traced()) ==> Traced())
    {
      o := Link(PendingFile(n), id);
      if o.Done? {
        o := RemovePending(n);
      }
    }

    /** Install a legacy record canonically, check what is there, drop the legacy name and sync: the
        common tail of both migrations. */
    method MoveToCanonical(legacy: UsageName, id: Identity) returns (o: Reply)
      requires RecordAt(usage, legacy, id) && legacy == Legacy(id.response)
      modifies this`rivals, this`tick, this`usage
      ensures o in {Done, Failed, Exited}
      ensures o.Done? ==> RecordAt(usage, Canonical(id), id)
      ensures forall other :: Durable(usage, other) <==> old(Durable(usage, other))
      ensures UsageFile(legacy) in {None, old(UsageFile(legacy))}
      ensures forall n :: n != Canonical(id) && n != legacy ==> UsageFile(n) == old(UsageFile(n))
      ensures old(tick) <= tick
      ensures old(rivals) <= rivals && (old(Traced()) ==> Traced())
      ensures Quiet() && ReadsAlways(Fine) && Canonical(id) !in old(usage) ==>
        o.Done? && usage == Migrated(old(usage), legacy, id)
    {
      o := InstallLegacy(legacy, id);
      if o.Failed? || o.Exited? {
        return;
      }
      o := CanonicalMatches(id);
      if !o.Done? {
        o := if o.Exited? then Exited else Failed;
        return;
      }
      assert Canonical(id) !in old(usage) ==>
          Migrated(old(usage), legacy, id) - {legacy} == Migrated(old(usage), legacy, id);
      o := RemoveUsage(legacy);
      if o.Done? {
        o := Call(faults);
      }
    }

    /** `migrateRealtimeUsageRelayLegacyFile`: the identity whose record was moved, if there was one. */
    method MigrateLegacy(response: string) returns (o: Reply, moved: Option<Identity>)
      modifies this`rivals, this`tick, this`usage
      ensures o in {Done, Failed, Exited}
      ensures o.Done? && moved.Some? ==> RecordAt(usage, Canonical(moved.value), moved.value)
      ensures forall id :: Durable(usage, id) <==> old(Durable(usage, id))
      ensures old(tick) <= tick
      ensures Quiet() && Legacy(response) !in old(usage) ==> o.Done? && moved.None? && usage == old(usage)
      ensures old(rivals) <= rivals && (old(Traced()) ==> Traced())
      ensures Quiet() && ReadsAlways(Fine) ==> forall id ::
        old(RecordAt(usage, Legacy(response), id)) && Canonical(id) !in old(usage) ==>
          o.Done? && moved == Some(id) && usage == Migrated(old(usage), Legacy(response), id)
    {
      moved := None;
      var legacy := Legacy(response);
      o := Call(faults);
      if !o.Done? || legacy !in usage {
        return;
      }
      var content;
      o, content := ReadFile(UsageFile(legacy));
      if o.Exited? {
        return;
      }
      if !o.Done? || Decode(content).None? || Decode(content).value.id.response != response {
        o := Done;
        return;
      }
      o, content := ReadFile(UsageFile(legacy));
      if !o.Done? {
        o := if o.Exited? then Exited else Failed;
        return;
      }
      var id := Decode(content).value.id;
      o := MoveToCanonical(legacy, id);
      moved := Some(id);
    }

    /** Fill the temporary file: a step that fails leaves it empty, partial or filled. */
    method FillTemp(temp: PendingName, report: Report) returns (o: Reply)
      requires temp in pending
      modifies this`tick, this`pending
      ensures o in {Done, Failed, Exited}
      ensures pending in {old(pending), old(pending)[temp := Garbage], old(pending)[temp := Envelope(report)]}
      ensures o.Done? ==> pending == old(pending)[temp := Envelope(report)]
      ensures chmodFaults(old(tick)) == Fine && faults(old(tick) + 1) != Fine ==>
        pending == old(pending)[temp := Garbage]
      ensures old(tick) <= tick && (Quiet() ==> o.Done?)
      ensures old(Traced()) && report in origin ==> Traced()
    {
      o := Call(chmodFaults);
      if o.Done? {
        o := Call(faults);
        pending := pending[temp := if o.Done? then Envelope(report) else Garbage];
      }
      if o.Done? {
        o := Call(faults);
      }
    }

    /** Install a filled temporary file under a canonical name that was free when looked at. */
    method LinkTemp(temp: PendingName, report: Report) returns (r: Persisted)
      requires temp in pending && pending[temp] == Envelope(report) && Canonical(report.id) !in usage
      modifies this`rivals, this`tick, this`usage, this`pending
      ensures old(tick) <= tick
      ensures pending in {old(pending), old(pending) - {temp}}
      ensures pending != old(pending) ==>
          Canonical(report.id) in usage && usage[Canonical(report.id)] == Envelope(report)
      ensures forall id :: old(Durable(usage, id)) ==> Durable(usage, id)
      ensures forall id :: Durable(usage, id) ==> old(Durable(usage, id)) || id in Added(report, r)
      ensures r == Stored(false) ==> RecordAt(usage, Canonical(report.id), report.id)
      ensures r == Stored(true) || r == Rejected(true) ==> pending == old(pending) - {temp}
      ensures Quiet() ==> r == Stored(true) && usage == old(usage)[Canonical(report.id) := Envelope(report)]
      ensures old(rivals) <= rivals && (old(Traced()) ==> Traced())
    {
      var o := InstallPending(temp, report.id);
      match o {
        case Done =>
          o := Call(faults);
          r := match o case Exited => Stopped case Failed => Rejected(true) case _ => Stored(true);
        case Exited => r := Stopped;
        case Exists =>
          o := CanonicalMatches(report.id);
          r := match o case Exited => Stopped case Done => Stored(false) case _ => Rejected(false);
        case _ => r := Rejected(false);
      }
    }

    /** Install a filled temporary file unless a valid record is already there. */
    method InstallTemp(temp: PendingName, report: Report) returns (r: Persisted)
      requires temp in pending && pending[temp] == Envelope(report)
      modifies this`rivals, this`tick, this`usage, this`pending, this`taken
      ensures old(tick) <= tick && old(taken) <= taken <= old(taken) + {report.id}
      ensures ReadsWorkIn(old(tick), tick) ==> taken == old(taken)
      ensures pending in {old(pending), old(pending) - {temp}}
      ensures pending != old(pending) ==>
          Canonical(report.id) in usage && usage[Canonical(report.id)] == Envelope(report)
      ensures forall id :: old(Durable(usage, id)) ==> Durable(usage, id) || id in taken
      ensures forall id :: Durable(usage, id) ==> old(Durable(usage, id)) || id in Added(report, r)
      ensures r == Stored(false) ==> RecordAt(usage, Canonical(report.id), report.id)
      ensures r == Stored(true) || r == Rejected(true) ==> pending == old(pending) - {temp}
      ensures Quiet() && ReadsAlways(Fine) && Canonical(report.id) !in old(usage) ==>
        r == Stored(true) && usage == old(usage)[Canonical(report.id) := Envelope(report)]
      ensures old(rivals) <= rivals && (old(Traced()) ==> Traced())
    {
      var c := TargetIsValid(report.id);
      match c {
        case Valid => return Stored(false);
        case CheckFailed => return Rejected(false);
        case CheckExited => return Stopped;
        case Invalid => r := LinkTemp(temp, report);
      }
    }

    /** Fill the temporary file, install it, and remove it on every path that did not. */
    method UseTemp(temp: PendingName, report: Report) returns (r: Persisted)
      requires temp in pending
      modifies this`rivals, this`tick, this`usage, this`pending, this`taken
      ensures old(tick) <= tick && old(taken) <= taken <= old(taken) + {report.id}
      ensures ReadsWorkIn(old(tick), tick) ==> taken == old(taken)
      ensures || pending == old(pending) - {temp} || pending == old(pending)
              || pending == old(pending)[temp := Garbage] || pending == old(pending)[temp := Envelope(report)]
      ensures forall id :: old(Durable(usage, id)) ==> Durable(usage, id) || id in taken
      ensures forall id :: Durable(usage, id) ==> old(Durable(usage, id)) || id in Added(report, r)
      ensures r == Stored(false) ==> RecordAt(usage, Canonical(report.id), report.id)
      ensures r == Stored(true) || r == Rejected(true) ==>
        Canonical(report.id) in usage && usage[Canonical(report.id)] == Envelope(report)
      ensures Quiet() && ReadsAlways(Fine) && Canonical(report.id) !in old(usage) ==>
        r == Stored(true) && usage == old(usage)[Canonical(report.id) := Envelope(report)]
        && pending == old(pending) - {temp}
      ensures old(rivals) <= rivals && (old(Traced()) && report in origin ==> Traced())
    {
      var o := FillTemp(temp, report);
      if o.Done? {
        r := InstallTemp(temp, report);
      } else {
        r := if o.Exited? then Stopped else Rejected(false);
      }
      assert pending - {temp} == old(pending) - {temp};
      if r == Stored(false) || r == Rejected(false) {
        o := RemovePending(temp);
        if o.Exited? {
          r := Stopped;
        }
      }
    }

    /** The part of `persistRealtimeUsageRelaySpool` that owns a temporary file, with its deferred
        cleanup. */
    method PersistTemp(report: Report) returns (r: Persisted)
      modifies this`rivals, this`tick, this`usage, this`pending, this`taken
      ensures old(tick) <= tick && old(taken) <= taken <= old(taken) + {report.id}
      ensures ReadsWorkIn(old(tick), tick) ==> taken == old(taken)
      ensures PendingGrew(old(pending), pending, if Readable(report) then {report.id} else {})
      ensures forall id :: old(Durable(usage, id)) ==> Durable(usage, id) || id in taken
      ensures forall id :: Durable(usage, id) ==> old(Durable(usage, id)) || id in Added(report, r)
      ensures r == Stored(false) ==> RecordAt(usage, Canonical(report.id), report.id)
      ensures r == Stored(true) || r == Rejected(true) ==>
        Canonical(report.id) in usage && usage[Canonical(report.id)] == Envelope(report)
      ensures Quiet() && ReadsAlways(Fine) && TagsAreNew(old(pending)) && Canonical(report.id) !in old(usage) ==>
        r == Stored(true) && usage == old(usage)[Canonical(report.id) := Envelope(report)] && pending == old(pending)
      ensures old(rivals) <= rivals && (old(Traced()) && report in origin ==> Traced())
    {
      var o, temp := CreateTemp();
      if !o.Done? {
        return if o.Exited? then Stopped else Rejected(false);
      }
      TempKeeps(old(pending), temp, Garbage);
      TempKeeps(old(pending), temp, Envelope(report));
      ghost var empty := pending;
      assert empty - {temp} == old(pending) && empty[temp := Garbage] == empty;
      assert empty[temp := Envelope(report)] == old(pending)[temp := Envelope(report)];
      r := UseTemp(temp, report);
    }

    /** `persistRealtimeUsageRelaySpool` from the check of the canonical name on. */
    method PersistCanonical(report: Report) returns (r: Persisted)
      modifies this`rivals, this`tick, this`usage, this`pending, this`taken
      ensures old(tick) <= tick && old(taken) <= taken <= old(taken) + {report.id}
      ensures ReadsWorkIn(old(tick), tick) ==> taken == old(taken)
      ensures PendingGrew(old(pending), pending, Added(report, r))
      ensures forall id :: old(Durable(usage, id)) ==> Durable(usage, id) || id in taken
      ensures forall id :: Durable(usage, id) ==> old(Durable(usage, id)) || id in Added(report, r)
      ensures r == Stored(false) ==> RecordAt(usage, Canonical(report.id), report.id)
      ensures r == Stored(true) || r == Rejected(true) ==>
        Canonical(report.id) in usage && usage[Canonical(report.id)] == Envelope(report)
      ensures Quiet() && ReadsAlways(Fine) && TagsAreNew(old(pending)) ==>
        StoresOnce(old(usage), usage, old(pending), pending, report, r)
      ensures old(rivals) <= rivals && (old(Traced()) && report in origin ==> Traced())
    {
      var id := report.id;
      var c := TargetIsValid(id);
      match c {
        case Valid => return Stored(false);
        case CheckFailed => return Rejected(false);
        case CheckExited => return Stopped;
        case Invalid =>
          assert (old(usage) - {Canonical(id)})[Canonical(id) := Envelope(report)]
              == old(usage)[Canonical(id) := Envelope(report)];
          r := PersistTemp(report);
      }
    }

    /** `persistRealtimeUsageRelaySpool`, recording on top of what was recorded before. */
    method PersistReport(report: Report) returns (r: Persisted)
      modifies this`tick, this`usage, this`pending, this`taken, this`rivals
      ensures Conserves(Added(report, r))
      ensures old(tick) <= tick && old(taken) <= taken <= old(taken) + {report.id}
      ensures ReadsWorkIn(old(tick), tick) ==> taken == old(taken)
      ensures old(NoneMarked(pending)) ==> NoneMarked(pending)
      ensures r == Stored(false) ==> RecordAt(usage, Canonical(report.id), report.id)
      ensures r == Stored(true) || r == Rejected(true) ==>
        Canonical(report.id) in usage && usage[Canonical(report.id)] == Envelope(report)
      ensures Quiet() && ReadsAlways(Fine) && TagsAreNew(old(pending)) && Legacy(report.id.response) !in old(usage) ==>
        StoresOnce(old(usage), usage, old(pending), pending, report, r)
      ensures old(rivals) <= rivals && (old(Traced()) && report in origin ==> Traced())
      ensures Quiet() && ReadsAlways(Fine) ==> var legacy := Legacy(report.id.response);
        old(RecordAt(usage, legacy, report.id)) && Canonical(report.id) !in old(usage) ==>
          r == Stored(false) && usage == Migrated(old(usage), legacy, report.id)
    {
      var id := report.id;
      var o := Call(faults);
      if !o.Done? {
        return if o.Exited? then Stopped else Rejected(false);
      }
      var moved;
      o, moved := MigrateLegacy(id.response);
      if !o.Done? {
        return if o.Exited? then Stopped else Rejected(false);
      }
      if moved == Some(id) {
        return Stored(false);
      }
      r := PersistCanonical(report);
    }

    /** `persistRealtimeUsageRelaySpool`.  A report stored as new is a valid record on disk exactly
        when its envelope is readable; one stored as already present always is.  No other identity is
        touched, a record of this one is taken away only if a read failed, and no file comes to hold anything
        but what was there, the report, or what a rival installed. */
    method Persist(report: Report) returns (r: Persisted)
      modifies this`tick, this`usage, this`pending, this`taken, this`skipped, this`origin, this`rivals
      ensures Conserves(Added(report, r)) && skipped == {}
      ensures old(tick) <= tick && taken <= {report.id} && (ReadsWorkIn(old(tick), tick) ==> taken == {})
      ensures old(NoneMarked(pending)) ==> NoneMarked(pending)
      ensures r == Stored(false) ==> RecordAt(usage, Canonical(report.id), report.id)
      ensures r == Stored(true) || r == Rejected(true) ==>
        Canonical(report.id) in usage && usage[Canonical(report.id)] == Envelope(report)
      ensures r == Stored(true) ==> (RecordAt(usage, Canonical(report.id), report.id) <==> Readable(report))
      ensures Quiet() && ReadsAlways(Fine) && TagsAreNew(old(pending)) && Legacy(report.id.response) !in old(usage) ==>
        StoresOnce(old(usage), usage, old(pending), pending, report, r)
      ensures forall other :: StoredIn(usage, pending, other) ==>
        old(StoredIn(usage, pending, other)) || other == report || other in rivals
      ensures Quiet() && ReadsAlways(Fine) ==> var legacy := Legacy(report.id.response);
        old(RecordAt(usage, legacy, report.id)) && Canonical(report.id) !in old(usage) ==>
          r == Stored(false) && usage == Migrated(old(usage), legacy, report.id)
    {
      Begin({report});
      r := PersistReport(report);
    }

    method ListPending() returns (o: Reply, names: seq<PendingName>)
      modifies this`tick
      ensures o == Answer(faults(old(tick))) && tick == old(tick) + 1
      ensures (forall n :: n in names <==> n in pending) && (names == [] <==> pending == map[])
      ensures forall i, j :: 0 <= i < j < |names| ==> names[i] != names[j]
    {
      names := [];
      o := Call(faults);
      var rest := pending.Keys;
      while rest != {}
        invariant forall n :: n in names <==> n in pending && n !in rest
        invariant forall i, j :: 0 <= i < j < |names| ==> names[i] != names[j]
        decreases rest
      {
        var n :| n in rest;
        names, rest := names + [n], rest - {n};
      }
      assert names != [] ==> names[0] in names;
      assert names == [] ==> pending.Keys == {};
    }

    method ListUsage() returns (o: Reply, names: seq<UsageName>)
      modifies this`tick
      ensures o == Answer(faults(old(tick))) && tick == old(tick) + 1
      ensures (forall n :: n in names <==> n in usage) && (names == [] <==> usage == map[])
      ensures forall i, j :: 0 <= i < j < |names| ==> names[i] != names[j]
    {
      names := [];
      o := Call(faults);
      var rest := usage.Keys;
      while rest != {}
        invariant forall n :: n in names <==> n in usage && n !in rest
        invariant forall i, j :: 0 <= i < j < |names| ==> names[i] != names[j]
        decreases rest
      {
        var n :| n in rest;
        names, rest := names + [n], rest - {n};
      }
      assert names != [] ==> names[0] in names;
      assert names == [] ==> usage.Keys == {};
    }

    /** Rename a pending file to its own name with ".invalid" added, whatever is there. */
    method SetPendingAside(n: PendingName) returns (o: Reply)
      requires n in pending
      modifies this`tick, this`pending, this`taken, this`skipped
      ensures o == Answer(faults(old(tick))) && tick == old(tick) + 1
      ensures pending == if o.Done? then AfterAside(old(pending), n) else old(pending)
      ensures taken == if o.Done? then old(taken) + HeldAt(old(pending), Aside(n)) else old(taken)
      ensures skipped == old(skipped) + HeldAt(old(pending), n)
      ensures old(Traced()) ==> Traced()
    {
      skipped := skipped + HeldAt(pending, n);
      o := Call(faults);
      if o.Done? {
        taken := taken + HeldAt(pending, Aside(n));
        pending := AfterAside(pending, n);
      }
    }

    /** The end of an entry of `recoverPendingSpool`: install the file, or drop it if a rival was faster. */
    method InstallOrDrop(n: PendingName, id: Identity) returns (o: Reply)
      requires PendingAt(pending, n, id) && Canonical(id) !in usage
      modifies this`rivals, this`tick, this`usage, this`pending
      ensures o in {Done, Failed, Exited}
      ensures pending in {old(pending), old(pending) - {n}}
      ensures forall other :: old(Durable(usage, other)) ==> Durable(usage, other)
      ensures forall other :: Durable(usage, other) ==> old(Durable(usage, other)) || other == id
      ensures o.Done? || pending != old(pending) ==> Durable(usage, id)
      ensures old(tick) <= tick
      ensures old(rivals) <= rivals && (old(Traced()) ==> Traced())
      ensures (Quiet() ==> o.Done? && pending == old(pending) - {n}) && (NoLegacy(old(usage)) ==> NoLegacy(usage))
    {
      // Mode, open, sync and close: none of them changes the directory.
      o := Call(faults);
      if !o.Done? {
        return;
      }
      o := InstallPending(n, id);
      if o.Exists? {
        o := RemovePending(n);
      }
    }

    /** A decodable pending file is dropped if its identity has a canonical record, and else installed. */
    method InstallChecked(n: PendingName, id: Identity) returns (o: Reply)
      requires PendingAt(pending, n, id)
      modifies this`rivals, this`tick, this`usage, this`pending, this`taken
      ensures o in {Done, Failed, Exited}
      ensures pending in {old(pending), old(pending) - {n}}
      ensures old(tick) <= tick && old(taken) <= taken <= old(taken) + {id}
      ensures ReadsWorkIn(old(tick), tick) ==> taken == old(taken)
      ensures forall other :: old(Durable(usage, other)) ==> Durable(usage, other) || other in taken
      ensures forall other :: Durable(usage, other) ==> old(Durable(usage, other)) || other == id
      ensures o.Done? || pending != old(pending) ==> Durable(usage, id)
      ensures old(rivals) <= rivals && (old(Traced()) ==> Traced())
      ensures Quiet() && ReadsAlways(Fine) ==> o.Done? && pending == old(pending) - {n}
      ensures NoLegacy(old(usage)) ==> NoLegacy(usage)
    {
      var c := TargetIsValid(id);
      match c {
        case CheckFailed => return Failed;
        case CheckExited => return Exited;
        case Valid =>
          o := RemovePending(n);
          o := if o.Exited? then Exited else Done;
          return;
        case Invalid => o := InstallOrDrop(n, id);
      }
    }

    /** The rest of an entry of `recoverPendingSpool`, for a decodable pending file. */
    method InstallRecovered(n: PendingName, id: Identity) returns (o: Reply)
      requires PendingAt(pending, n, id)
      requires Traced()
      modifies this`rivals, this`tick, this`usage, this`pending, this`taken
      ensures o in {Done, Failed, Exited}
      ensures pending in {old(pending), old(pending) - {n}}
      ensures PendingIds(pending) <= PendingIds(old(pending)) <= PendingIds(pending) + {id}
      ensures old(NoneMarked(pending)) ==> NoneMarked(pending)
      ensures old(tick) <= tick && old(taken) <= taken <= old(taken) + {id}
      ensures ReadsWorkIn(old(tick), tick) ==> taken == old(taken)
      ensures forall other :: old(Durable(usage, other)) ==> Durable(usage, other) || other in taken
      ensures forall other :: Durable(usage, other) ==> old(Durable(usage, other)) || other == id
      ensures o.Done? || pending != old(pending) ==> Durable(usage, id)
      ensures Conserves({}) && Accounts()
      ensures old(rivals) <= rivals && Traced()
      ensures Quiet() && ReadsAlways(Fine) ==> o.Done? && pending == old(pending) - {n}
      ensures NoLegacy(old(usage)) ==> NoLegacy(usage)
    {
      DropPendingKeeps(pending, n);
      o := InstallChecked(n, id);
    }

    /** A pending file that could not be read or decoded is renamed, whether or not that succeeds. */
    method PassOverPending(n: PendingName) returns (o: Reply)
      requires n in pending
      modifies this`tick, this`pending, this`taken, this`skipped
      ensures o == (if faults(old(tick)) == Exit then Exited else Done) && tick == old(tick) + 1
      ensures pending == if faults(old(tick)) == Fine then AfterAside(old(pending), n) else old(pending)
      ensures Conserves({}) && old(taken) <= taken <= old(taken) + old(PendingIds(pending))
      ensures skipped == old(skipped) + HeldAt(old(pending), n)
      ensures old(NoneMarked(pending)) && Decode(old(pending)[n]).None? ==> taken == old(taken) && NoneMarked(pending)
      ensures old(Traced()) ==> Traced()
    {
      AsideKeeps(pending, n);
      o := SetPendingAside(n);
      o := if o.Exited? then Exited else Done;
    }

    /** One entry of `recoverPendingSpool` once its mode is set. */
    method ReadPending(n: PendingName) returns (o: Reply)
      requires Traced() && n in pending
      modifies this`rivals, this`tick, this`usage, this`pending, this`taken, this`skipped
      ensures o in {Done, Failed, Exited}
      ensures Conserves({}) && Accounts()
      ensures o.Done? ==> forall m, id :: PendingAt(pending, m, id) ==>
        (m != n && old(PendingAt(pending, m, id))) || Durable(usage, id) || id in taken || id in skipped
      ensures Quiet() && SetsAsideAt(old(tick)) ==> pending == AfterAside(old(pending), n)
      ensures Quiet() && ReadsAlways(Fine) && Decode(old(pending)[n]).None? ==>
        pending == AfterAside(old(pending), n)
      ensures old(rivals) <= rivals && Traced()
      ensures Quiet() && ReadsAlways(Fine) ==> o.Done? && old(pending).Keys - {n} <= pending.Keys
      ensures NoLegacy(old(usage)) ==> NoLegacy(usage)
    {
      var content;
      o, content := ReadFile(PendingFile(n));
      if o.Exited? {
        return;
      }
      if !o.Done? || Decode(content).None? {
        o := PassOverPending(n);
        return;
      }
      o := InstallRecovered(n, Decode(content).value.id);
    }

    /** One entry of `recoverPendingSpool`. */
    method RecoverEntry(n: PendingName) returns (o: Reply)
      requires Traced()
      modifies this`rivals, this`tick, this`usage, this`pending, this`taken, this`skipped
      ensures o in {Done, Failed, Exited}
      ensures Conserves({}) && Accounts()
      ensures o.Done? ==> forall m, id :: PendingAt(pending, m, id) ==>
        (m != n && old(PendingAt(pending, m, id))) || Durable(usage, id) || id in taken || id in skipped
      ensures Quiet() && n in old(pending) && SetsAsideAt(old(tick) + 1) ==> pending == AfterAside(old(pending), n)
      ensures Quiet() && ReadsAlways(Fine) && n in old(pending) && Decode(old(pending)[n]).None? ==>
        pending == AfterAside(old(pending), n)
      ensures old(rivals) <= rivals && Traced()
      ensures Quiet() && ReadsAlways(Fine) && n in old(pending) ==> o.Done? && old(pending).Keys - {n} <= pending.Keys
      ensures NoLegacy(old(usage)) ==> NoLegacy(usage)
    {
      o := Call(chmodFaults);
      if !o.Done? || n !in pending {
        o := if o.Exited? then Exited else Failed;
        return;
      }
      o := ReadPending(n);
    }

    /** `recoverPendingSpool`.  Whatever it does and wherever it stops, the identities a restart finds
        stay the same; when it succeeds, each of them has a canonical or legacy record. */
    method RecoverPending() returns (o: Reply)
      requires Traced()
      modifies this`rivals, this`tick, this`usage, this`pending, this`taken, this`skipped
      ensures o in {Done, Failed, Exited}
      ensures Conserves({}) && Accounts()
      ensures o.Done? ==> forall id :: Recoverable(usage, pending, id) ==>
        Durable(usage, id) || id in taken || id in skipped
      ensures old(pending) == map[] ==> usage == old(usage) && pending == map[] && (Quiet() ==> o.Done?)
      ensures old(rivals) <= rivals && Traced()
      ensures (Quiet() && ReadsAlways(Fine) ==> o.Done?) && (NoLegacy(old(usage)) ==> NoLegacy(usage))
    {
      var names;
      o, names := ListPending();
      if !o.Done? {
        return;
      }
      for i := 0 to |names|
        invariant Conserves({}) && Accounts()
        invariant old(rivals) <= rivals && Traced()
        invariant names == [] ==> usage == old(usage) && pending == old(pending)
        invariant NoLegacy(old(usage)) ==> NoLegacy(usage)
        invariant Quiet() && ReadsAlways(Fine) ==> forall k :: i <= k < |names| ==> names[k] in pending
        invariant forall m, id :: PendingAt(pending, m, id) ==>
          m in names[i..] || Durable(usage, id) || id in taken || id in skipped
      {
        o := RecoverEntry(names[i]);
        if !o.Done? {
          return;
        }
      }
      o := Call(faults);
    }

    /** An unreadable entry of `loadSpool` is renamed aside, and passed over whether or not that succeeds. */
    method PassOver(n: UsageName) returns (o: Reply)
      modifies this`tick, this`usage, this`taken, this`skipped
      ensures o == (if faults(old(tick)) == Exit then Exited else Done) && tick == old(tick) + 1
      ensures usage == if faults(old(tick)) == Fine then old(usage) - {n} else old(usage)
      ensures taken == old(taken) + if faults(old(tick)) == Fine then old(RecordIds(n)) else {}
      ensures skipped == old(skipped) + if faults(old(tick)) == Error then old(RecordIds(n)) else {}
      ensures forall id :: old(Durable(usage, id)) ==> Durable(usage, id) || id in taken
      ensures forall id :: Durable(usage, id) ==> old(Durable(usage, id))
      ensures forall id :: old(RecordAt(usage, n, id)) ==>
        (!Durable(usage, id) <==> faults(old(tick)) == Fine && !old(ElsewhereThan(usage, n, id)))
      ensures old(Traced()) ==> Traced()
    {
      forall id | RecordAt(usage, n, id)
        ensures Durable(usage - {n}, id) <==> ElsewhereThan(usage, n, id)
      {
        SetAsideLosesSoleCopy(usage, n, id);
      }
      o := SetUsageAside(n);
      if o.Failed? {
        skipped := skipped + RecordIds(n);
        o := Done;
      }
    }

    /** One usage-*.json entry of `loadSpool` once its mode is set. */
    method ReadEntry(n: UsageName) returns (o: Reply, item: Option<Report>)
      requires Traced()
      modifies this`rivals, this`tick, this`usage, this`taken, this`skipped
      ensures o in {Done, Failed, Exited}
      ensures UsageAccounts()
      ensures forall id :: old(Durable(usage, id)) ==> Durable(usage, id) || id in taken
      ensures forall id :: Durable(usage, id) ==> old(Durable(usage, id))
      ensures forall id :: old(RecordAt(usage, n, id)) ==>
        (!Durable(usage, id) <==> SetsAsideAt(old(tick)) && !old(ElsewhereThan(usage, n, id)))
      ensures item.Some? ==> RecordAt(usage, Canonical(item.value.id), item.value.id)
      ensures o.Done? ==> forall m, id :: RecordAt(usage, m, id) ==>
        (m != n && old(RecordAt(usage, m, id))) || (item.Some? && item.value.id == id) || id in taken || id in skipped
      ensures Quiet() && ReadsAlways(Fine) && !n.Legacy? ==> o.Done?
      ensures Quiet() && ReadsAlways(Error) ==> o.Done? && item.None? && usage == old(usage) - {n}
      ensures old(rivals) <= rivals && Traced()
      ensures item.Some? ==> old(UsageFile(n)) == Some(Envelope(item.value))
    {
      item := None;
      var content;
      o, content := ReadFile(UsageFile(n));
      if o.Exited? {
        return;
      }
      if !o.Done? || Decode(content).None? || !(n == Canonical(Decode(content).value.id)
                                                 || n == Legacy(Decode(content).value.id.response)) {
        o := PassOver(n);
        return;
      }
      var report := Decode(content).value;
      if n != Canonical(report.id) {
        o := MoveToCanonical(n, report.id);
        if !o.Done? {
          return;
        }
        assert forall m :: m != n && m != Canonical(report.id) ==> UsageFile(m) == old(UsageFile(m));
        assert forall m :: m in usage ==> UsageFile(m) == Some(usage[m]);
      }
      item := Some(report);
    }

    /** One usage-*.json entry of `loadSpool`: the report to queue, unless the entry is passed over.  The
        identity of a valid record leaves the directory exactly when the read of it fails, the rename
        succeeds, and there is no other record of it. */
    method LoadEntry(n: UsageName) returns (o: Reply, item: Option<Report>)
      requires Traced()
      modifies this`rivals, this`tick, this`usage, this`taken, this`skipped
      ensures o in {Done, Failed, Exited}
      ensures UsageAccounts()
      ensures forall id :: old(Durable(usage, id)) ==> Durable(usage, id) || id in taken
      ensures forall id :: Durable(usage, id) ==> old(Durable(usage, id))
      ensures forall id :: old(RecordAt(usage, n, id)) ==>
        (!Durable(usage, id) <==> chmodFaults(old(tick)) == Fine && SetsAsideAt(old(tick) + 1)
                                  && !old(ElsewhereThan(usage, n, id)))
      ensures item.Some? ==> RecordAt(usage, Canonical(item.value.id), item.value.id)
      ensures o.Done? ==> forall m, id :: RecordAt(usage, m, id) ==>
        (m != n && old(RecordAt(usage, m, id))) || (item.Some? && item.value.id == id) || id in taken || id in skipped
      ensures Quiet() && ReadsAlways(Fine) && !n.Legacy? ==> o.Done?
      ensures Quiet() && ReadsAlways(Error) ==> o.Done? && item.None? && usage == old(usage) - {n}
      ensures old(rivals) <= rivals && Traced()
      ensures item.Some? ==> old(UsageFile(n)) == Some(Envelope(item.value))
    {
      o := Call(chmodFaults);
      if o.Done? {
        o, item := ReadEntry(n);
        return;
      }
      item := None;
      if o.Failed? {
        skipped := skipped + RecordIds(n);
        o := Done;
      }
    }

    predicate NoneTwice(items: seq<Report>) {
      forall a, b :: 0 <= a < b < |items| ==> items[a].id != items[b].id
    }

    /** An entry of the queueing scan: its report is queued unless one of its identity is already. */
    method QueueEntry(n: UsageName, items: seq<Report>) returns (o: Reply, items': seq<Report>)
      requires Traced() && NoneTwice(items) && forall item :: item in items ==> item in origin + rivals
      modifies this`tick, this`usage, this`taken, this`skipped, this`rivals
      ensures o in {Done, Failed, Exited} && UsageAccounts() && old(rivals) <= rivals && Traced()
      ensures forall id :: old(Durable(usage, id)) ==> Durable(usage, id) || id in taken
      ensures forall id :: Durable(usage, id) ==> old(Durable(usage, id))
      ensures NoneTwice(items') && (forall item :: item in items' ==> item in origin + rivals)
      ensures forall id :: id in Ids(items) ==> id in Ids(items')
      ensures forall id :: id in Ids(items') ==> id in Ids(items) || old(Durable(usage, id))
      ensures o.Done? ==> forall m, id :: RecordAt(usage, m, id) ==>
        (m != n && old(RecordAt(usage, m, id))) || id in Ids(items') || id in taken || id in skipped
      ensures Quiet() && ReadsAlways(Fine) && !n.Legacy? ==> o.Done?
      ensures Quiet() && ReadsAlways(Error) ==> o.Done? && items' == items && usage == old(usage) - {n}
    {
      var item;
      items' := items;
      o, item := LoadEntry(n);
      if o.Done? && item.Some? && item.value.id !in Ids(items) {
        items' := items + [item.value];
        assert forall id :: id in Ids(items') <==> id in Ids(items) || id == item.value.id;
      }
    }

    /** The queueing part of `loadSpool`, over the usage-*.json entries. */
    method LoadUsage() returns (r: Loaded)
      requires Traced()
      modifies this`rivals, this`tick, this`usage, this`taken, this`skipped
      ensures UsageAccounts()
      ensures forall id :: old(Durable(usage, id)) ==> Durable(usage, id) || id in taken
      ensures forall id :: Durable(usage, id) ==> old(Durable(usage, id))
      ensures r.Items? ==> forall i, j :: 0 <= i < j < |r.items| ==> r.items[i].id != r.items[j].id
      ensures r.Items? ==> forall item :: item in r.items ==> old(Durable(usage, item.id))
      ensures r.Items? ==> forall id :: Durable(usage, id) ==> id in Ids(r.items) || id in taken || id in skipped
      ensures old(usage) == map[] ==> usage == map[]
      ensures Quiet() && ReadsAlways(Fine) && NoLegacy(old(usage)) ==> r.Items?
      ensures Quiet() && ReadsAlways(Error) ==> r == Items([]) && usage == map[]
      ensures old(rivals) <= rivals && Traced()
      ensures r.Items? ==> forall item :: item in r.items ==> item in origin + rivals
    {
      var o, names := ListUsage();
      if !o.Done? {
        return if o.Exited? then LoadStopped else LoadFailed;
      }
      var items: seq<Report> := [];
      for i := 0 to |names|
        invariant UsageAccounts() && old(rivals) <= rivals && Traced()
        invariant forall id :: old(Durable(usage, id)) ==> Durable(usage, id) || id in taken
        invariant forall id :: Durable(usage, id) ==> old(Durable(usage, id))
        invariant NoneTwice(items) && forall item :: item in items ==> item in origin + rivals
        invariant forall id :: id in Ids(items) ==> old(Durable(usage, id))
        invariant forall m, id :: RecordAt(usage, m, id) ==>
          m in names[i..] || id in Ids(items) || id in taken || id in skipped
        invariant names == [] ==> usage == old(usage)
        invariant Quiet() && ReadsAlways(Error) ==> items == [] && forall m :: m in usage ==> m in names[i..]
      {
        assert names[i] in names;
        o, items := QueueEntry(names[i], items);
        if !o.Done? {
          return if o.Exited? then LoadStopped else LoadFailed;
        }
      }
      r := Items(items);
    }

    /** `loadSpool` without its first call. */
    method LoadDirectory() returns (r: Loaded)
      requires Traced()
      modifies this`tick, this`usage, this`pending, this`taken, this`skipped, this`rivals
      ensures Conserves({}) && Accounts()
      ensures r.Items? ==> forall i, j :: 0 <= i < j < |r.items| ==> r.items[i].id != r.items[j].id
      ensures r.Items? ==> forall id :: id in Ids(r.items) ==> old(Recoverable(usage, pending, id))
      ensures r.Items? ==> forall id :: old(Recoverable(usage, pending, id)) ==>
        id in Ids(r.items) || id in taken || id in skipped
      ensures old(pending) == map[] ==> pending == map[] && (old(usage) == map[] ==> usage == map[])
      ensures Quiet() && ReadsAlways(Fine) && NoLegacy(old(usage)) ==> r.Items?
      ensures Quiet() && ReadsAlways(Error) && old(pending) == map[] ==> r == Items([]) && usage == map[]
      ensures Traced() && (r.Items? ==> forall item :: item in r.items ==> item in origin + rivals)
    {
      var o := RecoverPending();
      if !o.Done? {
        return if o.Exited? then LoadStopped else LoadFailed;
      }
      r := LoadUsage();
    }

    /** `loadSpool`.  Wherever it stops, the identities a restart finds stay the same.  When it
        succeeds it queues no identity twice, and queues exactly the recoverable ones except those
        whose file it could not read or protect.  Each report it queues is, whole, one that some file held or a
        rival installed. */
    method LoadSpool() returns (r: Loaded)
      modifies this`tick, this`usage, this`pending, this`taken, this`skipped, this`origin, this`rivals
      ensures Conserves({}) && old(tick) <= tick
      ensures forall id :: id in taken || id in skipped ==> old(Recoverable(usage, pending, id))
      ensures ReadsWorkIn(old(tick), tick) && old(NoneMarked(pending)) ==> taken == {} && NoneMarked(pending)
      ensures ReadsWorkIn(old(tick), tick) && ModesWorkIn(old(tick), tick) ==> skipped == {}
      ensures r.Items? ==> forall i, j :: 0 <= i < j < |r.items| ==> r.items[i].id != r.items[j].id
      ensures r.Items? ==> forall id :: id in Ids(r.items) ==> old(Recoverable(usage, pending, id))
      ensures r.Items? ==> forall id :: old(Recoverable(usage, pending, id)) ==>
        id in Ids(r.items) || id in taken || id in skipped
      ensures old(pending) == map[] ==> pending == map[] && (old(usage) == map[] ==> usage == map[])
      ensures Quiet() && ReadsAlways(Fine) && NoLegacy(old(usage)) ==> r.Items?
      ensures Quiet() && ReadsAlways(Error) && old(pending) == map[] ==> r == Items([]) && usage == map[]
      ensures forall other :: StoredIn(usage, pending, other) || (r.Items? && other in r.items) ==>
        old(StoredIn(usage, pending, other)) || other in rivals
    {
      Begin({});
      var o := Call(faults);
      if !o.Done? {
        return if o.Exited? then LoadStopped else LoadFailed;
      }
      r := LoadDirectory();
    }
  }

  /** A directory with one valid record, and a start-up whose one read of it fails: the identity is gone. */
  method AFailedReadTakesTheOnlyRecord(r: Report) returns (before: UsageFiles, after: UsageFiles)
    requires Readable(r)
    ensures before == map[Canonical(r.id) := Envelope(r)] && Durable(before, r.id) && !Durable(after, r.id)
  {
    before := map[Canonical(r.id) := Envelope(r)];
    var spool := new Spool(before, map[], _ => Fine, _ => Error, _ => Fine, _ => None, t => t);
    assert RecordAt(spool.usage, Canonical(r.id), r.id) && !ElsewhereThan(spool.usage, Canonical(r.id), r.id);
    var _, _ := spool.LoadEntry(Canonical(r.id));
    after := spool.usage;
  }

  /** A process stops before it installs its pending file, and the next fails to read that and sets it aside. */
  method AFailedReadMarksARecord(a: Report, tag: nat) returns (before: PendingFiles, after: PendingFiles)
    ensures before == map[PendingName(tag, 0) := Envelope(a)] && after == map[PendingName(tag, 1) := Envelope(a)]
  {
    var first := new Spool(map[], map[], _ => Fine, _ => Fine, _ => Fine, _ => None, _ => tag);
    var o, n := first.CreateTemp();
    o := first.FillTemp(n, a);
    before := first.pending;
    var second := new Spool(map[], before, _ => Fine, _ => Error, _ => Fine, _ => None, _ => tag);
    o := second.RecoverEntry(n);
    after := second.pending;
  }

  /** A third process draws the same tag and stops while it writes, and a fourth sets the partial file aside. */
  method APartialFileReplacesARecord(a: Report, b: Report, tag: nat) returns (after: PendingFiles)
    ensures after == map[PendingName(tag, 1) := Garbage]
  {
    var pending: PendingFiles := map[PendingName(tag, 1) := Envelope(a)];
    var third := new Spool(map[], pending, t => if t < 2 then Fine else Exit, _ => Fine, _ => Fine, _ => None,
                           _ => tag);
    var o, n := third.CreateTemp();
    o := third.FillTemp(n, b);
    assert third.pending == pending[n := Garbage];
    var fourth := new Spool(map[], third.pending, _ => Fine, _ => Fine, _ => Fine, _ => None, _ => tag);
    o := fourth.RecoverEntry(n);
    after := fourth.pending;
  }

  /** So after four processes a complete pending record is gone, though only one read ever failed. */
  method ATagDrawnTwiceLosesARecord(a: Report, b: Report, tag: nat) returns (before: PendingFiles, after: PendingFiles)
    requires Readable(a)
    ensures PendingIds(before) == {a.id} && PendingIds(after) == {}
  {
    var aside;
    before, aside := AFailedReadMarksARecord(a, tag);
    assert PendingAt(before, PendingName(tag, 0), a.id);
    after := APartialFileReplacesARecord(a, b, tag);
  }
}

/** The message state of one agent run: the live slice that compaction replaces, the metadata keyed by
    its indices, and the run's archive, which must stay complete across any number of compactions.
    A message's `id` is its ordinal among everything ever appended; -1 marks a message made by shaping. */
module RunArchive {
  import opened Wrappers

  datatype Role = System | User | Assistant | Developer

  datatype Message = Message(id: int, role: Role, hasBlocks: bool, text: string)

  type Time = int

  /** What was recorded about a message when it was appended. */
  datatype Entry = Entry(injected: bool, delta: bool, stamp: Option<Time>)

  const NOTHING := Entry(false, false, None)
  const SYNTHETIC := -1
  const SUMMARY_PREFIX := "Previous context summary: "

  /** `ctxwin.ShapedHistory`: for each output message, the index it was kept from, or SYNTHETIC. */
  datatype ShapedHistory = ShapedHistory(messages: seq<Message>, sources: seq<int>)

  /** What shaping promises: it leaves something, kept messages keep their identity and none is kept
      twice. */
  predicate ShapeOf(shaped: ShapedHistory, messages: seq<Message>) {
    |shaped.messages| == |shaped.sources| ==>
      && shaped.messages != []
      && (forall j :: 0 <= j < |shaped.sources| ==> SYNTHETIC <= shaped.sources[j] < |messages|)
      && (forall j :: 0 <= j < |shaped.sources| ==>
            shaped.messages[j].id == if shaped.sources[j] == SYNTHETIC then -1 else messages[shaped.sources[j]].id)
      && (forall j, k :: 0 <= j < k < |shaped.sources| ==>
            shaped.sources[j] == SYNTHETIC || shaped.sources[j] != shaped.sources[k])
  }

  /** `ctxwin.IsCompactedHistory` */
  predicate IsCompactedHistory(messages: seq<Message>) {
    var start := if messages != [] && messages[0].role == System then 1 else 0;
    && |messages| >= start + 2
    && messages[start].role == User && messages[start + 1].role == User
    && !messages[start + 1].hasBlocks && SUMMARY_PREFIX <= messages[start + 1].text
  }

  /** Behind the `start`-th message, a user's, stands a summary. */
  ghost predicate SummaryBehind(messages: seq<Message>, start: nat) {
    && start + 1 < |messages| && messages[start].role == User && messages[start + 1].role == User
    && !messages[start + 1].hasBlocks
    && exists summary: string :: messages[start + 1].text == "Previous context summary: " + summary
  }

  /** A compacted view is one with a summary behind its first user message, which may follow a system prompt. */
  lemma CompactedIff(messages: seq<Message>)
    ensures IsCompactedHistory(messages) <==>
      SummaryBehind(messages, 0) || (messages != [] && messages[0].role == System && SummaryBehind(messages, 1))
  {
    var start := if messages != [] && messages[0].role == System then 1 else 0;
    if IsCompactedHistory(messages) {
      var text := messages[start + 1].text;
      assert text == "Previous context summary: " + text[|SUMMARY_PREFIX|..];
    }
  }

  // ---- the reference archive ----

  /** The ordinals in [from, to) that are not delta messages, in order. */
  ghost function Kept(log: seq<Entry>, from: nat, to: nat): (ids: seq<int>)
    requires to <= |log|
  {
    if to <= from then []
    else Kept(log, from, to - 1) + if log[to - 1].delta then [] else [to - 1]
  }

  ghost predicate Increasing(ids: seq<int>) {
    forall j, k :: 0 <= j < k < |ids| ==> ids[j] < ids[k]
  }

  /** `Kept` is every non-delta message of the range, in append order, once each. */
  lemma {:induction false} KeptExact(log: seq<Entry>, from: nat, to: nat)
    requires to <= |log|
    ensures forall id :: id in Kept(log, from, to) <==> from <= id < to && !log[id].delta
    ensures Increasing(Kept(log, from, to))
  {
    if from < to {
      KeptExact(log, from, to - 1);
      var front, all := Kept(log, from, to - 1), Kept(log, from, to);
      if log[to - 1].delta {
        assert all == front;
      } else {
        assert all == front + [to - 1];
        forall j, k | 0 <= j < k < |all|
          ensures all[j] < all[k]
        {
          if k == |front| { assert front[j] in front; }
        }
      }
    }
  }

  function Ids(messages: seq<Message>): (ids: seq<int>)
    ensures |ids| == |messages| && forall k :: 0 <= k < |ids| ==> ids[k] == messages[k].id
  {
    seq(|messages|, k requires 0 <= k < |messages| => messages[k].id)
  }

  /** The three archive slices hold the non-delta messages appended in [from, to), each with its own
      injected flag and, where it was stamped, its own timestamp. */
  ghost predicate ArchiveOf(messages: seq<Message>, injected: seq<bool>, stamps: seq<Time>,
                            log: seq<Entry>, from: nat, to: nat)
  {
    var n := |messages|;
    && to <= |log|
    && |injected| == |stamps| == n
    && if to <= from then n == 0
       else if log[to - 1].delta then ArchiveOf(messages, injected, stamps, log, from, to - 1)
       else
         && n > 0 && messages[n - 1].id == to - 1 && injected[n - 1] == log[to - 1].injected
         && (log[to - 1].stamp.Some? ==> stamps[n - 1] == log[to - 1].stamp.value)
         && ArchiveOf(messages[..n - 1], injected[..n - 1], stamps[..n - 1], log, from, to - 1)
  }

  /** The row has what was recorded when its message was appended. */
  predicate RowOk(messages: seq<Message>, injected: seq<bool>, stamps: seq<Time>, log: seq<Entry>, k: nat)
    requires k < |messages| == |injected| == |stamps|
  {
    && 0 <= messages[k].id < |log|
    && injected[k] == log[messages[k].id].injected
    && (log[messages[k].id].stamp.Some? ==> stamps[k] == log[messages[k].id].stamp.value)
  }

  lemma {:induction false} ArchiveIds(messages: seq<Message>, injected: seq<bool>, stamps: seq<Time>,
                                      log: seq<Entry>, from: nat, to: nat)
    requires ArchiveOf(messages, injected, stamps, log, from, to)
    ensures Ids(messages) == Kept(log, from, to)
  {
    var n := |messages|;
    if from < to {
      if log[to - 1].delta {
        ArchiveIds(messages, injected, stamps, log, from, to - 1);
        assert Kept(log, from, to) == Kept(log, from, to - 1);
      } else {
        ArchiveIds(messages[..n - 1], injected[..n - 1], stamps[..n - 1], log, from, to - 1);
        assert Ids(messages) == Ids(messages[..n - 1]) + [to - 1];
      }
    }
  }

  lemma {:induction false} ArchiveRow(messages: seq<Message>, injected: seq<bool>, stamps: seq<Time>,
                                      log: seq<Entry>, from: nat, to: nat, k: nat)
    requires ArchiveOf(messages, injected, stamps, log, from, to) && k < |messages|
    ensures RowOk(messages, injected, stamps, log, k)
  {
    var n := |messages|;
    if from < to {
      if log[to - 1].delta {
        ArchiveRow(messages, injected, stamps, log, from, to - 1, k);
      } else if k < n - 1 {
        ArchiveRow(messages[..n - 1], injected[..n - 1], stamps[..n - 1], log, from, to - 1, k);
      }
    }
  }

  /** Read outright: the archived identities are the kept ordinals, and every row carries what was
      recorded when its message was appended. */
  lemma ArchiveRows(messages: seq<Message>, injected: seq<bool>, stamps: seq<Time>,
                    log: seq<Entry>, from: nat, to: nat)
    requires ArchiveOf(messages, injected, stamps, log, from, to)
    ensures Ids(messages) == Kept(log, from, to)
    ensures |injected| == |stamps| == |messages|
    ensures forall k :: 0 <= k < |messages| ==> RowOk(messages, injected, stamps, log, k)
  {
    ArchiveIds(messages, injected, stamps, log, from, to);
    forall k | 0 <= k < |messages|
      ensures RowOk(messages, injected, stamps, log, k)
    {
      ArchiveRow(messages, injected, stamps, log, from, to, k);
    }
  }

  lemma ArchiveGrows(messages: seq<Message>, injected: seq<bool>, stamps: seq<Time>, log: seq<Entry>,
                     from: nat, to: nat, m: Message, flag: bool, stamp: Time)
    requires ArchiveOf(messages, injected, stamps, log, from, to) && from <= to < |log| && !log[to].delta
    requires m.id == to && flag == log[to].injected && (log[to].stamp.Some? ==> stamp == log[to].stamp.value)
    ensures ArchiveOf(messages + [m], injected + [flag], stamps + [stamp], log, from, to + 1)
  {
    assert (messages + [m])[..|messages|] == messages;
    assert (injected + [flag])[..|messages|] == injected;
    assert (stamps + [stamp])[..|messages|] == stamps;
  }

  lemma {:induction false} ArchiveOfLonger(messages: seq<Message>, injected: seq<bool>, stamps: seq<Time>,
                                           log: seq<Entry>, more: seq<Entry>, from: nat, to: nat)
    requires ArchiveOf(messages, injected, stamps, log, from, to)
    ensures ArchiveOf(messages, injected, stamps, log + more, from, to)
  {
    var n := |messages|;
    if from < to {
      assert (log + more)[to - 1] == log[to - 1];
      if log[to - 1].delta {
        ArchiveOfLonger(messages, injected, stamps, log, more, from, to - 1);
      } else {
        ArchiveOfLonger(messages[..n - 1], injected[..n - 1], stamps[..n - 1], log, more, from, to - 1);
      }
    }
  }

  function Unscaffold(m: Message, scaffold: string, raw: string): Message {
    if m.role == User && m.text == scaffold then m.(text := raw) else m
  }

  /** Every row is, whole, the message that was appended under its ordinal; only the first row may have had its
      scaffold replaced by what the user typed. */
  predicate RowsSay(rows: seq<Message>, said: seq<Message>, scaffolded: string, raw: string) {
    forall k :: 0 <= k < |rows| ==>
      && 0 <= rows[k].id < |said|
      && rows[k] == if k == 0 then Unscaffold(said[rows[k].id], scaffolded, raw) else said[rows[k].id]
  }

  /** An archive from a message on that is not a delta has that message. */
  lemma ArchiveStarts(messages: seq<Message>, injected: seq<bool>, stamps: seq<Time>, log: seq<Entry>,
                      from: nat, to: nat)
    requires ArchiveOf(messages, injected, stamps, log, from, to) && from < to && !log[from].delta
    ensures messages != []
  {
    ArchiveIds(messages, injected, stamps, log, from, to);
    KeptExact(log, from, to);
    assert from in Kept(log, from, to);
  }

  /** Only the text of a user message that is the scaffold changes. */
  lemma OnlyTheScaffoldChanges(m: Message, scaffold: string, raw: string)
    ensures var t := Unscaffold(m, scaffold, raw);
      && (t.id, t.role, t.hasBlocks) == (m.id, m.role, m.hasBlocks)
      && (m.role == User && m.text == scaffold ==> t.text == raw)
      && (m.role != User || m.text != scaffold ==> t.text == m.text)
  {
  }

  /** It comes first. */
  lemma FirstRow(rows: seq<Message>, injected: seq<bool>, stamps: seq<Time>, log: seq<Entry>, from: nat, to: nat)
    requires ArchiveOf(rows, injected, stamps, log, from, to) && from < to && !log[from].delta
    ensures rows != [] && rows[0].id == from
  {
    ArchiveStarts(rows, injected, stamps, log, from, to);
    ArchiveIds(rows, injected, stamps, log, from, to);
    KeptExact(log, from, to);
    var ids := Kept(log, from, to);
    var k :| 0 <= k < |ids| && ids[k] == from;
    assert ids[0] in ids && ids[0] >= from;
    assert Ids(rows)[0] == rows[0].id;
  }

  // ---- invariants of the live state ----

  /** What the three index-keyed maps say of an index. */
  function MetadataAt(i: int, injected: set<int>, delta: set<int>, stamps: map<int, Time>): Entry {
    Entry(i in injected, i in delta, if i in stamps then Some(stamps[i]) else None)
  }

  function Mark(marked: set<int>, at: int, yes: bool): set<int> {
    if yes then marked + {at} else marked
  }

  function Stamp(stamps: map<int, Time>, at: int, stamp: Option<Time>): map<int, Time> {
    if stamp.Some? then stamps[at := stamp.value] else stamps
  }

  /** Recording an entry at an index that had none. */
  lemma MarkedAt(at: int, injected: set<int>, delta: set<int>, stamps: map<int, Time>, e: Entry)
    requires MetadataAt(at, injected, delta, stamps) == NOTHING
    ensures forall i ::
        MetadataAt(i, Mark(injected, at, e.injected), Mark(delta, at, e.delta), Stamp(stamps, at, e.stamp))
                        == if i == at then e else MetadataAt(i, injected, delta, stamps)
  {
  }

  /** The metadata at every live index is that of the message's original append; messages made by
      shaping have none, and no key is out of range. */
  ghost predicate Follows(messages: seq<Message>, log: seq<Entry>, injected: set<int>, delta: set<int>,
      stamps: map<int, Time>) {
    && (forall i :: 0 <= i < |messages| ==> -1 <= messages[i].id < |log|)
    && (forall i :: MetadataAt(i, injected, delta, stamps) ==
          if 0 <= i < |messages| && messages[i].id >= 0 then log[messages[i].id] else NOTHING)
  }

  /** The variables of one run, with four that only record history: every message ever appended (`said`) with
      its marks (`log`), the ordinal of the run's first user message, and how much of the log was last frozen. */
  datatype Live = Live(messages: seq<Message>, offset: int, injected: set<int>, delta: set<int>, stamps: map<int, Time>,
                       tailOffset: int, checkpointActive: bool, prefix: seq<Message>, flags: seq<bool>,
                       times: seq<Time>, scaffolded: string, raw: string,
                       log: seq<Entry>, said: seq<Message>, runStart: nat, frozen: nat)

  /** The offset is the live index of the run's first user message, or -1 once that is gone. */
  ghost predicate OffsetFollows(messages: seq<Message>, runStart: nat, offset: int) {
    && -1 <= offset < |messages|
    && forall i :: 0 <= i < |messages| ==> (messages[i].id == runStart <==> i == offset)
  }

  function Tail(tailOffset: int): nat {
    if tailOffset < 0 then 0 else tailOffset
  }

  /** The live tail is, whole, whatever was appended after the archive was last frozen. */
  ghost predicate TailFollows(messages: seq<Message>, said: seq<Message>, frozen: nat, tailOffset: int) {
    && -1 <= tailOffset <= |messages| && |messages| - Tail(tailOffset) == |said| - frozen
    && forall i :: Tail(tailOffset) <= i < |messages| ==>
         messages[i].id == |said| - |messages| + i && messages[i] == said[messages[i].id]
  }

  ghost predicate Inv(v: Live) {
    && 1 <= v.runStart < |v.log| == |v.said| && v.messages != [] && !v.log[v.runStart].delta
    && Follows(v.messages, v.log, v.injected, v.delta, v.stamps)
    && OffsetFollows(v.messages, v.runStart, v.offset)
    && TailFollows(v.messages, v.said, v.frozen, v.tailOffset)
    && (v.tailOffset == -1 ==> v.frozen == 0) && (v.checkpointActive <==> v.tailOffset != -1)
    && (v.tailOffset != -1 ==>
          && v.runStart < v.frozen && ArchiveOf(v.prefix, v.flags, v.times, v.log, v.runStart, v.frozen)
          && v.prefix != [] && RowsSay(v.prefix, v.said, v.scaffolded, v.raw))
  }

  const FIRST := Message(0, System, false, "")

  type Sound = v: Live | Inv(v)
    ghost witness Live([FIRST, FIRST.(id := 1)], 1, {}, {}, map[], -1, false, [], [], [], "", "",
                       [NOTHING, NOTHING], [FIRST, FIRST.(id := 1)], 1, 0)

  lemma AppendKeeps(v: Live, m: Message, e: Entry, injected': set<int>, delta': set<int>, stamps': map<int, Time>)
    requires Inv(v) && m.id == |v.log|
    requires forall i :: MetadataAt(i, injected', delta', stamps')
                         == if i == |v.messages| then e else MetadataAt(i, v.injected, v.delta, v.stamps)
    ensures Inv(v.(messages := v.messages + [m], log := v.log + [e], said := v.said + [m],
                   injected := injected', delta := delta', stamps := stamps'))
  {
    if v.tailOffset != -1 {
      ArchiveOfLonger(v.prefix, v.flags, v.times, v.log, [e], v.runStart, v.frozen);
    }
  }

  /** Replacing the slice by a shape of it, with its metadata moved along the source indices and its
      archive frozen. */
  lemma ReplaceKeeps(v: Live, shaped: ShapedHistory, offset': int,
                     injected': set<int>, delta': set<int>, stamps': map<int, Time>,
                     rows: seq<Message>, flags: seq<bool>, times: seq<Time>)
    requires Inv(v) && ShapeOf(shaped, v.messages) && |shaped.messages| == |shaped.sources|
    requires forall j :: MetadataAt(j, injected', delta', stamps')
                         == if 0 <= j < |shaped.sources| && shaped.sources[j] != SYNTHETIC
                            then MetadataAt(shaped.sources[j], v.injected, v.delta, v.stamps) else NOTHING
    requires offset' == -1 || (0 <= offset' < |shaped.sources| && shaped.sources[offset'] == v.offset != SYNTHETIC)
    requires forall j :: offset' < j < |shaped.sources| && 0 <= j ==>
               shaped.sources[j] == SYNTHETIC || shaped.sources[j] != v.offset
    requires ArchiveOf(rows, flags, times, v.log, v.runStart, |v.log|) && RowsSay(rows, v.said, v.scaffolded, v.raw)
    ensures Inv(Live(shaped.messages, offset', injected', delta', stamps', |shaped.messages|, true, rows, flags, times,
                     v.scaffolded, v.raw, v.log, v.said, v.runStart, |v.log|))
  {
    ArchiveStarts(rows, flags, times, v.log, v.runStart, |v.log|);
  }

  /** The model-visible messages that are neither injected nor deltas, without the system prompt. */
  ghost function LiveCheckpoint(messages: seq<Message>, hidden: set<int>, scaffold: string, raw: string, upTo: nat)
      : seq<Message>
    requires upTo <= |messages|
  {
    if upTo <= 1 then []
    else
      LiveCheckpoint(messages, hidden, scaffold, raw, upTo - 1)
      + if upTo - 1 in hidden then [] else [Unscaffold(messages[upTo - 1], scaffold, raw)]
  }

  /** `remapCompactionMetadata` */
  method RemapCompactionMetadata(sources: seq<int>, oldOffset: int, oldInjected: set<int>, oldDelta: set<int>,
                                 oldStamps: map<int, Time>)
    returns (offset: int, injected: set<int>, delta: set<int>, stamps: map<int, Time>)
    ensures forall j :: MetadataAt(j, injected, delta, stamps)
                        == if 0 <= j < |sources| && sources[j] != SYNTHETIC
                           then MetadataAt(sources[j], oldInjected, oldDelta, oldStamps) else NOTHING
    ensures offset == -1 || (0 <= offset < |sources| && sources[offset] == oldOffset != SYNTHETIC)
    ensures forall j :: offset < j < |sources| && 0 <= j ==> sources[j] == SYNTHETIC || sources[j] != oldOffset
  {
    offset, injected, delta, stamps := -1, {}, {}, map[];
    for newIdx := 0 to |sources|
      invariant forall j :: MetadataAt(j, injected, delta, stamps)
                            == if 0 <= j < newIdx && sources[j] != SYNTHETIC
                               then MetadataAt(sources[j], oldInjected, oldDelta, oldStamps) else NOTHING
      invariant offset == -1 || (0 <= offset < newIdx && sources[offset] == oldOffset != SYNTHETIC)
      invariant forall j :: offset < j < newIdx && 0 <= j ==> sources[j] == SYNTHETIC || sources[j] != oldOffset
    {
      var oldIdx := sources[newIdx];
      if oldIdx == SYNTHETIC {
        continue;
      }
      MarkedAt(newIdx, injected, delta, stamps, MetadataAt(oldIdx, oldInjected, oldDelta, oldStamps));
      injected := Mark(injected, newIdx, oldIdx in oldInjected);
      delta := Mark(delta, newIdx, oldIdx in oldDelta);
      stamps := Stamp(stamps, newIdx, if oldIdx in oldStamps then Some(oldStamps[oldIdx]) else None);
      if oldIdx == oldOffset {
        offset := newIdx;
      }
    }
  }

  /** The live messages from `from` on are the last ones appended, each with what was recorded for it. */
  ghost predicate TailOf(messages: seq<Message>, from: nat, injected: set<int>, delta: set<int>, stamps: map<int, Time>,
                         log: seq<Entry>, said: seq<Message>) {
    && from <= |messages| <= |log| + from && |said| == |log|
    && forall i :: from <= i < |messages| ==>
         && messages[i].id == |log| - |messages| + i && messages[i] == said[messages[i].id]
         && MetadataAt(i, injected, delta, stamps) == log[messages[i].id]
  }

  /** One turn of the loop below: a delta adds no row, any other message adds its own. */
  lemma TailRow(i: nat, injected: set<int>, delta: set<int>, stamps: map<int, Time>, now: Time, row: Message,
                rows: seq<Message>, flags: seq<bool>, times: seq<Time>, log: seq<Entry>, runStart: nat)
    requires 0 <= row.id < |log| && MetadataAt(i, injected, delta, stamps) == log[row.id] && runStart <= row.id
    requires ArchiveOf(rows, flags, times, log, runStart, row.id)
    ensures i in delta ==> ArchiveOf(rows, flags, times, log, runStart, row.id + 1)
    ensures i !in delta ==>
              ArchiveOf(rows + [row], flags + [i in injected], times + [if i in stamps then stamps[i] else now],
                        log, runStart, row.id + 1)
  {
    if i !in delta {
      ArchiveGrows(rows, flags, times, log, runStart, row.id, row, i in injected,
                   if i in stamps then stamps[i] else now);
    }
  }

  /** The loop of both branches of `captureRunMessages`: one archive row for every live message from
      `from` on that is not a delta.  Only the very first row may need its scaffold removed. */
  method TailRows(messages: seq<Message>, from: nat, injected: set<int>, delta: set<int>, stamps: map<int, Time>,
                  now: Time, rows: seq<Message>, flags: seq<bool>, times: seq<Time>, scaffold: Option<(string, string)>,
                  ghost log: seq<Entry>, ghost said: seq<Message>, ghost runStart: nat,
                  ghost scaffolded: string, ghost raw: string)
    returns (rows': seq<Message>, flags': seq<bool>, times': seq<Time>)
    requires TailOf(messages, from, injected, delta, stamps, log, said) && runStart <= |log| - |messages| + from
    requires ArchiveOf(rows, flags, times, log, runStart, |log| - |messages| + from)
    requires RowsSay(rows, said, scaffolded, raw)
    requires if scaffold.Some? then scaffold.value == (scaffolded, raw) else rows != []
    ensures ArchiveOf(rows', flags', times', log, runStart, |log|) && RowsSay(rows', said, scaffolded, raw)
  {
    rows', flags', times' := rows, flags, times;
    for i := from to |messages|
      invariant ArchiveOf(rows', flags', times', log, runStart, |log| - |messages| + i)
      invariant RowsSay(rows', said, scaffolded, raw) && |rows| <= |rows'|
    {
      var msg := messages[i];
      if i in delta {
        TailRow(i, injected, delta, stamps, now, msg, rows', flags', times', log, runStart);
        continue;
      }
      if scaffold.Some? && rows' == [] {
        msg := Unscaffold(msg, scaffold.value.0, scaffold.value.1);
      }
      var stamp := if i in stamps then stamps[i] else now;
      TailRow(i, injected, delta, stamps, now, msg, rows', flags', times', log, runStart);
      rows', flags', times' := rows' + [msg], flags' + [i in injected], times' + [stamp];
    }
  }

  // ---- the durable checkpoint ----

  /** A live message the checkpoint shows: not the system prompt, and appended as neither injected nor delta. */
  ghost predicate IsVisible(v: Live, i: int) {
    && 1 <= i < |v.messages|
    && (0 <= v.messages[i].id < |v.log| ==> !v.log[v.messages[i].id].injected && !v.log[v.messages[i].id].delta)
  }

  ghost predicate IsViewAt(view: seq<Message>, at: seq<int>, v: Live) {
    && |at| == |view| && Increasing(at) && (forall i :: i in at <==> IsVisible(v, i))
    && forall k :: 0 <= k < |at| ==> at[k] in at && view[k] == Unscaffold(v.messages[at[k]], v.scaffolded, v.raw)
  }

  /** Exactly the visible messages, in order, once each, whole but for the scaffold. */
  ghost predicate IsView(view: seq<Message>, v: Live) {
    exists at :: IsViewAt(view, at, v)
  }

  /** The indices below `upTo` that are not hidden. */
  ghost function ShownAt(hidden: set<int>, upTo: nat): seq<int> {
    if upTo <= 1 then [] else ShownAt(hidden, upTo - 1) + if upTo - 1 in hidden then [] else [upTo - 1]
  }

  lemma {:induction false} ShownExactly(hidden: set<int>, upTo: nat)
    ensures forall i :: i in ShownAt(hidden, upTo) <==> 1 <= i < upTo && i !in hidden
    ensures Increasing(ShownAt(hidden, upTo))
  {
    if upTo > 1 {
      ShownExactly(hidden, upTo - 1);
      var front := ShownAt(hidden, upTo - 1);
      forall j, k | 0 <= j < k < |ShownAt(hidden, upTo)|
        ensures ShownAt(hidden, upTo)[j] < ShownAt(hidden, upTo)[k]
      {
        assert front[j] in front;
      }
    }
  }

  lemma {:induction false} LiveIsShown(v: Live, hidden: set<int>, upTo: nat)
    requires upTo <= |v.messages|
    ensures var live, at := LiveCheckpoint(v.messages, hidden, v.scaffolded, v.raw, upTo), ShownAt(hidden, upTo);
      && |live| == |at|
      && forall k :: 0 <= k < |at| ==>
           1 <= at[k] < upTo && live[k] == Unscaffold(v.messages[at[k]], v.scaffolded, v.raw)
  {
    if upTo > 1 { LiveIsShown(v, hidden, upTo - 1); }
  }

  /** What is hidden by the marks at the indices is what was appended as hidden. */
  lemma HiddenIsAppendedHidden(v: Live, i: int)
    requires Inv(v) && 1 <= i < |v.messages|
    ensures i !in v.injected + v.delta <==> IsVisible(v, i)
  {
    assert MetadataAt(i, v.injected, v.delta, v.stamps) ==
      if v.messages[i].id >= 0 then v.log[v.messages[i].id] else NOTHING;
  }

  lemma LiveIsView(v: Live)
    requires Inv(v)
    ensures IsView(LiveCheckpoint(v.messages, v.injected + v.delta, v.scaffolded, v.raw, |v.messages|), v)
  {
    var hidden := v.injected + v.delta;
    var live := LiveCheckpoint(v.messages, hidden, v.scaffolded, v.raw, |v.messages|);
    var at := ShownAt(hidden, |v.messages|);
    ShownExactly(hidden, |v.messages|);
    LiveIsShown(v, hidden, |v.messages|);
    forall i
      ensures i in at <==> IsVisible(v, i)
    {
      if 1 <= i < |v.messages| { HiddenIsAppendedHidden(v, i); }
    }
    assert IsViewAt(live, at, v);
  }

  lemma FrontOf(a: seq<int>)
    requires Increasing(a) && a != []
    ensures var n := |a| - 1;
      && Increasing(a[..n]) && a == a[..n] + [a[n]] && a[n] in a
      && (forall i :: i in a ==> i <= a[n]) && (forall i :: i in a[..n] <==> i in a && i != a[n])
  {
    var n := |a| - 1;
    assert a == a[..n] + [a[n]];
    forall i | i in a
      ensures i <= a[n]
    {
      var j :| 0 <= j < |a| && a[j] == i;
    }
  }

  lemma BothAreEmpty(a: seq<int>, b: seq<int>)
    requires forall i :: i in a <==> i in b
    ensures a == [] <==> b == []
  {
    if a != [] {
      var x := a[0];
      assert x in a && x in b;
    }
    if b != [] {
      var y := b[0];
      assert y in b && y in a;
    }
  }

  lemma {:induction false} IncreasingIsOne(a: seq<int>, b: seq<int>)
    requires Increasing(a) && Increasing(b) && forall i :: i in a <==> i in b
    ensures a == b
  {
    BothAreEmpty(a, b);
    if a != [] {
      FrontOf(a);
      FrontOf(b);
      IncreasingIsOne(a[..|a| - 1], b[..|b| - 1]);
    }
  }

  /** There is one view. */
  lemma ViewIsOne(a: seq<Message>, b: seq<Message>, v: Live)
    requires IsView(a, v) && IsView(b, v)
    ensures a == b
  {
    var at :| IsViewAt(a, at, v);
    var bt :| IsViewAt(b, bt, v);
    IncreasingIsOne(at, bt);
  }

  /** A capture replaces the checkpoint by the view if a compaction was applied and the view carries the marker,
      and else leaves it alone. */
  ghost predicate Checkpoints(v: Live, before: seq<Message>, after: seq<Message>) {
    exists view :: IsView(view, v)
      && after == if v.checkpointActive && IsCompactedHistory(view) then view else before
  }

  datatype Step =
    | AppendStep(role: Role, hasBlocks: bool, text: string, injected: bool, delta: bool, stamp: Option<Time>)
    | CaptureStep(now: Time)
    | CompactStep(shaped: ShapedHistory, now: Time)

  function MarksOf(step: Step): seq<Entry> {
    if step.AppendStep? then [Entry(step.injected, step.delta, step.stamp)] else []
  }

  function SaidBy(step: Step, n: nat): seq<Message> {
    if step.AppendStep? then [Message(n, step.role, step.hasBlocks, step.text)] else []
  }

  /** What a sequence of steps appends. */
  ghost function Appended(steps: seq<Step>): seq<Entry> {
    if steps == [] then [] else Appended(steps[..|steps| - 1]) + MarksOf(steps[|steps| - 1])
  }

  /** And the messages themselves, where `n` were appended before. */
  ghost function SaidIn(steps: seq<Step>, n: nat): seq<Message> {
    if steps == [] then []
    else
      var before := SaidIn(steps[..|steps| - 1], n);
      before + SaidBy(steps[|steps| - 1], n + |before|)
  }

  lemma OneMoreStep(steps: seq<Step>, i: nat, log: seq<Entry>, said: seq<Message>)
    requires i < |steps|
    ensures log + Appended(steps[..i + 1]) == log + Appended(steps[..i]) + MarksOf(steps[i])
    ensures var before := said + SaidIn(steps[..i], |said|);
      said + SaidIn(steps[..i + 1], |said|) == before + SaidBy(steps[i], |before|)
  {
    assert steps[..i + 1][..i] == steps[..i];
  }

  /** The system prompt and earlier history, then the run's first user message. */
  method Begin(history: seq<Message>, user: Message, fromSystem: bool, raw: string, now: Time) returns (v: Sound)
    requires history != [] && forall i :: 0 <= i < |history| ==> history[i].id == i
    requires user.id == |history|
    ensures v.runStart == |history|
    ensures v.log == seq(|history|, _ => NOTHING) + [Entry(fromSystem, false, Some(now))]
    ensures v.said == v.messages == history + [user] && v.scaffolded == user.text && v.raw == raw
    ensures !v.checkpointActive
  {
    var n := |history|;
    var log := seq(n, _ => NOTHING) + [Entry(fromSystem, false, Some(now))];
    var injected: set<int> := if fromSystem then {n} else {};
    assert forall i :: MetadataAt(i, injected, {}, map[n := now]) == if i == n then log[n] else NOTHING;
    v := Live(history + [user], n, injected, {}, map[n := now], -1, false, [], [], [], user.text, raw,
              log, history + [user], n, 0);
  }

  /** An append with the marks that follow it: `markInjected`, `stampMessage`, or a delta's. */
  method Append(v: Sound, role: Role, hasBlocks: bool, text: string, injected: bool, delta: bool, stamp: Option<Time>)
    returns (v': Sound)
    ensures v'.log == v.log + [Entry(injected, delta, stamp)] && v'.runStart == v.runStart
    ensures v'.messages == v.messages + [Message(|v.log|, role, hasBlocks, text)]
    ensures v'.said == v.said + [Message(|v.log|, role, hasBlocks, text)]
    ensures v'.scaffolded == v.scaffolded && v'.raw == v.raw && v'.checkpointActive == v.checkpointActive
  {
    var m, at, e := Message(|v.log|, role, hasBlocks, text), |v.messages|, Entry(injected, delta, stamp);
    MarkedAt(at, v.injected, v.delta, v.stamps, e);
    AppendKeeps(v, m, e, Mark(v.injected, at, injected), Mark(v.delta, at, delta), Stamp(v.stamps, at, stamp));
    v' := v.(messages := v.messages + [m], log := v.log + [e], said := v.said + [m],
             injected := Mark(v.injected, at, injected), delta := Mark(v.delta, at, delta),
             stamps := Stamp(v.stamps, at, stamp));
  }

  /** What an agent loop publishes of its run. */
  class AgentLoop {
    var runMessages: seq<Message>
    var runInjected: seq<bool>
    var runStamps: seq<Time>
    var checkpoint: seq<Message>

    constructor ()
      ensures checkpoint == []
    {
      runMessages, runInjected, runStamps, checkpoint := [], [], [], [];
    }

    /** The published archive is exactly the non-delta messages appended since the run's first one, whole. */
    ghost predicate Archives(v: Live)
      reads this
    {
      && ArchiveOf(runMessages, runInjected, runStamps, v.log, v.runStart, |v.log|)
      && RowsSay(runMessages, v.said, v.scaffolded, v.raw)
    }

    /** The archive half of `captureRunMessages`. */
    method CaptureArchive(v: Sound, now: Time)
      modifies this`runMessages, this`runInjected, this`runStamps
      ensures Archives(v)
    {
      if v.tailOffset >= 0 {
        runMessages, runInjected, runStamps := TailRows(v.messages, v.tailOffset, v.injected, v.delta, v.stamps, now,
          v.prefix, v.flags, v.times, None, v.log, v.said, v.runStart, v.scaffolded, v.raw);
      } else {
        assert v.messages[v.runStart].id == v.runStart;
        var rows, flags, times := [], [], [];
        if v.offset >= 1 && v.offset < |v.messages| {
          rows, flags, times := TailRows(v.messages, v.offset, v.injected, v.delta, v.stamps, now,
            [], [], [], Some((v.scaffolded, v.raw)), v.log, v.said, v.runStart, v.scaffolded, v.raw);
        }
        runMessages, runInjected, runStamps := rows, flags, times;
      }
    }

    /** The checkpoint half of `captureRunMessages`, with `durableCompactionCheckpoint`: a shape without
        the compacted marker never becomes, or replaces, the durable checkpoint. */
    method CaptureCheckpoint(v: Sound)
      modifies this`checkpoint
      ensures Checkpoints(v, old(checkpoint), checkpoint)
    {
      LiveIsView(v);
      if !v.checkpointActive {
        return;
      }
      var live: seq<Message> := [];
      for i := 1 to |v.messages|
        invariant live == LiveCheckpoint(v.messages, v.injected + v.delta, v.scaffolded, v.raw, i)
      {
        if i in v.injected || i in v.delta {
          continue;
        }
        live := live + [Unscaffold(v.messages[i], v.scaffolded, v.raw)];
      }
      if IsCompactedHistory(live) {
        checkpoint := live;
      }
    }

    /** `captureRunMessages` */
    method Capture(v: Sound, now: Time)
      modifies this
      ensures Archives(v) && Checkpoints(v, old(checkpoint), checkpoint)
    {
      CaptureArchive(v, now);
      CaptureCheckpoint(v);
    }

    /** `applyShapedHistory`: the only replacement of the live slice. */
    method ApplyShapedHistory(v: Sound, shaped: ShapedHistory, now: Time)
      returns (v': Sound, dropped: int, applied: bool)
      requires ShapeOf(shaped, v.messages)
      modifies this
      ensures v'.log == v.log && v'.said == v.said && v'.runStart == v.runStart
      ensures v'.scaffolded == v.scaffolded && v'.raw == v.raw
      ensures applied <==> |shaped.messages| <= |v.messages| && shaped.messages != v.messages
                           && |shaped.messages| == |shaped.sources|
      ensures applied ==> v'.messages == shaped.messages && dropped == |v.messages| - |shaped.messages|
                          && v'.tailOffset == |shaped.messages| && v'.checkpointActive
      ensures if applied then Checkpoints(v, old(checkpoint), checkpoint) else checkpoint == old(checkpoint)
      ensures !applied ==> v' == v && dropped == 0
    {
      if |shaped.messages| > |v.messages| || shaped.messages == v.messages {
        return v, 0, false;
      }
      if |shaped.messages| != |shaped.sources| {
        return v, 0, false;
      }
      Capture(v, now);
      var offset, injected, delta, stamps := RemapCompactionMetadata(shaped.sources, v.offset, v.injected, v.delta,
          v.stamps);
      ReplaceKeeps(v, shaped, offset, injected, delta, stamps, runMessages, runInjected, runStamps);
      v' := Live(shaped.messages, offset, injected, delta, stamps, |shaped.messages|, true,
                 runMessages, runInjected, runStamps, v.scaffolded, v.raw, v.log, v.said, v.runStart, |v.log|);
      dropped, applied := |v.messages| - |shaped.messages|, true;
    }

    method Perform(v: Sound, step: Step) returns (v': Sound, applied: bool)
      modifies this
      ensures v'.runStart == v.runStart && v'.scaffolded == v.scaffolded && v'.raw == v.raw
      ensures v'.log == v.log + MarksOf(step) && v'.said == v.said + SaidBy(step, |v.said|)
      ensures v'.checkpointActive <==> v.checkpointActive || applied
      ensures checkpoint == old(checkpoint) || IsCompactedHistory(checkpoint)
    {
      v', applied := v, false;
      match step {
        case AppendStep(role, hasBlocks, text, injected, delta, stamp) =>
          v' := Append(v, role, hasBlocks, text, injected, delta, stamp);
        case CaptureStep(t) => Capture(v, t);
        case CompactStep(shaped, t) =>
          // Shaping keeps its promise, so a shape that breaks it is never offered.
          if ShapeOf(shaped, v.messages) {
            var dropped;
            v', dropped, applied := ApplyShapedHistory(v, shaped, t);
          }
      }
    }

    /** A whole run: whatever is appended, captured and compacted in between, and however often, the
        last capture publishes every non-delta message since the run's first user message, in order,
        once each and whole; and once a compaction was applied the durable checkpoint is the view of the
        final live messages, or still an earlier one if that does not carry the marker. */
    method Run(history: seq<Message>, user: Message, fromSystem: bool, raw: string, start: Time, steps: seq<Step>,
        now: Time)
      returns (v: Sound, compacted: bool)
      requires history != [] && forall i :: 0 <= i < |history| ==> history[i].id == i
      requires user.id == |history|
      requires checkpoint == []
      modifies this
      ensures v.runStart == |history| && v.scaffolded == user.text && v.raw == raw
      ensures v.log == seq(|history|, _ => NOTHING) + [Entry(fromSystem, false, Some(start))] + Appended(steps)
      ensures v.said == history + [user] + SaidIn(steps, |history| + 1)
      ensures Archives(v)
      ensures runMessages != [] && runMessages[0] == if user.role == User then user.(text := raw) else user
      ensures v.checkpointActive <==> compacted
      ensures exists before :: (before == [] || IsCompactedHistory(before)) && Checkpoints(v, before, checkpoint)
      ensures checkpoint == [] || IsCompactedHistory(checkpoint)
      ensures Follows(v.messages, v.log, v.injected, v.delta, v.stamps)
          && OffsetFollows(v.messages, v.runStart, v.offset)
    {
      v := Begin(history, user, fromSystem, raw, start);
      compacted := false;
      ghost var log, said := v.log, v.said;
      for i := 0 to |steps|
        invariant v.runStart == |history| && v.scaffolded == user.text && v.raw == raw
        invariant v.log == log + Appended(steps[..i]) && v.said == said + SaidIn(steps[..i], |said|)
        invariant v.checkpointActive <==> compacted
        invariant checkpoint == [] || IsCompactedHistory(checkpoint)
      {
        OneMoreStep(steps, i, log, said);
        var applied;
        v, applied := Perform(v, steps[i]);
        compacted := compacted || applied;
      }
      assert steps[..|steps|] == steps;
      ghost var before := checkpoint;
      Capture(v, now);
      FirstRow(runMessages, runInjected, runStamps, v.log, v.runStart, |v.log|);
      OnlyTheScaffoldChanges(user, v.scaffolded, v.raw);
      assert v.said[v.runStart] == user;
    }
  }
}

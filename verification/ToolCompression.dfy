/** Tiered compression of old tool results.  The newest results stay whole, older ones are summarised or
    cut (tier 2), the oldest are reduced to a line (tier 1).  A block is rewritten once and then keeps its
    bytes, because the provider's prompt cache matches prefixes. */
module ToolCompression {
  import opened Strings
  import opened Wrappers

  datatype Nested = NestedText(text: string) | NestedImage(source: nat) | NestedOther(what: nat)

  datatype ResultContent = Plain(text: string) | Parts(parts: seq<Nested>)

  datatype Block =
    | TextBlock(text: string)
    | ToolUse(id: string, name: string, input: string)
    | ToolResult(useId: string, content: ResultContent, isError: bool, tier: nat)
    | OtherBlock(what: nat)

  datatype Role = User | Assistant | System

  datatype Content = Text(text: string) | Blocks(blocks: seq<Block>)

  datatype Message = Message(role: Role, content: Content)

  datatype Call = Call(name: string, args: string)

  const TIER1_THRESHOLD := 20
  const MIN_CHARS := 2000
  const MAX_PER_PASS := 2
  const MARKER := "[micro-compact] "

  /** One pass: its parameters, whether there is a completer and what its attempts answer (`None` is a
      failure), and the text format, whose pattern matching is not modelled. */
  datatype Pass = Pass(
    keepRecent: nat, maxChars: nat, completer: bool, summaries: seq<Option<string>>,
    squeeze: (string, nat) -> string, textTools: string -> seq<string>)

  predicate Usable(p: Pass) {
    |p.summaries| == MAX_PER_PASS
  }

  // ---- reading messages ----

  function PartsText(parts: seq<Nested>): string {
    if parts == [] then ""
    else (if parts[0].NestedText? then parts[0].text else "") + PartsText(parts[1..])
  }

  function ResultText(c: ResultContent): string {
    match c case Plain(t) => t case Parts(ps) => PartsText(ps)
  }

  function BlocksText(bs: seq<Block>): string {
    if bs == [] then ""
    else
      (match bs[0]
       case TextBlock(t) => t
       case ToolResult(_, c, _, _) => ResultText(c)
       case _ => "") + BlocksText(bs[1..])
  }

  function TextOf(c: Content): string {
    match c case Text(t) => t case Blocks(bs) => BlocksText(bs)
  }

  predicate HasBlocks(c: Content) {
    c.Blocks? && c.blocks != []
  }

  predicate LooksLikeToolText(text: string) {
    (Contains(text, "<tool_exec ") && Contains(text, "</tool_exec>"))
    || (Contains(text, "I called ") && (Contains(text, "\n\nResult:\n") || Contains(text, "\n\nError: ")))
  }

  predicate NativeResult(m: Message) {
    m.role.User? && HasBlocks(m.content) && exists b: Block :: b in m.content.blocks && b.ToolResult?
  }

  lemma NativeIff(m: Message)
    ensures NativeResult(m) <==>
      m.role.User? && m.content.Blocks? && exists i :: 0 <= i < |m.content.blocks| && m.content.blocks[i].ToolResult?
  {
    if m.role.User? && m.content.Blocks? {
      if i :| 0 <= i < |m.content.blocks| && m.content.blocks[i].ToolResult? {
        assert m.content.blocks[i] in m.content.blocks;
      }
    }
  }

  predicate TextResult(m: Message) {
    m.role.Assistant? && LooksLikeToolText(TextOf(m.content))
  }

  predicate HoldsResult(m: Message) {
    TextResult(m) || NativeResult(m)
  }

  function ClipArgs(input: string): string {
    if |input| > 100 then input[..100] + "..." else input
  }

  function BlockCalls(bs: seq<Block>): map<string, Call> {
    if bs == [] then map[]
    else
      var last := bs[|bs| - 1];
      var before := BlockCalls(bs[..|bs| - 1]);
      if last.ToolUse? && last.id != "" then before[last.id := Call(last.name, ClipArgs(last.input))] else before
  }

  /** The calls by id; a later call of the same id wins. */
  function CallMap(ms: seq<Message>): map<string, Call> {
    if ms == [] then map[]
    else
      var last := ms[|ms| - 1];
      var before := CallMap(ms[..|ms| - 1]);
      if last.role.Assistant? && HasBlocks(last.content) then before + BlockCalls(last.content.blocks) else before
  }

  // ---- what the map maps an id to ----

  predicate Uses(bs: seq<Block>, i: int, id: string) {
    0 <= i < |bs| && bs[i].ToolUse? && bs[i].id == id && id != ""
  }

  /** The last tool use with that id in these blocks. */
  predicate LastUse(bs: seq<Block>, i: int, id: string) {
    Uses(bs, i, id) && forall k :: i < k < |bs| ==> !Uses(bs, k, id)
  }

  predicate UsedIn(bs: seq<Block>, id: string) {
    exists i :: 0 <= i < |bs| && Uses(bs, i, id)
  }

  predicate CalledIn(m: Message, id: string) {
    m.role.Assistant? && m.content.Blocks? && UsedIn(m.content.blocks, id)
  }

  /** The last call with that id in the history: block `i` of message `j`. */
  predicate LastCall(ms: seq<Message>, j: int, i: int, id: string) {
    && 0 <= j < |ms| && ms[j].role.Assistant? && ms[j].content.Blocks? && LastUse(ms[j].content.blocks, i, id)
    && forall k :: j < k < |ms| ==> !CalledIn(ms[k], id)
  }

  predicate Called(ms: seq<Message>, id: string) {
    exists j :: 0 <= j < |ms| && CalledIn(ms[j], id)
  }

  lemma OneMoreUse(bs: seq<Block>, last: Block, id: string)
    ensures UsedIn(bs + [last], id) <==> UsedIn(bs, id) || (last.ToolUse? && last.id == id && id != "")
  {
    var all := bs + [last];
    if UsedIn(bs, id) {
      var i :| 0 <= i < |bs| && Uses(bs, i, id);
      assert all[i] == bs[i];
      assert Uses(all, i, id);
    }
    assert all[|bs|] == last;
    if last.ToolUse? && last.id == id && id != "" { assert Uses(all, |bs|, id); }
    if UsedIn(all, id) {
      var i :| 0 <= i < |all| && Uses(all, i, id);
      if i < |bs| {
        assert all[i] == bs[i];
        assert Uses(bs, i, id);
      }
    }
  }

  lemma {:induction false} BlockCallsIff(bs: seq<Block>, id: string)
    ensures id in BlockCalls(bs) <==> UsedIn(bs, id)
  {
    if bs != [] {
      var init, last := bs[..|bs| - 1], bs[|bs| - 1];
      BlockCallsIff(init, id);
      OneMoreUse(init, last, id);
      assert init + [last] == bs;
    }
  }

  lemma {:induction false} BlockCallsLast(bs: seq<Block>, i: int, id: string)
    requires LastUse(bs, i, id)
    ensures id in BlockCalls(bs) && BlockCalls(bs)[id].name == bs[i].name
    ensures |bs[i].input| <= 100 ==> BlockCalls(bs)[id].args == bs[i].input
    ensures |bs[i].input| > 100 ==> BlockCalls(bs)[id].args == bs[i].input[..100] + "..."
  {
    if i < |bs| - 1 {
      var init := bs[..|bs| - 1];
      assert !Uses(bs, |bs| - 1, id);
      forall k | i < k < |init|
        ensures !Uses(init, k, id)
      {
        assert !Uses(bs, k, id);
      }
      BlockCallsLast(init, i, id);
    }
  }

  lemma OneMoreCall(ms: seq<Message>, last: Message, id: string)
    ensures Called(ms + [last], id) <==> Called(ms, id) || CalledIn(last, id)
  {
    var all := ms + [last];
    assert all[|ms|] == last;
    if Called(ms, id) {
      var j :| 0 <= j < |ms| && CalledIn(ms[j], id);
      assert CalledIn(all[j], id);
    }
  }

  /** The ids in the map are exactly the nonempty ones of the tool uses in assistant messages. */
  lemma {:induction false} CallMapIff(ms: seq<Message>, id: string)
    ensures id in CallMap(ms) <==> Called(ms, id)
  {
    if ms != [] {
      var init, last := ms[..|ms| - 1], ms[|ms| - 1];
      CallMapIff(init, id);
      OneMoreCall(init, last, id);
      assert init + [last] == ms;
      if last.content.Blocks? { BlockCallsIff(last.content.blocks, id); }
    }
  }

  /** An id maps to the last call that carries it: its tool, and its input, cut after a hundred characters. */
  lemma {:induction false} CallMapIsLast(ms: seq<Message>, j: int, i: int, id: string)
    requires LastCall(ms, j, i, id)
    ensures id in CallMap(ms) && CallMap(ms)[id].name == ms[j].content.blocks[i].name
    ensures var input := ms[j].content.blocks[i].input;
      CallMap(ms)[id].args == if |input| <= 100 then input else input[..100] + "..."
  {
    var init, last := ms[..|ms| - 1], ms[|ms| - 1];
    if j < |init| {
      assert !CalledIn(last, id);
      forall k | j < k < |init|
        ensures !CalledIn(init[k], id)
      {
        assert init[k] == ms[k];
      }
      CallMapIsLast(init, j, i, id);
      if last.role.Assistant? && HasBlocks(last.content) { BlockCallsIff(last.content.blocks, id); }
    } else {
      BlockCallsLast(last.content.blocks, i, id);
    }
  }

  function NameOf(calls: map<string, Call>, id: string): string {
    if id in calls then calls[id].name else "unknown"
  }

  predicate FloorTool(name: string) {
    name in {"file_read", "grep", "glob", "directory_list"} || HasPrefix(name, "browser_")
  }

  predicate SkipTool(name: string) {
    name in {"think", "cloud_delegate"} || FloorTool(name)
  }

  predicate HoldsFloorResult(m: Message, calls: map<string, Call>) {
    m.role.User? && HasBlocks(m.content)
    && exists b: Block :: b in m.content.blocks && b.ToolResult? && b.useId in calls && FloorTool(calls[b.useId].name)
  }

  predicate HasFloorTool(m: Message, calls: map<string, Call>, p: Pass) {
    var text := TextOf(m.content);
    HoldsFloorResult(m, calls)
    || ((Contains(text, "<tool_exec ") || Contains(text, "I called "))
        && exists t :: t in p.textTools(text) && FloorTool(t))
  }

  // ---- rewriting one block ----

  function Notice(dropped: nat): string {
    "\n\n[... truncated " + Itoa(dropped) + " chars ...]\n\n"
  }

  function TruncateHeadTail(s: string, maxChars: nat): string {
    if |s| <= maxChars then s else s[..maxChars * 3 / 4] + Notice(|s| - maxChars) + s[|s| - maxChars / 4..]
  }

  function ContentLength(c: ResultContent): nat {
    |ResultText(c)|
  }

  function StripBlock(b: Block, calls: map<string, Call>): Block {
    if !b.ToolResult? || b.tier != 0 then b
    else
      var args := if b.useId in calls then calls[b.useId].args else "";
      var meta := "[" + NameOf(calls, b.useId) + " called with " + args + "] \U{2192} [result: "
                  + Itoa(ContentLength(b.content)) + " chars, snipped]";
      b.(content := Plain(meta), tier := 1)
  }

  function ClipNested(n: Nested, maxChars: nat): Nested {
    match n
    case NestedText(t) => NestedText(TruncateHeadTail(t, maxChars))
    case NestedImage(_) => NestedText("[image removed to save context]")
    case NestedOther(_) => n
  }

  function Clip(c: ResultContent, maxChars: nat): ResultContent {
    match c
    case Plain(t) => Plain(TruncateHeadTail(t, maxChars))
    case Parts(ps) => Parts(seq(|ps|, i requires 0 <= i < |ps| => ClipNested(ps[i], maxChars)))
  }

  predicate Summarises(b: Block, calls: map<string, Call>, p: Pass, attempts: nat) {
    b.ToolResult? && p.completer && |ResultText(b.content)| > MIN_CHARS
    && !HasPrefix(ResultText(b.content), MARKER) && attempts < MAX_PER_PASS && !SkipTool(NameOf(calls, b.useId))
  }

  datatype Tier2 = Tier2(block: Block, attempts: nat)

  function Tier2Block(b: Block, calls: map<string, Call>, p: Pass, attempts: nat): Tier2
    requires Usable(p)
  {
    if !b.ToolResult? || b.tier != 0 then Tier2(b, attempts)
    else if Summarises(b, calls, p, attempts) then
      Tier2(if p.summaries[attempts].Some?
            then b.(content := Plain(MARKER + p.summaries[attempts].value), tier := 2)
            else b.(content := Clip(b.content, p.maxChars), tier := 2), attempts + 1)
    else Tier2(b.(content := Clip(b.content, p.maxChars), tier := 2), attempts)
  }

  // ---- rewriting one message ----

  datatype Blocks2 = Blocks2(blocks: seq<Block>, attempts: nat)

  function Tier2Blocks(bs: seq<Block>, calls: map<string, Call>, p: Pass, attempts: nat): (r: Blocks2)
    requires Usable(p)
    ensures |r.blocks| == |bs|
  {
    if bs == [] then Blocks2([], attempts)
    else
      var before := Tier2Blocks(bs[..|bs| - 1], calls, p, attempts);
      var last := Tier2Block(bs[|bs| - 1], calls, p, before.attempts);
      Blocks2(before.blocks + [last.block], last.attempts)
  }

  function Strip(bs: seq<Block>, calls: map<string, Call>): seq<Block> {
    seq(|bs|, i requires 0 <= i < |bs| => StripBlock(bs[i], calls))
  }

  datatype Aged = Aged(message: Message, attempts: nat)

  /** `dist`: how many messages with results are newer. */
  function Age(m: Message, dist: nat, calls: map<string, Call>, p: Pass, attempts: nat): Aged
    requires Usable(p)
  {
    if dist >= TIER1_THRESHOLD && !HasFloorTool(m, calls, p) then
      if m.role.User? && HasBlocks(m.content)
      then Aged(m.(content := Blocks(Strip(m.content.blocks, calls))), attempts)
      else Aged(m.(content := Text(p.squeeze(TextOf(m.content), 50))), attempts)
    else if m.role.User? && HasBlocks(m.content) then
      var r := Tier2Blocks(m.content.blocks, calls, p, attempts);
      Aged(m.(content := Blocks(r.blocks)), r.attempts)
    else
      var squeezed := p.squeeze(TextOf(m.content), p.maxChars);
      Aged(if squeezed != TextOf(m.content) then m.(content := Text(squeezed)) else m, attempts)
  }

  // ---- one pass ----

  function Trues(flags: seq<bool>): (r: seq<nat>)
    ensures forall k :: 0 <= k < |r| ==> r[k] < |flags|
  {
    if flags == [] then []
    else
      var before := Trues(flags[..|flags| - 1]);
      if flags[|flags| - 1] then before + [|flags| - 1] else before
  }

  function ResultFlags(ms: seq<Message>): (r: seq<bool>)
    ensures |r| == |ms| && forall k :: 0 <= k < |ms| ==> r[k] == HoldsResult(ms[k])
  {
    seq(|ms|, i requires 0 <= i < |ms| => HoldsResult(ms[i]))
  }

  function ResultIndices(ms: seq<Message>): (r: seq<nat>)
    ensures forall k :: 0 <= k < |r| ==> r[k] < |ms|
  {
    Trues(ResultFlags(ms))
  }

  datatype Progress = Progress(messages: seq<Message>, attempts: nat)

  /** After the first `i` messages that hold results. */
  function Compress(ms: seq<Message>, indices: seq<nat>, calls: map<string, Call>, p: Pass, i: nat): (r: Progress)
    requires Usable(p) && i <= |indices| && forall k :: 0 <= k < |indices| ==> indices[k] < |ms|
    ensures |r.messages| == |ms|
  {
    if i == 0 then Progress(ms, 0)
    else
      var before := Compress(ms, indices, calls, p, i - 1);
      var dist := |indices| - i;
      if dist < p.keepRecent then before
      else
        var j := indices[i - 1];
        var r := Age(before.messages[j], dist, calls, p, before.attempts);
        Progress(before.messages[j := r.message], r.attempts)
  }

  function Run(ms: seq<Message>, p: Pass): Progress
    requires Usable(p)
  {
    Compress(ms, ResultIndices(ms), CallMap(ms), p, |ResultIndices(ms)|)
  }

  // ---- what a pass keeps ----

  /** A block stays, or a result nobody has rewritten yet is rewritten and marked, with its identity. */
  predicate Evolves(b: Block, c: Block) {
    c == b || (b.ToolResult? && c.ToolResult? && b.tier == 0 && 1 <= c.tier <= 2
               && c.useId == b.useId && c.isError == b.isError)
  }

  predicate BlocksEvolve(bs: seq<Block>, cs: seq<Block>) {
    |bs| == |cs| && forall i :: 0 <= i < |bs| ==> Evolves(bs[i], cs[i])
  }

  /** What happens to a message that does not take the text path. */
  predicate MessageEvolves(m: Message, n: Message) {
    m == n || (m.role.User? && n.role.User? && m.content.Blocks? && n.content.Blocks?
               && BlocksEvolve(m.content.blocks, n.content.blocks))
  }

  /** Rewritten to that tier, unless it already was rewritten or is no result. */
  predicate MarkedAs(b: Block, c: Block, tier: nat) {
    Evolves(b, c) && (b.ToolResult? && b.tier == 0 ==> c.tier == tier) && (c.ToolResult? ==> c.tier != 0)
  }

  predicate AllMarkedAs(bs: seq<Block>, cs: seq<Block>, tier: nat) {
    |bs| == |cs| && forall i :: 0 <= i < |bs| ==> MarkedAs(bs[i], cs[i], tier)
  }

  lemma Tier2BlockEvolves(b: Block, calls: map<string, Call>, p: Pass, attempts: nat)
    requires Usable(p) && attempts <= MAX_PER_PASS
    ensures var r := Tier2Block(b, calls, p, attempts);
      MarkedAs(b, r.block, 2) && attempts <= r.attempts <= MAX_PER_PASS && (!p.completer ==> r.attempts == attempts)
  {
  }

  lemma OneMoreMarked(bs: seq<Block>, cs: seq<Block>, b: Block, c: Block, tier: nat)
    requires AllMarkedAs(bs, cs, tier) && MarkedAs(b, c, tier)
    ensures AllMarkedAs(bs + [b], cs + [c], tier)
  {
  }

  lemma {:induction false} Tier2BlocksEvolve(bs: seq<Block>, calls: map<string, Call>, p: Pass, attempts: nat)
    requires Usable(p) && attempts <= MAX_PER_PASS
    ensures var r := Tier2Blocks(bs, calls, p, attempts);
      AllMarkedAs(bs, r.blocks, 2) && attempts <= r.attempts <= MAX_PER_PASS
          && (!p.completer ==> r.attempts == attempts)
  {
    if bs != [] {
      var init, last := bs[..|bs| - 1], bs[|bs| - 1];
      var before := Tier2Blocks(init, calls, p, attempts);
      Tier2BlocksEvolve(init, calls, p, attempts);
      Tier2BlockEvolves(last, calls, p, before.attempts);
      OneMoreMarked(init, before.blocks, last, Tier2Block(last, calls, p, before.attempts).block, 2);
      assert init + [last] == bs;
    }
  }

  lemma StripMarks(bs: seq<Block>, calls: map<string, Call>)
    ensures AllMarkedAs(bs, Strip(bs, calls), 1)
  {
    forall i | 0 <= i < |bs|
      ensures MarkedAs(bs[i], StripBlock(bs[i], calls), 1)
    {
    }
  }

  /** The tier a pass gives to a result nobody has rewritten. */
  function TierAt(m: Message, dist: nat, calls: map<string, Call>, p: Pass): nat {
    if dist >= TIER1_THRESHOLD && !HasFloorTool(m, calls, p) then 1 else 2
  }

  /** A native result message keeps its shape and every result block in it that was not rewritten before is
      marked with the tier for its age. */
  lemma AgeMarks(m: Message, dist: nat, calls: map<string, Call>, p: Pass, attempts: nat)
    requires Usable(p) && attempts <= MAX_PER_PASS && NativeResult(m)
    ensures var r := Age(m, dist, calls, p, attempts);
      r.message.role == m.role && r.message.content.Blocks? && attempts <= r.attempts <= MAX_PER_PASS
      && AllMarkedAs(m.content.blocks, r.message.content.blocks, TierAt(m, dist, calls, p))
  {
    if TierAt(m, dist, calls, p) == 1 {
      StripMarks(m.content.blocks, calls);
    } else {
      Tier2BlocksEvolve(m.content.blocks, calls, p, attempts);
    }
  }

  /** Every result block was rewritten. */
  predicate Settled(m: Message) {
    m.content.Blocks? && forall i ::
        0 <= i < |m.content.blocks| ==> (m.content.blocks[i].ToolResult? ==> m.content.blocks[i].tier != 0)
  }

  /** So it evolves, no block falls to tier 1 if it holds the result of a floor tool, and every result block
      in it ends up marked. */
  lemma AgeEvolves(m: Message, dist: nat, calls: map<string, Call>, p: Pass, attempts: nat)
    requires Usable(p) && attempts <= MAX_PER_PASS && NativeResult(m)
    ensures var r := Age(m, dist, calls, p, attempts);
      MessageEvolves(m, r.message) && r.message.content.Blocks? && attempts <= r.attempts <= MAX_PER_PASS
      && (HoldsFloorResult(m, calls) ==>
           forall i | 0 <= i < |m.content.blocks| ::
               m.content.blocks[i].ToolResult? && m.content.blocks[i].tier == 0 ==>
             r.message.content.blocks[i].tier == 2)
      && Settled(r.message)
  {
    AgeMarks(m, dist, calls, p, attempts);
    var r := Age(m, dist, calls, p, attempts);
    assert forall i :: 0 <= i < |m.content.blocks| ==>
      MarkedAs(m.content.blocks[i], r.message.content.blocks[i], TierAt(m, dist, calls, p));
  }

  lemma AgeTier(m: Message, dist: nat, calls: map<string, Call>, p: Pass, attempts: nat, i: nat)
    requires Usable(p) && attempts <= MAX_PER_PASS && NativeResult(m) && i < |m.content.blocks|
    requires m.content.blocks[i].ToolResult? && m.content.blocks[i].tier == 0
    ensures var n := Age(m, dist, calls, p, attempts).message;
      n.content.Blocks? && i < |n.content.blocks| && n.content.blocks[i].ToolResult?
      && n.content.blocks[i].tier == TierAt(m, dist, calls, p)
  {
    AgeMarks(m, dist, calls, p, attempts);
    assert MarkedAs(m.content.blocks[i], Age(m, dist, calls, p, attempts).message.content.blocks[i],
        TierAt(m, dist, calls, p));
  }

  /** A result a summary is asked for while the pass has an attempt left: long, not a summary already, and
      not of a tool whose results are never summarised. */
  predicate WantsSummary(b: Block, calls: map<string, Call>, p: Pass) {
    && p.completer && b.ToolResult? && b.tier == 0
    && |ResultText(b.content)| > 2000 && !HasPrefix(ResultText(b.content), "[micro-compact] ")
    && NameOf(calls, b.useId) !in {"think", "cloud_delegate", "file_read", "grep", "glob", "directory_list"}
    && !HasPrefix(NameOf(calls, b.useId), "browser_")
  }

  function Wanting(bs: seq<Block>, calls: map<string, Call>, p: Pass): nat {
    if bs == [] then 0
    else Wanting(bs[..|bs| - 1], calls, p) + if WantsSummary(bs[|bs| - 1], calls, p) then 1 else 0
  }

  /** The attempts made when `n` results wanted a summary. */
  function Made(n: nat): nat {
    if n < 2 then n else 2
  }

  /** What tier 2 makes of a result when `made` attempts were made before. */
  function Shortened(b: Block, calls: map<string, Call>, p: Pass, made: nat): Block
    requires Usable(p) && b.ToolResult?
  {
    if WantsSummary(b, calls, p) && made < 2 && p.summaries[made].Some?
    then b.(content := Plain("[micro-compact] " + p.summaries[made].value), tier := 2)
    else b.(content := Clip(b.content, p.maxChars), tier := 2)
  }

  lemma Tier2BlockIs(b: Block, calls: map<string, Call>, p: Pass, made: nat)
    requires Usable(p) && b.ToolResult? && b.tier == 0
    ensures Tier2Block(b, calls, p, made).block == Shortened(b, calls, p, made)
  {
  }

  lemma {:induction false} AttemptsAreMade(bs: seq<Block>, calls: map<string, Call>, p: Pass, n: nat)
    requires Usable(p)
    ensures Tier2Blocks(bs, calls, p, Made(n)).attempts == Made(n + Wanting(bs, calls, p))
  {
    if bs != [] { AttemptsAreMade(bs[..|bs| - 1], calls, p, n); }
  }

  lemma LastOfTier2(bs: seq<Block>, calls: map<string, Call>, p: Pass, attempts: nat)
    requires Usable(p) && bs != []
    ensures var made := Tier2Blocks(bs[..|bs| - 1], calls, p, attempts).attempts;
      Tier2Blocks(bs, calls, p, attempts).blocks[|bs| - 1] == Tier2Block(bs[|bs| - 1], calls, p, made).block
  {
  }

  lemma EarlierOfTier2(bs: seq<Block>, calls: map<string, Call>, p: Pass, attempts: nat, i: nat)
    requires Usable(p) && i < |bs| - 1
    ensures Tier2Blocks(bs, calls, p, attempts).blocks[i] ==
        Tier2Blocks(bs[..|bs| - 1], calls, p, attempts).blocks[i]
  {
  }

  /** Block `i` is what `Shortened` makes of it when `n` results wanted a summary before these blocks. */
  predicate ShortenedAt(bs: seq<Block>, cs: seq<Block>, calls: map<string, Call>, p: Pass, n: nat, i: nat)
    requires Usable(p)
  {
    && i < |bs| == |cs| && bs[i].ToolResult?
    && cs[i] == Shortened(bs[i], calls, p, Made(n + Wanting(bs[..i], calls, p)))
  }

  lemma LastShortened(bs: seq<Block>, calls: map<string, Call>, p: Pass, n: nat)
    requires Usable(p) && bs != [] && bs[|bs| - 1].ToolResult? && bs[|bs| - 1].tier == 0
    ensures ShortenedAt(bs, Tier2Blocks(bs, calls, p, Made(n)).blocks, calls, p, n, |bs| - 1)
  {
    var init := bs[..|bs| - 1];
    AttemptsAreMade(init, calls, p, n);
    LastOfTier2(bs, calls, p, Made(n));
    Tier2BlockIs(bs[|bs| - 1], calls, p, Made(n + Wanting(init, calls, p)));
  }

  lemma StillShortened(bs: seq<Block>, cs: seq<Block>, ds: seq<Block>, calls: map<string, Call>, p: Pass, n: nat,
      i: nat)
    requires Usable(p) && i < |bs| - 1 && |ds| == |bs| && ShortenedAt(bs[..|bs| - 1], cs, calls, p, n, i)
    requires ds[i] == cs[i]
    ensures ShortenedAt(bs, ds, calls, p, n, i)
  {
    assert bs[..|bs| - 1][..i] == bs[..i];
  }

  /** What tier 2 leaves of a result: the first results of a pass that want a summary get one each, as long
      as its attempts last and answer, and every other keeps its own content, cut. */
  lemma {:induction false} Tier2Content(bs: seq<Block>, calls: map<string, Call>, p: Pass, n: nat, i: nat)
    requires Usable(p) && i < |bs| && bs[i].ToolResult? && bs[i].tier == 0
    ensures ShortenedAt(bs, Tier2Blocks(bs, calls, p, Made(n)).blocks, calls, p, n, i)
  {
    if i < |bs| - 1 {
      var init := bs[..|bs| - 1];
      Tier2Content(init, calls, p, n, i);
      EarlierOfTier2(bs, calls, p, Made(n), i);
      StillShortened(bs, Tier2Blocks(init, calls, p, Made(n)).blocks, Tier2Blocks(bs, calls, p, Made(n)).blocks,
                     calls, p, n, i);
    } else {
      LastShortened(bs, calls, p, n);
    }
  }

  lemma {:induction false} SettledTier2(bs: seq<Block>, calls: map<string, Call>, p: Pass, attempts: nat)
    requires Usable(p) && forall i :: 0 <= i < |bs| ==> (bs[i].ToolResult? ==> bs[i].tier != 0)
    ensures Tier2Blocks(bs, calls, p, attempts) == Blocks2(bs, attempts)
  {
    if bs != [] {
      SettledTier2(bs[..|bs| - 1], calls, p, attempts);
    }
  }

  /** A later pass, whatever its parameters, leaves a rewritten message as it is and asks for nothing. */
  lemma SettledStays(m: Message, dist: nat, calls: map<string, Call>, p: Pass, attempts: nat)
    requires Usable(p) && NativeResult(m) && Settled(m)
    ensures Age(m, dist, calls, p, attempts) == Aged(m, attempts)
  {
    SettledTier2(m.content.blocks, calls, p, attempts);
    assert Strip(m.content.blocks, calls) == m.content.blocks;
  }

  // ---- one pass over the history ----

  lemma {:induction false} TruesAreOrdered(flags: seq<bool>)
    ensures forall a, b :: 0 <= a < b < |Trues(flags)| ==> Trues(flags)[a] < Trues(flags)[b]
    ensures forall j: nat :: j in Trues(flags) <==> j < |flags| && flags[j]
  {
    if flags != [] {
      TruesAreOrdered(flags[..|flags| - 1]);
    }
  }

  /** `ResultIndices` lists, in order, exactly the messages that hold results. */
  lemma IndicesAreOrdered(ms: seq<Message>)
    ensures var r := ResultIndices(ms);
      (forall a, b :: 0 <= a < b < |r| ==> r[a] < r[b])
      && (forall k :: 0 <= k < |r| ==> HoldsResult(ms[r[k]]))
      && (forall j: nat :: j < |ms| && HoldsResult(ms[j]) ==> j in r)
  {
    TruesAreOrdered(ResultFlags(ms));
    var r := ResultIndices(ms);
    forall k | 0 <= k < |r|
      ensures HoldsResult(ms[r[k]])
    {
      assert r[k] in Trues(ResultFlags(ms));
    }
  }

  ghost predicate AgedFrom(m: Message, n: Message, dist: nat, calls: map<string, Call>, p: Pass)
    requires Usable(p)
  {
    exists a: nat :: a <= MAX_PER_PASS && n == Age(m, dist, calls, p, a).message
  }

  lemma AgeCounts(m: Message, dist: nat, calls: map<string, Call>, p: Pass, attempts: nat)
    requires Usable(p) && attempts <= MAX_PER_PASS
    ensures attempts <= Age(m, dist, calls, p, attempts).attempts <= MAX_PER_PASS
    ensures !p.completer ==> Age(m, dist, calls, p, attempts).attempts == attempts
    ensures Age(m, dist, calls, p, attempts).message.role == m.role
  {
    if m.content.Blocks? { Tier2BlocksEvolve(m.content.blocks, calls, p, attempts); }
  }

  predicate Ascending(indices: seq<nat>, n: nat) {
    (forall k :: 0 <= k < |indices| ==> indices[k] < n)
    && (forall a, b :: 0 <= a < b < |indices| ==> indices[a] < indices[b])
  }

  /** After `i` indices: the old enough ones among them are aged, each once, and nothing else changed. */
  ghost predicate AgedUpTo(ms: seq<Message>, r: Progress, indices: seq<nat>, calls: map<string, Call>, p: Pass, i: nat)
    requires Usable(p) && Ascending(indices, |ms|)
  {
    && |r.messages| == |ms| && r.attempts <= MAX_PER_PASS && (!p.completer ==> r.attempts == 0)
    && (forall j :: 0 <= j < |ms| && j !in indices ==> r.messages[j] == ms[j])
    && (forall q {:trigger indices[q]} :: 0 <= q < |indices| ==>
         if q < i && |indices| - 1 - q >= p.keepRecent
         then AgedFrom(ms[indices[q]], r.messages[indices[q]], |indices| - 1 - q, calls, p)
         else r.messages[indices[q]] == ms[indices[q]])
  }

  lemma OneMoreAged(ms: seq<Message>, r: Progress, indices: seq<nat>, calls: map<string, Call>, p: Pass, i: nat,
      n: Message, attempts: nat)
    requires Usable(p) && 0 < i <= |indices| && Ascending(indices, |ms|)
    requires AgedUpTo(ms, r, indices, calls, p, i - 1) && |indices| - i >= p.keepRecent
    requires AgedFrom(ms[indices[i - 1]], n, |indices| - i, calls, p)
    requires attempts <= MAX_PER_PASS && (!p.completer ==> attempts == 0)
    ensures AgedUpTo(ms, Progress(r.messages[indices[i - 1] := n], attempts), indices, calls, p, i)
  {
    var r' := Progress(r.messages[indices[i - 1] := n], attempts);
    forall q | 0 <= q < |indices|
      ensures if q < i && |indices| - 1 - q >= p.keepRecent
        then AgedFrom(ms[indices[q]], r'.messages[indices[q]], |indices| - 1 - q, calls, p)
        else r'.messages[indices[q]] == ms[indices[q]]
    {
      if q != i - 1 {
        assert indices[q] != indices[i - 1];
        assert r'.messages[indices[q]] == r.messages[indices[q]];
      }
    }
  }

  lemma OneAged(ms: seq<Message>, r: Progress, indices: seq<nat>, calls: map<string, Call>, p: Pass, i: nat)
    requires Usable(p) && 0 < i <= |indices| && Ascending(indices, |ms|)
    requires AgedUpTo(ms, r, indices, calls, p, i - 1) && |indices| - i >= p.keepRecent
    ensures var aged := Age(r.messages[indices[i - 1]], |indices| - i, calls, p, r.attempts);
      AgedUpTo(ms, Progress(r.messages[indices[i - 1] := aged.message], aged.attempts), indices, calls, p, i)
  {
    var m := ms[indices[i - 1]];
    assert r.messages[indices[i - 1]] == m;
    var aged := Age(m, |indices| - i, calls, p, r.attempts);
    AgeCounts(m, |indices| - i, calls, p, r.attempts);
    assert AgedFrom(m, aged.message, |indices| - i, calls, p);
    OneMoreAged(ms, r, indices, calls, p, i, aged.message, aged.attempts);
  }

  lemma OneSkipped(ms: seq<Message>, r: Progress, indices: seq<nat>, calls: map<string, Call>, p: Pass, i: nat)
    requires Usable(p) && 0 < i <= |indices| && Ascending(indices, |ms|)
    requires AgedUpTo(ms, r, indices, calls, p, i - 1) && |indices| - i < p.keepRecent
    ensures AgedUpTo(ms, r, indices, calls, p, i)
  {
  }

  lemma {:induction false} CompressAges(ms: seq<Message>, indices: seq<nat>, calls: map<string, Call>, p: Pass, i: nat)
    requires Usable(p) && i <= |indices| && Ascending(indices, |ms|)
    ensures AgedUpTo(ms, Compress(ms, indices, calls, p, i), indices, calls, p, i)
  {
    if i > 0 {
      CompressAges(ms, indices, calls, p, i - 1);
      var before := Compress(ms, indices, calls, p, i - 1);
      if |indices| - i >= p.keepRecent {
        OneAged(ms, before, indices, calls, p, i);
      } else {
        OneSkipped(ms, before, indices, calls, p, i);
      }
    }
  }

  /** No block of a floor tool's message falls to a line. */
  predicate KeptFromTier1(m: Message, n: Message) {
    m.content.Blocks? && n.content.Blocks? && |n.content.blocks| == |m.content.blocks|
    && forall i :: 0 <= i < |m.content.blocks| ==>
         (|| n.content.blocks[i] == m.content.blocks[i]
          || !n.content.blocks[i].ToolResult?
          || n.content.blocks[i].tier == 2)
  }

  lemma AgedMessage(m: Message, n: Message, dist: nat, calls: map<string, Call>, p: Pass)
    requires Usable(p) && NativeResult(m) && AgedFrom(m, n, dist, calls, p)
    ensures MessageEvolves(m, n) && Settled(n)
    ensures HoldsFloorResult(m, calls) ==> KeptFromTier1(m, n)
  {
    var a: nat :| a <= MAX_PER_PASS && n == Age(m, dist, calls, p, a).message;
    AgeEvolves(m, dist, calls, p, a);
  }

  lemma AgedResult(m: Message, n: Message, dist: nat, calls: map<string, Call>, p: Pass)
    requires Usable(p) && AgedFrom(m, n, dist, calls, p)
    ensures n.role == m.role
    ensures NativeResult(m) ==> MessageEvolves(m, n) && Settled(n)
    ensures NativeResult(m) && HoldsFloorResult(m, calls) ==> KeptFromTier1(m, n)
  {
    var a: nat :| a <= MAX_PER_PASS && n == Age(m, dist, calls, p, a).message;
    AgeCounts(m, dist, calls, p, a);
    if NativeResult(m) { AgedMessage(m, n, dist, calls, p); }
  }

  lemma PassAges(ms: seq<Message>, p: Pass, q: nat)
    requires Usable(p) && q < |ResultIndices(ms)|
    ensures var j := ResultIndices(ms)[q];
      && HoldsResult(ms[j])
      && if q + p.keepRecent < |ResultIndices(ms)|
         then AgedFrom(ms[j], Run(ms, p).messages[j], |ResultIndices(ms)| - 1 - q, CallMap(ms), p)
         else Run(ms, p).messages[j] == ms[j]
  {
    IndicesAreOrdered(ms);
    CompressAges(ms, ResultIndices(ms), CallMap(ms), p, |ResultIndices(ms)|);
  }

  /** What one pass does to the `q`-th message that holds results, counting from the oldest. */
  lemma PassOnResult(ms: seq<Message>, p: Pass, q: nat)
    requires Usable(p) && q < |ResultIndices(ms)|
    ensures var j := ResultIndices(ms)[q]; var ns := Run(ms, p).messages;
      && HoldsResult(ms[j])
      && ns[j].role == ms[j].role
      && (q + p.keepRecent >= |ResultIndices(ms)| ==> ns[j] == ms[j])
      && (NativeResult(ms[j]) ==> MessageEvolves(ms[j], ns[j]))
      && (NativeResult(ms[j]) && HoldsFloorResult(ms[j], CallMap(ms)) ==> KeptFromTier1(ms[j], ns[j]))
      && (NativeResult(ms[j]) && q + p.keepRecent < |ResultIndices(ms)| ==> Settled(ns[j]))
  {
    var j, dist := ResultIndices(ms)[q], |ResultIndices(ms)| - 1 - q;
    var n := Run(ms, p).messages[j];
    PassAges(ms, p, q);
    if q + p.keepRecent < |ResultIndices(ms)| {
      AgedResult(ms[j], n, dist, CallMap(ms), p);
    }
  }

  /** The results that want a summary in the first `i` of the messages with results, as far as these are old
      enough to be shortened and not so old that they are reduced to a line. */
  function Wanted(ms: seq<Message>, indices: seq<nat>, calls: map<string, Call>, p: Pass, i: nat): nat
    requires i <= |indices| && Ascending(indices, |ms|)
  {
    if i == 0 then 0
    else
      var m, dist := ms[indices[i - 1]], |indices| - i;
      Wanted(ms, indices, calls, p, i - 1)
      + if dist >= p.keepRecent && m.role.User? && HasBlocks(m.content) && TierAt(m, dist, calls, p) == 2
        then Wanting(m.content.blocks, calls, p) else 0
  }

  lemma AgeMakes(m: Message, dist: nat, calls: map<string, Call>, p: Pass, n: nat)
    requires Usable(p)
    ensures Age(m, dist, calls, p, Made(n)).attempts ==
        Made(n + if m.role.User? && HasBlocks(m.content) && TierAt(m, dist, calls, p) == 2
                 then Wanting(m.content.blocks, calls, p) else 0)
  {
    if m.content.Blocks? { AttemptsAreMade(m.content.blocks, calls, p, n); }
  }

  lemma NotYetAged(ms: seq<Message>, indices: seq<nat>, calls: map<string, Call>, p: Pass, i: nat)
    requires Usable(p) && i < |indices| && Ascending(indices, |ms|)
    ensures Compress(ms, indices, calls, p, i).messages[indices[i]] == ms[indices[i]]
  {
    CompressAges(ms, indices, calls, p, i);
  }

  lemma OneMoreCompressed(ms: seq<Message>, indices: seq<nat>, calls: map<string, Call>, p: Pass, i: nat)
    requires Usable(p) && 0 < i <= |indices| && Ascending(indices, |ms|)
    requires Compress(ms, indices, calls, p, i - 1).messages[indices[i - 1]] == ms[indices[i - 1]]
    ensures var before := Compress(ms, indices, calls, p, i - 1).attempts;
      Compress(ms, indices, calls, p, i).attempts ==
        if |indices| - i < p.keepRecent then before
        else Age(ms[indices[i - 1]], |indices| - i, calls, p, before).attempts
    ensures |indices| - i >= p.keepRecent ==>
      Compress(ms, indices, calls, p, i).messages[indices[i - 1]] ==
        Age(ms[indices[i - 1]], |indices| - i, calls, p, Compress(ms, indices, calls, p, i - 1).attempts).message
  {
  }

  lemma OthersStay(ms: seq<Message>, indices: seq<nat>, calls: map<string, Call>, p: Pass, i: nat, q: nat)
    requires Usable(p) && q < i - 1 < |indices| && Ascending(indices, |ms|)
    ensures Compress(ms, indices, calls, p, i).messages[indices[q]] ==
        Compress(ms, indices, calls, p, i - 1).messages[indices[q]]
  {
    assert indices[q] != indices[i - 1];
  }

  lemma {:induction false} CompressMakes(ms: seq<Message>, indices: seq<nat>, calls: map<string, Call>, p: Pass, i: nat)
    requires Usable(p) && i <= |indices| && Ascending(indices, |ms|)
    ensures Compress(ms, indices, calls, p, i).attempts == Made(Wanted(ms, indices, calls, p, i))
  {
    if i > 0 {
      CompressMakes(ms, indices, calls, p, i - 1);
      NotYetAged(ms, indices, calls, p, i - 1);
      var m, dist, n := ms[indices[i - 1]], |indices| - i, Wanted(ms, indices, calls, p, i - 1);
      OneMoreCompressed(ms, indices, calls, p, i);
      AgeMakes(m, dist, calls, p, n);
    }
  }

  lemma {:induction false} CompressOnce(ms: seq<Message>, indices: seq<nat>, calls: map<string, Call>, p: Pass, i: nat,
      q: nat)
    requires Usable(p) && i <= |indices| && Ascending(indices, |ms|) && q < i && |indices| - 1 - q >= p.keepRecent
    ensures Compress(ms, indices, calls, p, i).messages[indices[q]] ==
        Age(ms[indices[q]], |indices| - 1 - q, calls, p, Made(Wanted(ms, indices, calls, p, q))).message
  {
    if q < i - 1 {
      CompressOnce(ms, indices, calls, p, i - 1, q);
      OthersStay(ms, indices, calls, p, i, q);
    } else {
      CompressMakes(ms, indices, calls, p, q);
      NotYetAged(ms, indices, calls, p, q);
      OneMoreCompressed(ms, indices, calls, p, i);
    }
  }

  lemma AgedOnce(ms: seq<Message>, p: Pass, q: nat)
    requires Usable(p) && q + p.keepRecent < |ResultIndices(ms)|
    ensures Ascending(ResultIndices(ms), |ms|)
    ensures var j := ResultIndices(ms)[q];
      Run(ms, p).messages[j] == Age(ms[j], |ResultIndices(ms)| - 1 - q, CallMap(ms), p,
                                    Made(Wanted(ms, ResultIndices(ms), CallMap(ms), p, q))).message
  {
    IndicesAreOrdered(ms);
    CompressOnce(ms, ResultIndices(ms), CallMap(ms), p, |ResultIndices(ms)|, q);
  }

  /** Which tier an old native result falls to, by how many result messages are newer. */
  lemma PassTier(ms: seq<Message>, p: Pass, q: nat, i: nat)
    requires Usable(p) && q + p.keepRecent < |ResultIndices(ms)| && NativeResult(ms[ResultIndices(ms)[q]])
    requires i < |ms[ResultIndices(ms)[q]].content.blocks|
    requires var b := ms[ResultIndices(ms)[q]].content.blocks[i]; b.ToolResult? && b.tier == 0
    ensures var j, dist := ResultIndices(ms)[q], |ResultIndices(ms)| - 1 - q;
      var n := Run(ms, p).messages[j];
      n.content.Blocks? && i < |n.content.blocks| && n.content.blocks[i].ToolResult?
      && n.content.blocks[i].tier == TierAt(ms[j], dist, CallMap(ms), p)
  {
    AgedOnce(ms, p, q);
    var made := Made(Wanted(ms, ResultIndices(ms), CallMap(ms), p, q));
    AgeTier(ms[ResultIndices(ms)[q]], |ResultIndices(ms)| - 1 - q, CallMap(ms), p, made, i);
  }

  /** The `i`-th block of the `q`-th message with results: a result nobody has rewritten, old enough. */
  predicate IsOldResult(ms: seq<Message>, p: Pass, q: nat, i: nat) {
    && Usable(p) && q + p.keepRecent < |ResultIndices(ms)|
    && var m := ms[ResultIndices(ms)[q]];
    NativeResult(m) && i < |m.content.blocks| && m.content.blocks[i].ToolResult? && m.content.blocks[i].tier == 0
  }

  lemma AgeOfTier2(m: Message, dist: nat, calls: map<string, Call>, p: Pass, attempts: nat)
    requires Usable(p) && m.role.User? && HasBlocks(m.content) && TierAt(m, dist, calls, p) == 2
    ensures Age(m, dist, calls, p, attempts).message.content ==
        Blocks(Tier2Blocks(m.content.blocks, calls, p, attempts).blocks)
  {
  }

  /** Over the whole pass: the first two results that want a summary, oldest first, get the two attempts. */
  lemma PassShortens(ms: seq<Message>, p: Pass, q: nat, i: nat)
    requires IsOldResult(ms, p, q, i)
    requires TierAt(ms[ResultIndices(ms)[q]], |ResultIndices(ms)| - 1 - q, CallMap(ms), p) == 2
    ensures Ascending(ResultIndices(ms), |ms|)
    ensures var j, calls := ResultIndices(ms)[q], CallMap(ms); var n := Run(ms, p).messages[j];
      n.content.Blocks?
      && ShortenedAt(ms[j].content.blocks, n.content.blocks, calls, p, Wanted(ms, ResultIndices(ms), calls, p, q), i)
  {
    AgedOnce(ms, p, q);
    var m, calls := ms[ResultIndices(ms)[q]], CallMap(ms);
    var n := Wanted(ms, ResultIndices(ms), calls, p, q);
    AgeOfTier2(m, |ResultIndices(ms)| - 1 - q, calls, p, Made(n));
    Tier2Content(m.content.blocks, calls, p, n, i);
  }

  /** And the pass makes as many attempts as results want a summary, up to two. */
  lemma PassAttempts(ms: seq<Message>, p: Pass)
    requires Usable(p)
    ensures Ascending(ResultIndices(ms), |ms|)
    ensures Run(ms, p).attempts == Made(Wanted(ms, ResultIndices(ms), CallMap(ms), p, |ResultIndices(ms)|))
  {
    IndicesAreOrdered(ms);
    CompressMakes(ms, ResultIndices(ms), CallMap(ms), p, |ResultIndices(ms)|);
  }

  lemma OldResultLine(ms: seq<Message>, p: Pass, q: nat, i: nat)
    requires IsOldResult(ms, p, q, i)
    requires TierAt(ms[ResultIndices(ms)[q]], |ResultIndices(ms)| - 1 - q, CallMap(ms), p) == 1
    ensures var j := ResultIndices(ms)[q]; var n := Run(ms, p).messages[j];
      n.content.Blocks? && i < |n.content.blocks|
      && n.content.blocks[i] == StripBlock(ms[j].content.blocks[i], CallMap(ms))
  {
    AgedOnce(ms, p, q);
  }

  /** The line an old result is reduced to names the last call in the history that carries the result's id,
      its input up to a hundred characters, and how long the result was. */
  lemma OldResultNamesItsCall(ms: seq<Message>, p: Pass, q: nat, i: nat, j: nat, k: nat)
    requires IsOldResult(ms, p, q, i)
    requires TierAt(ms[ResultIndices(ms)[q]], |ResultIndices(ms)| - 1 - q, CallMap(ms), p) == 1
    requires LastCall(ms, j, k, ms[ResultIndices(ms)[q]].content.blocks[i].useId)
    ensures var b := ms[ResultIndices(ms)[q]].content.blocks[i]; var n := Run(ms, p).messages[ResultIndices(ms)[q]];
      var name, input := ms[j].content.blocks[k].name, ms[j].content.blocks[k].input;
      n.content.Blocks? && i < |n.content.blocks|
      && n.content.blocks[i] ==
         b.(content := Plain(
              "[" + name + " called with " + (if |input| <= 100 then input else input[..100] + "...")
              + "] \U{2192} [result: " + Itoa(|ResultText(b.content)|) + " chars, snipped]"), tier := 1)
  {
    OldResultLine(ms, p, q, i);
    CallMapIsLast(ms, j, k, ms[ResultIndices(ms)[q]].content.blocks[i].useId);
  }

  /** However old it gets, what a tool for reading files, directories or pages returned is never reduced to
      a line, nor is any other result in its message. */
  lemma ReadingsStay(ms: seq<Message>, p: Pass, q: nat, i: nat, r: nat, j: nat, k: nat)
    requires IsOldResult(ms, p, q, i)
    requires var bs := ms[ResultIndices(ms)[q]].content.blocks;
      r < |bs| && bs[r].ToolResult? && LastCall(ms, j, k, bs[r].useId)
    requires var name := ms[j].content.blocks[k].name;
      name in {"file_read", "grep", "glob", "directory_list"} || HasPrefix(name, "browser_")
    ensures var n := Run(ms, p).messages[ResultIndices(ms)[q]];
      n.content.Blocks? && i < |n.content.blocks| && n.content.blocks[i].ToolResult? && n.content.blocks[i].tier == 2
  {
    var m := ms[ResultIndices(ms)[q]];
    CallMapIsLast(ms, j, k, m.content.blocks[r].useId);
    assert m.content.blocks[r] in m.content.blocks;
    assert HoldsFloorResult(m, CallMap(ms));
    PassTier(ms, p, q, i);
  }

  /** A pass keeps the number, order and roles of the messages and every message without results, rewrites
      a native result only in the way of `Evolves`, and makes at most two summary attempts. */
  lemma PassKeeps(ms: seq<Message>, p: Pass)
    requires Usable(p)
    ensures var r := Run(ms, p);
      && |r.messages| == |ms| && r.attempts <= MAX_PER_PASS && (!p.completer ==> r.attempts == 0)
      && (forall j :: 0 <= j < |ms| ==> r.messages[j].role == ms[j].role)
      && (forall j :: 0 <= j < |ms| && !TextResult(ms[j]) ==> MessageEvolves(ms[j], r.messages[j]))
      && (forall j :: 0 <= j < |ms| && !HoldsResult(ms[j]) ==> r.messages[j] == ms[j])
  {
    var indices := ResultIndices(ms);
    var r := Run(ms, p);
    assert AgedUpTo(ms, r, indices, CallMap(ms), p, |indices|) by {
      IndicesAreOrdered(ms);
      CompressAges(ms, indices, CallMap(ms), p, |indices|);
    }
    forall j | 0 <= j < |ms|
      ensures r.messages[j].role == ms[j].role
      ensures !TextResult(ms[j]) ==> MessageEvolves(ms[j], r.messages[j])
      ensures !HoldsResult(ms[j]) ==> r.messages[j] == ms[j]
    {
      IndicesAreOrdered(ms);
      if j in indices {
        var q :| 0 <= q < |indices| && indices[q] == j;
        PassOnResult(ms, p, q);
      }
    }
  }

  // ---- any number of appends and passes ----

  datatype Action = Append(message: Message) | Shrink(pass: Pass)

  function Next(ms: seq<Message>, a: Action): seq<Message>
    requires a.Shrink? ==> Usable(a.pass)
  {
    match a
    case Append(m) => ms + [m]
    case Shrink(p) => Run(ms, p).messages
  }

  ghost predicate History(states: seq<seq<Message>>, actions: seq<Action>) {
    && |states| == |actions| + 1
    && (forall k :: 0 <= k < |actions| ==>
          (actions[k].Shrink? ==> Usable(actions[k].pass)) && states[k + 1] == Next(states[k], actions[k]))
  }

  lemma EvolvesTransitively(a: Message, b: Message, c: Message)
    requires MessageEvolves(a, b) && MessageEvolves(b, c)
    ensures MessageEvolves(a, c)
  {
  }

  lemma {:induction false} UserMessageEvolves(states: seq<seq<Message>>, actions: seq<Action>, k1: nat, k2: nat, j: nat)
    requires History(states, actions) && k1 <= k2 < |states| && j < |states[k1]| && states[k1][j].role.User?
    ensures j < |states[k2]| && MessageEvolves(states[k1][j], states[k2][j])
  {
    if k1 < k2 {
      UserMessageEvolves(states, actions, k1, k2 - 1, j);
      var a := actions[k2 - 1];
      if a.Shrink? {
        PassKeeps(states[k2 - 1], a.pass);
      }
      EvolvesTransitively(states[k1][j], states[k2 - 1][j], states[k2][j]);
    }
  }

  /** Over any run, a block of a native message changes at most once, and then it is a result marked tier 1
      or 2 with the identity it had. */
  lemma BlockChangesAtMostOnce(states: seq<seq<Message>>, actions: seq<Action>, k1: nat, k2: nat, k3: nat, j: nat,
      i: nat)
    requires History(states, actions) && k1 <= k2 <= k3 < |states|
    requires j < |states[k1]| && states[k1][j].role.User? && states[k1][j].content.Blocks?
    requires i < |states[k1][j].content.blocks|
    ensures j < |states[k2]| && j < |states[k3]| && states[k2][j].content.Blocks? && states[k3][j].content.Blocks?
    ensures i < |states[k2][j].content.blocks| == |states[k3][j].content.blocks|
    ensures var a, b, c := states[k1][j].content.blocks[i], states[k2][j].content.blocks[i],
        states[k3][j].content.blocks[i];
      a != b ==> c == b && a.ToolResult? && b.ToolResult? && b.useId == a.useId && a.tier == 0 && 1 <= b.tier <= 2
  {
    UserMessageEvolves(states, actions, k1, k2, j);
    UserMessageEvolves(states, actions, k2, k3, j);
  }

  // ---- a second pass ----

  predicate NoTextResults(ms: seq<Message>) {
    forall m :: m in ms ==> !TextResult(m)
  }

  lemma SameIndices(ms: seq<Message>, ns: seq<Message>)
    requires |ms| == |ns| && forall j :: 0 <= j < |ms| ==> (HoldsResult(ms[j]) <==> HoldsResult(ns[j]))
    ensures ResultIndices(ms) == ResultIndices(ns)
  {
    assert ResultFlags(ms) == ResultFlags(ns);
  }

  lemma EvolvingKeepsResult(m: Message, n: Message)
    requires MessageEvolves(m, n)
    ensures HoldsResult(m) <==> HoldsResult(n)
  {
    if m != n {
      var bs, cs := m.content.blocks, n.content.blocks;
      if b: Block :| b in bs && b.ToolResult? {
        var i :| 0 <= i < |bs| && bs[i] == b;
        assert cs[i] in cs && cs[i].ToolResult?;
      }
      if c: Block :| c in cs && c.ToolResult? {
        var i :| 0 <= i < |cs| && cs[i] == c;
        assert bs[i] in bs && bs[i].ToolResult?;
      }
    }
  }

  lemma {:induction false} CompressIdle(ms: seq<Message>, indices: seq<nat>, calls: map<string, Call>, p: Pass, i: nat)
    requires Usable(p) && i <= |indices| && forall k :: 0 <= k < |indices| ==> indices[k] < |ms|
    requires forall q :: 0 <= q < |indices| && q + p.keepRecent < |indices| ==>
        NativeResult(ms[indices[q]]) && Settled(ms[indices[q]])
    ensures Compress(ms, indices, calls, p, i) == Progress(ms, 0)
  {
    if i > 0 {
      CompressIdle(ms, indices, calls, p, i - 1);
      if |indices| - i >= p.keepRecent {
        SettledStays(ms[indices[i - 1]], |indices| - i, calls, p, 0);
      }
    }
  }

  /** With native blocks only, a second pass that keeps at least as many recent results changes nothing and
      asks for no summary, whatever else its parameters are. */
  lemma SecondPassIsIdle(ms: seq<Message>, p: Pass, p2: Pass)
    requires Usable(p) && Usable(p2) && p2.keepRecent >= p.keepRecent && NoTextResults(ms)
    ensures Run(Run(ms, p).messages, p2) == Progress(Run(ms, p).messages, 0)
  {
    var ns := Run(ms, p).messages;
    PassKeeps(ms, p);
    forall j | 0 <= j < |ms|
      ensures HoldsResult(ms[j]) <==> HoldsResult(ns[j])
    {
      EvolvingKeepsResult(ms[j], ns[j]);
    }
    SameIndices(ms, ns);
    var indices := ResultIndices(ms);
    forall q | 0 <= q < |indices| && q + p2.keepRecent < |indices|
      ensures NativeResult(ns[indices[q]]) && Settled(ns[indices[q]])
    {
      PassOnResult(ms, p, q);
      EvolvingKeepsResult(ms[indices[q]], ns[indices[q]]);
    }
    CompressIdle(ns, indices, CallMap(ns), p2, |indices|);
  }

  // ---- tool-use ids ----

  function BlockIds(bs: seq<Block>): seq<string> {
    if bs == [] then []
    else BlockIds(bs[..|bs| - 1]) + if bs[|bs| - 1].ToolUse? then [bs[|bs| - 1].id] else []
  }

  function UseIds(m: Message): seq<string> {
    if m.content.Blocks? then BlockIds(m.content.blocks) else []
  }

  lemma {:induction false} EvolvingKeepsIds(bs: seq<Block>, cs: seq<Block>)
    requires BlocksEvolve(bs, cs)
    ensures BlockIds(bs) == BlockIds(cs)
  {
    if bs != [] {
      EvolvingKeepsIds(bs[..|bs| - 1], cs[..|cs| - 1]);
    }
  }

  /** The guard of the branch that drops blocks: the `q`-th result message is an assistant message that
      calls tools while its text reads like an executed call, it is old enough, and the text is rewritten. */
  predicate LosesCalls(ms: seq<Message>, p: Pass, q: nat)
    requires q < |ResultIndices(ms)|
  {
    var m := ms[ResultIndices(ms)[q]];
    var dist := |ResultIndices(ms)| - 1 - q;
    TextResult(m) && UseIds(m) != [] && dist >= p.keepRecent
    && ((dist >= TIER1_THRESHOLD && !HasFloorTool(m, CallMap(ms), p))
        || p.squeeze(TextOf(m.content), p.maxChars) != TextOf(m.content))
  }

  lemma IdsOfResult(ms: seq<Message>, p: Pass, q: nat)
    requires Usable(p) && q < |ResultIndices(ms)|
    ensures var j := ResultIndices(ms)[q];
      UseIds(Run(ms, p).messages[j]) == UseIds(ms[j]) <==> !LosesCalls(ms, p, q)
  {
    var indices := ResultIndices(ms);
    var j := indices[q];
    var n := Run(ms, p).messages[j];
    PassOnResult(ms, p, q);
    if NativeResult(ms[j]) {
      if n != ms[j] { EvolvingKeepsIds(ms[j].content.blocks, n.content.blocks); }
    } else if q + p.keepRecent < |indices| {
      IndicesAreOrdered(ms);
      CompressAges(ms, indices, CallMap(ms), p, |indices|);
      assert AgedFrom(ms[j], n, |indices| - 1 - q, CallMap(ms), p);
    }
  }

  /** A pass keeps the tool-use ids of every message exactly when no result message meets that guard. */
  lemma IdsAreKeptIff(ms: seq<Message>, p: Pass)
    requires Usable(p)
    ensures (forall j :: 0 <= j < |ms| ==> UseIds(Run(ms, p).messages[j]) == UseIds(ms[j]))
            <==> (forall q :: 0 <= q < |ResultIndices(ms)| ==> !LosesCalls(ms, p, q))
  {
    var indices := ResultIndices(ms);
    var ns := Run(ms, p).messages;
    IndicesAreOrdered(ms);
    forall q | 0 <= q < |indices|
      ensures UseIds(ns[indices[q]]) == UseIds(ms[indices[q]]) <==> !LosesCalls(ms, p, q)
    {
      IdsOfResult(ms, p, q);
    }
    PassKeeps(ms, p);
    forall j | 0 <= j < |ms| && forall q :: 0 <= q < |indices| ==> !LosesCalls(ms, p, q)
      ensures UseIds(ns[j]) == UseIds(ms[j])
    {
      if j in indices {
        var q :| 0 <= q < |indices| && indices[q] == j;
      }
    }
  }

  /** An executed call as the text format writes it. */
  const QUOTED := "<tool_exec " + QUOTED_CALL + "</tool_exec>"
  const QUOTED_CALL := "tool=\"bash\" call_id=\"a1\">\n<input>ls</input>\n<output status=\"ok\">x</output>\n"
  const ASKED := Message(Assistant, Blocks([TextBlock(QUOTED), ToolUse("id", "bash", "{}")]))
  const ANSWERED := Message(User, Blocks([ToolResult("id", Plain("ok"), false, 0)]))

  lemma ContainsEnds(a: string, b: string, c: string)
    ensures Contains(a + b + c, a) && Contains(a + b + c, c)
  {
    assert At(a + b + c, a, 0) && At(a + b + c, c, |a + b|);
  }

  lemma QuoteReadsAsExecuted()
    ensures LooksLikeToolText(QUOTED)
  {
    ContainsEnds("<tool_exec ", QUOTED_CALL, "</tool_exec>");
  }

  lemma AskedCalls()
    ensures UseIds(ASKED) == ["id"] && TextOf(ASKED.content) == QUOTED && TextResult(ASKED)
  {
    var text := QUOTED;
    var bs := ASKED.content.blocks;
    assert bs[..1] == [TextBlock(text)] && bs[..1][..0] == [] && bs[1..] == [ToolUse("id", "bash", "{}")]
        && bs[1..][1..] == [];
    assert BlockIds([]) == [] && BlockIds(bs[..1]) == [];
    assert BlocksText([]) == "" && BlocksText(bs[1..]) == "";
    QuoteReadsAsExecuted();
  }

  lemma {:induction false} AllTrue(flags: seq<bool>)
    requires forall k :: 0 <= k < |flags| ==> flags[k]
    ensures |Trues(flags)| == |flags| && forall k :: 0 <= k < |flags| ==> Trues(flags)[k] == k
  {
    if flags != [] {
      AllTrue(flags[..|flags| - 1]);
    }
  }

  function AskedAndAnswered(n: nat): seq<Message> {
    [ASKED] + seq(n, _ => ANSWERED)
  }

  lemma AllHoldResults(n: nat)
    ensures |ResultIndices(AskedAndAnswered(n))| == n + 1 && ResultIndices(AskedAndAnswered(n))[0] == 0
  {
    AskedCalls();
    assert NativeResult(ANSWERED) by {
      assert ANSWERED.content.blocks[0] in ANSWERED.content.blocks;
    }
    AllTrue(ResultFlags(AskedAndAnswered(n)));
  }

  lemma NotAFloorTool()
    ensures !FloorTool("bash")
  {
  }

  /** An assistant message that quotes an executed call while it calls a tool: once twenty newer messages
      hold results the call is gone, however the text is squeezed, and its result no longer has one. */
  lemma AQuotedCallIsLost(p: Pass, n: nat)
    requires Usable(p) && n >= TIER1_THRESHOLD && n >= p.keepRecent
    requires forall t :: t in p.textTools(QUOTED) ==> t == "bash"
    ensures UseIds(AskedAndAnswered(n)[0]) == ["id"] && UseIds(Run(AskedAndAnswered(n), p).messages[0]) != ["id"]
  {
    var ms := AskedAndAnswered(n);
    AskedCalls();
    AllHoldResults(n);
    NotAFloorTool();
    assert LosesCalls(ms, p, 0);
    IdsOfResult(ms, p, 0);
  }

  // ---- cutting text ----

  /** `t` is `s`, or its head and its tail, in place, three quarters and one quarter of the limit, with the
      number of characters beyond the limit between them. */
  predicate IsCut(s: string, t: string, maxChars: nat) {
    if |s| <= maxChars then t == s
    else
      var head, tail := maxChars * 3 / 4, maxChars / 4;
      && head + tail < |t| && t[..head] == s[..head] && t[|t| - tail..] == s[|s| - tail..]
      && Contains(t[head..|t| - tail], Itoa(|s| - maxChars))
  }

  lemma ThreeParts(a: string, b: string, c: string)
    ensures var t := a + b + c;
      t[..|a|] == a && t[|a|..|t| - |c|] == b && t[|t| - |c|..] == c
  {
  }

  lemma MiddleIsContained(a: string, b: string, c: string)
    ensures Contains(a + b + c, b)
  {
    ThreeParts(a, b, c);
    assert At(a + b + c, b, |a|);
  }

  lemma TruncationKeepsEnds(s: string, maxChars: nat)
    ensures IsCut(s, TruncateHeadTail(s, maxChars), maxChars)
  {
    if |s| > maxChars {
      var head, tail := maxChars * 3 / 4, maxChars / 4;
      MiddleIsContained("\n\n[... truncated ", Itoa(|s| - maxChars), " chars ...]\n\n");
      ThreeParts(s[..head], Notice(|s| - maxChars), s[|s| - tail..]);
    }
  }

  /** What is left of one part: of a text, its ends; of an image, a note. */
  predicate PartIsCut(n: Nested, c: Nested, maxChars: nat) {
    match n
    case NestedText(t) => c.NestedText? && IsCut(t, c.text, maxChars)
    case NestedImage(_) => c.NestedText? && |c.text| < 40
    case NestedOther(_) => c == n
  }

  /** Cutting keeps the kind of a result and its parts in place; no image is left. */
  lemma ClipCutsEachPart(c: ResultContent, maxChars: nat)
    ensures match c
      case Plain(t) => Clip(c, maxChars).Plain? && IsCut(t, Clip(c, maxChars).text, maxChars)
      case Parts(ps) =>
        Clip(c, maxChars).Parts? && |Clip(c, maxChars).parts| == |ps|
        && forall i :: 0 <= i < |ps| ==> PartIsCut(ps[i], Clip(c, maxChars).parts[i], maxChars)
  {
    match c
    case Plain(t) => TruncationKeepsEnds(t, maxChars);
    case Parts(ps) =>
      forall i | 0 <= i < |ps|
        ensures PartIsCut(ps[i], Clip(c, maxChars).parts[i], maxChars)
      {
        if ps[i].NestedText? { TruncationKeepsEnds(ps[i].text, maxChars); }
      }
  }

  /** A cut text is longer than the limit again, so without the tier mark every pass would cut it further. */
  lemma CutTextIsStillTooLong(s: string, maxChars: nat)
    requires |s| > maxChars
    ensures |TruncateHeadTail(s, maxChars)| > maxChars
  {
    var t := TruncateHeadTail(s, maxChars);
    assert |t| > maxChars;
  }

  // ---- the loops ----

  method BuildToolCallMap(ms: seq<Message>) returns (calls: map<string, Call>)
    ensures calls == CallMap(ms)
  {
    calls := map[];
    for k := 0 to |ms|
      invariant calls == CallMap(ms[..k])
    {
      var m := ms[k];
      assert ms[..k + 1][..k] == ms[..k];
      if !m.role.Assistant? || !HasBlocks(m.content) {
        continue;
      }
      var bs := m.content.blocks;
      ghost var before := calls;
      for i := 0 to |bs|
        invariant calls == before + BlockCalls(bs[..i])
      {
        assert bs[..i + 1][..i] == bs[..i];
        if bs[i].ToolUse? && bs[i].id != "" {
          calls := calls[bs[i].id := Call(bs[i].name, ClipArgs(bs[i].input))];
        }
      }
      assert bs[..|bs|] == bs;
    }
    assert ms[..|ms|] == ms;
  }

  method FindResults(ms: seq<Message>) returns (indices: seq<nat>)
    ensures indices == ResultIndices(ms)
  {
    indices := [];
    for k := 0 to |ms|
      invariant indices == Trues(ResultFlags(ms)[..k])
    {
      assert ResultFlags(ms)[..k + 1][..k] == ResultFlags(ms)[..k];
      if HoldsResult(ms[k]) {
        indices := indices + [k];
      }
    }
    assert ResultFlags(ms)[..|ms|] == ResultFlags(ms);
  }

  method StripToMetadata(bs: seq<Block>, calls: map<string, Call>) returns (r: seq<Block>)
    ensures r == Strip(bs, calls)
  {
    r := [];
    for i := 0 to |bs|
      invariant |r| == i && forall k :: 0 <= k < i ==> r[k] == StripBlock(bs[k], calls)
    {
      if !bs[i].ToolResult? || bs[i].tier != 0 {
        r := r + [bs[i]];
        continue;
      }
      r := r + [StripBlock(bs[i], calls)];
    }
  }

  method CompressTier2Blocks(bs: seq<Block>, calls: map<string, Call>, p: Pass, attempts: nat)
    returns (r: seq<Block>, made: nat)
    requires Usable(p)
    ensures Blocks2(r, made) == Tier2Blocks(bs, calls, p, attempts)
  {
    r, made := [], attempts;
    for i := 0 to |bs|
      invariant Blocks2(r, made) == Tier2Blocks(bs[..i], calls, p, attempts)
    {
      assert bs[..i + 1][..i] == bs[..i];
      var b := bs[i];
      if !b.ToolResult? || b.tier != 0 {
        r := r + [b];
        continue;
      }
      if Summarises(b, calls, p, made) {
        made := made + 1;
        if p.summaries[made - 1].Some? {
          r := r + [b.(content := Plain(MARKER + p.summaries[made - 1].value), tier := 2)];
          continue;
        }
      }
      r := r + [b.(content := Clip(b.content, p.maxChars), tier := 2)];
    }
    assert bs[..|bs|] == bs;
  }

  lemma {:induction false} NothingOld(ms: seq<Message>, indices: seq<nat>, calls: map<string, Call>, p: Pass, i: nat)
    requires Usable(p) && i <= |indices| <= p.keepRecent && forall k :: 0 <= k < |indices| ==> indices[k] < |ms|
    ensures Compress(ms, indices, calls, p, i) == Progress(ms, 0)
  {
    if i > 0 {
      NothingOld(ms, indices, calls, p, i - 1);
    }
  }

  method AgeMessage(m: Message, dist: nat, calls: map<string, Call>, p: Pass, attempts: nat)
    returns (r: Message, made: nat)
    requires Usable(p)
    ensures Aged(r, made) == Age(m, dist, calls, p, attempts)
  {
    made := attempts;
    if dist >= TIER1_THRESHOLD && !HasFloorTool(m, calls, p) {
      if m.role.User? && HasBlocks(m.content) {
        var bs := StripToMetadata(m.content.blocks, calls);
        r := m.(content := Blocks(bs));
      } else {
        r := m.(content := Text(p.squeeze(TextOf(m.content), 50)));
      }
    } else if m.role.User? && HasBlocks(m.content) {
      var bs;
      bs, made := CompressTier2Blocks(m.content.blocks, calls, p, attempts);
      r := m.(content := Blocks(bs));
    } else {
      var text := TextOf(m.content);
      var squeezed := p.squeeze(text, p.maxChars);
      r := if squeezed != text then m.(content := Text(squeezed)) else m;
    }
  }

  /** The whole pass, rewriting the messages in place. */
  method CompressOldToolResults(messages: array<Message>, p: Pass) returns (attempts: nat)
    requires Usable(p)
    modifies messages
    ensures Progress(messages[..], attempts) == Run(old(messages[..]), p)
  {
    ghost var ms := messages[..];
    var calls := BuildToolCallMap(messages[..]);
    var indices := FindResults(messages[..]);
    attempts := 0;
    if |indices| <= p.keepRecent {
      NothingOld(ms, indices, calls, p, |indices|);
      return;
    }
    for i := 0 to |indices|
      invariant Progress(messages[..], attempts) == Compress(ms, indices, calls, p, i)
    {
      var dist := |indices| - 1 - i;
      if dist < p.keepRecent {
        continue;
      }
      var r;
      r, attempts := AgeMessage(messages[indices[i]], dist, calls, p, attempts);
      messages[indices[i]] := r;
    }
  }
}

/** Deferred tool schemas: a deferred tool is advertised once a search loaded it, in the registry's own
    order whatever the order of the loads, and it may be called exactly when it is advertised. */
module DeferredTools {
  import opened Strings

  type Name = string
  type Schema = nat

  datatype Tool = Tool(name: Name, schema: Schema)

  /** The effective registry in canonical order. */
  predicate Registry(reg: seq<Name>) {
    forall i, j :: 0 <= i < j < |reg| ==> reg[i] != reg[j]
  }

  /** The names of `reg` that satisfy `keep`, in order. */
  function Filter(reg: seq<Name>, keep: set<Name>): seq<Name> {
    if reg == [] then []
    else Filter(reg[..|reg| - 1], keep) + if reg[|reg| - 1] in keep then [reg[|reg| - 1]] else []
  }

  lemma {:induction false} FilterPicks(reg: seq<Name>, keep: set<Name>)
    ensures forall n :: n in Filter(reg, keep) <==> n in reg && n in keep
    ensures Registry(reg) ==> Registry(Filter(reg, keep))
  {
    if reg != [] {
      FilterPicks(reg[..|reg| - 1], keep);
      assert reg == reg[..|reg| - 1] + [reg[|reg| - 1]];
      assert Registry(reg) ==> reg[|reg| - 1] !in reg[..|reg| - 1];
    }
  }

  /** Canonical order: of two advertised names the one first in the registry comes first. */
  lemma {:induction false} FilterKeepsOrder(reg: seq<Name>, keep: set<Name>, i: nat, j: nat)
    requires i < j < |reg| && reg[i] in keep && reg[j] in keep
    ensures exists a, b ::
        0 <= a < b < |Filter(reg, keep)|
        && Filter(reg, keep)[a] == reg[i] && Filter(reg, keep)[b] == reg[j]
  {
    var init := reg[..|reg| - 1];
    var f, g := Filter(reg, keep), Filter(init, keep);
    FilterPicks(init, keep);
    if j < |init| {
      FilterKeepsOrder(init, keep, i, j);
      var a, b :| 0 <= a < b < |g| && g[a] == init[i] && g[b] == init[j];
      assert f[a] == reg[i] && f[b] == reg[j];
    } else {
      assert init[i] in g;
      var a :| 0 <= a < |g| && g[a] == init[i];
      assert f[a] == reg[i] && f[|g|] == reg[j];
    }
  }

  /** What the run may call: everything registered that is not deferred, or was loaded. */
  function Usable(reg: seq<Name>, deferred: set<Name>, loaded: set<Name>): set<Name> {
    set n | n in reg && (n !in deferred || n in loaded)
  }

  function Advertised(reg: seq<Name>, deferred: set<Name>, loaded: set<Name>): seq<Name> {
    Filter(reg, Usable(reg, deferred, loaded))
  }

  predicate Admitted(reg: seq<Name>, deferred: set<Name>, loaded: set<Name>, name: Name) {
    name in reg && !(name in deferred && name !in loaded)
  }

  function Names(tools: seq<Tool>): seq<Name> {
    seq(|tools|, i requires 0 <= i < |tools| => tools[i].name)
  }

  function Schemas(names: seq<Name>, schema: Name -> Schema): seq<Tool> {
    seq(|names|, i requires 0 <= i < |names| => Tool(names[i], schema(names[i])))
  }

  // ---- the three builders ----

  method BuildActiveSchemas(reg: seq<Name>, schema: Name -> Schema, cold: set<Name>) returns (r: seq<Tool>)
    ensures r == Schemas(Advertised(reg, cold, {}), schema)
  {
    r := [];
    ghost var keep := Usable(reg, cold, {});
    for i := 0 to |reg|
      invariant r == Schemas(Filter(reg[..i], keep), schema)
    {
      assert reg[..i + 1][..i] == reg[..i] && reg[i] in reg;
      if reg[i] !in cold {
        r := r + [Tool(reg[i], schema(reg[i]))];
      }
    }
    assert reg[..|reg|] == reg;
  }

  method RemainingDeferredNames(deferred: set<Name>, loaded: map<Name, Schema>) returns (remaining: set<Name>)
    ensures remaining == deferred - loaded.Keys
  {
    remaining := {};
    var left := deferred;
    while left != {}
      invariant left <= deferred
      invariant forall n :: n in remaining <==> n in deferred && n !in left && n !in loaded
      decreases |left|
    {
      var name :| name in left;
      left := left - {name};
      if name !in loaded {
        remaining := remaining + {name};
      }
    }
  }

  function Elements(reg: seq<Name>): set<Name> {
    set n | n in reg
  }

  /** A name of the base takes its schema from the registry, any other loaded one from what was loaded. */
  method RebuildSchemas(reg: seq<Name>, schema: Name -> Schema, base: seq<Tool>, loaded: map<Name, Schema>)
    returns (r: seq<Tool>)
    ensures Names(r) == Filter(reg, Elements(Names(base)) + loaded.Keys)
    ensures forall i :: 0 <= i < |r| ==>
      r[i].schema ==
        if r[i].name in Names(base) then schema(r[i].name) else if r[i].name in loaded then loaded[r[i].name] else 0
  {
    var baseNames: set<Name> := {};
    for i := 0 to |base|
      invariant baseNames == Elements(Names(base[..i]))
    {
      assert Names(base[..i + 1]) == Names(base[..i]) + [base[i].name];
      baseNames := baseNames + {base[i].name};
    }
    assert base[..|base|] == base;
    r := [];
    for i := 0 to |reg|
      invariant Names(r) == Filter(reg[..i], baseNames + loaded.Keys)
      invariant forall k :: 0 <= k < |r| ==>
        r[k].schema ==
          if r[k].name in baseNames then schema(r[k].name) else if r[k].name in loaded then loaded[r[k].name] else 0
    {
      assert reg[..i + 1][..i] == reg[..i];
      ghost var before := r;
      if reg[i] in baseNames {
        r := r + [Tool(reg[i], schema(reg[i]))];
        assert Names(r) == Names(before) + [reg[i]];
      } else if reg[i] in loaded {
        r := r + [Tool(reg[i], loaded[reg[i]])];
        assert Names(r) == Names(before) + [reg[i]];
      }
    }
    assert reg[..|reg|] == reg;
  }

  /** The gate agrees with the list: a name is admitted exactly when it is advertised. */
  lemma AdmittedIffAdvertised(reg: seq<Name>, deferred: set<Name>, loaded: set<Name>, name: Name)
    ensures Admitted(reg, deferred, loaded, name) <==> name in Advertised(reg, deferred, loaded)
  {
    FilterPicks(reg, Usable(reg, deferred, loaded));
  }

  // ---- one run ----

  /** Schemas the session loaded earlier, without those a profile binds to this run. */
  method PreseedDeferredSchemas(workingSet: map<Name, Schema>, deferred: set<Name>, runScoped: set<Name>)
    returns (loaded: map<Name, Schema>)
    ensures loaded == map n | n in workingSet && n in deferred && n !in runScoped :: workingSet[n]
  {
    loaded := map[];
    var left := workingSet.Keys;
    while left != {}
      invariant left <= workingSet.Keys
      invariant loaded == map n | n in workingSet && n !in left && n in deferred && n !in runScoped :: workingSet[n]
      decreases |left|
    {
      var name :| name in left;
      left := left - {name};
      if name in deferred && name !in runScoped {
        loaded := loaded[name := workingSet[name]];
      }
    }
  }

  /** What the run holds: the effective registry, the names deferred at its start and those of them cold
      then, what was loaded since, the base list and the list advertised now. */
  datatype Run = Run(reg: seq<Name>, deferred: set<Name>, cold: set<Name>, loaded: map<Name, Schema>, base: seq<Tool>,
                     tools: seq<Tool>)

  predicate Setup(r: Run, schema: Name -> Schema) {
    && Registry(r.reg) && r.cold <= r.deferred <= Elements(r.reg) && r.deferred - r.cold <= r.loaded.Keys
    && r.base == Schemas(Advertised(r.reg, r.cold, {}), schema)
    && (forall n :: n in r.loaded && n in r.cold ==> r.loaded[n] == schema(n))
  }

  /** The advertised list is what the registry's order and the set of loaded names say, with the registry's
      own schemas; how and when they were loaded does not matter. */
  predicate Valid(r: Run, schema: Name -> Schema) {
    Setup(r, schema) && r.tools == Schemas(Advertised(r.reg, r.deferred, r.loaded.Keys), schema)
  }

  lemma {:induction false} FilterSame(reg: seq<Name>, a: set<Name>, b: set<Name>)
    requires forall i :: 0 <= i < |reg| ==> (reg[i] in a <==> reg[i] in b)
    ensures Filter(reg, a) == Filter(reg, b)
  {
    if reg != [] { FilterSame(reg[..|reg| - 1], a, b); }
  }

  lemma {:induction false} FilterAll(reg: seq<Name>, a: set<Name>)
    requires forall i :: 0 <= i < |reg| ==> reg[i] in a
    ensures Filter(reg, a) == reg
  {
    if reg != [] { FilterAll(reg[..|reg| - 1], a); }
  }

  /** What `RebuildSchemas` returns is the advertised list. */
  lemma RebuiltIsAdvertised(r: Run, schema: Name -> Schema, tools: seq<Tool>)
    requires Setup(r, schema)
    requires Names(tools) == Filter(r.reg, Elements(Names(r.base)) + r.loaded.Keys)
    requires forall i :: 0 <= i < |tools| ==>
      tools[i].schema == if tools[i].name in Names(r.base) then schema(tools[i].name)
                         else if tools[i].name in r.loaded then r.loaded[tools[i].name] else 0
    ensures tools == Schemas(Advertised(r.reg, r.deferred, r.loaded.Keys), schema)
  {
    var keep := Elements(Names(r.base)) + r.loaded.Keys;
    assert Names(r.base) == Advertised(r.reg, r.cold, {});
    FilterPicks(r.reg, Usable(r.reg, r.cold, {}));
    FilterSame(r.reg, keep, Usable(r.reg, r.deferred, r.loaded.Keys));
    FilterPicks(r.reg, keep);
    forall i | 0 <= i < |tools|
      ensures tools[i] == Tool(Names(tools)[i], schema(Names(tools)[i]))
    {
      assert Names(tools)[i] in Filter(r.reg, keep);
    }
  }

  /** The start of a run.  `plain` is the registry without the search tool, `withSearch` the clone that has
      it; the clone is used when something is still cold. */
  method Begin(plain: seq<Name>, withSearch: seq<Name>, schema: Name -> Schema, deferred: set<Name>,
      preloaded: map<Name, Schema>)
    returns (r: Run)
    requires Registry(plain) && Registry(withSearch) && Elements(plain) <= Elements(withSearch)
    requires deferred <= Elements(plain) && preloaded.Keys <= Elements(plain)
    ensures Valid(r, schema) && r.deferred == deferred && r.loaded == preloaded && r.cold == deferred - preloaded.Keys
    ensures r.reg == if r.cold == {} then plain else withSearch
  {
    var cold := RemainingDeferredNames(deferred, preloaded);
    if cold == {} {
      assert forall n :: n in deferred ==> n in preloaded by {
        forall n | n in deferred
          ensures n in preloaded
        {
          assert n !in deferred - preloaded.Keys;
        }
      }
      FilterAll(plain, Usable(plain, {}, {}));
      FilterAll(plain, Usable(plain, deferred, preloaded.Keys));
      var all := Schemas(plain, schema);
      return Run(plain, deferred, {}, preloaded, all, all);
    }
    var base := BuildActiveSchemas(withSearch, schema, cold);
    r := Run(withSearch, deferred, cold, preloaded, base, base);
    assert preloaded == map[] ==> cold == deferred && preloaded.Keys == {};
    if preloaded != map[] {
      var tools := RebuildSchemas(withSearch, schema, base, preloaded);
      RebuiltIsAdvertised(r, schema, tools);
      r := r.(tools := tools);
    }
  }

  /** The names a completed search reports are loaded, if they are registered; without cold names no search
      result is read. */
  method Load(r: Run, schema: Name -> Schema, names: seq<Name>) returns (r': Run)
    requires Valid(r, schema)
    ensures Valid(r', schema) && r' == r.(loaded := r'.loaded, tools := r'.tools)
    ensures r'.loaded.Keys == r.loaded.Keys + if r.cold == {} then {} else Elements(names) * Elements(r.reg)
  {
    r' := r;
    if r.cold == {} {
      return;
    }
    var loaded := r.loaded;
    for i := 0 to |names|
      invariant loaded.Keys == r.loaded.Keys + Elements(names[..i]) * Elements(r.reg)
      invariant forall n :: n in loaded && n in r.cold ==> loaded[n] == schema(n)
    {
      assert names[..i + 1] == names[..i] + [names[i]];
      if names[i] !in loaded {
        if names[i] in r.reg {
          loaded := loaded[names[i] := schema(names[i])];
        }
      }
    }
    assert names[..|names|] == names;
    r' := r.(loaded := loaded);
    var tools := RebuildSchemas(r.reg, schema, r.base, loaded);
    RebuiltIsAdvertised(r', schema, tools);
    r' := r'.(tools := tools);
  }

  /** Two runs that loaded the same names, in whatever order and however often, advertise the same list, and
      a registered tool may be called exactly when it is on that list. */
  lemma LoadOrderDoesNotMatter(r: Run, s: Run, schema: Name -> Schema)
    requires Valid(r, schema) && Valid(s, schema)
    requires r.reg == s.reg && r.deferred == s.deferred && r.loaded.Keys == s.loaded.Keys
    ensures r.tools == s.tools
    ensures forall n :: Admitted(r.reg, r.deferred, r.loaded.Keys, n) <==> n in Names(s.tools)
  {
    assert Names(s.tools) == Advertised(r.reg, r.deferred, r.loaded.Keys);
    forall n
      ensures Admitted(r.reg, r.deferred, r.loaded.Keys, n) <==> n in Names(s.tools)
    {
      AdmittedIffAdvertised(r.reg, r.deferred, r.loaded.Keys, n);
    }
  }

  // ---- what a search loads ----

  /** `core`: the core names of the family a tool belongs to. */
  function Cores(matched: seq<Name>, core: Name -> set<Name>): set<Name> {
    set m, n | m in matched && n in core(m) :: n
  }

  /** First occurrences, in order, of the names in `keep`. */
  function FirstOf(names: seq<Name>, keep: set<Name>): seq<Name> {
    if names == [] then []
    else
      var before := FirstOf(names[..|names| - 1], keep);
      var last := names[|names| - 1];
      if last in keep && last !in before then before + [last] else before
  }

  lemma {:induction false} FirstOfPicks(names: seq<Name>, keep: set<Name>)
    ensures forall n :: n in FirstOf(names, keep) <==> n in names && n in keep
    ensures Registry(FirstOf(names, keep))
  {
    if names != [] {
      FirstOfPicks(names[..|names| - 1], keep);
      assert names == names[..|names| - 1] + [names[|names| - 1]];
    }
  }

  /** In the order of `names`: what the first `k` of them give is the beginning of what all give. */
  lemma {:induction false} FirstOfGrows(names: seq<Name>, keep: set<Name>, k: nat)
    requires k <= |names|
    ensures FirstOf(names[..k], keep) <= FirstOf(names, keep)
  {
    if k < |names| {
      var init := names[..|names| - 1];
      FirstOfGrows(init, keep, k);
      assert init[..k] == names[..k];
    } else {
      assert names[..k] == names;
    }
  }

  function Found(deferred: set<Name>, matched: seq<Name>): seq<Name> {
    FirstOf(matched, deferred - {""})
  }

  /** The matched names that are deferred, each once and in the order found, followed in canonical order by
      the deferred core tools of every matched name's family. */
  function Expanded(reg: seq<Name>, core: Name -> set<Name>, deferred: set<Name>, matched: seq<Name>): seq<Name> {
    var found := Found(deferred, matched);
    found + Filter(reg, Cores(matched, core) * deferred - Elements(found))
  }

  lemma ExpansionIsExact(reg: seq<Name>, core: Name -> set<Name>, deferred: set<Name>, matched: seq<Name>)
    requires Registry(reg)
    ensures var expanded := Expanded(reg, core, deferred, matched);
      && Registry(expanded)
      && (forall n :: n in expanded <==>
           n in deferred && ((n != "" && n in matched) || (n in reg && n in Cores(matched, core))))
  {
    var found := Found(deferred, matched);
    FirstOfPicks(matched, deferred - {""});
    var tail := Filter(reg, Cores(matched, core) * deferred - Elements(found));
    FilterPicks(reg, Cores(matched, core) * deferred - Elements(found));
    var expanded := found + tail;
    forall i, j | 0 <= i < j < |expanded|
      ensures expanded[i] != expanded[j]
    {
      if i < |found| <= j {
        assert expanded[i] in Elements(found) && expanded[j] == tail[j - |found|];
      }
    }
  }

  method SelectMatched(core: Name -> set<Name>, deferred: set<Name>, matched: seq<Name>)
    returns (expanded: seq<Name>, extra: set<Name>)
    ensures expanded == Found(deferred, matched)
    ensures Cores(matched, core) * deferred - Elements(expanded) <= extra <= Cores(matched, core) * deferred
  {
    expanded, extra := [], {};
    var selected: set<Name> := {};
    for i := 0 to |matched|
      invariant expanded == Found(deferred, matched[..i]) && selected == Elements(expanded)
      invariant Cores(matched[..i], core) * deferred - selected <= extra <= Cores(matched[..i], core) * deferred
    {
      assert matched[..i + 1][..i] == matched[..i];
      assert Cores(matched[..i + 1], core) == Cores(matched[..i], core) + core(matched[i]) by {
        assert matched[..i + 1] == matched[..i] + [matched[i]];
      }
      var name := matched[i];
      if name != "" && name in deferred && name !in selected {
        selected := selected + {name};
        expanded := expanded + [name];
      }
      extra := extra + set n | n in core(name) && n in deferred && n !in selected;
    }
    assert matched[..|matched|] == matched;
  }

  method AppendCores(reg: seq<Name>, found: seq<Name>, extra: set<Name>) returns (expanded: seq<Name>)
    requires Registry(reg)
    ensures expanded == found + Filter(reg, extra - Elements(found))
  {
    expanded := found;
    for i := 0 to |reg|
      invariant expanded == found + Filter(reg[..i], extra - Elements(found))
    {
      assert reg[..i + 1][..i] == reg[..i];
      FilterPicks(reg[..i], extra - Elements(found));
      assert reg[i] !in reg[..i];
      if reg[i] in extra && reg[i] !in expanded {
        expanded := expanded + [reg[i]];
      }
    }
    assert reg[..|reg|] == reg;
  }

  method ExpandDeferredFamilyCore(reg: seq<Name>, core: Name -> set<Name>, deferred: set<Name>, matched: seq<Name>)
    returns (expanded: seq<Name>)
    requires Registry(reg)
    ensures expanded == Expanded(reg, core, deferred, matched)
  {
    var found, extra := SelectMatched(core, deferred, matched);
    expanded := AppendCores(reg, found, extra);
    assert extra - Elements(found) == Cores(matched, core) * deferred - Elements(found);
  }

  // ---- the LOADED header ----

  const LOADED := "LOADED:"

  function TrimSpace(s: string): string
    decreases |s|
  {
    if s == "" then ""
    else if IsSpace(s[0]) then TrimSpace(s[1..])
    else if IsSpace(s[|s| - 1]) then TrimSpace(s[..|s| - 1])
    else s
  }

  lemma {:induction false} TrimIsPart(s: string)
    ensures forall c :: c in TrimSpace(s) ==> c in s
    decreases |s|
  {
    if s != "" {
      if IsSpace(s[0]) { TrimIsPart(s[1..]); }
      else if IsSpace(s[|s| - 1]) { TrimIsPart(s[..|s| - 1]); }
    }
  }

  /** What follows the header: nothing, or the rest of the result on its own lines. */
  predicate NewLines(rest: string) {
    rest == "" || rest[0] == '\n'
  }

  function PrintLoaded(names: seq<Name>, rest: string): string {
    LOADED + Join(names, ',') + rest
  }

  function ParseLoaded(content: string): seq<Name> {
    if !HasPrefix(content, LOADED) then []
    else
      var line := Split(content, '\n')[0];
      var names := TrimSpace(if HasPrefix(line, LOADED) then line[|LOADED|..] else line);
      if names == "" then [] else Split(names, ',')
  }

  /** What a caller of the printer can check. */
  predicate Printable(names: seq<Name>) {
    && (forall k :: 0 <= k < |names| ==> ',' !in names[k] && '\n' !in names[k])
    && Join(names, ',') != "" && TrimSpace(Join(names, ',')) == Join(names, ',')
  }

  lemma {:induction false} JoinHasNo(names: seq<Name>, sep: char, c: char)
    requires c != sep
    ensures c in Join(names, sep) <==> exists k :: 0 <= k < |names| && c in names[k]
  {
    if |names| > 1 {
      JoinHasNo(names[1..], sep, c);
      if k :| 0 <= k < |names| && c in names[k] {
        if k > 0 { assert c in names[1..][k - 1]; }
      }
      if c in Join(names[1..], sep) {
        var j :| 0 <= j < |names| - 1 && c in names[1..][j];
        assert c in names[j + 1];
      }
    }
  }

  /** The first line of a printed header. */
  lemma FirstLine(joined: string, rest: string)
    requires NewLines(rest) && '\n' !in joined
    ensures Split(LOADED + joined + rest, '\n')[0] == LOADED + joined
  {
    var line := LOADED + joined;
    SplitWhole(line, '\n');
    if rest == "" {
      assert line + rest == line;
    } else {
      SplitAt(line, rest[1..], '\n');
      assert line + rest == line + ['\n'] + rest[1..];
    }
  }

  lemma ParsesBack(names: seq<Name>, rest: string)
    requires Printable(names) && NewLines(rest)
    ensures ParseLoaded(PrintLoaded(names, rest)) == names
  {
    var joined := Join(names, ',');
    JoinHasNo(names, ',', '\n');
    FirstLine(joined, rest);
    assert (LOADED + joined)[|LOADED|..] == joined;
    assert PrintLoaded(names, rest)[..|LOADED|] == LOADED;
    SplitJoin(names, ',');
  }

  lemma ParsedBackIsPrintable(names: seq<Name>, rest: string)
    requires names != [] && NewLines(rest) && ParseLoaded(PrintLoaded(names, rest)) == names
    ensures Printable(names)
  {
    var content := PrintLoaded(names, rest);
    assert content[..|LOADED|] == LOADED;
    var line := Split(content, '\n')[0];
    var text := if HasPrefix(line, LOADED) then line[|LOADED|..] else line;
    var trimmed := TrimSpace(text);
    SplitPieces(content, '\n');
    TrimIsPart(text);
    SplitPieces(trimmed, ',');
    JoinSplit(trimmed, ',');
    JoinHasNo(names, ',', '\n');
    FirstLine(trimmed, rest);
    assert (LOADED + trimmed)[|LOADED|..] == trimmed;
  }

  /** Printing and parsing give back exactly the nonempty lists whose names hold no comma or line break and
      whose joined text is not empty and has no outer white space. */
  lemma ParsesBackIff(names: seq<Name>, rest: string)
    requires names != [] && NewLines(rest)
    ensures ParseLoaded(PrintLoaded(names, rest)) == names <==> Printable(names)
  {
    if Printable(names) { ParsesBack(names, rest); }
    if ParseLoaded(PrintLoaded(names, rest)) == names { ParsedBackIsPrintable(names, rest); }
  }

  lemma {:induction false} TrimShrinks(s: string)
    ensures |TrimSpace(s)| <= |s|
    decreases |s|
  {
    if s != "" {
      if IsSpace(s[0]) { TrimShrinks(s[1..]); }
      else if IsSpace(s[|s| - 1]) { TrimShrinks(s[..|s| - 1]); }
    }
  }

  lemma TrimmedEnds(s: string)
    requires s != "" && TrimSpace(s) == s
    ensures !IsSpace(s[0]) && !IsSpace(s[|s| - 1])
  {
    TrimShrinks(s[1..]);
    TrimShrinks(s[..|s| - 1]);
  }

  lemma EndsOfPair(a: string, b: string)
    requires a != "" && b != ""
    ensures var pair := a + [','] + b; pair[0] == a[0] && pair[|pair| - 1] == b[|b| - 1]
  {
  }

  lemma {:induction false} JoinEnds(names: seq<Name>)
    requires names != [] && forall k :: 0 <= k < |names| ==> names[k] != ""
    ensures var joined, last := Join(names, ','), names[|names| - 1];
      joined != "" && joined[0] == names[0][0] && joined[|joined| - 1] == last[|last| - 1]
  {
    if |names| > 1 {
      JoinEnds(names[1..]);
      EndsOfPair(names[0], Join(names[1..], ','));
      assert names[1..][|names| - 2] == names[|names| - 1];
    }
  }

  /** Nonempty trimmed names without comma or line break are printed and parsed back. */
  lemma NamesAreParsedBack(names: seq<Name>, rest: string)
    requires names != [] && NewLines(rest)
    requires forall k :: 0 <= k < |names| ==>
      names[k] != "" && TrimSpace(names[k]) == names[k] && ',' !in names[k] && '\n' !in names[k]
    ensures ParseLoaded(PrintLoaded(names, rest)) == names
  {
    JoinEnds(names);
    TrimmedEnds(names[0]);
    TrimmedEnds(names[|names| - 1]);
    ParsesBack(names, rest);
  }
}

/** Which tool definitions are offered to the model, for a given context budget. */
module ToolSelection {
  import opened Common
  import opened Ordering

  datatype ToolDef = ToolDef(name: string, description: string, schema: string)

  /** The configured additions to and removals from the minimal core set. */
  datatype CoreConfig = CoreConfig(ultraAdd: set<string>, ultraRemove: set<string>)

  const ULTRA_CORE: set<string> := {"read_file", "list_files", "get_state", "kb_search", "submit_code"}
  const OPERATOR_ONLY: set<string> := {"budget_control", "install_package", "uninstall_package"}
  const SMALL_CONTEXT: int := 16384
  const MAX_TOOL_TOKENS: int := 5000

  function NameOf(t: ToolDef): string { t.name }

  /** Without a confirmation handler operator-only tools are not offered. */
  function Offered(defs: seq<ToolDef>, hasConfirmation: bool): seq<ToolDef>
  {
    if hasConfirmation then defs else Keep(defs, (t: ToolDef) => t.name !in OPERATOR_ONLY)
  }

  function CoreNames(registryCore: set<string>, cfg: CoreConfig, budget: int): set<string>
  {
    if budget <= SMALL_CONTEXT then registryCore * ((ULTRA_CORE + cfg.ultraAdd) - cfg.ultraRemove) else registryCore
  }

  /** `int(budget * 0.10)`: truncation toward zero. */
  function Tenth(budget: int): int
  {
    if budget >= 0 then budget / 10 else -(-budget / 10)
  }

  function MaxTools(core: set<string>, budget: int): nat
  {
    Max(|core|, Min(Tenth(budget), MAX_TOOL_TOKENS) / (if budget <= SMALL_CONTEXT then 150 else 80))
  }

  function CoreOf(defs: seq<ToolDef>, core: set<string>): seq<ToolDef>
  {
    Keep(defs, (t: ToolDef) => t.name in core)
  }

  function OthersOf(defs: seq<ToolDef>, core: set<string>): seq<ToolDef>
  {
    Keep(defs, (t: ToolDef) => t.name !in core)
  }

  function Select(defs: seq<ToolDef>, core: set<string>, maxTools: nat): seq<ToolDef>
  {
    var sorted := Sort(defs, NameOf);
    if maxTools >= |defs| then sorted
    else
      var inCore := CoreOf(sorted, core);
      var slots := Max(0, maxTools - |inCore|);
      var others := OthersOf(sorted, core);
      Sort(inCore + others[..Min(slots, |others|)], NameOf)
  }

  function SelectChatTools(defs: seq<ToolDef>, registryCore: set<string>, hasConfirmation: bool, cfg: CoreConfig,
                           budget: int): seq<ToolDef>
  {
    var core := CoreNames(registryCore, cfg, budget);
    Select(Offered(defs, hasConfirmation), core, MaxTools(core, budget))
  }

  // ---------- Filtering ----------

  lemma {:induction false} KeepSplits(defs: seq<ToolDef>, core: set<string>)
    ensures |CoreOf(defs, core)| + |OthersOf(defs, core)| == |defs|
  {
    if |defs| > 0 { KeepSplits(defs[1..], core); }
  }

  /** At most one tool per core name. */
  lemma {:induction false} CoreFits(tools: seq<ToolDef>, core: set<string>)
    requires DistinctKeys(tools, NameOf) && forall t :: t in tools ==> t.name in core
    ensures |tools| <= |core|
  {
    if |tools| > 0 {
      var name := tools[0].name;
      assert tools[0] in tools;
      forall t | t in tools[1..] ensures t.name in core - {name} {
        var k :| 0 <= k < |tools[1..]| && tools[1..][k] == t;
        assert tools[k + 1] == t;
      }
      CoreFits(tools[1..], core - {name});
    }
  }

  lemma SortDistinct(defs: seq<ToolDef>)
    requires DistinctKeys(defs, NameOf)
    ensures SortedBy(Sort(defs, NameOf), NameOf) && DistinctKeys(Sort(defs, NameOf), NameOf)
  {
    SortSorts(defs, NameOf);
    SortedDistinct(Sort(defs, NameOf), NameOf);
  }

  // ---------- Main results ----------

  lemma PickedDistinct(sorted: seq<ToolDef>, core: set<string>, n: nat)
    requires DistinctKeys(sorted, NameOf) && n <= |OthersOf(sorted, core)|
    ensures DistinctKeys(CoreOf(sorted, core) + OthersOf(sorted, core)[..n], NameOf)
  {
    var inCore, others := CoreOf(sorted, core), OthersOf(sorted, core);
    KeepDistinct(sorted, NameOf, (t: ToolDef) => t.name in core);
    KeepDistinct(sorted, NameOf, (t: ToolDef) => t.name !in core);
    forall i, j | 0 <= i < |inCore| && 0 <= j < |others| ensures inCore[i].name != others[j].name {
      assert inCore[i] in inCore && others[j] in others;
    }
  }

  lemma SelectFacts(defs: seq<ToolDef>, core: set<string>, maxTools: nat)
    requires DistinctKeys(defs, NameOf) && maxTools >= |core|
    ensures var r := Select(defs, core, maxTools);
      && SortedBy(r, NameOf)
      && |r| == Min(|defs|, maxTools)
      && (forall t :: t in r ==> t in defs)
      && (forall t :: t in defs && t.name in core ==> t in r)
  {
    SortDistinct(defs);
    var sorted := Sort(defs, NameOf);
    if maxTools < |defs| {
      var inCore, others := CoreOf(sorted, core), OthersOf(sorted, core);
      KeepSplits(sorted, core);
      KeepDistinct(sorted, NameOf, (t: ToolDef) => t.name in core);
      CoreFits(inCore, core);
      var n := maxTools - |inCore|;
      PickedDistinct(sorted, core, n);
      SortDistinct(inCore + others[..n]);
    }
  }

  /**
    The selection is sorted by name, holds exactly min(offered, max_tools) of the offered
    tools, and leaves out no offered core tool.
   */
  lemma SelectionIsExact(defs: seq<ToolDef>, registryCore: set<string>, hasConfirmation: bool, cfg: CoreConfig,
                         budget: int)
    requires DistinctKeys(defs, NameOf)
    ensures var r := SelectChatTools(defs, registryCore, hasConfirmation, cfg, budget);
      var offered, core := Offered(defs, hasConfirmation), CoreNames(registryCore, cfg, budget);
      && SortedBy(r, NameOf)
      && |r| == Min(|offered|, MaxTools(core, budget))
      && (forall t :: t in r ==> t in defs && (hasConfirmation || t.name !in OPERATOR_ONLY))
      && (forall t :: t in offered && t.name in core ==> t in r)
  {
    OfferedFacts(defs, hasConfirmation);
    var core := CoreNames(registryCore, cfg, budget);
    SelectFacts(Offered(defs, hasConfirmation), core, MaxTools(core, budget));
  }

  /** Without a confirmation handler the three operator-only tools are withheld. */
  predicate MayOffer(name: string, hasConfirmation: bool)
  {
    hasConfirmation || (name != "budget_control" && name != "install_package" && name != "uninstall_package")
  }

  /** The always-available tools, and in a small context only the minimal ones as configured. */
  predicate IsCore(name: string, registryCore: set<string>, cfg: CoreConfig, budget: int)
  {
    && name in registryCore
    && (budget <= 16384 ==>
          && name !in cfg.ultraRemove
          && (name in cfg.ultraAdd
              || name in ["read_file", "list_files", "get_state", "kb_search", "submit_code"]))
  }

  lemma CoreMeaning(name: string, registryCore: set<string>, cfg: CoreConfig, budget: int)
    ensures name in CoreNames(registryCore, cfg, budget) <==> IsCore(name, registryCore, cfg, budget)
  {}

  lemma CoreIs(core: set<string>, registryCore: set<string>, cfg: CoreConfig, budget: int)
    requires forall name :: name in core <==> IsCore(name, registryCore, cfg, budget)
    ensures core == CoreNames(registryCore, cfg, budget)
  {
    forall name ensures name in core <==> name in CoreNames(registryCore, cfg, budget) {
      CoreMeaning(name, registryCore, cfg, budget);
    }
  }

  lemma MayOfferMeans(hasConfirmation: bool)
    ensures forall name :: MayOffer(name, hasConfirmation) <==> hasConfirmation || name !in OPERATOR_ONLY
  {}

  /** How many definitions the budget pays for: a tenth of it, at most 5000 tokens, at 150 or 80 tokens each. */
  predicate Pays(budget: int, tokens: int, n: int)
  {
    var each := if budget <= 16384 then 150 else 80;
    && 10 * tokens <= budget < 10 * tokens + 10
    && n * each <= (if tokens < 5000 then tokens else 5000) < (n + 1) * each
  }

  lemma MaxToolsPays(core: set<string>, budget: int, tokens: int, n: int)
    requires budget >= 0 && Pays(budget, tokens, n)
    ensures MaxTools(core, budget) == Max(|core|, n)
  {
    assert tokens == Tenth(budget);
  }

  /** Exactly as many tools as the core has or the budget pays for, whichever is more, as far as there are any. */
  lemma SelectionCount(defs: seq<ToolDef>, registryCore: set<string>, hasConfirmation: bool, cfg: CoreConfig,
                       budget: int, core: set<string>, tokens: int, paid: int)
    requires DistinctKeys(defs, NameOf)
    requires forall name :: name in core <==> IsCore(name, registryCore, cfg, budget)
    requires if budget >= 0 then Pays(budget, tokens, paid) else paid == 0
    ensures var r := SelectChatTools(defs, registryCore, hasConfirmation, cfg, budget);
      && |r| == Min(|Offered(defs, hasConfirmation)|, Max(|core|, paid))
      && (forall t :: t in r ==> t in defs && MayOffer(t.name, hasConfirmation))
      && (forall t :: t in defs && MayOffer(t.name, hasConfirmation) && t.name in core ==> t in r)
    ensures DistinctKeys(Offered(defs, hasConfirmation), NameOf)
    ensures forall t :: t in Offered(defs, hasConfirmation) <==> t in defs && MayOffer(t.name, hasConfirmation)
  {
    CoreIs(core, registryCore, cfg, budget);
    MayOfferMeans(hasConfirmation);
    SelectionIsExact(defs, registryCore, hasConfirmation, cfg, budget);
    OfferedFacts(defs, hasConfirmation);
    if budget >= 0 { MaxToolsPays(core, budget, tokens, paid); }
  }

  /**
    Beyond the core tools, the definitions offered stay within 5000 tokens and a tenth of the
    context, at 150 or 80 tokens each.
   */
  lemma SelectionFitsBudget(defs: seq<ToolDef>, registryCore: set<string>, hasConfirmation: bool, cfg: CoreConfig,
                            budget: int)
    requires DistinctKeys(defs, NameOf)
    ensures var n := |SelectChatTools(defs, registryCore, hasConfirmation, cfg, budget)|;
      || n <= |registryCore|
      || (budget <= 16384 && n * 150 <= 5000 && n * 1500 <= budget)
      || (budget > 16384 && n * 80 <= 5000 && n * 800 <= budget)
  {
    SelectionIsExact(defs, registryCore, hasConfirmation, cfg, budget);
    CoreWithinRegistry(registryCore, cfg, budget);
  }

  lemma CoreWithinRegistry(registryCore: set<string>, cfg: CoreConfig, budget: int)
    ensures |CoreNames(registryCore, cfg, budget)| <= |registryCore|
  {
    var core := CoreNames(registryCore, cfg, budget);
    assert registryCore == core + (registryCore - core);
  }

  lemma PrefixIsDownward(others: seq<ToolDef>, n: nat, taken: ToolDef, earlier: ToolDef)
    requires SortedBy(others, NameOf) && n <= |others| && taken in others[..n] && earlier in others
    requires Less(earlier.name, taken.name)
    ensures earlier in others[..n]
  {
    var i :| 0 <= i < n && others[..n][i] == taken;
    var j :| 0 <= j < |others| && others[j] == earlier;
    LessIrreflexive(earlier.name);
    if j > i {
      LessTransitive(earlier.name, NameOf(others[i]), NameOf(others[j]));
    } else {
      assert others[..n][j] == earlier;
    }
  }

  /** The non-core tools offered are the alphabetically first ones. */
  lemma SelectionTakesFirst(defs: seq<ToolDef>, core: set<string>, maxTools: nat, taken: ToolDef, earlier: ToolDef)
    requires DistinctKeys(defs, NameOf) && maxTools >= |core|
    requires earlier in defs && earlier.name !in core && taken.name !in core && Less(earlier.name, taken.name)
    ensures taken in Select(defs, core, maxTools) ==> earlier in Select(defs, core, maxTools)
  {
    var sorted := Sort(defs, NameOf);
    if maxTools < |defs| && taken in Select(defs, core, maxTools) {
      SortDistinct(defs);
      var inCore, others := CoreOf(sorted, core), OthersOf(sorted, core);
      KeepSorted(sorted, NameOf, (t: ToolDef) => t.name !in core);
      var n := Min(Max(0, maxTools - |inCore|), |others|);
      assert taken in inCore + others[..n];
      PrefixIsDownward(others, n, taken, earlier);
    }
  }

  lemma SelectIgnoresOrder(a: seq<ToolDef>, b: seq<ToolDef>, core: set<string>, maxTools: nat)
    requires DistinctKeys(a, NameOf) && DistinctKeys(b, NameOf)
    requires forall t :: t in a <==> t in b
    ensures Select(a, core, maxTools) == Select(b, core, maxTools)
  {
    SortSorts(a, NameOf);
    SortSorts(b, NameOf);
    SortedUnique(Sort(a, NameOf), Sort(b, NameOf), NameOf);
    assert |a| == |Sort(a, NameOf)| == |b|;
  }

  lemma OfferedFacts(defs: seq<ToolDef>, hasConfirmation: bool)
    requires DistinctKeys(defs, NameOf)
    ensures DistinctKeys(Offered(defs, hasConfirmation), NameOf)
    ensures forall t ::
      t in Offered(defs, hasConfirmation) <==> t in defs && (hasConfirmation || t.name !in OPERATOR_ONLY)
  {
    KeepDistinct(defs, NameOf, (t: ToolDef) => t.name !in OPERATOR_ONLY);
  }

  /** The selection does not depend on the order of the tool map. */
  lemma SelectionIgnoresOrder(defs: seq<ToolDef>, defs': seq<ToolDef>, registryCore: set<string>,
                              hasConfirmation: bool, cfg: CoreConfig, budget: int)
    requires DistinctKeys(defs, NameOf) && DistinctKeys(defs', NameOf)
    requires forall t :: t in defs <==> t in defs'
    ensures SelectChatTools(defs, registryCore, hasConfirmation, cfg, budget)
         == SelectChatTools(defs', registryCore, hasConfirmation, cfg, budget)
  {
    OfferedFacts(defs, hasConfirmation);
    OfferedFacts(defs', hasConfirmation);
    var core := CoreNames(registryCore, cfg, budget);
    SelectIgnoresOrder(Offered(defs, hasConfirmation), Offered(defs', hasConfirmation), core, MaxTools(core, budget));
  }

  lemma SelectGrows(defs: seq<ToolDef>, core: set<string>, few: nat, many: nat)
    requires DistinctKeys(defs, NameOf) && |core| <= few <= many
    ensures forall t :: t in Select(defs, core, few) ==> t in Select(defs, core, many)
  {
    SelectFacts(defs, core, few);
    SelectFacts(defs, core, many);
    var sorted := Sort(defs, NameOf);
    if many < |defs| {
      var inCore, others := CoreOf(sorted, core), OthersOf(sorted, core);
      SortDistinct(defs);
      KeepSplits(sorted, core);
      KeepDistinct(sorted, NameOf, (t: ToolDef) => t.name in core);
      CoreFits(inCore, core);
      assert others[..few - |inCore|] <= others[..many - |inCore|];
    }
  }

  lemma MaxToolsGrows(core: set<string>, budget: int, budget': int)
    requires budget <= budget' && (budget <= SMALL_CONTEXT <==> budget' <= SMALL_CONTEXT)
    ensures |core| <= MaxTools(core, budget) <= MaxTools(core, budget')
  {
    assert Tenth(budget) <= Tenth(budget');
  }

  /** Within one budget regime a larger budget only adds tools. */
  lemma SelectionGrowsWithBudget(defs: seq<ToolDef>, registryCore: set<string>, hasConfirmation: bool, cfg: CoreConfig,
                                 budget: int, budget': int)
    requires DistinctKeys(defs, NameOf) && budget <= budget'
    requires budget <= SMALL_CONTEXT <==> budget' <= SMALL_CONTEXT
    ensures forall t :: t in SelectChatTools(defs, registryCore, hasConfirmation, cfg, budget)
                    ==> t in SelectChatTools(defs, registryCore, hasConfirmation, cfg, budget')
  {
    OfferedFacts(defs, hasConfirmation);
    var core, core' := CoreNames(registryCore, cfg, budget), CoreNames(registryCore, cfg, budget');
    assert core == core';
    MaxToolsGrows(core, budget, budget');
    SelectGrows(Offered(defs, hasConfirmation), core, MaxTools(core, budget), MaxTools(core, budget'));
  }
}

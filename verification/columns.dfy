/**
 * Header-to-column mapping of both parsers: `getColumnMapping`
 * (src/utils/blockingChartParser.ts:303-364) and `createColumnMapping`
 * (src/components/Import/FileBasedBlockingChartImport.tsx:521-643).
 */
module Columns {
  import opened Text
  import opened Rows

  /** The semantic fields a header can be mapped to. */
  datatype Field = Channel | Tactic | Platform | Objective | Placements | Optimization | Kpi
    | DemoTargeting | CpmCpp | ImpressionsGrps | MediaCost | AdServing | DvCost | MediaFee | WorkingBudget

  /**
   * What one header does to the map: assign its index to a field, claim the budget
   * column only when none is set yet (the "rightmost budget" backstop), or nothing.
   */
  datatype Rule = Assign(field: Field) | Backstop | NoMatch

  /** `col.toLowerCase().trim()`. */
  function Normal(header: string): string {
    Trim(Lower(header))
  }

  /** The long chain of working-budget variants, as written. */
  predicate WorkingBudgetHeader(h: string) {
    h == "total working media budget" || h == "working media budget" || h == "total working budget"
    || h == "working budget" || Contains(h, "total working media budget") || Contains(h, "working media budget")
    || Contains(h, "total working budget") || (Contains(h, "working") && Contains(h, "budget"))
    || (Contains(h, "total") && Contains(h, "working") && Contains(h, "media"))
  }

  /** The impressions test, as written. */
  predicate ImpressionsHeader(h: string) {
    Contains(h, "impression") || Contains(h, "grp") || h == "impressions/grps" || h == "impressions"
    || Contains(h, "impressions/grps") || Contains(h, "impressions")
  }

  /** The audience tests of the file path, tried before the cost-per test. */
  predicate AudienceHeader(h: string) {
    h == "audience" || h == "audiences"
    || (Contains(h, "audience") && !Contains(h, "cpm") && !Contains(h, "cpp"))
    || Contains(h, "demo") || Contains(h, "targeting") || Contains(h, "segment") || Contains(h, "persona")
    || Contains(h, "demographic") || Contains(h, "flavour") || Contains(h, "seeker")
  }

  /** The if/else-if chain on a normalised header; the first test that holds decides. */
  function RuleOf(h: string, src: Source): Rule {
    if Contains(h, "channel") then Assign(Channel)
    else if Contains(h, "tactic") then Assign(Tactic)
    else if Contains(h, "platform") then Assign(Platform)
    else if Contains(h, "objective") then Assign(Objective)
    else if Contains(h, "placement") then Assign(Placements)
    else if Contains(h, "optimization") then Assign(Optimization)
    else if Contains(h, "kpi") then Assign(Kpi)
    else if src == Paste && (Contains(h, "demo") || Contains(h, "targeting")) then Assign(DemoTargeting)
    else if src == File && AudienceHeader(h) then Assign(DemoTargeting)
    else if Contains(h, "cpm") || Contains(h, "cpp") || (src == File && Contains(h, "cost per")) then Assign(CpmCpp)
    else if ImpressionsHeader(h) then Assign(ImpressionsGrps)
    else if Contains(h, "media cost") && !Contains(h, "working") then Assign(MediaCost)
    else if Contains(h, "ad serving") then Assign(AdServing)
    else if Contains(h, "dv cost") then Assign(DvCost)
    else if Contains(h, "media fee") then Assign(MediaFee)
    else if WorkingBudgetHeader(h) then Assign(WorkingBudget)
    else if EndsWith(h, "budget") && !Contains(h, "impression") && !Contains(h, "grp") then Backstop
    else NoMatch
  }

  /** The rule of each header, column by column. */
  function Rules(headers: seq<string>, src: Source): (rules: seq<Rule>)
    ensures |rules| == |headers|
    ensures forall i :: 0 <= i < |headers| ==> rules[i] == RuleOf(Normal(headers[i]), src)
  {
    seq(|headers|, i requires 0 <= i < |headers| => RuleOf(Normal(headers[i]), src))
  }

  /** Apply the rule of column `i` to the map built from the columns before it. */
  function Apply(m: map<Field, int>, rule: Rule, i: nat): map<Field, int> {
    match rule
    case Assign(f) => m[f := i]
    case Backstop => if WorkingBudget in m then m else m[WorkingBudget := i]
    case NoMatch => m
  }

  /** The record the `forEach` builds: the rules applied left to right, column `i` to index `i`. */
  function Build(rules: seq<Rule>): map<Field, int>
    decreases |rules|
  {
    if rules == [] then map[]
    else Apply(Build(rules[..|rules| - 1]), rules[|rules| - 1], |rules| - 1)
  }

  /** The record built from a header row. */
  function Found(headers: seq<string>, src: Source): map<Field, int> {
    Build(Rules(headers, src))
  }

  /** `map.f || d`: a missing entry and an entry of 0 both give the default. */
  function OrDefault(m: map<Field, int>, f: Field, d: int): int {
    if f in m && m[f] != 0 then m[f] else d
  }

  /** The returned column map, with each parser's defaults. */
  function WithDefaults(m: map<Field, int>, src: Source): ColumnMap {
    ColumnMap(
      OrDefault(m, Channel, 0), OrDefault(m, Tactic, 1), OrDefault(m, Platform, 2),
      OrDefault(m, Objective, 3), OrDefault(m, Placements, 4), OrDefault(m, Optimization, 5),
      OrDefault(m, Kpi, 6), OrDefault(m, DemoTargeting, if src == Paste then 7 else -1),
      OrDefault(m, CpmCpp, 8), OrDefault(m, ImpressionsGrps, 9), OrDefault(m, MediaCost, -1),
      OrDefault(m, AdServing, -1), OrDefault(m, DvCost, -1), OrDefault(m, MediaFee, -1),
      OrDefault(m, WorkingBudget, -1))
  }

  /** The column of `f` in a column map. */
  function ColumnOf(cm: ColumnMap, f: Field): int {
    match f
    case Channel => cm.channel
    case Tactic => cm.tactic
    case Platform => cm.platform
    case Objective => cm.objective
    case Placements => cm.placements
    case Optimization => cm.optimization
    case Kpi => cm.kpi
    case DemoTargeting => cm.demoTargeting
    case CpmCpp => cm.cpmCpp
    case ImpressionsGrps => cm.impressionsGrps
    case MediaCost => cm.mediaCost
    case AdServing => cm.adServing
    case DvCost => cm.dvCost
    case MediaFee => cm.mediaFee
    case WorkingBudget => cm.totalWorkingMediaBudget
  }

  /** The default each parser returns for an unmapped field. */
  function DefaultOf(f: Field, src: Source): int {
    match f
    case Channel => 0
    case Tactic => 1
    case Platform => 2
    case Objective => 3
    case Placements => 4
    case Optimization => 5
    case Kpi => 6
    case DemoTargeting => if src == Paste then 7 else -1
    case CpmCpp => 8
    case ImpressionsGrps => 9
    case _ => -1
  }

  /** One more column: its rule applied to the map built so far. */
  lemma BuildStep(rules: seq<Rule>, i: nat)
    requires i < |rules|
    ensures Build(rules[..i + 1]) == Apply(Build(rules[..i]), rules[i], i)
  {
    assert rules[..i + 1][..i] == rules[..i];
  }

  /** `getColumnMapping` / `createColumnMapping`: the `forEach` over the headers, then the defaults. */
  method MapColumns(headers: seq<string>, src: Source) returns (cm: ColumnMap)
    ensures cm == WithDefaults(Found(headers, src), src)
  {
    ghost var rules := Rules(headers, src);
    var m: map<Field, int> := map[];
    var i := 0;
    while i < |headers|
      invariant 0 <= i <= |headers|
      invariant m == Build(rules[..i])
    {
      var rule := RuleOf(Normal(headers[i]), src);
      BuildStep(rules, i);
      match rule {
        case Assign(f) =>
          m := m[f := i];
        case Backstop =>
          if WorkingBudget !in m {
            m := m[WorkingBudget := i];
          }
        case NoMatch =>
      }
      i := i + 1;
    }
    assert rules[..i] == rules;
    cm := WithDefaults(m, src);
  }

  // ------------------------------------------------------------ properties

  /** Each field of the returned map is the found column, unless none was found or it was column 0. */
  lemma WithDefaultsField(m: map<Field, int>, src: Source, f: Field)
    ensures ColumnOf(WithDefaults(m, src), f) == OrDefault(m, f, DefaultOf(f, src))
  {
  }

  /**
   * Every field but the budget goes to the LAST column whose rule names it, and is
   * absent when no column does.
   */
  lemma {:induction false} BuildField(rules: seq<Rule>, f: Field)
    requires f != WorkingBudget
    ensures f in Build(rules) <==> exists i :: 0 <= i < |rules| && rules[i] == Assign(f)
    ensures f in Build(rules) ==>
      var i := Build(rules)[f];
      0 <= i < |rules| && rules[i] == Assign(f) && forall j :: i < j < |rules| ==> rules[j] != Assign(f)
    decreases |rules|
  {
    if rules != [] {
      var init := rules[..|rules| - 1];
      BuildField(init, f);
      assert forall j :: 0 <= j < |init| ==> init[j] == rules[j];
    }
  }

  /** The budget is set exactly when some column assigns it or claims it as a backstop. */
  lemma {:induction false} BuildBudgetSet(rules: seq<Rule>)
    ensures WorkingBudget in Build(rules) <==>
      exists i :: 0 <= i < |rules| && (rules[i] == Assign(WorkingBudget) || rules[i] == Backstop)
    decreases |rules|
  {
    if rules != [] {
      var init := rules[..|rules| - 1];
      BuildBudgetSet(init);
      assert forall j :: 0 <= j < |init| ==> init[j] == rules[j];
    }
  }

  /**
   * The budget goes to the LAST column that names a working-media budget; failing
   * that, to the FIRST column that only ends in "budget".
   */
  lemma {:induction false} BuildBudget(rules: seq<Rule>)
    ensures (exists i :: 0 <= i < |rules| && rules[i] == Assign(WorkingBudget)) ==>
      WorkingBudget in Build(rules) &&
      var i := Build(rules)[WorkingBudget];
      0 <= i < |rules| && rules[i] == Assign(WorkingBudget)
      && forall j :: i < j < |rules| ==> rules[j] != Assign(WorkingBudget)
    ensures (forall i :: 0 <= i < |rules| ==> rules[i] != Assign(WorkingBudget)) && WorkingBudget in Build(rules) ==>
      var i := Build(rules)[WorkingBudget];
      0 <= i < |rules| && rules[i] == Backstop && forall j :: 0 <= j < i ==> rules[j] != Backstop
    decreases |rules|
  {
    BuildBudgetSet(rules);
    if rules != [] {
      var init := rules[..|rules| - 1];
      BuildBudget(init);
      BuildBudgetSet(init);
      assert forall j :: 0 <= j < |init| ==> init[j] == rules[j];
    }
  }

  /**
   * The list of working-budget variants collapses: "working" together with "budget",
   * or with both "total" and "media".
   */
  lemma WorkingBudgetHeaderIff(h: string)
    ensures WorkingBudgetHeader(h) <==>
      Contains(h, "working") && (Contains(h, "budget") || (Contains(h, "total") && Contains(h, "media")))
  {
    if Contains(h, "total working media budget") || h == "total working media budget" {
      TotalWorkingMediaBudgetWords();
      PhraseHolds(h, "total working media budget", 6, 20);
    }
    if Contains(h, "working media budget") || h == "working media budget" {
      WorkingMediaBudgetWords();
      PhraseHolds(h, "working media budget", 0, 14);
    }
    if Contains(h, "total working budget") || h == "total working budget" {
      TotalWorkingBudgetWords();
      PhraseHolds(h, "total working budget", 6, 14);
    }
    if Contains(h, "working budget") || h == "working budget" {
      WorkingBudgetWords();
      PhraseHolds(h, "working budget", 0, 8);
    }
  }

  // Where "working" and "budget" sit in each budget phrase.

  lemma TotalWorkingMediaBudgetWords()
    ensures OccursAt("total working media budget", "working", 6) && OccursAt("total working media budget", "budget", 20)
  {
    assert "total working media budget"[6..13] == "working";
    assert "total working media budget"[20..26] == "budget";
  }

  lemma WorkingMediaBudgetWords()
    ensures OccursAt("working media budget", "working", 0) && OccursAt("working media budget", "budget", 14)
  {
  }

  lemma TotalWorkingBudgetWords()
    ensures OccursAt("total working budget", "working", 6) && OccursAt("total working budget", "budget", 14)
  {
    assert "total working budget"[6..13] == "working";
    assert "total working budget"[14..20] == "budget";
  }

  lemma WorkingBudgetWords()
    ensures OccursAt("working budget", "working", 0) && OccursAt("working budget", "budget", 8)
  {
  }

  /** A text equal to or holding a phrase with "working" at `w` and "budget" at `b` holds both words. */
  lemma PhraseHolds(h: string, p: string, w: nat, b: nat)
    requires Contains(h, p) || h == p
    requires OccursAt(p, "working", w) && OccursAt(p, "budget", b)
    ensures Contains(h, "working") && Contains(h, "budget")
  {
    if h == p {
      assert OccursAt(h, p, 0);
    }
    ContainsTrans(h, p, "working");
    ContainsTrans(h, p, "budget");
  }

  /** The impressions test is just "impression" or "grp". */
  lemma ImpressionsHeaderIff(h: string)
    ensures ImpressionsHeader(h) <==> Contains(h, "impression") || Contains(h, "grp")
  {
    if Contains(h, "impressions") {
      assert OccursAt("impressions", "impression", 0);
      ContainsTrans(h, "impressions", "impression");
    }
    if Contains(h, "impressions/grps") {
      assert OccursAt("impressions/grps", "impression", 0);
      ContainsTrans(h, "impressions/grps", "impression");
    }
    if h == "impressions" || h == "impressions/grps" {
      assert OccursAt(h, "impression", 0);
    }
  }

  /**
   * The two parsers map a header the same way unless it mentions an audience, a
   * segment, a persona, a flavour, a seeker or "cost per".
   */
  lemma RulesAgree(h: string)
    requires !Contains(h, "audience") && !Contains(h, "segment") && !Contains(h, "persona")
    requires !Contains(h, "flavour") && !Contains(h, "seeker") && !Contains(h, "cost per")
    ensures RuleOf(h, Paste) == RuleOf(h, File)
  {
    if Contains(h, "demographic") {
      assert OccursAt("demographic", "demo", 0);
      ContainsTrans(h, "demographic", "demo");
    }
    if h == "audience" || h == "audiences" {
      assert OccursAt(h, "audience", 0);
    }
  }

  /** None of the keys tested before the targeting rules occurs in `h`. */
  predicate NoEarlierKey(h: string) {
    !Contains(h, "channel") && !Contains(h, "tactic") && !Contains(h, "platform") && !Contains(h, "objective")
    && !Contains(h, "placement") && !Contains(h, "optimization") && !Contains(h, "kpi")
  }

  lemma AudienceKeys()
    ensures NoEarlierKey("audience") && NoEarlierKey("audience cpm")
  {
    NotContainedPair("audience", "channel");
    NotContainedPair("audience", "tactic");
    NotContainedPair("audience", "platform");
    NotContainedPair("audience", "objective");
    NotContainedPair("audience", "placement");
    NotContainedPair("audience", "optimization");
    NotContainedPair("audience", "kpi");
    NotContainedPair("audience cpm", "channel");
    NotContainedPair("audience cpm", "tactic");
    NotContainedPair("audience cpm", "platform");
    NotContainedPair("audience cpm", "objective");
    NotContainedPair("audience cpm", "placement");
    NotContainedPair("audience cpm", "optimization");
    NotContainedPair("audience cpm", "kpi");
  }

  /**
   * An uploaded "Audience CPM" header is the cost column, not the audience, while a
   * bare "Audience" is the audience column.
   */
  lemma AudienceCpmIsCost()
    ensures RuleOf("audience cpm", File) == Assign(CpmCpp)
    ensures RuleOf("audience", File) == Assign(DemoTargeting)
  {
    var a := "audience cpm";
    AudienceKeys();
    assert OccursAt(a, "cpm", 9);
    NotContainedPair(a, "demo");
    NotContainedPair(a, "targeting");
    NotContainedPair(a, "segment");
    NotContainedPair(a, "persona");
    NotContainedPair(a, "demographic");
    NotContainedPair(a, "flavour");
    NotContainedPair(a, "seeker");
    assert !AudienceHeader(a);
  }

  /** A header that is only "tactic" gets the tactic rule, and "channel" the channel rule. */
  lemma TacticChannelRules(src: Source)
    ensures RuleOf("tactic", src) == Assign(Tactic)
    ensures RuleOf("channel", src) == Assign(Channel)
  {
    assert OccursAt("tactic", "tactic", 0) && OccursAt("channel", "channel", 0);
    NotContained("tactic", "channel");
  }

  /**
   * The `||` defaults swallow column 0: a tactic column first and a channel column
   * second map BOTH tactic and channel to column 1.
   */
  lemma ZeroColumnFallsBack(src: Source)
    ensures var m := Build([Assign(Tactic), Assign(Channel)]);
      m[Tactic] == 0 && WithDefaults(m, src).tactic == 1 && WithDefaults(m, src).channel == 1
  {
    var rules := [Assign(Tactic), Assign(Channel)];
    assert rules[..1] == [Assign(Tactic)] && rules[..1][..0] == [];
  }
}

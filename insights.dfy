/** The vocabulary shared by the analysers: the data dictionary they read
    (every key optional, as in the dict the application hands them), the
    insight records they emit, and the recommendations derived from those.
    The free-text `insight` and `recommendation` strings are not modelled;
    every other field an insight or a recommendation carries is. */
module Insights {
  import opened Common
  import opened Assoc
  import opened JobAggregator

  /** The keys of the data dictionary the analysers look up. `None` is a
      missing key. */
  datatype AnalysisInput = AnalysisInput(
    companies: Option<seq<string>>,
    hiringVelocity: Option<seq<Row<int>>>,
    rolesByCompany: Option<Dict<string, Counts<string>>>,
    locationsByCompany: Option<Dict<string, Counts<string>>>,
    skillsByCompany: Option<Dict<string, Counts<string>>>,
    roleDistribution: Option<seq<Row<string>>>,
    locationDistribution: Option<seq<Row<string>>>)

  /** One insight per `type` the analysers emit. */
  datatype Insight =
    | HiringSurge(company: string, percentChange: real)
    | HiringDecline(company: string, percentChange: real)
    | LeadershipChanges(company: string, count: int)
    | TechnologyFocus(company: string, category: string, count: int)
    | RemoteWork(company: string, percentage: real)
    | GeographicExpansion(company: string, region: string, count: int)
    | EmergingSkill(skill: string, prevalence: real, demand: int)
    | CompetitiveSkill(skill: string, prevalence: real, demand: int)
    | UniqueSkill(company: string, skill: string, count: int)
    | CategoryFocus(company: string, category: string, percentage: real)
    | DivergentStrategy(category: string, topCompany: string, topPercentage: real,
                        bottomCompany: string, bottomPercentage: real, difference: real)
    | GeographicShift(company: string, region: string, percentage: real)
    | IndustryLeader(company: string, industry: string, velocity: real,
                     industryAverage: real, percentageAbove: real)
    | IndustrySkills(industry: string, topSkills: seq<string>)
    | IndustrySpecificSkill(industry: string, skill: string)
    | IndustryHubs(industry: string, topLocations: seq<string>)
    /** An insight of a type that no rule of the recommenders or of the
        digest reads. */
    | OtherInsight

  /** The `type` of an insight. */
  datatype Kind =
    | HiringSurgeType | HiringDeclineType | LeadershipChangesType | TechnologyFocusType
    | RemoteWorkType | GeographicExpansionType | EmergingSkillType | CompetitiveSkillType
    | UniqueSkillType | CategoryFocusType | DivergentStrategyType | GeographicShiftType
    | IndustryLeaderType | IndustrySkillsType | IndustrySpecificSkillType | IndustryHubsType
    | OtherType

  function KindOf(i: Insight): Kind
  {
    match i
    case HiringSurge(_, _) => HiringSurgeType
    case HiringDecline(_, _) => HiringDeclineType
    case LeadershipChanges(_, _) => LeadershipChangesType
    case TechnologyFocus(_, _, _) => TechnologyFocusType
    case RemoteWork(_, _) => RemoteWorkType
    case GeographicExpansion(_, _, _) => GeographicExpansionType
    case EmergingSkill(_, _, _) => EmergingSkillType
    case CompetitiveSkill(_, _, _) => CompetitiveSkillType
    case UniqueSkill(_, _, _) => UniqueSkillType
    case CategoryFocus(_, _, _) => CategoryFocusType
    case DivergentStrategy(_, _, _, _, _, _) => DivergentStrategyType
    case GeographicShift(_, _, _) => GeographicShiftType
    case IndustryLeader(_, _, _, _, _) => IndustryLeaderType
    case IndustrySkills(_, _) => IndustrySkillsType
    case IndustrySpecificSkill(_, _) => IndustrySpecificSkillType
    case IndustryHubs(_, _) => IndustryHubsType
    case OtherInsight => OtherType
  }

  /** The `type` string each kind is written as. */
  function TypeName(k: Kind): string
  {
    match k
    case HiringSurgeType => "hiring_surge"
    case HiringDeclineType => "hiring_decline"
    case LeadershipChangesType => "leadership_changes"
    case TechnologyFocusType => "technology_focus"
    case RemoteWorkType => "remote_work"
    case GeographicExpansionType => "geographic_expansion"
    case EmergingSkillType => "emerging_skill"
    case CompetitiveSkillType => "competitive_skill"
    case UniqueSkillType => "unique_skill"
    case CategoryFocusType => "category_focus"
    case DivergentStrategyType => "divergent_strategy"
    case GeographicShiftType => "geographic_shift"
    case IndustryLeaderType => "industry_leader"
    case IndustrySkillsType => "industry_skills"
    case IndustrySpecificSkillType => "industry_specific_skill"
    case IndustryHubsType => "industry_hubs"
    case OtherType => "other"
  }

  datatype Priority = High | Medium | Low

  /** One recommendation per `type` the recommenders emit. */
  datatype Recommendation =
    | SkillInvestment(skills: seq<string>, priority: Priority)
    | LocationStrategy(location: string, priority: Priority)
    | CompetitorAnalysis(company: string, priority: Priority)
    | Specialization(skill: string, priority: Priority)
    | GeographicExpansionPlan(region: string, priority: Priority)
    | CompetitiveMonitoring(companies: seq<string>, priority: Priority)
    | TechnologyInvestment(technology: string, priority: Priority)
    | CompetitiveAdvantage(company: string, skill: string, priority: Priority)
    | StrategicShift(companies: seq<string>, priority: Priority)
    | StrategicPositioning(category: string, companies: seq<string>, priority: Priority)

  /** `sum(count for key, count in d.items() if any(w in key for w in words))`. */
  function SumContaining(d: Counts<string>, words: seq<string>): int
  {
    if d == [] then 0
    else SumContaining(d[..|d| - 1], words) + (if ContainsAny(words, d[|d| - 1].0) then d[|d| - 1].1 else 0)
  }

  /** The same sum with keywords and keys compared after `lower()`. */
  function SumMatching(d: Counts<string>, words: seq<string>): int
  {
    if d == [] then 0
    else SumMatching(d[..|d| - 1], words) + (if ContainsAnyIgnoringCase(words, d[|d| - 1].0) then d[|d| - 1].1 else 0)
  }

  /** A conditional sum over non-negative counts is between 0 and the total. */
  lemma {:induction false} SumContainingBounds(d: Counts<string>, words: seq<string>)
    requires forall i | 0 <= i < |d| :: d[i].1 >= 0
    ensures 0 <= SumContaining(d, words) <= SumValues(d)
  {
    if d != [] {
      SumContainingBounds(d[..|d| - 1], words);
      SumValuesAppend(d[..|d| - 1], d[|d| - 1]);
      assert d == d[..|d| - 1] + [d[|d| - 1]];
    }
  }

  lemma {:induction false} SumMatchingBounds(d: Counts<string>, words: seq<string>)
    requires forall i | 0 <= i < |d| :: d[i].1 >= 0
    ensures 0 <= SumMatching(d, words) <= SumValues(d)
  {
    if d != [] {
      SumMatchingBounds(d[..|d| - 1], words);
      SumValuesAppend(d[..|d| - 1], d[|d| - 1]);
      assert d == d[..|d| - 1] + [d[|d| - 1]];
    }
  }

  /** Insights produced entry by entry over a dict, in key order:
      `for key, value in d.items(): insights += f(key, value)`. */
  function PerEntry<V>(d: Dict<string, V>, f: (string, V) -> seq<Insight>): seq<Insight>
  {
    if d == [] then [] else PerEntry(d[..|d| - 1], f) + f(d[|d| - 1].0, d[|d| - 1].1)
  }

  lemma PerEntryStep<V>(d: Dict<string, V>, f: (string, V) -> seq<Insight>, i: nat)
    requires i < |d|
    ensures PerEntry(d[..i + 1], f) == PerEntry(d[..i], f) + f(d[i].0, d[i].1)
  {
    assert d[..i + 1][..i] == d[..i];
  }

  /** An insight is produced exactly when some entry produces it. */
  lemma {:induction false} PerEntryMembers<V>(d: Dict<string, V>, f: (string, V) -> seq<Insight>, x: Insight)
    ensures x in PerEntry(d, f) ==> exists i | 0 <= i < |d| :: x in f(d[i].0, d[i].1)
    ensures (exists i | 0 <= i < |d| :: x in f(d[i].0, d[i].1)) ==> x in PerEntry(d, f)
  {
    if d != [] {
      var n := |d| - 1;
      PerEntryMembers(d[..n], f, x);
      if x in PerEntry(d, f) && x !in PerEntry(d[..n], f) {
        assert x in f(d[n].0, d[n].1);
      }
      if i :| 0 <= i < |d| && x in f(d[i].0, d[i].1) {
        if i < n {
          assert d[..n][i] == d[i];
        }
      }
    }
  }

  /** Insights produced item by item over a list, each with the help of
      the same context: `for x in xs: insights += f(ctx, x)`. */
  function PerItem<A, T>(xs: seq<T>, ctx: A, f: (A, T) -> seq<Insight>): seq<Insight>
  {
    if xs == [] then [] else PerItem(xs[..|xs| - 1], ctx, f) + f(ctx, xs[|xs| - 1])
  }

  lemma PerItemStep<A, T>(xs: seq<T>, ctx: A, f: (A, T) -> seq<Insight>, i: nat)
    requires i < |xs|
    ensures PerItem(xs[..i + 1], ctx, f) == PerItem(xs[..i], ctx, f) + f(ctx, xs[i])
  {
    assert xs[..i + 1][..i] == xs[..i];
  }

  /** An insight is produced exactly when some item produces it. */
  lemma {:induction false} PerItemMembers<A, T>(xs: seq<T>, ctx: A, f: (A, T) -> seq<Insight>, x: Insight)
    ensures x in PerItem(xs, ctx, f) ==> exists i | 0 <= i < |xs| :: x in f(ctx, xs[i])
    ensures (exists i | 0 <= i < |xs| :: x in f(ctx, xs[i])) ==> x in PerItem(xs, ctx, f)
  {
    if xs != [] {
      var n := |xs| - 1;
      PerItemMembers(xs[..n], ctx, f, x);
      if x in PerItem(xs, ctx, f) && x !in PerItem(xs[..n], ctx, f) {
        assert x in f(ctx, xs[n]);
      }
      if i :| 0 <= i < |xs| && x in f(ctx, xs[i]) {
        if i < n {
          assert xs[..n][i] == xs[i];
        }
      }
    }
  }
}

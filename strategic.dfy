/** `generate_strategic_recommendations`: recommendations drawn from the
    whole list of insights after grouping it by type, one rule per type,
    in a fixed order. */
module StrategicRecommendations {
  import opened Common
  import opened Assoc
  import opened Sorting
  import opened Insights
  import opened Recommendations

  // ---------------------------------------------------------------------
  // Reading one field over a group

  /** The fields each rule reads, on insights of the type it groups. */
  function EmergingName(x: Insight): string { if x.EmergingSkill? then x.skill else "" }
  function ShiftRegion(x: Insight): string { if x.GeographicShift? then x.region else "" }
  function SurgeCompany(x: Insight): string { if x.HiringSurge? then x.company else "" }
  function FocusCategory(x: Insight): string { if x.TechnologyFocus? then x.category else "" }
  function LeadershipCompany(x: Insight): string { if x.LeadershipChanges? then x.company else "" }

  /** The value of a field over the insights of a type, in input order. */
  function FieldOfKind(insights: seq<Insight>, kind: Kind, f: Insight -> string): seq<string>
  {
    MapSeq(OfKind(insights, kind), f)
  }

  /** A value is listed exactly when an insight of that type carries it. */
  lemma FieldOfKindSound(insights: seq<Insight>, kind: Kind, f: Insight -> string, s: string) returns (x: Insight)
    requires s in FieldOfKind(insights, kind, f)
    ensures x in insights && KindOf(x) == kind && f(x) == s
  {
    var g := OfKind(insights, kind);
    var j :| 0 <= j < |g| && MapSeq(g, f)[j] == s;
    x := g[j];
    OfKindMembers(insights, kind, x);
  }

  lemma FieldOfKindComplete(insights: seq<Insight>, kind: Kind, f: Insight -> string, x: Insight)
    requires x in insights && KindOf(x) == kind
    ensures f(x) in FieldOfKind(insights, kind, f)
  {
    var g := OfKind(insights, kind);
    OfKindMembers(insights, kind, x);
    var j :| 0 <= j < |g| && g[j] == x;
    assert MapSeq(g, f)[j] == f(x);
  }

  // ---------------------------------------------------------------------
  // Counter.most_common(1)

  function CountRatio(e: (string, int)): Ratio
  {
    Finite(e.1 as real)
  }

  /** `Counter(xs).most_common(1)[0]`, `None` when `xs` is empty: the
      first counted value (in order of first occurrence) with the largest
      count. */
  function MostCommon(xs: seq<string>): Option<(string, int)>
  {
    var counts := TallyOf(xs);
    if counts == [] then None else Some(counts[FirstMaxIndex(counts, CountRatio)])
  }

  /** The most common value occurs in `xs`, with its count, and no value
      occurs more often. */
  lemma MostCommonSpec(xs: seq<string>)
    ensures MostCommon(xs).None? <==> xs == []
    ensures MostCommon(xs).Some? ==> MostCommon(xs).value.0 in xs
    ensures MostCommon(xs).Some? ==> MostCommon(xs).value.1 == multiset(xs)[MostCommon(xs).value.0]
    ensures MostCommon(xs).Some? ==> forall y :: multiset(xs)[y] <= MostCommon(xs).value.1
  {
    var counts := TallyOf(xs);
    TallyOfCorrect(xs);
    if xs != [] {
      assert xs[0] in SetOf(xs);
      assert xs[0] in SetOf(Keys(counts));
      var k := FirstMaxIndex(counts, CountRatio);
      var m := counts[k];
      GetAtIndex(counts, k);
      assert GetOr(counts, m.0, 0) == m.1;
      assert m.0 in SetOf(Keys(counts));
      forall y ensures multiset(xs)[y] <= m.1 {
        if y in xs {
          assert y in SetOf(Keys(counts));
          var j :| 0 <= j < |counts| && Keys(counts)[j] == y;
          GetAtIndex(counts, j);
          assert AtMost(CountRatio(counts[j]), CountRatio(counts[k]));
        }
      }
    }
  }

  // ---------------------------------------------------------------------
  // The rules

  /** `skill_investment` from the first three emerging skills. */
  function InvestmentRec(g: seq<Insight>): (out: seq<Recommendation>)
    ensures |out| <= 1 && forall r | r in out :: r.SkillInvestment?
  {
    var skills := MapSeq(g, EmergingName);
    if skills != [] then [SkillInvestment(Take(skills, 3), High)] else []
  }

  /** `geographic_expansion` into the region most shifting companies share,
      when at least two do. */
  function ExpansionRec(g: seq<Insight>): (out: seq<Recommendation>)
    ensures |out| <= 1 && forall r | r in out :: r.GeographicExpansionPlan?
  {
    match MostCommon(MapSeq(g, ShiftRegion))
    case Some((region, count)) => if count >= 2 then [GeographicExpansionPlan(region, Medium)] else []
    case None => []
  }

  /** `competitive_monitoring` of the first three surging companies. */
  function MonitoringRec(g: seq<Insight>): (out: seq<Recommendation>)
    ensures |out| <= 1 && forall r | r in out :: r.CompetitiveMonitoring?
  {
    var companies := MapSeq(g, SurgeCompany);
    if companies != [] then [CompetitiveMonitoring(Take(companies, 3), High)] else []
  }

  /** `technology_investment` in the technology most focusing companies
      share, when at least two do. */
  function TechnologyRec(g: seq<Insight>): (out: seq<Recommendation>)
    ensures |out| <= 1 && forall r | r in out :: r.TechnologyInvestment?
  {
    match MostCommon(MapSeq(g, FocusCategory))
    case Some((tech, count)) => if count >= 2 then [TechnologyInvestment(tech, High)] else []
    case None => []
  }

  /** `competitive_advantage` from the first unique skill. */
  function AdvantageRec(g: seq<Insight>): (out: seq<Recommendation>)
    ensures |out| <= 1 && forall r | r in out :: r.CompetitiveAdvantage?
  {
    if g != [] && g[0].UniqueSkill? then [CompetitiveAdvantage(g[0].company, g[0].skill, Medium)] else []
  }

  /** `strategic_shift` of the first two companies hiring leaders. */
  function ShiftRec(g: seq<Insight>): (out: seq<Recommendation>)
    ensures |out| <= 1 && forall r | r in out :: r.StrategicShift?
  {
    var companies := MapSeq(g, LeadershipCompany);
    if companies != [] then [StrategicShift(Take(companies, 2), Medium)] else []
  }

  /** `strategic_positioning` from one divergent strategy. */
  function PositioningOf(x: Insight): Recommendation
  {
    if x.DivergentStrategy? then StrategicPositioning(x.category, [x.topCompany, x.bottomCompany], Low)
    else StrategicPositioning("", [], Low)
  }

  /** One positioning per divergent strategy, for the first two. */
  function PositioningRecs(g: seq<Insight>): (out: seq<Recommendation>)
    ensures |out| <= 2 && forall r | r in out :: r.StrategicPositioning?
  {
    MapSeq(Take(g, 2), PositioningOf)
  }

  /** What `generate_strategic_recommendations` returns, rule by rule. */
  function StrategicRecsFor(insights: seq<Insight>): seq<Recommendation>
  {
    InvestmentRec(OfKind(insights, EmergingSkillType)) +
    ExpansionRec(OfKind(insights, GeographicShiftType)) +
    MonitoringRec(OfKind(insights, HiringSurgeType)) +
    TechnologyRec(OfKind(insights, TechnologyFocusType)) +
    AdvantageRec(OfKind(insights, UniqueSkillType)) +
    ShiftRec(OfKind(insights, LeadershipChangesType)) +
    PositioningRecs(OfKind(insights, DivergentStrategyType))
  }

  /** One rule's block of the method: it reads the group of its type and
      appends what the rule makes. */
  method AppendInvestment(recs: seq<Recommendation>, types: Dict<Kind, seq<Insight>>) returns (out: seq<Recommendation>)
    ensures out == recs + InvestmentRec(GetOr(types, EmergingSkillType, []))
  {
    out := recs;
    if HasKey(types, EmergingSkillType) {
      var g := GetOr(types, EmergingSkillType, []);
      var skills := MapSeq(g, EmergingName);
      if skills != [] {
        out := out + [SkillInvestment(Take(skills, 3), High)];
      }
    }
  }

  method AppendExpansion(recs: seq<Recommendation>, types: Dict<Kind, seq<Insight>>) returns (out: seq<Recommendation>)
    ensures out == recs + ExpansionRec(GetOr(types, GeographicShiftType, []))
  {
    out := recs;
    if HasKey(types, GeographicShiftType) {
      var g := GetOr(types, GeographicShiftType, []);
      var top := MostCommon(MapSeq(g, ShiftRegion));
      if top.Some? && top.value.1 >= 2 {
        out := out + [GeographicExpansionPlan(top.value.0, Medium)];
      }
    }
  }

  method AppendMonitoring(recs: seq<Recommendation>, types: Dict<Kind, seq<Insight>>) returns (out: seq<Recommendation>)
    ensures out == recs + MonitoringRec(GetOr(types, HiringSurgeType, []))
  {
    out := recs;
    if HasKey(types, HiringSurgeType) {
      var g := GetOr(types, HiringSurgeType, []);
      var companies := MapSeq(g, SurgeCompany);
      if companies != [] {
        out := out + [CompetitiveMonitoring(Take(companies, 3), High)];
      }
    }
  }

  method AppendTechnology(recs: seq<Recommendation>, types: Dict<Kind, seq<Insight>>) returns (out: seq<Recommendation>)
    ensures out == recs + TechnologyRec(GetOr(types, TechnologyFocusType, []))
  {
    out := recs;
    if HasKey(types, TechnologyFocusType) {
      var g := GetOr(types, TechnologyFocusType, []);
      var top := MostCommon(MapSeq(g, FocusCategory));
      if top.Some? && top.value.1 >= 2 {
        out := out + [TechnologyInvestment(top.value.0, High)];
      }
    }
  }

  method AppendAdvantage(recs: seq<Recommendation>, types: Dict<Kind, seq<Insight>>) returns (out: seq<Recommendation>)
    ensures out == recs + AdvantageRec(GetOr(types, UniqueSkillType, []))
  {
    out := recs;
    if HasKey(types, UniqueSkillType) {
      var g := GetOr(types, UniqueSkillType, []);
      if g != [] && g[0].UniqueSkill? {
        out := out + [CompetitiveAdvantage(g[0].company, g[0].skill, Medium)];
      }
    }
  }

  method AppendShift(recs: seq<Recommendation>, types: Dict<Kind, seq<Insight>>) returns (out: seq<Recommendation>)
    ensures out == recs + ShiftRec(GetOr(types, LeadershipChangesType, []))
  {
    out := recs;
    if HasKey(types, LeadershipChangesType) {
      var g := GetOr(types, LeadershipChangesType, []);
      var companies := MapSeq(g, LeadershipCompany);
      if companies != [] {
        out := out + [StrategicShift(Take(companies, 2), Medium)];
      }
    }
  }

  /** `for insight in insight_types["divergent_strategy"][:2]`. */
  method AppendPositionings(recs: seq<Recommendation>, types: Dict<Kind, seq<Insight>>) returns (out: seq<Recommendation>)
    ensures out == recs + PositioningRecs(GetOr(types, DivergentStrategyType, []))
  {
    out := recs;
    if HasKey(types, DivergentStrategyType) {
      var g := GetOr(types, DivergentStrategyType, []);
      var first := Take(g, 2);
      var t := 0;
      while t < |first|
        invariant 0 <= t <= |first|
        invariant out == recs + MapSeq(first[..t], PositioningOf)
      {
        assert first[..t + 1][..t] == first[..t];
        out := out + [PositioningOf(first[t])];
        t := t + 1;
      }
      assert first[..|first|] == first;
    }
  }

  method GenerateStrategicRecommendations(insights: seq<Insight>) returns (recs: seq<Recommendation>)
    ensures recs == StrategicRecsFor(insights)
  {
    var types := GroupByType(insights);
    ghost var parts := [InvestmentRec(GetOr(types, EmergingSkillType, [])),
      ExpansionRec(GetOr(types, GeographicShiftType, [])),
      MonitoringRec(GetOr(types, HiringSurgeType, [])),
      TechnologyRec(GetOr(types, TechnologyFocusType, [])),
      AdvantageRec(GetOr(types, UniqueSkillType, [])),
      ShiftRec(GetOr(types, LeadershipChangesType, [])),
      PositioningRecs(GetOr(types, DivergentStrategyType, []))];
    recs := [];
    recs := AppendInvestment(recs, types);
    assert recs == parts[0];
    recs := AppendExpansion(recs, types);
    recs := AppendMonitoring(recs, types);
    recs := AppendTechnology(recs, types);
    recs := AppendAdvantage(recs, types);
    recs := AppendShift(recs, types);
    recs := AppendPositionings(recs, types);
    assert recs == parts[0] + parts[1] + parts[2] + parts[3] + parts[4] + parts[5] + parts[6];
    assert GetOr(types, EmergingSkillType, []) == OfKind(insights, EmergingSkillType);
    assert GetOr(types, GeographicShiftType, []) == OfKind(insights, GeographicShiftType);
    assert GetOr(types, HiringSurgeType, []) == OfKind(insights, HiringSurgeType);
    assert GetOr(types, TechnologyFocusType, []) == OfKind(insights, TechnologyFocusType);
    assert GetOr(types, UniqueSkillType, []) == OfKind(insights, UniqueSkillType);
    assert GetOr(types, LeadershipChangesType, []) == OfKind(insights, LeadershipChangesType);
    assert GetOr(types, DivergentStrategyType, []) == OfKind(insights, DivergentStrategyType);
  }

  // ---------------------------------------------------------------------
  // What the rules promise

  /** Each rule makes recommendations of its own type only. */
  lemma StrategicRecsParts(insights: seq<Insight>, r: Recommendation)
    requires r in StrategicRecsFor(insights)
    ensures r.SkillInvestment? ==> r in InvestmentRec(OfKind(insights, EmergingSkillType))
    ensures r.GeographicExpansionPlan? ==> r in ExpansionRec(OfKind(insights, GeographicShiftType))
    ensures r.CompetitiveMonitoring? ==> r in MonitoringRec(OfKind(insights, HiringSurgeType))
    ensures r.TechnologyInvestment? ==> r in TechnologyRec(OfKind(insights, TechnologyFocusType))
    ensures r.CompetitiveAdvantage? ==> r in AdvantageRec(OfKind(insights, UniqueSkillType))
    ensures r.StrategicShift? ==> r in ShiftRec(OfKind(insights, LeadershipChangesType))
    ensures r.StrategicPositioning? ==> r in PositioningRecs(OfKind(insights, DivergentStrategyType))
    ensures !r.LocationStrategy? && !r.CompetitorAnalysis? && !r.Specialization?
  {
    var a := InvestmentRec(OfKind(insights, EmergingSkillType));
    var b := ExpansionRec(OfKind(insights, GeographicShiftType));
    var c := MonitoringRec(OfKind(insights, HiringSurgeType));
    var d := TechnologyRec(OfKind(insights, TechnologyFocusType));
    var e := AdvantageRec(OfKind(insights, UniqueSkillType));
    var f := ShiftRec(OfKind(insights, LeadershipChangesType));
    var g := PositioningRecs(OfKind(insights, DivergentStrategyType));
    assert StrategicRecsFor(insights) == a + b + c + d + e + f + g;
    assert r in a || r in b || r in c || r in d || r in e || r in f || r in g;
  }

  lemma InvestmentRecSound(insights: seq<Insight>, r: Recommendation, s: string) returns (x: Insight)
    requires r in InvestmentRec(OfKind(insights, EmergingSkillType)) && s in r.skills
    ensures r.priority == High && 1 <= |r.skills| <= 3
    ensures x in insights && x.EmergingSkill? && x.skill == s
  {
    assert s in FieldOfKind(insights, EmergingSkillType, EmergingName);
    x := FieldOfKindSound(insights, EmergingSkillType, EmergingName, s);
  }

  lemma MonitoringRecSound(insights: seq<Insight>, r: Recommendation, c: string) returns (x: Insight)
    requires r in MonitoringRec(OfKind(insights, HiringSurgeType)) && c in r.companies
    ensures r.priority == High && 1 <= |r.companies| <= 3
    ensures x in insights && x.HiringSurge? && x.company == c
  {
    assert c in FieldOfKind(insights, HiringSurgeType, SurgeCompany);
    x := FieldOfKindSound(insights, HiringSurgeType, SurgeCompany, c);
  }

  lemma ShiftRecSound(insights: seq<Insight>, r: Recommendation, c: string) returns (x: Insight)
    requires r in ShiftRec(OfKind(insights, LeadershipChangesType)) && c in r.companies
    ensures r.priority == Medium && 1 <= |r.companies| <= 2
    ensures x in insights && x.LeadershipChanges? && x.company == c
  {
    assert c in FieldOfKind(insights, LeadershipChangesType, LeadershipCompany);
    x := FieldOfKindSound(insights, LeadershipChangesType, LeadershipCompany, c);
  }

  /** At most one recommendation per rule, and two positionings. */
  lemma StrategicRecsBound(insights: seq<Insight>)
    ensures |StrategicRecsFor(insights)| <= 8
  {
  }

  /** A skill investment is high priority and names one to three skills,
      each that of an `emerging_skill` insight. */
  lemma InvestmentSound(insights: seq<Insight>, r: Recommendation, s: string) returns (x: Insight)
    requires r in StrategicRecsFor(insights) && r.SkillInvestment? && s in r.skills
    ensures r.priority == High && 1 <= |r.skills| <= 3
    ensures x in insights && x.EmergingSkill? && x.skill == s
  {
    StrategicRecsParts(insights, r);
    x := InvestmentRecSound(insights, r, s);
  }

  /** Some emerging skill is enough for a skill investment. */
  lemma InvestmentComplete(insights: seq<Insight>, x: Insight)
    requires x in insights && x.EmergingSkill?
    ensures exists r | r in StrategicRecsFor(insights) :: r.SkillInvestment?
  {
    FieldOfKindComplete(insights, EmergingSkillType, EmergingName, x);
    var skills := FieldOfKind(insights, EmergingSkillType, EmergingName);
    assert SkillInvestment(Take(skills, 3), High) in StrategicRecsFor(insights);
  }

  /** A competitive monitoring is high priority and names one to three
      companies, each that of a `hiring_surge` insight. */
  lemma MonitoringSound(insights: seq<Insight>, r: Recommendation, c: string) returns (x: Insight)
    requires r in StrategicRecsFor(insights) && r.CompetitiveMonitoring? && c in r.companies
    ensures r.priority == High && 1 <= |r.companies| <= 3
    ensures x in insights && x.HiringSurge? && x.company == c
  {
    StrategicRecsParts(insights, r);
    x := MonitoringRecSound(insights, r, c);
  }

  lemma MonitoringComplete(insights: seq<Insight>, x: Insight)
    requires x in insights && x.HiringSurge?
    ensures exists r | r in StrategicRecsFor(insights) :: r.CompetitiveMonitoring?
  {
    FieldOfKindComplete(insights, HiringSurgeType, SurgeCompany, x);
    var companies := FieldOfKind(insights, HiringSurgeType, SurgeCompany);
    assert CompetitiveMonitoring(Take(companies, 3), High) in StrategicRecsFor(insights);
  }

  /** A strategic shift is medium priority and names one or two
      companies, each that of a `leadership_changes` insight. */
  lemma ShiftSound(insights: seq<Insight>, r: Recommendation, c: string) returns (x: Insight)
    requires r in StrategicRecsFor(insights) && r.StrategicShift? && c in r.companies
    ensures r.priority == Medium && 1 <= |r.companies| <= 2
    ensures x in insights && x.LeadershipChanges? && x.company == c
  {
    StrategicRecsParts(insights, r);
    x := ShiftRecSound(insights, r, c);
  }

  lemma ShiftComplete(insights: seq<Insight>, x: Insight)
    requires x in insights && x.LeadershipChanges?
    ensures exists r | r in StrategicRecsFor(insights) :: r.StrategicShift?
  {
    FieldOfKindComplete(insights, LeadershipChangesType, LeadershipCompany, x);
    var companies := FieldOfKind(insights, LeadershipChangesType, LeadershipCompany);
    assert StrategicShift(Take(companies, 2), Medium) in StrategicRecsFor(insights);
  }

  /** The regions of the `geographic_shift` insights, in order. */
  function ShiftRegions(insights: seq<Insight>): seq<string>
  {
    FieldOfKind(insights, GeographicShiftType, ShiftRegion)
  }

  /** An expansion names a region at least two shifts share, and no region
      is shared by more. */
  lemma ExpansionSound(insights: seq<Insight>, r: Recommendation)
    requires r in StrategicRecsFor(insights) && r.GeographicExpansionPlan?
    ensures r.priority == Medium
    ensures multiset(ShiftRegions(insights))[r.region] >= 2
    ensures forall y :: multiset(ShiftRegions(insights))[y] <= multiset(ShiftRegions(insights))[r.region]
  {
    StrategicRecsParts(insights, r);
    MostCommonSpec(ShiftRegions(insights));
  }

  /** A region two shifts share is enough for an expansion. */
  lemma ExpansionComplete(insights: seq<Insight>, y: string)
    requires multiset(ShiftRegions(insights))[y] >= 2
    ensures exists r | r in StrategicRecsFor(insights) :: r.GeographicExpansionPlan?
  {
    var regions := ShiftRegions(insights);
    MostCommonSpec(regions);
    assert y in regions;
    var m := MostCommon(regions).value;
    assert GeographicExpansionPlan(m.0, Medium) in ExpansionRec(OfKind(insights, GeographicShiftType));
  }

  /** The categories of the `technology_focus` insights, in order. */
  function FocusCategories(insights: seq<Insight>): seq<string>
  {
    FieldOfKind(insights, TechnologyFocusType, FocusCategory)
  }

  /** A technology investment names a category at least two focuses
      share, and no category is shared by more. */
  lemma TechnologySound(insights: seq<Insight>, r: Recommendation)
    requires r in StrategicRecsFor(insights) && r.TechnologyInvestment?
    ensures r.priority == High
    ensures multiset(FocusCategories(insights))[r.technology] >= 2
    ensures forall y :: multiset(FocusCategories(insights))[y] <= multiset(FocusCategories(insights))[r.technology]
  {
    StrategicRecsParts(insights, r);
    MostCommonSpec(FocusCategories(insights));
  }

  lemma TechnologyComplete(insights: seq<Insight>, y: string)
    requires multiset(FocusCategories(insights))[y] >= 2
    ensures exists r | r in StrategicRecsFor(insights) :: r.TechnologyInvestment?
  {
    var categories := FocusCategories(insights);
    MostCommonSpec(categories);
    assert y in categories;
    var m := MostCommon(categories).value;
    assert TechnologyInvestment(m.0, High) in TechnologyRec(OfKind(insights, TechnologyFocusType));
  }

  /** A competitive advantage is taken from the first `unique_skill`
      insight. */
  lemma AdvantageSound(insights: seq<Insight>, r: Recommendation) returns (i: int)
    requires r in StrategicRecsFor(insights) && r.CompetitiveAdvantage?
    ensures 0 <= i < |insights| && insights[i].UniqueSkill?
    ensures r == CompetitiveAdvantage(insights[i].company, insights[i].skill, Medium)
    ensures forall j | 0 <= j < i :: KindOf(insights[j]) != UniqueSkillType
  {
    StrategicRecsParts(insights, r);
    i := FirstOfKind(insights, UniqueSkillType);
  }

  lemma AdvantageComplete(insights: seq<Insight>, i: int)
    requires 0 <= i < |insights| && insights[i].UniqueSkill?
    requires forall j | 0 <= j < i :: KindOf(insights[j]) != UniqueSkillType
    ensures CompetitiveAdvantage(insights[i].company, insights[i].skill, Medium) in StrategicRecsFor(insights)
  {
    OfKindHead(insights, UniqueSkillType, i);
  }

  /** The recommendations are those of the first six rules followed by
      the positionings. */
  lemma StrategicSplit(insights: seq<Insight>) returns (head: seq<Recommendation>)
    ensures StrategicRecsFor(insights) == head + PositioningRecs(OfKind(insights, DivergentStrategyType))
    ensures forall r | r in head :: !r.StrategicPositioning?
  {
    var a := InvestmentRec(OfKind(insights, EmergingSkillType));
    var b := ExpansionRec(OfKind(insights, GeographicShiftType));
    var c := MonitoringRec(OfKind(insights, HiringSurgeType));
    var d := TechnologyRec(OfKind(insights, TechnologyFocusType));
    var e := AdvantageRec(OfKind(insights, UniqueSkillType));
    var f := ShiftRec(OfKind(insights, LeadershipChangesType));
    head := a + b + c + d + e + f;
    forall r | r in head ensures !r.StrategicPositioning? {
      assert r in a || r in b || r in c || r in d || r in e || r in f;
    }
  }

  /** The first two divergent strategies, each one of the input. */
  lemma FirstDivergent(insights: seq<Insight>, t: int)
    requires 0 <= t < Min(2, |OfKind(insights, DivergentStrategyType)|)
    ensures var g := OfKind(insights, DivergentStrategyType);
            g[t] in insights && g[t].DivergentStrategy? && PositioningRecs(g)[t] == PositioningOf(g[t])
  {
    var g := OfKind(insights, DivergentStrategyType);
    OfKindMembers(insights, DivergentStrategyType, g[t]);
    assert KindOf(g[t]) == DivergentStrategyType;
  }

  /** The `divergent_strategy` insights, in order. */
  function Divergent(insights: seq<Insight>): seq<Insight>
  {
    OfKind(insights, DivergentStrategyType)
  }

  /** The recommendations end with one positioning for each of the first
      two divergent strategies, in order, and hold no other positioning. */
  lemma PositioningTail(insights: seq<Insight>, recs: seq<Recommendation>, m: nat)
    requires recs == StrategicRecsFor(insights) && m == Min(2, |Divergent(insights)|)
    ensures m <= |recs|
    ensures forall j | 0 <= j < |recs| :: recs[j].StrategicPositioning? <==> j >= |recs| - m
    ensures forall t | 0 <= t < m :: Divergent(insights)[t].DivergentStrategy?
    ensures forall t | 0 <= t < m :: recs[|recs| - m + t] == StrategicPositioning(Divergent(insights)[t].category,
              [Divergent(insights)[t].topCompany, Divergent(insights)[t].bottomCompany], Low)
  {
    var g := Divergent(insights);
    var head := StrategicSplit(insights);
    var tail := PositioningRecs(g);
    assert recs == head + tail;
    assert |tail| == m;
    forall j | 0 <= j < |recs| ensures recs[j].StrategicPositioning? <==> j >= |recs| - m {
      if j < |head| {
        assert recs[j] == head[j];
        assert head[j] in head;
      } else {
        assert recs[j] == tail[j - |head|];
        assert tail[j - |head|] in tail;
      }
    }
    forall t | 0 <= t < m
      ensures g[t].DivergentStrategy?
      ensures recs[|recs| - m + t] == StrategicPositioning(g[t].category, [g[t].topCompany, g[t].bottomCompany], Low)
    {
      FirstDivergent(insights, t);
      assert recs[|recs| - m + t] == tail[t];
    }
  }
}

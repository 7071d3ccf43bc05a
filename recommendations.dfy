/** Recommendations derived from insights: per industry, from the first
    insight of each industry type; and overall, from the emerging skills,
    the regions and technologies several companies move into, hiring
    surges, a unique skill, leadership hiring and divergent strategies.
    Both start by grouping the insights by their `type`. */
module Recommendations {
  import opened Common
  import opened Assoc
  import opened Sorting
  import opened Insights

  // ---------------------------------------------------------------------
  // Grouping by type

  /** `insight_types[kind]`: the insights of that type, in order. */
  function OfKind(insights: seq<Insight>, kind: Kind): seq<Insight>
  {
    if insights == [] then []
    else
      var x := insights[|insights| - 1];
      OfKind(insights[..|insights| - 1], kind) + (if KindOf(x) == kind then [x] else [])
  }

  lemma {:induction false} OfKindMembers(insights: seq<Insight>, kind: Kind, x: Insight)
    ensures x in OfKind(insights, kind) <==> x in insights && KindOf(x) == kind
  {
    if insights != [] {
      var n := |insights| - 1;
      OfKindMembers(insights[..n], kind, x);
      assert insights == insights[..n] + [insights[n]];
    }
  }

  /** The first insight of a type is the first element of its group. */
  lemma {:induction false} OfKindHead(insights: seq<Insight>, kind: Kind, i: int)
    requires 0 <= i < |insights| && KindOf(insights[i]) == kind
    requires forall j | 0 <= j < i :: KindOf(insights[j]) != kind
    ensures OfKind(insights, kind) != [] && OfKind(insights, kind)[0] == insights[i]
  {
    var n := |insights| - 1;
    if i < n {
      OfKindHead(insights[..n], kind, i);
    } else {
      OfKindNone(insights[..n], kind);
    }
  }

  lemma {:induction false} OfKindNone(insights: seq<Insight>, kind: Kind)
    requires forall j | 0 <= j < |insights| :: KindOf(insights[j]) != kind
    ensures OfKind(insights, kind) == []
  {
    if insights != [] {
      OfKindNone(insights[..|insights| - 1], kind);
    }
  }

  lemma OfKindStep(insights: seq<Insight>, i: nat, kind: Kind)
    requires i < |insights|
    ensures OfKind(insights[..i + 1], kind) ==
      OfKind(insights[..i], kind) + (if KindOf(insights[i]) == kind then [insights[i]] else [])
  {
    assert insights[..i + 1][..i] == insights[..i];
  }

  /** The grouping loop: `insight_types[insight["type"]].append(insight)`.
      A type is a key exactly when some insight has it, and holds the
      insights of that type. */
  method GroupByType(insights: seq<Insight>) returns (types: Dict<Kind, seq<Insight>>)
    ensures forall kind :: GetOr(types, kind, []) == OfKind(insights, kind)
    ensures forall kind :: HasKey(types, kind) <==> OfKind(insights, kind) != []
  {
    types := [];
    var i := 0;
    while i < |insights|
      invariant 0 <= i <= |insights|
      invariant forall kind :: GetOr(types, kind, []) == OfKind(insights[..i], kind)
      invariant forall kind :: HasKey(types, kind) <==> OfKind(insights[..i], kind) != []
    {
      var x := insights[i];
      var kind := KindOf(x);
      var group := GetOr(types, kind, []) + [x];
      ghost var before := types;
      types := Put(types, kind, group);
      forall other
        ensures GetOr(types, other, []) == OfKind(insights[..i + 1], other)
        ensures HasKey(types, other) <==> OfKind(insights[..i + 1], other) != []
      {
        OfKindStep(insights, i, other);
        if other == kind {
          PutGet(before, kind, group);
        } else {
          PutOther(before, kind, group, other);
        }
      }
      i := i + 1;
    }
    assert insights[..|insights|] == insights;
  }

  // ---------------------------------------------------------------------
  // Industry recommendations

  /** `industry_skill_investment` from the first `industry_skills` insight. */
  function SkillRecFrom(group: seq<Insight>): seq<Recommendation>
  {
    if group != [] && group[0].IndustrySkills? && group[0].topSkills != []
    then [SkillInvestment(Take(group[0].topSkills, 3), High)]
    else []
  }

  /** `industry_location_strategy` from the first `industry_hubs` insight. */
  function LocationRecFrom(group: seq<Insight>): seq<Recommendation>
  {
    if group != [] && group[0].IndustryHubs? && group[0].topLocations != []
    then [LocationStrategy(group[0].topLocations[0], Medium)]
    else []
  }

  /** `industry_competitor_analysis` from the first `industry_leader` insight. */
  function CompetitorRecFrom(group: seq<Insight>): seq<Recommendation>
  {
    if group != [] && group[0].IndustryLeader? && group[0].company != ""
    then [CompetitorAnalysis(group[0].company, High)]
    else []
  }

  /** `industry_specialization` from the first `industry_specific_skill` insight. */
  function SpecializationRecFrom(group: seq<Insight>): seq<Recommendation>
  {
    if group != [] && group[0].IndustrySpecificSkill? && group[0].skill != ""
    then [Specialization(group[0].skill, Medium)]
    else []
  }

  /** The recommendations of one industry, in rule order. */
  function IndustryRecsFor(insights: seq<Insight>): seq<Recommendation>
  {
    SkillRecFrom(OfKind(insights, IndustrySkillsType)) +
    LocationRecFrom(OfKind(insights, IndustryHubsType)) +
    CompetitorRecFrom(OfKind(insights, IndustryLeaderType)) +
    SpecializationRecFrom(OfKind(insights, IndustrySpecificSkillType))
  }

  /** What `generate_industry_recommendations` returns: every industry of
      the input, in order, with its recommendations. */
  function IndustryRecommendationsOf(d: Dict<string, seq<Insight>>): Dict<string, seq<Recommendation>>
  {
    MapValues(d, IndustryRecsFor)
  }

  /** The result has the input's industries, in order, each with the
      recommendations of its own insights. */
  lemma IndustryRecommendationsEntries(d: Dict<string, seq<Insight>>)
    ensures |IndustryRecommendationsOf(d)| == |d|
    ensures forall i | 0 <= i < |d| :: IndustryRecommendationsOf(d)[i] == (d[i].0, IndustryRecsFor(d[i].1))
  {
    MapValuesEntries(d, IndustryRecsFor);
  }

  method IndustryRecs(insights: seq<Insight>) returns (recs: seq<Recommendation>)
    ensures recs == IndustryRecsFor(insights)
  {
    var types := GroupByType(insights);
    ghost var skills := OfKind(insights, IndustrySkillsType);
    ghost var hubs := OfKind(insights, IndustryHubsType);
    ghost var leaders := OfKind(insights, IndustryLeaderType);
    ghost var specific := OfKind(insights, IndustrySpecificSkillType);
    assert GetOr(types, IndustrySkillsType, []) == skills;
    assert GetOr(types, IndustryHubsType, []) == hubs;
    assert GetOr(types, IndustryLeaderType, []) == leaders;
    assert GetOr(types, IndustrySpecificSkillType, []) == specific;
    recs := [];
    if HasKey(types, IndustrySkillsType) {
      recs := recs + SkillRecFrom(GetOr(types, IndustrySkillsType, []));
    } else {
      assert skills == [];
    }
    assert recs == SkillRecFrom(skills);
    if HasKey(types, IndustryHubsType) {
      recs := recs + LocationRecFrom(GetOr(types, IndustryHubsType, []));
    } else {
      assert hubs == [];
    }
    assert recs == SkillRecFrom(skills) + LocationRecFrom(hubs);
    if HasKey(types, IndustryLeaderType) {
      recs := recs + CompetitorRecFrom(GetOr(types, IndustryLeaderType, []));
    } else {
      assert leaders == [];
    }
    assert recs == SkillRecFrom(skills) + LocationRecFrom(hubs) + CompetitorRecFrom(leaders);
    if HasKey(types, IndustrySpecificSkillType) {
      recs := recs + SpecializationRecFrom(GetOr(types, IndustrySpecificSkillType, []));
    } else {
      assert specific == [];
    }
  }

  method GenerateIndustryRecommendations(d: Dict<string, seq<Insight>>) returns (result: Dict<string, seq<Recommendation>>)
    ensures result == IndustryRecommendationsOf(d)
  {
    result := [];
    var i := 0;
    while i < |d|
      invariant 0 <= i <= |d|
      invariant result == IndustryRecommendationsOf(d[..i])
    {
      var recs := IndustryRecs(d[i].1);
      MapValuesStep(d, IndustryRecsFor, i);
      result := result + [(d[i].0, recs)];
      i := i + 1;
    }
    assert d[..|d|] == d;
  }

  /** Each rule makes recommendations of its own type only. */
  lemma IndustryRecsParts(insights: seq<Insight>, r: Recommendation)
    requires r in IndustryRecsFor(insights)
    ensures r.SkillInvestment? ==> r in SkillRecFrom(OfKind(insights, IndustrySkillsType))
    ensures r.LocationStrategy? ==> r in LocationRecFrom(OfKind(insights, IndustryHubsType))
    ensures r.CompetitorAnalysis? ==> r in CompetitorRecFrom(OfKind(insights, IndustryLeaderType))
    ensures r.Specialization? ==> r in SpecializationRecFrom(OfKind(insights, IndustrySpecificSkillType))
  {
  }

  /** A skill investment of an industry takes the first three top skills
      of its first `industry_skills` insight. */
  lemma IndustrySkillRecSound(insights: seq<Insight>, r: Recommendation) returns (i: int)
    requires r in IndustryRecsFor(insights) && r.SkillInvestment?
    ensures 0 <= i < |insights| && insights[i].IndustrySkills? && insights[i].topSkills != []
    ensures r == SkillInvestment(Take(insights[i].topSkills, 3), High)
    ensures forall j | 0 <= j < i :: KindOf(insights[j]) != IndustrySkillsType
  {
    IndustryRecsParts(insights, r);
    i := FirstOfKind(insights, IndustrySkillsType);
  }

  /** It is made whenever the first such insight names some skill. */
  lemma IndustrySkillRecComplete(insights: seq<Insight>, i: int)
    requires 0 <= i < |insights| && insights[i].IndustrySkills? && insights[i].topSkills != []
    requires forall j | 0 <= j < i :: KindOf(insights[j]) != IndustrySkillsType
    ensures SkillInvestment(Take(insights[i].topSkills, 3), High) in IndustryRecsFor(insights)
  {
    OfKindHead(insights, IndustrySkillsType, i);
  }

  /** A competitor analysis names the company of the first
      `industry_leader` insight, which is not empty. */
  lemma IndustryCompetitorRecSound(insights: seq<Insight>, r: Recommendation) returns (i: int)
    requires r in IndustryRecsFor(insights) && r.CompetitorAnalysis?
    ensures 0 <= i < |insights| && insights[i].IndustryLeader? && insights[i].company != ""
    ensures r == CompetitorAnalysis(insights[i].company, High)
    ensures forall j | 0 <= j < i :: KindOf(insights[j]) != IndustryLeaderType
  {
    IndustryRecsParts(insights, r);
    i := FirstOfKind(insights, IndustryLeaderType);
  }

  lemma IndustryCompetitorRecComplete(insights: seq<Insight>, i: int)
    requires 0 <= i < |insights| && insights[i].IndustryLeader? && insights[i].company != ""
    requires forall j | 0 <= j < i :: KindOf(insights[j]) != IndustryLeaderType
    ensures CompetitorAnalysis(insights[i].company, High) in IndustryRecsFor(insights)
  {
    OfKindHead(insights, IndustryLeaderType, i);
  }

  /** A location strategy names the first hub of the first `industry_hubs`
      insight. */
  lemma IndustryLocationRecSound(insights: seq<Insight>, r: Recommendation) returns (i: int)
    requires r in IndustryRecsFor(insights) && r.LocationStrategy?
    ensures 0 <= i < |insights| && insights[i].IndustryHubs? && insights[i].topLocations != []
    ensures r == LocationStrategy(insights[i].topLocations[0], Medium)
    ensures forall j | 0 <= j < i :: KindOf(insights[j]) != IndustryHubsType
  {
    IndustryRecsParts(insights, r);
    i := FirstOfKind(insights, IndustryHubsType);
  }

  /** It is made whenever the first such insight names some hub. */
  lemma IndustryLocationRecComplete(insights: seq<Insight>, i: int)
    requires 0 <= i < |insights| && insights[i].IndustryHubs? && insights[i].topLocations != []
    requires forall j | 0 <= j < i :: KindOf(insights[j]) != IndustryHubsType
    ensures LocationStrategy(insights[i].topLocations[0], Medium) in IndustryRecsFor(insights)
  {
    OfKindHead(insights, IndustryHubsType, i);
  }

  /** A specialization names the skill of the first
      `industry_specific_skill` insight, which is not empty. */
  lemma IndustrySpecializationRecSound(insights: seq<Insight>, r: Recommendation) returns (i: int)
    requires r in IndustryRecsFor(insights) && r.Specialization?
    ensures 0 <= i < |insights| && insights[i].IndustrySpecificSkill? && insights[i].skill != ""
    ensures r == Specialization(insights[i].skill, Medium)
    ensures forall j | 0 <= j < i :: KindOf(insights[j]) != IndustrySpecificSkillType
  {
    IndustryRecsParts(insights, r);
    i := FirstOfKind(insights, IndustrySpecificSkillType);
  }

  /** It is made whenever the first such insight names a skill. */
  lemma IndustrySpecializationRecComplete(insights: seq<Insight>, i: int)
    requires 0 <= i < |insights| && insights[i].IndustrySpecificSkill? && insights[i].skill != ""
    requires forall j | 0 <= j < i :: KindOf(insights[j]) != IndustrySpecificSkillType
    ensures Specialization(insights[i].skill, Medium) in IndustryRecsFor(insights)
  {
    OfKindHead(insights, IndustrySpecificSkillType, i);
  }

  /** At most one recommendation per rule. */
  lemma IndustryRecsBound(insights: seq<Insight>)
    ensures |IndustryRecsFor(insights)| <= 4
  {
  }

  /** The index of the first insight of a type, when there is one. */
  lemma FirstOfKind(insights: seq<Insight>, kind: Kind) returns (i: int)
    requires OfKind(insights, kind) != []
    ensures 0 <= i < |insights| && KindOf(insights[i]) == kind
    ensures forall j | 0 <= j < i :: KindOf(insights[j]) != kind
    ensures OfKind(insights, kind)[0] == insights[i]
  {
    OfKindMembers(insights, kind, OfKind(insights, kind)[0]);
    var k :| 0 <= k < |insights| && KindOf(insights[k]) == kind;
    i := 0;
    while KindOf(insights[i]) != kind
      invariant 0 <= i <= k
      invariant forall j | 0 <= j < i :: KindOf(insights[j]) != kind
      decreases k - i
    {
      i := i + 1;
    }
    OfKindHead(insights, kind, i);
  }

}

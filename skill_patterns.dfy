/** Skill-pattern insights: emerging skills (held by 10-40% of the listed
    companies with at least 5 postings), competitive skills (70% or more,
    at least 10 postings), each the five with the most postings; and for
    each listed company the three skills with most postings that no other
    company asks for. */
module SkillPatterns {
  import opened Common
  import opened Assoc
  import opened Sorting
  import opened Insights

  /** A skill with its prevalence and its total number of postings. */
  type SkillStat = (string, real, int)

  /** Which of the two prevalence bands a skill list is drawn from. */
  datatype Band = Emerging | Competitive

  /** The thresholds of each band. */
  predicate InBand(band: Band, prevalence: real, demand: int)
  {
    match band
    case Emerging => 0.1 <= prevalence <= 0.4 && demand >= 5
    case Competitive => prevalence >= 0.7 && demand >= 10
  }

  /** Every skill any company's table names (`all_skills`). */
  function AllSkills(d: Dict<string, Counts<string>>): set<string>
  {
    if d == [] then {} else AllSkills(d[..|d| - 1]) + SetOf(Keys(d[|d| - 1].1))
  }

  /** The number of company tables that name `skill`. */
  function CompaniesWith(d: Dict<string, Counts<string>>, skill: string): nat
  {
    if d == [] then 0
    else CompaniesWith(d[..|d| - 1], skill) + (if HasKey(d[|d| - 1].1, skill) then 1 else 0)
  }

  /** `companies_with_skill / len(companies)`. */
  function Prevalence(d: Dict<string, Counts<string>>, skill: string, n: int): real
    requires n > 0
  {
    CompaniesWith(d, skill) as real / n as real
  }

  /** `sum(skills.get(skill, 0) for skills in skills_by_company.values())`. */
  function Demand(d: Dict<string, Counts<string>>, skill: string): int
  {
    if d == [] then 0 else Demand(d[..|d| - 1], skill) + GetOr(d[|d| - 1].1, skill, 0)
  }

  /** The skills of `order` in the band, in that order, with their figures. */
  function Candidates(d: Dict<string, Counts<string>>, n: int, order: seq<string>, band: Band): seq<SkillStat>
    requires n > 0
  {
    if order == [] then []
    else
      var skill := order[|order| - 1];
      var p := Prevalence(d, skill, n);
      var demand := Demand(d, skill);
      Candidates(d, n, order[..|order| - 1], band) + (if InBand(band, p, demand) then [(skill, p, demand)] else [])
  }

  function DemandKey(t: SkillStat): real
  {
    t.2 as real
  }

  /** The five candidates with most postings, by a descending sort. */
  function BandTop(d: Dict<string, Counts<string>>, n: int, order: seq<string>, band: Band): seq<SkillStat>
    requires n > 0
  {
    Take(SortDesc(Candidates(d, n, order, band), DemandKey), 5)
  }

  function StatInsight(t: SkillStat, band: Band): Insight
  {
    match band
    case Emerging => EmergingSkill(t.0, t.1, t.2)
    case Competitive => CompetitiveSkill(t.0, t.1, t.2)
  }

  function StatInsights(ts: seq<SkillStat>, band: Band): (r: seq<Insight>)
    ensures |r| == |ts|
    ensures forall j :: 0 <= j < |ts| ==> r[j] == StatInsight(ts[j], band)
  {
    if ts == [] then [] else StatInsights(ts[..|ts| - 1], band) + [StatInsight(ts[|ts| - 1], band)]
  }

  /** The number of company tables other than `c`'s that name `skill`. */
  function OthersWith(d: Dict<string, Counts<string>>, c: string, skill: string): nat
  {
    if d == [] then 0
    else OthersWith(d[..|d| - 1], c, skill) + (if d[|d| - 1].0 != c && HasKey(d[|d| - 1].1, skill) then 1 else 0)
  }

  /** The skills of `c`'s table that no other company names and that `c`
      asks for in at least two postings, in table order. */
  function UniqueCandidates(d: Dict<string, Counts<string>>, c: string, skills: Counts<string>): seq<(string, int)>
  {
    if skills == [] then []
    else
      var e := skills[|skills| - 1];
      UniqueCandidates(d, c, skills[..|skills| - 1]) +
      (if OthersWith(d, c, e.0) == 0 && e.1 >= 2 then [e] else [])
  }

  function UniqueTop(d: Dict<string, Counts<string>>, c: string): seq<(string, int)>
    requires HasKey(d, c)
  {
    Take(SortDesc(UniqueCandidates(d, c, Get(d, c).value), CountKey), 3)
  }

  function UniqueInsightsOf(c: string, ts: seq<(string, int)>): (r: seq<Insight>)
    ensures |r| == |ts|
    ensures forall j :: 0 <= j < |ts| ==> r[j] == UniqueSkill(c, ts[j].0, ts[j].1)
  {
    if ts == [] then [] else UniqueInsightsOf(c, ts[..|ts| - 1]) + [UniqueSkill(c, ts[|ts| - 1].0, ts[|ts| - 1].1)]
  }

  function UniqueFor(d: Dict<string, Counts<string>>, c: string): seq<Insight>
  {
    if HasKey(d, c) then UniqueInsightsOf(c, UniqueTop(d, c)) else []
  }

  function UniqueInsights(companies: seq<string>, d: Dict<string, Counts<string>>): seq<Insight>
  {
    PerItem(companies, d, UniqueFor)
  }

  /** What `identify_skill_patterns` returns when the skills of `all_skills`
      are visited in the order `order`. Without a skill table there is
      nothing to do; without a company list, or with an empty one, a
      KeyError or a ZeroDivisionError ends in the empty result (with an
      empty list and no skills at all the loops produce nothing either). */
  function SkillPatternInsights(inp: AnalysisInput, order: seq<string>): seq<Insight>
  {
    if inp.skillsByCompany.None? || inp.companies.None? || inp.companies.value == [] then []
    else
      var d := inp.skillsByCompany.value;
      var n := |inp.companies.value|;
      StatInsights(BandTop(d, n, order, Emerging), Emerging) +
      StatInsights(BandTop(d, n, order, Competitive), Competitive) +
      UniqueInsights(inp.companies.value, d)
  }

  // ---------------------------------------------------------------------
  // The analysis

  method BandCandidates(d: Dict<string, Counts<string>>, n: int, order: seq<string>, band: Band)
    returns (cands: seq<SkillStat>)
    requires n > 0
    ensures cands == Candidates(d, n, order, band)
  {
    cands := [];
    var i := 0;
    while i < |order|
      invariant 0 <= i <= |order|
      invariant cands == Candidates(d, n, order[..i], band)
    {
      var skill := order[i];
      var prevalence := CompaniesWith(d, skill) as real / n as real;
      var demand := Demand(d, skill);
      if InBand(band, prevalence, demand) {
        cands := cands + [(skill, prevalence, demand)];
      }
      assert order[..i + 1][..i] == order[..i];
      i := i + 1;
    }
    assert order[..|order|] == order;
  }

  method CompanyUniqueSkills(d: Dict<string, Counts<string>>, c: string) returns (insights: seq<Insight>)
    requires HasKey(d, c)
    ensures insights == UniqueInsightsOf(c, UniqueTop(d, c))
  {
    var skills := Get(d, c).value;
    var unique: seq<(string, int)> := [];
    var i := 0;
    while i < |skills|
      invariant 0 <= i <= |skills|
      invariant unique == UniqueCandidates(d, c, skills[..i])
    {
      var (skill, count) := skills[i];
      var others := OthersWith(d, c, skill);
      if others == 0 && count >= 2 {
        unique := unique + [(skill, count)];
      }
      assert skills[..i + 1][..i] == skills[..i];
      i := i + 1;
    }
    assert skills[..|skills|] == skills;
    var top := Take(SortDesc(unique, CountKey), 3);
    insights := [];
    var j := 0;
    while j < |top|
      invariant 0 <= j <= |top|
      invariant insights == UniqueInsightsOf(c, top[..j])
    {
      insights := insights + [UniqueSkill(c, top[j].0, top[j].1)];
      assert top[..j + 1][..j] == top[..j];
      j := j + 1;
    }
    assert top[..|top|] == top;
  }

  method IdentifySkillPatterns(inp: AnalysisInput, order: seq<string>) returns (insights: seq<Insight>)
    requires inp.skillsByCompany.Some? ==>
      NoDuplicates(order) && SetOf(order) == AllSkills(inp.skillsByCompany.value)
    ensures insights == SkillPatternInsights(inp, order)
  {
    if inp.skillsByCompany.None? || inp.companies.None? || |inp.companies.value| == 0 {
      return [];
    }
    var d := inp.skillsByCompany.value;
    var companies := inp.companies.value;
    var n := |companies|;
    var emerging := BandCandidates(d, n, order, Emerging);
    var topEmerging := Take(SortDesc(emerging, DemandKey), 5);
    var competitive := BandCandidates(d, n, order, Competitive);
    var topCompetitive := Take(SortDesc(competitive, DemandKey), 5);
    insights := StatInsights(topEmerging, Emerging) + StatInsights(topCompetitive, Competitive);
    ghost var bands := insights;
    var i := 0;
    while i < |companies|
      invariant 0 <= i <= |companies|
      invariant insights == bands + UniqueInsights(companies[..i], d)
    {
      var company := companies[i];
      var u: seq<Insight> := [];
      if HasKey(d, company) {
        u := CompanyUniqueSkills(d, company);
      }
      assert u == UniqueFor(d, company);
      PerItemStep(companies, d, UniqueFor, i);
      AppendAssoc(bands, UniqueInsights(companies[..i], d), u);
      insights := insights + u;
      i := i + 1;
    }
    assert companies[..|companies|] == companies;
  }

  // ---------------------------------------------------------------------
  // Properties

  /** `all_skills` is every key of every company's table. */
  lemma {:induction false} AllSkillsMembers(d: Dict<string, Counts<string>>, s: string)
    ensures s in AllSkills(d) <==> exists i | 0 <= i < |d| :: HasKey(d[i].1, s)
  {
    if d != [] {
      var n := |d| - 1;
      AllSkillsMembers(d[..n], s);
      if i :| 0 <= i < |d| && HasKey(d[i].1, s) {
        if i < n {
          assert d[..n][i] == d[i];
        }
      }
    }
  }

  /** A skill is a candidate of a band exactly when it is visited, and its
      prevalence and demand, computed as the source does, meet the band. */
  lemma {:induction false} CandidatesIff(d: Dict<string, Counts<string>>, n: int, order: seq<string>, band: Band, t: SkillStat)
    requires n > 0
    ensures t in Candidates(d, n, order, band) <==>
      t.0 in order && t.1 == Prevalence(d, t.0, n) && t.2 == Demand(d, t.0) && InBand(band, t.1, t.2)
  {
    if order != [] {
      var m := |order| - 1;
      CandidatesIff(d, n, order[..m], band, t);
      assert order == order[..m] + [order[m]];
    }
  }

  /** The reported skills of a band: at most five, all candidates, in
      descending order of demand, none left out with more postings than one
      kept, and every candidate kept when there are at most five. */
  lemma BandTopSpec(d: Dict<string, Counts<string>>, n: int, order: seq<string>, band: Band)
    requires n > 0
    ensures var top := BandTop(d, n, order, band);
      var cands := Candidates(d, n, order, band);
      |top| <= 5 &&
      (forall t | t in top :: t in cands) &&
      SortedDesc(top, DemandKey) &&
      (forall t, u | t in cands && t !in top && u in top :: u.2 >= t.2) &&
      (|cands| <= 5 ==> forall t | t in cands :: t in top)
  {
    BandTopFromCandidates(d, n, order, band);
    BandTopBeatsRest(d, n, order, band);
    BandTopAllWhenFew(d, n, order, band);
  }

  lemma BandTopFromCandidates(d: Dict<string, Counts<string>>, n: int, order: seq<string>, band: Band)
    requires n > 0
    ensures var top := BandTop(d, n, order, band);
      |top| <= 5 && SortedDesc(top, DemandKey) &&
      forall t | t in top :: t in Candidates(d, n, order, band)
  {
    var cands := Candidates(d, n, order, band);
    var sorted := SortDesc(cands, DemandKey);
    var top := Take(sorted, 5);
    forall t | t in top
      ensures t in cands
    {
      assert t in multiset(sorted);
    }
  }

  lemma BandTopBeatsRest(d: Dict<string, Counts<string>>, n: int, order: seq<string>, band: Band)
    requires n > 0
    ensures var top := BandTop(d, n, order, band);
      forall t, u | t in Candidates(d, n, order, band) && t !in top && u in top :: u.2 >= t.2
  {
    var cands := Candidates(d, n, order, band);
    var sorted := SortDesc(cands, DemandKey);
    var top := Take(sorted, 5);
    forall t, u | t in cands && t !in top && u in top
      ensures u.2 >= t.2
    {
      assert t in multiset(sorted);
      var j :| 0 <= j < |sorted| && sorted[j] == t;
      var i :| 0 <= i < |top| && top[i] == u;
      assert j >= |top|;
    }
  }

  lemma BandTopAllWhenFew(d: Dict<string, Counts<string>>, n: int, order: seq<string>, band: Band)
    requires n > 0
    ensures var top := BandTop(d, n, order, band);
      var cands := Candidates(d, n, order, band);
      |cands| <= 5 ==> forall t | t in cands :: t in top
  {
    var cands := Candidates(d, n, order, band);
    var sorted := SortDesc(cands, DemandKey);
    var top := Take(sorted, 5);
    if |cands| <= 5 {
      assert top == sorted;
      forall t | t in cands
        ensures t in top
      {
        assert t in multiset(sorted);
      }
    }
  }

  /** `OthersWith` is zero exactly when no other company's table names the
      skill. */
  lemma {:induction false} OthersWithZero(d: Dict<string, Counts<string>>, c: string, s: string)
    ensures OthersWith(d, c, s) == 0 <==> forall i | 0 <= i < |d| && d[i].0 != c :: !HasKey(d[i].1, s)
  {
    if d != [] {
      var n := |d| - 1;
      OthersWithZero(d[..n], c, s);
      assert forall i | 0 <= i < n :: d[..n][i] == d[i];
    }
  }

  lemma {:induction false} UniqueCandidatesIff(d: Dict<string, Counts<string>>, c: string, skills: Counts<string>, e: (string, int))
    ensures e in UniqueCandidates(d, c, skills) <==> e in skills && OthersWith(d, c, e.0) == 0 && e.1 >= 2
  {
    if skills != [] {
      var m := |skills| - 1;
      UniqueCandidatesIff(d, c, skills[..m], e);
      assert skills == skills[..m] + [skills[m]];
    }
  }

  /** A unique skill reported for `c` is one `c` lists with at least two
      postings, that no other company's table names. */
  lemma UniqueSkillSound(companies: seq<string>, d: Dict<string, Counts<string>>, c: string, s: string, k: int)
    requires UniqueSkill(c, s, k) in UniqueInsights(companies, d)
    ensures c in companies && HasKey(d, c) && (s, k) in Get(d, c).value && k >= 2
    ensures forall i | 0 <= i < |d| && d[i].0 != c :: !HasKey(d[i].1, s)
  {
    var x := UniqueSkill(c, s, k);
    PerItemMembers(companies, d, UniqueFor, x);
    OthersWithZero(d, c, s);
    var j :| 0 <= j < |companies| && x in UniqueFor(d, companies[j]);
    var top := UniqueTop(d, companies[j]);
    var i :| 0 <= i < |top| && x == UniqueSkill(companies[j], top[i].0, top[i].1);
    var cands := UniqueCandidates(d, c, Get(d, c).value);
    assert top[i] in multiset(SortDesc(cands, CountKey));
    UniqueCandidatesIff(d, c, Get(d, c).value, (s, k));
  }

  /** A listed company with at most three such skills has all of them
      reported. */
  lemma UniqueSkillComplete(companies: seq<string>, d: Dict<string, Counts<string>>, c: string, s: string, k: int)
    requires c in companies && HasKey(d, c) && (s, k) in Get(d, c).value && k >= 2
    requires forall i | 0 <= i < |d| && d[i].0 != c :: !HasKey(d[i].1, s)
    requires |UniqueCandidates(d, c, Get(d, c).value)| <= 3
    ensures UniqueSkill(c, s, k) in UniqueInsights(companies, d)
  {
    var x := UniqueSkill(c, s, k);
    OthersWithZero(d, c, s);
    var cands := UniqueCandidates(d, c, Get(d, c).value);
    UniqueCandidatesIff(d, c, Get(d, c).value, (s, k));
    var sorted := SortDesc(cands, CountKey);
    assert (s, k) in multiset(sorted);
    assert UniqueTop(d, c) == sorted;
    var i :| 0 <= i < |sorted| && sorted[i] == (s, k);
    assert UniqueFor(d, c)[i] == x;
    var j :| 0 <= j < |companies| && companies[j] == c;
    PerItemMembers(companies, d, UniqueFor, x);
  }


  /** The three unique skills kept count at least as much as every unique
      candidate of the company that is left out. */
  lemma UniqueTopBeatsRest(d: Dict<string, Counts<string>>, c: string)
    requires HasKey(d, c)
    ensures var top := UniqueTop(d, c);
      forall t, u | t in UniqueCandidates(d, c, Get(d, c).value) && t !in top && u in top :: u.1 >= t.1
  {
    var cands := UniqueCandidates(d, c, Get(d, c).value);
    var sorted := SortDesc(cands, CountKey);
    var top := Take(sorted, 3);
    forall t, u | t in cands && t !in top && u in top
      ensures u.1 >= t.1
    {
      assert t in multiset(sorted);
      var j :| 0 <= j < |sorted| && sorted[j] == t;
      var i :| 0 <= i < |top| && top[i] == u;
      assert j >= |top|;
    }
  }

  /** A reported unique skill of `c` is one of `c`'s top three. */
  lemma UniqueSkillInTop(companies: seq<string>, d: Dict<string, Counts<string>>, c: string, s: string, k: int)
    requires UniqueSkill(c, s, k) in UniqueInsights(companies, d)
    ensures c in companies && HasKey(d, c) && (s, k) in UniqueTop(d, c)
  {
    var x := UniqueSkill(c, s, k);
    PerItemMembers(companies, d, UniqueFor, x);
    var j :| 0 <= j < |companies| && x in UniqueFor(d, companies[j]);
    var top := UniqueTop(d, companies[j]);
    var i :| 0 <= i < |top| && x == UniqueSkill(companies[j], top[i].0, top[i].1);
  }

  /** Each of a listed company's top three unique skills is reported. */
  lemma UniqueTopReported(companies: seq<string>, d: Dict<string, Counts<string>>, c: string, t: (string, int))
    requires c in companies && HasKey(d, c) && t in UniqueTop(d, c)
    ensures UniqueSkill(c, t.0, t.1) in UniqueInsights(companies, d)
  {
    var top := UniqueTop(d, c);
    var i :| 0 <= i < |top| && top[i] == t;
    assert UniqueFor(d, c)[i] == UniqueSkill(c, t.0, t.1);
    var j :| 0 <= j < |companies| && companies[j] == c;
    PerItemMembers(companies, d, UniqueFor, UniqueSkill(c, t.0, t.1));
  }

  /** The dominance half of completeness: a reported unique skill counts at
      least as much as every unique candidate of the same company that is
      not reported. */
  lemma UniqueSkillDominates(companies: seq<string>, d: Dict<string, Counts<string>>, c: string,
                             s: string, k: int, s': string, k': int)
    requires UniqueSkill(c, s, k) in UniqueInsights(companies, d)
    requires UniqueSkill(c, s', k') !in UniqueInsights(companies, d)
    requires HasKey(d, c) && (s', k') in UniqueCandidates(d, c, Get(d, c).value)
    ensures k >= k'
  {
    UniqueSkillInTop(companies, d, c, s, k);
    if (s', k') in UniqueTop(d, c) {
      UniqueTopReported(companies, d, c, (s', k'));
      assert false;
    }
    UniqueTopBeatsRest(d, c);
  }

  /** At most three unique skills are reported per listed company. */
  lemma UniqueTopBound(d: Dict<string, Counts<string>>, c: string)
    requires HasKey(d, c)
    ensures |UniqueFor(d, c)| <= 3
    ensures SortedDesc(UniqueTop(d, c), CountKey)
  {
  }

  lemma StatInsightsMembers(ts: seq<SkillStat>, band: Band, t: SkillStat)
    ensures StatInsight(t, band) in StatInsights(ts, band) <==> t in ts
  {
    if StatInsight(t, band) in StatInsights(ts, band) {
      var j :| 0 <= j < |ts| && StatInsights(ts, band)[j] == StatInsight(t, band);
      assert ts[j] == t;
    }
    if t in ts {
      var j :| 0 <= j < |ts| && ts[j] == t;
      assert StatInsights(ts, band)[j] == StatInsight(t, band);
    }
  }

  lemma StatInsightsKinds(ts: seq<SkillStat>, band: Band, x: Insight)
    requires x in StatInsights(ts, band)
    ensures band == Emerging ==> x.EmergingSkill?
    ensures band == Competitive ==> x.CompetitiveSkill?
  {
    var j :| 0 <= j < |ts| && StatInsights(ts, band)[j] == x;
  }

  lemma UniqueKinds(companies: seq<string>, d: Dict<string, Counts<string>>, x: Insight)
    requires x in UniqueInsights(companies, d)
    ensures x.UniqueSkill?
  {
    PerItemMembers(companies, d, UniqueFor, x);
  }

  /** Over the whole analysis, an emerging skill is reported exactly when
      the analysis runs and the skill is among the band's top five. */
  lemma EmergingReported(inp: AnalysisInput, order: seq<string>, t: SkillStat)
    ensures StatInsight(t, Emerging) in SkillPatternInsights(inp, order) <==>
      inp.skillsByCompany.Some? && inp.companies.Some? && inp.companies.value != [] &&
      t in BandTop(inp.skillsByCompany.value, |inp.companies.value|, order, Emerging)
  {
    var x := StatInsight(t, Emerging);
    if inp.skillsByCompany.Some? && inp.companies.Some? && inp.companies.value != [] {
      var d := inp.skillsByCompany.value;
      var n := |inp.companies.value|;
      var mine := StatInsights(BandTop(d, n, order, Emerging), Emerging);
      var others := StatInsights(BandTop(d, n, order, Competitive), Competitive);
      var unique := UniqueInsights(inp.companies.value, d);
      assert SkillPatternInsights(inp, order) == mine + others + unique;
      StatInsightsMembers(BandTop(d, n, order, Emerging), Emerging, t);
      assert x !in others by {
        if x in others {
          StatInsightsKinds(BandTop(d, n, order, Competitive), Competitive, x);
        }
      }
      assert x !in unique by {
        if x in unique {
          UniqueKinds(inp.companies.value, d, x);
        }
      }
    }
  }

  lemma CompetitiveReported(inp: AnalysisInput, order: seq<string>, t: SkillStat)
    ensures StatInsight(t, Competitive) in SkillPatternInsights(inp, order) <==>
      inp.skillsByCompany.Some? && inp.companies.Some? && inp.companies.value != [] &&
      t in BandTop(inp.skillsByCompany.value, |inp.companies.value|, order, Competitive)
  {
    var x := StatInsight(t, Competitive);
    if inp.skillsByCompany.Some? && inp.companies.Some? && inp.companies.value != [] {
      var d := inp.skillsByCompany.value;
      var n := |inp.companies.value|;
      var mine := StatInsights(BandTop(d, n, order, Competitive), Competitive);
      var others := StatInsights(BandTop(d, n, order, Emerging), Emerging);
      var unique := UniqueInsights(inp.companies.value, d);
      assert SkillPatternInsights(inp, order) == others + mine + unique;
      StatInsightsMembers(BandTop(d, n, order, Competitive), Competitive, t);
      assert x !in others by {
        if x in others {
          StatInsightsKinds(BandTop(d, n, order, Emerging), Emerging, x);
        }
      }
      assert x !in unique by {
        if x in unique {
          UniqueKinds(inp.companies.value, d, x);
        }
      }
    }
  }

  /** The two bands are disjoint: no skill is both emerging and competitive. */
  lemma BandsDisjoint(d: Dict<string, Counts<string>>, n: int, order: seq<string>, t: SkillStat, u: SkillStat)
    requires n > 0
    requires t in Candidates(d, n, order, Emerging) && u in Candidates(d, n, order, Competitive)
    ensures t.0 != u.0
  {
    CandidatesIff(d, n, order, Emerging, t);
    CandidatesIff(d, n, order, Competitive, u);
  }
}

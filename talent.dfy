/** The talent-market tables: a job role is classified into a category by
    the terms it mentions, and each category has its own table of cities,
    skill prevalences, education and experience shares and remote-work
    tendencies, adjusted by the location and the skills asked for. */
module TalentMarket {
  import opened Common
  import opened Assoc
  import opened Sorting

  // ---------------------------------------------------------------------
  // Classifying a role

  datatype RoleCategory = Tech | Marketing | Design | General

  const TechTerms: seq<string> := ["software", "developer", "engineer", "data", "programmer", "devops"]
  const MarketingTerms: seq<string> := ["marketing", "sales", "content", "seo", "social media", "business"]
  const DesignTerms: seq<string> := ["design", "ux", "ui", "graphic", "creative", "artist"]

  /** The `if any(...) elif any(...) elif any(...) else` chain every helper
      opens with: the first list with a term in the lowered role wins. */
  function Categorize(role: string): (c: RoleCategory)
    ensures c == Tech <==> ContainsAny(TechTerms, Lower(role))
    ensures c == Marketing <==> !ContainsAny(TechTerms, Lower(role)) && ContainsAny(MarketingTerms, Lower(role))
    ensures c == Design <==> !ContainsAny(TechTerms, Lower(role)) && !ContainsAny(MarketingTerms, Lower(role)) &&
                             ContainsAny(DesignTerms, Lower(role))
    ensures c == General <==> !ContainsAny(TechTerms, Lower(role)) && !ContainsAny(MarketingTerms, Lower(role)) &&
                              !ContainsAny(DesignTerms, Lower(role))
  {
    var r := Lower(role);
    if ContainsAny(TechTerms, r) then Tech
    else if ContainsAny(MarketingTerms, r) then Marketing
    else if ContainsAny(DesignTerms, r) then Design
    else General
  }

  /** `t` is a prefix of `s`, hence `t in s`. */
  lemma PrefixIsSubstring(t: string, s: string)
    requires |t| <= |s| && s[..|t|] == t
    ensures IsSubstring(t, s)
  {
    assert OccursAt(t, s, 0);
  }

  /** A string whose first character does not occur in `s` is not in `s`. */
  lemma MissingFirstChar(t: string, s: string)
    requires |t| > 0 && t[0] !in s
    ensures !IsSubstring(t, s)
  {
    forall i | 0 <= i <= |s| - |t| ensures !OccursAt(t, s, i) {
      assert s[i] in s;
      assert s[i..i + |t|][0] == s[i];
    }
  }

  // ---------------------------------------------------------------------
  // Education and experience tables

  datatype Share = Share(level: string, percentage: int)

  /** The sum of the percentages of a table. */
  function Total(t: seq<Share>): int
  {
    if t == [] then 0 else Total(t[..|t| - 1]) + t[|t| - 1].percentage
  }

  lemma TotalOfFour(t: seq<Share>)
    requires |t| == 4
    ensures Total(t) == t[0].percentage + t[1].percentage + t[2].percentage + t[3].percentage
  {
    assert t[..3][..2] == t[..2] && t[..2][..1] == t[..1] && t[..1][..0] == [];
    assert Total(t[..1]) == t[0].percentage;
    assert Total(t[..2]) == t[0].percentage + t[1].percentage;
    assert Total(t[..3]) == t[0].percentage + t[1].percentage + t[2].percentage;
  }

  lemma TotalOfFive(t: seq<Share>)
    requires |t| == 5
    ensures Total(t) == t[0].percentage + t[1].percentage + t[2].percentage + t[3].percentage + t[4].percentage
  {
    TotalOfFour(t[..4]);
    assert Total(t) == Total(t[..4]) + t[4].percentage;
  }

  /** Replacing one entry changes the total by the difference of the
      percentages. */
  lemma {:induction false} TotalUpdate(t: seq<Share>, i: nat, v: Share)
    requires i < |t|
    ensures Total(t[i := v]) == Total(t) - t[i].percentage + v.percentage
  {
    var n := |t| - 1;
    var u := t[i := v];
    assert u[..n] == if i < n then t[..n][i := v] else t[..n];
    if i < n {
      TotalUpdate(t[..n], i, v);
    }
  }

  /** Moving `d` points from entry `e` to entry `m` keeps the total. */
  lemma MoveKeepsTotal(t: seq<Share>, e: nat, m: nat, d: int)
    requires e < |t| && m < |t| && e != m
    ensures Total(t[e := Share(t[e].level, t[e].percentage - d)][m := Share(t[m].level, t[m].percentage + d)]) == Total(t)
  {
    var u := t[e := Share(t[e].level, t[e].percentage - d)];
    TotalUpdate(t, e, Share(t[e].level, t[e].percentage - d));
    TotalUpdate(u, m, Share(t[m].level, t[m].percentage + d));
  }

  const TechEducation: seq<Share> := [Share("Bachelor's Degree", 48), Share("Master's Degree", 32), Share("Self-taught / Bootcamp", 15), Share("PhD", 5)]
  const MarketingEducation: seq<Share> := [Share("Bachelor's Degree", 62), Share("Master's Degree", 22), Share("Associate's Degree", 12), Share("High School / GED", 4)]
  const DesignEducation: seq<Share> := [Share("Bachelor's Degree", 55), Share("Self-taught", 25), Share("Master's Degree", 15), Share("Associate's Degree", 5)]
  const GeneralEducation: seq<Share> := [Share("Bachelor's Degree", 58), Share("Master's Degree", 22), Share("Associate's Degree", 12), Share("Self-taught / Bootcamp", 5), Share("PhD", 3)]

  /** `get_education_breakdown`: the table of the role's category; every
      table's shares add up to 100 and lead with the bachelor's degree. */
  function EducationBreakdown(role: string): (t: seq<Share>)
    ensures Total(t) == 100
    ensures |t| >= 4 && t[0].level == "Bachelor's Degree"
  {
    match Categorize(role)
    case Tech => TotalOfFour(TechEducation); TechEducation
    case Marketing => TotalOfFour(MarketingEducation); MarketingEducation
    case Design => TotalOfFour(DesignEducation); DesignEducation
    case General => TotalOfFive(GeneralEducation); GeneralEducation
  }

  const TechExperience: seq<Share> := [Share("Entry Level (0-2 years)", 24), Share("Mid Level (3-5 years)", 38), Share("Senior Level (6-10 years)", 27), Share("Director+ (10+ years)", 11)]
  const MarketingExperience: seq<Share> := [Share("Entry Level (0-2 years)", 32), Share("Mid Level (3-5 years)", 36), Share("Senior Level (6-10 years)", 22), Share("Director+ (10+ years)", 10)]
  const DesignExperience: seq<Share> := [Share("Entry Level (0-2 years)", 28), Share("Mid Level (3-5 years)", 41), Share("Senior Level (6-10 years)", 24), Share("Director+ (10+ years)", 7)]
  const GeneralExperience: seq<Share> := [Share("Entry Level (0-2 years)", 30), Share("Mid Level (3-5 years)", 35), Share("Senior Level (6-10 years)", 25), Share("Director+ (10+ years)", 10)]

  const EntryLevel: string := "Entry Level"
  const MidLevel: string := "Mid Level"

  /** The experience table of a category: four levels adding up to 100,
      the entry level first and the mid level second. */
  function ExperienceTable(c: RoleCategory): (t: seq<Share>)
    ensures |t| == 4 && Total(t) == 100
    ensures IsSubstring(EntryLevel, t[0].level) && IsSubstring(MidLevel, t[1].level)
    ensures !IsSubstring(MidLevel, t[0].level)
  {
    var t := match c
      case Tech => TechExperience
      case Marketing => MarketingExperience
      case Design => DesignExperience
      case General => GeneralExperience;
    LevelsOf(t);
    TotalOfFour(t);
    t
  }

  /** The level names every experience table shares. */
  lemma LevelsOf(t: seq<Share>)
    requires |t| == 4
    requires t[0].level == "Entry Level (0-2 years)" && t[1].level == "Mid Level (3-5 years)"
    ensures IsSubstring(EntryLevel, t[0].level) && IsSubstring(MidLevel, t[1].level)
    ensures !IsSubstring(MidLevel, t[0].level)
  {
    assert t[0].level[..|EntryLevel|] == EntryLevel;
    PrefixIsSubstring(EntryLevel, t[0].level);
    assert t[1].level[..|MidLevel|] == MidLevel;
    PrefixIsSubstring(MidLevel, t[1].level);
    assert forall k | 0 <= k < |t[0].level| :: t[0].level[k] != 'M';
    MissingFirstChar(MidLevel, t[0].level);
  }

  /** `next(i for i, item in enumerate(t) if word in item["level"])`. */
  function FirstContaining(t: seq<Share>, word: string): (i: nat)
    requires exists j | 0 <= j < |t| :: IsSubstring(word, t[j].level)
    ensures i < |t| && IsSubstring(word, t[i].level)
    ensures forall j | 0 <= j < i :: !IsSubstring(word, t[j].level)
  {
    if IsSubstring(word, t[0].level) then 0
    else
      assert exists j | 0 <= j < |t[1..]| :: IsSubstring(word, t[1..][j].level) by {
        var j :| 0 <= j < |t| && IsSubstring(word, t[j].level);
        assert t[1..][j - 1] == t[j];
      }
      FirstContaining(t[1..], word) + 1
  }

  const TechHubs: seq<string> := ["san francisco", "new york", "seattle", "boston"]

  /** The points moved from entry to mid level in a tech hub. */
  const EntryLevelReduction: int := 8

  /** The distribution `get_experience_distribution` returns: the
      category's table, with 8 points moved from the entry level to the mid
      level when the location names a tech hub; the total stays 100. */
  function ExperienceDistribution(role: string, location: string): (r: seq<Share>)
    ensures |r| == 4 && Total(r) == 100
    ensures !ContainsAny(TechHubs, Lower(location)) ==> r == ExperienceTable(Categorize(role))
    ensures ContainsAny(TechHubs, Lower(location)) ==>
      r[0] == Share(ExperienceTable(Categorize(role))[0].level,
                    ExperienceTable(Categorize(role))[0].percentage - EntryLevelReduction) &&
      r[1] == Share(ExperienceTable(Categorize(role))[1].level,
                    ExperienceTable(Categorize(role))[1].percentage + EntryLevelReduction) &&
      r[2..] == ExperienceTable(Categorize(role))[2..]
  {
    var t := ExperienceTable(Categorize(role));
    if ContainsAny(TechHubs, Lower(location)) then
      MoveKeepsTotal(t, 0, 1, EntryLevelReduction);
      t[0 := Share(t[0].level, t[0].percentage - EntryLevelReduction)][1 := Share(t[1].level, t[1].percentage + EntryLevelReduction)]
    else t
  }

  /** The generator search for the first entry whose level names `word`. */
  method FindLevel(t: seq<Share>, word: string) returns (i: nat)
    requires exists j | 0 <= j < |t| :: IsSubstring(word, t[j].level)
    ensures i == FirstContaining(t, word)
  {
    i := 0;
    while !IsSubstring(word, t[i].level)
      invariant i <= FirstContaining(t, word)
      decreases FirstContaining(t, word) - i
    {
      i := i + 1;
    }
    FirstContainingUnique(t, word, i);
  }

  lemma {:induction false} FirstContainingUnique(t: seq<Share>, word: string, i: nat)
    requires i < |t| && IsSubstring(word, t[i].level)
    requires forall j | 0 <= j < i :: !IsSubstring(word, t[j].level)
    ensures FirstContaining(t, word) == i
  {
    if i > 0 {
      assert !IsSubstring(word, t[0].level);
      forall j | 0 <= j < i - 1 ensures !IsSubstring(word, t[1..][j].level) {
        assert t[1..][j] == t[j + 1];
      }
      FirstContainingUnique(t[1..], word, i - 1);
    }
  }

  method GetExperienceDistribution(role: string, location: string) returns (dist: seq<Share>)
    ensures dist == ExperienceDistribution(role, location)
  {
    dist := ExperienceTable(Categorize(role));
    var locationLower := Lower(location);
    if ContainsAny(TechHubs, locationLower) {
      assert FirstContaining(dist, EntryLevel) == 0;
      assert FirstContaining(dist, MidLevel) == 1;
      var e := FindLevel(dist, EntryLevel);
      var m := FindLevel(dist, MidLevel);
      dist := dist[e := Share(dist[e].level, dist[e].percentage - EntryLevelReduction)];
      dist := dist[m := Share(dist[m].level, dist[m].percentage + EntryLevelReduction)];
    }
  }

  // ---------------------------------------------------------------------
  // Remote availability

  datatype Tendency = Tendency(remote: int, hybrid: int, onsite: int)

  function BaseTendency(c: RoleCategory): Tendency
  {
    match c
    case Tech => Tendency(68, 24, 8)
    case Marketing => Tendency(52, 38, 10)
    case Design => Tendency(58, 32, 10)
    case General => Tendency(45, 40, 15)
  }

  const RemoteFriendlySkills: seq<string> :=
    ["programming", "development", "coding", "software", "writing", "content", "social media", "design", "research", "data analysis"]

  /** `sum(1 for skill in skills if any(rs in skill.lower() for rs in ...))`. */
  function RemoteSkillCount(skills: seq<string>): (n: nat)
    ensures n <= |skills|
  {
    if skills == [] then 0
    else RemoteSkillCount(skills[..|skills| - 1]) +
         (if ContainsAny(RemoteFriendlySkills, Lower(skills[|skills| - 1])) then 1 else 0)
  }

  /** Each remote-friendly skill adds 2 points, at most 10 in all. */
  function SkillFactor(skills: seq<string>): (f: int)
    ensures 0 <= f <= 10 && f <= 2 * |skills|
    ensures f == 0 <==> RemoteSkillCount(skills) == 0
  {
    Min(RemoteSkillCount(skills) * 2, 10)
  }

  datatype RemoteAvailability = RemoteAvailability(
    remotePercentage: int, hybridPercentage: int, onsitePercentage: int,
    trend: string, remoteSalaryDifference: int)

  /** What `calculate_remote_availability` returns. The remote share rises
      by the skill factor, capped at 100; the on-site share falls by it,
      floored at 0; the hybrid share is untouched; without remote-friendly
      skills nothing moves. The shares need not add up to 100 after the
      adjustment. */
  function RemoteAvailabilityOf(role: string, skills: seq<string>): (r: RemoteAvailability)
    ensures r.remotePercentage <= 100 && r.onsitePercentage >= 0
    ensures r.hybridPercentage == BaseTendency(Categorize(role)).hybrid
    ensures BaseTendency(Categorize(role)).remote <= r.remotePercentage <=
            BaseTendency(Categorize(role)).remote + SkillFactor(skills)
    ensures BaseTendency(Categorize(role)).onsite - SkillFactor(skills) <= r.onsitePercentage <=
            BaseTendency(Categorize(role)).onsite
    ensures RemoteSkillCount(skills) == 0 ==>
      r.remotePercentage == BaseTendency(Categorize(role)).remote &&
      r.onsitePercentage == BaseTendency(Categorize(role)).onsite
    ensures r.trend == "increasing" <==> r.remotePercentage > 50
    ensures r.trend == "increasing" || r.trend == "stable"
    ensures r.remoteSalaryDifference == -5 <==> r.remotePercentage > 60
    ensures r.remoteSalaryDifference == -5 || r.remoteSalaryDifference == -2
  {
    var b := BaseTendency(Categorize(role));
    var f := SkillFactor(skills);
    var remote := if f > 0 then Min(b.remote + f, 100) else b.remote;
    var onsite := if f > 0 then Max(b.onsite - f, 0) else b.onsite;
    RemoteAvailability(remote, b.hybrid, onsite,
      if remote > 50 then "increasing" else "stable",
      if remote > 60 then -5 else -2)
  }

  method CalculateRemoteAvailability(role: string, skills: seq<string>) returns (r: RemoteAvailability)
    ensures r == RemoteAvailabilityOf(role, skills)
  {
    var tendency := BaseTendency(Categorize(role));
    var skillFactor := Min(RemoteSkillCount(skills) * 2, 10);
    if skillFactor > 0 {
      tendency := tendency.(remote := Min(tendency.remote + skillFactor, 100));
      tendency := tendency.(onsite := Max(tendency.onsite - skillFactor, 0));
    }
    var trend := if tendency.remote > 50 then "increasing" else "stable";
    var salaryDiff := if tendency.remote > 60 then -5 else -2;
    r := RemoteAvailability(tendency.remote, tendency.hybrid, tendency.onsite, trend, salaryDiff);
  }

  // ---------------------------------------------------------------------
  // Top cities

  datatype City = City(city: string, talentCount: int, growthRate: real)

  const TechCities: seq<City> := [
      City("San Francisco, CA", 12500, 5.2),
      City("New York, NY", 11000, 4.8),
      City("Seattle, WA", 9500, 7.1),
      City("Austin, TX", 7200, 9.3),
      City("Boston, MA", 6800, 4.2),
      City("Denver, CO", 5400, 8.7),
      City("Chicago, IL", 6100, 3.8),
      City("Los Angeles, CA", 7800, 5.1),
      City("Atlanta, GA", 5900, 6.4),
      City("Raleigh, NC", 4200, 7.9)]

  const MarketingCities: seq<City> := [
      City("New York, NY", 14500, 5.8),
      City("Chicago, IL", 8900, 4.1),
      City("Los Angeles, CA", 12300, 6.2),
      City("Atlanta, GA", 7600, 7.3),
      City("San Francisco, CA", 9200, 5.6),
      City("Dallas, TX", 6800, 6.9),
      City("Miami, FL", 5900, 8.4),
      City("Boston, MA", 7100, 4.5),
      City("Seattle, WA", 6300, 6.1),
      City("Denver, CO", 4800, 7.7)]

  const DesignCities: seq<City> := [
      City("New York, NY", 10500, 6.1),
      City("Los Angeles, CA", 9800, 5.9),
      City("San Francisco, CA", 8700, 5.2),
      City("Chicago, IL", 6200, 4.3),
      City("Austin, TX", 5500, 8.1),
      City("Portland, OR", 4800, 7.2),
      City("Seattle, WA", 5900, 6.3),
      City("Boston, MA", 4600, 4.8),
      City("Miami, FL", 4200, 7.6),
      City("Denver, CO", 3900, 7.1)]

  /** One entry of the default table: the tech table's city name, the
      floor of the mean of the three counts at that position, and the mean
      growth rate rounded to one decimal. The count lies between the
      smallest and the largest of the three; the rate is a multiple of a
      tenth within 0.05 of the mean. */
  function AverageCity(t: City, m: City, d: City): (r: City)
    requires t.talentCount >= 0 && m.talentCount >= 0 && d.talentCount >= 0
    ensures r.city == t.city
    ensures Min(t.talentCount, Min(m.talentCount, d.talentCount)) <= r.talentCount
    ensures r.talentCount <= Max(t.talentCount, Max(m.talentCount, d.talentCount))
    ensures 3 * r.talentCount <= t.talentCount + m.talentCount + d.talentCount < 3 * r.talentCount + 3
    ensures -0.05 <= r.growthRate - (t.growthRate + m.growthRate + d.growthRate) / 3.0 <= 0.05
    ensures (r.growthRate * 10.0).Floor as real == r.growthRate * 10.0
    ensures r.growthRate == RoundTenth((t.growthRate + m.growthRate + d.growthRate) / 3.0)
  {
    City(t.city, (t.talentCount + m.talentCount + d.talentCount) / 3,
         RoundTenth((t.growthRate + m.growthRate + d.growthRate) / 3.0))
  }

  /** The default table, position by position over the ten entries. */
  function AveragedCities(): (r: seq<City>)
    ensures |r| == 10
    ensures forall i | 0 <= i < 10 :: r[i] == AverageCity(TechCities[i], MarketingCities[i], DesignCities[i])
  {
    seq(10, i requires 0 <= i < 10 => AverageCity(TechCities[i], MarketingCities[i], DesignCities[i]))
  }

  /** The default branch's loop. */
  method AverageCities() returns (cities: seq<City>)
    ensures cities == AveragedCities()
  {
    cities := [];
    var i := 0;
    while i < |TechCities|
      invariant 0 <= i <= |TechCities|
      invariant cities == AveragedCities()[..i]
    {
      var avgCount := (TechCities[i].talentCount + MarketingCities[i].talentCount + DesignCities[i].talentCount) / 3;
      var avgGrowth := (TechCities[i].growthRate + MarketingCities[i].growthRate + DesignCities[i].growthRate) / 3.0;
      assert AveragedCities()[..i + 1] == AveragedCities()[..i] + [AveragedCities()[i]];
      cities := cities + [City(TechCities[i].city, avgCount, RoundTenth(avgGrowth))];
      i := i + 1;
    }
    assert AveragedCities()[..10] == AveragedCities();
  }

  /** The second averaged entry: New York's name, with the counts
      11000, 8900 and 9800 and the rates 4.8, 4.1 and 5.9 of the three
      tables' second rows, which average to 9900 and 4.933…, stored as 4.9. */
  lemma SecondAveragedCity()
    ensures AveragedCities()[1] == City("New York, NY", 9900, 4.9)
  {
    var r := RoundHalfEven((4.8 + 4.1 + 5.9) / 3.0 * 10.0);
    assert r == 49;
  }

  /** The table a category reads cities from. */
  function CityTable(c: RoleCategory): (t: seq<City>)
    ensures |t| == 10
  {
    match c
    case Tech => TechCities
    case Marketing => MarketingCities
    case Design => DesignCities
    case General => AveragedCities()
  }

  function TalentKey(c: City): real
  {
    c.talentCount as real
  }

  /** `get_top_cities_for_talent`: the category's ten cities, or the
      averaged ones for a general role, by talent count, largest first;
      the skills do not matter. */
  method GetTopCitiesForTalent(role: string, skills: seq<string>) returns (top: seq<City>)
    ensures top == SortDesc(CityTable(Categorize(role)), TalentKey)
    ensures |top| == 10 && SortedDesc(top, TalentKey)
    ensures multiset(top) == multiset(CityTable(Categorize(role)))
  {
    var cities: seq<City>;
    var roleLower := Lower(role);
    if ContainsAny(TechTerms, roleLower) {
      cities := TechCities;
    } else if ContainsAny(MarketingTerms, roleLower) {
      cities := MarketingCities;
    } else if ContainsAny(DesignTerms, roleLower) {
      cities := DesignCities;
    } else {
      cities := AverageCities();
    }
    top := SortDesc(cities, TalentKey);
  }

  // ---------------------------------------------------------------------
  // Skill prevalence

  const TechPrevalence: Dict<string, int> := [("python", 65), ("java", 58), ("javascript", 72), ("sql", 62), ("react", 48), ("aws", 53), ("docker", 42), ("kubernetes", 35), ("machine learning", 38), ("data science", 42), ("c++", 45), ("golang", 28), ("typescript", 44), ("node.js", 51), ("git", 75), ("agile", 67), ("jira", 58), ("tableau", 32), ("power bi", 29), ("tensorflow", 26)]
  const MarketingPrevalence: Dict<string, int> := [("seo", 58), ("social media", 72), ("content marketing", 65), ("google analytics", 63), ("email marketing", 61), ("ppc", 48), ("sem", 52), ("adobe creative suite", 55), ("canva", 67), ("hubspot", 49), ("salesforce", 51), ("market research", 62), ("copywriting", 59), ("google ads", 54), ("facebook ads", 56), ("influencer marketing", 44), ("brand strategy", 58), ("campaign management", 63), ("mailchimp", 57), ("conversion optimization", 48)]
  const DesignPrevalence: Dict<string, int> := [("adobe photoshop", 75), ("adobe illustrator", 68), ("figma", 62), ("sketch", 54), ("ui design", 65), ("ux design", 63), ("adobe xd", 59), ("typography", 72), ("color theory", 78), ("responsive design", 66), ("user research", 58), ("prototyping", 64), ("wireframing", 67), ("information architecture", 52), ("indesign", 61), ("after effects", 48), ("3d modeling", 37), ("motion graphics", 44), ("design thinking", 61), ("accessibility", 56)]

  /** `{**d, **e}`: the entries of `e` assigned into `d` in order. */
  function Merge(d: Dict<string, int>, e: Dict<string, int>): Dict<string, int>
  {
    if e == [] then d else Put(Merge(d, e[..|e| - 1]), e[|e| - 1].0, e[|e| - 1].1)
  }

  function PrevalenceMap(c: RoleCategory): Dict<string, int>
  {
    match c
    case Tech => TechPrevalence
    case Marketing => MarketingPrevalence
    case Design => DesignPrevalence
    case General => Merge(Merge(TechPrevalence, MarketingPrevalence), DesignPrevalence)
  }

  /** The skill and the key contain one another. */
  predicate Related(skill: string, key: string)
  {
    IsSubstring(skill, key) || IsSubstring(key, skill)
  }

  /** The `for key, value in items(): if ...: break` search, from the
      first entry on. */
  function PartialLookup(m: Dict<string, int>, skill: string): Option<int>
  {
    if m == [] then None
    else if Related(skill, m[0].0) then Some(m[0].1)
    else PartialLookup(m[1..], skill)
  }

  /** The partial search finds the value of the first related entry, and
      nothing only when no entry is related. */
  lemma {:induction false} PartialLookupFirst(m: Dict<string, int>, skill: string)
    ensures PartialLookup(m, skill).Some? ==>
      exists i | 0 <= i < |m| :: Related(skill, m[i].0) && m[i].1 == PartialLookup(m, skill).value &&
                                  forall j | 0 <= j < i :: !Related(skill, m[j].0)
    ensures PartialLookup(m, skill).None? <==> forall i | 0 <= i < |m| :: !Related(skill, m[i].0)
  {
    if m != [] && !Related(skill, m[0].0) {
      PartialLookupFirst(m[1..], skill);
      var r := PartialLookup(m[1..], skill);
      if r.Some? {
        var i :| 0 <= i < |m[1..]| && Related(skill, m[1..][i].0) && m[1..][i].1 == r.value &&
                 forall j | 0 <= j < i :: !Related(skill, m[1..][j].0);
        assert m[i + 1] == m[1..][i];
        forall j | 0 <= j < i + 1 ensures !Related(skill, m[j].0) {
          if j > 0 {
            assert m[j] == m[1..][j - 1];
          }
        }
      } else {
        forall i | 0 <= i < |m| ensures !Related(skill, m[i].0) {
          if i > 0 {
            assert m[i] == m[1..][i - 1];
          }
        }
      }
    }
  }

  /** An exact key wins over any partial match; otherwise the first
      related entry. */
  function Lookup(m: Dict<string, int>, skill: string): Option<int>
  {
    if HasKey(m, skill) then Get(m, skill) else PartialLookup(m, skill)
  }

  /** Nothing is found only when no key is related to the skill; a key
      equal to the skill decides the value whatever entries come before
      it. */
  lemma LookupMeaning(m: Dict<string, int>, skill: string)
    ensures Lookup(m, skill).None? <==> forall i | 0 <= i < |m| :: !Related(skill, m[i].0)
    ensures HasKey(m, skill) ==> Lookup(m, skill) == Some(m[IndexOf(m, skill)].1)
  {
    PartialLookupFirst(m, skill);
    if HasKey(m, skill) {
      var i := IndexOf(m, skill);
      PrefixIsSubstring(skill, m[i].0);
    }
  }

  datatype SkillPrevalence = SkillPrevalence(skill: string, prevalence: int, gapOpportunity: int)

  /** The entry for one requested skill; `draw` stands for the
      `random.randint(20, 60)` used when nothing matches. */
  function PrevalenceEntry(m: Dict<string, int>, skill: string, draw: int): SkillPrevalence
  {
    var p := match Lookup(m, Lower(skill)) case Some(v) => v case None => draw;
    SkillPrevalence(skill, p, 100 - p)
  }

  /** The entries in request order, before sorting. */
  function PrevalenceEntries(m: Dict<string, int>, skills: seq<string>, draws: seq<int>): (r: seq<SkillPrevalence>)
    requires |draws| == |skills|
    ensures |r| == |skills|
    ensures forall i | 0 <= i < |skills| :: r[i] == PrevalenceEntry(m, skills[i], draws[i])
  {
    if skills == [] then []
    else PrevalenceEntries(m, skills[..|skills| - 1], draws[..|draws| - 1]) +
         [PrevalenceEntry(m, skills[|skills| - 1], draws[|draws| - 1])]
  }

  lemma PrevalenceEntriesStep(m: Dict<string, int>, skills: seq<string>, draws: seq<int>, i: nat)
    requires |draws| == |skills| && i < |skills|
    ensures PrevalenceEntries(m, skills[..i + 1], draws[..i + 1]) ==
            PrevalenceEntries(m, skills[..i], draws[..i]) + [PrevalenceEntry(m, skills[i], draws[i])]
  {
    assert skills[..i + 1][..i] == skills[..i];
    assert draws[..i + 1][..i] == draws[..i];
  }

  function PrevalenceKey(e: SkillPrevalence): real
  {
    e.prevalence as real
  }

  /** `random.randint(20, 60)`: every draw lies between 20 and 60. */
  predicate DrawsInRange(draws: seq<int>)
  {
    forall i | 0 <= i < |draws| :: 20 <= draws[i] <= 60
  }

  /** Any arrangement of the entries keeps, in every entry, the gap as the
      complement of the prevalence and a requested skill; an entry whose
      skill no key is related to carries a drawn prevalence, so one between
      20 and 60 and a gap between 40 and 80. */
  lemma EntriesShape(m: Dict<string, int>, skills: seq<string>, draws: seq<int>, entries: seq<SkillPrevalence>)
    requires |draws| == |skills|
    requires multiset(entries) == multiset(PrevalenceEntries(m, skills, draws))
    ensures forall e | e in entries :: e.gapOpportunity == 100 - e.prevalence && e.skill in skills
    ensures DrawsInRange(draws) ==>
              forall e | e in entries && Lookup(m, Lower(e.skill)).None? ::
                20 <= e.prevalence <= 60 && 40 <= e.gapOpportunity <= 80
  {
    var all := PrevalenceEntries(m, skills, draws);
    forall e | e in entries
      ensures e.gapOpportunity == 100 - e.prevalence && e.skill in skills
      ensures DrawsInRange(draws) && Lookup(m, Lower(e.skill)).None? ==>
                20 <= e.prevalence <= 60 && 40 <= e.gapOpportunity <= 80
    {
      assert e in multiset(all);
      var k :| 0 <= k < |all| && all[k] == e;
      assert e == PrevalenceEntry(m, skills[k], draws[k]);
    }
  }

  /** The search of one skill: the exact key, else the partial loop. */
  method FindPrevalence(m: Dict<string, int>, skill: string) returns (p: Option<int>)
    ensures p == Lookup(m, skill)
  {
    if HasKey(m, skill) {
      p := Get(m, skill);
    } else {
      p := None;
      var i := 0;
      while i < |m|
        invariant 0 <= i <= |m|
        invariant PartialLookup(m, skill) == PartialLookup(m[i..], skill)
      {
        if Related(skill, m[i].0) {
          p := Some(m[i].1);
          assert m[i..][0] == m[i];
          break;
        }
        assert m[i..][1..] == m[i + 1..];
        i := i + 1;
      }
    }
  }

  /** The body of the loop over the requested skills. */
  method PrevalenceFor(m: Dict<string, int>, skill: string, draw: int) returns (entry: SkillPrevalence)
    ensures entry == PrevalenceEntry(m, skill, draw)
  {
    var p := FindPrevalence(m, Lower(skill));
    var prevalence := match p case Some(v) => v case None => draw;
    entry := SkillPrevalence(skill, prevalence, 100 - prevalence);
  }

  /** `get_skill_prevalence`: one entry per requested skill, with the gap
      as the complement of the prevalence, by prevalence, highest first.
      `draws[i]` is the `random.randint(20, 60)` for the i-th skill. */
  method GetSkillPrevalence(role: string, skills: seq<string>, draws: seq<int>) returns (entries: seq<SkillPrevalence>)
    requires |draws| == |skills| && DrawsInRange(draws)
    ensures entries == SortDesc(PrevalenceEntries(PrevalenceMap(Categorize(role)), skills, draws), PrevalenceKey)
    ensures |entries| == |skills| && SortedDesc(entries, PrevalenceKey)
    ensures forall e | e in entries :: e.gapOpportunity == 100 - e.prevalence && e.skill in skills
    ensures forall e | e in entries && Lookup(PrevalenceMap(Categorize(role)), Lower(e.skill)).None? ::
              20 <= e.prevalence <= 60 && 40 <= e.gapOpportunity <= 80
  {
    var m := PrevalenceMap(Categorize(role));
    var found: seq<SkillPrevalence> := [];
    var i := 0;
    while i < |skills|
      invariant 0 <= i <= |skills|
      invariant found == PrevalenceEntries(m, skills[..i], draws[..i])
    {
      var entry := PrevalenceFor(m, skills[i], draws[i]);
      PrevalenceEntriesStep(m, skills, draws, i);
      found := found + [entry];
      i := i + 1;
    }
    assert skills[..|skills|] == skills;
    assert draws[..|draws|] == draws;
    entries := SortDesc(found, PrevalenceKey);
    EntriesShape(m, skills, draws, entries);
  }
}

/** Hiring-trend insights: a surge or decline in hiring velocity between
    the earlier and the recent half of the time series, leadership hiring,
    a focus on a technology category, remote work, and geographic focus. */
module HiringTrends {
  import opened Common
  import opened Assoc
  import opened JobAggregator
  import opened Insights

  /** Role titles containing one of these (case-sensitively) are
      leadership roles. */
  const LeadershipRoles: seq<string> :=
    ["CEO", "CFO", "CTO", "COO", "CHRO", "CMO", "President", "Director", "VP", "Head"]

  /** Technology categories and their keywords, in dict order. */
  const TechCategories: seq<(string, seq<string>)> := [
    ("AI/ML", ["AI", "Machine Learning", "Data Scientist", "NLP", "Computer Vision", "Deep Learning"]),
    ("Cloud", ["AWS", "Azure", "GCP", "Cloud", "DevOps", "SRE", "Kubernetes"]),
    ("Mobile", ["iOS", "Android", "Mobile", "React Native", "Flutter"]),
    ("Frontend", ["Frontend", "UI", "UX", "React", "Angular", "Vue"]),
    ("Backend", ["Backend", "API", "Microservices", "Node.js", "Java", "Python", "Go", "Ruby"])
  ]

  /** Regions and the location keywords that place a location in them. */
  const Regions: seq<(string, seq<string>)> := [
    ("North America", ["US", "USA", "United States", "Canada", "Mexico"]),
    ("Europe", ["UK", "United Kingdom", "Germany", "France", "Spain", "Italy", "Netherlands", "Sweden"]),
    ("Asia", ["China", "Japan", "India", "Singapore", "Hong Kong"]),
    ("Latin America", ["Brazil", "Argentina", "Colombia", "Chile", "Peru"]),
    ("Africa", ["South Africa", "Nigeria", "Kenya", "Egypt"]),
    ("Australia/Oceania", ["Australia", "New Zealand"])
  ]

  // ---------------------------------------------------------------------
  // Hiring velocity

  /** Jobs of `c` in the earlier half of the series (the first
      `len // 2` rows) and in the recent half (the rest). */
  function EarlierCount(rows: seq<Row<int>>, c: string): int
  {
    ColumnTotal(rows[..|rows| / 2], c)
  }

  function RecentCount(rows: seq<Row<int>>, c: string): int
  {
    ColumnTotal(rows[|rows| / 2..], c)
  }

  /** `((recent - earlier) / earlier) * 100` in exact arithmetic. */
  function PercentChange(recent: int, earlier: int): real
    requires earlier != 0
  {
    ((recent - earlier) as real / earlier as real) * 100.0
  }

  /** The insight, if any, that one company's velocity produces. */
  function VelocityInsight(rows: seq<Row<int>>, c: string): seq<Insight>
  {
    var earlier := EarlierCount(rows, c);
    if earlier > 0 then
      var change := PercentChange(RecentCount(rows, c), earlier);
      if change > 30.0 then [HiringSurge(c, change)]
      else if change < -30.0 then [HiringDecline(c, change)]
      else []
    else []
  }

  function VelocityInsights(companies: seq<string>, rows: seq<Row<int>>): seq<Insight>
  {
    if companies == [] then []
    else VelocityInsights(companies[..|companies| - 1], rows) + VelocityInsight(rows, companies[|companies| - 1])
  }

  method AnalyzeVelocity(companies: seq<string>, rows: seq<Row<int>>) returns (insights: seq<Insight>)
    ensures insights == VelocityInsights(companies, rows)
  {
    var half := |rows| / 2;
    var recent := rows[half..];
    var earlier := rows[..half];
    insights := [];
    var i := 0;
    while i < |companies|
      invariant 0 <= i <= |companies|
      invariant insights == VelocityInsights(companies[..i], rows)
    {
      var one := CompanyVelocity(rows, recent, earlier, companies[i]);
      insights := insights + one;
      assert companies[..i + 1][..i] == companies[..i];
      i := i + 1;
    }
    assert companies[..|companies|] == companies;
  }

  /** The surge or decline of one company, from the two halves. */
  method CompanyVelocity(rows: seq<Row<int>>, recent: seq<Row<int>>, earlier: seq<Row<int>>, c: string)
    returns (insights: seq<Insight>)
    requires recent == rows[|rows| / 2..] && earlier == rows[..|rows| / 2]
    ensures insights == VelocityInsight(rows, c)
  {
    insights := [];
    var recentCount := ColumnTotal(recent, c);
    var earlierCount := ColumnTotal(earlier, c);
    if earlierCount > 0 {
      var change := ((recentCount - earlierCount) as real / earlierCount as real) * 100.0;
      if change > 30.0 {
        insights := [HiringSurge(c, change)];
      } else if change < -30.0 {
        insights := [HiringDecline(c, change)];
      }
    }
  }

  lemma {:induction false} ColumnTotalAppend<L>(a: seq<Row<L>>, b: seq<Row<L>>, c: string)
    ensures ColumnTotal(a + b, c) == ColumnTotal(a, c) + ColumnTotal(b, c)
  {
    if b == [] {
      assert a + b == a;
    } else {
      assert (a + b)[..|a + b| - 1] == a + b[..|b| - 1];
      ColumnTotalAppend(a, b[..|b| - 1], c);
    }
  }

  /** The two halves split the series: together they hold every job of
      the company. */
  lemma HalvesCoverSeries(rows: seq<Row<int>>, c: string)
    ensures EarlierCount(rows, c) + RecentCount(rows, c) == ColumnTotal(rows, c)
  {
    assert rows == rows[..|rows| / 2] + rows[|rows| / 2..];
    ColumnTotalAppend(rows[..|rows| / 2], rows[|rows| / 2..], c);
  }

  /** A velocity insight comes from one of the listed companies. */
  lemma {:induction false} VelocitySound(companies: seq<string>, rows: seq<Row<int>>, x: Insight) returns (j: int)
    requires x in VelocityInsights(companies, rows)
    ensures 0 <= j < |companies| && x in VelocityInsight(rows, companies[j])
  {
    var n := |companies| - 1;
    if x in VelocityInsight(rows, companies[n]) {
      j := n;
    } else {
      j := VelocitySound(companies[..n], rows, x);
      assert companies[..n][j] == companies[j];
    }
  }

  /** Every listed company's insight is among the velocity insights. */
  lemma {:induction false} VelocityComplete(companies: seq<string>, rows: seq<Row<int>>, j: int, x: Insight)
    requires 0 <= j < |companies| && x in VelocityInsight(rows, companies[j])
    ensures x in VelocityInsights(companies, rows)
  {
    var n := |companies| - 1;
    if j < n {
      assert companies[..n][j] == companies[j];
      VelocityComplete(companies[..n], rows, j, x);
    }
  }

  /** A surge is reported for `c` exactly when `c` is a listed company
      that had jobs in the earlier half and whose change exceeds +30%. */
  lemma SurgeIff(companies: seq<string>, rows: seq<Row<int>>, c: string, change: real)
    ensures HiringSurge(c, change) in VelocityInsights(companies, rows) <==>
      c in companies && EarlierCount(rows, c) > 0 &&
      change == PercentChange(RecentCount(rows, c), EarlierCount(rows, c)) && change > 30.0
  {
    var x := HiringSurge(c, change);
    if x in VelocityInsights(companies, rows) {
      var j := VelocitySound(companies, rows, x);
    }
    if c in companies && x in VelocityInsight(rows, c) {
      var j :| 0 <= j < |companies| && companies[j] == c;
      VelocityComplete(companies, rows, j, x);
    }
  }

  /** A decline is reported exactly when the change is below -30%; a
      company with no earlier jobs gets neither. */
  lemma DeclineIff(companies: seq<string>, rows: seq<Row<int>>, c: string, change: real)
    ensures HiringDecline(c, change) in VelocityInsights(companies, rows) <==>
      c in companies && EarlierCount(rows, c) > 0 &&
      change == PercentChange(RecentCount(rows, c), EarlierCount(rows, c)) && change < -30.0
  {
    var x := HiringDecline(c, change);
    if x in VelocityInsights(companies, rows) {
      var j := VelocitySound(companies, rows, x);
    }
    if c in companies && x in VelocityInsight(rows, c) {
      var j :| 0 <= j < |companies| && companies[j] == c;
      VelocityComplete(companies, rows, j, x);
    }
  }

  lemma VelocityKinds(companies: seq<string>, rows: seq<Row<int>>, x: Insight)
    requires x in VelocityInsights(companies, rows)
    ensures x.HiringSurge? || x.HiringDecline?
  {
    var j := VelocitySound(companies, rows, x);
  }

  // ---------------------------------------------------------------------
  // Role patterns

  function LeadershipCount(roles: Counts<string>): int
  {
    SumContaining(roles, LeadershipRoles)
  }

  function LeadershipInsight(c: string, roles: Counts<string>): seq<Insight>
  {
    var n := LeadershipCount(roles);
    if n >= 2 then [LeadershipChanges(c, n)] else []
  }

  /** One `technology_focus` per category, in category order, whose
      keywords match at least three of the company's jobs. */
  function TechInsights(c: string, roles: Counts<string>, cats: seq<(string, seq<string>)>): seq<Insight>
  {
    if cats == [] then []
    else
      var cat := cats[|cats| - 1];
      var n := SumMatching(roles, cat.1);
      TechInsights(c, roles, cats[..|cats| - 1]) + (if n >= 3 then [TechnologyFocus(c, cat.0, n)] else [])
  }

  function CompanyRoleInsights(c: string, roles: Counts<string>): seq<Insight>
  {
    LeadershipInsight(c, roles) + TechInsights(c, roles, TechCategories)
  }

  function RoleInsights(d: Dict<string, Counts<string>>): seq<Insight>
  {
    PerEntry(d, CompanyRoleInsights)
  }

  method TechFocus(c: string, roles: Counts<string>) returns (insights: seq<Insight>)
    ensures insights == TechInsights(c, roles, TechCategories)
  {
    insights := [];
    var k := 0;
    while k < |TechCategories|
      invariant 0 <= k <= |TechCategories|
      invariant insights == TechInsights(c, roles, TechCategories[..k])
    {
      var (category, keywords) := TechCategories[k];
      var n := SumMatching(roles, keywords);
      if n >= 3 {
        insights := insights + [TechnologyFocus(c, category, n)];
      }
      assert TechCategories[..k + 1][..k] == TechCategories[..k];
      k := k + 1;
    }
    assert TechCategories[..|TechCategories|] == TechCategories;
  }

  method AnalyzeRoles(d: Dict<string, Counts<string>>) returns (insights: seq<Insight>)
    ensures insights == RoleInsights(d)
  {
    insights := [];
    var i := 0;
    while i < |d|
      invariant 0 <= i <= |d|
      invariant insights == RoleInsights(d[..i])
    {
      var (company, roles) := d[i];
      var n := SumContaining(roles, LeadershipRoles);
      if n >= 2 {
        insights := insights + [LeadershipChanges(company, n)];
      }
      var tech := TechFocus(company, roles);
      insights := insights + tech;
      PerEntryStep(d, CompanyRoleInsights, i);
      i := i + 1;
    }
    assert d[..|d|] == d;
  }

  lemma {:induction false} TechMembers(c: string, roles: Counts<string>, cats: seq<(string, seq<string>)>, x: Insight)
    ensures x in TechInsights(c, roles, cats) ==>
      exists k | 0 <= k < |cats| :: x == TechnologyFocus(c, cats[k].0, SumMatching(roles, cats[k].1)) && x.count >= 3
    ensures (exists k | 0 <= k < |cats| :: x == TechnologyFocus(c, cats[k].0, SumMatching(roles, cats[k].1)) && x.count >= 3) ==>
      x in TechInsights(c, roles, cats)
  {
    if cats != [] {
      var n := |cats| - 1;
      TechMembers(c, roles, cats[..n], x);
      if k :| 0 <= k < |cats| && x == TechnologyFocus(c, cats[k].0, SumMatching(roles, cats[k].1)) && x.count >= 3 {
        if k < n {
          assert cats[..n][k] == cats[k];
        }
      }
    }
  }

  /** Leadership changes are reported for a company exactly when its
      leadership roles add up to at least two jobs. */
  lemma LeadershipIff(d: Dict<string, Counts<string>>, c: string, n: int)
    ensures LeadershipChanges(c, n) in RoleInsights(d) <==>
      exists i | 0 <= i < |d| :: d[i].0 == c && n == LeadershipCount(d[i].1) && n >= 2
  {
    var x := LeadershipChanges(c, n);
    PerEntryMembers(d, CompanyRoleInsights, x);
    forall i | 0 <= i < |d|
      ensures x in CompanyRoleInsights(d[i].0, d[i].1) <==> x in LeadershipInsight(d[i].0, d[i].1)
    {
      TechMembers(d[i].0, d[i].1, TechCategories, x);
    }
  }

  /** A technology focus is reported for a company and a category exactly
      when that category's keywords match at least three of its jobs. */
  lemma TechIff(d: Dict<string, Counts<string>>, c: string, category: string, n: int)
    ensures TechnologyFocus(c, category, n) in RoleInsights(d) <==>
      exists i, k | 0 <= i < |d| && 0 <= k < |TechCategories| ::
        d[i].0 == c && TechCategories[k].0 == category &&
        n == SumMatching(d[i].1, TechCategories[k].1) && n >= 3
  {
    var x := TechnologyFocus(c, category, n);
    PerEntryMembers(d, CompanyRoleInsights, x);
    if x in RoleInsights(d) {
      var i :| 0 <= i < |d| && x in CompanyRoleInsights(d[i].0, d[i].1);
      assert x in TechInsights(d[i].0, d[i].1, TechCategories);
      TechMembers(d[i].0, d[i].1, TechCategories, x);
      var k :| 0 <= k < |TechCategories| &&
        x == TechnologyFocus(d[i].0, TechCategories[k].0, SumMatching(d[i].1, TechCategories[k].1)) && x.count >= 3;
      assert d[i].0 == c && TechCategories[k].0 == category;
    }
    if i, k :| (0 <= i < |d| && 0 <= k < |TechCategories| &&
        d[i].0 == c && TechCategories[k].0 == category &&
        n == SumMatching(d[i].1, TechCategories[k].1) && n >= 3) {
      TechMembers(d[i].0, d[i].1, TechCategories, x);
      assert x in CompanyRoleInsights(d[i].0, d[i].1);
    }
  }


  lemma RoleKinds(d: Dict<string, Counts<string>>, x: Insight)
    requires x in RoleInsights(d)
    ensures x.LeadershipChanges? || x.TechnologyFocus?
  {
    PerEntryMembers(d, CompanyRoleInsights, x);
    var i :| 0 <= i < |d| && x in CompanyRoleInsights(d[i].0, d[i].1);
    if x !in LeadershipInsight(d[i].0, d[i].1) {
      TechMembers(d[i].0, d[i].1, TechCategories, x);
    }
  }

  // ---------------------------------------------------------------------
  // Location patterns

  /** Jobs whose location, lower-cased, contains "remote". */
  function RemoteCount(locations: Counts<string>): int
  {
    if locations == [] then 0
    else
      var e := locations[|locations| - 1];
      RemoteCount(locations[..|locations| - 1]) + (if IsSubstring("remote", Lower(e.0)) then e.1 else 0)
  }

  function RemotePercentage(locations: Counts<string>): real
    requires SumValues(locations) != 0
  {
    (RemoteCount(locations) as real / SumValues(locations) as real) * 100.0
  }

  function RemoteInsight(c: string, locations: Counts<string>): seq<Insight>
  {
    if SumValues(locations) > 0 && RemotePercentage(locations) > 50.0
    then [RemoteWork(c, RemotePercentage(locations))]
    else []
  }

  lemma {:induction false} RemoteCountBounds(locations: Counts<string>)
    requires forall i | 0 <= i < |locations| :: locations[i].1 >= 0
    ensures 0 <= RemoteCount(locations) <= SumValues(locations)
  {
    if locations != [] {
      var n := |locations| - 1;
      RemoteCountBounds(locations[..n]);
      SumValuesAppend(locations[..n], locations[n]);
      assert locations == locations[..n] + [locations[n]];
    }
  }

  /** With non-negative counts the remote share is a percentage. */
  lemma RemotePercentageBounds(locations: Counts<string>)
    requires forall i | 0 <= i < |locations| :: locations[i].1 >= 0
    requires SumValues(locations) > 0
    ensures 0.0 <= RemotePercentage(locations) <= 100.0
  {
    RemoteCountBounds(locations);
    var r := RemoteCount(locations) as real;
    var t := SumValues(locations) as real;
    assert r / t <= 1.0 by {
      assert r <= t;
    }
  }

  /** `region_counts[region]` for each region, in region order: a location
      adds its jobs to every region one of whose keywords it mentions. */
  function RegionCounts(locations: Counts<string>, regions: seq<(string, seq<string>)>): (r: seq<int>)
    ensures |r| == |regions|
  {
    if regions == [] then []
    else RegionCounts(locations, regions[..|regions| - 1]) + [SumMatching(locations, regions[|regions| - 1].1)]
  }

  function RegionInsights(c: string, locations: Counts<string>, regions: seq<(string, seq<string>)>): seq<Insight>
  {
    if regions == [] then []
    else
      var region := regions[|regions| - 1];
      var n := SumMatching(locations, region.1);
      RegionInsights(c, locations, regions[..|regions| - 1]) +
      (if n >= 3 then [GeographicExpansion(c, region.0, n)] else [])
  }

  function CompanyLocationInsights(c: string, locations: Counts<string>): seq<Insight>
  {
    RemoteInsight(c, locations) + RegionInsights(c, locations, Regions)
  }

  function LocationInsights(d: Dict<string, Counts<string>>): seq<Insight>
  {
    PerEntry(d, CompanyLocationInsights)
  }

  lemma RegionCountsAt(locations: Counts<string>, regions: seq<(string, seq<string>)>, k: nat)
    requires k < |regions|
    ensures RegionCounts(locations, regions)[k] == SumMatching(locations, regions[k].1)
  {
    if k < |regions| - 1 {
      RegionCountsAt(locations, regions[..|regions| - 1], k);
    }
  }

  lemma SumMatchingStep(locations: Counts<string>, i: nat, words: seq<string>)
    requires i < |locations|
    ensures SumMatching(locations[..i + 1], words) ==
      SumMatching(locations[..i], words) +
      (if ContainsAnyIgnoringCase(words, locations[i].0) then locations[i].1 else 0)
  {
    assert locations[..i + 1][..i] == locations[..i];
  }

  /** The nested loop that fills `region_counts`. */
  method CountRegions(locations: Counts<string>) returns (counts: seq<int>)
    ensures counts == RegionCounts(locations, Regions)
  {
    counts := seq(|Regions|, _ => 0);
    var i := 0;
    while i < |locations|
      invariant 0 <= i <= |locations|
      invariant |counts| == |Regions|
      invariant forall r | 0 <= r < |Regions| :: counts[r] == SumMatching(locations[..i], Regions[r].1)
    {
      var (location, count) := locations[i];
      var k := 0;
      while k < |Regions|
        invariant 0 <= k <= |Regions|
        invariant |counts| == |Regions|
        invariant forall r | 0 <= r < k :: counts[r] == SumMatching(locations[..i + 1], Regions[r].1)
        invariant forall r | k <= r < |Regions| :: counts[r] == SumMatching(locations[..i], Regions[r].1)
      {
        SumMatchingStep(locations, i, Regions[k].1);
        if ContainsAnyIgnoringCase(Regions[k].1, location) {
          counts := counts[k := counts[k] + count];
        }
        k := k + 1;
      }
      i := i + 1;
    }
    assert locations[..|locations|] == locations;
    forall r | 0 <= r < |Regions|
      ensures counts[r] == RegionCounts(locations, Regions)[r]
    {
      RegionCountsAt(locations, Regions, r);
    }
  }

  method LocationFocus(c: string, locations: Counts<string>) returns (insights: seq<Insight>)
    ensures insights == CompanyLocationInsights(c, locations)
  {
    insights := [];
    var remote := RemoteCount(locations);
    var total := SumValues(locations);
    if total > 0 {
      var percentage := (remote as real / total as real) * 100.0;
      if percentage > 50.0 {
        insights := insights + [RemoteWork(c, percentage)];
      }
    }
    var counts := CountRegions(locations);
    var k := 0;
    while k < |Regions|
      invariant 0 <= k <= |Regions|
      invariant insights == RemoteInsight(c, locations) + RegionInsights(c, locations, Regions[..k])
    {
      RegionCountsAt(locations, Regions, k);
      if counts[k] >= 3 {
        insights := insights + [GeographicExpansion(c, Regions[k].0, counts[k])];
      }
      assert Regions[..k + 1][..k] == Regions[..k];
      k := k + 1;
    }
    assert Regions[..|Regions|] == Regions;
  }

  method AnalyzeLocations(d: Dict<string, Counts<string>>) returns (insights: seq<Insight>)
    ensures insights == LocationInsights(d)
  {
    insights := [];
    var i := 0;
    while i < |d|
      invariant 0 <= i <= |d|
      invariant insights == LocationInsights(d[..i])
    {
      var company := LocationFocus(d[i].0, d[i].1);
      insights := insights + company;
      PerEntryStep(d, CompanyLocationInsights, i);
      i := i + 1;
    }
    assert d[..|d|] == d;
  }

  lemma {:induction false} RegionMembers(c: string, locations: Counts<string>, regions: seq<(string, seq<string>)>, x: Insight)
    ensures x in RegionInsights(c, locations, regions) ==>
      exists k | 0 <= k < |regions| ::
        x == GeographicExpansion(c, regions[k].0, SumMatching(locations, regions[k].1)) && x.count >= 3
    ensures (exists k | 0 <= k < |regions| ::
        x == GeographicExpansion(c, regions[k].0, SumMatching(locations, regions[k].1)) && x.count >= 3) ==>
      x in RegionInsights(c, locations, regions)
  {
    if regions != [] {
      var n := |regions| - 1;
      RegionMembers(c, locations, regions[..n], x);
      if k :| (0 <= k < |regions| &&
          x == GeographicExpansion(c, regions[k].0, SumMatching(locations, regions[k].1)) && x.count >= 3) {
        if k < n {
          assert regions[..n][k] == regions[k];
        }
      }
    }
  }

  /** Remote work is reported for a company exactly when it has jobs and
      more than half of them are remote. */
  lemma RemoteIff(d: Dict<string, Counts<string>>, c: string, p: real)
    ensures RemoteWork(c, p) in LocationInsights(d) <==>
      exists i | 0 <= i < |d| :: d[i].0 == c && SumValues(d[i].1) > 0 &&
        p == RemotePercentage(d[i].1) && p > 50.0
  {
    var x := RemoteWork(c, p);
    PerEntryMembers(d, CompanyLocationInsights, x);
    forall i | 0 <= i < |d|
      ensures x in CompanyLocationInsights(d[i].0, d[i].1) <==> x in RemoteInsight(d[i].0, d[i].1)
    {
      RegionMembers(d[i].0, d[i].1, Regions, x);
    }
  }

  /** A geographic focus is reported for a company and a region exactly
      when the region's keywords match at least three of its jobs. */
  lemma GeographicIff(d: Dict<string, Counts<string>>, c: string, region: string, n: int)
    ensures GeographicExpansion(c, region, n) in LocationInsights(d) <==>
      exists i, k | 0 <= i < |d| && 0 <= k < |Regions| ::
        d[i].0 == c && Regions[k].0 == region &&
        n == SumMatching(d[i].1, Regions[k].1) && n >= 3
  {
    var x := GeographicExpansion(c, region, n);
    PerEntryMembers(d, CompanyLocationInsights, x);
    if x in LocationInsights(d) {
      var i :| 0 <= i < |d| && x in CompanyLocationInsights(d[i].0, d[i].1);
      assert x in RegionInsights(d[i].0, d[i].1, Regions);
      RegionMembers(d[i].0, d[i].1, Regions, x);
      var k :| 0 <= k < |Regions| &&
        x == GeographicExpansion(d[i].0, Regions[k].0, SumMatching(d[i].1, Regions[k].1)) && x.count >= 3;
      assert d[i].0 == c && Regions[k].0 == region;
    }
    if i, k :| (0 <= i < |d| && 0 <= k < |Regions| &&
        d[i].0 == c && Regions[k].0 == region &&
        n == SumMatching(d[i].1, Regions[k].1) && n >= 3) {
      RegionMembers(d[i].0, d[i].1, Regions, x);
      assert x in CompanyLocationInsights(d[i].0, d[i].1);
    }
  }


  lemma LocationKinds(d: Dict<string, Counts<string>>, x: Insight)
    requires x in LocationInsights(d)
    ensures x.RemoteWork? || x.GeographicExpansion?
  {
    PerEntryMembers(d, CompanyLocationInsights, x);
    var i :| 0 <= i < |d| && x in CompanyLocationInsights(d[i].0, d[i].1);
    if x !in RemoteInsight(d[i].0, d[i].1) {
      RegionMembers(d[i].0, d[i].1, Regions, x);
    }
  }

  // ---------------------------------------------------------------------
  // The analysis

  /** The insights `analyze_hiring_trends` returns: velocity, then roles,
      then locations, each only when its key is present. Velocity data
      without a company list raises a KeyError that the handler turns
      into an empty result. */
  function HiringTrendInsights(inp: AnalysisInput): seq<Insight>
  {
    if inp.hiringVelocity.Some? && inp.companies.None? then []
    else
      (if inp.hiringVelocity.Some? then VelocityInsights(inp.companies.value, inp.hiringVelocity.value) else []) +
      (if inp.rolesByCompany.Some? then RoleInsights(inp.rolesByCompany.value) else []) +
      (if inp.locationsByCompany.Some? then LocationInsights(inp.locationsByCompany.value) else [])
  }

  method AnalyzeHiringTrends(inp: AnalysisInput) returns (insights: seq<Insight>)
    ensures insights == HiringTrendInsights(inp)
  {
    if inp.hiringVelocity.Some? && inp.companies.None? {
      return [];
    }
    var velocity: seq<Insight> := [];
    if inp.hiringVelocity.Some? {
      velocity := AnalyzeVelocity(inp.companies.value, inp.hiringVelocity.value);
    }
    var roles: seq<Insight> := [];
    if inp.rolesByCompany.Some? {
      roles := AnalyzeRoles(inp.rolesByCompany.value);
    }
    var locations: seq<Insight> := [];
    if inp.locationsByCompany.Some? {
      locations := AnalyzeLocations(inp.locationsByCompany.value);
    }
    insights := velocity + roles + locations;
  }

  /** Over the whole analysis: a surge for `c` is reported exactly when
      velocity data and a company list are present, `c` is listed, it had
      earlier jobs, and its change exceeds +30%. */
  lemma HiringSurgeReported(inp: AnalysisInput, c: string, change: real)
    ensures HiringSurge(c, change) in HiringTrendInsights(inp) <==>
      inp.hiringVelocity.Some? && inp.companies.Some? &&
      var rows := inp.hiringVelocity.value;
      c in inp.companies.value && EarlierCount(rows, c) > 0 &&
      change == PercentChange(RecentCount(rows, c), EarlierCount(rows, c)) && change > 30.0
  {
    var x := HiringSurge(c, change);
    if inp.hiringVelocity.Some? && inp.companies.Some? {
      SurgeIff(inp.companies.value, inp.hiringVelocity.value, c, change);
    }
    if inp.rolesByCompany.Some? && x in RoleInsights(inp.rolesByCompany.value) {
      RoleKinds(inp.rolesByCompany.value, x);
    }
    if inp.locationsByCompany.Some? && x in LocationInsights(inp.locationsByCompany.value) {
      LocationKinds(inp.locationsByCompany.value, x);
    }
  }

  lemma HiringDeclineReported(inp: AnalysisInput, c: string, change: real)
    ensures HiringDecline(c, change) in HiringTrendInsights(inp) <==>
      inp.hiringVelocity.Some? && inp.companies.Some? &&
      var rows := inp.hiringVelocity.value;
      c in inp.companies.value && EarlierCount(rows, c) > 0 &&
      change == PercentChange(RecentCount(rows, c), EarlierCount(rows, c)) && change < -30.0
  {
    var x := HiringDecline(c, change);
    if inp.hiringVelocity.Some? && inp.companies.Some? {
      DeclineIff(inp.companies.value, inp.hiringVelocity.value, c, change);
    }
    if inp.rolesByCompany.Some? && x in RoleInsights(inp.rolesByCompany.value) {
      RoleKinds(inp.rolesByCompany.value, x);
    }
    if inp.locationsByCompany.Some? && x in LocationInsights(inp.locationsByCompany.value) {
      LocationKinds(inp.locationsByCompany.value, x);
    }
  }

  /** Leadership changes over the whole analysis: reported exactly when
      the role table is present, the analysis does not fail, and the
      company's leadership roles add up to at least two jobs. */
  lemma LeadershipReported(inp: AnalysisInput, c: string, n: int)
    ensures LeadershipChanges(c, n) in HiringTrendInsights(inp) <==>
      !(inp.hiringVelocity.Some? && inp.companies.None?) && inp.rolesByCompany.Some? &&
      var d := inp.rolesByCompany.value;
      exists i | 0 <= i < |d| :: d[i].0 == c && n == LeadershipCount(d[i].1) && n >= 2
  {
    var x := LeadershipChanges(c, n);
    if inp.rolesByCompany.Some? {
      LeadershipIff(inp.rolesByCompany.value, c, n);
    }
    if inp.hiringVelocity.Some? && inp.companies.Some? && x in VelocityInsights(inp.companies.value, inp.hiringVelocity.value) {
      VelocityKinds(inp.companies.value, inp.hiringVelocity.value, x);
    }
    if inp.locationsByCompany.Some? && x in LocationInsights(inp.locationsByCompany.value) {
      LocationKinds(inp.locationsByCompany.value, x);
    }
  }

  /** Remote work over the whole analysis. */
  lemma RemoteReported(inp: AnalysisInput, c: string, p: real)
    ensures RemoteWork(c, p) in HiringTrendInsights(inp) <==>
      !(inp.hiringVelocity.Some? && inp.companies.None?) && inp.locationsByCompany.Some? &&
      var d := inp.locationsByCompany.value;
      exists i | 0 <= i < |d| :: d[i].0 == c && SumValues(d[i].1) > 0 &&
        p == RemotePercentage(d[i].1) && p > 50.0
  {
    var x := RemoteWork(c, p);
    if inp.locationsByCompany.Some? {
      RemoteIff(inp.locationsByCompany.value, c, p);
    }
    if inp.hiringVelocity.Some? && inp.companies.Some? && x in VelocityInsights(inp.companies.value, inp.hiringVelocity.value) {
      VelocityKinds(inp.companies.value, inp.hiringVelocity.value, x);
    }
    if inp.rolesByCompany.Some? && x in RoleInsights(inp.rolesByCompany.value) {
      RoleKinds(inp.rolesByCompany.value, x);
    }
  }

  /** Technology focus over the whole analysis. */
  lemma TechnologyFocusReported(inp: AnalysisInput, c: string, category: string, n: int)
    ensures TechnologyFocus(c, category, n) in HiringTrendInsights(inp) <==>
      !(inp.hiringVelocity.Some? && inp.companies.None?) && inp.rolesByCompany.Some? &&
      var d := inp.rolesByCompany.value;
      exists i, k | 0 <= i < |d| && 0 <= k < |TechCategories| ::
        d[i].0 == c && TechCategories[k].0 == category &&
        n == SumMatching(d[i].1, TechCategories[k].1) && n >= 3
  {
    var x := TechnologyFocus(c, category, n);
    if inp.rolesByCompany.Some? {
      TechIff(inp.rolesByCompany.value, c, category, n);
    }
    if inp.hiringVelocity.Some? && inp.companies.Some? && x in VelocityInsights(inp.companies.value, inp.hiringVelocity.value) {
      VelocityKinds(inp.companies.value, inp.hiringVelocity.value, x);
    }
    if inp.locationsByCompany.Some? && x in LocationInsights(inp.locationsByCompany.value) {
      LocationKinds(inp.locationsByCompany.value, x);
    }
  }

  /** Geographic focus over the whole analysis. */
  lemma GeographicExpansionReported(inp: AnalysisInput, c: string, region: string, n: int)
    ensures GeographicExpansion(c, region, n) in HiringTrendInsights(inp) <==>
      !(inp.hiringVelocity.Some? && inp.companies.None?) && inp.locationsByCompany.Some? &&
      var d := inp.locationsByCompany.value;
      exists i, k | 0 <= i < |d| && 0 <= k < |Regions| ::
        d[i].0 == c && Regions[k].0 == region &&
        n == SumMatching(d[i].1, Regions[k].1) && n >= 3
  {
    var x := GeographicExpansion(c, region, n);
    if inp.locationsByCompany.Some? {
      GeographicIff(inp.locationsByCompany.value, c, region, n);
    }
    if inp.hiringVelocity.Some? && inp.companies.Some? && x in VelocityInsights(inp.companies.value, inp.hiringVelocity.value) {
      VelocityKinds(inp.companies.value, inp.hiringVelocity.value, x);
    }
    if inp.rolesByCompany.Some? && x in RoleInsights(inp.rolesByCompany.value) {
      RoleKinds(inp.rolesByCompany.value, x);
    }
  }
}

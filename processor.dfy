/** `process_job_data` (data_processor.py 15-140): turns each company's raw
    listings into per-company tallies of roles, locations and skills, a
    30-day histogram of posting dates, salary records, and the unions of all
    roles, locations and skills seen. Any listing the source cannot read (a
    missing title or location, a date `strptime` rejects) makes the whole
    call fall back to a skeleton that keeps only the company names and
    listing counts. */
module JobProcessor {
  import opened Common
  import opened Assoc
  import opened SkillExtractor
  import opened SalaryParser

  /** A listing's `date` field: absent, a day number, or text that
      `strptime(..., "%Y-%m-%d")` rejects. */
  datatype DateField = NoDate | Day(day: int) | Malformed

  /** One raw listing; a missing `requirements` key is the empty list. */
  datatype Listing = Listing(title: Option<string>, location: Option<string>,
                             requirements: seq<string>, date: DateField,
                             salaryRange: Option<string>)

  datatype SalaryRecord = SalaryRecord(role: string, minSalary: real, maxSalary: real, avgSalary: real)

  /** `all_roles`, `all_locations` and `all_skills`. */
  datatype Unions = Unions(allRoles: seq<string>, allLocations: seq<string>, allSkills: seq<string>)

  /** The processed record. `unions` is `None` in the skeleton, which has no
      `all_*` keys. */
  datatype Processed = Processed(
    companies: seq<string>,
    jobCounts: seq<int>,
    roles: Dict<string, Counts<string>>,
    locations: Dict<string, Counts<string>>,
    skills: Dict<string, Counts<string>>,
    timeSeries: Dict<string, Counts<int>>,
    salaryRanges: Dict<string, seq<SalaryRecord>>,
    unions: Option<Unions>)

  /** The listing has what the source reads without a fallback. */
  predicate Wellformed(l: Listing)
  {
    l.title.Some? && l.location.Some? && !l.date.Malformed?
  }

  predicate AllWellformed(jobs: Dict<string, seq<Listing>>)
  {
    forall i, j | 0 <= i < |jobs| && 0 <= j < |jobs[i].1| :: Wellformed(jobs[i].1[j])
  }

  function JobCounts(jobs: Dict<string, seq<Listing>>): (r: seq<int>)
    ensures |r| == |jobs|
    ensures forall i | 0 <= i < |jobs| :: r[i] == |jobs[i].1|
  {
    if jobs == [] then [] else JobCounts(jobs[..|jobs| - 1]) + [|jobs[|jobs| - 1].1|]
  }

  /** The record the catch-all handler returns. */
  function Skeleton(jobs: Dict<string, seq<Listing>>): Processed
  {
    Processed(Keys(jobs), JobCounts(jobs), [], [], [], [], [], None)
  }

  function TitleOf(l: Listing): seq<string>
  {
    match l.title case Some(t) => [t] case None => []
  }

  function LocationOf(l: Listing): seq<string>
  {
    match l.location case Some(t) => [t] case None => []
  }

  /** The titles of the listings, in order. */
  function Titles(ls: seq<Listing>): seq<string>
  {
    if ls == [] then [] else Titles(ls[..|ls| - 1]) + TitleOf(ls[|ls| - 1])
  }

  /** The locations of the listings, in order. */
  function LocationsOf(ls: seq<Listing>): seq<string>
  {
    if ls == [] then [] else LocationsOf(ls[..|ls| - 1]) + LocationOf(ls[|ls| - 1])
  }

  /** The keywords found in each requirement, requirement by requirement. */
  function RequirementSkills(reqs: seq<string>): seq<string>
  {
    if reqs == [] then []
    else RequirementSkills(reqs[..|reqs| - 1]) + Found(CommonSkills, reqs[|reqs| - 1])
  }

  /** Every keyword found, listing by listing. */
  function SkillMentions(ls: seq<Listing>): seq<string>
  {
    if ls == [] then []
    else SkillMentions(ls[..|ls| - 1]) + RequirementSkills(ls[|ls| - 1].requirements)
  }

  function RoleTally(ls: seq<Listing>): Counts<string> { TallyOf(Titles(ls)) }
  function LocationTally(ls: seq<Listing>): Counts<string> { TallyOf(LocationsOf(ls)) }
  function SkillTally(ls: seq<Listing>): Counts<string> { TallyOf(SkillMentions(ls)) }

  function DateOf(l: Listing): seq<int>
  {
    match l.date case Day(d) => [d] case _ => []
  }

  /** The posting days of the listings that have a date. */
  function DatesOf(ls: seq<Listing>): (r: seq<int>)
    ensures |r| <= |ls|
  {
    if ls == [] then [] else DatesOf(ls[..|ls| - 1]) + DateOf(ls[|ls| - 1])
  }

  /** The 30 days from `today` back to `today - 29`, in that order. */
  function Window(today: int): (r: seq<int>)
    ensures |r| == 30
    ensures forall i | 0 <= i < 30 :: r[i] == today - i
  {
    seq(30, i => today - i)
  }

  /** `date_counts[date] = 0` for each day, in order. */
  function ZeroSeries(days: seq<int>): Counts<int>
  {
    if days == [] then [] else Put(ZeroSeries(days[..|days| - 1]), days[|days| - 1], 0)
  }

  /** `if d in date_counts: date_counts[d] += 1` for each day, in order. */
  function CountDays(c: Counts<int>, days: seq<int>): Counts<int>
  {
    if days == [] then c
    else
      var c' := CountDays(c, days[..|days| - 1]);
      var d := days[|days| - 1];
      if HasKey(c', d) then Bump(c', d, 1) else c'
  }

  function TimeSeriesOf(ls: seq<Listing>, today: int): Counts<int>
  {
    CountDays(ZeroSeries(Window(today)), DatesOf(ls))
  }

  /** The salary record of a listing: made only when it has a salary text
      whose range parses with a non-zero minimum and maximum. */
  function SalaryRecordOf(l: Listing): (r: Option<SalaryRecord>)
    ensures r.Some? <==>
      l.title.Some? && l.salaryRange.Some? && SalaryRange(l.salaryRange.value, AsWritten).Some? &&
      SalaryRange(l.salaryRange.value, AsWritten).value.0 != 0.0 &&
      SalaryRange(l.salaryRange.value, AsWritten).value.1 != 0.0
    ensures r.Some? ==>
      r.value.role == l.title.value &&
      (r.value.minSalary, r.value.maxSalary) == SalaryRange(l.salaryRange.value, AsWritten).value &&
      r.value.avgSalary == (r.value.minSalary + r.value.maxSalary) / 2.0
  {
    match (l.title, l.salaryRange)
    case (Some(role), Some(text)) =>
      (match SalaryRange(text, AsWritten)
       case Some((lo, hi)) =>
         if lo != 0.0 && hi != 0.0 then Some(SalaryRecord(role, lo, hi, (lo + hi) / 2.0)) else None
       case None => None)
    case _ => None
  }

  function SalaryOf(l: Listing): seq<SalaryRecord>
  {
    match SalaryRecordOf(l) case Some(x) => [x] case None => []
  }

  function SalaryRecords(ls: seq<Listing>): (r: seq<SalaryRecord>)
    ensures |r| <= |ls|
    ensures forall x | x in r :: x.minSalary != 0.0 && x.maxSalary != 0.0 &&
                                 x.avgSalary == (x.minSalary + x.maxSalary) / 2.0
  {
    if ls == [] then [] else SalaryRecords(ls[..|ls| - 1]) + SalaryOf(ls[|ls| - 1])
  }

  /** One entry per company, in order, holding `f` of its listings. */
  function PerCompany<V>(jobs: Dict<string, seq<Listing>>, f: seq<Listing> -> V): (r: Dict<string, V>)
    ensures Keys(r) == Keys(jobs)
    ensures forall i | 0 <= i < |jobs| :: r[i].1 == f(jobs[i].1)
  {
    if jobs == [] then []
    else PerCompany(jobs[..|jobs| - 1], f) + [(jobs[|jobs| - 1].0, f(jobs[|jobs| - 1].1))]
  }

  /** The union over all companies of `f` of their listings. */
  function UnionOver(jobs: Dict<string, seq<Listing>>, f: seq<Listing> -> seq<string>): (r: set<string>)
    ensures forall x :: x in r <==> exists i | 0 <= i < |jobs| :: x in f(jobs[i].1)
  {
    if jobs == [] then {}
    else
      var n := |jobs| - 1;
      var r := UnionOver(jobs[..n], f) + SetOf(f(jobs[n].1));
      assert forall i | 0 <= i < n :: jobs[..n][i] == jobs[i];
      r
  }

  method CountRoles(ls: seq<Listing>, seen: set<string>) returns (tally: Counts<string>, seen': set<string>)
    ensures tally == RoleTally(ls)
    ensures seen' == seen + SetOf(Titles(ls))
  {
    tally, seen' := [], seen;
    for i := 0 to |ls|
      invariant tally == TallyOf(Titles(ls[..i]))
      invariant seen' == seen + SetOf(Titles(ls[..i]))
    {
      ghost var before := Titles(ls[..i]);
      assert ls[..i + 1][..i] == ls[..i];
      assert Titles(ls[..i + 1]) == before + TitleOf(ls[i]);
      match ls[i].title {
        case Some(role) =>
          TallyOfAppendOne(before, role);
          SetOfAppendOne(before, role);
          tally := Bump(tally, role, 1);
          seen' := seen' + {role};
        case None =>
          assert before + [] == before;
      }
    }
    assert ls[..|ls|] == ls;
  }

  method CountLocations(ls: seq<Listing>, seen: set<string>) returns (tally: Counts<string>, seen': set<string>)
    ensures tally == LocationTally(ls)
    ensures seen' == seen + SetOf(LocationsOf(ls))
  {
    tally, seen' := [], seen;
    for i := 0 to |ls|
      invariant tally == TallyOf(LocationsOf(ls[..i]))
      invariant seen' == seen + SetOf(LocationsOf(ls[..i]))
    {
      ghost var before := LocationsOf(ls[..i]);
      assert ls[..i + 1][..i] == ls[..i];
      assert LocationsOf(ls[..i + 1]) == before + LocationOf(ls[i]);
      match ls[i].location {
        case Some(loc) =>
          TallyOfAppendOne(before, loc);
          SetOfAppendOne(before, loc);
          tally := Bump(tally, loc, 1);
          seen' := seen' + {loc};
        case None =>
          assert before + [] == before;
      }
    }
    assert ls[..|ls|] == ls;
  }

  /** Tallies each keyword of `found`, in order, on top of `tally`. */
  method TallyFound(tally: Counts<string>, seen: set<string>, found: seq<string>)
    returns (tally': Counts<string>, seen': set<string>)
    ensures tally' == BumpEach(tally, found)
    ensures seen' == seen + SetOf(found)
  {
    tally', seen' := tally, seen;
    for k := 0 to |found|
      invariant tally' == BumpEach(tally, found[..k])
      invariant seen' == seen + SetOf(found[..k])
    {
      assert found[..k + 1][..k] == found[..k];
      SetOfAppendOne(found[..k], found[k]);
      assert found[..k + 1] == found[..k] + [found[k]];
      tally' := Bump(tally', found[k], 1);
      seen' := seen' + {found[k]};
    }
    assert found[..|found|] == found;
  }

  lemma RequirementSkillsStep(reqs: seq<string>, j: nat)
    requires j < |reqs|
    ensures RequirementSkills(reqs[..j + 1]) == RequirementSkills(reqs[..j]) + Found(CommonSkills, reqs[j])
  {
    assert reqs[..j + 1][..j] == reqs[..j];
  }

  lemma SkillMentionsStep(ls: seq<Listing>, i: nat)
    requires i < |ls|
    ensures SkillMentions(ls[..i + 1]) == SkillMentions(ls[..i]) + RequirementSkills(ls[i].requirements)
  {
    assert ls[..i + 1][..i] == ls[..i];
  }

  /** The keywords of one listing's requirements, tallied on top of `tally`. */
  method CountRequirementSkills(tally: Counts<string>, seen: set<string>, reqs: seq<string>)
    returns (tally': Counts<string>, seen': set<string>)
    ensures tally' == BumpEach(tally, RequirementSkills(reqs))
    ensures seen' == seen + SetOf(RequirementSkills(reqs))
  {
    tally', seen' := tally, seen;
    for j := 0 to |reqs|
      invariant tally' == BumpEach(tally, RequirementSkills(reqs[..j]))
      invariant seen' == seen + SetOf(RequirementSkills(reqs[..j]))
    {
      var found := ExtractSkills(reqs[j]);
      ghost var before := RequirementSkills(reqs[..j]);
      tally', seen' := TallyFound(tally', seen', found);
      RequirementSkillsStep(reqs, j);
      BumpEachAppend(tally, before, found);
      SetOfConcat(before, found);
    }
    assert reqs[..|reqs|] == reqs;
  }

  method CountSkills(ls: seq<Listing>, seen: set<string>) returns (tally: Counts<string>, seen': set<string>)
    ensures tally == SkillTally(ls)
    ensures seen' == seen + SetOf(SkillMentions(ls))
  {
    tally, seen' := [], seen;
    for i := 0 to |ls|
      invariant tally == TallyOf(SkillMentions(ls[..i]))
      invariant seen' == seen + SetOf(SkillMentions(ls[..i]))
    {
      ghost var done := SkillMentions(ls[..i]);
      ghost var more := RequirementSkills(ls[i].requirements);
      tally, seen' := CountRequirementSkills(tally, seen', ls[i].requirements);
      SkillMentionsStep(ls, i);
      BumpEachAppend([], done, more);
      SetOfConcat(done, more);
    }
    assert ls[..|ls|] == ls;
  }

  method CountDates(ls: seq<Listing>, today: int) returns (series: Counts<int>)
    ensures series == TimeSeriesOf(ls, today)
  {
    var window := Window(today);
    series := [];
    for i := 0 to 30
      invariant series == ZeroSeries(window[..i])
    {
      assert window[..i + 1][..i] == window[..i];
      series := Put(series, window[i], 0);
    }
    assert window[..30] == window;
    var dates := DatesOf(ls);
    for i := 0 to |dates|
      invariant series == CountDays(ZeroSeries(window), dates[..i])
    {
      assert dates[..i + 1][..i] == dates[..i];
      if HasKey(series, dates[i]) {
        series := Bump(series, dates[i], 1);
      }
    }
    assert dates[..|dates|] == dates;
  }

  /** The record one listing contributes: none without a salary text, and
      none when the range does not parse or either bound is zero. */
  method SalaryStep(l: Listing) returns (rec: seq<SalaryRecord>)
    requires l.title.Some?
    ensures rec == SalaryOf(l)
  {
    rec := [];
    if l.salaryRange.Some? {
      var range := SalaryRange(l.salaryRange.value, AsWritten);
      if range.Some? && range.value.0 != 0.0 && range.value.1 != 0.0 {
        var (lo, hi) := range.value;
        rec := [SalaryRecord(l.title.value, lo, hi, (lo + hi) / 2.0)];
      }
    }
  }

  method CollectSalaries(ls: seq<Listing>) returns (records: seq<SalaryRecord>)
    requires forall j | 0 <= j < |ls| :: Wellformed(ls[j])
    ensures records == SalaryRecords(ls)
  {
    records := [];
    for i := 0 to |ls|
      invariant records == SalaryRecords(ls[..i])
    {
      assert ls[..i + 1][..i] == ls[..i];
      var rec := SalaryStep(ls[i]);
      records := records + rec;
    }
    assert ls[..|ls|] == ls;
  }

  /** Everything one company's (well-formed) listings contribute: its four
      tallies, its salary records, and the unions grown by its roles,
      locations and skills. */
  method ProcessCompany(ls: seq<Listing>, today: int, allRoles: set<string>, allLocations: set<string>, allSkills: set<string>)
    returns (roles: Counts<string>, locations: Counts<string>, skills: Counts<string>,
             series: Counts<int>, records: seq<SalaryRecord>,
             allRoles': set<string>, allLocations': set<string>, allSkills': set<string>)
    requires forall j | 0 <= j < |ls| :: Wellformed(ls[j])
    ensures roles == RoleTally(ls) && locations == LocationTally(ls) && skills == SkillTally(ls)
    ensures series == TimeSeriesOf(ls, today) && records == SalaryRecords(ls)
    ensures allRoles' == allRoles + SetOf(Titles(ls))
    ensures allLocations' == allLocations + SetOf(LocationsOf(ls))
    ensures allSkills' == allSkills + SetOf(SkillMentions(ls))
  {
    roles, allRoles' := CountRoles(ls, allRoles);
    locations, allLocations' := CountLocations(ls, allLocations);
    skills, allSkills' := CountSkills(ls, allSkills);
    series := CountDates(ls, today);
    records := CollectSalaries(ls);
  }

  /** `process_job_data`. */
  method ProcessJobData(jobs: Dict<string, seq<Listing>>, today: int) returns (p: Processed)
    requires IsDict(jobs)
    ensures p.companies == Keys(jobs) && p.jobCounts == JobCounts(jobs)
    ensures !AllWellformed(jobs) ==> p == Skeleton(jobs)
    ensures AllWellformed(jobs) ==>
      p.roles == PerCompany(jobs, RoleTally) &&
      p.locations == PerCompany(jobs, LocationTally) &&
      p.skills == PerCompany(jobs, SkillTally) &&
      p.timeSeries == PerCompany(jobs, ls => TimeSeriesOf(ls, today)) &&
      p.salaryRanges == PerCompany(jobs, SalaryRecords) &&
      p.unions.Some? &&
      SetOf(p.unions.value.allRoles) == UnionOver(jobs, Titles) &&
      SetOf(p.unions.value.allLocations) == UnionOver(jobs, LocationsOf) &&
      SetOf(p.unions.value.allSkills) == UnionOver(jobs, SkillMentions) &&
      NoDuplicates(p.unions.value.allRoles) &&
      NoDuplicates(p.unions.value.allLocations) &&
      NoDuplicates(p.unions.value.allSkills)
  {
    var companies: seq<string> := [];
    var jobCounts: seq<int> := [];
    var roles: Dict<string, Counts<string>> := [];
    var locations: Dict<string, Counts<string>> := [];
    var skills: Dict<string, Counts<string>> := [];
    var timeSeries: Dict<string, Counts<int>> := [];
    var salaryRanges: Dict<string, seq<SalaryRecord>> := [];
    var allRoles: set<string> := {};
    var allLocations: set<string> := {};
    var allSkills: set<string> := {};
    for i := 0 to |jobs|
      invariant companies == Keys(jobs[..i]) && jobCounts == JobCounts(jobs[..i])
      invariant AllWellformed(jobs[..i])
      invariant roles == PerCompany(jobs[..i], RoleTally)
      invariant locations == PerCompany(jobs[..i], LocationTally)
      invariant skills == PerCompany(jobs[..i], SkillTally)
      invariant timeSeries == PerCompany(jobs[..i], ls => TimeSeriesOf(ls, today))
      invariant salaryRanges == PerCompany(jobs[..i], SalaryRecords)
      invariant allRoles == UnionOver(jobs[..i], Titles)
      invariant allLocations == UnionOver(jobs[..i], LocationsOf)
      invariant allSkills == UnionOver(jobs[..i], SkillMentions)
    {
      var (company, ls) := jobs[i];
      if exists j | 0 <= j < |ls| :: !Wellformed(ls[j]) {
        assert !AllWellformed(jobs);
        return Skeleton(jobs);
      }
      AllWellformedStep(jobs, i);
      KeysStep(jobs, i);
      companies := companies + [company];
      jobCounts := jobCounts + [|ls|];
      var companyRoles, companyLocations, companySkills, series, records;
      companyRoles, companyLocations, companySkills, series, records, allRoles, allLocations, allSkills :=
        ProcessCompany(ls, today, allRoles, allLocations, allSkills);
      PutNext(jobs, i, RoleTally, roles);
      roles := Put(roles, company, companyRoles);
      PutNext(jobs, i, LocationTally, locations);
      locations := Put(locations, company, companyLocations);
      PutNext(jobs, i, SkillTally, skills);
      skills := Put(skills, company, companySkills);
      PutNext(jobs, i, ls => TimeSeriesOf(ls, today), timeSeries);
      timeSeries := Put(timeSeries, company, series);
      PutNext(jobs, i, SalaryRecords, salaryRanges);
      salaryRanges := Put(salaryRanges, company, records);
      UnionOverStep(jobs, i, Titles);
      UnionOverStep(jobs, i, LocationsOf);
      UnionOverStep(jobs, i, SkillMentions);
    }
    assert jobs[..|jobs|] == jobs;
    var roleList := ListOfSet(allRoles);
    var locationList := ListOfSet(allLocations);
    var skillList := ListOfSet(allSkills);
    p := Processed(companies, jobCounts, roles, locations, skills, timeSeries, salaryRanges,
                   Some(Unions(roleList, locationList, skillList)));
  }

  lemma AllWellformedStep(jobs: Dict<string, seq<Listing>>, i: nat)
    requires i < |jobs| && AllWellformed(jobs[..i])
    requires forall j | 0 <= j < |jobs[i].1| :: Wellformed(jobs[i].1[j])
    ensures AllWellformed(jobs[..i + 1])
  {
    var pre := jobs[..i + 1];
    forall a | 0 <= a < i + 1
      ensures forall b | 0 <= b < |pre[a].1| :: Wellformed(pre[a].1[b])
    {
      if a < i {
        assert pre[a] == jobs[..i][a];
      } else {
        assert pre[a] == jobs[i];
      }
    }
  }

  lemma KeysStep(jobs: Dict<string, seq<Listing>>, i: nat)
    requires i < |jobs|
    ensures Keys(jobs[..i + 1]) == Keys(jobs[..i]) + [jobs[i].0]
    ensures JobCounts(jobs[..i + 1]) == JobCounts(jobs[..i]) + [|jobs[i].1|]
  {
    assert jobs[..i + 1][..i] == jobs[..i];
  }

  lemma PutFresh<V>(d: Dict<string, V>, k: string, v: V)
    requires k !in Keys(d)
    ensures Put(d, k, v) == d + [(k, v)]
  {
  }

  lemma PerCompanyStep<V>(jobs: Dict<string, seq<Listing>>, i: nat, f: seq<Listing> -> V)
    requires i < |jobs|
    ensures PerCompany(jobs[..i + 1], f) == PerCompany(jobs[..i], f) + [(jobs[i].0, f(jobs[i].1))]
  {
    assert jobs[..i + 1][..i] == jobs[..i];
  }

  /** Storing the next company's value extends the per-company map by it. */
  lemma PutNext<V>(jobs: Dict<string, seq<Listing>>, i: nat, f: seq<Listing> -> V, acc: Dict<string, V>)
    requires IsDict(jobs) && i < |jobs| && acc == PerCompany(jobs[..i], f)
    ensures Put(acc, jobs[i].0, f(jobs[i].1)) == PerCompany(jobs[..i + 1], f)
  {
    NotYetAKey(jobs, i);
    PutFresh(acc, jobs[i].0, f(jobs[i].1));
    PerCompanyStep(jobs, i, f);
  }

  lemma UnionOverStep(jobs: Dict<string, seq<Listing>>, i: nat, f: seq<Listing> -> seq<string>)
    requires i < |jobs|
    ensures UnionOver(jobs[..i + 1], f) == UnionOver(jobs[..i], f) + SetOf(f(jobs[i].1))
  {
    assert jobs[..i + 1][..i] == jobs[..i];
  }

  /** The company at index `i` is not among the names before it. */
  lemma NotYetAKey<V>(jobs: Dict<string, V>, i: nat)
    requires IsDict(jobs) && i < |jobs|
    ensures jobs[i].0 !in Keys(jobs[..i])
  {
    forall j | 0 <= j < i ensures Keys(jobs[..i])[j] != jobs[i].0 {
      assert Keys(jobs[..i])[j] == Keys(jobs)[j];
    }
  }

  /** Every well-formed listing has a title and a location. */
  lemma {:induction false} TitlesAndLocationsCount(ls: seq<Listing>)
    requires forall j | 0 <= j < |ls| :: Wellformed(ls[j])
    ensures |Titles(ls)| == |ls| && |LocationsOf(ls)| == |ls|
  {
    if ls != [] {
      var p := ls[..|ls| - 1];
      assert forall j | 0 <= j < |p| :: p[j] == ls[j];
      TitlesAndLocationsCount(p);
    }
  }

  /** A company's role counts, and its location counts, each add up to its
      number of listings. */
  lemma TalliesSumToListings(ls: seq<Listing>)
    requires forall j | 0 <= j < |ls| :: Wellformed(ls[j])
    ensures SumValues(RoleTally(ls)) == |ls|
    ensures SumValues(LocationTally(ls)) == |ls|
  {
    TitlesAndLocationsCount(ls);
    TallyOfCorrect(Titles(ls));
    TallyOfCorrect(LocationsOf(ls));
  }

  /** The role keys of a company are exactly its titles, each counted as
      often as it occurs; likewise locations and skills. */
  lemma TalliesCountOccurrences(ls: seq<Listing>, x: string)
    ensures HasKey(RoleTally(ls), x) <==> x in Titles(ls)
    ensures GetOr(RoleTally(ls), x, 0) == multiset(Titles(ls))[x]
    ensures HasKey(LocationTally(ls), x) <==> x in LocationsOf(ls)
    ensures GetOr(LocationTally(ls), x, 0) == multiset(LocationsOf(ls))[x]
    ensures HasKey(SkillTally(ls), x) <==> x in SkillMentions(ls)
    ensures GetOr(SkillTally(ls), x, 0) == multiset(SkillMentions(ls))[x]
  {
    TallyOfCorrect(Titles(ls));
    TallyOfCorrect(LocationsOf(ls));
    TallyOfCorrect(SkillMentions(ls));
    assert x in SetOf(Keys(RoleTally(ls))) <==> x in SetOf(Titles(ls));
    assert x in SetOf(Keys(LocationTally(ls))) <==> x in SetOf(LocationsOf(ls));
    assert x in SetOf(Keys(SkillTally(ls))) <==> x in SetOf(SkillMentions(ls));
  }

  /** For tallies `g` of per-company name lists `f`, a name is in the union
      of the lists exactly when some company's tally has it as a key. */
  lemma UnionIsKeyUnion(jobs: Dict<string, seq<Listing>>, f: seq<Listing> -> seq<string>,
                        g: seq<Listing> -> Counts<string>, x: string)
    requires forall ls :: g(ls) == TallyOf(f(ls))
    ensures x in UnionOver(jobs, f) ==> exists i | 0 <= i < |jobs| :: HasKey(PerCompany(jobs, g)[i].1, x)
    ensures (exists i | 0 <= i < |jobs| :: HasKey(PerCompany(jobs, g)[i].1, x)) ==> x in UnionOver(jobs, f)
  {
    var r := PerCompany(jobs, g);
    if x in UnionOver(jobs, f) {
      var i :| 0 <= i < |jobs| && x in f(jobs[i].1);
      KeysOfTally(f(jobs[i].1), x);
      assert r[i].1 == TallyOf(f(jobs[i].1));
      assert HasKey(r[i].1, x);
      assert exists j | 0 <= j < |jobs| :: HasKey(r[j].1, x);
    } else {
      forall i | 0 <= i < |jobs| ensures !HasKey(r[i].1, x) {
        KeysOfTally(f(jobs[i].1), x);
      }
      assert !exists j | 0 <= j < |jobs| :: HasKey(r[j].1, x);
    }
  }

  /** `all_roles` is the deduplicated union of the keys of the per-company
      role tallies. */
  lemma RoleUnionIsKeyUnion(jobs: Dict<string, seq<Listing>>, x: string)
    ensures x in UnionOver(jobs, Titles) <==>
      exists i | 0 <= i < |jobs| :: HasKey(PerCompany(jobs, RoleTally)[i].1, x)
  {
    UnionIsKeyUnion(jobs, Titles, RoleTally, x);
  }

  /** `all_locations` likewise, for the location tallies. */
  lemma LocationUnionIsKeyUnion(jobs: Dict<string, seq<Listing>>, x: string)
    ensures x in UnionOver(jobs, LocationsOf) <==>
      exists i | 0 <= i < |jobs| :: HasKey(PerCompany(jobs, LocationTally)[i].1, x)
  {
    UnionIsKeyUnion(jobs, LocationsOf, LocationTally, x);
  }

  /** `all_skills` likewise, for the skill tallies. */
  lemma SkillUnionIsKeyUnion(jobs: Dict<string, seq<Listing>>, x: string)
    ensures x in UnionOver(jobs, SkillMentions) <==>
      exists i | 0 <= i < |jobs| :: HasKey(PerCompany(jobs, SkillTally)[i].1, x)
  {
    UnionIsKeyUnion(jobs, SkillMentions, SkillTally, x);
  }

  /** The number of listings dated within the 30 days that end `today`. */
  function DatedWithin(ls: seq<Listing>, today: int): nat
  {
    if ls == [] then 0
    else
      var l := ls[|ls| - 1];
      DatedWithin(ls[..|ls| - 1], today) + (if l.date.Day? && today - 29 <= l.date.day <= today then 1 else 0)
  }

  /** The number of `days` that are among `keys`. */
  function Hits(keys: seq<int>, days: seq<int>): nat
  {
    if days == [] then 0 else Hits(keys, days[..|days| - 1]) + (if days[|days| - 1] in keys then 1 else 0)
  }

  lemma {:induction false} DatedWithinBound(ls: seq<Listing>, today: int)
    ensures DatedWithin(ls, today) <= |ls|
  {
    if ls != [] {
      DatedWithinBound(ls[..|ls| - 1], today);
    }
  }

  lemma WindowDistinct(today: int)
    ensures NoDuplicates(Window(today))
  {
  }

  lemma WindowHas(today: int, d: int)
    ensures d in Window(today) <==> today - 29 <= d <= today
  {
    if today - 29 <= d <= today {
      assert Window(today)[today - d] == d;
    }
  }

  /** Zero-initialising distinct days gives exactly those days as keys, in
      order, each holding 0. */
  lemma {:induction false} ZeroSeriesShape(days: seq<int>)
    requires NoDuplicates(days)
    ensures Keys(ZeroSeries(days)) == days
    ensures forall i | 0 <= i < |days| :: ZeroSeries(days)[i].1 == 0
    ensures SumValues(ZeroSeries(days)) == 0
  {
    if days != [] {
      var p := days[..|days| - 1];
      var d := days[|days| - 1];
      ZeroSeriesShape(p);
      assert d !in p;
      PutAbsent(ZeroSeries(p), d, 0);
      assert ZeroSeries(days) == ZeroSeries(p) + [(d, 0)];
      SumValuesAppend(ZeroSeries(p), (d, 0));
    }
  }

  /** Counting only bumps days that are already keys: the keys stay the
      same, and the total grows by the number of days that hit a key. */
  lemma {:induction false} CountDaysShape(c: Counts<int>, days: seq<int>)
    ensures Keys(CountDays(c, days)) == Keys(c)
    ensures SumValues(CountDays(c, days)) == SumValues(c) + Hits(Keys(c), days)
  {
    if days != [] {
      var p := days[..|days| - 1];
      var d := days[|days| - 1];
      CountDaysShape(c, p);
      var c' := CountDays(c, p);
      if HasKey(c', d) {
        BumpSpec(c', d, 1);
        BumpSum(c', d, 1);
      }
    }
  }

  lemma {:induction false} HitsOfWindow(ls: seq<Listing>, today: int)
    ensures Hits(Window(today), DatesOf(ls)) == DatedWithin(ls, today)
  {
    if ls != [] {
      var p := ls[..|ls| - 1];
      var l := ls[|ls| - 1];
      HitsOfWindow(p, today);
      match l.date {
        case Day(d) =>
          assert DatesOf(ls) == DatesOf(p) + [d];
          assert (DatesOf(p) + [d])[..|DatesOf(p)|] == DatesOf(p);
          WindowHas(today, d);
        case NoDate =>
          assert DatesOf(ls) == DatesOf(p) + [];
          assert DatesOf(p) + [] == DatesOf(p);
        case Malformed =>
          assert DatesOf(ls) == DatesOf(p) + [];
          assert DatesOf(p) + [] == DatesOf(p);
      }
    }
  }

  /** A company's time series has exactly the 30 days from `today` back to
      `today - 29` as keys, in that order, and its counts add up to the
      number of its listings dated inside that window, which is at most its
      number of listings. */
  lemma TimeSeriesShape(ls: seq<Listing>, today: int)
    ensures Keys(TimeSeriesOf(ls, today)) == Window(today)
    ensures SumValues(TimeSeriesOf(ls, today)) == DatedWithin(ls, today) <= |ls|
  {
    WindowDistinct(today);
    ZeroSeriesShape(Window(today));
    CountDaysShape(ZeroSeries(Window(today)), DatesOf(ls));
    HitsOfWindow(ls, today);
    DatedWithinBound(ls, today);
  }

  /** Before any date is counted, every one of the 30 days holds 0. */
  lemma ZeroSeriesOfWindow(today: int)
    ensures Keys(ZeroSeries(Window(today))) == Window(today)
    ensures forall i | 0 <= i < 30 :: ZeroSeries(Window(today))[i] == (today - i, 0)
  {
    WindowDistinct(today);
    ZeroSeriesShape(Window(today));
  }
}

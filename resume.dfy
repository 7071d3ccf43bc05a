/** Matching a resume against the skills a job asks for: each job skill
    is an exact match, a partial match or missing; skills earlier in the
    requirements weigh more; the weighted share of matched skills is the
    match percentage. Every job of a company is scored that way and the
    results are ranked, and the best three give an opportunity score.
    Skills are compared after `lower()`. */
module ResumeMatch {
  import opened Common
  import opened Assoc
  import opened Sorting

  /** The part of the parsed resume the matcher reads. */
  datatype Resume = Resume(skills: seq<string>)

  /** `[s.lower() for s in skills]`. */
  function LowerAll(xs: seq<string>): seq<string>
  {
    MapSeq(xs, Lower)
  }

  // ---------------------------------------------------------------------
  // Classifying the job skills

  /** `any(job_skill in rs or rs in job_skill for rs in resume_skills)`:
      the skill and some resume skill contain one another. */
  predicate Overlaps(x: string, rs: seq<string>)
  {
    exists r | r in rs :: IsSubstring(x, r) || IsSubstring(r, x)
  }

  datatype MatchClass = ExactMatch | PartialMatch | NoMatch

  /** The `if`/`elif`/`else` of the classification loop. */
  function Classify(x: string, rs: seq<string>): MatchClass
  {
    if x in rs then ExactMatch
    else if Overlaps(x, rs) then PartialMatch
    else NoMatch
  }

  /** The job skills of one class, in requirement order. */
  function WithClass(js: seq<string>, rs: seq<string>, c: MatchClass): seq<string>
  {
    if js == [] then []
    else
      var n := |js| - 1;
      WithClass(js[..n], rs, c) + (if Classify(js[n], rs) == c then [js[n]] else [])
  }

  lemma WithClassStep(js: seq<string>, rs: seq<string>, c: MatchClass, i: nat)
    requires i < |js|
    ensures WithClass(js[..i + 1], rs, c) ==
      WithClass(js[..i], rs, c) + (if Classify(js[i], rs) == c then [js[i]] else [])
  {
    assert js[..i + 1][..i] == js[..i];
  }

  /** Every job skill lands in exactly one of the three lists. */
  lemma {:induction false} ClassPartition(js: seq<string>, rs: seq<string>)
    ensures |WithClass(js, rs, ExactMatch)| + |WithClass(js, rs, PartialMatch)| +
            |WithClass(js, rs, NoMatch)| == |js|
  {
    if js != [] {
      ClassPartition(js[..|js| - 1], rs);
    }
  }

  lemma {:induction false} WithClassMembers(js: seq<string>, rs: seq<string>, c: MatchClass, x: string)
    ensures x in WithClass(js, rs, c) <==> x in js && Classify(x, rs) == c
  {
    if js != [] {
      var n := |js| - 1;
      WithClassMembers(js[..n], rs, c, x);
      assert js == js[..n] + [js[n]];
    }
  }

  /** A job skill is matching when it equals a resume skill; partial when
      it does not but it and a resume skill contain one another; missing
      otherwise. */
  lemma ClassMeaning(js: seq<string>, rs: seq<string>, x: string)
    ensures x in WithClass(js, rs, ExactMatch) <==> x in js && x in rs
    ensures x in WithClass(js, rs, PartialMatch) <==> x in js && x !in rs && Overlaps(x, rs)
    ensures x in WithClass(js, rs, NoMatch) <==> x in js && x !in rs && !Overlaps(x, rs)
  {
    WithClassMembers(js, rs, ExactMatch, x);
    WithClassMembers(js, rs, PartialMatch, x);
    WithClassMembers(js, rs, NoMatch, x);
  }

  // ---------------------------------------------------------------------
  // Weights and the match percentage

  /** `max(0.5, 1.0 - i / (2 * n))`, the weight of the `i`-th of `n`
      job skills. */
  function WeightOf(i: nat, n: nat): (w: real)
    requires n > 0
    ensures w >= 0.5
  {
    MaxReal(0.5, 1.0 - (i as real) / (2.0 * (n as real)))
  }

  /** The first skill weighs 1 and every weight lies in (0.5, 1]: the
      floor at 0.5 is never reached. */
  lemma WeightBounds(i: nat, n: nat)
    requires i < n
    ensures 0.5 < WeightOf(i, n) <= 1.0
    ensures i == 0 ==> WeightOf(i, n) == 1.0
    ensures WeightOf(i, n) == 1.0 - (i as real) / (2.0 * (n as real))
  {
    var r := (i as real) / (2.0 * (n as real));
    assert r * (2.0 * (n as real)) == i as real;
    assert r < 0.5;
  }

  /** The `skill_weights` dict after the first `|js|` assignments
      `skill_weights[skill] = weight`; a repeated skill keeps its last
      weight. */
  function WeightTable(js: seq<string>, n: nat): Dict<string, real>
    requires |js| <= n
  {
    if js == [] then []
    else Put(WeightTable(js[..|js| - 1], n), js[|js| - 1], WeightOf(|js| - 1, n))
  }

  /** `sum(skill_weights.get(s, dflt) * factor for s in xs)`. */
  function WeightSum(xs: seq<string>, w: Dict<string, real>, dflt: real, factor: real): real
  {
    if xs == [] then 0.0
    else WeightSum(xs[..|xs| - 1], w, dflt, factor) + GetOr(w, xs[|xs| - 1], dflt) * factor
  }

  /** `sum(skill_weights.values())`. */
  function TotalWeight(w: Dict<string, real>): real
  {
    SumReal(Values(w))
  }

  /** `match_score`: full weight for matching skills, half for partial. */
  function MatchScore(js: seq<string>, rs: seq<string>): real
  {
    var w := WeightTable(js, |js|);
    WeightSum(WithClass(js, rs, ExactMatch), w, 0.75, 1.0) +
    WeightSum(WithClass(js, rs, PartialMatch), w, 0.5, 0.5)
  }

  /** `part` as a percentage of `whole`, 0 when `whole` is not positive. */
  function Percent(part: real, whole: real): real
  {
    if whole > 0.0 then part / whole * 100.0 else 0.0
  }

  /** `match_percentage`: the score as a share of the total weight, 0 when
      there is no weight. */
  function MatchPercentage(js: seq<string>, rs: seq<string>): real
  {
    Percent(MatchScore(js, rs), TotalWeight(WeightTable(js, |js|)))
  }

  datatype SkillCoverage = SkillCoverage(
    exactMatchCount: nat, partialMatchCount: nat, missingCount: nat,
    totalRequired: nat, totalResume: nat)

  datatype MatchInfo = MatchInfo(
    matching: seq<string>, partial: seq<string>, missing: seq<string>,
    percentage: real, coverage: SkillCoverage)

  /** What `match_resume_to_job_skills` returns. */
  function MatchInfoOf(resume: Resume, jobSkills: seq<string>): MatchInfo
  {
    var js := LowerAll(jobSkills);
    var rs := LowerAll(resume.skills);
    var exact := WithClass(js, rs, ExactMatch);
    var partial := WithClass(js, rs, PartialMatch);
    var missing := WithClass(js, rs, NoMatch);
    MatchInfo(exact, partial, missing, MatchPercentage(js, rs),
      SkillCoverage(|exact|, |partial|, |missing|, |jobSkills|, |resume.skills|))
  }

  /** The loop filling `skill_weights`. */
  method BuildWeights(js: seq<string>) returns (weights: Dict<string, real>)
    ensures weights == WeightTable(js, |js|)
  {
    var n := |js|;
    weights := [];
    var i := 0;
    while i < n
      invariant 0 <= i <= n
      invariant weights == WeightTable(js[..i], n)
    {
      assert js[..i + 1][..i] == js[..i];
      weights := Put(weights, js[i], WeightOf(i, n));
      i := i + 1;
    }
    assert js[..n] == js;
  }

  /** The loop sorting each job skill into matching, partial or missing. */
  method ClassifySkills(js: seq<string>, rs: seq<string>)
    returns (exact: seq<string>, partial: seq<string>, missing: seq<string>)
    ensures exact == WithClass(js, rs, ExactMatch)
    ensures partial == WithClass(js, rs, PartialMatch)
    ensures missing == WithClass(js, rs, NoMatch)
  {
    exact, partial, missing := [], [], [];
    var i := 0;
    while i < |js|
      invariant 0 <= i <= |js|
      invariant exact == WithClass(js[..i], rs, ExactMatch)
      invariant partial == WithClass(js[..i], rs, PartialMatch)
      invariant missing == WithClass(js[..i], rs, NoMatch)
    {
      WithClassStep(js, rs, ExactMatch, i);
      WithClassStep(js, rs, PartialMatch, i);
      WithClassStep(js, rs, NoMatch, i);
      if js[i] in rs {
        exact := exact + [js[i]];
      } else if Overlaps(js[i], rs) {
        partial := partial + [js[i]];
      } else {
        missing := missing + [js[i]];
      }
      i := i + 1;
    }
    assert js[..|js|] == js;
  }

  /** One of the weighted sums making up `match_score`. */
  method SumWeights(xs: seq<string>, w: Dict<string, real>, dflt: real, factor: real) returns (sum: real)
    ensures sum == WeightSum(xs, w, dflt, factor)
  {
    sum := 0.0;
    var k := 0;
    while k < |xs|
      invariant 0 <= k <= |xs|
      invariant sum == WeightSum(xs[..k], w, dflt, factor)
    {
      assert xs[..k + 1][..k] == xs[..k];
      sum := sum + GetOr(w, xs[k], dflt) * factor;
      k := k + 1;
    }
    assert xs[..|xs|] == xs;
  }

  method MatchResumeToJobSkills(resume: Resume, jobSkills: seq<string>) returns (info: MatchInfo)
    ensures info == MatchInfoOf(resume, jobSkills)
  {
    var rs := LowerAll(resume.skills);
    var js := LowerAll(jobSkills);
    var weights := BuildWeights(js);
    var exact, partial, missing := ClassifySkills(js, rs);
    var exactScore := SumWeights(exact, weights, 0.75, 1.0);
    var partialScore := SumWeights(partial, weights, 0.5, 0.5);
    var score := exactScore + partialScore;
    var total := SumReal(Values(weights));
    var percentage := Percent(score, total);
    ghost var m := MatchInfoOf(resume, jobSkills);
    assert m.matching == exact;
    assert m.partial == partial;
    assert m.missing == missing;
    assert m.coverage == SkillCoverage(|exact|, |partial|, |missing|, |jobSkills|, |resume.skills|);
    assert score == MatchScore(js, rs);
    assert total == TotalWeight(WeightTable(js, |js|));
    assert m.percentage == percentage;
    info := MatchInfo(exact, partial, missing, percentage,
      SkillCoverage(|exact|, |partial|, |missing|, |jobSkills|, |resume.skills|));
  }

  /** The coverage counts are the lengths of the three lists, and the three
      together account for every required skill. */
  lemma CoverageCounts(resume: Resume, jobSkills: seq<string>)
    ensures var m := MatchInfoOf(resume, jobSkills);
            m.coverage.exactMatchCount == |m.matching|
            && m.coverage.partialMatchCount == |m.partial|
            && m.coverage.missingCount == |m.missing|
            && m.coverage.totalRequired == |jobSkills|
            && m.coverage.totalResume == |resume.skills|
            && |m.matching| + |m.partial| + |m.missing| == |jobSkills|
  {
    var js := LowerAll(jobSkills);
    var rs := LowerAll(resume.skills);
    ClassPartition(js, rs);
  }

  /** With distinct skills the weight table holds each skill once, in
      order, with its positional weight. */
  lemma {:induction false} WeightTableDistinct(js: seq<string>, n: nat)
    requires |js| <= n && NoDuplicates(js)
    ensures |WeightTable(js, n)| == |js|
    ensures forall i | 0 <= i < |js| :: WeightTable(js, n)[i] == (js[i], WeightOf(i, n))
    ensures Keys(WeightTable(js, n)) == js
  {
    if js != [] {
      var k := |js| - 1;
      var p := js[..k];
      WeightTableDistinct(p, n);
      var t := WeightTable(p, n);
      var v := WeightOf(k, n);
      assert js[k] !in p;
      PutAbsent(t, js[k], v);
      var w := WeightTable(js, n);
      assert w == t + [(js[k], v)];
      forall i | 0 <= i < |js| ensures w[i] == (js[i], WeightOf(i, n)) {
        if i < k {
          assert w[i] == t[i];
          assert p[i] == js[i];
        }
      }
      assert js == p + [js[k]];
    }
  }

  lemma LookupsSumTotal(w: Dict<string, real>)
    requires IsDict(w)
    ensures WeightSum(Keys(w), w, 0.0, 1.0) == TotalWeight(w)
  {
    LookupsSumValues(w, |w|);
    assert Keys(w)[..|w|] == Keys(w);
    assert Values(w)[..|w|] == Values(w);
  }

  /** Each skill's contribution to the score. */
  function Credit(x: string, rs: seq<string>, w: Dict<string, real>): real
  {
    match Classify(x, rs)
    case ExactMatch => GetOr(w, x, 0.75) * 1.0
    case PartialMatch => GetOr(w, x, 0.5) * 0.5
    case NoMatch => 0.0
  }

  function CreditSum(js: seq<string>, rs: seq<string>, w: Dict<string, real>): real
  {
    if js == [] then 0.0 else CreditSum(js[..|js| - 1], rs, w) + Credit(js[|js| - 1], rs, w)
  }

  /** Summing the matching and then the partial skills is summing each
      skill's contribution in requirement order. */
  lemma {:induction false} ScoreAsCredit(js: seq<string>, rs: seq<string>, w: Dict<string, real>)
    ensures WeightSum(WithClass(js, rs, ExactMatch), w, 0.75, 1.0) +
            WeightSum(WithClass(js, rs, PartialMatch), w, 0.5, 0.5) == CreditSum(js, rs, w)
  {
    if js != [] {
      var n := |js| - 1;
      ScoreAsCredit(js[..n], rs, w);
      var e := WithClass(js[..n], rs, ExactMatch);
      var p := WithClass(js[..n], rs, PartialMatch);
      var x := js[n];
      assert CreditSum(js, rs, w) == CreditSum(js[..n], rs, w) + Credit(x, rs, w);
      match Classify(x, rs)
      case ExactMatch =>
        assert WithClass(js, rs, ExactMatch) == e + [x];
        assert WithClass(js, rs, PartialMatch) == p;
        assert (e + [x])[..|e|] == e;
        assert WeightSum(e + [x], w, 0.75, 1.0) == WeightSum(e, w, 0.75, 1.0) + GetOr(w, x, 0.75) * 1.0;
      case PartialMatch =>
        assert WithClass(js, rs, ExactMatch) == e;
        assert WithClass(js, rs, PartialMatch) == p + [x];
        assert (p + [x])[..|p|] == p;
        assert WeightSum(p + [x], w, 0.5, 0.5) == WeightSum(p, w, 0.5, 0.5) + GetOr(w, x, 0.5) * 0.5;
      case NoMatch =>
        assert WithClass(js, rs, ExactMatch) == e;
        assert WithClass(js, rs, PartialMatch) == p;
    }
  }

  /** With non-negative weights for every skill, the score lies between 0
      and the plain sum of the weights, and reaches it when every skill
      matches exactly. */
  lemma {:induction false} CreditBounds(js: seq<string>, rs: seq<string>, w: Dict<string, real>)
    requires forall x | x in js :: HasKey(w, x) && Get(w, x).value >= 0.0
    ensures 0.0 <= CreditSum(js, rs, w) <= WeightSum(js, w, 0.0, 1.0)
    ensures (forall x | x in js :: x in rs) ==> CreditSum(js, rs, w) == WeightSum(js, w, 0.0, 1.0)
  {
    if js != [] {
      var n := |js| - 1;
      assert forall x | x in js[..n] :: x in js;
      CreditBounds(js[..n], rs, w);
      assert js[n] in js;
    }
  }

  /** In a dict, looking up each key in turn and summing gives the sum of
      the values. */
  lemma {:induction false} LookupsSumValues(w: Dict<string, real>, k: nat)
    requires IsDict(w) && k <= |w|
    ensures WeightSum(Keys(w)[..k], w, 0.0, 1.0) == SumReal(Values(w)[..k])
  {
    if k > 0 {
      LookupsSumValues(w, k - 1);
      var ks := Keys(w)[..k];
      var vs := Values(w)[..k];
      assert ks[..k - 1] == Keys(w)[..k - 1];
      assert vs[..k - 1] == Values(w)[..k - 1];
      GetAtIndex(w, k - 1);
      assert ks[k - 1] == w[k - 1].0;
      assert vs[k - 1] == w[k - 1].1;
      assert GetOr(w, ks[k - 1], 0.0) == w[k - 1].1;
    }
  }

  /** With distinct job skills the percentage lies in [0, 100], and is
      100 when every job skill is on the resume. */
  lemma PercentageBounds(js: seq<string>, rs: seq<string>)
    requires NoDuplicates(js)
    ensures 0.0 <= MatchPercentage(js, rs) <= 100.0
    ensures js != [] && (forall x | x in js :: x in rs) ==> MatchPercentage(js, rs) == 100.0
  {
    var w := WeightTable(js, |js|);
    WeightTablePositive(js);
    CreditWithinTotal(js, rs, w);
    if js != [] {
      TotalPositive(Values(w));
    }
    PercentBounds(MatchScore(js, rs), TotalWeight(w));
  }

  /** The weights of distinct skills: one positive entry per skill. */
  lemma WeightTablePositive(js: seq<string>)
    requires NoDuplicates(js)
    ensures Keys(WeightTable(js, |js|)) == js
    ensures forall i | 0 <= i < |js| :: WeightTable(js, |js|)[i].1 > 0.0
  {
    WeightTableDistinct(js, |js|);
    forall i | 0 <= i < |js| ensures WeightTable(js, |js|)[i].1 > 0.0 {
      assert WeightTable(js, |js|)[i].1 == WeightOf(i, |js|);
    }
  }

  /** For any dict of non-negative weights over the skills, the score
      lies between 0 and the total and reaches it when all match. */
  lemma CreditWithinTotal(js: seq<string>, rs: seq<string>, w: Dict<string, real>)
    requires NoDuplicates(js) && Keys(w) == js
    requires forall i | 0 <= i < |js| :: w[i].1 > 0.0
    ensures 0.0 <= WeightSum(WithClass(js, rs, ExactMatch), w, 0.75, 1.0) +
                   WeightSum(WithClass(js, rs, PartialMatch), w, 0.5, 0.5) <= TotalWeight(w)
    ensures (forall x | x in js :: x in rs) ==>
              WeightSum(WithClass(js, rs, ExactMatch), w, 0.75, 1.0) +
              WeightSum(WithClass(js, rs, PartialMatch), w, 0.5, 0.5) == TotalWeight(w)
  {
    LookupsNonNegative(js, w);
    ScoreAsCredit(js, rs, w);
    CreditBounds(js, rs, w);
    LookupsSumTotal(w);
  }

  lemma LookupsNonNegative(js: seq<string>, w: Dict<string, real>)
    requires NoDuplicates(js) && Keys(w) == js
    requires forall i | 0 <= i < |js| :: w[i].1 > 0.0
    ensures forall x | x in js :: HasKey(w, x) && Get(w, x).value >= 0.0
  {
    forall x | x in js ensures HasKey(w, x) && Get(w, x).value >= 0.0 {
      var i :| 0 <= i < |js| && js[i] == x;
      GetAtIndex(w, i);
    }
  }

  lemma PercentBounds(a: real, b: real)
    requires 0.0 <= a <= b
    ensures 0.0 <= Percent(a, b) <= 100.0
    ensures a == b && b > 0.0 ==> Percent(a, b) == 100.0
  {
    if b > 0.0 {
      var q := a / b;
      assert q * b == a;
      assert (1.0 - q) * b == b - a;
      assert 0.0 <= q <= 1.0;
      assert Percent(a, b) == q * 100.0;
      if a == b {
        assert q == 1.0;
      }
    }
  }

  /** A sum of positive numbers, at least one of them, is positive. */
  lemma {:induction false} TotalPositive(s: seq<real>)
    requires s != [] && forall i | 0 <= i < |s| :: s[i] > 0.0
    ensures SumReal(s) > 0.0
  {
    if |s| > 1 {
      TotalPositive(s[..|s| - 1]);
    }
  }

  /** No job skills: no weight, and a percentage of 0. */
  lemma PercentageNoSkills(rs: seq<string>)
    ensures MatchPercentage([], rs) == 0.0
  {
  }

  /** A repeated job skill is weighed once in the total but counted at
      each occurrence in the score, so the percentage can pass 100. */
  lemma DuplicateSkillOverflow()
    ensures MatchPercentage(["a", "a"], ["a"]) == 200.0
  {
    var js := ["a", "a"];
    assert js[..1] == ["a"];
    assert js[..1][..0] == [];
    var t1 := WeightTable(js[..1], 2);
    assert WeightTable(js[..1][..0], 2) == [];
    assert WeightOf(0, 2) == 1.0;
    var empty: Dict<string, real> := [];
    assert !HasKey(empty, "a");
    assert t1 == Put(empty, "a", 1.0) == [("a", 1.0)];
    assert HasKey(t1, "a");
    PutPresent(t1, "a", WeightOf(1, 2));
    assert WeightOf(1, 2) == 0.75;
    var w := WeightTable(js, 2);
    assert w == [("a", 0.75)];
    assert Values(w) == [0.75];
    assert [0.75][..0] == [];
    assert TotalWeight(w) == 0.75;
    assert Classify("a", ["a"]) == ExactMatch;
    var e := WithClass(js, ["a"], ExactMatch);
    assert WithClass(js[..1], ["a"], ExactMatch) == ["a"];
    assert e == ["a", "a"];
    assert WithClass(js[..1], ["a"], PartialMatch) == [];
    assert WithClass(js, ["a"], PartialMatch) == [];
    assert GetOr(w, "a", 0.75) == 0.75;
    assert e[..1] == ["a"];
    assert e[..1][..0] == [];
    assert WeightSum(e[..1], w, 0.75, 1.0) == 0.75;
    assert WeightSum(e, w, 0.75, 1.0) == 1.5;
  }

  // ---------------------------------------------------------------------
  // Scoring the jobs of a company

  /** A job listing; a key the listing lacks holds the default `get`
      supplies (`""`, or `[]` for the requirements). */
  datatype CompanyJob = CompanyJob(
    title: string, location: string, department: string,
    requirements: seq<string>, postedDate: string, salaryRange: string)

  datatype Quality = Excellent | Good | Fair | Poor

  /** `match_quality`: Excellent from 85, Good from 70, Fair from 50. */
  function QualityOf(p: real): (q: Quality)
    ensures q == Excellent <==> 85.0 <= p
    ensures q == Good <==> 70.0 <= p < 85.0
    ensures q == Fair <==> 50.0 <= p < 70.0
    ensures q == Poor <==> p < 50.0
  {
    if p >= 85.0 then Excellent else if p >= 70.0 then Good else if p >= 50.0 then Fair else Poor
  }

  datatype JobMatch = JobMatch(
    title: string, location: string, department: string,
    percentage: real, quality: Quality,
    matching: seq<string>, partial: seq<string>, missing: seq<string>,
    coverage: SkillCoverage, postedDate: string, salaryRange: string)

  /** The entry made for one job. */
  function JobMatchOf(resume: Resume, job: CompanyJob): JobMatch
  {
    var info := MatchInfoOf(resume, job.requirements);
    JobMatch(job.title, job.location, job.department, info.percentage, QualityOf(info.percentage),
      info.matching, info.partial, info.missing, info.coverage, job.postedDate, job.salaryRange)
  }

  /** The entries before sorting, one per job in order. */
  function JobMatches(resume: Resume, jobs: seq<CompanyJob>): seq<JobMatch>
  {
    MapSeq(jobs, job => JobMatchOf(resume, job))
  }

  function PercentageKey(m: JobMatch): real
  {
    m.percentage
  }

  /** `analyze_resume_vs_company_jobs`: one entry per job, ranked by match
      percentage, highest first; equal percentages keep job order. */
  method AnalyzeResumeVsCompanyJobs(resume: Resume, jobs: seq<CompanyJob>) returns (matches: seq<JobMatch>)
    ensures matches == SortDesc(JobMatches(resume, jobs), PercentageKey)
    ensures |matches| == |jobs|
    ensures SortedDesc(matches, PercentageKey)
    ensures multiset(matches) == multiset(JobMatches(resume, jobs))
  {
    matches := [];
    var i := 0;
    while i < |jobs|
      invariant 0 <= i <= |jobs|
      invariant matches == JobMatches(resume, jobs[..i])
    {
      var info := MatchResumeToJobSkills(resume, jobs[i].requirements);
      var quality := QualityOf(info.percentage);
      MapSeqStep(jobs, job => JobMatchOf(resume, job), i);
      matches := matches + [JobMatch(jobs[i].title, jobs[i].location, jobs[i].department,
        info.percentage, quality, info.matching, info.partial, info.missing, info.coverage,
        jobs[i].postedDate, jobs[i].salaryRange)];
      i := i + 1;
    }
    assert jobs[..|jobs|] == jobs;
    matches := SortDesc(matches, PercentageKey);
  }

  // ---------------------------------------------------------------------
  // The opportunity score

  /** `get_career_opportunity_score`: 0 without matches, otherwise the mean
      percentage of the first three (or of all, when fewer). */
  function OpportunityScore(ms: seq<JobMatch>): real
  {
    TopMean(MapSeq(ms, PercentageKey))
  }

  function TopMean(ps: seq<real>): real
  {
    if ps == [] then 0.0
    else
      var top := Take(ps, 3);
      SumReal(top) / (|top| as real)
  }

  /** A sum of `k` numbers, each between `lo` and `hi`, lies between
      `k * lo` and `k * hi`. */
  lemma {:induction false} SumBetween(s: seq<real>, lo: real, hi: real)
    requires forall i | 0 <= i < |s| :: lo <= s[i] <= hi
    ensures (|s| as real) * lo <= SumReal(s) <= (|s| as real) * hi
  {
    if s != [] {
      SumBetween(s[..|s| - 1], lo, hi);
    }
  }

  lemma MeanBetween(sum: real, k: real, lo: real, hi: real)
    requires k > 0.0 && k * lo <= sum <= k * hi
    ensures lo <= sum / k <= hi
  {
    var q := sum / k;
    assert q * k == sum;
    assert (q - lo) * k == sum - k * lo;
    assert (hi - q) * k == k * hi - sum;
  }

  lemma TopMeanBounds(ps: seq<real>, lo: real, hi: real)
    requires ps != []
    requires forall i | 0 <= i < Min(3, |ps|) :: lo <= ps[i] <= hi
    ensures lo <= TopMean(ps) <= hi
  {
    var top := Take(ps, 3);
    assert forall i | 0 <= i < |top| :: top[i] == ps[i];
    SumBetween(top, lo, hi);
    MeanBetween(SumReal(top), |top| as real, lo, hi);
  }

  /** The score of a non-empty list lies between the smallest and the
      largest of the percentages it averages. */
  lemma OpportunityBounds(ms: seq<JobMatch>, lo: real, hi: real)
    requires ms != []
    requires forall i | 0 <= i < Min(3, |ms|) :: lo <= ms[i].percentage <= hi
    ensures lo <= OpportunityScore(ms) <= hi
  {
    TopMeanBounds(MapSeq(ms, PercentageKey), lo, hi);
  }
}

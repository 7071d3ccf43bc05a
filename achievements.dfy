// Gamification bookkeeping of the dashboard (app.py): achievements whose
// progress grows and whose levels unlock one at a time, the recruitment
// score computed from them, and the watchlist that adding companies
// appends to. The database write is a parameter: its outcome, not its
// effect, is what the watchlist logic reads.

module Achievements {
  import opened Common
  import opened Assoc

  datatype Level = Level(name: string, threshold: int, badge: string, unlocked: bool)

  datatype Achievement = Achievement(name: string, description: string, levels: seq<Level>,
                                     currentLevel: int, progress: int, maximum: int)

  // ---- Initial achievements --------------------------------------------------

  const CompaniesKey: string := "companies_tracked"

  const AchievementKeys: seq<string> :=
    [CompaniesKey, "industries_analyzed", "talent_searches", "resumes_analyzed", "insights_generated"]

  /** Four levels with the given thresholds, none unlocked. */
  function Levels(t1: int, t2: int, t3: int, t4: int): (ls: seq<Level>)
    ensures |ls| == 4 && forall j | 0 <= j < 4 :: !ls[j].unlocked
  {
    [Level("Beginner", t1, "\U{1F949}", false), Level("Intermediate", t2, "\U{1F948}", false),
     Level("Advanced", t3, "\U{1F947}", false), Level("Expert", t4, "\U{1F451}", false)]
  }

  function Fresh(name: string, description: string, levels: seq<Level>, maximum: int): Achievement
  {
    Achievement(name, description, levels, 0, 0, maximum)
  }

  const DefaultAchievements: Dict<string, Achievement> := [
    (CompaniesKey, Fresh("Company Tracker", "Track multiple competitor companies",
                         Levels(1, 5, 10, 25), 25)),
    ("industries_analyzed", Fresh("Industry Analyst", "Analyze different industries for hiring trends",
                                  Levels(1, 3, 5, 7), 7)),
    ("talent_searches", Fresh("Talent Scout", "Search for talent in various locations",
                              Levels(1, 5, 15, 30), 30)),
    ("resumes_analyzed", Fresh("Resume Expert", "Analyze resumes against job requirements",
                               Levels(1, 5, 10, 20), 20)),
    ("insights_generated", Fresh("Insight Generator", "Generate hiring insights from data",
                                 Levels(5, 15, 30, 50), 50))
  ]

  predicate PositiveMaxima(d: Dict<string, Achievement>)
  {
    forall i | 0 <= i < |d| :: d[i].1.maximum > 0
  }

  // ---- Unlocking ---------------------------------------------------------------

  predicate Unlockable(l: Level, progress: int)
  {
    progress >= l.threshold && !l.unlocked
  }

  /** The lowest-index level that `progress` reaches and that is still
      locked, if any. */
  function FirstUnlockable(levels: seq<Level>, progress: int): (r: Option<nat>)
    ensures r != None ==> r.value < |levels| && Unlockable(levels[r.value], progress)
    ensures r != None ==> forall j | 0 <= j < r.value :: !Unlockable(levels[j], progress)
    ensures r == None <==> forall j | 0 <= j < |levels| :: !Unlockable(levels[j], progress)
  {
    if levels == [] then None
    else if Unlockable(levels[0], progress) then Some(0)
    else
      match FirstUnlockable(levels[1..], progress)
      case None => None
      case Some(k) => Some(k + 1)
  }

  /** The achievement after adding `increment` to its progress and, when
      `checkUnlocks` holds, unlocking the first reachable locked level. */
  function Progressed(a: Achievement, increment: int, checkUnlocks: bool): (b: Achievement)
    ensures b.progress == a.progress + increment
    ensures b.name == a.name && b.description == a.description && b.maximum == a.maximum
    ensures |b.levels| == |a.levels|
    ensures forall j | 0 <= j < |a.levels| ::
              b.levels[j].name == a.levels[j].name && b.levels[j].threshold == a.levels[j].threshold
              && b.levels[j].badge == a.levels[j].badge
    ensures forall j | 0 <= j < |a.levels| :: a.levels[j].unlocked ==> b.levels[j].unlocked
    ensures forall j | 0 <= j < |a.levels| :: b.levels[j] != a.levels[j] ==>
              checkUnlocks && FirstUnlockable(a.levels, b.progress) == Some(j)
              && b.levels[j].unlocked && b.currentLevel == j
    ensures checkUnlocks && FirstUnlockable(a.levels, b.progress) != None ==>
              var k := FirstUnlockable(a.levels, b.progress).value;
              b.levels[k].unlocked && b.currentLevel == k
    ensures !checkUnlocks || FirstUnlockable(a.levels, b.progress) == None ==>
              b.levels == a.levels && b.currentLevel == a.currentLevel
  {
    var p := a.progress + increment;
    var found := if checkUnlocks then FirstUnlockable(a.levels, p) else None;
    match found
    case None => a.(progress := p)
    case Some(k) =>
      a.(progress := p, levels := a.levels[k := a.levels[k].(unlocked := true)], currentLevel := k)
  }

  /** The level a progress update reports as unlocked. */
  function UnlockedLevel(a: Achievement, increment: int, checkUnlocks: bool): (l: Option<Level>)
    ensures l != None <==> checkUnlocks && FirstUnlockable(a.levels, a.progress + increment) != None
    ensures l != None ==> l.value == Progressed(a, increment, checkUnlocks).levels[
                                       FirstUnlockable(a.levels, a.progress + increment).value]
  {
    if !checkUnlocks then None
    else match FirstUnlockable(a.levels, a.progress + increment)
      case None => None
      case Some(k) => Some(a.levels[k].(unlocked := true))
  }

  /** At most one level changes per update. */
  lemma AtMostOneUnlock(a: Achievement, increment: int, checkUnlocks: bool, i: nat, j: nat)
    requires i < j < |a.levels|
    ensures var b := Progressed(a, increment, checkUnlocks);
            b.levels[i] == a.levels[i] || b.levels[j] == a.levels[j]
  {
    var b := Progressed(a, increment, checkUnlocks);
    if b.levels[i] != a.levels[i] {
      assert FirstUnlockable(a.levels, b.progress) == Some(i);
    }
  }

  /** The first locked level whose threshold `progress` reaches:
      `for i, level in enumerate(levels)` with its early return. */
  method FindUnlock(levels: seq<Level>, progress: int) returns (found: Option<nat>)
    ensures found == FirstUnlockable(levels, progress)
  {
    var i := 0;
    while i < |levels|
      invariant 0 <= i <= |levels|
      invariant forall j | 0 <= j < i :: !Unlockable(levels[j], progress)
    {
      if progress >= levels[i].threshold && !levels[i].unlocked {
        return Some(i);
      }
      i := i + 1;
    }
    return None;
  }

  /** The body of `update_achievement_progress` for a present key: the
      progress update and the unlock loop. */
  method Advance(a: Achievement, increment: int, checkUnlocks: bool) returns (b: Achievement, level: Option<Level>)
    ensures b == Progressed(a, increment, checkUnlocks)
    ensures level == UnlockedLevel(a, increment, checkUnlocks)
  {
    var p := a.progress + increment;
    b := a.(progress := p);
    level := None;
    if checkUnlocks {
      var found := FindUnlock(a.levels, p);
      if found != None {
        var k := found.value;
        var l := a.levels[k].(unlocked := true);
        b := b.(levels := a.levels[k := l], currentLevel := k);
        level := Some(l);
      }
    }
  }

  /** Overwriting the entry at index `ix` with the same key keeps the keys
      and, given a positive maximum, the positive maxima. */
  lemma OverwriteKeepsShape(d: Dict<string, Achievement>, ix: nat, key: string, b: Achievement)
    requires ix < |d| && d[ix].0 == key
    ensures Keys(d[ix := (key, b)]) == Keys(d)
    ensures PositiveMaxima(d) && b.maximum > 0 ==> PositiveMaxima(d[ix := (key, b)])
  {
    var d' := d[ix := (key, b)];
    assert forall i | 0 <= i < |d| :: i != ix ==> d'[i] == d[i];
    assert Keys(d') == Keys(d);
  }

  // ---- Recruitment score -------------------------------------------------------

  /** `achievement_weights.get(key, 10)`. */
  function ScoreWeight(key: string): int
  {
    if key == CompaniesKey then 25
    else if key == "industries_analyzed" then 20
    else if key == "talent_searches" then 15
    else if key == "resumes_analyzed" then 15
    else if key == "insights_generated" then 25
    else 10
  }

  function WeightTotal(keys: seq<string>): int
  {
    if keys == [] then 0 else WeightTotal(keys[..|keys| - 1]) + ScoreWeight(keys[|keys| - 1])
  }

  /** The five weights sum to 100. */
  lemma WeightsSumToHundred()
    ensures WeightTotal(AchievementKeys) == 100
  {
    var ks := AchievementKeys;
    assert ks[..4][..3][..2][..1][..0] == [];
    assert ScoreWeight(ks[2]) == 15 by { assert |ks[2]| == 15; }
    assert ScoreWeight(ks[3]) == 15 by { assert |ks[3]| == 16; }
    assert ScoreWeight(ks[4]) == 25 by { assert |ks[4]| == 18; }
    assert ks[..3][..2] == ks[..2] && ks[..4][..3] == ks[..3] && ks[..5][..4] == ks[..4];
    assert WeightTotal(ks[..1]) == 25;
    assert WeightTotal(ks[..2]) == 45;
    assert WeightTotal(ks[..3]) == 60;
    assert WeightTotal(ks[..4]) == 75;
  }

  /** `min(1.0, progress / max)`. */
  function Completion(progress: int, maximum: int): (c: real)
    requires maximum > 0
    ensures c <= 1.0
    ensures progress >= 0 ==> c >= 0.0
    ensures progress >= maximum ==> c == 1.0
    ensures progress < maximum ==> c * maximum as real == progress as real
  {
    var q := progress as real / maximum as real;
    assert q * maximum as real == progress as real;
    if q < 1.0 then q else 1.0
  }

  /** The weighted sum of completions, before rounding. */
  function RawScore(d: Dict<string, Achievement>): real
    requires PositiveMaxima(d)
  {
    if d == [] then 0.0
    else
      var e := d[|d| - 1];
      RawScore(d[..|d| - 1]) + Contribution(e.0, e.1)
  }

  /** One achievement's weighted completion. */
  function Contribution(key: string, a: Achievement): (r: real)
    requires a.maximum > 0
    ensures a.progress >= 0 ==> 0.0 <= r <= ScoreWeight(key) as real
    ensures a.progress >= a.maximum ==> r == ScoreWeight(key) as real
  {
    var c := Completion(a.progress, a.maximum);
    var w := ScoreWeight(key) as real;
    assert (1.0 - c) * w == w - c * w;
    assert c >= 0.0 ==> c * w >= 0.0 && (1.0 - c) * w >= 0.0 by {
      if c >= 0.0 {
        PositiveProduct(c, w);
        PositiveProduct(1.0 - c, w);
      }
    }
    c * w
  }

  lemma PositiveProduct(x: real, y: real)
    requires x >= 0.0 && y >= 0.0
    ensures x * y >= 0.0
  {
  }

  predicate NonNegativeProgress(d: Dict<string, Achievement>)
  {
    forall i | 0 <= i < |d| :: d[i].1.progress >= 0
  }

  predicate Completed(d: Dict<string, Achievement>)
  {
    forall i | 0 <= i < |d| :: d[i].1.progress >= d[i].1.maximum
  }

  /** With non-negative progress the raw score lies between 0 and the sum of
      the weights; with every achievement complete it reaches that sum. */
  lemma {:induction false} RawScoreBounds(d: Dict<string, Achievement>)
    requires PositiveMaxima(d)
    ensures NonNegativeProgress(d) ==> 0.0 <= RawScore(d) <= WeightTotal(Keys(d)) as real
    ensures Completed(d) ==> RawScore(d) == WeightTotal(Keys(d)) as real
  {
    if d != [] {
      var n := |d| - 1;
      var e := d[n];
      assert PositiveMaxima(d[..n]);
      RawScoreBounds(d[..n]);
      assert Keys(d)[..n] == Keys(d[..n]);
      assert Keys(d) == Keys(d[..n]) + [e.0];
      assert Keys(d)[..|Keys(d)| - 1] == Keys(d[..n]);
      assert WeightTotal(Keys(d)) == WeightTotal(Keys(d[..n])) + ScoreWeight(e.0);
      if NonNegativeProgress(d) {
        assert NonNegativeProgress(d[..n]);
      }
      if Completed(d) {
        assert Completed(d[..n]);
      }
    }
  }

  // ---- Watchlist ---------------------------------------------------------------

  const TopTechCompanies: seq<string> := [
    "Apple", "Microsoft", "Google", "Amazon", "Meta",
    "Tesla", "NVIDIA", "Samsung", "Intel", "IBM",
    "Oracle", "Salesforce", "Adobe", "SAP", "OpenAI",
    "Palantir", "Snowflake", "Databricks", "Cisco", "ServiceNow",
    "Sony", "LG Electronics", "Dell Technologies", "HP", "Lenovo",
    "ASUS", "Xiaomi", "OnePlus", "Huawei", "Razer",
    "Stripe", "PayPal", "Square", "Robinhood", "Coinbase",
    "CrowdStrike", "Darktrace", "Cloudflare", "Okta", "Zscaler",
    "SpaceX", "Rivian", "Waymo", "ByteDance", "Epic Games",
    "DeepMind", "Anduril", "QuantumScape", "Boston Dynamics", "Cruise"
  ]

  /** Python's `s[:count]`, where a negative count drops from the end. */
  function SliceTo<T>(s: seq<T>, count: int): (r: seq<T>)
    ensures r <= s
    ensures |r| == if count >= 0 then Min(count, |s|) else Max(0, |s| + count)
  {
    if count >= 0 then Take(s, count) else s[..Max(0, |s| + count)]
  }

  /** The watchlist after offering each of `names` in turn: a name is
      appended when it is non-empty, not yet listed and its save succeeds. */
  function AppendNew(watched: seq<string>, names: seq<string>, saved: string -> bool): (r: seq<string>)
    ensures watched <= r
    ensures NoDuplicates(watched) ==> NoDuplicates(r)
    ensures forall k | |watched| <= k < |r| :: r[k] in names && r[k] != "" && saved(r[k])
    ensures forall x | x in names && x != "" && saved(x) :: x in r
  {
    if names == [] then watched
    else
      var w := AppendNew(watched, names[..|names| - 1], saved);
      var x := names[|names| - 1];
      assert forall y | y in names[..|names| - 1] :: y in names;
      assert forall y | y in names :: y in names[..|names| - 1] || y == x;
      if x != "" && x !in w && saved(x) then w + [x] else w
  }
  /** One more offered name: appended exactly when it is new, non-empty and
      saved. */
  lemma AppendNewStep(watched: seq<string>, names: seq<string>, saved: string -> bool, i: nat)
    requires i < |names|
    ensures var w := AppendNew(watched, names[..i], saved);
            AppendNew(watched, names[..i + 1], saved) ==
              if names[i] != "" && names[i] !in w && saved(names[i]) then w + [names[i]] else w
  {
    assert names[..i + 1][..i] == names[..i];
  }


  /** Writing an entry back at the index of its key keeps that index the
      key's first. */
  lemma IndexOfAfterOverwrite(d: Dict<string, Achievement>, k: string, a: Achievement)
    requires HasKey(d, k)
    ensures var d' := d[IndexOf(d, k) := (k, a)];
            HasKey(d', k) && IndexOf(d', k) == IndexOf(d, k) && Keys(d') == Keys(d)
  {
    var ix := IndexOf(d, k);
    var d' := d[ix := (k, a)];
    assert Keys(d') == Keys(d);
    assert forall j | 0 <= j < ix :: d'[j] == d[j];
    assert d'[ix].0 == k;
  }

  // ---- Session state -----------------------------------------------------------

  class Session {
    var achievements: Dict<string, Achievement>
    var watchedCompanies: seq<string>
    var totalActions: int

    /** The five achievements, each with a positive maximum. */
    predicate Valid()
      reads this
    {
      Keys(achievements) == AchievementKeys && PositiveMaxima(achievements)
    }

    /** A new session: fresh achievements, the watchlist loaded from the
        database, no actions yet. */
    constructor (watched: seq<string>)
      ensures Valid()
      ensures achievements == DefaultAchievements && watchedCompanies == watched && totalActions == 0
    {
      achievements := DefaultAchievements;
      watchedCompanies := watched;
      totalActions := 0;
      assert Keys(DefaultAchievements) == AchievementKeys;
    }

    /** `update_achievement_progress`: an unknown key changes nothing;
        otherwise progress grows by `increment` and, if asked, the first
        reachable locked level is unlocked and reported. */
    method UpdateAchievementProgress(key: string, increment: int, checkUnlocks: bool)
      returns (unlocked: bool, level: Option<Level>)
      requires Valid()
      modifies this
      ensures Valid()
      ensures !HasKey(old(achievements), key) ==>
                achievements == old(achievements) && !unlocked && level == None
      ensures HasKey(old(achievements), key) ==>
                var a := old(Get(achievements, key)).value;
                achievements == Put(old(achievements), key, Progressed(a, increment, checkUnlocks))
                && level == UnlockedLevel(a, increment, checkUnlocks)
      ensures unlocked <==> level != None
      ensures watchedCompanies == old(watchedCompanies) && totalActions == old(totalActions)
    {
      if !HasKey(achievements, key) {
        return false, None;
      }
      var ix := IndexOf(achievements, key);
      var b;
      b, level := Advance(achievements[ix].1, increment, checkUnlocks);
      unlocked := level != None;
      OverwriteKeepsShape(achievements, ix, key, b);
      achievements := achievements[ix := (key, b)];
    }

    /** `calculate_recruitment_score`: the rounded weighted sum of the
        completions; between 0 and 100 while progress is non-negative, and
        100 once every achievement is complete. */
    method CalculateRecruitmentScore() returns (score: int)
      requires Valid()
      ensures score == RoundHalfEven(RawScore(achievements))
      ensures NonNegativeProgress(achievements) ==> 0 <= score <= 100
      ensures Completed(achievements) ==> score == 100
    {
      var total := 0.0;
      for i := 0 to |achievements|
        invariant PositiveMaxima(achievements[..i])
        invariant total == RawScore(achievements[..i])
      {
        var e := achievements[i];
        assert achievements[..i + 1][..i] == achievements[..i];
        total := total + Contribution(e.0, e.1);
      }
      assert achievements[..|achievements|] == achievements;
      score := RoundHalfEven(total);
      RawScoreBounds(achievements);
      WeightsSumToHundred();
    }

    /** `add_company`: the sidebar's name if given, else the page's; it is
        appended, counted towards the company achievement and recorded as
        an action only when new, non-empty and saved. */
    method AddCompany(sidebarName: string, pageName: string, saveOk: bool) returns (unlock: Option<Level>)
      requires Valid()
      modifies this
      ensures Valid()
      ensures var name := if sidebarName != "" then sidebarName else pageName;
              var added := name != "" && name !in old(watchedCompanies) && saveOk;
              var a := old(Get(achievements, CompaniesKey)).value;
              watchedCompanies == (if added then old(watchedCompanies) + [name] else old(watchedCompanies))
              && achievements == (if added then Put(old(achievements), CompaniesKey, Progressed(a, 1, true))
                                  else old(achievements))
              && totalActions == (if added then old(totalActions) + 1 else old(totalActions))
              && unlock == (if added then UnlockedLevel(a, 1, true) else None)
      ensures NoDuplicates(old(watchedCompanies)) ==> NoDuplicates(watchedCompanies)
    {
      assert HasKey(achievements, CompaniesKey) by { assert Keys(achievements)[0] == CompaniesKey; }
      var name := if sidebarName != "" then sidebarName else pageName;
      unlock := None;
      if name != "" && name !in watchedCompanies && saveOk {
        watchedCompanies := watchedCompanies + [name];
        var unlocked;
        unlocked, unlock := UpdateAchievementProgress(CompaniesKey, 1, true);
        totalActions := totalActions + 1;
      }
    }

    /** One step of that loop. `start`, `ix` and `a` name the achievements
        before the loop, the index of the company achievement and its value
        then; `n` companies have been added so far. */
    method OfferCompany(name: string, saved: string -> bool, ghost start: Dict<string, Achievement>,
                        ghost ix: nat, ghost a: Achievement, n: int)
      returns (appended: bool, count: int)
      requires Valid()
      requires HasKey(start, CompaniesKey) && ix == IndexOf(start, CompaniesKey)
      requires achievements == start[ix := (CompaniesKey, a.(progress := a.progress + n))]
      modifies this
      ensures Valid()
      ensures appended <==> name != "" && name !in old(watchedCompanies) && saved(name)
      ensures watchedCompanies == if appended then old(watchedCompanies) + [name] else old(watchedCompanies)
      ensures count == if appended then n + 1 else n
      ensures achievements == start[ix := (CompaniesKey, a.(progress := a.progress + count))]
      ensures totalActions == old(totalActions)
    {
      appended, count := false, n;
      if name != "" && name !in watchedCompanies && saved(name) {
        watchedCompanies := watchedCompanies + [name];
        appended, count := true, n + 1;
        IndexOfAfterOverwrite(start, CompaniesKey, a.(progress := a.progress + n));
        var unlocked, level := UpdateAchievementProgress(CompaniesKey, 1, false);
      }
    }

    /** The loop of `add_top_companies`: each name in turn is appended and
        counted, without unlock checks, when new, non-empty and saved. */
    method OfferCompanies(toAdd: seq<string>, saved: string -> bool, ghost ix: nat, ghost a: Achievement)
      returns (added: int)
      requires Valid()
      requires HasKey(achievements, CompaniesKey) && ix == IndexOf(achievements, CompaniesKey)
      requires achievements[ix].1 == a
      modifies this
      ensures Valid()
      ensures watchedCompanies == AppendNew(old(watchedCompanies), toAdd, saved)
      ensures added == |watchedCompanies| - |old(watchedCompanies)|
      ensures achievements == old(achievements)[ix := (CompaniesKey, a.(progress := a.progress + added))]
      ensures totalActions == old(totalActions)
    {
      ghost var start := achievements;
      added := 0;
      for i := 0 to |toAdd|
        invariant Valid()
        invariant watchedCompanies == AppendNew(old(watchedCompanies), toAdd[..i], saved)
        invariant added == |watchedCompanies| - |old(watchedCompanies)| >= 0
        invariant achievements == start[ix := (CompaniesKey, a.(progress := a.progress + added))]
        invariant totalActions == old(totalActions)
      {
        AppendNewStep(old(watchedCompanies), toAdd, saved, i);
        var appended;
        appended, added := OfferCompany(toAdd[i], saved, start, ix, a, added);
      }
      assert toAdd[..|toAdd|] == toAdd;
    }

    /** `add_top_companies` over the names it offers: each addition counts
        towards the company achievement without unlocking, and one unlock
        check and one action follow when anything was added. */
    method AddCompanies(toAdd: seq<string>, saved: string -> bool) returns (added: int, unlock: Option<Level>)
      requires Valid()
      modifies this
      ensures Valid()
      ensures watchedCompanies == AppendNew(old(watchedCompanies), toAdd, saved)
      ensures added == |watchedCompanies| - |old(watchedCompanies)|
      ensures var a := old(Get(achievements, CompaniesKey)).value;
              var grown := a.(progress := a.progress + added);
              achievements == (if added > 0 then Put(old(achievements), CompaniesKey, Progressed(grown, 0, true))
                               else old(achievements))
              && unlock == (if added > 0 then UnlockedLevel(grown, 0, true) else None)
      ensures totalActions == (if added > 0 then old(totalActions) + 1 else old(totalActions))
    {
      assert HasKey(achievements, CompaniesKey) by { assert Keys(achievements)[0] == CompaniesKey; }
      var ix := IndexOf(achievements, CompaniesKey);
      var a := achievements[ix].1;
      ghost var start := achievements;
      assert Get(start, CompaniesKey) == Some(a);
      added := OfferCompanies(toAdd, saved, ix, a);
      unlock := None;
      if added > 0 {
        unlock := CheckCompanyUnlocks(start, ix, a.(progress := a.progress + added));
      } else {
        assert start[ix := (CompaniesKey, a)] == start;
      }
    }

    /** The closing step of `add_top_companies`: one unlock check for the
        company achievement, now at `grown`, and one recorded action. */
    method CheckCompanyUnlocks(ghost start: Dict<string, Achievement>, ghost ix: nat, ghost grown: Achievement)
      returns (unlock: Option<Level>)
      requires Valid()
      requires HasKey(start, CompaniesKey) && ix == IndexOf(start, CompaniesKey)
      requires achievements == start[ix := (CompaniesKey, grown)]
      modifies this
      ensures Valid()
      ensures achievements == Put(start, CompaniesKey, Progressed(grown, 0, true))
      ensures unlock == UnlockedLevel(grown, 0, true)
      ensures watchedCompanies == old(watchedCompanies) && totalActions == old(totalActions) + 1
    {
      ghost var mid := achievements;
      IndexOfAfterOverwrite(start, CompaniesKey, grown);
      assert Get(mid, CompaniesKey) == Some(grown);
      var unlocked;
      unlocked, unlock := UpdateAchievementProgress(CompaniesKey, 0, true);
      ghost var p := Progressed(grown, 0, true);
      assert achievements == Put(mid, CompaniesKey, p);
      assert Put(mid, CompaniesKey, p) == start[ix := (CompaniesKey, p)];
      totalActions := totalActions + 1;
    }

    /** `add_top_companies`: offers the first `count` of the top companies
        in turn and returns how many were added. */
    method AddTopCompanies(count: int, saved: string -> bool) returns (added: int, unlock: Option<Level>)
      requires Valid()
      modifies this
      ensures Valid()
      ensures watchedCompanies == AppendNew(old(watchedCompanies), SliceTo(TopTechCompanies, count), saved)
      ensures added == |watchedCompanies| - |old(watchedCompanies)|
      ensures var a := old(Get(achievements, CompaniesKey)).value;
              var grown := a.(progress := a.progress + added);
              achievements == (if added > 0 then Put(old(achievements), CompaniesKey, Progressed(grown, 0, true))
                               else old(achievements))
              && unlock == (if added > 0 then UnlockedLevel(grown, 0, true) else None)
      ensures totalActions == (if added > 0 then old(totalActions) + 1 else old(totalActions))
    {
      added, unlock := AddCompanies(SliceTo(TopTechCompanies, count), saved);
    }
  }
}

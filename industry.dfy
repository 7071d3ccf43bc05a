/** Industry-specific trends: companies are grouped by their industry, and
    each industry with at least two companies gets an industry leader (a
    company hiring at 25% or more above the industry's average velocity),
    its top five skills, a skill much more prevalent in it than elsewhere,
    and its top three hiring locations. */
module IndustryTrends {
  import opened Common
  import opened Assoc
  import opened Sorting
  import opened JobAggregator
  import opened Insights

  /** The two keys of a company record the analysis reads; either may be
      missing. */
  datatype CompanyRecord = CompanyRecord(name: Option<string>, industry: Option<string>)

  /** The names an industry groups, in record order; a record without a
      name contributes `None`. */
  type Members = seq<Option<string>>

  /** `if industry:` — a missing or empty industry is skipped. */
  predicate Truthy(industry: Option<string>)
  {
    industry.Some? && industry.value != ""
  }

  // ---------------------------------------------------------------------
  // Grouping companies by industry

  /** The industries of the records, in record order, with repetitions. */
  function IndustriesOf(records: seq<CompanyRecord>): seq<string>
  {
    if records == [] then []
    else
      var r := records[|records| - 1];
      IndustriesOf(records[..|records| - 1]) + (if Truthy(r.industry) then [r.industry.value] else [])
  }

  /** The names of the records of one industry, in record order. */
  function MembersOf(records: seq<CompanyRecord>, industry: string): Members
  {
    if records == [] then []
    else
      var r := records[|records| - 1];
      MembersOf(records[..|records| - 1], industry) + (if r.industry == Some(industry) then [r.name] else [])
  }

  /** `companies_by_industry`: one entry per industry, in order of first
      mention, holding that industry's names. */
  function Grouped(records: seq<CompanyRecord>): (r: Dict<string, Members>)
    ensures Keys(r) == Dedup(IndustriesOf(records))
  {
    var keys := Dedup(IndustriesOf(records));
    seq(|keys|, i requires 0 <= i < |keys| => (keys[i], MembersOf(records, keys[i])))
  }

  /** An industry is grouped exactly when some record carries it. */
  lemma {:induction false} IndustriesOfMembers(records: seq<CompanyRecord>, industry: string)
    ensures industry in IndustriesOf(records) <==>
      exists i | 0 <= i < |records| :: records[i].industry == Some(industry) && industry != ""
  {
    if records != [] {
      var n := |records| - 1;
      IndustriesOfMembers(records[..n], industry);
      assert forall i | 0 <= i < n :: records[..n][i] == records[i];
    }
  }

  lemma GroupedKeys(records: seq<CompanyRecord>, industry: string)
    ensures HasKey(Grouped(records), industry) <==>
      exists i | 0 <= i < |records| :: records[i].industry == Some(industry) && industry != ""
  {
    IndustriesOfMembers(records, industry);
    assert industry in Dedup(IndustriesOf(records)) <==> industry in SetOf(IndustriesOf(records));
  }

  lemma IndustriesOfStep(records: seq<CompanyRecord>, k: nat)
    requires k < |records|
    ensures IndustriesOf(records[..k + 1]) ==
      IndustriesOf(records[..k]) + (if Truthy(records[k].industry) then [records[k].industry.value] else [])
  {
    assert records[..k + 1][..k] == records[..k];
  }

  lemma MembersOfStep(records: seq<CompanyRecord>, k: nat, industry: string)
    requires k < |records|
    ensures MembersOf(records[..k + 1], industry) ==
      MembersOf(records[..k], industry) + (if records[k].industry == Some(industry) then [records[k].name] else [])
  {
    assert records[..k + 1][..k] == records[..k];
  }

  /** One more record appends its name to its industry's entry, adding the
      entry at the end if the industry is new. */
  lemma GroupedStep(records: seq<CompanyRecord>, k: nat)
    requires k < |records|
    ensures var g := Grouped(records[..k]);
      var r := records[k];
      Grouped(records[..k + 1]) ==
        if Truthy(r.industry) then Put(g, r.industry.value, GetOr(g, r.industry.value, []) + [r.name]) else g
  {
    var r := records[k];
    if !Truthy(r.industry) {
      GroupedSkip(records, k);
    } else if HasKey(Grouped(records[..k]), r.industry.value) {
      GroupedKnown(records, k);
    } else {
      GroupedNew(records, k);
    }
  }

  lemma GroupedSkip(records: seq<CompanyRecord>, k: nat)
    requires k < |records| && !Truthy(records[k].industry)
    ensures Grouped(records[..k + 1]) == Grouped(records[..k])
  {
    var pre := records[..k];
    var g := Grouped(pre);
    var g' := Grouped(records[..k + 1]);
    var ks := Dedup(IndustriesOf(pre));
    IndustriesOfStep(records, k);
    assert IndustriesOf(records[..k + 1]) == IndustriesOf(pre);
    assert |g'| == |g| == |ks|;
    forall j | 0 <= j < |g'|
      ensures g'[j] == g[j]
    {
      assert ks[j] in SetOf(IndustriesOf(pre));
      IndustriesOfNonEmpty(pre, ks[j]);
      MembersOfStep(records, k, ks[j]);
      assert MembersOf(records[..k + 1], ks[j]) == MembersOf(pre, ks[j]);
    }
  }

  lemma GroupedKnown(records: seq<CompanyRecord>, k: nat)
    requires k < |records| && Truthy(records[k].industry)
    requires HasKey(Grouped(records[..k]), records[k].industry.value)
    ensures var g := Grouped(records[..k]);
      var ind := records[k].industry.value;
      Grouped(records[..k + 1]) == Put(g, ind, GetOr(g, ind, []) + [records[k].name])
  {
    var pre := records[..k];
    var r := records[k];
    var ind := r.industry.value;
    var g := Grouped(pre);
    var g' := Grouped(records[..k + 1]);
    var ks := Dedup(IndustriesOf(pre));
    var v := GetOr(g, ind, []) + [r.name];
    IndustriesOfStep(records, k);
    var i := IndexOf(g, ind);
    assert Keys(g)[i] == ind;
    assert ind in SetOf(ks);
    assert (IndustriesOf(pre) + [ind])[..|IndustriesOf(pre)|] == IndustriesOf(pre);
    assert Keys(g') == ks;
    assert Put(g, ind, v) == g[i := (ind, v)];
    forall j | 0 <= j < |g'|
      ensures g'[j] == Put(g, ind, v)[j]
    {
      MembersOfStep(records, k, ks[j]);
      assert g'[j] == (ks[j], MembersOf(records[..k + 1], ks[j]));
      if j != i {
        assert ks[j] != ind;
        assert g[j] == (ks[j], MembersOf(pre, ks[j]));
        assert MembersOf(records[..k + 1], ks[j]) == MembersOf(pre, ks[j]);
      } else {
        assert g'[j] == (ind, v);
      }
    }
  }

  lemma GroupedNew(records: seq<CompanyRecord>, k: nat)
    requires k < |records| && Truthy(records[k].industry)
    requires !HasKey(Grouped(records[..k]), records[k].industry.value)
    ensures Grouped(records[..k + 1]) == Grouped(records[..k]) + [(records[k].industry.value, [records[k].name])]
  {
    var pre := records[..k];
    var r := records[k];
    var ind := r.industry.value;
    var g := Grouped(pre);
    var g' := Grouped(records[..k + 1]);
    var ks := Dedup(IndustriesOf(pre));
    IndustriesOfStep(records, k);
    assert (IndustriesOf(pre) + [ind])[..|IndustriesOf(pre)|] == IndustriesOf(pre);
    assert ind !in ks;
    assert Keys(g') == ks + [ind];
    forall j | 0 <= j < |g'|
      ensures g'[j] == (g + [(ind, [r.name])])[j]
    {
      var key := (ks + [ind])[j];
      MembersOfStep(records, k, key);
      assert g'[j] == (key, MembersOf(records[..k + 1], key));
      if j < |ks| {
        assert key == ks[j] != ind;
        assert g[j] == (key, MembersOf(pre, key));
        assert MembersOf(records[..k + 1], key) == MembersOf(pre, key);
      } else {
        MembersOfAbsent(pre, ind);
        assert MembersOf(records[..k + 1], key) == [r.name];
      }
    }
  }

  lemma {:induction false} IndustriesOfNonEmpty(records: seq<CompanyRecord>, industry: string)
    requires industry in IndustriesOf(records)
    ensures industry != ""
  {
    IndustriesOfMembers(records, industry);
  }

  lemma {:induction false} MembersOfAbsent(records: seq<CompanyRecord>, industry: string)
    requires industry != "" && industry !in SetOf(IndustriesOf(records))
    ensures MembersOf(records, industry) == []
  {
    if records != [] {
      var n := |records| - 1;
      assert SetOf(IndustriesOf(records[..n]) + (if Truthy(records[n].industry) then [records[n].industry.value] else [])) == SetOf(IndustriesOf(records[..n])) + SetOf(if Truthy(records[n].industry) then [records[n].industry.value] else []);
      MembersOfAbsent(records[..n], industry);
    }
  }

  /** The grouping loop: `companies_by_industry[industry].append(name)`. */
  method GroupByIndustry(records: seq<CompanyRecord>) returns (groups: Dict<string, Members>)
    ensures groups == Grouped(records)
  {
    groups := [];
    var k := 0;
    while k < |records|
      invariant 0 <= k <= |records|
      invariant groups == Grouped(records[..k])
    {
      GroupedStep(records, k);
      var r := records[k];
      if Truthy(r.industry) {
        var ind := r.industry.value;
        groups := Put(groups, ind, GetOr(groups, ind, []) + [r.name]);
      }
      k := k + 1;
    }
    assert records[..|records|] == records;
  }

  // ---------------------------------------------------------------------
  // Industry leader

  /** The industry's names that are in the company list, in order, with
      repetitions (`company in processed_data["companies"]`). */
  function Present(members: Members, companies: seq<string>): seq<string>
  {
    if members == [] then []
    else
      var m := members[|members| - 1];
      Present(members[..|members| - 1], companies) + (if m.Some? && m.value in companies then [m.value] else [])
  }

  /** Jobs per period: `sum(data.get(company, 0) for data in velocity_data) / len(velocity_data)`. */
  function Velocity(rows: seq<Row<int>>, c: string): real
    requires |rows| > 0
  {
    ColumnTotal(rows, c) as real / |rows| as real
  }

  function VelocityTable(rows: seq<Row<int>>, names: seq<string>): (t: Dict<string, real>)
    requires |rows| > 0
    ensures Keys(t) == names
  {
    seq(|names|, i requires 0 <= i < |names| => (names[i], Velocity(rows, names[i])))
  }

  /** `industry_velocity`: each present company once, in order of first
      mention, with its velocity; empty when there are no periods. */
  function Velocities(rows: seq<Row<int>>, members: Members, companies: seq<string>): Dict<string, real>
  {
    if |rows| == 0 then [] else VelocityTable(rows, Dedup(Present(members, companies)))
  }

  lemma PresentStep(members: Members, companies: seq<string>, k: nat)
    requires k < |members|
    ensures Present(members[..k + 1], companies) ==
      Present(members[..k], companies) +
      (if members[k].Some? && members[k].value in companies then [members[k].value] else [])
  {
    assert members[..k + 1][..k] == members[..k];
  }

  lemma DedupAppend<T>(s: seq<T>, x: T)
    ensures Dedup(s + [x]) == if x in Dedup(s) then Dedup(s) else Dedup(s) + [x]
  {
    assert (s + [x])[..|s|] == s;
  }

  /** Assigning a company's velocity again leaves the table as it was;
      assigning a new one appends it. */
  lemma VelocityTablePut(rows: seq<Row<int>>, names: seq<string>, c: string)
    requires |rows| > 0
    ensures var t := VelocityTable(rows, names);
      Put(t, c, Velocity(rows, c)) == VelocityTable(rows, if c in names then names else names + [c])
  {
    var t := VelocityTable(rows, names);
    if c in names {
      assert HasKey(t, c);
      var i := IndexOf(t, c);
      assert t[i] == (c, Velocity(rows, c));
      assert t[i := (c, Velocity(rows, c))] == t;
    } else {
      assert !HasKey(t, c);
      PutAbsent(t, c, Velocity(rows, c));
    }
  }

  /** One more member of the industry: its velocity is assigned when it is
      a listed company and there are rows. */
  lemma VelocitiesStep(rows: seq<Row<int>>, members: Members, companies: seq<string>, k: nat)
    requires k < |members|
    ensures var m := members[k];
      Velocities(rows, members[..k + 1], companies) ==
        if m.Some? && m.value in companies && |rows| > 0
        then Put(Velocities(rows, members[..k], companies), m.value, ColumnTotal(rows, m.value) as real / |rows| as real)
        else Velocities(rows, members[..k], companies)
  {
    PresentStep(members, companies, k);
    var m := members[k];
    if m.Some? && m.value in companies && |rows| > 0 {
      var c := m.value;
      DedupAppend(Present(members[..k], companies), c);
      VelocityTablePut(rows, Dedup(Present(members[..k], companies)), c);
    } else if !(m.Some? && m.value in companies) {
      assert Present(members[..k + 1], companies) == Present(members[..k], companies);
    }
  }

  /** The velocity loop over an industry's names. */
  method CompanyVelocities(rows: seq<Row<int>>, members: Members, companies: seq<string>)
    returns (t: Dict<string, real>)
    ensures t == Velocities(rows, members, companies)
  {
    t := [];
    var k := 0;
    while k < |members|
      invariant 0 <= k <= |members|
      invariant t == Velocities(rows, members[..k], companies)
    {
      VelocitiesStep(rows, members, companies, k);
      var m := members[k];
      if m.Some? && m.value in companies && |rows| > 0 {
        var c := m.value;
        t := Put(t, c, ColumnTotal(rows, c) as real / |rows| as real);
      }
      k := k + 1;
    }
    assert members[..|members|] == members;
  }

  function Mean(t: Dict<string, real>): real
    requires |t| > 0
  {
    SumReal(Values(t)) / |t| as real
  }

  /** The companies hiring at 25% or more above the average, in order. */
  function AboveAverage(t: Dict<string, real>, avg: real): Dict<string, real>
  {
    if t == [] then []
    else
      var e := t[|t| - 1];
      AboveAverage(t[..|t| - 1], avg) + (if e.1 >= avg * 1.25 then [e] else [])
  }

  function VelocityKey(e: (string, real)): Ratio
  {
    Finite(e.1)
  }

  /** `percentage_above`: 100 when the average is not positive. */
  function PercentageAbove(velocity: real, avg: real): real
  {
    if avg > 0.0 then (velocity / avg - 1.0) * 100.0 else 100.0
  }

  /** The `industry_leader` insight of a velocity table: the first company
      of largest velocity among those 25% or more above the average. */
  function LeaderOf(industry: string, t: Dict<string, real>): seq<Insight>
  {
    if t == [] then []
    else
      var avg := Mean(t);
      var above := AboveAverage(t, avg);
      if above == [] then []
      else
        var top := above[FirstMaxIndex(above, VelocityKey)];
        [IndustryLeader(top.0, industry, top.1, avg, PercentageAbove(top.1, avg))]
  }

  lemma {:induction false} AboveAverageMembers(t: Dict<string, real>, avg: real, e: (string, real))
    ensures e in AboveAverage(t, avg) <==> e in t && e.1 >= avg * 1.25
  {
    if t != [] {
      var n := |t| - 1;
      AboveAverageMembers(t[..n], avg, e);
      assert t == t[..n] + [t[n]];
    }
  }

  /** A leader is a company of the table whose velocity is the largest and
      at least 1.25 times the average, reported with that average. */
  lemma LeaderSound(industry: string, t: Dict<string, real>, x: Insight)
    requires x in LeaderOf(industry, t)
    ensures |t| > 0 && x.IndustryLeader? && x.industry == industry
    ensures (x.company, x.velocity) in t
    ensures x.industryAverage == Mean(t) && x.velocity >= Mean(t) * 1.25
    ensures x.percentageAbove == PercentageAbove(x.velocity, Mean(t))
    ensures forall i | 0 <= i < |t| :: t[i].1 <= x.velocity
  {
    var avg := Mean(t);
    var above := AboveAverage(t, avg);
    var top := above[FirstMaxIndex(above, VelocityKey)];
    AboveAverageMembers(t, avg, top);
    forall i | 0 <= i < |t|
      ensures t[i].1 <= x.velocity
    {
      AboveAverageMembers(t, avg, t[i]);
    }
  }

  /** A leader is reported whenever some company reaches 1.25 times the
      average. */
  lemma LeaderComplete(industry: string, t: Dict<string, real>, i: int)
    requires 0 <= i < |t| && t[i].1 >= Mean(t) * 1.25
    ensures LeaderOf(industry, t) != []
  {
    AboveAverageMembers(t, Mean(t), t[i]);
  }

  // ---------------------------------------------------------------------
  // Industry-wide tallies

  /** `for key, count in es.items(): acc[key] = acc.get(key, 0) + count`. */
  function AddCounts(acc: Counts<string>, es: Counts<string>): Counts<string>
  {
    if es == [] then acc
    else
      var e := es[|es| - 1];
      Bump(AddCounts(acc, es[..|es| - 1]), e.0, e.1)
  }

  /** The per-company tables of an industry's names summed into one
      (`industry_skills`, `industry_locations`); a name the table lacks
      adds nothing, and a name listed twice is added twice. */
  function Merged(members: Members, table: Dict<string, Counts<string>>): Counts<string>
  {
    if members == [] then []
    else
      var m := members[|members| - 1];
      var rest := Merged(members[..|members| - 1], table);
      if m.Some? && HasKey(table, m.value) then AddCounts(rest, Get(table, m.value).value) else rest
  }

  /** The counts of `es` under key `k`. */
  function KeyTotal(es: Counts<string>, k: string): int
  {
    if es == [] then 0
    else
      var e := es[|es| - 1];
      KeyTotal(es[..|es| - 1], k) + (if e.0 == k then e.1 else 0)
  }

  /** What the industry's names count under key `k`, all tables together. */
  function MemberTotal(members: Members, table: Dict<string, Counts<string>>, k: string): int
  {
    if members == [] then 0
    else
      var m := members[|members| - 1];
      MemberTotal(members[..|members| - 1], table, k) +
      (if m.Some? && HasKey(table, m.value) then KeyTotal(Get(table, m.value).value, k) else 0)
  }

  lemma {:induction false} AddCountsGet(acc: Counts<string>, es: Counts<string>, k: string)
    ensures GetOr(AddCounts(acc, es), k, 0) == GetOr(acc, k, 0) + KeyTotal(es, k)
  {
    if es != [] {
      var n := |es| - 1;
      AddCountsGet(acc, es[..n], k);
      BumpSpec(AddCounts(acc, es[..n]), es[n].0, es[n].1);
      if es[n].0 != k {
        BumpOthers(AddCounts(acc, es[..n]), es[n].0, es[n].1, k);
      }
    }
  }

  lemma {:induction false} AddCountsKeys(acc: Counts<string>, es: Counts<string>)
    ensures SetOf(Keys(AddCounts(acc, es))) == SetOf(Keys(acc)) + SetOf(Keys(es))
    ensures IsDict(acc) ==> IsDict(AddCounts(acc, es))
  {
    if es != [] {
      var n := |es| - 1;
      AddCountsKeys(acc, es[..n]);
      BumpSpec(AddCounts(acc, es[..n]), es[n].0, es[n].1);
      assert Keys(es) == Keys(es[..n]) + [es[n].0];
      assert SetOf(Keys(es[..n]) + [es[n].0]) == SetOf(Keys(es[..n])) + {es[n].0};
    }
  }

  /** The merged table gives every key the sum of its counts over the
      industry's names. */
  lemma {:induction false} MergedGet(members: Members, table: Dict<string, Counts<string>>, k: string)
    ensures GetOr(Merged(members, table), k, 0) == MemberTotal(members, table, k)
  {
    if members != [] {
      var n := |members| - 1;
      MergedGet(members[..n], table, k);
      var m := members[n];
      if m.Some? && HasKey(table, m.value) {
        AddCountsGet(Merged(members[..n], table), Get(table, m.value).value, k);
      }
    }
  }

  /** Its keys are those of the names' tables, each once. */
  lemma {:induction false} MergedKeys(members: Members, table: Dict<string, Counts<string>>, k: string)
    ensures IsDict(Merged(members, table))
    ensures HasKey(Merged(members, table), k) <==>
      exists i | 0 <= i < |members| ::
        members[i].Some? && HasKey(table, members[i].value) && HasKey(Get(table, members[i].value).value, k)
  {
    if members != [] {
      var n := |members| - 1;
      MergedKeys(members[..n], table, k);
      assert forall i | 0 <= i < n :: members[..n][i] == members[i];
      var m := members[n];
      if m.Some? && HasKey(table, m.value) {
        AddCountsKeys(Merged(members[..n], table), Get(table, m.value).value);
        assert k in SetOf(Keys(Merged(members, table))) <==> k in Keys(Merged(members, table));
        assert k in SetOf(Keys(Merged(members[..n], table))) <==> k in Keys(Merged(members[..n], table));
        assert k in SetOf(Keys(Get(table, m.value).value)) <==> k in Keys(Get(table, m.value).value);
      }
    } else {
      assert IsDict<string, int>([]) by {
        assert Keys<string, int>([]) == [];
      }
    }
  }

  lemma AddCountsStep(acc: Counts<string>, es: Counts<string>, j: nat)
    requires j < |es|
    ensures AddCounts(acc, es[..j + 1]) == Bump(AddCounts(acc, es[..j]), es[j].0, es[j].1)
  {
    assert es[..j + 1][..j] == es[..j];
  }

  lemma MergedStep(members: Members, table: Dict<string, Counts<string>>, k: nat)
    requires k < |members|
    ensures Merged(members[..k + 1], table) ==
      var m := members[k];
      if m.Some? && HasKey(table, m.value) then AddCounts(Merged(members[..k], table), Get(table, m.value).value)
      else Merged(members[..k], table)
  {
    assert members[..k + 1][..k] == members[..k];
  }

  /** The inner loop: one company's table added into the industry's. */
  method AddCompany(acc: Counts<string>, es: Counts<string>) returns (r: Counts<string>)
    ensures r == AddCounts(acc, es)
  {
    r := acc;
    var j := 0;
    while j < |es|
      invariant 0 <= j <= |es|
      invariant r == AddCounts(acc, es[..j])
    {
      AddCountsStep(acc, es, j);
      r := Bump(r, es[j].0, es[j].1);
      j := j + 1;
    }
    assert es[..|es|] == es;
  }

  method MergeCounts(members: Members, table: Dict<string, Counts<string>>) returns (merged: Counts<string>)
    ensures merged == Merged(members, table)
  {
    merged := [];
    var k := 0;
    while k < |members|
      invariant 0 <= k <= |members|
      invariant merged == Merged(members[..k], table)
    {
      MergedStep(members, table, k);
      var m := members[k];
      if m.Some? && HasKey(table, m.value) {
        merged := AddCompany(merged, Get(table, m.value).value);
      }
      k := k + 1;
    }
    assert members[..|members|] == members;
  }

  /** `[key for key, _ in sorted(d.items(), key=lambda x: x[1], reverse=True)[:k]]`. */
  function TopKeys(d: Counts<string>, k: nat): seq<string>
  {
    Keys(Take(SortDesc(d, CountKey), k))
  }

  /** The top keys of a dict are `min(k, |d|)` of its keys, and none of
      the keys left out has a larger count than one kept. */
  lemma TopKeysOfDict(d: Counts<string>, k: nat)
    requires IsDict(d)
    ensures var top := TopKeys(d, k);
      |top| == Min(k, |d|) &&
      (forall s | s in top :: HasKey(d, s)) &&
      (forall s, u | HasKey(d, s) && s !in top && u in top :: GetOr(d, u, 0) >= GetOr(d, s, 0))
  {
    TopKSpec(d, CountKey, k);
    forall s | s in TopKeys(d, k)
      ensures HasKey(d, s)
    {
      TopKeyPresent(d, k, s);
    }
    forall s, u | HasKey(d, s) && s !in TopKeys(d, k) && u in TopKeys(d, k)
      ensures GetOr(d, u, 0) >= GetOr(d, s, 0)
    {
      TopKeyDominates(d, k, s, u);
    }
  }

  /** A top key is a key of the dict. */
  lemma TopKeyPresent(d: Counts<string>, k: nat, s: string)
    requires s in TopKeys(d, k)
    ensures HasKey(d, s)
  {
    var entries := Take(SortDesc(d, CountKey), k);
    var top := TopKeys(d, k);
    TopKSpec(d, CountKey, k);
    var i :| 0 <= i < |top| && top[i] == s;
    assert entries[i] in d;
    var j :| 0 <= j < |d| && d[j] == entries[i];
    assert Keys(d)[j] == s;
  }

  /** A kept key counts at least as much as a key left out. */
  lemma TopKeyDominates(d: Counts<string>, k: nat, s: string, u: string)
    requires IsDict(d) && HasKey(d, s) && s !in TopKeys(d, k) && u in TopKeys(d, k)
    ensures GetOr(d, u, 0) >= GetOr(d, s, 0)
  {
    var entries := Take(SortDesc(d, CountKey), k);
    var top := TopKeys(d, k);
    var js := IndexOf(d, s);
    var i :| 0 <= i < |top| && top[i] == u;
    var e := entries[i];
    assert d[js] !in entries by {
      assert forall l | 0 <= l < |entries| :: entries[l].0 == top[l];
      assert d[js].0 == s;
    }
    TopKSpec(d, CountKey, k);
    assert e in d;
    var ju :| 0 <= ju < |d| && d[ju] == e;
    GetAtIndex(d, js);
    GetAtIndex(d, ju);
    assert CountKey(e) >= CountKey(d[js]);
  }

  /** For a merged table, the totals are the industry's. */
  lemma TopKeysSpec(members: Members, table: Dict<string, Counts<string>>, k: nat)
    ensures var d := Merged(members, table);
      var top := TopKeys(d, k);
      |top| == Min(k, |d|) &&
      (forall s | s in top :: HasKey(d, s)) &&
      (forall s, u | HasKey(d, s) && s !in top && u in top ::
        MemberTotal(members, table, u) >= MemberTotal(members, table, s))
  {
    var d := Merged(members, table);
    MergedKeys(members, table, "");
    TopKeysOfDict(d, k);
    forall s, u | HasKey(d, s) && s !in TopKeys(d, k) && u in TopKeys(d, k)
      ensures MemberTotal(members, table, u) >= MemberTotal(members, table, s)
    {
      MergedGet(members, table, s);
      MergedGet(members, table, u);
    }
  }

  // ---------------------------------------------------------------------
  // Industry-specific skill

  /** How many of the names (repetitions included) list `skill`. */
  function HavingCount(members: Members, table: Dict<string, Counts<string>>, skill: string): (n: nat)
    ensures n <= |members|
  {
    if members == [] then 0
    else
      var m := members[|members| - 1];
      HavingCount(members[..|members| - 1], table, skill) +
      (if m.Some? && HasKey(table, m.value) && HasKey(Get(table, m.value).value, skill) then 1 else 0)
  }

  /** The share of the names that list `skill`; 0 for no names. */
  function Prevalence(members: Members, table: Dict<string, Counts<string>>, skill: string): real
  {
    if |members| > 0 then HavingCount(members, table, skill) as real / |members| as real else 0.0
  }

  /** `industry_prevalence / max(0.01, other_prevalence)`, infinite when
      no company of another industry lists the skill. */
  function RatioOf(prevalence: real, other: real): Ratio
  {
    if other > 0.0 then Finite(prevalence / MaxReal(0.01, other)) else Infinite
  }

  predicate Specific(prevalence: real, ratio: Ratio)
  {
    prevalence >= 0.4 && AtMost(Finite(2.0), ratio)
  }

  /** The names of every other industry, in dict order. Only how many of
      them there are, and how many list a skill, is ever used. */
  function Others(groups: Dict<string, Members>, industry: string): Members
  {
    if groups == [] then []
    else
      var g := groups[|groups| - 1];
      Others(groups[..|groups| - 1], industry) + (if g.0 != industry then g.1 else [])
  }

  function SkillRatio(members: Members, others: Members, table: Dict<string, Counts<string>>, skill: string): Ratio
  {
    RatioOf(Prevalence(members, table, skill), Prevalence(others, table, skill))
  }

  /** `industry_specific`: each skill of the industry's table, in its
      order, that at least 40% of the industry's names list and that is at
      least twice as prevalent there as elsewhere, with its ratio. */
  function SpecificCandidates(skills: Counts<string>, members: Members, others: Members,
                              table: Dict<string, Counts<string>>): seq<(string, Ratio)>
  {
    if skills == [] then []
    else
      var skill := skills[|skills| - 1].0;
      var ratio := SkillRatio(members, others, table, skill);
      SpecificCandidates(skills[..|skills| - 1], members, others, table) +
      (if Specific(Prevalence(members, table, skill), ratio) then [(skill, ratio)] else [])
  }

  function RatioKey(e: (string, Ratio)): Ratio
  {
    e.1
  }

  /** The `industry_specific_skill` insight: the first candidate of
      largest ratio. */
  function SpecificOf(industry: string, candidates: seq<(string, Ratio)>): seq<Insight>
  {
    if candidates == [] then []
    else [IndustrySpecificSkill(industry, candidates[FirstMaxIndex(candidates, RatioKey)].0)]
  }

  lemma {:induction false} SpecificCandidatesMembers(skills: Counts<string>, members: Members, others: Members,
                                                      table: Dict<string, Counts<string>>, e: (string, Ratio))
    ensures e in SpecificCandidates(skills, members, others, table) <==>
      e.0 in Keys(skills) && e.1 == SkillRatio(members, others, table, e.0) &&
      Specific(Prevalence(members, table, e.0), e.1)
  {
    if skills != [] {
      var n := |skills| - 1;
      SpecificCandidatesMembers(skills[..n], members, others, table, e);
      assert Keys(skills) == Keys(skills[..n]) + [skills[n].0];
    }
  }

  method SpecificLoop(skills: Counts<string>, members: Members, others: Members, table: Dict<string, Counts<string>>)
    returns (candidates: seq<(string, Ratio)>)
    ensures candidates == SpecificCandidates(skills, members, others, table)
  {
    candidates := [];
    var i := 0;
    while i < |skills|
      invariant 0 <= i <= |skills|
      invariant candidates == SpecificCandidates(skills[..i], members, others, table)
    {
      assert skills[..i + 1][..i] == skills[..i];
      var skill := skills[i].0;
      var industryPrevalence := Prevalence(members, table, skill);
      var otherPrevalence := Prevalence(others, table, skill);
      var ratio := if otherPrevalence > 0.0 then Finite(industryPrevalence / MaxReal(0.01, otherPrevalence)) else Infinite;
      if industryPrevalence >= 0.4 && AtMost(Finite(2.0), ratio) {
        candidates := candidates + [(skill, ratio)];
      }
      i := i + 1;
    }
    assert skills[..|skills|] == skills;
  }

  /** The specific skill is a skill of the table that qualifies and whose
      ratio no other qualifying skill exceeds. */
  lemma SpecificSound(industry: string, skills: Counts<string>, members: Members, others: Members,
                      table: Dict<string, Counts<string>>, x: Insight)
    requires x in SpecificOf(industry, SpecificCandidates(skills, members, others, table))
    ensures x.IndustrySpecificSkill? && x.industry == industry && x.skill in Keys(skills)
    ensures Specific(Prevalence(members, table, x.skill), SkillRatio(members, others, table, x.skill))
    ensures forall s | s in Keys(skills) && Specific(Prevalence(members, table, s), SkillRatio(members, others, table, s)) ::
      AtMost(SkillRatio(members, others, table, s), SkillRatio(members, others, table, x.skill))
  {
    var cands := SpecificCandidates(skills, members, others, table);
    var top := cands[FirstMaxIndex(cands, RatioKey)];
    SpecificCandidatesMembers(skills, members, others, table, top);
    forall s | s in Keys(skills) && Specific(Prevalence(members, table, s), SkillRatio(members, others, table, s))
      ensures AtMost(SkillRatio(members, others, table, s), SkillRatio(members, others, table, x.skill))
    {
      var e := (s, SkillRatio(members, others, table, s));
      SpecificCandidatesMembers(skills, members, others, table, e);
      var j :| 0 <= j < |cands| && cands[j] == e;
      assert AtMost(RatioKey(cands[j]), RatioKey(top));
    }
  }

  /** It is reported whenever some skill of the table qualifies. */
  lemma SpecificComplete(industry: string, skills: Counts<string>, members: Members, others: Members,
                         table: Dict<string, Counts<string>>, s: string)
    requires s in Keys(skills) && Specific(Prevalence(members, table, s), SkillRatio(members, others, table, s))
    ensures SpecificOf(industry, SpecificCandidates(skills, members, others, table)) != []
  {
    SpecificCandidatesMembers(skills, members, others, table, (s, SkillRatio(members, others, table, s)));
  }

  /** A skill no company of another industry lists has an infinite ratio,
      so it qualifies as soon as 40% of the industry lists it. */
  lemma UnsharedSkillQualifies(members: Members, others: Members, table: Dict<string, Counts<string>>, s: string)
    requires HavingCount(others, table, s) == 0 && Prevalence(members, table, s) >= 0.4
    ensures SkillRatio(members, others, table, s) == Infinite
    ensures Specific(Prevalence(members, table, s), SkillRatio(members, others, table, s))
  {
  }

  // ---------------------------------------------------------------------
  // The analysis

  /** `industry_skills` and `industry_specific_skill`. */
  function SkillInsights(industry: string, members: Members, others: Members,
                         table: Dict<string, Counts<string>>): seq<Insight>
  {
    var merged := Merged(members, table);
    if merged == [] then []
    else [IndustrySkills(industry, TopKeys(merged, 5))] + SpecificOf(industry, SpecificCandidates(merged, members, others, table))
  }

  /** `industry_hubs`. */
  function HubInsights(industry: string, members: Members, table: Dict<string, Counts<string>>): seq<Insight>
  {
    var merged := Merged(members, table);
    if merged == [] then [] else [IndustryHubs(industry, TopKeys(merged, 3))]
  }

  /** Looking up the company list with a velocity series but no company
      list raises a KeyError, which the handler turns into `{}`; the lookup
      happens at the first industry with two or more names. */
  predicate Raises(inp: AnalysisInput, groups: Dict<string, Members>)
  {
    inp.hiringVelocity.Some? && inp.companies.None? &&
    exists i | 0 <= i < |groups| :: |groups[i].1| >= 2
  }

  /** `industry_leader`; with a velocity series but no company list the
      lookup raises instead (see `Raises`). */
  function LeaderPartOf(inp: AnalysisInput, industry: string, members: Members): seq<Insight>
  {
    if inp.hiringVelocity.Some? && inp.companies.Some?
    then LeaderOf(industry, Velocities(inp.hiringVelocity.value, members, inp.companies.value))
    else []
  }

  function SkillPartOf(inp: AnalysisInput, groups: Dict<string, Members>, industry: string, members: Members): seq<Insight>
  {
    if inp.skillsByCompany.Some?
    then SkillInsights(industry, members, Others(groups, industry), inp.skillsByCompany.value)
    else []
  }

  function HubPartOf(inp: AnalysisInput, industry: string, members: Members): seq<Insight>
  {
    if inp.locationsByCompany.Some? then HubInsights(industry, members, inp.locationsByCompany.value) else []
  }

  /** The insights of one industry; none when it has fewer than two names. */
  function IndustryFor(inp: AnalysisInput, groups: Dict<string, Members>, industry: string, members: Members): seq<Insight>
  {
    if |members| < 2 then []
    else LeaderPartOf(inp, industry, members) + SkillPartOf(inp, groups, industry, members) + HubPartOf(inp, industry, members)
  }

  /** What `analyze_industry_trends` returns: every industry, in order of
      first mention, with its insights. */
  function IndustryTrendsOf(inp: AnalysisInput, records: seq<CompanyRecord>): Dict<string, seq<Insight>>
  {
    EntriesOf(inp, Grouped(records))
  }

  /** The entries for the grouped records, or none when the lookup raises. */
  function EntriesOf(inp: AnalysisInput, groups: Dict<string, Members>): Dict<string, seq<Insight>>
  {
    if Raises(inp, groups) then []
    else seq(|groups|, i requires 0 <= i < |groups| => IndustryEntry(inp, groups, i))
  }

  /** The entry of the `i`-th industry. */
  function IndustryEntry(inp: AnalysisInput, groups: Dict<string, Members>, i: nat): (string, seq<Insight>)
    requires i < |groups|
  {
    (groups[i].0, IndustryFor(inp, groups, groups[i].0, groups[i].1))
  }

  method SkillPart(inp: AnalysisInput, groups: Dict<string, Members>, industry: string, members: Members)
    returns (insights: seq<Insight>)
    ensures insights == SkillPartOf(inp, groups, industry, members)
  {
    insights := [];
    if inp.skillsByCompany.None? {
      return;
    }
    var table := inp.skillsByCompany.value;
    var merged := MergeCounts(members, table);
    if merged != [] {
      insights := [IndustrySkills(industry, TopKeys(merged, 5))];
      var candidates := SpecificLoop(merged, members, Others(groups, industry), table);
      if candidates != [] {
        insights := insights + [IndustrySpecificSkill(industry, candidates[FirstMaxIndex(candidates, RatioKey)].0)];
      }
    }
  }

  method HubPart(inp: AnalysisInput, industry: string, members: Members) returns (insights: seq<Insight>)
    ensures insights == HubPartOf(inp, industry, members)
  {
    insights := [];
    if inp.locationsByCompany.None? {
      return;
    }
    var merged := MergeCounts(members, inp.locationsByCompany.value);
    if merged != [] {
      insights := [IndustryHubs(industry, TopKeys(merged, 3))];
    }
  }

  method LeaderPart(inp: AnalysisInput, industry: string, members: Members) returns (insights: seq<Insight>)
    ensures insights == LeaderPartOf(inp, industry, members)
  {
    insights := [];
    if inp.hiringVelocity.None? || inp.companies.None? {
      return;
    }
    var t := CompanyVelocities(inp.hiringVelocity.value, members, inp.companies.value);
    insights := LeaderOf(industry, t);
  }

  method AnalyzeIndustry(inp: AnalysisInput, groups: Dict<string, Members>, industry: string, members: Members)
    returns (insights: seq<Insight>)
    ensures insights == IndustryFor(inp, groups, industry, members)
  {
    insights := [];
    if |members| < 2 {
      return;
    }
    var leader := LeaderPart(inp, industry, members);
    var skills := SkillPart(inp, groups, industry, members);
    var hubs := HubPart(inp, industry, members);
    insights := leader + skills + hubs;
  }

  method AnalyzeIndustryTrends(inp: AnalysisInput, records: seq<CompanyRecord>)
    returns (result: Dict<string, seq<Insight>>)
    ensures result == IndustryTrendsOf(inp, records)
  {
    var groups := GroupByIndustry(records);
    result := AnalyzeGroups(inp, groups);
  }

  /** The loop over industries, in order of first mention. */
  method AnalyzeGroups(inp: AnalysisInput, groups: Dict<string, Members>) returns (result: Dict<string, seq<Insight>>)
    ensures result == EntriesOf(inp, groups)
  {
    result := [];
    var i := 0;
    while i < |groups|
      invariant 0 <= i <= |groups|
      invariant forall j | 0 <= j < i :: !(inp.hiringVelocity.Some? && inp.companies.None? && |groups[j].1| >= 2)
      invariant |result| == i
      invariant forall j | 0 <= j < i :: result[j] == IndustryEntry(inp, groups, j)
    {
      ghost var before := result;
      if |groups[i].1| >= 2 && inp.hiringVelocity.Some? && inp.companies.None? {
        assert Raises(inp, groups);
        return [];
      }
      var entry := AnalyzeEntry(inp, groups, i);
      result := result + [entry];
      assert forall j | 0 <= j < i :: result[j] == before[j];
      i := i + 1;
    }
    assert !Raises(inp, groups);
    ghost var expected := EntriesOf(inp, groups);
    assert |expected| == |groups|;
    assert forall j | 0 <= j < |groups| :: expected[j] == IndustryEntry(inp, groups, j);
  }

  /** One iteration of the loop over industries. */
  method AnalyzeEntry(inp: AnalysisInput, groups: Dict<string, Members>, i: nat) returns (entry: (string, seq<Insight>))
    requires i < |groups|
    ensures entry == IndustryEntry(inp, groups, i)
  {
    var (industry, members) := groups[i];
    var insights := AnalyzeIndustry(inp, groups, industry, members);
    entry := (industry, insights);
  }

  /** Unless the lookup raises, every industry some record carries has an
      entry, holding the insights of exactly that industry's names. */
  lemma IndustryEntries(inp: AnalysisInput, records: seq<CompanyRecord>, industry: string)
    ensures var result := IndustryTrendsOf(inp, records);
      HasKey(result, industry) <==>
        !Raises(inp, Grouped(records)) &&
        exists i | 0 <= i < |records| :: records[i].industry == Some(industry) && industry != ""
    ensures var result := IndustryTrendsOf(inp, records);
      HasKey(result, industry) ==>
        Get(result, industry) == Some(IndustryFor(inp, Grouped(records), industry, MembersOf(records, industry)))
  {
    var groups := Grouped(records);
    var result := IndustryTrendsOf(inp, records);
    GroupedKeys(records, industry);
    if !Raises(inp, groups) {
      assert Keys(result) == Keys(groups);
      if HasKey(result, industry) {
        var i := IndexOf(result, industry);
        assert Keys(groups)[i] == industry;
        assert groups[i].1 == MembersOf(records, industry);
      }
    }
  }

  /** An industry with fewer than two names gets no insights. */
  lemma SmallIndustryEmpty(inp: AnalysisInput, groups: Dict<string, Members>, industry: string, members: Members)
    requires |members| < 2
    ensures IndustryFor(inp, groups, industry, members) == []
  {
  }

  /** Every insight of an industry is about that industry. */
  lemma IndustryInsightsTagged(inp: AnalysisInput, groups: Dict<string, Members>, industry: string, members: Members, x: Insight)
    requires x in IndustryFor(inp, groups, industry, members)
    ensures x.IndustryLeader? || x.IndustrySkills? || x.IndustrySpecificSkill? || x.IndustryHubs?
    ensures x.industry == industry
  {
    var leader := LeaderPartOf(inp, industry, members);
    var skills := SkillPartOf(inp, groups, industry, members);
    var hubs := HubPartOf(inp, industry, members);
    assert x in leader || x in skills || x in hubs;
    if x in leader {
      LeaderSound(industry, Velocities(inp.hiringVelocity.value, members, inp.companies.value), x);
    } else if x in skills {
      var table := inp.skillsByCompany.value;
      var merged := Merged(members, table);
      if x !in [IndustrySkills(industry, TopKeys(merged, 5))] {
        SpecificSound(industry, merged, members, Others(groups, industry), table, x);
      }
    }
  }

  /** Where an insight kind comes in an industry's list. */
  function Stage(x: Insight): int
  {
    match x
    case IndustryLeader(_, _, _, _, _) => 0
    case IndustrySkills(_, _) => 1
    case IndustrySpecificSkill(_, _) => 2
    case IndustryHubs(_, _) => 3
    case _ => 4
  }

  predicate Staged(r: seq<Insight>)
  {
    forall i, j | 0 <= i < j < |r| :: Stage(r[i]) < Stage(r[j])
  }

  lemma StagedConcat(a: seq<Insight>, b: seq<Insight>)
    requires Staged(a) && Staged(b)
    requires forall i, j | 0 <= i < |a| && 0 <= j < |b| :: Stage(a[i]) < Stage(b[j])
    ensures Staged(a + b)
  {
    forall i, j | 0 <= i < j < |a + b|
      ensures Stage((a + b)[i]) < Stage((a + b)[j])
    {
      if j < |a| {
      } else if i >= |a| {
        assert (a + b)[i] == b[i - |a|] && (a + b)[j] == b[j - |a|];
      } else {
        assert (a + b)[j] == b[j - |a|];
      }
    }
  }

  /** The leader part holds at most the one leader. */
  lemma LeaderPartShape(inp: AnalysisInput, industry: string, members: Members)
    ensures var l := LeaderPartOf(inp, industry, members);
            |l| <= 1 && forall x | x in l :: x.IndustryLeader?
  {
  }

  /** The skill part holds at most the top-skills insight, with at most
      five skills, followed by at most the one specific skill. */
  lemma SkillPartShape(inp: AnalysisInput, groups: Dict<string, Members>, industry: string, members: Members)
    ensures var s := SkillPartOf(inp, groups, industry, members);
            |s| <= 2 && (s != [] ==> s[0].IndustrySkills? && |s[0].topSkills| <= 5)
            && forall i | 1 <= i < |s| :: s[i].IndustrySpecificSkill?
  {
  }

  /** The hub part holds at most the hubs insight, with at most three
      locations. */
  lemma HubPartShape(inp: AnalysisInput, industry: string, members: Members)
    ensures var h := HubPartOf(inp, industry, members);
            |h| <= 1 && forall x | x in h :: x.IndustryHubs? && |x.topLocations| <= 3
  {
  }

  /** Three such parts in a row give a staged list of at most four. */
  lemma ShapeOfParts(l: seq<Insight>, s: seq<Insight>, h: seq<Insight>)
    requires |l| <= 1 && forall x | x in l :: x.IndustryLeader?
    requires |s| <= 2 && (s != [] ==> s[0].IndustrySkills? && |s[0].topSkills| <= 5)
    requires forall i | 1 <= i < |s| :: s[i].IndustrySpecificSkill?
    requires |h| <= 1 && forall x | x in h :: x.IndustryHubs? && |x.topLocations| <= 3
    ensures |l + s + h| <= 4 && Staged(l + s + h)
    ensures forall x | x in l + s + h ::
              (x.IndustrySkills? ==> |x.topSkills| <= 5) && (x.IndustryHubs? ==> |x.topLocations| <= 3)
  {
    assert forall i | 0 <= i < |l| :: Stage(l[i]) == 0 by {
      forall i | 0 <= i < |l| ensures Stage(l[i]) == 0 { assert l[i] in l; }
    }
    assert forall i | 0 <= i < |h| :: Stage(h[i]) == 3 by {
      forall i | 0 <= i < |h| ensures Stage(h[i]) == 3 { assert h[i] in h; }
    }
    assert forall i | 0 <= i < |s| :: Stage(s[i]) == i + 1;
    StagedConcat(l, s);
    var ls := l + s;
    assert forall i | 0 <= i < |ls| :: Stage(ls[i]) <= 2 by {
      forall i | 0 <= i < |ls| ensures Stage(ls[i]) <= 2 {
        if i < |l| { assert ls[i] == l[i]; } else { assert ls[i] == s[i - |l|]; }
      }
    }
    StagedConcat(ls, h);
  }

  /** An industry's list holds at most one insight of each kind, in the
      order leader, top skills, specific skill, hubs, with at most five
      top skills and three top locations. */
  lemma IndustryShape(inp: AnalysisInput, groups: Dict<string, Members>, industry: string, members: Members)
    ensures |IndustryFor(inp, groups, industry, members)| <= 4
    ensures Staged(IndustryFor(inp, groups, industry, members))
    ensures forall x | x in IndustryFor(inp, groups, industry, members) ::
              (x.IndustrySkills? ==> |x.topSkills| <= 5) && (x.IndustryHubs? ==> |x.topLocations| <= 3)
  {
    if |members| >= 2 {
      LeaderPartShape(inp, industry, members);
      SkillPartShape(inp, groups, industry, members);
      HubPartShape(inp, industry, members);
      ShapeOfParts(LeaderPartOf(inp, industry, members), SkillPartOf(inp, groups, industry, members),
        HubPartOf(inp, industry, members));
    }
  }

  /** The industry leader reported for an industry is one of its listed
      companies, of largest velocity, at least 1.25 times the average. */
  lemma IndustryLeaderReported(inp: AnalysisInput, groups: Dict<string, Members>, industry: string, members: Members, x: Insight)
    requires x in IndustryFor(inp, groups, industry, members) && x.IndustryLeader?
    ensures inp.hiringVelocity.Some? && inp.companies.Some? && |members| >= 2
    ensures var t := Velocities(inp.hiringVelocity.value, members, inp.companies.value);
      |t| > 0 && (x.company, x.velocity) in t && x.company in inp.companies.value &&
      x.industryAverage == Mean(t) && x.velocity >= Mean(t) * 1.25 &&
      x.percentageAbove == PercentageAbove(x.velocity, Mean(t)) &&
      forall i | 0 <= i < |t| :: t[i].1 <= x.velocity
  {
    var skills := SkillPartOf(inp, groups, industry, members);
    var hubs := HubPartOf(inp, industry, members);
    if x in skills {
      var table := inp.skillsByCompany.value;
      var merged := Merged(members, table);
      if x !in [IndustrySkills(industry, TopKeys(merged, 5))] {
        SpecificSound(industry, merged, members, Others(groups, industry), table, x);
      }
      assert false;
    }
    assert x !in hubs;
    var rows := inp.hiringVelocity.value;
    var companies := inp.companies.value;
    var t := Velocities(rows, members, companies);
    LeaderSound(industry, t, x);
    var i :| 0 <= i < |t| && t[i] == (x.company, x.velocity);
    assert x.company in Dedup(Present(members, companies));
    PresentMembers(members, companies, x.company);
  }

  lemma {:induction false} PresentMembers(members: Members, companies: seq<string>, c: string)
    requires c in SetOf(Present(members, companies))
    ensures c in companies
  {
    if members != [] {
      var n := |members| - 1;
      assert SetOf(Present(members[..n], companies) + (if members[n].Some? && members[n].value in companies then [members[n].value] else [])) == SetOf(Present(members[..n], companies)) + SetOf(if members[n].Some? && members[n].value in companies then [members[n].value] else []);
      if c in SetOf(Present(members[..n], companies)) {
        PresentMembers(members[..n], companies, c);
      }
    }
  }
}

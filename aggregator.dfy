/** `aggregate_job_data` (data_processor.py 210-306): the cross-company views
    of a processed record. Job counts are keyed by company, the per-company
    tallies are copied, each present (skill, company) pair becomes a heatmap
    cell, and every location, role and day becomes a row holding one cell
    per company, 0 where the company lacks it. A record without the `all_*`
    keys, or without any time series (the `next(iter(...))` of an empty
    dict), falls back to the all-empty result. */
module JobAggregator {
  import opened Common
  import opened Assoc
  import opened Sorting
  import opened JobProcessor

  /** One entry of `skills_heatmap_data`. */
  datatype HeatCell = HeatCell(skill: string, company: string, count: int)

  /** One entry of `location_distribution`, `role_distribution` or
      `hiring_velocity`: the row's key and one count per company. */
  datatype Row<L> = Row(key: L, cells: Counts<string>)

  datatype Aggregated = Aggregated(
    totalJobs: Dict<string, int>,
    skillsByCompany: Dict<string, Counts<string>>,
    locationsByCompany: Dict<string, Counts<string>>,
    rolesByCompany: Dict<string, Counts<string>>,
    heatmap: seq<HeatCell>,
    locationRows: seq<Row<string>>,
    roleRows: seq<Row<string>>,
    velocity: seq<Row<int>>)

  /** The result of the catch-all handler. */
  const EmptyAggregate := Aggregated([], [], [], [], [], [], [], [])

  /** `zip(companies, job_counts)`: pairs up to the shorter list. */
  function Zip(xs: seq<string>, ns: seq<int>): (r: seq<(string, int)>)
    ensures |r| == Min(|xs|, |ns|)
    ensures forall i | 0 <= i < |r| :: r[i] == (xs[i], ns[i])
  {
    if |xs| == 0 || |ns| == 0 then [] else [(xs[0], ns[0])] + Zip(xs[1..], ns[1..])
  }

  /** Company `c`'s count for `key` in `table`: 0 when the company or the
      key is absent. */
  function CellValue<L(==,!new)>(table: Dict<string, Counts<L>>, c: string, key: L): int
  {
    if HasKey(table, c) && HasKey(Get(table, c).value, key) then Get(Get(table, c).value, key).value
    else 0
  }

  /** The (company, count) assignments a row makes, in company order. */
  function CellsOf<L(==,!new)>(key: L, companies: seq<string>, table: Dict<string, Counts<L>>): (r: seq<(string, int)>)
    ensures Keys(r) == companies
    ensures forall i | 0 <= i < |r| :: r[i].1 == CellValue(table, companies[i], key)
  {
    if companies == [] then []
    else
      var n := |companies| - 1;
      CellsOf(key, companies[..n], table) + [(companies[n], CellValue(table, companies[n], key))]
  }

  function RowOf<L(==,!new)>(key: L, companies: seq<string>, table: Dict<string, Counts<L>>): Row<L>
  {
    Row(key, PutAll([], CellsOf(key, companies, table)))
  }

  function RowsOf<L(==,!new)>(keys: seq<L>, companies: seq<string>, table: Dict<string, Counts<L>>): (r: seq<Row<L>>)
    ensures |r| == |keys|
    ensures forall i | 0 <= i < |keys| :: r[i] == RowOf(keys[i], companies, table)
  {
    if keys == [] then []
    else RowsOf(keys[..|keys| - 1], companies, table) + [RowOf(keys[|keys| - 1], companies, table)]
  }

  /** The heatmap cells of one skill, in company order. */
  function HeatRow(skill: string, companies: seq<string>, table: Dict<string, Counts<string>>): seq<HeatCell>
  {
    if companies == [] then []
    else
      var c := companies[|companies| - 1];
      HeatRow(skill, companies[..|companies| - 1], table) +
      (if HasKey(table, c) && HasKey(Get(table, c).value, skill)
       then [HeatCell(skill, c, Get(Get(table, c).value, skill).value)] else [])
  }

  function Heatmap(skills: seq<string>, companies: seq<string>, table: Dict<string, Counts<string>>): seq<HeatCell>
  {
    if skills == [] then []
    else Heatmap(skills[..|skills| - 1], companies, table) + HeatRow(skills[|skills| - 1], companies, table)
  }

  /** `d2[k] = v for k, v in d.items()`, into an empty dict. */
  method CopyEntries<V>(d: Dict<string, V>) returns (r: Dict<string, V>)
    ensures r == PutAll([], d)
  {
    r := [];
    for i := 0 to |d|
      invariant r == PutAll([], d[..i])
    {
      assert d[..i + 1][..i] == d[..i];
      r := Put(r, d[i].0, d[i].1);
    }
    assert d[..|d|] == d;
  }

  /** `for company in companies: data[company] = <count or 0>`. */
  method BuildRow<L(==,!new)>(key: L, companies: seq<string>, table: Dict<string, Counts<L>>) returns (row: Row<L>)
    ensures row == RowOf(key, companies, table)
  {
    var cells: Counts<string> := [];
    for i := 0 to |companies|
      invariant cells == PutAll([], CellsOf(key, companies[..i], table))
    {
      assert companies[..i + 1][..i] == companies[..i];
      var c := companies[i];
      var v := 0;
      if HasKey(table, c) && HasKey(Get(table, c).value, key) {
        v := Get(Get(table, c).value, key).value;
      }
      cells := Put(cells, c, v);
    }
    assert companies[..|companies|] == companies;
    row := Row(key, cells);
  }

  method BuildRows<L(==,!new)>(keys: seq<L>, companies: seq<string>, table: Dict<string, Counts<L>>) returns (rows: seq<Row<L>>)
    ensures rows == RowsOf(keys, companies, table)
  {
    rows := [];
    for i := 0 to |keys|
      invariant rows == RowsOf(keys[..i], companies, table)
    {
      assert keys[..i + 1][..i] == keys[..i];
      var row := BuildRow(keys[i], companies, table);
      rows := rows + [row];
    }
    assert keys[..|keys|] == keys;
  }

  method BuildHeatmap(skills: seq<string>, companies: seq<string>, table: Dict<string, Counts<string>>)
    returns (cells: seq<HeatCell>)
    ensures cells == Heatmap(skills, companies, table)
  {
    cells := [];
    for i := 0 to |skills|
      invariant cells == Heatmap(skills[..i], companies, table)
    {
      assert skills[..i + 1][..i] == skills[..i];
      var row := BuildHeatRow(skills[i], companies, table);
      cells := cells + row;
    }
    assert skills[..|skills|] == skills;
  }

  /** The heatmap cells of one skill, company by company. */
  method BuildHeatRow(skill: string, companies: seq<string>, table: Dict<string, Counts<string>>)
    returns (cells: seq<HeatCell>)
    ensures cells == HeatRow(skill, companies, table)
  {
    cells := [];
    for j := 0 to |companies|
      invariant cells == HeatRow(skill, companies[..j], table)
    {
      assert companies[..j + 1][..j] == companies[..j];
      var c := companies[j];
      if HasKey(table, c) && HasKey(Get(table, c).value, skill) {
        cells := cells + [HeatCell(skill, c, Get(Get(table, c).value, skill).value)];
      } else {
        assert cells + [] == cells;
      }
    }
    assert companies[..|companies|] == companies;
  }

  /** `aggregate_job_data`. */
  method AggregateJobData(p: Processed) returns (a: Aggregated)
    ensures p.unions.None? || p.timeSeries == [] ==> a == EmptyAggregate
    ensures p.unions.Some? && p.timeSeries != [] ==>
      a.totalJobs == PutAll([], Zip(p.companies, p.jobCounts)) &&
      a.skillsByCompany == PutAll([], p.skills) &&
      a.locationsByCompany == PutAll([], p.locations) &&
      a.rolesByCompany == PutAll([], p.roles) &&
      a.heatmap == Heatmap(p.unions.value.allSkills, p.companies, p.skills) &&
      a.locationRows == RowsOf(p.unions.value.allLocations, p.companies, p.locations) &&
      a.roleRows == RowsOf(p.unions.value.allRoles, p.companies, p.roles) &&
      a.velocity == RowsOf(SortAsc(Keys(p.timeSeries[0].1)), p.companies, p.timeSeries)
  {
    if p.unions.None? || p.timeSeries == [] {
      return EmptyAggregate;
    }
    var totals := CopyEntries(Zip(p.companies, p.jobCounts));
    var skills := CopyEntries(p.skills);
    var locations := CopyEntries(p.locations);
    var roles := CopyEntries(p.roles);
    var heatmap := BuildHeatmap(p.unions.value.allSkills, p.companies, p.skills);
    var locationRows := BuildRows(p.unions.value.allLocations, p.companies, p.locations);
    var roleRows := BuildRows(p.unions.value.allRoles, p.companies, p.roles);
    var dates := SortAsc(Keys(p.timeSeries[0].1));
    var velocity := BuildRows(dates, p.companies, p.timeSeries);
    a := Aggregated(totals, skills, locations, roles, heatmap, locationRows, roleRows, velocity);
  }

  /** With distinct companies and parallel lists, `total_jobs_by_company`
      maps each company, in order, to its job count. */
  lemma TotalsParallel(companies: seq<string>, counts: seq<int>)
    requires NoDuplicates(companies) && |companies| == |counts|
    ensures PutAll([], Zip(companies, counts)) == Zip(companies, counts)
    ensures Keys(Zip(companies, counts)) == companies && Values(Zip(companies, counts)) == counts
  {
    var z := Zip(companies, counts);
    assert Keys(z) == companies;
    assert Values(z) == counts;
    PutAllOfDict(z);
  }

  /** Copying a dict entry by entry gives the same dict. */
  lemma CopyIsIdentity<V>(d: Dict<string, V>)
    requires IsDict(d)
    ensures PutAll([], d) == d
  {
    PutAllOfDict(d);
  }

  /** The cells of one skill's heatmap row are exactly its present
      (company, count) pairs. */
  lemma {:induction false} HeatRowMembers(skill: string, companies: seq<string>, table: Dict<string, Counts<string>>, cell: HeatCell)
    ensures cell in HeatRow(skill, companies, table) ==>
      cell.skill == skill && cell.company in companies && HasKey(table, cell.company) &&
      Get(Get(table, cell.company).value, skill) == Some(cell.count)
    ensures (cell.skill == skill && cell.company in companies && HasKey(table, cell.company) &&
             Get(Get(table, cell.company).value, skill) == Some(cell.count)) ==>
      cell in HeatRow(skill, companies, table)
  {
    if companies != [] {
      var p := companies[..|companies| - 1];
      var c := companies[|companies| - 1];
      assert companies == p + [c];
      HeatRowMembers(skill, p, table, cell);
    }
  }

  /** A heatmap cell appears exactly for a skill of the list and a company
      of the list whose skill tally has that skill, with its count. */
  lemma {:induction false} HeatmapMembers(skills: seq<string>, companies: seq<string>, table: Dict<string, Counts<string>>, cell: HeatCell)
    ensures cell in Heatmap(skills, companies, table) ==>
      cell.skill in skills && cell.company in companies && HasKey(table, cell.company) &&
      Get(Get(table, cell.company).value, cell.skill) == Some(cell.count)
    ensures (cell.skill in skills && cell.company in companies && HasKey(table, cell.company) &&
             Get(Get(table, cell.company).value, cell.skill) == Some(cell.count)) ==>
      cell in Heatmap(skills, companies, table)
  {
    if skills != [] {
      var p := skills[..|skills| - 1];
      var k := skills[|skills| - 1];
      assert skills == p + [k];
      HeatmapMembers(p, companies, table, cell);
      HeatRowMembers(k, companies, table, cell);
    }
  }

  /** With distinct companies, a row has one cell per company, in company
      order, holding the company's count or 0. */
  lemma RowCells<L(!new)>(key: L, companies: seq<string>, table: Dict<string, Counts<L>>)
    requires NoDuplicates(companies)
    ensures Keys(RowOf(key, companies, table).cells) == companies
    ensures forall j | 0 <= j < |companies| ::
      GetOr(RowOf(key, companies, table).cells, companies[j], 0) == CellValue(table, companies[j], key)
  {
    var cells := CellsOf(key, companies, table);
    PutAllOfDict(cells);
    forall j | 0 <= j < |companies|
      ensures GetOr(cells, companies[j], 0) == CellValue(table, companies[j], key)
    {
      GetAtIndex(cells, j);
    }
  }

  /** `sum(row[c] for row in rows)`. */
  function ColumnTotal<L>(rows: seq<Row<L>>, c: string): int
  {
    if rows == [] then 0 else ColumnTotal(rows[..|rows| - 1], c) + GetOr(rows[|rows| - 1].cells, c, 0)
  }

  lemma RowCellIsLookup<L(!new)>(key: L, companies: seq<string>, table: Dict<string, Counts<L>>, j: nat, t: Counts<L>)
    requires NoDuplicates(companies) && j < |companies| && Get(table, companies[j]) == Some(t)
    ensures GetOr(RowOf(key, companies, table).cells, companies[j], 0) == GetOr(t, key, 0)
  {
    RowCells(key, companies, table);
  }

  /** A column whose cells look up the row keys in `t` adds up to the sum of
      those lookups. */
  lemma {:induction false} ColumnIsLookup<L(!new)>(rows: seq<Row<L>>, keys: seq<L>, c: string, t: Counts<L>)
    requires |rows| == |keys|
    requires forall i | 0 <= i < |rows| :: GetOr(rows[i].cells, c, 0) == GetOr(t, keys[i], 0)
    ensures ColumnTotal(rows, c) == LookupSum(keys, t)
  {
    if keys != [] {
      var n := |keys| - 1;
      assert forall i | 0 <= i < n :: rows[..n][i] == rows[i] && keys[..n][i] == keys[i];
      ColumnIsLookup(rows[..n], keys[..n], c, t);
    }
  }

  /** When the row keys list every key of company `c`'s tally once, the
      column of `c` adds up to the tally's total. */
  lemma ColumnTotalIsTallyTotal<L(!new)>(keys: seq<L>, companies: seq<string>, table: Dict<string, Counts<L>>, j: nat, t: Counts<L>)
    requires NoDuplicates(companies) && j < |companies| && Get(table, companies[j]) == Some(t)
    requires NoDuplicates(keys) && IsDict(t) && SetOf(Keys(t)) <= SetOf(keys)
    ensures ColumnTotal(RowsOf(keys, companies, table), companies[j]) == SumValues(t)
  {
    var rows := RowsOf(keys, companies, table);
    forall i | 0 <= i < |rows| ensures GetOr(rows[i].cells, companies[j], 0) == GetOr(t, keys[i], 0) {
      RowCellIsLookup(keys[i], companies, table, j, t);
    }
    ColumnIsLookup(rows, keys, companies[j], t);
    LookupSumCoversAll(keys, t);
  }

  /** On a processed record, each company's column of the location
      distribution adds up to its number of listings. */
  lemma LocationColumnsSumToJobCounts(jobs: Dict<string, seq<Listing>>, allLocations: seq<string>, j: nat)
    requires IsDict(jobs) && AllWellformed(jobs) && j < |jobs|
    requires NoDuplicates(allLocations) && SetOf(allLocations) == UnionOver(jobs, LocationsOf)
    ensures ColumnTotal(RowsOf(allLocations, Keys(jobs), PerCompany(jobs, LocationTally)), jobs[j].0) == |jobs[j].1|
  {
    var table := PerCompany(jobs, LocationTally);
    var ls := jobs[j].1;
    GetAtIndex(table, j);
    TallyOfCorrect(LocationsOf(ls));
    assert forall k | 0 <= k < |ls| :: Wellformed(ls[k]);
    TalliesSumToListings(ls);
    ColumnTotalIsTallyTotal(allLocations, Keys(jobs), table, j, LocationTally(ls));
  }

  /** On a processed record, each company's column of the role
      distribution adds up to its number of listings. */
  lemma RoleColumnsSumToJobCounts(jobs: Dict<string, seq<Listing>>, allRoles: seq<string>, j: nat)
    requires IsDict(jobs) && AllWellformed(jobs) && j < |jobs|
    requires NoDuplicates(allRoles) && SetOf(allRoles) == UnionOver(jobs, Titles)
    ensures ColumnTotal(RowsOf(allRoles, Keys(jobs), PerCompany(jobs, RoleTally)), jobs[j].0) == |jobs[j].1|
  {
    var table := PerCompany(jobs, RoleTally);
    var ls := jobs[j].1;
    GetAtIndex(table, j);
    TallyOfCorrect(Titles(ls));
    assert forall k | 0 <= k < |ls| :: Wellformed(ls[k]);
    TalliesSumToListings(ls);
    ColumnTotalIsTallyTotal(allRoles, Keys(jobs), table, j, RoleTally(ls));
  }

  /** The keys of a sequence of rows. */
  function RowKeys<L>(rows: seq<Row<L>>): (r: seq<L>)
    ensures |r| == |rows| && forall i | 0 <= i < |rows| :: r[i] == rows[i].key
  {
    if rows == [] then [] else RowKeys(rows[..|rows| - 1]) + [rows[|rows| - 1].key]
  }

  /** The velocity rows are the days of the first company's series, sorted
      ascending; on a processed record those are the 30 days of the window. */
  lemma VelocityDays(jobs: Dict<string, seq<Listing>>, today: int)
    requires |jobs| > 0
    ensures var days := RowKeys(RowsOf(SortAsc(Keys(PerCompany(jobs, ls => TimeSeriesOf(ls, today))[0].1)),
                                        Keys(jobs), PerCompany(jobs, ls => TimeSeriesOf(ls, today))));
            SortedAsc(days) && multiset(days) == multiset(Window(today))
  {
    var series := PerCompany(jobs, ls => TimeSeriesOf(ls, today));
    TimeSeriesShape(jobs[0].1, today);
    assert series[0].1 == TimeSeriesOf(jobs[0].1, today);
    var sorted := SortAsc(Keys(series[0].1));
    RowKeysOfRows(sorted, Keys(jobs), series);
  }

  /** The rows built for some keys carry those keys, in order. */
  lemma RowKeysOfRows<L(!new)>(keys: seq<L>, companies: seq<string>, table: Dict<string, Counts<L>>)
    ensures RowKeys(RowsOf(keys, companies, table)) == keys
  {
    var rows := RowsOf(keys, companies, table);
    assert forall i | 0 <= i < |keys| :: RowKeys(rows)[i] == rows[i].key == keys[i];
  }
}

/** Market-shift insights. Each role of the role distribution is assigned
    to the first category one of whose keywords it mentions, and each
    location of the location distribution to the first such region; each
    company's jobs are tallied per category and per region, and a company's
    share of a category (40% or more) or of a region other than North
    America (20% or more) is reported, as are categories where the
    companies' shares diverge by 30 points or more. */
module MarketShifts {
  import opened Common
  import opened Assoc
  import opened Sorting
  import opened JobAggregator
  import opened Insights

  /** Named groups, each with its keywords, in dict order. */
  type Groups = seq<(string, seq<string>)>

  const RoleCategories: Groups := [
    ("Engineering", ["Engineer", "Developer", "Programmer", "Architect"]),
    ("Data", ["Data", "Analytics", "Scientist", "Analyst"]),
    ("Product", ["Product", "Manager", "Owner"]),
    ("Design", ["Design", "UX", "UI", "User Experience"]),
    ("Marketing", ["Marketing", "Growth", "SEO", "Content"]),
    ("Sales", ["Sales", "Account", "Business Development"]),
    ("Operations", ["Operations", "Support", "Customer Success"])
  ]

  const ShiftRegions: Groups := [
    ("North America", ["US", "USA", "United States", "Canada", "Mexico"]),
    ("Europe", ["UK", "United Kingdom", "Germany", "France", "Spain", "Italy", "Netherlands", "Sweden"]),
    ("Asia", ["China", "Japan", "India", "Singapore", "Hong Kong"]),
    ("Latin America", ["Brazil", "Argentina", "Colombia", "Chile", "Peru"]),
    ("Remote", ["Remote", "Virtual", "Work from home", "WFH"])
  ]

  // ---------------------------------------------------------------------
  // Assigning a name to a group

  /** The index of the first group one of whose keywords `name` mentions,
      ignoring case. */
  function FirstGroup(groups: Groups, name: string): Option<nat>
  {
    if groups == [] then None
    else if ContainsAnyIgnoringCase(groups[0].1, name) then Some(0)
    else match FirstGroup(groups[1..], name)
      case None => None
      case Some(i) => Some(i + 1)
  }

  /** The first-match rule, both ways: `FirstGroup` names group `g` exactly
      when `g` matches and no earlier group does, and nothing exactly when
      no group matches. */
  lemma {:induction false} FirstGroupSpec(groups: Groups, name: string, g: nat)
    ensures FirstGroup(groups, name) == Some(g) <==>
      g < |groups| && ContainsAnyIgnoringCase(groups[g].1, name) &&
      forall j | 0 <= j < g :: !ContainsAnyIgnoringCase(groups[j].1, name)
    ensures FirstGroup(groups, name) == None <==>
      forall j | 0 <= j < |groups| :: !ContainsAnyIgnoringCase(groups[j].1, name)
  {
    if groups != [] {
      FirstGroupSpec(groups[1..], name, if g > 0 then g - 1 else 0);
      assert forall j | 0 <= j < |groups| - 1 :: groups[1..][j] == groups[j + 1];
    }
  }

  /** The `for ... if any(...): assigned = category; break` loop. */
  method AssignGroup(groups: Groups, name: string) returns (r: Option<nat>)
    ensures r == FirstGroup(groups, name)
  {
    r := None;
    var i := 0;
    while i < |groups|
      invariant 0 <= i <= |groups|
      invariant forall j | 0 <= j < i :: !ContainsAnyIgnoringCase(groups[j].1, name)
    {
      if ContainsAnyIgnoringCase(groups[i].1, name) {
        r := Some(i);
        FirstGroupSpec(groups, name, i);
        return;
      }
      i := i + 1;
    }
    FirstGroupSpec(groups, name, 0);
  }

  // ---------------------------------------------------------------------
  // Tallying jobs per company and group

  /** What one distribution row adds to company `c`: its cell for `c`, once
      for every time `c` is listed. */
  function RowShare(companies: seq<string>, c: string, cells: Counts<string>): int
  {
    if companies == [] then 0
    else
      RowShare(companies[..|companies| - 1], c, cells) +
      (if companies[|companies| - 1] == c then GetOr(cells, c, 0) else 0)
  }

  /** The tally of group `g` for company `c`. */
  function GroupTotal(rows: seq<Row<string>>, groups: Groups, companies: seq<string>, c: string, g: nat): int
  {
    if rows == [] then 0
    else
      var row := rows[|rows| - 1];
      GroupTotal(rows[..|rows| - 1], groups, companies, c, g) +
      (if FirstGroup(groups, row.key) == Some(g) then RowShare(companies, c, row.cells) else 0)
  }

  function GroupVector(rows: seq<Row<string>>, groups: Groups, companies: seq<string>, c: string): (r: seq<int>)
    ensures |r| == |groups|
  {
    seq(|groups|, g requires 0 <= g < |groups| => GroupTotal(rows, groups, companies, c, g))
  }

  /** The tallies of every company of `Dedup(companies)`, the keys of the
      source's `{company: {group: 0 ...} for company in companies}`. */
  function CountTable(rows: seq<Row<string>>, groups: Groups, companies: seq<string>): (r: seq<seq<int>>)
    ensures |r| == |Dedup(companies)|
  {
    var keys := Dedup(companies);
    seq(|keys|, k requires 0 <= k < |keys| => GroupVector(rows, groups, companies, keys[k]))
  }

  function IndexIn(s: seq<string>, x: string): (k: nat)
    requires x in s
    ensures k < |s| && s[k] == x
  {
    if s[0] == x then 0 else IndexIn(s[1..], x) + 1
  }

  lemma GroupTotalStep(rows: seq<Row<string>>, groups: Groups, companies: seq<string>, c: string, g: nat, i: nat)
    requires i < |rows|
    ensures GroupTotal(rows[..i + 1], groups, companies, c, g) ==
      GroupTotal(rows[..i], groups, companies, c, g) +
      (if FirstGroup(groups, rows[i].key) == Some(g) then RowShare(companies, c, rows[i].cells) else 0)
  {
    assert rows[..i + 1][..i] == rows[..i];
  }

  lemma RowShareStep(companies: seq<string>, c: string, cells: Counts<string>, j: nat)
    requires j < |companies|
    ensures RowShare(companies[..j + 1], c, cells) ==
      RowShare(companies[..j], c, cells) + (if companies[j] == c then GetOr(cells, c, 0) else 0)
  {
    assert companies[..j + 1][..j] == companies[..j];
  }

  /** One row: `category_counts[company][category] += row[company]` for
      every listed company the row has a cell for. */
  method AddRow(table: seq<seq<int>>, keys: seq<string>, companies: seq<string>, cells: Counts<string>, g: nat)
    returns (table': seq<seq<int>>)
    requires NoDuplicates(keys) && SetOf(keys) == SetOf(companies)
    requires |table| == |keys|
    requires forall k | 0 <= k < |keys| :: g < |table[k]|
    ensures |table'| == |keys|
    ensures forall k | 0 <= k < |keys| :: |table'[k]| == |table[k]|
    ensures forall k, h | 0 <= k < |keys| && 0 <= h < |table[k]| ::
      table'[k][h] == table[k][h] + (if h == g then RowShare(companies, keys[k], cells) else 0)
  {
    table' := table;
    var j := 0;
    assert companies[..0] == [];
    assert forall k | 0 <= k < |keys| :: RowShare(companies[..0], keys[k], cells) == 0;
    while j < |companies|
      invariant 0 <= j <= |companies|
      invariant |table'| == |keys|
      invariant forall k | 0 <= k < |keys| :: |table'[k]| == |table[k]|
      invariant forall k, h | 0 <= k < |keys| && 0 <= h < |table[k]| ::
        table'[k][h] == table[k][h] + (if h == g then RowShare(companies[..j], keys[k], cells) else 0)
    {
      var company := companies[j];
      forall k | 0 <= k < |keys|
        ensures RowShare(companies[..j + 1], keys[k], cells) ==
          RowShare(companies[..j], keys[k], cells) + (if company == keys[k] then GetOr(cells, keys[k], 0) else 0)
      {
        RowShareStep(companies, keys[k], cells, j);
      }
      if HasKey(cells, company) {
        assert company in SetOf(companies);
        var k := IndexIn(keys, company);
        table' := table'[k := table'[k][g := table'[k][g] + GetOr(cells, company, 0)]];
      }
      j := j + 1;
    }
    assert companies[..|companies|] == companies;
  }

  /** The two loops that fill `category_counts` (or `region_counts`). */
  method TallyGroups(rows: seq<Row<string>>, groups: Groups, companies: seq<string>)
    returns (keys: seq<string>, table: seq<seq<int>>)
    ensures keys == Dedup(companies)
    ensures table == CountTable(rows, groups, companies)
  {
    keys := Dedup(companies);
    table := seq(|keys|, _ => seq(|groups|, _ => 0));
    var i := 0;
    assert rows[..0] == [];
    while i < |rows|
      invariant 0 <= i <= |rows|
      invariant |table| == |keys|
      invariant forall k | 0 <= k < |keys| :: |table[k]| == |groups|
      invariant forall k, h | 0 <= k < |keys| && 0 <= h < |groups| ::
        table[k][h] == GroupTotal(rows[..i], groups, companies, keys[k], h)
    {
      forall k, h | 0 <= k < |keys| && 0 <= h < |groups|
        ensures GroupTotal(rows[..i + 1], groups, companies, keys[k], h) ==
          GroupTotal(rows[..i], groups, companies, keys[k], h) +
          (if FirstGroup(groups, rows[i].key) == Some(h) then RowShare(companies, keys[k], rows[i].cells) else 0)
      {
        GroupTotalStep(rows, groups, companies, keys[k], h, i);
      }
      var category := AssignGroup(groups, rows[i].key);
      if category.Some? {
        FirstGroupSpec(groups, rows[i].key, category.value);
        table := AddRow(table, keys, companies, rows[i].cells, category.value);
      }
      i := i + 1;
    }
    assert rows[..|rows|] == rows;
    forall k | 0 <= k < |keys|
      ensures table[k] == GroupVector(rows, groups, companies, keys[k])
    {
    }
  }

  /** With each company listed once, a row adds its own cell for it. */
  lemma {:induction false} RowShareOnce(companies: seq<string>, c: string, cells: Counts<string>)
    requires NoDuplicates(companies) && c in companies
    ensures RowShare(companies, c, cells) == GetOr(cells, c, 0)
  {
    var n := |companies| - 1;
    if companies[n] == c {
      RowShareAbsent(companies[..n], c, cells);
    } else {
      RowShareOnce(companies[..n], c, cells);
    }
  }

  lemma {:induction false} RowShareAbsent(companies: seq<string>, c: string, cells: Counts<string>)
    requires c !in companies
    ensures RowShare(companies, c, cells) == 0
  {
    if companies != [] {
      RowShareAbsent(companies[..|companies| - 1], c, cells);
    }
  }

  // ---------------------------------------------------------------------
  // Shares

  /** `(count / total) * 100`. */
  function ShareOf(count: int, total: int): real
    requires total != 0
  {
    count as real / total as real * 100.0
  }

  /** `{group: (count / total) * 100 for group, count in counts.items()}`. */
  function ShareDict(names: seq<string>, v: seq<int>, total: int): (r: Dict<string, real>)
    requires total != 0 && |names| == |v|
    ensures |r| == |names|
    ensures forall g | 0 <= g < |names| :: r[g] == (names[g], ShareOf(v[g], total))
  {
    seq(|names|, g requires 0 <= g < |names| => (names[g], ShareOf(v[g], total)))
  }

  /** The companies with at least one job in a group, each with its shares
      (`category_percentages`). */
  function SharesTable(keys: seq<string>, table: seq<seq<int>>, names: seq<string>): Dict<string, Dict<string, real>>
    requires |table| == |keys|
    requires forall k | 0 <= k < |table| :: |table[k]| == |names|
  {
    if keys == [] then []
    else
      var n := |keys| - 1;
      SharesTable(keys[..n], table[..n], names) +
      (if Sum(table[n]) > 0 then [(keys[n], ShareDict(names, table[n], Sum(table[n])))] else [])
  }

  method ComputeShares(keys: seq<string>, table: seq<seq<int>>, names: seq<string>)
    returns (shares: Dict<string, Dict<string, real>>)
    requires |table| == |keys|
    requires forall k | 0 <= k < |table| :: |table[k]| == |names|
    ensures shares == SharesTable(keys, table, names)
  {
    shares := [];
    var k := 0;
    while k < |keys|
      invariant 0 <= k <= |keys|
      invariant shares == SharesTable(keys[..k], table[..k], names)
    {
      var total := Sum(table[k]);
      if total > 0 {
        var pcts := seq(|names|, g requires 0 <= g < |names| => (names[g], table[k][g] as real / total as real * 100.0));
        assert pcts == ShareDict(names, table[k], total);
        shares := shares + [(keys[k], pcts)];
      }
      assert keys[..k + 1][..k] == keys[..k];
      assert table[..k + 1][..k] == table[..k];
      k := k + 1;
    }
    assert keys[..|keys|] == keys;
    assert table[..|table|] == table;
  }

  /** Each entry of the share table is a company with some jobs, paired
      with its shares. */
  lemma {:induction false} SharesTableSound(keys: seq<string>, table: seq<seq<int>>, names: seq<string>, i: nat)
    returns (k: nat)
    requires |table| == |keys|
    requires forall k | 0 <= k < |table| :: |table[k]| == |names|
    requires i < |SharesTable(keys, table, names)|
    ensures k < |keys| && Sum(table[k]) > 0
    ensures SharesTable(keys, table, names)[i] == (keys[k], ShareDict(names, table[k], Sum(table[k])))
  {
    var n := |keys| - 1;
    var prefix := SharesTable(keys[..n], table[..n], names);
    var last := if Sum(table[n]) > 0 then [(keys[n], ShareDict(names, table[n], Sum(table[n])))] else [];
    assert SharesTable(keys, table, names) == prefix + last;
    if i < |prefix| {
      k := SharesTableSound(keys[..n], table[..n], names, i);
      assert keys[..n][k] == keys[k] && table[..n][k] == table[k];
    } else {
      k := n;
    }
  }

  /** Each company with some jobs has an entry in the share table. */
  lemma {:induction false} SharesTableComplete(keys: seq<string>, table: seq<seq<int>>, names: seq<string>, k: nat)
    returns (i: nat)
    requires |table| == |keys|
    requires forall k | 0 <= k < |table| :: |table[k]| == |names|
    requires k < |keys| && Sum(table[k]) > 0
    ensures i < |SharesTable(keys, table, names)|
    ensures SharesTable(keys, table, names)[i] == (keys[k], ShareDict(names, table[k], Sum(table[k])))
  {
    var n := |keys| - 1;
    var prefix := SharesTable(keys[..n], table[..n], names);
    var last := if Sum(table[n]) > 0 then [(keys[n], ShareDict(names, table[n], Sum(table[n])))] else [];
    assert SharesTable(keys, table, names) == prefix + last;
    if k < n {
      assert keys[..n][k] == keys[k] && table[..n][k] == table[k];
      i := SharesTableComplete(keys[..n], table[..n], names, k);
    } else {
      i := |prefix|;
    }
  }

  /** The shares of a list of counts, in order. */
  function ShareValues(v: seq<int>, total: int): (r: seq<real>)
    requires total != 0
    ensures |r| == |v|
    ensures forall g | 0 <= g < |v| :: r[g] == ShareOf(v[g], total)
  {
    if v == [] then [] else ShareValues(v[..|v| - 1], total) + [ShareOf(v[|v| - 1], total)]
  }

  lemma {:induction false} ShareSum(v: seq<int>, total: int)
    requires total != 0
    ensures SumReal(ShareValues(v, total)) == Sum(v) as real / total as real * 100.0
  {
    if v != [] {
      var n := |v| - 1;
      ShareSum(v[..n], total);
      assert ShareValues(v, total)[..n] == ShareValues(v[..n], total);
      assert Sum(v) == Sum(v[..n]) + v[n];
      var t := total as real;
      assert Sum(v) as real / t * 100.0 == Sum(v[..n]) as real / t * 100.0 + v[n] as real / t * 100.0;
    }
  }

  /** A company's shares add up to 100%. */
  lemma SharesSumTo100(names: seq<string>, v: seq<int>)
    requires |names| == |v| && Sum(v) > 0
    ensures SumReal(Values(ShareDict(names, v, Sum(v)))) == 100.0
  {
    assert Values(ShareDict(names, v, Sum(v))) == ShareValues(v, Sum(v));
    ShareSum(v, Sum(v));
    var t := Sum(v) as real;
    assert t / t == 1.0;
  }

  // ---------------------------------------------------------------------
  // Category focus and geographic shift

  function CategoryFocusOf(c: string, pcts: Dict<string, real>): seq<Insight>
  {
    if pcts == [] then []
    else
      var e := pcts[|pcts| - 1];
      CategoryFocusOf(c, pcts[..|pcts| - 1]) + (if e.1 >= 40.0 then [CategoryFocus(c, e.0, e.1)] else [])
  }

  function GeoShiftOf(c: string, pcts: Dict<string, real>): seq<Insight>
  {
    if pcts == [] then []
    else
      var e := pcts[|pcts| - 1];
      GeoShiftOf(c, pcts[..|pcts| - 1]) +
      (if e.0 != "North America" && e.1 >= 20.0 then [GeographicShift(c, e.0, e.1)] else [])
  }

  /** A focus insight comes from a category whose share is at least 40%. */
  lemma {:induction false} CategoryFocusOfSound(c: string, pcts: Dict<string, real>, x: Insight) returns (g: int)
    requires x in CategoryFocusOf(c, pcts)
    ensures 0 <= g < |pcts| && x == CategoryFocus(c, pcts[g].0, pcts[g].1) && pcts[g].1 >= 40.0
  {
    var n := |pcts| - 1;
    var e := pcts[n];
    var last := if e.1 >= 40.0 then [CategoryFocus(c, e.0, e.1)] else [];
    assert CategoryFocusOf(c, pcts) == CategoryFocusOf(c, pcts[..n]) + last;
    if x in last {
      g := n;
    } else {
      g := CategoryFocusOfSound(c, pcts[..n], x);
      assert pcts[..n][g] == pcts[g];
    }
  }

  /** Every category with a share of at least 40% gives a focus insight. */
  lemma {:induction false} CategoryFocusOfComplete(c: string, pcts: Dict<string, real>, g: int)
    requires 0 <= g < |pcts| && pcts[g].1 >= 40.0
    ensures CategoryFocus(c, pcts[g].0, pcts[g].1) in CategoryFocusOf(c, pcts)
  {
    var n := |pcts| - 1;
    var e := pcts[n];
    var last := if e.1 >= 40.0 then [CategoryFocus(c, e.0, e.1)] else [];
    assert CategoryFocusOf(c, pcts) == CategoryFocusOf(c, pcts[..n]) + last;
    if g < n {
      CategoryFocusOfComplete(c, pcts[..n], g);
      assert pcts[..n][g] == pcts[g];
    } else {
      assert last == [CategoryFocus(c, pcts[g].0, pcts[g].1)];
    }
  }

  /** A shift insight comes from a region other than North America whose
      share is at least 20%. */
  lemma {:induction false} GeoShiftOfSound(c: string, pcts: Dict<string, real>, x: Insight) returns (g: int)
    requires x in GeoShiftOf(c, pcts)
    ensures 0 <= g < |pcts| && x == GeographicShift(c, pcts[g].0, pcts[g].1)
    ensures pcts[g].0 != "North America" && pcts[g].1 >= 20.0
  {
    var n := |pcts| - 1;
    var e := pcts[n];
    var last := if e.0 != "North America" && e.1 >= 20.0 then [GeographicShift(c, e.0, e.1)] else [];
    assert GeoShiftOf(c, pcts) == GeoShiftOf(c, pcts[..n]) + last;
    if x in last {
      g := n;
    } else {
      g := GeoShiftOfSound(c, pcts[..n], x);
      assert pcts[..n][g] == pcts[g];
    }
  }

  /** Every such region gives a shift insight. */
  lemma {:induction false} GeoShiftOfComplete(c: string, pcts: Dict<string, real>, g: int)
    requires 0 <= g < |pcts| && pcts[g].0 != "North America" && pcts[g].1 >= 20.0
    ensures GeographicShift(c, pcts[g].0, pcts[g].1) in GeoShiftOf(c, pcts)
  {
    var n := |pcts| - 1;
    var e := pcts[n];
    var last := if e.0 != "North America" && e.1 >= 20.0 then [GeographicShift(c, e.0, e.1)] else [];
    assert GeoShiftOf(c, pcts) == GeoShiftOf(c, pcts[..n]) + last;
    if g < n {
      GeoShiftOfComplete(c, pcts[..n], g);
      assert pcts[..n][g] == pcts[g];
    } else {
      assert last == [GeographicShift(c, pcts[g].0, pcts[g].1)];
    }
  }

  method CompanyFocus(c: string, pcts: Dict<string, real>) returns (insights: seq<Insight>)
    ensures insights == CategoryFocusOf(c, pcts)
  {
    insights := [];
    var j := 0;
    while j < |pcts|
      invariant 0 <= j <= |pcts|
      invariant insights == CategoryFocusOf(c, pcts[..j])
    {
      var (category, percentage) := pcts[j];
      if percentage >= 40.0 {
        insights := insights + [CategoryFocus(c, category, percentage)];
      }
      assert pcts[..j + 1][..j] == pcts[..j];
      j := j + 1;
    }
    assert pcts[..|pcts|] == pcts;
  }

  method CompanyGeoShift(c: string, pcts: Dict<string, real>) returns (insights: seq<Insight>)
    ensures insights == GeoShiftOf(c, pcts)
  {
    insights := [];
    var j := 0;
    while j < |pcts|
      invariant 0 <= j <= |pcts|
      invariant insights == GeoShiftOf(c, pcts[..j])
    {
      var (region, percentage) := pcts[j];
      if region != "North America" && percentage >= 20.0 {
        insights := insights + [GeographicShift(c, region, percentage)];
      }
      assert pcts[..j + 1][..j] == pcts[..j];
      j := j + 1;
    }
    assert pcts[..|pcts|] == pcts;
  }

  method FocusLoop(shares: Dict<string, Dict<string, real>>) returns (insights: seq<Insight>)
    ensures insights == PerEntry(shares, CategoryFocusOf)
  {
    insights := [];
    var i := 0;
    while i < |shares|
      invariant 0 <= i <= |shares|
      invariant insights == PerEntry(shares[..i], CategoryFocusOf)
    {
      var focus := CompanyFocus(shares[i].0, shares[i].1);
      insights := insights + focus;
      PerEntryStep(shares, CategoryFocusOf, i);
      i := i + 1;
    }
    assert shares[..|shares|] == shares;
  }

  method GeoShiftLoop(shares: Dict<string, Dict<string, real>>) returns (insights: seq<Insight>)
    ensures insights == PerEntry(shares, GeoShiftOf)
  {
    insights := [];
    var i := 0;
    while i < |shares|
      invariant 0 <= i <= |shares|
      invariant insights == PerEntry(shares[..i], GeoShiftOf)
    {
      var shift := CompanyGeoShift(shares[i].0, shares[i].1);
      insights := insights + shift;
      PerEntryStep(shares, GeoShiftOf, i);
      i := i + 1;
    }
    assert shares[..|shares|] == shares;
  }

  // ---------------------------------------------------------------------
  // Divergent strategies

  /** `[(company, percentages.get(category, 0)) for company, percentages in
      category_percentages.items()]`. */
  function Column(shares: Dict<string, Dict<string, real>>, name: string): (r: seq<(string, real)>)
    ensures |r| == |shares|
  {
    seq(|shares|, i requires 0 <= i < |shares| => (shares[i].0, GetOr(shares[i].1, name, 0.0)))
  }

  function ShareKey(t: (string, real)): real
  {
    t.1
  }

  /** The divergence of one category: the first and the last company of
      the descending sort of the column. */
  function DivergenceOf(name: string, col: seq<(string, real)>): seq<Insight>
  {
    var sorted := SortDesc(col, ShareKey);
    if |sorted| >= 2 then
      var top := sorted[0];
      var bottom := sorted[|sorted| - 1];
      var difference := top.1 - bottom.1;
      if difference >= 30.0 && top.1 >= 25.0
      then [DivergentStrategy(name, top.0, top.1, bottom.0, bottom.1, difference)]
      else []
    else []
  }

  function DivergentFor(shares: Dict<string, Dict<string, real>>, name: string): seq<Insight>
  {
    DivergenceOf(name, Column(shares, name))
  }

  function DivergentOver(shares: Dict<string, Dict<string, real>>, names: seq<string>): seq<Insight>
  {
    PerItem(names, shares, DivergentFor)
  }

  function DivergentInsights(shares: Dict<string, Dict<string, real>>, names: seq<string>): seq<Insight>
  {
    if |shares| >= 2 then DivergentOver(shares, names) else []
  }

  method DivergentOne(shares: Dict<string, Dict<string, real>>, name: string) returns (insights: seq<Insight>)
    ensures insights == DivergentFor(shares, name)
  {
    insights := [];
    var col := Column(shares, name);
    var sorted := SortDesc(col, ShareKey);
    if |sorted| >= 2 {
      var (topCompany, topPercentage) := sorted[0];
      var (bottomCompany, bottomPercentage) := sorted[|sorted| - 1];
      var difference := topPercentage - bottomPercentage;
      if difference >= 30.0 && topPercentage >= 25.0 {
        insights := [DivergentStrategy(name, topCompany, topPercentage, bottomCompany, bottomPercentage, difference)];
      }
    }
  }

  method DivergentLoop(shares: Dict<string, Dict<string, real>>, names: seq<string>) returns (insights: seq<Insight>)
    ensures insights == DivergentInsights(shares, names)
  {
    insights := [];
    if |shares| < 2 {
      return;
    }
    var k := 0;
    while k < |names|
      invariant 0 <= k <= |names|
      invariant insights == DivergentOver(shares, names[..k])
    {
      PerItemStep(names, shares, DivergentFor, k);
      var one := DivergentOne(shares, names[k]);
      insights := insights + one;
      k := k + 1;
    }
    assert names[..|names|] == names;
  }


  /** The first element of the descending sort holds the column's largest
      share and the last one its smallest. */
  lemma SortedExtremes(col: seq<(string, real)>)
    requires |col| >= 2
    ensures var sorted := SortDesc(col, ShareKey);
      sorted[0] in col && sorted[|sorted| - 1] in col &&
      forall i | 0 <= i < |col| :: sorted[|sorted| - 1].1 <= col[i].1 <= sorted[0].1
  {
    var sorted := SortDesc(col, ShareKey);
    var top, bottom := SortDescEnds(col, ShareKey);
    assert sorted[0] in col by {
      assert col[top] == sorted[0];
    }
    assert sorted[|sorted| - 1] in col by {
      assert col[bottom] == sorted[|sorted| - 1];
    }
    forall i | 0 <= i < |col|
      ensures sorted[|sorted| - 1].1 <= col[i].1 <= sorted[0].1
    {
      SortDescBounds(col, ShareKey, i);
    }
  }

  /** Column `col` has its largest share at `i` and its smallest at `j`. */
  predicate Extremes(col: seq<(string, real)>, i: int, j: int)
  {
    0 <= i < |col| && 0 <= j < |col| &&
    forall l | 0 <= l < |col| :: col[j].1 <= col[l].1 <= col[i].1
  }

  /** A category diverges only when there are at least two companies and
      the largest share is at least 25% and at least 30 points above the
      smallest. */
  lemma DivergenceSound(name: string, col: seq<(string, real)>) returns (i: int, j: int)
    requires DivergenceOf(name, col) != []
    ensures |col| >= 2 && Extremes(col, i, j) && col[i].1 - col[j].1 >= 30.0 && col[i].1 >= 25.0
  {
    var sorted := SortDesc(col, ShareKey);
    i, j := SortDescEnds(col, ShareKey);
    forall l | 0 <= l < |col|
      ensures col[j].1 <= col[l].1 <= col[i].1
    {
      SortDescBounds(col, ShareKey, l);
    }
  }

  /** And it always diverges then. */
  lemma DivergenceComplete(name: string, col: seq<(string, real)>, i: int, j: int)
    requires |col| >= 2 && Extremes(col, i, j) && col[i].1 - col[j].1 >= 30.0 && col[i].1 >= 25.0
    ensures DivergenceOf(name, col) != []
  {
    var sorted := SortDesc(col, ShareKey);
    var lt, lb := SortDescEnds(col, ShareKey);
    SortDescBounds(col, ShareKey, i);
    SortDescBounds(col, ShareKey, j);
    assert sorted[0].1 <= col[i].1 <= sorted[0].1;
    assert sorted[|col| - 1].1 <= col[j].1 <= sorted[|col| - 1].1;
  }

  /** The insight names a company with the largest share and one with the
      smallest, and their difference. */
  lemma DivergenceNamesExtremes(name: string, col: seq<(string, real)>, x: Insight)
    requires x in DivergenceOf(name, col)
    ensures x.DivergentStrategy? && x.category == name &&
      (x.topCompany, x.topPercentage) in col && (x.bottomCompany, x.bottomPercentage) in col &&
      x.difference == x.topPercentage - x.bottomPercentage &&
      forall l | 0 <= l < |col| :: x.bottomPercentage <= col[l].1 <= x.topPercentage
  {
    SortedExtremes(col);
  }

  // ---------------------------------------------------------------------
  // The analysis

  function RoleShiftInsights(companies: seq<string>, rows: seq<Row<string>>): seq<Insight>
  {
    var shares := SharesOf(rows, RoleCategories, companies);
    PerEntry(shares, CategoryFocusOf) + DivergentInsights(shares, Keys(RoleCategories))
  }

  function GeoShiftInsights(companies: seq<string>, rows: seq<Row<string>>): seq<Insight>
  {
    PerEntry(SharesOf(rows, ShiftRegions, companies), GeoShiftOf)
  }

  /** What `detect_market_shifts` returns. A distribution without a company
      list raises a KeyError that the handler turns into an empty result. */
  function MarketShiftInsights(inp: AnalysisInput): seq<Insight>
  {
    if (inp.roleDistribution.Some? || inp.locationDistribution.Some?) && inp.companies.None? then []
    else
      (if inp.roleDistribution.Some? then RoleShiftInsights(inp.companies.value, inp.roleDistribution.value) else []) +
      (if inp.locationDistribution.Some? then GeoShiftInsights(inp.companies.value, inp.locationDistribution.value) else [])
  }

  method RoleShifts(companies: seq<string>, rows: seq<Row<string>>) returns (insights: seq<Insight>)
    ensures insights == RoleShiftInsights(companies, rows)
  {
    var keys, table := TallyGroups(rows, RoleCategories, companies);
    var shares := ComputeShares(keys, table, Keys(RoleCategories));
    var focus := FocusLoop(shares);
    var divergent := DivergentLoop(shares, Keys(RoleCategories));
    insights := focus + divergent;
  }

  method GeoShifts(companies: seq<string>, rows: seq<Row<string>>) returns (insights: seq<Insight>)
    ensures insights == GeoShiftInsights(companies, rows)
  {
    var keys, table := TallyGroups(rows, ShiftRegions, companies);
    var shares := ComputeShares(keys, table, Keys(ShiftRegions));
    insights := GeoShiftLoop(shares);
  }

  method DetectMarketShifts(inp: AnalysisInput) returns (insights: seq<Insight>)
    ensures insights == MarketShiftInsights(inp)
  {
    if (inp.roleDistribution.Some? || inp.locationDistribution.Some?) && inp.companies.None? {
      return [];
    }
    var roles: seq<Insight> := [];
    if inp.roleDistribution.Some? {
      roles := RoleShifts(inp.companies.value, inp.roleDistribution.value);
    }
    var geo: seq<Insight> := [];
    if inp.locationDistribution.Some? {
      geo := GeoShifts(inp.companies.value, inp.locationDistribution.value);
    }
    insights := roles + geo;
  }


  /** The share table built from the tallies of `rows`. */
  function SharesOf(rows: seq<Row<string>>, groups: Groups, companies: seq<string>): Dict<string, Dict<string, real>>
  {
    SharesTable(Dedup(companies), CountTable(rows, groups, companies), Keys(groups))
  }

  /** Every entry of the share table is a listed company with some jobs,
      paired with its shares. */
  lemma SharesOfEntry(rows: seq<Row<string>>, groups: Groups, companies: seq<string>, i: int)
    requires 0 <= i < |SharesOf(rows, groups, companies)|
    ensures var e := SharesOf(rows, groups, companies)[i];
      var v := GroupVector(rows, groups, companies, e.0);
      e.0 in companies && Sum(v) > 0 && e.1 == ShareDict(Keys(groups), v, Sum(v))
  {
    var keys := Dedup(companies);
    var table := CountTable(rows, groups, companies);
    var e := SharesOf(rows, groups, companies)[i];
    assert e in SharesOf(rows, groups, companies);
    var k := SharesTableSound(keys, table, Keys(groups), i);
    assert keys[k] in SetOf(keys);
  }

  /** Every listed company with some jobs has an entry in the share table. */
  lemma SharesOfHas(rows: seq<Row<string>>, groups: Groups, companies: seq<string>, c: string) returns (i: int)
    requires c in companies && Sum(GroupVector(rows, groups, companies, c)) > 0
    ensures 0 <= i < |SharesOf(rows, groups, companies)|
    ensures var v := GroupVector(rows, groups, companies, c);
      SharesOf(rows, groups, companies)[i] == (c, ShareDict(Keys(groups), v, Sum(v)))
  {
    var keys := Dedup(companies);
    var table := CountTable(rows, groups, companies);
    var v := GroupVector(rows, groups, companies, c);
    assert c in SetOf(companies);
    var k := IndexIn(keys, c);
    assert table[k] == v;
    i := SharesTableComplete(keys, table, Keys(groups), k);
  }

  /** A category focus is reported for `c` only when `c` is listed, has
      jobs in some category, and its share of the category is at least 40%. */
  lemma CategoryFocusSound(companies: seq<string>, rows: seq<Row<string>>, c: string, category: string, p: real)
    requires CategoryFocus(c, category, p) in PerEntry(SharesOf(rows, RoleCategories, companies), CategoryFocusOf)
    ensures c in companies
    ensures var v := GroupVector(rows, RoleCategories, companies, c);
      Sum(v) > 0 &&
      exists g | 0 <= g < |RoleCategories| ::
        RoleCategories[g].0 == category && p == ShareOf(v[g], Sum(v)) && p >= 40.0
  {
    var shares := SharesOf(rows, RoleCategories, companies);
    var x := CategoryFocus(c, category, p);
    PerEntryMembers(shares, CategoryFocusOf, x);
    var i :| 0 <= i < |shares| && x in CategoryFocusOf(shares[i].0, shares[i].1);
    SharesOfEntry(rows, RoleCategories, companies, i);
    var g := CategoryFocusOfSound(shares[i].0, shares[i].1, x);
  }

  /** And it is reported whenever that holds. */
  lemma CategoryFocusComplete(companies: seq<string>, rows: seq<Row<string>>, c: string, g: int)
    requires c in companies && 0 <= g < |RoleCategories|
    requires var v := GroupVector(rows, RoleCategories, companies, c);
      Sum(v) > 0 && ShareOf(v[g], Sum(v)) >= 40.0
    ensures var v := GroupVector(rows, RoleCategories, companies, c);
      CategoryFocus(c, RoleCategories[g].0, ShareOf(v[g], Sum(v))) in
        PerEntry(SharesOf(rows, RoleCategories, companies), CategoryFocusOf)
  {
    var v := GroupVector(rows, RoleCategories, companies, c);
    var shares := SharesOf(rows, RoleCategories, companies);
    var x := CategoryFocus(c, RoleCategories[g].0, ShareOf(v[g], Sum(v)));
    var i := SharesOfHas(rows, RoleCategories, companies, c);
    assert shares[i].1[g] == (RoleCategories[g].0, ShareOf(v[g], Sum(v)));
    CategoryFocusOfComplete(c, shares[i].1, g);
    PerEntryMembers(shares, CategoryFocusOf, x);
  }

  /** A geographic shift is reported for `c` only when `c` is listed, has
      jobs in some region, and its share of a region other than North
      America is at least 20%. */
  lemma GeographicShiftSound(companies: seq<string>, rows: seq<Row<string>>, c: string, region: string, p: real)
    requires GeographicShift(c, region, p) in GeoShiftInsights(companies, rows)
    ensures c in companies
    ensures var v := GroupVector(rows, ShiftRegions, companies, c);
      Sum(v) > 0 &&
      exists g | 0 <= g < |ShiftRegions| ::
        ShiftRegions[g].0 == region && region != "North America" &&
        p == ShareOf(v[g], Sum(v)) && p >= 20.0
  {
    var shares := SharesOf(rows, ShiftRegions, companies);
    var x := GeographicShift(c, region, p);
    PerEntryMembers(shares, GeoShiftOf, x);
    var i :| 0 <= i < |shares| && x in GeoShiftOf(shares[i].0, shares[i].1);
    SharesOfEntry(rows, ShiftRegions, companies, i);
    var g := GeoShiftOfSound(shares[i].0, shares[i].1, x);
  }

  /** And it is reported whenever that holds. */
  lemma GeographicShiftComplete(companies: seq<string>, rows: seq<Row<string>>, c: string, g: int)
    requires c in companies && 0 <= g < |ShiftRegions| && ShiftRegions[g].0 != "North America"
    requires var v := GroupVector(rows, ShiftRegions, companies, c);
      Sum(v) > 0 && ShareOf(v[g], Sum(v)) >= 20.0
    ensures var v := GroupVector(rows, ShiftRegions, companies, c);
      GeographicShift(c, ShiftRegions[g].0, ShareOf(v[g], Sum(v))) in GeoShiftInsights(companies, rows)
  {
    var v := GroupVector(rows, ShiftRegions, companies, c);
    var shares := SharesOf(rows, ShiftRegions, companies);
    var x := GeographicShift(c, ShiftRegions[g].0, ShareOf(v[g], Sum(v)));
    var i := SharesOfHas(rows, ShiftRegions, companies, c);
    assert shares[i].1[g] == (ShiftRegions[g].0, ShareOf(v[g], Sum(v)));
    GeoShiftOfComplete(c, shares[i].1, g);
    PerEntryMembers(shares, GeoShiftOf, x);
  }

  /** With each company listed once, a company's tally of a group is the
      sum of its cells over the rows that fall in that group. */
  lemma {:induction false} GroupTotalOnce(rows: seq<Row<string>>, groups: Groups, companies: seq<string>, c: string, g: nat)
    requires NoDuplicates(companies) && c in companies
    ensures GroupTotal(rows, groups, companies, c, g) == AssignedSum(rows, groups, c, g)
  {
    if rows != [] {
      GroupTotalOnce(rows[..|rows| - 1], groups, companies, c, g);
      RowShareOnce(companies, c, rows[|rows| - 1].cells);
    }
  }

  /** `sum(row[c] for row in rows if the row falls in group g)`. */
  function AssignedSum(rows: seq<Row<string>>, groups: Groups, c: string, g: nat): int
  {
    if rows == [] then 0
    else
      var row := rows[|rows| - 1];
      AssignedSum(rows[..|rows| - 1], groups, c, g) +
      (if FirstGroup(groups, row.key) == Some(g) then GetOr(row.cells, c, 0) else 0)
  }
}

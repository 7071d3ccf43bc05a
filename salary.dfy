/** Salary-string parsing (`extract_salary_range`, data_processor.py
    177-208). The text is searched, leftmost first, for the regular
    expression

      [$£€] N K? \s* - \s* [$£€] N K?    where N = \d{1,3}(?:,\d{3})* | \d+

    The two numbers, with their commas dropped, are the range; when the text
    holds no "K" at all and the minimum exceeds 1000, both are divided by
    1000. A text without a match gives no range (the source's `(None, None)`).

    Python's backtracking decides which digits each group takes. For the
    first group the only place the rest of the pattern can continue is the
    end of the whole run of digits and commas after the symbol, so the group
    is that run whenever the run is a number. For the second group nothing
    after it can fail, so the first alternative wins greedily: at most
    three digits, then as many ",ddd" groups as follow. That reads
    "$120000" as "120"; see `Reading`. */
module SalaryParser {
  import opened Common

  /** Which way the second number is read: `AsWritten` is what the pattern
      above does; `Intended` takes the longest prefix of the run that is a
      number, as it does for the first number. */
  datatype Reading = AsWritten | Intended

  predicate IsCurrency(c: char) { c == '$' || c == '£' || c == '€' }
  predicate IsDigit(c: char) { '0' <= c <= '9' }
  predicate IsNumChar(c: char) { IsDigit(c) || c == ',' }

  /** `\s` on a `str` pattern, restricted to ASCII: space, tab, line feed,
      vertical tab, form feed, carriage return, and the four separators
      U+001C to U+001F. */
  predicate IsSpace(c: char) { c == ' ' || '\t' <= c <= '\r' || '\U{1C}' <= c <= '\U{1F}' }

  predicate AllDigits(t: string)
  {
    forall k | 0 <= k < |t| :: IsDigit(t[k])
  }

  /** `t` is matched in full by `\d{1,3}(?:,\d{3})*`. */
  predicate Grouped(t: string)
    decreases |t|
  {
    (1 <= |t| <= 3 && AllDigits(t)) ||
    (|t| >= 5 && t[|t| - 4] == ',' && AllDigits(t[|t| - 3..]) && Grouped(t[..|t| - 4]))
  }

  /** `t` is matched in full by `\d{1,3}(?:,\d{3})*|\d+`. */
  predicate IsNumber(t: string)
  {
    Grouped(t) || (|t| >= 1 && AllDigits(t))
  }

  /** The value of `float(t.replace(',', ''))` for a number `t`. */
  function NumberValue(t: string): nat
  {
    if t == [] then 0
    else if IsDigit(t[|t| - 1]) then NumberValue(t[..|t| - 1]) * 10 + (t[|t| - 1] as int - '0' as int)
    else NumberValue(t[..|t| - 1])
  }

  /** The end of the run of digits and commas that starts at `i`. */
  function RunEnd(s: string, i: nat): (j: nat)
    requires i <= |s|
    ensures i <= j <= |s|
    ensures forall k | i <= k < j :: IsNumChar(s[k])
    ensures j == |s| || !IsNumChar(s[j])
    decreases |s| - i
  {
    if i < |s| && IsNumChar(s[i]) then RunEnd(s, i + 1) else i
  }

  /** `\s*` from `i`: the first position at or after `i` that is not a space. */
  function SkipSpace(s: string, i: nat): (j: nat)
    requires i <= |s|
    ensures i <= j <= |s|
    ensures forall k | i <= k < j :: IsSpace(s[k])
    ensures j == |s| || !IsSpace(s[j])
    decreases |s| - i
  {
    if i < |s| && IsSpace(s[i]) then SkipSpace(s, i + 1) else i
  }

  /** `K?\s*-\s*[$£€]` followed by a digit, from the end `q` of the first
      number: where the second number starts. Once `K` is taken the rest
      cannot fail back to leaving it, since `K` is neither a space nor `-`. */
  function SecondNumberStart(s: string, q: nat): (r: Option<nat>)
    requires q <= |s|
    ensures r.Some? ==> q < r.value < |s| && IsDigit(s[r.value]) && IsCurrency(s[r.value - 1])
  {
    var a := SkipSpace(s, if q < |s| && s[q] == 'K' then q + 1 else q);
    if a < |s| && s[a] == '-' then
      var b := SkipSpace(s, a + 1);
      if b + 1 < |s| && IsCurrency(s[b]) && IsDigit(s[b + 1]) then Some(b + 1) else None
    else None
  }

  /** `\d{1,3}` taken greedily: up to `n` digits from `j`. */
  function LeadingDigits(s: string, j: nat, n: nat): (e: nat)
    requires j <= |s|
    ensures j <= e <= |s| && e <= j + n
    ensures forall k | j <= k < e :: IsDigit(s[k])
    decreases n
  {
    if n > 0 && j < |s| && IsDigit(s[j]) then LeadingDigits(s, j + 1, n - 1) else j
  }

  /** `(?:,\d{3})*` taken greedily from `e`. */
  function SeparatedGroups(s: string, e: nat): (f: nat)
    requires e <= |s|
    ensures e <= f <= |s|
    decreases |s| - e
  {
    if e + 4 <= |s| && s[e] == ',' && AllDigits(s[e + 1..e + 4]) then SeparatedGroups(s, e + 4) else e
  }

  /** The longest prefix of `t` that is a number. */
  function LongestNumberPrefix(t: string): (k: nat)
    requires t != [] && IsDigit(t[0])
    ensures 1 <= k <= |t| && IsNumber(t[..k])
    ensures forall m | k < m <= |t| :: !IsNumber(t[..m])
  {
    if IsNumber(t) then
      assert t[..|t|] == t;
      |t|
    else
      assert t[..1] == [t[0]];
      assert IsNumber(t[..1]);
      var k := LongestNumberPrefix(t[..|t| - 1]);
      assert t[..|t| - 1][..k] == t[..k];
      assert forall m | k < m < |t| :: t[..|t| - 1][..m] == t[..m];
      assert t[..|t|] == t;
      k
  }

  /** Where the second group ends, given where it starts. */
  function SecondNumberEnd(s: string, j: nat, reading: Reading): (e: nat)
    requires j < |s| && IsDigit(s[j])
    ensures j < e <= |s|
  {
    match reading
    case AsWritten => SeparatedGroups(s, LeadingDigits(s, j, 3))
    case Intended => j + LongestNumberPrefix(s[j..RunEnd(s, j)])
  }

  /** The two groups of a match: the numbers are `s[lo1..hi1]` and `s[lo2..hi2]`. */
  datatype Groups = Groups(lo1: nat, hi1: nat, lo2: nat, hi2: nat)

  /** The pattern matches with its currency symbol at `i`. */
  function MatchAt(s: string, i: nat, reading: Reading): (r: Option<Groups>)
    ensures r.Some? ==>
      i < |s| && IsCurrency(s[i]) && r.value.lo1 == i + 1 &&
      i + 1 < r.value.hi1 < r.value.lo2 < r.value.hi2 <= |s| &&
      IsNumber(s[r.value.lo1..r.value.hi1]) &&
      (r.value.hi1 == |s| || !IsNumChar(s[r.value.hi1]))
  {
    if i < |s| && IsCurrency(s[i]) then
      var hi1 := RunEnd(s, i + 1);
      if IsNumber(s[i + 1..hi1]) then
        match SecondNumberStart(s, hi1)
        case None => None
        case Some(lo2) => Some(Groups(i + 1, hi1, lo2, SecondNumberEnd(s, lo2, reading)))
      else None
    else None
  }

  /** `re.search`: the leftmost match at or after `i`. */
  function FirstMatch(s: string, i: nat, reading: Reading): (r: Option<Groups>)
    ensures r.Some? ==> r.value.lo1 < r.value.hi1 < r.value.lo2 < r.value.hi2 <= |s|
    decreases |s| - i
  {
    if i >= |s| then None
    else if MatchAt(s, i, reading).Some? then MatchAt(s, i, reading)
    else
      FirstMatch(s, i + 1, reading)
  }

  /** What the search finds is the match at the leftmost position at or
      after `i` where one starts. */
  lemma {:induction false} FirstMatchLeftmost(s: string, i: nat, reading: Reading) returns (k: nat)
    requires FirstMatch(s, i, reading).Some?
    ensures i <= k < |s| && MatchAt(s, k, reading) == FirstMatch(s, i, reading)
    ensures forall k' | i <= k' < k :: MatchAt(s, k', reading).None?
    decreases |s| - i
  {
    if MatchAt(s, i, reading).Some? {
      k := i;
    } else {
      k := FirstMatchLeftmost(s, i + 1, reading);
      forall k' | i <= k' < k
        ensures MatchAt(s, k', reading).None?
      {
        if k' != i {
          assert i + 1 <= k' < k;
        }
      }
    }
  }

  /** A match starting at or after `i` is found by the search. */
  lemma {:induction false} FirstMatchComplete(s: string, i: nat, k: nat, reading: Reading)
    requires i <= k < |s| && MatchAt(s, k, reading).Some?
    ensures FirstMatch(s, i, reading).Some?
    decreases k - i
  {
    if MatchAt(s, i, reading).None? {
      FirstMatchComplete(s, i + 1, k, reading);
    }
  }

  /** The "convert to thousands" rule: both values divided by 1000 when the
      text holds no "K" and the minimum exceeds 1000. */
  function InThousands(s: string, lo: nat, hi: nat): (real, real)
  {
    if 'K' !in s && lo as real > 1000.0 then (lo as real / 1000.0, hi as real / 1000.0)
    else (lo as real, hi as real)
  }

  /** `extract_salary_range`: the (min, max) pair, or `None` when nothing
      matches. A range needs a currency symbol in the text. */
  function SalaryRange(s: string, reading: Reading): Option<(real, real)>
  {
    match FirstMatch(s, 0, reading)
    case None => None
    case Some(g) =>
      Some(InThousands(s, NumberValue(s[g.lo1..g.hi1]), NumberValue(s[g.lo2..g.hi2])))
  }

  /** A range needs a currency symbol in the text, and both of its values
      are non-negative. */
  lemma SalaryRangeShape(s: string, reading: Reading)
    ensures SalaryRange(s, reading).Some? ==> exists k | 0 <= k < |s| :: IsCurrency(s[k])
    ensures SalaryRange(s, reading).Some? ==>
      SalaryRange(s, reading).value.0 >= 0.0 && SalaryRange(s, reading).value.1 >= 0.0
  {
    if SalaryRange(s, reading).Some? {
      var k := FirstMatchLeftmost(s, 0, reading);
    }
  }

  /** A text that no currency symbol occurs in gives no range. */
  lemma NoCurrencyNoRange(s: string, reading: Reading)
    requires forall k | 0 <= k < |s| :: !IsCurrency(s[k])
    ensures SalaryRange(s, reading) == None
  {
    SalaryRangeShape(s, reading);
  }

  /** Where each part of `[c1] + x + sep + [c2] + y + tail` sits. */
  lemma {:induction false} RangeLayout(s: string, c1: char, x: string, sep: string, c2: char, y: string, tail: string)
    requires s == [c1] + x + sep + [c2] + y + tail
    ensures |s| == 1 + |x| + |sep| + 1 + |y| + |tail|
    ensures s[0] == c1
    ensures s[1..1 + |x|] == x
    ensures forall k | 0 <= k < |sep| :: s[1 + |x| + k] == sep[k]
    ensures s[1 + |x| + |sep|] == c2
    ensures s[1 + |x| + |sep| + 1..1 + |x| + |sep| + 1 + |y|] == y
    ensures forall k | 0 <= k < |tail| :: s[1 + |x| + |sep| + 1 + |y| + k] == tail[k]
  {
    var n := 1 + |x| + |sep| + 1;
    assert s == ([c1] + x + sep + [c2]) + (y + tail);
    assert ([c1] + x + sep + [c2])[1..1 + |x|] == x;
    assert (y + tail)[..|y|] == y;
  }

  /** The positions a match at 0 of `[c1] + x + sep + [c2] + y + tail` goes
      through, for numbers `x` and `y` and a separator `sep` that is "K - "
      or " - ". */
  lemma {:induction false} MatchOfRange(s: string, c1: char, x: string, sep: string, c2: char, y: string, tail: string, reading: Reading)
    requires s == [c1] + x + sep + [c2] + y + tail
    requires IsCurrency(c1) && IsCurrency(c2) && IsNumber(x) && IsNumber(y)
    requires sep == "K - " || sep == " - "
    requires tail == [] || !IsNumChar(tail[0])
    ensures var lo2 := 1 + |x| + |sep| + 1;
            lo2 < |s| && IsDigit(s[lo2]) &&
            RunEnd(s, lo2) == lo2 + |y| && s[lo2..lo2 + |y|] == y && s[1..1 + |x|] == x &&
            FirstMatch(s, 0, reading) == Some(Groups(1, 1 + |x|, lo2, SecondNumberEnd(s, lo2, reading)))
  {
    var n := 1 + |x|;
    var lo2 := n + |sep| + 1;
    RangeFirstRun(s, c1, x, sep, c2, y, tail);
    RangeSeparator(s, c1, x, sep, c2, y, tail);
    RangeSecondRun(s, c1, x, sep, c2, y, tail);
    MatchAtStart(s, n, lo2, reading);
  }

  /** A currency symbol at 0, a number up to `hi1` and a second number
      starting at `lo2` make the search stop at 0. */
  lemma MatchAtStart(s: string, hi1: nat, lo2: nat, reading: Reading)
    requires 0 < |s| && IsCurrency(s[0])
    requires 1 <= hi1 <= |s| && RunEnd(s, 1) == hi1 && IsNumber(s[1..hi1])
    requires lo2 < |s| && IsDigit(s[lo2]) && SecondNumberStart(s, hi1) == Some(lo2)
    ensures FirstMatch(s, 0, reading) == Some(Groups(1, hi1, lo2, SecondNumberEnd(s, lo2, reading)))
  {
    assert MatchAt(s, 0, reading) == Some(Groups(1, hi1, lo2, SecondNumberEnd(s, lo2, reading)));
  }

  /** The first number of such a text runs from 1 to `1 + |x|`. */
  lemma RangeFirstRun(s: string, c1: char, x: string, sep: string, c2: char, y: string, tail: string)
    requires s == [c1] + x + sep + [c2] + y + tail
    requires IsNumber(x)
    requires sep == "K - " || sep == " - "
    ensures 0 < |s| && s[0] == c1
    ensures RunEnd(s, 1) == 1 + |x| && s[1..1 + |x|] == x
  {
    RangeLayout(s, c1, x, sep, c2, y, tail);
    var n := 1 + |x|;
    GroupedOrDigitsNumChars(x);
    forall k | 1 <= k < n ensures IsNumChar(s[k]) {
      assert s[k] == s[1..n][k - 1];
    }
    assert s[n] == sep[0];
  }

  /** The separator of such a text leads to a second number at
      `1 + |x| + |sep| + 1`. */
  lemma RangeSeparator(s: string, c1: char, x: string, sep: string, c2: char, y: string, tail: string)
    requires s == [c1] + x + sep + [c2] + y + tail
    requires IsCurrency(c2) && IsNumber(y)
    requires sep == "K - " || sep == " - "
    ensures var lo2 := 1 + |x| + |sep| + 1;
            lo2 < |s| && IsDigit(s[lo2]) && SecondNumberStart(s, 1 + |x|) == Some(lo2)
  {
    RangeLayout(s, c1, x, sep, c2, y, tail);
    var n := 1 + |x|;
    var lo2 := n + |sep| + 1;
    NumberStartsWithDigit(y);
    if sep == "K - " {
      assert s[n] == 'K' && s[n + 1] == ' ' && s[n + 2] == '-' && s[n + 3] == ' ';
      assert SkipSpace(s, n + 1) == n + 2;
      assert SkipSpace(s, n + 3) == n + 4;
    } else {
      assert s[n] == ' ' && s[n + 1] == '-' && s[n + 2] == ' ';
      assert SkipSpace(s, n) == n + 1;
      assert SkipSpace(s, n + 2) == n + 3;
    }
    assert s[lo2] == s[lo2..lo2 + |y|][0];
  }

  /** The second number of such a text runs to the end of `y`. */
  lemma RangeSecondRun(s: string, c1: char, x: string, sep: string, c2: char, y: string, tail: string)
    requires s == [c1] + x + sep + [c2] + y + tail
    requires IsNumber(y)
    requires tail == [] || !IsNumChar(tail[0])
    ensures var lo2 := 1 + |x| + |sep| + 1;
            lo2 + |y| <= |s| && RunEnd(s, lo2) == lo2 + |y| && s[lo2..lo2 + |y|] == y
  {
    RangeLayout(s, c1, x, sep, c2, y, tail);
    var lo2 := 1 + |x| + |sep| + 1;
    GroupedOrDigitsNumChars(y);
    forall k | lo2 <= k < lo2 + |y| ensures IsNumChar(s[k]) {
      assert s[k] == s[lo2..lo2 + |y|][k - lo2];
    }
    assert lo2 + |y| == |s| || s[lo2 + |y|] == tail[0];
  }

  lemma {:induction false} GroupedNumChars(t: string)
    requires Grouped(t)
    ensures forall k | 0 <= k < |t| :: IsNumChar(t[k])
    decreases |t|
  {
    if !(1 <= |t| <= 3 && AllDigits(t)) {
      var p := t[..|t| - 4];
      GroupedNumChars(p);
      forall k | 0 <= k < |t| ensures IsNumChar(t[k]) {
        if k < |t| - 4 {
          assert t[k] == p[k];
        } else if k > |t| - 4 {
          assert t[k] == t[|t| - 3..][k - (|t| - 3)];
        }
      }
    }
  }

  lemma {:induction false} NumberStartsWithDigit(t: string)
    requires IsNumber(t)
    ensures |t| >= 1 && IsDigit(t[0])
    decreases |t|
  {
    if !(|t| >= 1 && AllDigits(t)) && !(1 <= |t| <= 3) {
      NumberStartsWithDigit(t[..|t| - 4]);
      assert t[0] == t[..|t| - 4][0];
    }
  }

  /** Neither the separator nor the numbers hold a "K". */
  lemma {:induction false} NoKInPlainRange(c1: char, x: string, c2: char, y: string)
    requires IsCurrency(c1) && IsCurrency(c2) && IsNumber(x) && IsNumber(y)
    ensures 'K' !in [c1] + x + " - " + [c2] + y
  {
    GroupedOrDigitsNumChars(x);
    GroupedOrDigitsNumChars(y);
    var s := [c1] + x + " - " + [c2] + y;
    forall k | 0 <= k < |s| ensures s[k] != 'K' {
      if 1 <= k < 1 + |x| {
        assert s[k] == x[k - 1];
      } else if 1 + |x| + 4 <= k {
        assert s[k] == y[k - (1 + |x| + 4)];
      }
    }
  }

  lemma GroupedOrDigitsNumChars(t: string)
    requires IsNumber(t)
    ensures forall k | 0 <= k < |t| :: IsNumChar(t[k])
  {
    if !(|t| >= 1 && AllDigits(t)) {
      GroupedNumChars(t);
    }
  }

  /** Read the intended way, a second number that fills its run is taken whole. */
  lemma IntendedTakesWholeSecond(s: string, y: string, lo2: nat)
    requires lo2 < |s| && IsDigit(s[lo2]) && IsNumber(y)
    requires RunEnd(s, lo2) == lo2 + |y| && s[lo2..lo2 + |y|] == y
    ensures SecondNumberEnd(s, lo2, Intended) == lo2 + |y|
  {
    assert y[..|y|] == y;
  }

  /** `t` is matched in full by `(?:,\d{3})*`. */
  predicate Blocks(t: string)
    decreases |t|
  {
    t == [] || (|t| >= 4 && t[0] == ',' && AllDigits(t[1..4]) && Blocks(t[4..]))
  }

  lemma {:induction false} BlocksAppend(a: string, b: string)
    requires Blocks(a) && |b| == 4 && b[0] == ',' && AllDigits(b[1..])
    ensures Blocks(a + b)
    decreases |a|
  {
    if a == [] {
      assert a + b == b && b[1..4] == b[1..] && b[4..] == [];
    } else {
      BlocksAppend(a[4..], b);
      assert (a + b)[4..] == a[4..] + b;
      assert (a + b)[1..4] == a[1..4];
    }
  }

  /** A grouped number is one to three digits and then separated groups. */
  lemma {:induction false} GroupedSplit(t: string) returns (h: nat)
    requires Grouped(t)
    ensures 1 <= h <= 3 && h <= |t| && AllDigits(t[..h]) && Blocks(t[h..])
    decreases |t|
  {
    if 1 <= |t| <= 3 && AllDigits(t) {
      h := |t|;
      assert t[..h] == t && t[h..] == [];
    } else {
      var p := t[..|t| - 4];
      h := GroupedSplit(p);
      assert t[..h] == p[..h];
      var b := t[|t| - 4..];
      assert b[1..] == t[|t| - 3..];
      BlocksAppend(p[h..], b);
      assert t[h..] == p[h..] + b;
    }
  }

  /** `\d{1,3}` taken greedily stops after `h` digits when no digit, or
      no more room, follows. */
  lemma {:induction false} LeadingDigitsRun(s: string, j: nat, n: nat, h: nat)
    requires j + h <= |s| && h <= n
    requires forall k | j <= k < j + h :: IsDigit(s[k])
    requires h == n || j + h == |s| || !IsDigit(s[j + h])
    ensures LeadingDigits(s, j, n) == j + h
    decreases h
  {
    if h > 0 {
      LeadingDigitsRun(s, j + 1, n - 1, h - 1);
    }
  }

  /** `\d{1,3}` taken greedily at `lo2`, where a number `y` sits whose
      first `h` characters are digits and whose rest is groups, takes those
      `h` digits. */
  lemma FirstGroupRun(s: string, lo2: nat, y: string, h: nat)
    requires lo2 + |y| <= |s| && s[lo2..lo2 + |y|] == y
    requires 1 <= h <= 3 && h <= |y| && AllDigits(y[..h]) && Blocks(y[h..])
    requires lo2 + |y| == |s| || !IsNumChar(s[lo2 + |y|])
    ensures LeadingDigits(s, lo2, 3) == lo2 + h
  {
    forall k | lo2 <= k < lo2 + h
      ensures IsDigit(s[k])
    {
      assert s[k] == y[..h][k - lo2];
    }
    if h < 3 && h < |y| {
      assert s[lo2 + h] == y[h] == y[h..][0];
    }
    LeadingDigitsRun(s, lo2, 3, h);
  }

  /** `(?:,\d{3})*` taken greedily from the `h`-th character of a number
      `y` that sits at `lo2` takes every group to the end of `y` when `y`
      from `h` on is groups and no comma follows `y`. */
  lemma {:induction false} SeparatedGroupsRun(s: string, lo2: nat, y: string, h: nat)
    requires lo2 + |y| <= |s| && s[lo2..lo2 + |y|] == y && h <= |y| && Blocks(y[h..])
    requires lo2 + |y| == |s| || s[lo2 + |y|] != ','
    ensures SeparatedGroups(s, lo2 + h) == lo2 + |y|
    decreases |y| - h
  {
    if h < |y| {
      var u := y[h..];
      assert |u| >= 4 && u[0] == ',' && AllDigits(u[1..4]) && Blocks(u[4..]);
      assert u[4..] == y[h + 4..];
      assert s[lo2 + h] == y[h] == u[0];
      assert forall k | 1 <= k < 4 :: s[lo2 + h + k] == y[h + k] == u[k];
      assert s[lo2 + h + 1..lo2 + h + 4] == u[1..4];
      SeparatedGroupsRun(s, lo2, y, h + 4);
    }
  }

  /** Read as written, a second number that is grouped (at most three digits,
      or thousands separated by commas) and fills its run is taken whole. */
  lemma AsWrittenTakesGroupedSecond(s: string, y: string, lo2: nat)
    requires lo2 < |s| && IsDigit(s[lo2]) && Grouped(y)
    requires RunEnd(s, lo2) == lo2 + |y| && s[lo2..lo2 + |y|] == y
    ensures SecondNumberEnd(s, lo2, AsWritten) == lo2 + |y|
  {
    var e := RunEnd(s, lo2);
    assert e == |s| || !IsNumChar(s[e]);
    var h := GroupedSplit(y);
    FirstGroupRun(s, lo2, y, h);
    SeparatedGroupsRun(s, lo2, y, h);
  }

  /** The second number is taken whole when it fills its run, under the
      intended reading always and as written when it is grouped. */
  lemma SecondTakenWhole(s: string, y: string, lo2: nat, reading: Reading)
    requires lo2 < |s| && IsDigit(s[lo2]) && IsNumber(y)
    requires RunEnd(s, lo2) == lo2 + |y| && s[lo2..lo2 + |y|] == y
    requires reading == Intended || Grouped(y)
    ensures SecondNumberEnd(s, lo2, reading) == lo2 + |y|
  {
    if reading == Intended {
      IntendedTakesWholeSecond(s, y, lo2);
    } else {
      AsWrittenTakesGroupedSecond(s, y, lo2);
    }
  }

  /** Read as written, a second number of four or more plain digits ends
      after its third digit. */
  lemma AsWrittenCutsAfterThree(s: string, y: string, lo2: nat)
    requires lo2 + |y| <= |s| && s[lo2..lo2 + |y|] == y
    requires |y| > 3 && AllDigits(y)
    ensures IsDigit(s[lo2])
    ensures SecondNumberEnd(s, lo2, AsWritten) == lo2 + 3
    ensures s[lo2..lo2 + 3] == y[..3]
  {
    assert s[lo2] == y[0] && s[lo2 + 1] == y[1] && s[lo2 + 2] == y[2] && s[lo2 + 3] == y[3];
    assert LeadingDigits(s, lo2 + 3, 0) == lo2 + 3;
    assert LeadingDigits(s, lo2, 3) == lo2 + 3;
  }

  /** The range a match yields. */
  lemma RangeOfMatch(s: string, reading: Reading, g: Groups, x: string, y: string)
    requires FirstMatch(s, 0, reading) == Some(g)
    requires g.hi1 <= |s| && g.hi2 <= |s| && s[g.lo1..g.hi1] == x && s[g.lo2..g.hi2] == y
    ensures SalaryRange(s, reading) == Some(InThousands(s, NumberValue(x), NumberValue(y)))
  {
  }

  lemma {:induction false} KInRangeInThousands(s: string, c1: char, x: string, c2: char, y: string)
    requires s == [c1] + x + "K - " + [c2] + y + "K"
    ensures 'K' in s
    ensures InThousands(s, NumberValue(x), NumberValue(y)) == (NumberValue(x) as real, NumberValue(y) as real)
  {
    RangeLayout(s, c1, x, "K - ", c2, y, "K");
    assert s[1 + |x| + 0] == 'K';
  }

  /** `[c1] + x + sep + [c2] + y + tail` gives the two numbers, rescaled by
      the thousands rule, when the second is taken whole. */
  lemma {:induction false} RangeWithSeparator(s: string, c1: char, x: string, sep: string, c2: char, y: string, tail: string, reading: Reading)
    requires s == [c1] + x + sep + [c2] + y + tail
    requires IsCurrency(c1) && IsCurrency(c2) && IsNumber(x) && IsNumber(y)
    requires sep == "K - " || sep == " - "
    requires tail == [] || !IsNumChar(tail[0])
    requires reading == Intended || Grouped(y)
    ensures SalaryRange(s, reading) == Some(InThousands(s, NumberValue(x), NumberValue(y)))
  {
    MatchOfRange(s, c1, x, sep, c2, y, tail, reading);
    RangeOfWholeSecond(s, x, y, 1 + |x| + |sep| + 1, reading);
  }

  /** A match at 0 whose second number fills its run gives both numbers. */
  lemma RangeOfWholeSecond(s: string, x: string, y: string, lo2: nat, reading: Reading)
    requires lo2 < |s| && IsDigit(s[lo2]) && IsNumber(y) && 1 + |x| <= |s|
    requires RunEnd(s, lo2) == lo2 + |y| && s[lo2..lo2 + |y|] == y && s[1..1 + |x|] == x
    requires FirstMatch(s, 0, reading) == Some(Groups(1, 1 + |x|, lo2, SecondNumberEnd(s, lo2, reading)))
    requires reading == Intended || Grouped(y)
    ensures SalaryRange(s, reading) == Some(InThousands(s, NumberValue(x), NumberValue(y)))
  {
    var g := Groups(1, 1 + |x|, lo2, SecondNumberEnd(s, lo2, reading));
    assert g.hi2 == lo2 + |y| by {
      SecondTakenWhole(s, y, lo2, reading);
    }
    RangeOfMatch(s, reading, g, x, y);
  }

  /** "$80K - $120K" and the like: the values as written, not rescaled.
      As written this needs a grouped second number (at most three digits,
      or thousands separated by commas); read as intended, any number. */
  lemma {:induction false} RangeInThousandsParses(c1: char, x: string, c2: char, y: string, reading: Reading)
    requires IsCurrency(c1) && IsCurrency(c2) && IsNumber(x) && IsNumber(y)
    requires reading == Intended || Grouped(y)
    ensures SalaryRange([c1] + x + "K - " + [c2] + y + "K", reading) ==
            Some((NumberValue(x) as real, NumberValue(y) as real))
  {
    var s := [c1] + x + "K - " + [c2] + y + "K";
    RangeWithSeparator(s, c1, x, "K - ", c2, y, "K", reading);
    KInRangeInThousands(s, c1, x, c2, y);
  }

  /** "$80,000 - $120,000" and the like: the values, rescaled to thousands
      when the minimum exceeds 1000 (the text holds no "K"). As written this
      needs a grouped second number; read as intended, any number. */
  lemma {:induction false} PlainRangeParses(c1: char, x: string, c2: char, y: string, reading: Reading)
    requires IsCurrency(c1) && IsCurrency(c2) && IsNumber(x) && IsNumber(y)
    requires reading == Intended || Grouped(y)
    ensures SalaryRange([c1] + x + " - " + [c2] + y, reading) ==
            Some(InThousands([c1] + x + " - " + [c2] + y, NumberValue(x), NumberValue(y)))
  {
    var s := [c1] + x + " - " + [c2] + y;
    assert s + [] == s;
    RangeWithSeparator(s, c1, x, " - ", c2, y, [], reading);
  }

  /** As written, a plain second number of four or more digits is cut after
      its first three digits. */
  lemma {:induction false} AsWrittenCutsPlainSecond(c1: char, x: string, c2: char, y: string)
    requires IsCurrency(c1) && IsCurrency(c2) && IsNumber(x)
    requires |y| > 3 && AllDigits(y)
    ensures SalaryRange([c1] + x + " - " + [c2] + y, AsWritten) ==
            Some(InThousands([c1] + x + " - " + [c2] + y, NumberValue(x), NumberValue(y[..3])))
  {
    var s := [c1] + x + " - " + [c2] + y;
    var lo2 := 1 + |x| + 4;
    assert s + [] == s;
    assert IsNumber(y);
    MatchOfRange(s, c1, x, " - ", c2, y, [], AsWritten);
    AsWrittenCutsAfterThree(s, y, lo2);
    RangeOfMatch(s, AsWritten, Groups(1, 1 + |x|, lo2, lo2 + 3), x, y[..3]);
  }

  lemma ValueOf80()
    ensures NumberValue("80") == 80 && NumberValue("80,000") == 80000 && NumberValue("80000") == 80000
  {
    assert "80,000"[..5] == "80,00" && "80,00"[..4] == "80,0" && "80,0"[..3] == "80,";
    assert "80,"[..2] == "80" && "80"[..1] == "8" && "8"[..0] == "";
    assert "80000"[..4] == "8000" && "8000"[..3] == "800" && "800"[..2] == "80";
  }

  lemma ValueOf120()
    ensures NumberValue("120") == 120 && NumberValue("120,000") == 120000 && NumberValue("120000") == 120000
  {
    assert "120,000"[..6] == "120,00" && "120,00"[..5] == "120,0" && "120,0"[..4] == "120,";
    assert "120,"[..3] == "120" && "120"[..2] == "12" && "12"[..1] == "1" && "1"[..0] == "";
    assert "120000"[..5] == "12000" && "12000"[..4] == "1200" && "1200"[..3] == "120";
  }

  lemma {:induction false} SalaryWithKParts(s: string, x: string, y: string, reading: Reading)
    requires x == "80" && y == "120" && s == ['$'] + x + "K - " + ['$'] + y + "K"
    ensures SalaryRange(s, reading) == Some((80.0, 120.0))
  {
    assert IsNumber(x) && Grouped(y);
    RangeInThousandsParses('$', x, '$', y, reading);
    ValueOf80();
    ValueOf120();
  }

  /** "$80K - $120K" gives (80, 120), as written and as intended. */
  lemma SalaryWithK(reading: Reading)
    ensures SalaryRange("$80K - $120K", reading) == Some((80.0, 120.0))
  {
    SalaryWithKParts("$80K - $120K", "80", "120", reading);
  }

  lemma {:induction false} SalaryWithSeparatorsParts(s: string, x: string, y: string, reading: Reading)
    requires x == "80,000" && y == "120,000" && s == ['$'] + x + " - " + ['$'] + y
    ensures SalaryRange(s, reading) == Some((80.0, 120.0))
  {
    assert x[2] == ',' && x[3..] == "000" && x[..2] == "80";
    assert Grouped(x);
    assert y[3] == ',' && y[4..] == "000" && y[..3] == "120";
    assert Grouped(y);
    PlainRangeParses('$', x, '$', y, reading);
    ValueOf80();
    ValueOf120();
    NoKInPlainRange('$', x, '$', y);
  }

  /** "$80,000 - $120,000" gives (80, 120), as written and as intended: no
      "K" and a minimum above 1000. */
  lemma SalaryWithSeparators(reading: Reading)
    ensures SalaryRange("$80,000 - $120,000", reading) == Some((80.0, 120.0))
  {
    SalaryWithSeparatorsParts("$80,000 - $120,000", "80,000", "120,000", reading);
  }

  lemma {:induction false} PlainThousandsAsWritten(s: string, x: string, y: string)
    requires x == "80000" && y == "120000" && s == ['$'] + x + " - " + ['$'] + y
    ensures SalaryRange(s, AsWritten) == Some((80.0, 0.12))
  {
    assert IsNumber(x) && AllDigits(y);
    AsWrittenCutsPlainSecond('$', x, '$', y);
    assert y[..3] == "120";
    ValueOf80();
    ValueOf120();
    NoKInPlainRange('$', x, '$', y);
  }

  lemma {:induction false} PlainThousandsIntended(s: string, x: string, y: string)
    requires x == "80000" && y == "120000" && s == ['$'] + x + " - " + ['$'] + y
    ensures SalaryRange(s, Intended) == Some((80.0, 120.0))
  {
    assert IsNumber(x) && IsNumber(y);
    PlainRangeParses('$', x, '$', y, Intended);
    ValueOf80();
    ValueOf120();
    NoKInPlainRange('$', x, '$', y);
  }

  /** As written, "$80000 - $120000" gives (80, 0.12): the second number is
      read as "120" and then divided by 1000 with the first. Read the
      intended way it gives (80, 120). */
  lemma PlainThousandsMisread()
    ensures SalaryRange("$80000 - $120000", AsWritten) == Some((80.0, 0.12))
    ensures SalaryRange("$80000 - $120000", Intended) == Some((80.0, 120.0))
  {
    PlainThousandsAsWritten("$80000 - $120000", "80000", "120000");
    PlainThousandsIntended("$80000 - $120000", "80000", "120000");
  }
}

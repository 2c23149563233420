/** frontend/src/pages/Community.tsx: the household leaderboard, the
    community totals, progress percentages, perk thresholds and the
    width/height clamps of the bars. `Math.round` is modelled exactly on
    integers; the bar and column percentages are exact rationals (`real`). */
module Community {
  import opened Js

  datatype Timeframe = Weekly | Monthly | Yearly

  datatype Savings = Savings(weekly: int, monthly: int, yearly: int)

  /** A household; `monthlyBreakdown` holds the liters of each month, in order. */
  datatype Family = Family(id: string, name: string, goalLiters: int, savings: Savings, monthlyBreakdown: seq<int>)

  /** `savings[timeframe]`. */
  function SavingsIn(s: Savings, tf: Timeframe): int
  {
    match tf
    case Weekly => s.weekly
    case Monthly => s.monthly
    case Yearly => s.yearly
  }

  function Key(f: Family, tf: Timeframe): int
  {
    SavingsIn(f.savings, tf)
  }

  const Families: seq<Family> := [
    Family("HH-001", "Sharma Family", 18000, Savings(420, 1780, 16420),
      [1280, 1420, 1520, 1620, 1740, 1680, 1540, 1480, 1660, 1520, 1400, 1480]),
    Family("HH-002", "Nair Household", 15000, Savings(360, 1540, 14860),
      [980, 1110, 1340, 1460, 1580, 1660, 1620, 1540, 1700, 1580, 1400, 1490]),
    Family("HH-003", "Fernandez Residence", 22000, Savings(510, 2120, 19840),
      [1680, 1720, 1760, 1880, 2100, 2060, 1980, 2020, 2140, 2060, 1920, 1940]),
    Family("HH-004", "Iqbal Family", 24000, Savings(540, 2240, 20560),
      [1640, 1700, 1820, 1900, 2140, 2180, 2100, 2060, 2220, 2140, 2000, 2000]),
    Family("HH-005", "Kulkarni Residence", 12000, Savings(280, 1180, 10120),
      [860, 920, 980, 1040, 1160, 1200, 1120, 1080, 1180, 1100, 1020, 1060]),
    Family("HH-006", "Rao Family", 16000, Savings(310, 1360, 12340),
      [940, 980, 1100, 1220, 1340, 1360, 1300, 1280, 1380, 1320, 1200, 1220])
  ]

  datatype Perk = Perk(threshold: int, title: string)

  const Perks: seq<Perk> := [Perk(1000, "Bronze Saver"), Perk(2000, "Silver Saver"), Perk(5000, "Gold Champion")]

  // ---------------------------------------------------------------- rounding

  /** `q` is `Math.round(n / d)` for `d > 0`: the integer nearest to n/d,
      halves rounded up. */
  predicate IsRoundedQuotient(q: int, n: int, d: int)
  {
    d * (2 * q - 1) <= 2 * n < d * (2 * q + 1)
  }

  function RoundDiv(n: int, d: int): (q: int)
    requires d > 0
    ensures IsRoundedQuotient(q, n, d)
  {
    var q := (2 * n + d) / (2 * d);
    var r := (2 * n + d) % (2 * d);
    assert 2 * n + d == 2 * d * q + r && 0 <= r < 2 * d;
    assert d * (2 * q - 1) == 2 * d * q - d;
    assert d * (2 * q + 1) == 2 * d * q + d;
    q
  }

  /** `Math.round((value / goal) * 100)` for a non-zero goal. */
  function RoundedPercent(value: int, goal: int): (q: int)
    requires goal != 0
    ensures goal > 0 ==> IsRoundedQuotient(q, 100 * value, goal)
    ensures goal < 0 ==> IsRoundedQuotient(q, -100 * value, -goal)
  {
    if goal > 0 then RoundDiv(100 * value, goal) else RoundDiv(-100 * value, -goal)
  }

  /** A rounded quotient reaches 100 exactly when n/d is at least 99.5. */
  lemma RoundedReaches100(q: int, n: int, d: int)
    requires d > 0 && IsRoundedQuotient(q, n, d)
    ensures q >= 100 <==> 2 * n >= 199 * d
    ensures n >= 0 ==> q >= 0
  {
    if q >= 100 {
      assert d * (2 * q - 1) >= d * 199;
    } else {
      assert d * (2 * q + 1) <= d * 199;
    }
  }

  /** `getProgress(value, goal)`: 0 for a zero goal; otherwise the percentage
      of the goal reached, rounded, and capped at 100. */
  function GetProgress(value: int, goal: int): (r: int)
    ensures goal == 0 ==> r == 0
    ensures r <= 100
    ensures goal > 0 && r < 100 ==> IsRoundedQuotient(r, 100 * value, goal)
    ensures goal > 0 ==> (r == 100 <==> 200 * value >= 199 * goal)
    ensures goal < 0 && r < 100 ==> IsRoundedQuotient(r, -100 * value, -goal)
    ensures goal < 0 ==> (r == 100 <==> 200 * value <= 199 * goal)
    ensures goal > 0 && value >= 0 ==> r >= 0
  {
    if goal == 0 then 0
    else
      var q := RoundedPercent(value, goal);
      if goal > 0 then
        RoundedReaches100(q, 100 * value, goal);
        if q < 100 then q else 100
      else
        RoundedReaches100(q, -100 * value, -goal);
        if q < 100 then q else 100
  }

  // ---------------------------------------------------------------- leaderboard

  /** Non-increasing in the savings of the timeframe. */
  predicate SortedBy(s: seq<Family>, tf: Timeframe)
  {
    forall i, j :: 0 <= i < j < |s| ==> Key(s[i], tf) >= Key(s[j], tf)
  }

  /** Places `x` before the first household that saved no more than it. */
  function Insert(x: Family, s: seq<Family>, tf: Timeframe): (r: seq<Family>)
    ensures |r| == |s| + 1
    ensures r[0] == x || (s != [] && r[0] == s[0])
  {
    if s == [] || Key(x, tf) >= Key(s[0], tf) then [x] + s
    else [s[0]] + Insert(x, s[1..], tf)
  }

  lemma {:induction false} InsertPermutes(x: Family, s: seq<Family>, tf: Timeframe)
    ensures multiset(Insert(x, s, tf)) == multiset(s) + multiset{x}
  {
    if s != [] && Key(x, tf) < Key(s[0], tf) {
      InsertPermutes(x, s[1..], tf);
      assert s == [s[0]] + s[1..];
    }
  }

  lemma {:induction false} InsertSorted(x: Family, s: seq<Family>, tf: Timeframe)
    requires SortedBy(s, tf)
    ensures SortedBy(Insert(x, s, tf), tf)
  {
    if s != [] && Key(x, tf) < Key(s[0], tf) {
      var rest := Insert(x, s[1..], tf);
      InsertSorted(x, s[1..], tf);
      var r := [s[0]] + rest;
      assert Key(rest[0], tf) <= Key(s[0], tf);
      forall i, j | 0 <= i < j < |r| ensures Key(r[i], tf) >= Key(r[j], tf) {
        if i > 0 {
          assert r[i] == rest[i - 1] && r[j] == rest[j - 1];
        } else if j > 1 {
          assert r[j] == rest[j - 1];
          assert Key(rest[0], tf) >= Key(rest[j - 1], tf);
        }
      }
    }
  }

  /** `[...families].sort((a, b) => b.savings[tf] - a.savings[tf])`: a copy,
      holding the same households, in non-increasing order of savings. */
  function Leaderboard(fs: seq<Family>, tf: Timeframe): (r: seq<Family>)
    ensures multiset(r) == multiset(fs)
    ensures SortedBy(r, tf)
  {
    if fs == [] then []
    else
      assert fs == [fs[0]] + fs[1..];
      var rest := Leaderboard(fs[1..], tf);
      InsertSorted(fs[0], rest, tf);
      InsertPermutes(fs[0], rest, tf);
      Insert(fs[0], rest, tf)
  }

  /** The households of `s` whose savings in `tf` equal `k`, in order. */
  function WithSavings(s: seq<Family>, tf: Timeframe, k: int): seq<Family>
  {
    if s == [] then []
    else (if Key(s[0], tf) == k then [s[0]] else []) + WithSavings(s[1..], tf, k)
  }

  lemma WithSavingsCons(y: Family, t: seq<Family>, tf: Timeframe, k: int)
    ensures WithSavings([y] + t, tf, k) == (if Key(y, tf) == k then [y] else []) + WithSavings(t, tf, k)
  {
    assert ([y] + t)[1..] == t;
  }

  lemma {:induction false} InsertStable(x: Family, s: seq<Family>, tf: Timeframe, k: int)
    ensures WithSavings(Insert(x, s, tf), tf, k) == (if Key(x, tf) == k then [x] else []) + WithSavings(s, tf, k)
  {
    if s == [] || Key(x, tf) >= Key(s[0], tf) {
      WithSavingsCons(x, s, tf, k);
    } else {
      var rest := Insert(x, s[1..], tf);
      assert Insert(x, s, tf) == [s[0]] + rest;
      WithSavingsCons(s[0], rest, tf, k);
      InsertStable(x, s[1..], tf, k);
      assert s == [s[0]] + s[1..];
      WithSavingsCons(s[0], s[1..], tf, k);
      SkipDifferent(x, s[0], WithSavings(s[1..], tf, k), tf, k);
    }
  }

  /** Two households with different savings cannot both match `k`, so
      their contributions commute. */
  lemma SkipDifferent(x: Family, y: Family, t: seq<Family>, tf: Timeframe, k: int)
    requires Key(x, tf) != Key(y, tf)
    ensures (if Key(y, tf) == k then [y] else []) + ((if Key(x, tf) == k then [x] else []) + t)
      == (if Key(x, tf) == k then [x] else []) + ((if Key(y, tf) == k then [y] else []) + t)
  {
  }

  /** The sort is stable: households with equal savings keep their
      original relative order. */
  lemma {:induction false} LeaderboardStable(fs: seq<Family>, tf: Timeframe, k: int)
    ensures WithSavings(Leaderboard(fs, tf), tf, k) == WithSavings(fs, tf, k)
  {
    if fs != [] {
      LeaderboardStable(fs[1..], tf, k);
      InsertStable(fs[0], Leaderboard(fs[1..], tf), tf, k);
    }
  }

  // ---------------------------------------------------------------- totals

  /** The savings of `fs` in `tf`, summed. */
  function Sum(fs: seq<Family>, tf: Timeframe): int
  {
    if fs == [] then 0 else Sum(fs[..|fs| - 1], tf) + Key(fs[|fs| - 1], tf)
  }

  function SumGoal(fs: seq<Family>): int
  {
    if fs == [] then 0 else SumGoal(fs[..|fs| - 1]) + fs[|fs| - 1].goalLiters
  }

  datatype Totals = Totals(weekly: int, monthly: int, yearly: int, goal: int)

  /** What the `communityTotals` fold computes: the selected timeframe's sum
      under its own key, the yearly sum added to `yearly` a second time, the
      goal sum, and 0 for the remaining key. */
  function TotalsAsWritten(fs: seq<Family>, tf: Timeframe): (t: Totals)
    ensures SavingsIn(Savings(t.weekly, t.monthly, t.yearly), tf) == (if tf == Yearly then 2 else 1) * Sum(fs, tf)
    ensures tf != Yearly ==> t.yearly == Sum(fs, Yearly)
    ensures t.goal == SumGoal(fs)
  {
    Totals(
      if tf == Weekly then Sum(fs, Weekly) else 0,
      if tf == Monthly then Sum(fs, Monthly) else 0,
      Sum(fs, Yearly) + (if tf == Yearly then Sum(fs, Yearly) else 0),
      SumGoal(fs))
  }

  /** `acc[timeframe] += amount`. */
  function AddTo(acc: Totals, tf: Timeframe, amount: int): Totals
  {
    match tf
    case Weekly => acc.(weekly := acc.weekly + amount)
    case Monthly => acc.(monthly := acc.monthly + amount)
    case Yearly => acc.(yearly := acc.yearly + amount)
  }

  /** The `families.reduce(...)` of `communityTotals`, updating the
      accumulator in place for each household. */
  method CommunityTotals(fs: seq<Family>, tf: Timeframe) returns (acc: Totals)
    ensures acc == TotalsAsWritten(fs, tf)
  {
    acc := Totals(0, 0, 0, 0);
    for i := 0 to |fs|
      invariant acc == TotalsAsWritten(fs[..i], tf)
    {
      var family := fs[i];
      assert fs[..i + 1][..i] == fs[..i];
      acc := AddTo(acc, tf, Key(family, tf));
      acc := acc.(yearly := acc.yearly + family.savings.yearly);
      acc := acc.(goal := acc.goal + family.goalLiters);
    }
    assert fs[..|fs|] == fs;
  }

  /** The totals as the page labels them ("Total Saved this year"): each key
      counted once, whatever the timeframe. */
  function CorrectedTotals(fs: seq<Family>, tf: Timeframe): (t: Totals)
    ensures t.yearly == Sum(fs, Yearly) && t.goal == SumGoal(fs)
    ensures tf != Yearly ==> t == TotalsAsWritten(fs, tf)
    ensures SavingsIn(Savings(t.weekly, t.monthly, t.yearly), tf) == Sum(fs, tf)
  {
    Totals(
      if tf == Weekly then Sum(fs, Weekly) else 0,
      if tf == Monthly then Sum(fs, Monthly) else 0,
      Sum(fs, Yearly),
      SumGoal(fs))
  }

  /** "Average Household Progress": `Math.round(goal ? yearly / goal * 100 : 0)`. */
  function AverageProgress(t: Totals): (r: int)
    ensures t.goal == 0 ==> r == 0
    ensures t.goal > 0 ==> IsRoundedQuotient(r, 100 * t.yearly, t.goal)
    ensures t.goal < 0 ==> IsRoundedQuotient(r, -100 * t.yearly, -t.goal)
  {
    if t.goal == 0 then 0 else RoundedPercent(t.yearly, t.goal)
  }

  /** As written, the yearly view doubles the community's yearly total: on
      the page's own households the total reads 188280 L instead of 94140 L,
      and the average progress 176% instead of 88%. */
  lemma YearlyTotalDoubled()
    ensures TotalsAsWritten(Families, Yearly).yearly == 188280
    ensures CorrectedTotals(Families, Yearly).yearly == 94140
    ensures AverageProgress(TotalsAsWritten(Families, Yearly)) == 176
    ensures AverageProgress(CorrectedTotals(Families, Yearly)) == 88
  {
    var fs := Families;
    assert fs[..0] == [];
    assert Sum(fs[..1], Yearly) == 16420 by { assert fs[..1][..0] == fs[..0]; }
    assert Sum(fs[..2], Yearly) == 31280 by { assert fs[..2][..1] == fs[..1]; }
    assert Sum(fs[..3], Yearly) == 51120 by { assert fs[..3][..2] == fs[..2]; }
    assert Sum(fs[..4], Yearly) == 71680 by { assert fs[..4][..3] == fs[..3]; }
    assert Sum(fs[..5], Yearly) == 81800 by { assert fs[..5][..4] == fs[..4]; }
    assert Sum(fs, Yearly) == 94140 by { assert fs[..6] == fs; assert fs[..6][..5] == fs[..5]; }
    assert SumGoal(fs[..1]) == 18000 by { assert fs[..1][..0] == fs[..0]; }
    assert SumGoal(fs[..2]) == 33000 by { assert fs[..2][..1] == fs[..1]; }
    assert SumGoal(fs[..3]) == 55000 by { assert fs[..3][..2] == fs[..2]; }
    assert SumGoal(fs[..4]) == 79000 by { assert fs[..4][..3] == fs[..3]; }
    assert SumGoal(fs[..5]) == 91000 by { assert fs[..5][..4] == fs[..4]; }
    assert SumGoal(fs) == 107000 by { assert fs[..6] == fs; assert fs[..6][..5] == fs[..5]; }
  }

  /** As written, the headline total of every timeframe but the yearly one
      is right, and the yearly one is twice the households' yearly savings. */
  lemma ShownTotalAsWritten(fs: seq<Family>, tf: Timeframe)
    ensures var t := TotalsAsWritten(fs, tf);
      SavingsIn(Savings(t.weekly, t.monthly, t.yearly), tf) == (if tf == Yearly then 2 * Sum(fs, Yearly) else Sum(fs, tf))
  {
  }

  /** With the corrected fold, the yearly total and the average progress do
      not depend on the timeframe shown. */
  lemma CorrectedTotalsIgnoreTimeframe(fs: seq<Family>, tf1: Timeframe, tf2: Timeframe)
    ensures CorrectedTotals(fs, tf1).yearly == CorrectedTotals(fs, tf2).yearly
    ensures AverageProgress(CorrectedTotals(fs, tf1)) == AverageProgress(CorrectedTotals(fs, tf2))
  {
  }

  // ---------------------------------------------------------------- perks

  /** `selectedFamily?.savings.yearly ?? 0`. */
  function SelectedYearly(selected: Option<Family>): int
  {
    if selected.Some? then selected.value.savings.yearly else 0
  }

  /** `selectedYearly >= perk.threshold`: a household without savings has
      unlocked no perk. */
  predicate Unlocked(yearly: int, p: Perk)
    ensures p.threshold > 0 && yearly <= 0 ==> !Unlocked(yearly, p)
  {
    yearly >= p.threshold
  }

  /** `Math.min(100, Math.round(yearly / threshold * 100))`. */
  function PerkProgress(yearly: int, p: Perk): (r: int)
    requires p.threshold > 0
    ensures r <= 100
    ensures Unlocked(yearly, p) ==> r == 100
    ensures r == 100 <==> 200 * yearly >= 199 * p.threshold
    ensures r < 100 ==> IsRoundedQuotient(r, 100 * yearly, p.threshold)
    ensures yearly >= 0 ==> r >= 0
  {
    var q := RoundedPercent(yearly, p.threshold);
    RoundedReaches100(q, 100 * yearly, p.threshold);
    if q < 100 then q else 100
  }

  /** `Math.max(threshold - yearly, 0)`: the liters still to save. */
  function Remaining(yearly: int, p: Perk): (r: int)
    ensures r >= 0
    ensures r == 0 <==> Unlocked(yearly, p)
    ensures !Unlocked(yearly, p) ==> yearly + r == p.threshold
  {
    if p.threshold - yearly > 0 then p.threshold - yearly else 0
  }

  /** The perks follow the selected household. With the page's households
      one is always selected, so the `?? 0` fallback is never taken: every
      perk measures that household's own yearly savings, whatever the
      timeframe. */
  lemma PerksOfSelectedFamily(id: string)
    ensures SelectedFamily(Families, id).Some?
    ensures var f := SelectedFamily(Families, id).value;
      f in Families && SelectedYearly(SelectedFamily(Families, id)) == f.savings.yearly
    ensures (exists i :: 0 <= i < |Families| && Families[i].id == id) ==>
      SelectedFamily(Families, id).value.id == id
  {
  }

  /** Rounding can fill a perk's bar before the perk unlocks: 996 L against
      the 1000 L threshold reads 100% with 4 L still to go. */
  lemma FullBarWhileLocked()
    ensures PerkProgress(996, Perks[0]) == 100
    ensures !Unlocked(996, Perks[0]) && Remaining(996, Perks[0]) == 4
  {
    assert Perks[0].threshold == 1000;
  }

  lemma PerkThresholdsPositive()
    ensures forall p :: p in Perks ==> p.threshold > 0
  {
  }

  // ---------------------------------------------------------------- clamps

  /** `Math.min(Math.max(percent, 0), 100)`: the width of a progress bar. */
  function BarWidth(percent: real): (w: real)
    ensures 0.0 <= w <= 100.0
    ensures 0.0 <= percent <= 100.0 ==> w == percent
    ensures percent < 0.0 ==> w == 0.0
    ensures percent > 100.0 ==> w == 100.0
  {
    var low := if percent > 0.0 then percent else 0.0;
    if low < 100.0 then low else 100.0
  }

  const DefaultMinimumHeight: real := 8.0

  /** `Math.min(Math.max(percent, minimum), 100)`: the height of a column. */
  function ColumnHeight(percent: real, minimum: real): (h: real)
    ensures h <= 100.0
    ensures minimum <= 100.0 ==> minimum <= h
    ensures minimum <= percent <= 100.0 ==> h == percent
    ensures percent < minimum <= 100.0 ==> h == minimum
    ensures minimum <= 100.0 < percent ==> h == 100.0
    ensures 100.0 < minimum ==> h == 100.0
  {
    var low := if percent > minimum then percent else minimum;
    if low < 100.0 then low else 100.0
  }

  /** `Math.max(...liters)`. */
  function MaxOf(s: seq<int>): (m: int)
    requires |s| > 0
    ensures m in s
    ensures forall i :: 0 <= i < |s| ==> s[i] <= m
  {
    if |s| == 1 then s[0]
    else
      var m := MaxOf(s[..|s| - 1]);
      assert forall i :: 0 <= i < |s| - 1 ==> s[..|s| - 1][i] == s[i];
      if s[|s| - 1] > m then s[|s| - 1] else m
  }

  lemma PercentOfMax(x: int, m: int)
    requires 0 <= x <= m && m > 0
    ensures 0.0 <= (x as real / m as real) * 100.0 <= 100.0
  {
    var q := x as real / m as real;
    assert q * (m as real) == x as real;
  }

  /** One spark column: `max ? (liters / max) * 100 : 0`. */
  function SparkPercent(x: int, m: int): (p: real)
    ensures m == 0 ==> p == 0.0
    ensures m > 0 && 0 <= x <= m ==> 0.0 <= p <= 100.0
    ensures m > 0 && x == m ==> p == 100.0
  {
    if m == 0 then 0.0
    else
      var p := (x as real / m as real) * 100.0;
      if m > 0 && 0 <= x <= m then PercentOfMax(x, m); p else p
  }

  /** The spark columns' percentages: each month against the highest month,
      all 0 when the highest month is 0. */
  function SparkPercents(liters: seq<int>): (r: seq<real>)
    ensures |r| == |liters|
    ensures |liters| > 0 && MaxOf(liters) == 0 ==> forall i :: 0 <= i < |r| ==> r[i] == 0.0
    ensures |liters| > 0 && MaxOf(liters) > 0 ==>
      forall i :: 0 <= i < |r| && liters[i] >= 0 ==> 0.0 <= r[i] <= 100.0
    ensures |liters| > 0 && MaxOf(liters) > 0 ==>
      forall i :: 0 <= i < |r| && liters[i] == MaxOf(liters) ==> r[i] == 100.0
  {
    if liters == [] then []
    else
      var m := MaxOf(liters);
      seq(|liters|, i requires 0 <= i < |liters| => SparkPercent(liters[i], m))
  }

  // ---------------------------------------------------------------- selection

  /** `families.find(f => f.id === id) ?? families[0]`. */
  function SelectedFamily(fs: seq<Family>, id: string): (r: Option<Family>)
    ensures r.None? <==> fs == []
    ensures r.Some? ==> r.value in fs
    ensures (exists i :: 0 <= i < |fs| && fs[i].id == id) ==> r.Some? && r.value.id == id
    ensures fs != [] && (forall i :: 0 <= i < |fs| ==> fs[i].id != id) ==> r == Some(fs[0])
    ensures (exists i :: 0 <= i < |fs| && fs[i].id == id) ==>
      exists i :: 0 <= i < |fs| && fs[i] == r.value && forall j :: 0 <= j < i ==> fs[j].id != id
  {
    if fs == [] then None
    else match FindFamily(fs, id)
      case Some(f) => Some(f)
      case None => Some(fs[0])
  }

  /** `families.find(f => f.id === id)`: the first household with the id. */
  function FindFamily(fs: seq<Family>, id: string): (r: Option<Family>)
    ensures r.Some? ==> r.value in fs && r.value.id == id
    ensures r.None? <==> forall i :: 0 <= i < |fs| ==> fs[i].id != id
    ensures r.Some? ==> exists i :: 0 <= i < |fs| && fs[i] == r.value && forall j :: 0 <= j < i ==> fs[j].id != id
  {
    if fs == [] then None
    else if fs[0].id == id then Some(fs[0])
    else
      assert forall i :: 1 <= i < |fs| ==> fs[i] == fs[1..][i - 1];
      var r := FindFamily(fs[1..], id);
      if r.Some? then
        var k :| 0 <= k < |fs| - 1 && fs[1..][k] == r.value &&
          forall j :: 0 <= j < k ==> fs[1..][j].id != id;
        assert fs[k + 1] == r.value;
        r
      else r
  }

  /** The page's state: the timeframe shown and the selected household. */
  class CommunityPage {
    var timeframe: Timeframe
    var selectedFamilyId: string

    constructor ()
      ensures timeframe == Weekly
      ensures selectedFamilyId == Families[0].id
    {
      timeframe := Weekly;
      selectedFamilyId := Families[0].id;
    }

    method SetTimeframe(tf: Timeframe)
      modifies this
      ensures timeframe == tf && selectedFamilyId == old(selectedFamilyId)
    {
      timeframe := tf;
    }

    method SelectFamily(id: string)
      modifies this
      ensures selectedFamilyId == id && timeframe == old(timeframe)
    {
      selectedFamilyId := id;
    }

    /** The leaderboard rendered for the current timeframe: every household
        once, ranked by that timeframe's savings. */
    function ShownLeaderboard(): (r: seq<Family>)
      reads this
      ensures multiset(r) == multiset(Families)
      ensures SortedBy(r, timeframe)
    {
      Leaderboard(Families, timeframe)
    }

    function Selected(): Option<Family>
      reads this
    {
      SelectedFamily(Families, selectedFamilyId)
    }

    /** A perk card: whether it is unlocked, its progress and the liters to
        go, all measured on the selected household's yearly savings. */
    function PerkCard(p: Perk): (card: (bool, int, int))
      reads this
      requires p in Perks
      ensures Selected().Some?
      ensures card.0 <==> Selected().value.savings.yearly >= p.threshold
      ensures card.0 <==> card.2 == 0
      ensures card.1 <= 100 && (card.0 ==> card.1 == 100)
      ensures !card.0 ==> Selected().value.savings.yearly + card.2 == p.threshold
    {
      PerkThresholdsPositive();
      var yearly := SelectedYearly(Selected());
      PerksOfSelectedFamily(selectedFamilyId);
      (Unlocked(yearly, p), PerkProgress(yearly, p), Remaining(yearly, p))
    }
  }
}

/** The sales analytics of the analytics microservice: per-perfume aggregation
    of sold quantities and revenue, the two top-10 rankings, the sales totals
    and the twelve-month breakdown of a year. The receipts are what the
    repository query returned; saving the report and logging are not modelled. */
module Analytics {
  import opened Wrappers
  import opened Text
  import opened Receipts

  // ---------------------------------------------------------------------------
  // Aggregation by serial number
  // ---------------------------------------------------------------------------

  /** All line items of all receipts, receipt by receipt, in order. */
  function Items(rs: seq<FiscalReceipt>): (xs: seq<LineItem>)
    ensures rs == [] ==> xs == []
  {
    if rs == [] then [] else Items(rs[..|rs| - 1]) + rs[|rs| - 1].soldPerfumes
  }

  /** Per-serial totals: the values of the services' `Map` keyed by serial
      number. `totalQuantity` is the best-selling figure and `totalRevenue`
      the revenue figure (whose `quantitySold` is `totalQuantity` again). */
  datatype Stat = Stat(serialNumber: string, name: string, totalQuantity: int, totalRevenue: int)

  predicate UniqueSerials(stats: seq<Stat>)
  {
    forall i, j :: 0 <= i < j < |stats| ==> stats[i].serialNumber != stats[j].serialNumber
  }

  predicate HasSerial(stats: seq<Stat>, s: string)
  {
    exists k :: 0 <= k < |stats| && stats[k].serialNumber == s
  }

  /** `perfumeStats.get(serial)`: the position of that serial's entry. */
  function IndexOfSerial(stats: seq<Stat>, s: string): (r: Option<nat>)
    ensures r.None? <==> !HasSerial(stats, s)
    ensures r.Some? ==> r.value < |stats| && stats[r.value].serialNumber == s
  {
    if stats == [] then None
    else if stats[|stats| - 1].serialNumber == s then Some(|stats| - 1)
    else
      var r := IndexOfSerial(stats[..|stats| - 1], s);
      assert HasSerial(stats, s) ==> HasSerial(stats[..|stats| - 1], s) by {
        if HasSerial(stats, s) {
          var k :| 0 <= k < |stats| && stats[k].serialNumber == s;
          assert stats[..|stats| - 1][k].serialNumber == s;
        }
      }
      r
  }

  /** The entry with serial `s` is the unique one at `k`. */
  lemma EntryOf(stats: seq<Stat>, k: nat)
    requires UniqueSerials(stats) && k < |stats|
    ensures IndexOfSerial(stats, stats[k].serialNumber) == Some(k)
  {
  }

  /** The running total and the name recorded for serial `s` (0 and "" when absent). */
  function QuantityOf(stats: seq<Stat>, s: string): int
  {
    match IndexOfSerial(stats, s)
    case None => 0
    case Some(k) => stats[k].totalQuantity
  }

  function RevenueOf(stats: seq<Stat>, s: string): int
  {
    match IndexOfSerial(stats, s)
    case None => 0
    case Some(k) => stats[k].totalRevenue
  }

  function NameOf(stats: seq<Stat>, s: string): string
  {
    match IndexOfSerial(stats, s)
    case None => ""
    case Some(k) => stats[k].name
  }

  /** One step of the `forEach`: a known serial has its totals increased, a new
      one is appended with the line item's name. */
  function Add(stats: seq<Stat>, x: LineItem): seq<Stat>
  {
    match IndexOfSerial(stats, x.serialNumber)
    case None => stats + [Stat(x.serialNumber, x.name, x.quantity, x.quantity * x.pricePerUnit)]
    case Some(k) =>
      var e := stats[k];
      stats[k := Stat(e.serialNumber, e.name, e.totalQuantity + x.quantity,
                      e.totalRevenue + x.quantity * x.pricePerUnit)]
  }

  /** What one step does to the map, serial by serial. */
  lemma AddSpec(stats: seq<Stat>, x: LineItem)
    requires UniqueSerials(stats)
    ensures UniqueSerials(Add(stats, x))
    ensures forall s :: HasSerial(Add(stats, x), s) <==> HasSerial(stats, s) || s == x.serialNumber
    ensures forall s :: (QuantityOf(Add(stats, x), s) ==
      QuantityOf(stats, s) + (if s == x.serialNumber then x.quantity else 0))
    ensures forall s :: (RevenueOf(Add(stats, x), s) ==
      RevenueOf(stats, s) + (if s == x.serialNumber then x.quantity * x.pricePerUnit else 0))
    ensures forall s :: (s != x.serialNumber || HasSerial(stats, s)) ==>
      NameOf(Add(stats, x), s) == NameOf(stats, s)
    ensures !HasSerial(stats, x.serialNumber) ==> NameOf(Add(stats, x), x.serialNumber) == x.name
  {
    match IndexOfSerial(stats, x.serialNumber)
    case None => AddNewSerial(stats, x);
    case Some(k) => AddKnownSerial(stats, x, k);
  }

  lemma AddNewSerial(stats: seq<Stat>, x: LineItem)
    requires UniqueSerials(stats) && !HasSerial(stats, x.serialNumber)
    ensures var r := Add(stats, x);
      && r == stats + [Stat(x.serialNumber, x.name, x.quantity, x.quantity * x.pricePerUnit)]
      && UniqueSerials(r)
      && (forall s :: HasSerial(r, s) <==> HasSerial(stats, s) || s == x.serialNumber)
      && (forall s :: s != x.serialNumber ==> IndexOfSerial(r, s) == IndexOfSerial(stats, s))
      && IndexOfSerial(r, x.serialNumber) == Some(|stats|)
  {
    var r := Add(stats, x);
    forall s ensures HasSerial(r, s) <==> HasSerial(stats, s) || s == x.serialNumber {
      if HasSerial(stats, s) {
        var k :| 0 <= k < |stats| && stats[k].serialNumber == s;
        assert r[k].serialNumber == s;
      }
      if s == x.serialNumber { assert r[|stats|].serialNumber == s; }
    }
    assert r[..|stats|] == stats;
  }

  lemma AddKnownSerial(stats: seq<Stat>, x: LineItem, k: nat)
    requires UniqueSerials(stats) && IndexOfSerial(stats, x.serialNumber) == Some(k)
    ensures var r := Add(stats, x);
      && |r| == |stats| && UniqueSerials(r)
      && (forall s :: HasSerial(r, s) <==> HasSerial(stats, s))
      && (forall s :: IndexOfSerial(r, s) == IndexOfSerial(stats, s))
      && r[k].totalQuantity == stats[k].totalQuantity + x.quantity
      && r[k].totalRevenue == stats[k].totalRevenue + x.quantity * x.pricePerUnit
      && r[k].name == stats[k].name
      && (forall j :: 0 <= j < |r| && j != k ==> r[j] == stats[j])
  {
    var r := Add(stats, x);
    forall s ensures HasSerial(r, s) <==> HasSerial(stats, s) {
      if HasSerial(stats, s) {
        var j :| 0 <= j < |stats| && stats[j].serialNumber == s;
        assert r[j].serialNumber == s;
      }
      if HasSerial(r, s) {
        var j :| 0 <= j < |r| && r[j].serialNumber == s;
        assert stats[j].serialNumber == s;
      }
    }
    forall s ensures IndexOfSerial(r, s) == IndexOfSerial(stats, s) {
      match IndexOfSerial(stats, s)
      case None =>
      case Some(j) => EntryOf(stats, j); EntryOf(r, j);
    }
  }

  /** The map after the nested `forEach` over the line items `xs`. */
  function Agg(xs: seq<LineItem>): (stats: seq<Stat>)
    ensures UniqueSerials(stats)
  {
    if xs == [] then []
    else
      var p := Agg(xs[..|xs| - 1]);
      AddSpec(p, xs[|xs| - 1]);
      Add(p, xs[|xs| - 1])
  }

  /** The independent reference: sums over the line items with serial `s`. */
  function SumQuantity(xs: seq<LineItem>, s: string): int
  {
    if xs == [] then 0
    else SumQuantity(xs[..|xs| - 1], s) + (if xs[|xs| - 1].serialNumber == s then xs[|xs| - 1].quantity else 0)
  }

  function SumRevenue(xs: seq<LineItem>, s: string): int
  {
    if xs == [] then 0
    else
      var x := xs[|xs| - 1];
      SumRevenue(xs[..|xs| - 1], s) + (if x.serialNumber == s then x.quantity * x.pricePerUnit else 0)
  }

  predicate Occurs(xs: seq<LineItem>, s: string)
  {
    exists i :: 0 <= i < |xs| && xs[i].serialNumber == s
  }

  /** The name of the first line item with serial `s`. */
  function FirstName(xs: seq<LineItem>, s: string): string
  {
    if xs == [] then ""
    else if xs[0].serialNumber == s then xs[0].name
    else FirstName(xs[1..], s)
  }

  lemma {:induction false} FirstNameAppend(p: seq<LineItem>, x: LineItem, s: string)
    ensures FirstName(p + [x], s) ==
      if Occurs(p, s) then FirstName(p, s) else if x.serialNumber == s then x.name else ""
  {
    if p == [] {
      assert p + [x] == [x];
      assert [x][1..] == [];
    } else {
      assert (p + [x])[1..] == p[1..] + [x];
      FirstNameAppend(p[1..], x, s);
      if p[0].serialNumber != s {
        assert Occurs(p, s) ==> Occurs(p[1..], s) by {
          if Occurs(p, s) {
            var i :| 0 <= i < |p| && p[i].serialNumber == s;
            assert p[1..][i - 1].serialNumber == s;
          }
        }
        assert Occurs(p[1..], s) ==> Occurs(p, s) by {
          if Occurs(p[1..], s) {
            var i :| 0 <= i < |p[1..]| && p[1..][i].serialNumber == s;
            assert p[i + 1].serialNumber == s;
          }
        }
      }
    }
  }

  lemma OccursAppend(p: seq<LineItem>, x: LineItem, s: string)
    ensures Occurs(p + [x], s) <==> Occurs(p, s) || x.serialNumber == s
  {
    if Occurs(p, s) {
      var i :| 0 <= i < |p| && p[i].serialNumber == s;
      assert (p + [x])[i].serialNumber == s;
    }
    if Occurs(p + [x], s) {
      var i :| 0 <= i < |p + [x]| && (p + [x])[i].serialNumber == s;
      if i < |p| { assert p[i].serialNumber == s; }
    }
    assert (p + [x])[|p|] == x;
  }

  /** The aggregation is exact: one entry per serial that occurs, whose totals
      are the sums over that serial's line items and whose name is the one on
      its first line item. */
  lemma {:induction false} AggIsExact(xs: seq<LineItem>)
    ensures forall s :: HasSerial(Agg(xs), s) <==> Occurs(xs, s)
    ensures forall s :: QuantityOf(Agg(xs), s) == SumQuantity(xs, s)
    ensures forall s :: RevenueOf(Agg(xs), s) == SumRevenue(xs, s)
    ensures forall s :: Occurs(xs, s) ==> NameOf(Agg(xs), s) == FirstName(xs, s)
  {
    if xs != [] {
      var p, x := xs[..|xs| - 1], xs[|xs| - 1];
      assert xs == p + [x];
      AggIsExact(p);
      AddSpec(Agg(p), x);
      forall s ensures Occurs(xs, s) <==> Occurs(p, s) || x.serialNumber == s {
        OccursAppend(p, x, s);
      }
      forall s | Occurs(xs, s) ensures NameOf(Agg(xs), s) == FirstName(xs, s) {
        FirstNameAppend(p, x, s);
      }
    }
  }

  /** Every entry, read off by position: its serial occurs and it holds that
      serial's exact totals. */
  lemma AggEntries(xs: seq<LineItem>)
    ensures forall k :: 0 <= k < |Agg(xs)| ==>
      Occurs(xs, Agg(xs)[k].serialNumber) && Agg(xs)[k] == SerialTotals(xs, Agg(xs)[k].serialNumber)
  {
    var a := Agg(xs);
    forall k | 0 <= k < |a| ensures Occurs(xs, a[k].serialNumber) && a[k] == SerialTotals(xs, a[k].serialNumber)
    {
      EntryOf(a, k);
      EntryIsTotals(xs, k);
    }
  }

  lemma EntryIsTotals(xs: seq<LineItem>, k: nat)
    requires k < |Agg(xs)|
    requires IndexOfSerial(Agg(xs), Agg(xs)[k].serialNumber) == Some(k)
    ensures Occurs(xs, Agg(xs)[k].serialNumber) && Agg(xs)[k] == SerialTotals(xs, Agg(xs)[k].serialNumber)
  {
    AggIsExact(xs);
    assert HasSerial(Agg(xs), Agg(xs)[k].serialNumber);
  }

  lemma AggAppend(done: seq<LineItem>, x: LineItem)
    ensures Agg(done + [x]) == Add(Agg(done), x)
  {
    assert (done + [x])[..|done|] == done;
  }

  lemma PrefixEnds(before: seq<LineItem>, items: seq<LineItem>)
    ensures before + items[..0] == before && before + items[..|items|] == before + items
  {
    assert items[..0] == [] && items[..|items|] == items;
  }

  lemma PrefixStep(before: seq<LineItem>, items: seq<LineItem>, j: nat)
    requires j < |items|
    ensures before + items[..j + 1] == (before + items[..j]) + [items[j]]
  {
    assert items[..j + 1] == items[..j] + [items[j]];
  }

  /** `Items` grows receipt by receipt. */
  lemma ItemsStep(rs: seq<FiscalReceipt>, i: nat)
    requires i < |rs|
    ensures Items(rs[..i + 1]) == Items(rs[..i]) + rs[i].soldPerfumes
  {
    assert rs[..i + 1][..i] == rs[..i];
  }

  /** A serial occurs among the flattened line items exactly when some receipt sold it. */
  predicate SoldIn(rs: seq<FiscalReceipt>, s: string)
  {
    exists a, b :: 0 <= a < |rs| && 0 <= b < |rs[a].soldPerfumes| && rs[a].soldPerfumes[b].serialNumber == s
  }

  lemma {:induction false} OccursInReceipts(rs: seq<FiscalReceipt>, s: string)
    ensures Occurs(Items(rs), s) <==> SoldIn(rs, s)
  {
    if rs != [] {
      var n := |rs| - 1;
      OccursInReceipts(rs[..n], s);
      OccursConcat(Items(rs[..n]), rs[n].soldPerfumes, s);
      SoldInStep(rs, s);
    }
  }

  lemma OccursConcat(a: seq<LineItem>, b: seq<LineItem>, s: string)
    ensures Occurs(a + b, s) <==> Occurs(a, s) || Occurs(b, s)
  {
    if Occurs(a + b, s) {
      var i :| 0 <= i < |a + b| && (a + b)[i].serialNumber == s;
      if i >= |a| { assert b[i - |a|].serialNumber == s; }
    }
    if Occurs(a, s) {
      var i :| 0 <= i < |a| && a[i].serialNumber == s;
      assert (a + b)[i].serialNumber == s;
    }
    if Occurs(b, s) {
      var i :| 0 <= i < |b| && b[i].serialNumber == s;
      assert (a + b)[|a| + i].serialNumber == s;
    }
  }

  lemma SoldInStep(rs: seq<FiscalReceipt>, s: string)
    requires rs != []
    ensures SoldIn(rs, s) <==> SoldIn(rs[..|rs| - 1], s) || Occurs(rs[|rs| - 1].soldPerfumes, s)
  {
    var n := |rs| - 1;
    var p := rs[..n];
    if SoldIn(rs, s) {
      var a, b :| 0 <= a < |rs| && 0 <= b < |rs[a].soldPerfumes| && rs[a].soldPerfumes[b].serialNumber == s;
      if a < n { assert p[a] == rs[a]; }
    }
    if SoldIn(p, s) {
      var a, b :| 0 <= a < |p| && 0 <= b < |p[a].soldPerfumes| && p[a].soldPerfumes[b].serialNumber == s;
      assert rs[a] == p[a];
    }
    if Occurs(rs[n].soldPerfumes, s) {
      var b :| 0 <= b < |rs[n].soldPerfumes| && rs[n].soldPerfumes[b].serialNumber == s;
      assert rs[n].soldPerfumes[b].serialNumber == s;
    }
  }

  /** The `forEach` over the receipts, updating the map for each receipt's
      line items. */
  method Aggregate(receipts: seq<FiscalReceipt>) returns (stats: seq<Stat>)
    ensures stats == Agg(Items(receipts))
  {
    stats := [];
    var i := 0;
    while i < |receipts|
      invariant 0 <= i <= |receipts|
      invariant stats == Agg(Items(receipts[..i]))
    {
      ItemsStep(receipts, i);
      stats := RecordItems(stats, receipts[i].soldPerfumes, Items(receipts[..i]));
      i := i + 1;
    }
    assert receipts[..i] == receipts;
  }

  /** The inner `forEach` over one receipt's line items: each item's serial
      gets its entry created or its totals increased. */
  method RecordItems(stats0: seq<Stat>, items: seq<LineItem>, ghost before: seq<LineItem>)
    returns (stats: seq<Stat>)
    requires stats0 == Agg(before)
    ensures stats == Agg(before + items)
  {
    stats := stats0;
    ghost var done := before;
    PrefixEnds(before, items);
    var j := 0;
    while j < |items|
      invariant 0 <= j <= |items|
      invariant done == before + items[..j]
      invariant stats == Agg(done)
    {
      AggAppend(done, items[j]);
      stats := Record(stats, items[j]);
      PrefixStep(before, items, j);
      done := done + [items[j]];
      j := j + 1;
    }
  }

  /** `perfumeStats.set(serial, { ...existing, totals + this item })`, with
      `existing` a fresh zero entry named after the item when the serial is new. */
  method Record(stats0: seq<Stat>, x: LineItem) returns (stats: seq<Stat>)
    ensures stats == Add(stats0, x)
  {
    stats := stats0;
    match IndexOfSerial(stats, x.serialNumber) {
      case None =>
        stats := stats + [Stat(x.serialNumber, x.name, x.quantity, x.quantity * x.pricePerUnit)];
      case Some(k) =>
        var e := stats[k];
        stats := stats[k := Stat(e.serialNumber, e.name, e.totalQuantity + x.quantity,
                                 e.totalRevenue + x.quantity * x.pricePerUnit)];
    }
  }

  // ---------------------------------------------------------------------------
  // Top 10
  // ---------------------------------------------------------------------------

  /** The two rankings: `getTop10BestSellingPerfumes` sorts by quantity,
      `getTop10RevenueByPerfume` by revenue. */
  datatype Ranking = ByQuantity | ByRevenue

  function Key(e: Stat, order: Ranking): int
  {
    match order
    case ByQuantity => e.totalQuantity
    case ByRevenue => e.totalRevenue
  }

  predicate Descending(xs: seq<Stat>, order: Ranking)
  {
    forall i, j :: 0 <= i < j < |xs| ==> Key(xs[i], order) >= Key(xs[j], order)
  }

  function InsertDesc(x: Stat, xs: seq<Stat>, order: Ranking): (r: seq<Stat>)
    requires Descending(xs, order)
    ensures multiset(r) == multiset(xs) + multiset{x}
    ensures forall i :: 0 <= i < |r| ==> r[i] == x || r[i] in xs
    ensures Descending(r, order)
  {
    if xs == [] || Key(x, order) >= Key(xs[0], order) then
      InsertFront(x, xs, order);
      [x] + xs
    else
      var t := InsertDesc(x, xs[1..], order);
      assert xs == [xs[0]] + xs[1..];
      InsertBehind(x, xs, t, order);
      [xs[0]] + t
  }

  lemma InsertFront(x: Stat, xs: seq<Stat>, order: Ranking)
    requires Descending(xs, order)
    requires xs == [] || Key(x, order) >= Key(xs[0], order)
    ensures Descending([x] + xs, order)
  {
    var r := [x] + xs;
    forall i, j | 0 <= i < j < |r| ensures Key(r[i], order) >= Key(r[j], order) {
      if i == 0 && j > 1 { assert Key(xs[0], order) >= Key(xs[j - 1], order); }
    }
  }

  lemma InsertBehind(x: Stat, xs: seq<Stat>, t: seq<Stat>, order: Ranking)
    requires Descending(xs, order) && xs != [] && Key(x, order) < Key(xs[0], order)
    requires Descending(t, order)
    requires forall i :: 0 <= i < |t| ==> t[i] == x || t[i] in xs[1..]
    ensures Descending([xs[0]] + t, order)
  {
    var r := [xs[0]] + t;
    forall j | 0 <= j < |t| ensures Key(xs[0], order) >= Key(t[j], order) {
      if t[j] != x {
        var k :| 0 <= k < |xs[1..]| && xs[1..][k] == t[j];
        assert xs[k + 1] == t[j];
      }
    }
    forall i, j | 0 <= i < j < |r| ensures Key(r[i], order) >= Key(r[j], order) {
      if i == 0 { assert r[j] == t[j - 1]; } else { assert r[i] == t[i - 1] && r[j] == t[j - 1]; }
    }
  }

  /** `sort((a, b) => b.key - a.key)`: descending by the key; equal keys keep
      their map order, as JavaScript's sort is stable. */
  function SortDesc(xs: seq<Stat>, order: Ranking): (r: seq<Stat>)
    ensures multiset(r) == multiset(xs)
    ensures Descending(r, order)
  {
    if xs == [] then []
    else
      assert xs == [xs[0]] + xs[1..];
      InsertDesc(xs[0], SortDesc(xs[1..], order), order)
  }

  /** A listed entry with its `rank`. */
  datatype Ranked = Ranked(rank: nat, entry: Stat)

  function Rank(xs: seq<Stat>): (r: seq<Ranked>)
    ensures |r| == |xs| && forall i :: 0 <= i < |r| ==> r[i].rank == i + 1 && r[i].entry == xs[i]
  {
    seq(|xs|, i requires 0 <= i < |xs| => Ranked(i + 1, xs[i]))
  }

  predicate Listed(top: seq<Ranked>, e: Stat)
  {
    exists i :: 0 <= i < |top| && top[i].entry == e
  }

  /** The listed entries, in rank order. */
  function Entries(top: seq<Ranked>): (es: seq<Stat>)
    ensures |es| == |top| && forall i :: 0 <= i < |top| ==> es[i] == top[i].entry
  {
    seq(|top|, i requires 0 <= i < |top| => top[i].entry)
  }

  /** `.sort(...).slice(0, 10).map((item, index) => ({ rank: index + 1, ... }))`. */
  function Top10(stats: seq<Stat>, order: Ranking): (top: seq<Ranked>)
    ensures |top| == if |stats| < 10 then |stats| else 10
    ensures forall i :: 0 <= i < |top| ==> top[i].rank == i + 1 && top[i].entry in stats
    ensures forall i, j :: 0 <= i < j < |top| ==> Key(top[i].entry, order) >= Key(top[j].entry, order)
    ensures forall e :: e in stats && !Listed(top, e) ==> Key(e, order) <= Key(top[|top| - 1].entry, order)
    ensures multiset(Entries(top)) <= multiset(stats)
  {
    var sorted := SortDesc(stats, order);
    var m := if |sorted| < 10 then |sorted| else 10;
    TopOfSorted(stats, sorted, m, order);
    Rank(sorted[..m])
  }

  lemma TopOfSorted(stats: seq<Stat>, sorted: seq<Stat>, m: nat, order: Ranking)
    requires multiset(sorted) == multiset(stats) && Descending(sorted, order)
    requires m == if |sorted| < 10 then |sorted| else 10
    ensures var top := Rank(sorted[..m]);
      && |top| == (if |stats| < 10 then |stats| else 10)
      && (forall i :: 0 <= i < |top| ==> top[i].rank == i + 1 && top[i].entry in stats)
      && (forall i, j :: 0 <= i < j < |top| ==> Key(top[i].entry, order) >= Key(top[j].entry, order))
      && (forall e :: e in stats && !Listed(top, e) ==> Key(e, order) <= Key(top[|top| - 1].entry, order))
      && multiset(Entries(top)) <= multiset(stats)
  {
    var top := Rank(sorted[..m]);
    PrefixEntries(sorted, m);
    assert |sorted| == |stats| by {
      assert |sorted| == |multiset(sorted)| == |multiset(stats)| == |stats|;
    }
    forall i, j | 0 <= i < j < |top| ensures Key(top[i].entry, order) >= Key(top[j].entry, order) {
      assert top[i].entry == sorted[i] && top[j].entry == sorted[j];
    }
    PrefixOfSorted(stats, sorted, m, top, order);
  }

  lemma PrefixEntries(sorted: seq<Stat>, m: nat)
    requires m <= |sorted|
    ensures multiset(Entries(Rank(sorted[..m]))) <= multiset(sorted)
  {
    assert Entries(Rank(sorted[..m])) == sorted[..m];
    assert sorted == sorted[..m] + sorted[m..];
  }

  lemma PrefixOfSorted(stats: seq<Stat>, sorted: seq<Stat>, m: nat, top: seq<Ranked>, order: Ranking)
    requires multiset(sorted) == multiset(stats) && Descending(sorted, order)
    requires m <= |sorted| && (m == |sorted| || m > 0)
    requires |top| == m && forall i :: 0 <= i < m ==> top[i].entry == sorted[i]
    ensures forall i :: 0 <= i < m ==> top[i].entry in stats
    ensures forall e :: e in stats && !Listed(top, e) ==> Key(e, order) <= Key(top[|top| - 1].entry, order)
  {
    forall i | 0 <= i < m ensures top[i].entry in stats {
      assert sorted[i] in multiset(sorted);
    }
    forall e | e in stats && !Listed(top, e) ensures Key(e, order) <= Key(top[|top| - 1].entry, order) {
      assert e in multiset(sorted);
      var j :| 0 <= j < |sorted| && sorted[j] == e;
      if j < m {
        assert false;
      }
      assert Key(sorted[m - 1], order) >= Key(sorted[j], order);
    }
  }

  /** Over the map's entries, whose serials are unique, no serial is listed twice. */
  lemma TopTenDistinct(stats: seq<Stat>, order: Ranking)
    requires UniqueSerials(stats)
    ensures var top := Top10(stats, order);
      forall i, j :: 0 <= i < j < |top| ==> top[i].entry.serialNumber != top[j].entry.serialNumber
  {
    var top := Top10(stats, order);
    var es := Entries(top);
    forall i, j | 0 <= i < j < |top| ensures top[i].entry.serialNumber != top[j].entry.serialNumber {
      SameSerialSameEntry(stats, top[i].entry, top[j].entry);
      CountedTwice(es, i, j);
      CountedOnce(stats, es[i]);
    }
  }

  lemma SameSerialSameEntry(stats: seq<Stat>, a: Stat, b: Stat)
    requires UniqueSerials(stats) && a in stats && b in stats
    ensures a.serialNumber == b.serialNumber ==> a == b
  {
    var ka :| 0 <= ka < |stats| && stats[ka] == a;
    var kb :| 0 <= kb < |stats| && stats[kb] == b;
  }

  /** An element at two positions is counted at least twice. */
  lemma CountedTwice(es: seq<Stat>, i: nat, j: nat)
    requires i < j < |es|
    ensures multiset(es)[es[i]] >= if es[i] == es[j] then 2 else 1
  {
    assert es == es[..j] + [es[j]] + es[j + 1..];
    assert es[i] in es[..j];
  }

  /** With unique serials every entry occurs at most once. */
  lemma {:induction false} CountedOnce(stats: seq<Stat>, e: Stat)
    requires UniqueSerials(stats)
    ensures multiset(stats)[e] <= 1
  {
    if stats != [] {
      var n := |stats| - 1;
      var p := stats[..n];
      assert stats == p + [stats[n]];
      assert UniqueSerials(p);
      CountedOnce(p, e);
      if stats[n] == e {
        assert forall k :: 0 <= k < n ==> p[k].serialNumber != e.serialNumber;
        assert e !in p;
      }
    }
  }

  /** What both rankings promise about each listed entry: it was sold on some
      receipt and carries its serial's exact totals and first-seen name. */
  lemma TopTenListed(receipts: seq<FiscalReceipt>, order: Ranking)
    ensures var xs := Items(receipts);
      var top := Top10(Agg(xs), order);
      forall i :: 0 <= i < |top| ==>
        && SoldIn(receipts, top[i].entry.serialNumber)
        && top[i].entry == SerialTotals(xs, top[i].entry.serialNumber)
  {
    var xs := Items(receipts);
    var a := Agg(xs);
    var top := Top10(a, order);
    AggEntries(xs);
    forall i | 0 <= i < |top|
      ensures SoldIn(receipts, top[i].entry.serialNumber)
      ensures top[i].entry == SerialTotals(xs, top[i].entry.serialNumber)
    {
      var k :| 0 <= k < |a| && a[k] == top[i].entry;
      OccursInReceipts(receipts, top[i].entry.serialNumber);
    }
  }

  /** No serial sold on some receipt and left out of the list has a strictly
      larger total than the last listed entry. */
  lemma TopTenComplete(receipts: seq<FiscalReceipt>, order: Ranking, s: string)
    requires SoldIn(receipts, s)
    requires var top := Top10(Agg(Items(receipts)), order);
      forall i :: 0 <= i < |top| ==> top[i].entry.serialNumber != s
    ensures var xs := Items(receipts);
      var top := Top10(Agg(xs), order);
      0 < |top| && Key(SerialTotals(xs, s), order) <= Key(top[|top| - 1].entry, order)
  {
    var xs := Items(receipts);
    var a := Agg(xs);
    var top := Top10(a, order);
    OccursInReceipts(receipts, s);
    var k := AggEntryOf(xs, s);
    assert a[k].serialNumber == s;
  }

  /** The entry of a serial that occurs is its exact totals. */
  lemma AggEntryOf(xs: seq<LineItem>, s: string) returns (k: nat)
    requires Occurs(xs, s)
    ensures k < |Agg(xs)| && Agg(xs)[k] == SerialTotals(xs, s)
  {
    AggIsExact(xs);
    var a := Agg(xs);
    k := IndexOfSerial(a, s).value;
  }

  /** The totals of serial `s` over all line items: the entry the map holds for it. */
  function SerialTotals(xs: seq<LineItem>, s: string): Stat
  {
    Stat(s, FirstName(xs, s), SumQuantity(xs, s), SumRevenue(xs, s))
  }

  /** `getTop10BestSellingPerfumes`: the aggregation, then the ranking by quantity. */
  method TopBestSelling(receipts: seq<FiscalReceipt>) returns (top: seq<Ranked>)
    ensures top == Top10(Agg(Items(receipts)), ByQuantity)
    ensures |top| <= 10 && forall i :: 0 <= i < |top| ==> top[i].rank == i + 1
    ensures forall i :: 0 <= i < |top| ==>
      SoldIn(receipts, top[i].entry.serialNumber)
      && top[i].entry.totalQuantity == SumQuantity(Items(receipts), top[i].entry.serialNumber)
    ensures forall i, j :: 0 <= i < j < |top| ==> top[i].entry.serialNumber != top[j].entry.serialNumber
  {
    var stats := Aggregate(receipts);
    top := Top10(stats, ByQuantity);
    TopTenListed(receipts, ByQuantity);
    TopTenDistinct(stats, ByQuantity);
  }

  /** The `totalRevenueFromTop10` reduction over the listed entries. */
  function ListedRevenue(top: seq<Ranked>): int
  {
    if top == [] then 0 else ListedRevenue(top[..|top| - 1]) + top[|top| - 1].entry.totalRevenue
  }

  /** `getTop10RevenueByPerfume`: the aggregation, the ranking by revenue and
      the sum of the listed revenues. */
  method TopRevenue(receipts: seq<FiscalReceipt>) returns (top: seq<Ranked>, totalFromTop10: int)
    ensures top == Top10(Agg(Items(receipts)), ByRevenue)
    ensures totalFromTop10 == ListedRevenue(top)
    ensures |top| <= 10 && forall i :: 0 <= i < |top| ==> top[i].rank == i + 1
    ensures forall i :: 0 <= i < |top| ==>
      SoldIn(receipts, top[i].entry.serialNumber)
      && top[i].entry.totalRevenue == SumRevenue(Items(receipts), top[i].entry.serialNumber)
      && top[i].entry.totalQuantity == SumQuantity(Items(receipts), top[i].entry.serialNumber)
    ensures forall i, j :: 0 <= i < j < |top| ==> top[i].entry.serialNumber != top[j].entry.serialNumber
  {
    var stats := Aggregate(receipts);
    top := Top10(stats, ByRevenue);
    TopTenListed(receipts, ByRevenue);
    TopTenDistinct(stats, ByRevenue);
    totalFromTop10 := ListedRevenue(top);
  }

  // ---------------------------------------------------------------------------
  // Totals, the period label and the monthly breakdown
  // ---------------------------------------------------------------------------

  /** `receipts.reduce((sum, r) => sum + Number(r.totalAmount), 0)`. */
  function TotalSales(rs: seq<FiscalReceipt>): int
  {
    if rs == [] then 0 else TotalSales(rs[..|rs| - 1]) + rs[|rs| - 1].totalAmount
  }

  /** `totalSales / totalTransactions`, or 0 when there are none. */
  function Average(total: int, count: nat): (r: real)
    ensures count == 0 ==> r == 0.0
    ensures count > 0 ==> r * (count as real) == total as real
  {
    if count > 0 then (total as real) / (count as real) else 0.0
  }

  datatype SalesSummary = SalesSummary(totalSales: int, totalTransactions: nat, averageTransaction: real)

  /** The figures of `calculateSalesByMonth` and `calculateTotalSales` for the
      receipts of the period. */
  function Summary(rs: seq<FiscalReceipt>): (r: SalesSummary)
    ensures r.totalTransactions == |rs| && r.totalSales == TotalSales(rs)
    ensures rs == [] ==> r.totalSales == 0 && r.averageTransaction == 0.0
    ensures rs != [] ==> r.averageTransaction * (|rs| as real) == r.totalSales as real
  {
    SalesSummary(TotalSales(rs), |rs|, Average(TotalSales(rs), |rs|))
  }

  /** The `period` of a monthly report: `${year}-${String(month).padStart(2, '0')}`. */
  function MonthLabel(year: int, month: int): string
  {
    IntToString(year) + "-" + PadStart(IntToString(month), 2, '0')
  }

  /** For a real year and month the label is the year's digits, a dash and
      two digits that read back as the month. */
  lemma MonthLabelFields(year: nat, month: int)
    requires 1 <= month <= 12
    ensures var r := MonthLabel(year, month);
      && |r| == |NatToString(year)| + 3
      && r[..|r| - 3] == NatToString(year) && r[|r| - 3] == '-'
      && AllDigits(r[|r| - 2..]) && ParseNat(r[|r| - 2..]) == month
  {
    var ys, mm := NatToString(year), Pad2(month);
    assert IntToString(year) == ys;
    assert PadStart(IntToString(month), 2, '0') == mm;
    LabelParts(ys, mm);
  }

  lemma LabelParts(ys: string, mm: string)
    ensures var r := ys + "-" + mm;
      |r| == |ys| + 1 + |mm| && r[..|ys|] == ys && r[|ys|] == '-' && r[|ys| + 1..] == mm
  {
  }

  /** `new Date(r.saleDate).getMonth()`: a month index 0..11. */
  type MonthIndex = m: int | 0 <= m < 12

  /** One element of `monthlyBreakdown`. */
  datatype MonthEntry = MonthEntry(month: int, totalSales: int, transactions: nat)

  /** `receipts.filter(r => monthOf(r.saleDate) === m)`. */
  function InMonth(rs: seq<FiscalReceipt>, monthOf: int -> MonthIndex, m: int): seq<FiscalReceipt>
  {
    if rs == [] then []
    else InMonth(rs[..|rs| - 1], monthOf, m) + (if monthOf(rs[|rs| - 1].saleDate) == m then [rs[|rs| - 1]] else [])
  }

  /** `Array.from({ length: 12 }, (_, i) => ...)` of `calculateSalesByYear`;
      `monthOf` is `getMonth` on a sale date. */
  function Breakdown(rs: seq<FiscalReceipt>, monthOf: int -> MonthIndex): (b: seq<MonthEntry>)
    ensures |b| == 12 && forall i :: 0 <= i < 12 ==> b[i].month == i + 1
  {
    seq(12, i requires 0 <= i < 12 =>
      MonthEntry(i + 1, TotalSales(InMonth(rs, monthOf, i)), |InMonth(rs, monthOf, i)|))
  }

  function SumTransactions(b: seq<MonthEntry>): int
  {
    if b == [] then 0 else SumTransactions(b[..|b| - 1]) + b[|b| - 1].transactions
  }

  function SumMonthSales(b: seq<MonthEntry>): int
  {
    if b == [] then 0 else SumMonthSales(b[..|b| - 1]) + b[|b| - 1].totalSales
  }

  /** The receipts falling into months before `n`. */
  function Before(rs: seq<FiscalReceipt>, monthOf: int -> MonthIndex, n: int): seq<FiscalReceipt>
  {
    if rs == [] then []
    else Before(rs[..|rs| - 1], monthOf, n) + (if monthOf(rs[|rs| - 1].saleDate) < n then [rs[|rs| - 1]] else [])
  }

  lemma {:induction false} TotalSalesAppend(a: seq<FiscalReceipt>, b: seq<FiscalReceipt>)
    ensures TotalSales(a + b) == TotalSales(a) + TotalSales(b)
  {
    if b != [] {
      assert (a + b)[..|a + b| - 1] == a + b[..|b| - 1];
      TotalSalesAppend(a, b[..|b| - 1]);
    } else {
      assert a + b == a;
    }
  }

  /** Adding month `n` to the months before it. */
  lemma {:induction false} BeforeStep(rs: seq<FiscalReceipt>, monthOf: int -> MonthIndex, n: int)
    ensures |Before(rs, monthOf, n + 1)| == |Before(rs, monthOf, n)| + |InMonth(rs, monthOf, n)|
    ensures TotalSales(Before(rs, monthOf, n + 1)) ==
      TotalSales(Before(rs, monthOf, n)) + TotalSales(InMonth(rs, monthOf, n))
  {
    if rs != [] {
      var p, x := rs[..|rs| - 1], rs[|rs| - 1];
      BeforeStep(p, monthOf, n);
      var e: seq<FiscalReceipt> := [];
      var bn1 := if monthOf(x.saleDate) < n + 1 then [x] else e;
      var bn := if monthOf(x.saleDate) < n then [x] else e;
      var im := if monthOf(x.saleDate) == n then [x] else e;
      TotalSalesAppend(Before(p, monthOf, n + 1), bn1);
      TotalSalesAppend(Before(p, monthOf, n), bn);
      TotalSalesAppend(InMonth(p, monthOf, n), im);
      assert TotalSales([x]) == x.totalAmount by { assert [x][..0] == []; }
    }
  }

  /** Every receipt falls into one of the twelve months. */
  lemma {:induction false} BeforeTwelve(rs: seq<FiscalReceipt>, monthOf: int -> MonthIndex)
    ensures Before(rs, monthOf, 12) == rs
  {
    if rs != [] {
      BeforeTwelve(rs[..|rs| - 1], monthOf);
      assert rs == rs[..|rs| - 1] + [rs[|rs| - 1]];
    }
  }

  lemma {:induction false} BreakdownPrefix(rs: seq<FiscalReceipt>, monthOf: int -> MonthIndex, n: nat)
    requires n <= 12
    ensures SumTransactions(Breakdown(rs, monthOf)[..n]) == |Before(rs, monthOf, n)|
    ensures SumMonthSales(Breakdown(rs, monthOf)[..n]) == TotalSales(Before(rs, monthOf, n))
  {
    var b := Breakdown(rs, monthOf);
    if n == 0 {
      BeforeNone(rs, monthOf);
    } else {
      BreakdownPrefix(rs, monthOf, n - 1);
      assert b[..n][..n - 1] == b[..n - 1];
      BeforeStep(rs, monthOf, n - 1);
    }
  }

  lemma {:induction false} BeforeNone(rs: seq<FiscalReceipt>, monthOf: int -> MonthIndex)
    ensures Before(rs, monthOf, 0) == []
  {
    if rs != [] { BeforeNone(rs[..|rs| - 1], monthOf); }
  }

  /** The twelve monthly transaction counts add up to `totalTransactions`, and
      the twelve monthly totals to the year's total. */
  lemma BreakdownAddsUp(rs: seq<FiscalReceipt>, monthOf: int -> MonthIndex)
    ensures SumTransactions(Breakdown(rs, monthOf)) == |rs|
    ensures SumMonthSales(Breakdown(rs, monthOf)) == TotalSales(rs)
  {
    var b := Breakdown(rs, monthOf);
    BreakdownPrefix(rs, monthOf, 12);
    assert b[..12] == b;
    BeforeTwelve(rs, monthOf);
  }
}

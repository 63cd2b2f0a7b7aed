/** The sales dashboard (views/Dashboard.tsx): revenue, average order value,
    per-day totals, the category breakdown and the low-stock count. */
module Dashboard {
  import opened Types
  import opened Seqs
  import opened Db

  /** `transactions.reduce((acc, t) => acc + t.total, 0)`; never negative when
      no total is. */
  function TotalRevenue(ts: seq<Transaction>): (r: real)
    ensures (forall i :: 0 <= i < |ts| ==> ts[i].total >= 0.0) ==> r >= 0.0
  {
    if ts == [] then 0.0 else TotalRevenue(ts[..|ts| - 1]) + ts[|ts| - 1].total
  }

  /** The revenue of two ledgers side by side is the sum of their revenues. */
  lemma {:induction false} RevenueAppend(a: seq<Transaction>, b: seq<Transaction>)
    ensures TotalRevenue(a + b) == TotalRevenue(a) + TotalRevenue(b)
    decreases |b|
  {
    if b == [] {
      assert a + b == a;
    } else {
      assert (a + b)[..|a + b| - 1] == a + b[..|b| - 1];
      RevenueAppend(a, b[..|b| - 1]);
    }
  }

  /** With every total between lo and hi, the revenue lies between n*lo and n*hi. */
  lemma {:induction false} RevenueBetween(ts: seq<Transaction>, lo: real, hi: real)
    requires forall i :: 0 <= i < |ts| ==> lo <= ts[i].total <= hi
    ensures lo * (|ts| as real) <= TotalRevenue(ts) <= hi * (|ts| as real)
  {
    if ts != [] {
      var n := |ts| - 1;
      RevenueBetween(ts[..n], lo, hi);
      assert lo * ((n + 1) as real) == lo * (n as real) + lo;
      assert hi * ((n + 1) as real) == hi * (n as real) + hi;
    }
  }

  /** avgOrderValue: revenue divided by the order count, or 0 with no orders. */
  function AvgOrderValue(ts: seq<Transaction>): (r: real)
    ensures |ts| == 0 ==> r == 0.0
    ensures |ts| > 0 ==> r * (|ts| as real) == TotalRevenue(ts)
  {
    if |ts| > 0 then TotalRevenue(ts) / (|ts| as real) else 0.0
  }

  /** The average lies between the smallest and the largest order total. */
  lemma AverageWithinBounds(ts: seq<Transaction>, lo: real, hi: real)
    requires |ts| > 0
    requires forall i :: 0 <= i < |ts| ==> lo <= ts[i].total <= hi
    ensures lo <= AvgOrderValue(ts) <= hi
  {
    RevenueBetween(ts, lo, hi);
    ScaleBack(AvgOrderValue(ts), |ts| as real, TotalRevenue(ts), lo, hi);
  }

  /** A quotient by a positive count keeps the bounds its numerator has in
      multiples of that count. */
  lemma ScaleBack(avg: real, n: real, sum: real, lo: real, hi: real)
    requires n > 0.0 && avg * n == sum
    requires lo * n <= sum <= hi * n
    ensures lo <= avg <= hi
  {
    assert avg < lo ==> avg * n < lo * n;
    assert avg > hi ==> avg * n > hi * n;
  }

  /** `day` is a prefix of the date, as `date.startsWith(day)` tests. */
  function PrefixOf(date: string): string -> bool
  {
    (day: string) => day <= date
  }

  /** `t.date.startsWith(day)`. */
  function OnDay(day: string): Transaction -> bool
  {
    (t: Transaction) => PrefixOf(t.date)(day)
  }

  /** One day's bucket, filter then reduce: it adds up exactly the totals of
      the transactions whose date starts with the day. */
  function DayTotal(ts: seq<Transaction>, day: string): (r: real)
    ensures r == DaySum(ts, day)
  {
    FilteredRevenueIsDaySum(ts, day);
    TotalRevenue(Filter(ts, OnDay(day)))
  }

  /** A direct definition of the same bucket, transaction by transaction. */
  function DaySum(ts: seq<Transaction>, day: string): real
  {
    if ts == [] then 0.0
    else DaySum(ts[..|ts| - 1], day) + (if PrefixOf(ts[|ts| - 1].date)(day) then ts[|ts| - 1].total else 0.0)
  }

  lemma {:induction false} FilteredRevenueIsDaySum(ts: seq<Transaction>, day: string)
    ensures TotalRevenue(Filter(ts, OnDay(day))) == DaySum(ts, day)
  {
    if ts != [] {
      var front := ts[..|ts| - 1];
      var t := ts[|ts| - 1];
      var f := OnDay(day);
      assert ts == front + [t];
      FilteredRevenueIsDaySum(front, day);
      FilterAppend(front, [t], f);
      var hit := PrefixOf(t.date)(day);
      var last := Filter([t], f);
      assert f(t) == hit && [t][1..] == [];
      assert last == if hit then [t] else [];
      assert TotalRevenue(last) == if hit then t.total else 0.0 by {
        assert [t][..0] == [];
      }
      RevenueAppend(Filter(front, f), last);
      calc {
        TotalRevenue(Filter(ts, f));
        TotalRevenue(Filter(front + [t], f));
        TotalRevenue(Filter(front, f) + last);
        TotalRevenue(Filter(front, f)) + TotalRevenue(last);
        DaySum(front, day) + (if hit then t.total else 0.0);
        DaySum(ts, day);
      }
    }
  }

  /** With non-negative totals a day's bucket is never more than the revenue. */
  lemma {:induction false} DayTotalAtMostRevenue(ts: seq<Transaction>, day: string)
    requires forall i :: 0 <= i < |ts| ==> ts[i].total >= 0.0
    ensures 0.0 <= DayTotal(ts, day) <= TotalRevenue(ts)
  {
    DaySumBounded(ts, day);
  }

  lemma {:induction false} DaySumBounded(ts: seq<Transaction>, day: string)
    requires forall i :: 0 <= i < |ts| ==> ts[i].total >= 0.0
    ensures 0.0 <= DaySum(ts, day) <= TotalRevenue(ts)
  {
    if ts != [] {
      DaySumBounded(ts[..|ts| - 1], day);
    }
  }

  /** last7Days: the buckets of the given days (today first), listed oldest first. */
  function Trend(ts: seq<Transaction>, days: seq<string>): (r: seq<real>)
    ensures |r| == |days|
    ensures forall j :: 0 <= j < |days| ==> r[j] == DayTotal(ts, days[|days| - 1 - j])
  {
    seq(|days|, j requires 0 <= j < |days| => DayTotal(ts, days[|days| - 1 - j]))
  }

  /** The height of a bar chart: the sum of its bars. */
  function SumReals(r: seq<real>): real
  {
    if r == [] then 0.0 else SumReals(r[..|r| - 1]) + r[|r| - 1]
  }

  /** The buckets of the given days, in the given order. */
  function BucketSum(ts: seq<Transaction>, days: seq<string>): real
  {
    if days == [] then 0.0 else DaySum(ts, days[0]) + BucketSum(ts, days[1..])
  }

  /** Reversing the days does not change the sum of the buckets. */
  lemma {:induction false} TrendSum(ts: seq<Transaction>, days: seq<string>)
    ensures SumReals(Trend(ts, days)) == BucketSum(ts, days)
  {
    if days != [] {
      var r := Trend(ts, days);
      TrendSum(ts, days[1..]);
      assert r[..|r| - 1] == Trend(ts, days[1..]);
    }
  }

  lemma {:induction false} BucketSumOfEmpty(days: seq<string>)
    ensures BucketSum([], days) == 0.0
  {
    if days != [] {
      BucketSumOfEmpty(days[1..]);
    }
  }

  /** One more transaction adds its total once per day that prefixes its date. */
  lemma {:induction false} BucketSumStep(ts: seq<Transaction>, days: seq<string>)
    requires ts != []
    ensures BucketSum(ts, days)
         == BucketSum(ts[..|ts| - 1], days) + (Count(days, PrefixOf(ts[|ts| - 1].date)) as real) * ts[|ts| - 1].total
  {
    if days != [] {
      var t := ts[|ts| - 1];
      BucketSumStep(ts, days[1..]);
      var h := Count(days[1..], PrefixOf(t.date)) as real;
      assert (h + 1.0) * t.total == h * t.total + t.total;
    }
  }

  lemma SamePrefixLength(a: string, b: string, date: string)
    requires |a| == |b|
    ensures a <= date && b <= date ==> a == b
  {
  }

  /** Distinct days of one common length never both prefix the same date. */
  lemma {:induction false} AtMostOneDayMatches(days: seq<string>, date: string)
    requires Distinct(days)
    requires forall i :: 0 <= i < |days| ==> |days[i]| == 10
    ensures Count(days, PrefixOf(date)) <= 1
  {
    if days != [] {
      var rest := days[1..];
      AtMostOneDayMatches(rest, date);
      if days[0] <= date {
        forall d | d in rest ensures !PrefixOf(date)(d) {
          var j :| 0 <= j < |rest| && rest[j] == d;
          assert days[j + 1] == d && days[0] != d;
          SamePrefixLength(d, days[0], date);
        }
        CountNone(rest, PrefixOf(date));
      }
    }
  }

  /** With non-negative totals and distinct ISO days, the buckets together hold
      at most the whole revenue. */
  lemma {:induction false} BucketSumBounded(ts: seq<Transaction>, days: seq<string>)
    requires forall i :: 0 <= i < |ts| ==> ts[i].total >= 0.0
    requires Distinct(days)
    requires forall i :: 0 <= i < |days| ==> |days[i]| == 10
    ensures 0.0 <= BucketSum(ts, days) <= TotalRevenue(ts)
  {
    if ts == [] {
      BucketSumOfEmpty(days);
    } else {
      var front, t := ts[..|ts| - 1], ts[|ts| - 1];
      BucketSumBounded(front, days);
      BucketSumStep(ts, days);
      AtMostOneDayMatches(days, t.date);
      var h := Count(days, PrefixOf(t.date));
      var added := (h as real) * t.total;
      assert 0.0 <= added <= t.total by {
        assert t.total >= 0.0;
        if h == 0 {
          assert added == 0.0;
        } else {
          assert h == 1;
          assert added == t.total;
        }
      }
      assert BucketSum(ts, days) == BucketSum(front, days) + added;
      assert TotalRevenue(ts) == TotalRevenue(front) + t.total;
    }
  }

  /** When the given days are distinct `YYYY-MM-DD` strings, no sale lands in
      two buckets, so the bars of the trend chart never add up to more than the
      revenue. Distinct days are a hypothesis here: the dashboard derives them
      from a local-time clock, and across a daylight-saving change two of them
      can coincide. */
  lemma TrendAtMostRevenue(ts: seq<Transaction>, days: seq<string>)
    requires forall i :: 0 <= i < |ts| ==> ts[i].total >= 0.0
    requires Distinct(days)
    requires forall i :: 0 <= i < |days| ==> |days[i]| == 10
    ensures 0.0 <= SumReals(Trend(ts, days)) <= TotalRevenue(ts)
  {
    TrendSum(ts, days);
    BucketSumBounded(ts, days);
  }

  datatype Slice = Slice(name: string, value: int)

  function InCategory(c: string): Product -> bool
  {
    (p: Product) => p.category == c
  }

  /** `products.filter(p => p.category === c).length`: the number of products
      in category c, positive exactly when some product is in it. */
  function CategoryCount(ps: seq<Product>, c: string): (n: nat)
    ensures n == Count(ps, InCategory(c))
    ensures n <= |ps|
    ensures n > 0 <==> exists i :: 0 <= i < |ps| && ps[i].category == c
  {
    var kept := Filter(ps, InCategory(c));
    FilterCount(ps, InCategory(c));
    assert forall i :: 0 <= i < |ps| && ps[i].category == c ==> ps[i] in kept;
    assert |kept| > 0 ==> kept[0] in ps && kept[0].category == c;
    |kept|
  }

  /** One slice per name, in the order of the names given. */
  function Slices(ps: seq<Product>, names: seq<string>): (r: seq<Slice>)
    ensures |r| == |names|
    ensures forall i :: 0 <= i < |names| ==> r[i] == Slice(names[i], CategoryCount(ps, names[i]))
  {
    if names == [] then []
    else Slices(ps, names[..|names| - 1]) + [Slice(names[|names| - 1], CategoryCount(ps, names[|names| - 1]))]
  }

  function SumValues(slices: seq<Slice>): int
  {
    if slices == [] then 0 else SumValues(slices[..|slices| - 1]) + slices[|slices| - 1].value
  }

  /** categoryData: one slice per distinct category in first-appearance order,
      valued by the number of products in it; no slice is empty. */
  function CategoryData(ps: seq<Product>): (r: seq<Slice>)
    ensures |r| == |Dedup(CategoriesOf(ps))|
    ensures forall i :: 0 <= i < |r| ==> r[i].name == Dedup(CategoriesOf(ps))[i]
    ensures forall i :: 0 <= i < |r| ==> r[i].value == CategoryCount(ps, r[i].name) && r[i].value >= 1
  {
    var names := Dedup(CategoriesOf(ps));
    forall c | c in names ensures CategoryCount(ps, c) >= 1 {
      var k :| 0 <= k < |ps| && CategoriesOf(ps)[k] == c;
      assert ps[k] in Filter(ps, InCategory(c));
    }
    Slices(ps, names)
  }

  /** The test `name === x`. */
  function NameIs(x: string): string -> bool
  {
    (y: string) => y == x
  }

  /** In a list without repeats a name occurs once if present and not at all otherwise. */
  lemma {:induction false} NameCountDistinct(names: seq<string>, x: string)
    requires Distinct(names)
    ensures Count(names, NameIs(x)) == if x in names then 1 else 0
  {
    if names != [] {
      var front, last := names[..|names| - 1], names[|names| - 1];
      assert Distinct(front);
      NameCountDistinct(front, x);
      assert names == front + [last];
      CountSnoc(front, last, NameIs(x));
    }
  }

  /** Adding one product in front raises the slice total by the number of slices
      named after its category. */
  lemma {:induction false} SumValuesCons(p: Product, rest: seq<Product>, names: seq<string>)
    ensures SumValues(Slices([p] + rest, names)) == SumValues(Slices(rest, names)) + Count(names, NameIs(p.category))
  {
    if names != [] {
      var n := |names| - 1;
      var front, c := names[..n], names[n];
      var withP, without := Slices([p] + rest, names), Slices(rest, names);
      SumValuesCons(p, rest, front);
      assert withP[..n] == Slices([p] + rest, front);
      assert without[..n] == Slices(rest, front);
      CategoryCountCons(p, rest, c);
      assert names == front + [c];
      CountSnoc(front, c, NameIs(p.category));
      assert SumValues(withP) == SumValues(withP[..n]) + withP[n].value;
      assert SumValues(without) == SumValues(without[..n]) + without[n].value;
    }
  }

  lemma CategoryCountCons(p: Product, rest: seq<Product>, c: string)
    ensures CategoryCount([p] + rest, c) == CategoryCount(rest, c) + (if p.category == c then 1 else 0)
  {
    assert ([p] + rest)[1..] == rest;
    assert Count([p] + rest, InCategory(c)) == (if InCategory(c)(p) then 1 else 0) + Count(rest, InCategory(c));
  }

  /** Slices over distinct names covering every category count each product once. */
  lemma {:induction false} SlicesCountEveryProduct(ps: seq<Product>, names: seq<string>)
    requires Distinct(names)
    requires forall i :: 0 <= i < |ps| ==> ps[i].category in names
    ensures SumValues(Slices(ps, names)) == |ps|
  {
    if ps == [] {
      SlicesOfEmpty(names);
    } else {
      var rest := ps[1..];
      assert ps == [ps[0]] + rest;
      SlicesCountEveryProduct(rest, names);
      SumValuesCons(ps[0], rest, names);
      NameCountDistinct(names, ps[0].category);
    }
  }

  lemma {:induction false} SlicesOfEmpty(names: seq<string>)
    ensures SumValues(Slices([], names)) == 0
  {
    if names != [] {
      SlicesOfEmpty(names[..|names| - 1]);
      assert Slices([], names)[..|names| - 1] == Slices([], names[..|names| - 1]);
    }
  }

  /** The category slices add up to the number of products. */
  lemma CategoryDataSumsToProductCount(ps: seq<Product>)
    ensures SumValues(CategoryData(ps)) == |ps|
  {
    var names := Dedup(CategoriesOf(ps));
    forall i | 0 <= i < |ps| ensures ps[i].category in names {
      assert CategoriesOf(ps)[i] == ps[i].category;
    }
    SlicesCountEveryProduct(ps, names);
  }

  predicate IsLowStock(p: Product)
  {
    p.stock < 10
  }

  /** The "Inventori Menipis" card: products with fewer than ten in stock. */
  function LowStockCount(ps: seq<Product>): (n: nat)
    ensures n == Count(ps, IsLowStock)
    ensures n <= |ps|
    ensures n == 0 <==> forall i :: 0 <= i < |ps| ==> ps[i].stock >= 10
  {
    var low := Filter(ps, IsLowStock);
    FilterCount(ps, IsLowStock);
    assert forall i :: 0 <= i < |ps| && ps[i].stock < 10 ==> ps[i] in low;
    assert |low| > 0 ==> low[0] in ps && IsLowStock(low[0]);
    |low|
  }

  /** A catalog whose stocks are pointwise no higher has at least as many low entries. */
  lemma {:induction false} LowStockMonotone(a: seq<Product>, b: seq<Product>)
    requires |a| == |b|
    requires forall j :: 0 <= j < |a| ==> b[j].stock <= a[j].stock
    ensures |Filter(b, IsLowStock)| >= |Filter(a, IsLowStock)|
  {
    if a != [] {
      LowStockMonotone(a[1..], b[1..]);
    }
  }

  lemma {:induction false} QtyForNonNegative(items: seq<CartItem>, id: string)
    requires forall i :: 0 <= i < |items| ==> items[i].quantity >= 0
    ensures QtyFor(items, id) >= 0
  {
    if items != [] {
      QtyForNonNegative(items[..|items| - 1], id);
    }
  }

  /** A sale never lowers the low-stock figure. */
  lemma LowStockNeverDropsAfterSale(ps: seq<Product>, items: seq<CartItem>)
    requires forall i :: 0 <= i < |items| ==> items[i].quantity >= 0
    ensures LowStockCount(Decrement(ps, items)) >= LowStockCount(ps)
  {
    DecrementSpec(ps, items);
    forall j | 0 <= j < |ps| ensures Decrement(ps, items)[j].stock <= ps[j].stock {
      QtyForNonNegative(items, ps[j].id);
    }
    LowStockMonotone(ps, Decrement(ps, items));
  }
}

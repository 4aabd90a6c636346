// Monthly sales points and the "Total Sales" figure of the Dashboard view.
module Analytics {

  datatype SalesPoint = SalesPoint(month: string, sales: int)

  /** The chronological sales series loaded when the dashboard mounts. */
  const InitialAnalytics: seq<SalesPoint> := [
    SalesPoint("Jan", 30),
    SalesPoint("Feb", 45),
    SalesPoint("Mar", 60),
    SalesPoint("Apr", 70),
    SalesPoint("May", 90)
  ]

  /** Reference definition: the sum of the `sales` fields. */
  function SumSales(points: seq<SalesPoint>): int {
    if points == [] then 0 else points[0].sales + SumSales(points[1..])
  }

  /** The reducer `(acc, curr) => acc + curr.sales` run from left to right
      starting at `acc`. */
  function FoldSales(acc: int, points: seq<SalesPoint>): (r: int)
    ensures r == acc + SumSales(points)
    decreases points
  {
    if points == [] then acc else FoldSales(acc + points[0].sales, points[1..])
  }

  /** `analyticsData.reduce((acc, curr) => acc + curr.sales, 0)`: the total of
      all sales, 0 for an empty series. */
  function SalesTotal(points: seq<SalesPoint>): (total: int)
    ensures total == SumSales(points)
    ensures points == [] ==> total == 0
  {
    FoldSales(0, points)
  }

  /** The total of a series split in two is the sum of the totals. */
  lemma {:induction false} SumSalesAppend(a: seq<SalesPoint>, b: seq<SalesPoint>)
    ensures SumSales(a + b) == SumSales(a) + SumSales(b)
  {
    if a == [] {
      assert a + b == b;
    } else {
      assert (a + b)[1..] == a[1..] + b;
      SumSalesAppend(a[1..], b);
    }
  }

  /** A new month adds exactly its own sales to the displayed total. */
  lemma SalesTotalAddMonth(points: seq<SalesPoint>, p: SalesPoint)
    ensures SalesTotal(points + [p]) == SalesTotal(points) + p.sales
  {
    SumSalesAppend(points, [p]);
  }

  /** With no negative month the total bounds every single month's sales. */
  lemma {:induction false} SalesTotalBoundsEachMonth(points: seq<SalesPoint>, k: nat)
    requires forall i :: 0 <= i < |points| ==> points[i].sales >= 0
    requires k < |points|
    ensures 0 <= points[k].sales <= SalesTotal(points)
  {
    if k > 0 {
      SalesTotalBoundsEachMonth(points[1..], k - 1);
    } else if |points| > 1 {
      SalesTotalBoundsEachMonth(points[1..], 0);
    }
  }

  /** The initial series 30, 45, 60, 70, 90 shows a total of 295. */
  lemma InitialTotalSales()
    ensures SalesTotal(InitialAnalytics) == 295
  {
  }
}

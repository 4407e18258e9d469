/** The inventory summary cards: part count, inventory value, total profit
    and the low-stock dialog, all derived from one snapshot of `spare_parts`. */
module Dashboard {
  import opened Wrappers
  import opened Folds
  import opened Filters

  /** A row of `spare_parts`. Cost is nullable; sell price is declared
      non-null but both pages still guard it with `|| 0`, so it is nullable
      here too. Category is nullable as the profit page reads it. */
  datatype Part = Part(
    id: string,
    gsm: string,
    category: Option<string>,
    price: Option<real>,
    cost: Option<real>,
    stock: int,
    minimumStock: int)

  /** One term of the inventory value: (cost or 0) × stock. */
  function CostValue(p: Part): real
  {
    OrZero(p.cost) * p.stock as real
  }

  /** One term of the profit: (sell − cost) × stock, nulls read as 0. */
  function ProfitValue(p: Part): real
  {
    (OrZero(p.price) - OrZero(p.cost)) * p.stock as real
  }

  /** One term of the sales value of the stock: (sell or 0) × stock. */
  function SaleValue(p: Part): real
  {
    OrZero(p.price) * p.stock as real
  }

  /** Σ (cost or 0) × stock: 0 for no parts, and never negative while no
      cost and no stock is negative. */
  function InventoryValue(parts: seq<Part>): (r: real)
    ensures parts == [] ==> r == 0.0
    ensures (forall i :: 0 <= i < |parts| ==> OrZero(parts[i].cost) >= 0.0 && parts[i].stock >= 0) ==> r >= 0.0
  {
    CostTermsNonNegative(parts);
    Sum(parts, CostValue)
  }

  lemma CostTermsNonNegative(parts: seq<Part>)
    ensures (forall i :: 0 <= i < |parts| ==> OrZero(parts[i].cost) >= 0.0 && parts[i].stock >= 0) ==>
              Sum(parts, CostValue) >= 0.0
  {
    if forall i :: 0 <= i < |parts| ==> OrZero(parts[i].cost) >= 0.0 && parts[i].stock >= 0 {
      forall i | 0 <= i < |parts| ensures CostValue(parts[i]) >= 0.0 {
        var c, n := OrZero(parts[i].cost), parts[i].stock as real;
        assert c >= 0.0 && n >= 0.0;
        assert c * n >= 0.0;
      }
      ReduceNonDecreasing(parts, CostValue, 0.0);
    }
  }

  /** Σ (sell − cost) × stock: 0 for no parts, and always the sales value of
      the stock less the inventory value. */
  function TotalProfit(parts: seq<Part>): (r: real)
    ensures parts == [] ==> r == 0.0
    ensures r == SalesValue(parts) - InventoryValue(parts)
  {
    SaleTermsSplit(parts);
    Sum(parts, ProfitValue)
  }

  /** Σ sell × stock; the dashboard shows no such card, it is the reference
      that profit and inventory value add up to. */
  function SalesValue(parts: seq<Part>): real
  {
    Sum(parts, SaleValue)
  }

  /** Each part's sales term is its profit term plus its cost term, so the
      sums split the same way. */
  lemma SaleTermsSplit(parts: seq<Part>)
    ensures Sum(parts, SaleValue) == Sum(parts, ProfitValue) + Sum(parts, CostValue)
  {
    forall i | 0 <= i < |parts|
      ensures SaleValue(parts[i]) == ProfitValue(parts[i]) + CostValue(parts[i])
    {
      var p := parts[i];
      calc {
        ProfitValue(p) + CostValue(p);
        (OrZero(p.price) - OrZero(p.cost)) * p.stock as real + OrZero(p.cost) * p.stock as real;
        OrZero(p.price) * p.stock as real;
      }
    }
    SumPointwise(parts, ProfitValue, CostValue, SaleValue);
  }

  predicate IsLowStock(p: Part)
  {
    p.stock < p.minimumStock
  }

  /** The low-stock list holds exactly the parts whose stock is below the
      minimum (a part exactly at its minimum is not listed), in their
      original order, so its length is the number of low-stock parts. */
  function LowStockParts(parts: seq<Part>): (low: seq<Part>)
    ensures forall i :: 0 <= i < |parts| && parts[i].stock < parts[i].minimumStock ==> parts[i] in low
    ensures forall i :: 0 <= i < |low| ==> low[i] in parts && low[i].stock < low[i].minimumStock
    ensures IsSubsequence(low, parts)
    ensures |low| == CountWhere(parts, IsLowStock)
  {
    FilterIsSubsequence(parts, IsLowStock);
    FilterLength(parts, IsLowStock);
    Filter(parts, IsLowStock)
  }

  /** The red highlight of a low-stock row: stock at most half the minimum,
      with JavaScript's real division, which is the integer test
      2 × stock ≤ minimum. */
  predicate IsCritical(p: Part)
    ensures IsCritical(p) <==> 2 * p.stock <= p.minimumStock
  {
    p.stock as real <= p.minimumStock as real / 2.0
  }

  /** A row of the low-stock dialog and whether it is highlighted. */
  datatype LowStockRow = LowStockRow(part: Part, critical: bool)

  /** The rows the dialog renders: one per low-stock part, in order. */
  function LowStockTable(low: seq<Part>): (rows: seq<LowStockRow>)
    ensures |rows| == |low|
    ensures forall i :: 0 <= i < |low| ==>
              rows[i].part == low[i] && (rows[i].critical <==> 2 * low[i].stock <= low[i].minimumStock)
    decreases |low|
  {
    if low == [] then []
    else [LowStockRow(low[0], IsCritical(low[0]))] + LowStockTable(low[1..])
  }

  /** The four figures on the cards and the dialog's list. */
  datatype Summary = Summary(
    totalParts: nat,
    inventoryValue: real,
    totalProfit: real,
    lowStockParts: seq<Part>,
    lowStockCount: nat)

  function Summarize(parts: seq<Part>): (s: Summary)
    ensures s.totalParts == |parts|
    ensures s.inventoryValue == InventoryValue(parts)
    ensures s.totalProfit == TotalProfit(parts)
    ensures s.lowStockParts == LowStockParts(parts)
    ensures s.lowStockCount == |s.lowStockParts| == CountWhere(parts, IsLowStock) <= s.totalParts
  {
    var low := LowStockParts(parts);
    Summary(|parts|, InventoryValue(parts), TotalProfit(parts), low, |low|)
  }

  /** The inventory value is 0 for no parts and otherwise the first part's
      (cost or 0) × stock plus the value of the rest. */
  lemma {:induction false} InventoryValueIsSum(parts: seq<Part>)
    ensures parts == [] ==> InventoryValue(parts) == 0.0
    ensures parts != [] ==>
              InventoryValue(parts) == OrZero(parts[0].cost) * parts[0].stock as real + InventoryValue(parts[1..])
  {
    SumCons(parts, CostValue);
  }

  /** Total profit is 0 for no parts and otherwise the first part's
      (sell − cost) × stock plus the profit of the rest. */
  lemma {:induction false} TotalProfitIsSum(parts: seq<Part>)
    ensures parts == [] ==> TotalProfit(parts) == 0.0
    ensures parts != [] ==>
              TotalProfit(parts)
              == (OrZero(parts[0].price) - OrZero(parts[0].cost)) * parts[0].stock as real + TotalProfit(parts[1..])
  {
    SumCons(parts, ProfitValue);
    if parts != [] {
      var head := ProfitValue(parts[0]);
      assert TotalProfit(parts) == head + Sum(parts[1..], ProfitValue);
      assert TotalProfit(parts[1..]) == Sum(parts[1..], ProfitValue);
    }
  }

  /** The red highlight is given only to rows of the low-stock list, and to
      exactly those whose stock is at most half the minimum. */
  lemma CriticalRowsAreLowStock(parts: seq<Part>)
    ensures forall r :: r in LowStockTable(LowStockParts(parts)) ==>
              r.part in parts && r.part.stock < r.part.minimumStock &&
              (r.critical <==> 2 * r.part.stock <= r.part.minimumStock)
  {
    var low := LowStockParts(parts);
    var rows := LowStockTable(low);
    forall r | r in rows
      ensures r.part in parts && r.part.stock < r.part.minimumStock
      ensures r.critical <==> 2 * r.part.stock <= r.part.minimumStock
    {
      var k :| 0 <= k < |rows| && rows[k] == r;
      assert r.part == low[k];
    }
  }

  /** One part costing 10, selling at 15, with 5 in stock and a minimum of 10:
      inventory value 50, profit 25, one low-stock part. */
  lemma OnePartExample()
    ensures var s := Summarize([Part("p1", "G1", Some("Brakes"), Some(15.0), Some(10.0), 5, 10)]);
            s.inventoryValue == 50.0 && s.totalProfit == 25.0 && s.lowStockCount == 1
  {
    var parts := [Part("p1", "G1", Some("Brakes"), Some(15.0), Some(10.0), 5, 10)];
    SumSingleton(parts[0], CostValue);
    SumSingleton(parts[0], ProfitValue);
    assert parts == [parts[0]];
  }
}

/** The profit page: filter the parts snapshot, project each survivor to a
    ledger row, total the ledger on four cards and chart one data point. */
module ProfitDashboard {
  import opened Wrappers
  import opened Folds
  import opened Filters
  import opened Dashboard

  /** The filter callback: an empty filter string is falsy and lets every
      part through; otherwise the part's field must equal it (a null
      category never equals a non-empty filter). So a part survives exactly
      when both filters, each read as "blank or equal", accept it. */
  predicate Matches(p: Part, category: string, gsm: string)
    ensures Matches(p, category, gsm) <==>
              (category == "" || p.category == Some(category)) && (gsm == "" || p.gsm == gsm)
  {
    if category != "" && p.category != Some(category) then false
    else if gsm != "" && p.gsm != gsm then false
    else true
  }

  function Matcher(category: string, gsm: string): Part -> bool
  {
    p => Matches(p, category, gsm)
  }

  /** The filtered list holds every snapshot part that passes both filters
      and nothing else, in the snapshot's order and as many times as the
      snapshot holds it. */
  function FilteredParts(parts: seq<Part>, category: string, gsm: string): (r: seq<Part>)
    ensures forall i :: 0 <= i < |parts| ==>
              ((category == "" || parts[i].category == Some(category)) && (gsm == "" || parts[i].gsm == gsm)
               ==> parts[i] in r)
    ensures forall i :: 0 <= i < |r| ==>
              r[i] in parts && (category == "" || r[i].category == Some(category)) && (gsm == "" || r[i].gsm == gsm)
    ensures IsSubsequence(r, parts)
    ensures |r| == CountWhere(parts, Matcher(category, gsm))
  {
    var keep := Matcher(category, gsm);
    var r := Filter(parts, keep);
    assert forall i :: 0 <= i < |r| ==> keep(r[i]);
    FilterIsSubsequence(parts, keep);
    FilterLength(parts, keep);
    r
  }

  datatype LedgerRow = LedgerRow(
    id: string,
    gsm: string,
    category: Option<string>,
    price: real,
    cost: real,
    profitPerPiece: real,
    stock: int,
    totalProfit: real)

  /** The ledger projection of one part: cost and price with nulls read as
      0, profit per piece = price − cost, total profit = that × stock. Its
      figures are the dashboard's per-part terms. */
  function ToLedgerRow(p: Part): (r: LedgerRow)
    ensures r.id == p.id && r.gsm == p.gsm && r.category == p.category && r.stock == p.stock
    ensures r.cost == OrZero(p.cost) && r.price == OrZero(p.price)
    ensures WellFormedRow(r)
    ensures r.cost * r.stock as real == CostValue(p)
    ensures r.price * r.stock as real == SaleValue(p)
    ensures r.totalProfit == ProfitValue(p) == r.price * r.stock as real - r.cost * r.stock as real
  {
    var cost := OrZero(p.cost);
    var sell := OrZero(p.price);
    var profitPerPiece := sell - cost;
    LedgerRow(p.id, p.gsm, p.category, sell, cost, profitPerPiece, p.stock, profitPerPiece * p.stock as real)
  }

  /** `filteredParts.map(...)`: one row per part, in order. */
  function Ledger(parts: seq<Part>): (rows: seq<LedgerRow>)
    ensures |rows| == |parts|
    ensures forall i :: 0 <= i < |parts| ==> rows[i] == ToLedgerRow(parts[i])
    decreases |parts|
  {
    if parts == [] then [] else [ToLedgerRow(parts[0])] + Ledger(parts[1..])
  }

  /** The relations between a ledger row's figures. */
  predicate WellFormedRow(r: LedgerRow)
  {
    r.profitPerPiece == r.price - r.cost && r.totalProfit == r.profitPerPiece * r.stock as real
  }

  function RowProfit(r: LedgerRow): real { r.totalProfit }
  function RowExpense(r: LedgerRow): real { r.cost * r.stock as real }
  function RowNet(r: LedgerRow): real { r.price * r.stock as real }
  function RowProfitPerPiece(r: LedgerRow): real { r.profitPerPiece }

  /** The four summary cards. */
  datatype ProfitSummary = ProfitSummary(
    totalProfit: real,
    totalExpense: real,
    netProfit: real,
    sumProfitPerPiece: real)

  /** The four card totals. All are 0 for an empty ledger, and over
      well-formed rows total profit is net profit minus total cost. */
  function SummarizeLedger(ledger: seq<LedgerRow>): (s: ProfitSummary)
    ensures ledger == [] ==> s == ProfitSummary(0.0, 0.0, 0.0, 0.0)
    ensures (forall i :: 0 <= i < |ledger| ==> WellFormedRow(ledger[i])) ==>
              s.totalProfit == s.netProfit - s.totalExpense
  {
    RowTermsSplit(ledger);
    ProfitSummary(Sum(ledger, RowProfit), Sum(ledger, RowExpense), Sum(ledger, RowNet), Sum(ledger, RowProfitPerPiece))
  }

  /** Over well-formed rows each net term is the profit term plus the
      expense term, so the sums split the same way. */
  lemma RowTermsSplit(ledger: seq<LedgerRow>)
    ensures (forall i :: 0 <= i < |ledger| ==> WellFormedRow(ledger[i])) ==>
              Sum(ledger, RowNet) == Sum(ledger, RowProfit) + Sum(ledger, RowExpense)
  {
    if forall i :: 0 <= i < |ledger| ==> WellFormedRow(ledger[i]) {
      forall i | 0 <= i < |ledger|
        ensures RowNet(ledger[i]) == RowProfit(ledger[i]) + RowExpense(ledger[i])
      {
        var r := ledger[i];
        assert WellFormedRow(r);
        calc {
          RowProfit(r) + RowExpense(r);
          (r.price - r.cost) * r.stock as real + r.cost * r.stock as real;
          r.price * r.stock as real;
        }
      }
      SumPointwise(ledger, RowProfit, RowExpense, RowNet);
    }
  }

  /** One bar/line of the charts (`name` is the source's `label` key, a Dafny keyword). */
  datatype ChartPoint = ChartPoint(name: string, profit: real, expense: real, net: real)

  /** The chart dataset: a single point for the whole current snapshot. */
  function ChartData(s: ProfitSummary): (points: seq<ChartPoint>)
    ensures |points| == 1
    ensures points[0].name == "Inventory"
    ensures points[0].profit == s.totalProfit && points[0].expense == s.totalExpense && points[0].net == s.netProfit
  {
    [ChartPoint("Inventory", s.totalProfit, s.totalExpense, s.netProfit)]
  }

  /** With both filters blank the ledger covers the whole snapshot. */
  lemma BlankFiltersKeepAll(parts: seq<Part>)
    ensures FilteredParts(parts, "", "") == parts
  {
    forall i | 0 <= i < |parts| ensures Matcher("", "")(parts[i]) {
    }
    FilterKeepsAll(parts, Matcher("", ""));
  }

  /** Filtering the filtered list again with the same filters changes nothing. */
  lemma RefilterChangesNothing(parts: seq<Part>, category: string, gsm: string)
    ensures FilteredParts(FilteredParts(parts, category, gsm), category, gsm) == FilteredParts(parts, category, gsm)
  {
    FilterIdempotent(parts, Matcher(category, gsm));
  }

  /** A category filter that no part carries leaves the ledger empty (the
      page then shows its "No matching records" row). */
  lemma UnknownCategoryEmptiesLedger(parts: seq<Part>, category: string, gsm: string)
    requires category != ""
    requires forall i :: 0 <= i < |parts| ==> parts[i].category != Some(category)
    ensures Ledger(FilteredParts(parts, category, gsm)) == []
  {
  }

  /** Summing a term over the ledger is summing the matching term over the parts. */
  lemma {:induction false} LedgerSum(parts: seq<Part>, f: LedgerRow -> real, g: Part -> real)
    requires forall i :: 0 <= i < |parts| ==> f(ToLedgerRow(parts[i])) == g(parts[i])
    ensures Sum(Ledger(parts), f) == Sum(parts, g)
    decreases |parts|
  {
    SumCons(Ledger(parts), f);
    SumCons(parts, g);
    if parts != [] {
      assert f(ToLedgerRow(parts[0])) == g(parts[0]);
      assert Ledger(parts)[1..] == Ledger(parts[1..]);
      LedgerSum(parts[1..], f, g);
    }
  }

  /** The ledger totals are the dashboard's figures for the same parts: total
      cost is the inventory value, total profit the dashboard's profit and net
      profit the sales value of the stock. */
  lemma {:induction false} LedgerMatchesDashboard(parts: seq<Part>)
    ensures SummarizeLedger(Ledger(parts)).totalExpense == InventoryValue(parts)
    ensures SummarizeLedger(Ledger(parts)).totalProfit == TotalProfit(parts)
    ensures SummarizeLedger(Ledger(parts)).netProfit == SalesValue(parts)
  {
    LedgerSum(parts, RowExpense, CostValue);
    LedgerSum(parts, RowProfit, ProfitValue);
    LedgerSum(parts, RowNet, SaleValue);
  }

  /** The "Profit Per Piece" card is not weighted by stock: it equals the
      total profit only when every listed part has exactly one in stock. */
  lemma ProfitPerPieceWhenUnitStock(parts: seq<Part>)
    requires forall i :: 0 <= i < |parts| ==> parts[i].stock == 1
    ensures SummarizeLedger(Ledger(parts)).sumProfitPerPiece == SummarizeLedger(Ledger(parts)).totalProfit
  {
    var ledger := Ledger(parts);
    SumAgree(ledger, RowProfitPerPiece, RowProfit);
  }

  /** ... and in general it differs: one part with profit 5 a piece and two
      in stock shows 5 per piece against a total profit of 10. */
  lemma ProfitPerPieceIsUnweighted()
    ensures var s := SummarizeLedger(Ledger([Part("p1", "G1", None, Some(15.0), Some(10.0), 2, 0)]));
            s.sumProfitPerPiece == 5.0 && s.totalProfit == 10.0
  {
    var parts := [Part("p1", "G1", None, Some(15.0), Some(10.0), 2, 0)];
    var ledger := Ledger(parts);
    assert ledger == [ToLedgerRow(parts[0])];
    SumSingleton(ledger[0], RowProfitPerPiece);
    SumSingleton(ledger[0], RowProfit);
  }

  /** With no filters the profit page agrees with the inventory dashboard,
      and its chart point carries the same figures. */
  lemma UnfilteredMatchesDashboard(parts: seq<Part>)
    ensures var s := SummarizeLedger(Ledger(FilteredParts(parts, "", "")));
            && s.totalExpense == InventoryValue(parts)
            && s.totalProfit == TotalProfit(parts)
            && ChartData(s)[0].expense == InventoryValue(parts)
            && ChartData(s)[0].profit == TotalProfit(parts)
  {
    BlankFiltersKeepAll(parts);
    LedgerMatchesDashboard(parts);
  }
}

/** The bill editor: load a bill and its items, edit the items by position,
    and compute what a save writes (the header total and the item rows). */
module BillingEdit {
  import opened Wrappers
  import opened Folds

  /** A line item as the editor holds it. `id` is absent on rows added in
      the editor. */
  datatype BillItem = BillItem(id: Option<string>, gsm: string, quantity: int, price: real, total: real)

  /** The header columns of a fetched `bills` row that the editor reads. */
  datatype BillRecord = BillRecord(customerName: string, paymentMode: Option<string>, status: Option<string>)

  /** The outcome of fetching a bill's items: a query error, or data that may be null. */
  datatype ItemsFetch = ItemsError | ItemsData(rows: Option<seq<BillItem>>)

  /** The header update a save sends. */
  datatype BillUpdate = BillUpdate(customerName: string, paymentMode: string, status: string, totalAmount: real)

  /** A `bill_items` row a save inserts. */
  datatype InsertRow = InsertRow(billId: string, gsm: string, quantity: int, price: real, total: real)

  /** The row "Add Item" appends. */
  const BlankItem := BillItem(None, "", 1, 0.0, 0.0)

  /** quantity × price of one row. */
  function LineAmount(item: BillItem): real
  {
    item.quantity as real * item.price
  }

  /** Every row's stored total is its quantity × price. */
  predicate Consistent(items: seq<BillItem>)
  {
    forall i :: 0 <= i < |items| ==> items[i].total == LineAmount(items[i])
  }

  /** The header total a save writes: Σ quantity × price, from 0. It is 0
      for no items, and while every row is consistent it is the sum of the
      rows' stored totals. */
  function SaveTotal(items: seq<BillItem>): (r: real)
    ensures items == [] ==> r == 0.0
    ensures Consistent(items) ==> r == Sum(items, ItemTotal)
  {
    StoredTotalsAgree(items);
    Sum(items, LineAmount)
  }

  lemma StoredTotalsAgree(items: seq<BillItem>)
    ensures Consistent(items) ==> Sum(items, ItemTotal) == Sum(items, LineAmount)
  {
    if Consistent(items) {
      SumAgree(items, ItemTotal, LineAmount);
    }
  }

  function ItemTotal(item: BillItem): real
  {
    item.total
  }

  function RowTotal(row: InsertRow): real
  {
    row.total
  }

  /** The rows a save inserts: one per item, in order, tagged with the bill id. */
  function ItemsToInsert(billId: string, items: seq<BillItem>): (rows: seq<InsertRow>)
    ensures |rows| == |items|
    ensures forall i :: 0 <= i < |items| ==>
              rows[i] == InsertRow(billId, items[i].gsm, items[i].quantity, items[i].price, items[i].total)
    decreases |items|
  {
    if items == [] then []
    else [InsertRow(billId, items[0].gsm, items[0].quantity, items[0].price, items[0].total)]
         + ItemsToInsert(billId, items[1..])
  }

  /** The delete handler's `filter((_, i) => i !== index)`: keep every row
      whose position is not `index`. */
  function RemoveAt<T>(s: seq<T>, index: nat): (r: seq<T>)
    ensures index < |s| ==> r == s[..index] + s[index + 1..]
    ensures index >= |s| ==> r == s
    decreases |s|
  {
    if s == [] then []
    else
      var init := s[..|s| - 1];
      var r := RemoveAt(init, index) + (if |s| - 1 == index then [] else [s[|s| - 1]]);
      assert index < |s| - 1 ==> r == s[..index] + s[index + 1..] by {
        if index < |s| - 1 {
          assert init[..index] == s[..index];
          assert init[index + 1..] + [s[|s| - 1]] == s[index + 1..];
        }
      }
      assert index >= |s| - 1 ==> init + [s[|s| - 1]] == s;
      r
  }

  /** The total of the inserted rows is the header total the same save
      writes, provided every row's total is its quantity × price. */
  lemma SavedTotalsAgree(billId: string, items: seq<BillItem>)
    requires Consistent(items)
    ensures Sum(ItemsToInsert(billId, items), RowTotal) == SaveTotal(items)
  {
    InsertedTotal(billId, items);
  }

  /** The inserted rows carry the items' stored totals. */
  lemma {:induction false} InsertedTotal(billId: string, items: seq<BillItem>)
    ensures Sum(ItemsToInsert(billId, items), RowTotal) == Sum(items, ItemTotal)
    decreases |items|
  {
    var rows := ItemsToInsert(billId, items);
    SumCons(rows, RowTotal);
    SumCons(items, ItemTotal);
    if items != [] {
      assert rows[1..] == ItemsToInsert(billId, items[1..]);
      InsertedTotal(billId, items[1..]);
    }
  }

  /** The header total ignores stored totals: a row loaded with a stale total
      (quantity 2 at 100 stored as 0) is saved with header 200 but rows summing to 0. */
  lemma StaleTotalIsNotSaved()
    ensures var items := [BillItem(None, "G1", 2, 100.0, 0.0)];
            SaveTotal(items) == 200.0 && Sum(ItemsToInsert("b1", items), RowTotal) == 0.0
  {
    var items := [BillItem(None, "G1", 2, 100.0, 0.0)];
    SumSingleton(items[0], LineAmount);
    assert ItemsToInsert("b1", items) == [InsertRow("b1", "G1", 2, 100.0, 0.0)];
    SumSingleton(InsertRow("b1", "G1", 2, 100.0, 0.0), RowTotal);
  }

  /** Items of quantity 2 at 100 and quantity 1 at 50 save a total of 250. */
  lemma TwoItemExample()
    ensures SaveTotal([BillItem(Some("i1"), "A", 2, 100.0, 200.0), BillItem(Some("i2"), "B", 1, 50.0, 50.0)]) == 250.0
  {
    var a, b := BillItem(Some("i1"), "A", 2, 100.0, 200.0), BillItem(Some("i2"), "B", 1, 50.0, 50.0);
    SumAppend([a], [b], LineAmount);
    SumSingleton(a, LineAmount);
    SumSingleton(b, LineAmount);
  }

  /** Deleting a row lowers the save total by that row's quantity × price. */
  lemma {:induction false} SaveTotalAfterRemove(items: seq<BillItem>, index: nat)
    requires index < |items|
    ensures SaveTotal(RemoveAt(items, index)) == SaveTotal(items) - LineAmount(items[index])
  {
    assert RemoveAt(items, index) == items[..index] + items[index + 1..];
    SumRemove(items, index, LineAmount);
  }

  /** Appending the blank row leaves the save total unchanged. */
  lemma SaveTotalAfterAppend(items: seq<BillItem>)
    ensures SaveTotal(items + [BlankItem]) == SaveTotal(items)
  {
    SumAppend(items, [BlankItem], LineAmount);
    SumSingleton(BlankItem, LineAmount);
  }

  /** The state of the edit page. */
  class BillEditor {
    var customerName: string
    var paymentMode: string
    var status: string
    var items: seq<BillItem>
    var loading: bool

    /** The page's initial state, before the bill is fetched. */
    constructor ()
      ensures customerName == "" && paymentMode == "" && status == "Paid"
      ensures items == [] && loading
    {
      customerName, paymentMode, status := "", "", "Paid";
      items := [];
      loading := true;
    }

    /** `fetchBill`, given what the two queries returned. A missing bill
        changes nothing; a found bill sets the header with a null or empty
        payment mode read as "" and a null or empty status read as "Paid";
        an item query error then leaves the items as they were, and null
        item data gives no items. Loading ends in every case. */
    method Load(bill: Option<BillRecord>, fetched: ItemsFetch)
      modifies this
      ensures !loading
      ensures bill.None? ==>
                customerName == old(customerName) && paymentMode == old(paymentMode)
                && status == old(status) && items == old(items)
      ensures bill.Some? ==>
                customerName == bill.value.customerName
                && paymentMode == OrDefault(bill.value.paymentMode, "")
                && status == OrDefault(bill.value.status, "Paid")
      ensures bill.Some? && fetched.ItemsError? ==> items == old(items)
      ensures bill.Some? && fetched.ItemsData? ==>
                items == (if fetched.rows.Some? then fetched.rows.value else [])
    {
      if bill.Some? {
        customerName := bill.value.customerName;
        paymentMode := OrDefault(bill.value.paymentMode, "");
        status := OrDefault(bill.value.status, "Paid");
        if fetched.ItemsData? {
          items := if fetched.rows.Some? then fetched.rows.value else [];
        }
      }
      loading := false;
    }

    /** The customer-name input: the text is taken as typed. */
    method SetCustomerName(name: string)
      modifies this`customerName
      ensures customerName == name
    {
      customerName := name;
    }

    /** The payment-mode select ("" stands for "Select"). */
    method SetPaymentMode(mode: string)
      modifies this`paymentMode
      ensures paymentMode == mode
    {
      paymentMode := mode;
    }

    /** The status select. */
    method SetStatus(newStatus: string)
      modifies this`status
      ensures status == newStatus
    {
      status := newStatus;
    }

    /** The GSM cell's handler: only that row's part number changes. */
    method SetGsm(index: nat, gsm: string)
      requires index < |items|
      modifies this`items
      ensures |items| == |old(items)|
      ensures items[index] == old(items[index]).(gsm := gsm)
      ensures forall j :: 0 <= j < |items| && j != index ==> items[j] == old(items[j])
      ensures Consistent(old(items)) ==> Consistent(items)
      ensures SaveTotal(items) == old(SaveTotal(items))
    {
      SumUpdate(items, index, items[index].(gsm := gsm), LineAmount);
      items := items[index := items[index].(gsm := gsm)];
    }

    /** The quantity cell's handler: the row's quantity is set and its total
        recomputed at once from the new quantity and its price. */
    method SetQuantity(index: nat, quantity: int)
      requires index < |items|
      modifies this`items
      ensures |items| == |old(items)|
      ensures items[index] == old(items[index]).(quantity := quantity, total := quantity as real * old(items[index]).price)
      ensures forall j :: 0 <= j < |items| && j != index ==> items[j] == old(items[j])
      ensures items[index].total == LineAmount(items[index])
      ensures Consistent(old(items)) ==> Consistent(items)
      ensures SaveTotal(items) == old(SaveTotal(items)) - old(LineAmount(items[index])) + LineAmount(items[index])
    {
      var row := items[index].(quantity := quantity);
      row := row.(total := row.quantity as real * row.price);
      SumUpdate(items, index, row, LineAmount);
      items := items[index := row];
    }

    /** The price cell's handler: the row's price is set and its total
        recomputed at once from its quantity and the new price. */
    method SetPrice(index: nat, price: real)
      requires index < |items|
      modifies this`items
      ensures |items| == |old(items)|
      ensures items[index] == old(items[index]).(price := price, total := old(items[index]).quantity as real * price)
      ensures forall j :: 0 <= j < |items| && j != index ==> items[j] == old(items[j])
      ensures items[index].total == LineAmount(items[index])
      ensures Consistent(old(items)) ==> Consistent(items)
      ensures SaveTotal(items) == old(SaveTotal(items)) - old(LineAmount(items[index])) + LineAmount(items[index])
    {
      var row := items[index].(price := price);
      row := row.(total := row.quantity as real * row.price);
      SumUpdate(items, index, row, LineAmount);
      items := items[index := row];
    }

    /** The row's Delete button: the row at `index` goes, the rest keep their order. */
    method DeleteRow(index: nat)
      requires index < |items|
      modifies this`items
      ensures items == old(items[..index] + items[index + 1..])
      ensures |items| == |old(items)| - 1
      ensures Consistent(old(items)) ==> Consistent(items)
      ensures SaveTotal(items) == old(SaveTotal(items)) - old(LineAmount(items[index]))
    {
      SaveTotalAfterRemove(items, index);
      items := RemoveAt(items, index);
    }

    /** "Add Item": a blank row at the end. */
    method AddItem()
      modifies this`items
      ensures items == old(items) + [BlankItem]
      ensures Consistent(old(items)) ==> Consistent(items)
      ensures SaveTotal(items) == old(SaveTotal(items))
    {
      SaveTotalAfterAppend(items);
      items := items + [BlankItem];
    }

    /** What "Save Changes" sends: the header with the recomputed total and
        the replacement item rows. Nothing in the editor changes. */
    method Save(billId: string) returns (update: BillUpdate, rows: seq<InsertRow>)
      ensures update == BillUpdate(customerName, paymentMode, status, SaveTotal(items))
      ensures rows == ItemsToInsert(billId, items)
      ensures Consistent(items) ==> Sum(rows, RowTotal) == update.totalAmount
    {
      update := BillUpdate(customerName, paymentMode, status, SaveTotal(items));
      rows := ItemsToInsert(billId, items);
      if Consistent(items) {
        SavedTotalsAgree(billId, items);
      }
    }
  }

  /** Editing the first of two rows from quantity 2 to 3 updates that row's
      total to 300 at once; the header total 350 exists only in what a save sends. */
  method EditScenario()
  {
    var editor := new BillEditor();
    var a, b := BillItem(Some("i1"), "A", 2, 100.0, 200.0), BillItem(Some("i2"), "B", 1, 50.0, 50.0);
    editor.Load(Some(BillRecord("Ravi", None, Some(""))), ItemsData(Some([a, b])));
    assert editor.status == "Paid" && editor.paymentMode == "";
    TwoItemExample();
    editor.SetQuantity(0, 3);
    assert editor.items[0].total == 300.0 && editor.items[1] == b;
    var update, rows := editor.Save("b1");
    assert update.totalAmount == 350.0;
    assert |rows| == 2 && rows[0].total == 300.0;
  }
}

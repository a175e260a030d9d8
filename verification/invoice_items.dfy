/** The two item queries, and the grouping that turns the batched one into many single ones. */
module InvoiceItems {
  import opened MachineInt
  import opened Ordered
  import opened Schema
  import InvoiceTotal

  datatype ItemRow = ItemRow(id: int, item: Item)

  function Ids(rows: seq<ItemRow>): (ids: seq<int>)
    ensures |ids| == |rows|
    ensures forall i :: 0 <= i < |rows| ==> ids[i] == rows[i].id
  {
    seq(|rows|, i requires 0 <= i < |rows| => rows[i].id)
  }

  function ItemIds(items: map<int, Item>, invoices: set<int>): set<int> {
    set i | i in items && items[i].invoice in invoices
  }

  /** WHERE invoice_id = ANY(invoices) ORDER BY id ASC; a single invoice is a singleton. */
  ghost predicate IsListing(rows: seq<ItemRow>, items: map<int, Item>, invoices: set<int>) {
    && Increasing(Ids(rows))
    && ListsExactly(Ids(rows), ItemIds(items, invoices))
    && forall i :: 0 <= i < |rows| ==> rows[i].id in items && rows[i].item == items[rows[i].id]
  }

  /** The query always has a result ... */
  lemma ListingExists(items: map<int, Item>, invoices: set<int>) returns (rows: seq<ItemRow>)
    ensures IsListing(rows, items, invoices)
  {
    var ids := InOrder(ItemIds(items, invoices));
    assert forall i :: 0 <= i < |ids| ==> ids[i] in ids;
    rows := seq(|ids|, i requires 0 <= i < |ids| => ItemRow(ids[i], items[ids[i]]));
    assert Ids(rows) == ids;
  }

  /** ... and only one. */
  lemma ListingsAgree(r: seq<ItemRow>, s: seq<ItemRow>, items: map<int, Item>, invoices: set<int>)
    requires IsListing(r, items, invoices) && IsListing(s, items, invoices)
    ensures r == s
  {
    ListingIsUnique(Ids(r), Ids(s));
    assert |r| == |s|;
    forall i | 0 <= i < |r| ensures r[i] == s[i] {
      assert Ids(r)[i] == Ids(s)[i];
    }
  }

  function OfInvoice(rows: seq<ItemRow>, invoice: int): (part: seq<ItemRow>)
    ensures forall row :: row in part <==> row in rows && row.item.invoice == invoice
  {
    if rows == [] then []
    else
      var last := rows[|rows| - 1];
      OfInvoice(rows[..|rows| - 1], invoice) + (if last.item.invoice == invoice then [last] else [])
  }

  function Group(groups: map<int, seq<ItemRow>>, invoice: int): seq<ItemRow> {
    if invoice in groups then groups[invoice] else []
  }

  /** Each invoice's group is its part of the rows. */
  ghost predicate Grouped(groups: map<int, seq<ItemRow>>, rows: seq<ItemRow>) {
    forall invoice :: Group(groups, invoice) == OfInvoice(rows, invoice)
  }

  /** Go's append to a map entry, which starts out empty. */
  function Append(groups: map<int, seq<ItemRow>>, row: ItemRow): map<int, seq<ItemRow>> {
    groups[row.item.invoice := Group(groups, row.item.invoice) + [row]]
  }

  lemma NothingGrouped(rows: seq<ItemRow>)
    requires rows == []
    ensures Grouped(map[], rows)
  {
  }

  lemma AppendRow(groups: map<int, seq<ItemRow>>, rows: seq<ItemRow>, n: nat)
    requires n < |rows| && Grouped(groups, rows[..n])
    ensures Grouped(Append(groups, rows[n]), rows[..n + 1])
  {
    assert rows[..n] + [rows[n]] == rows[..n + 1];
    AppendOne(groups, rows[..n], rows[n]);
  }

  lemma AppendOne(groups: map<int, seq<ItemRow>>, rows: seq<ItemRow>, row: ItemRow)
    requires Grouped(groups, rows)
    ensures Grouped(Append(groups, row), rows + [row])
  {
    var more := Append(groups, row);
    forall invoice ensures Group(more, invoice) == OfInvoice(rows + [row], invoice) {
      OfInvoiceSnoc(rows, row, invoice);
    }
  }

  lemma OfInvoiceSnoc(rows: seq<ItemRow>, row: ItemRow, invoice: int)
    ensures OfInvoice(rows + [row], invoice) ==
              OfInvoice(rows, invoice) + (if row.item.invoice == invoice then [row] else [])
  {
    assert (rows + [row])[..|rows|] == rows;
  }

  /** The grouping loop of the list endpoint. */
  method GroupByInvoice(rows: seq<ItemRow>) returns (groups: map<int, seq<ItemRow>>)
    ensures Grouped(groups, rows)
  {
    groups := map[];
    NothingGrouped(rows[..0]);
    for n := 0 to |rows|
      invariant Grouped(groups, rows[..n])
    {
      AppendRow(groups, rows, n);
      groups := Append(groups, rows[n]);
    }
    assert rows[..|rows|] == rows;
  }

  lemma {:induction false} OfInvoiceKeepsOrder(rows: seq<ItemRow>, invoice: int)
    requires Increasing(Ids(rows))
    ensures Increasing(Ids(OfInvoice(rows, invoice)))
  {
    if rows != [] {
      var front := rows[..|rows| - 1];
      assert Ids(front) == Ids(rows)[..|rows| - 1];
      OfInvoiceKeepsOrder(front, invoice);
      var part := OfInvoice(front, invoice);
      forall i | 0 <= i < |part| ensures part[i].id < rows[|rows| - 1].id {
        assert part[i] in front;
        var k :| 0 <= k < |front| && front[k] == part[i];
        assert Ids(rows)[k] < Ids(rows)[|rows| - 1];
      }
    }
  }

  /** Filtering one invoice out of the batched query gives that invoice's own query. */
  lemma BatchedListingSplits(batch: seq<ItemRow>, items: map<int, Item>, invoices: set<int>, invoice: int)
    requires IsListing(batch, items, invoices) && invoice in invoices
    ensures IsListing(OfInvoice(batch, invoice), items, {invoice})
  {
    var part := OfInvoice(batch, invoice);
    OfInvoiceKeepsOrder(batch, invoice);
    forall i | 0 <= i < |part| ensures part[i].id in items && part[i].item == items[part[i].id] {
      assert part[i] in batch;
    }
    forall x ensures x in Ids(part) <==> x in ItemIds(items, {invoice}) {
      if x in Ids(part) {
        var i :| 0 <= i < |part| && Ids(part)[i] == x;
        assert part[i] in part;
      }
      if x in ItemIds(items, {invoice}) {
        assert x in Ids(batch);
        var i :| 0 <= i < |batch| && Ids(batch)[i] == x;
        assert batch[i] in part;
        var j :| 0 <= j < |part| && part[j] == batch[i];
        assert Ids(part)[j] == x;
      }
    }
  }

  lemma GroupsAreListings(batch: seq<ItemRow>, items: map<int, Item>, invoices: set<int>, invoice: int,
                        single: seq<ItemRow>)
    requires IsListing(batch, items, invoices) && invoice in invoices
    requires IsListing(single, items, {invoice})
    ensures OfInvoice(batch, invoice) == single
  {
    BatchedListingSplits(batch, items, invoices, invoice);
    ListingsAgree(OfInvoice(batch, invoice), single, items, {invoice});
  }

  /** The list endpoint: one query over every invoice, then one group per invoice. */
  method ItemsOfInvoices(invoices: seq<int>, batch: seq<ItemRow>, ghost items: map<int, Item>)
    returns (lists: seq<seq<ItemRow>>)
    requires IsListing(batch, items, set i | i in invoices)
    ensures |lists| == |invoices|
    ensures forall n, single :: 0 <= n < |invoices| && IsListing(single, items, {invoices[n]}) ==> lists[n] == single
  {
    var groups := GroupByInvoice(batch);
    lists := [];
    for n := 0 to |invoices|
      invariant |lists| == n
      invariant forall m :: 0 <= m < n ==> lists[m] == OfInvoice(batch, invoices[m])
    {
      lists := lists + [Group(groups, invoices[n])];
    }
    forall n, single | 0 <= n < |invoices| && IsListing(single, items, {invoices[n]})
      ensures lists[n] == single
    {
      GroupsAreListings(batch, items, (set i | i in invoices), invoices[n], single);
    }
  }

  /** The exact amount of a stored line. */
  function Amount(item: Item): int {
    InvoiceTotal.LineAmount(Input(item))
  }

  function Input(item: Item): InvoiceTotal.ItemInput {
    InvoiceTotal.ItemInput(item.description, item.quantity, item.unitAmountCents)
  }

  function Inputs(rows: seq<ItemRow>): (inputs: seq<InvoiceTotal.ItemInput>)
    ensures |inputs| == |rows|
    ensures forall i :: 0 <= i < |rows| ==> inputs[i] == Input(rows[i].item)
  {
    seq(|rows|, i requires 0 <= i < |rows| => Input(rows[i].item))
  }

  /** The response loop: line totals are recomputed with wrapping arithmetic. For stored
      lines that fit, nothing wraps. */
  method RecomputeLineTotals(rows: seq<ItemRow>) returns (totals: seq<int64>)
    ensures |totals| == |rows|
    ensures forall i :: 0 <= i < |rows| ==> totals[i] == Wrap(Amount(rows[i].item))
    ensures InvoiceTotal.Fits(Inputs(rows)) ==> totals == InvoiceTotal.LineAmounts(Inputs(rows))
  {
    totals := [];
    for n := 0 to |rows|
      invariant |totals| == n
      invariant forall i :: 0 <= i < n ==> totals[i] == Wrap(Amount(rows[i].item))
    {
      totals := totals + [Wrap(rows[n].item.quantity * rows[n].item.unitAmountCents)];
    }
    if InvoiceTotal.Fits(Inputs(rows)) {
      forall i | 0 <= i < |rows| ensures totals[i] == InvoiceTotal.LineAmounts(Inputs(rows))[i] {
        InvoiceTotal.FitsPrefix(Inputs(rows), i);
        InvoiceTotal.ValidLine(Inputs(rows)[i]);
      }
    }
  }
}

/** Stored totals are the sums of their stored lines, in every reachable state. */
module Conservation {
  import opened MachineInt
  import opened Ordered
  import opened Schema
  import opened Transactions
  import opened TableInvariants
  import opened Protocol
  import opened InvoiceItems
  import opened InvoiceTotal
  import opened Text
  import Handlers
  import SystemInvariants

  /** Listed in any way the item query allows, the invoice's lines fit and add up to its total. */
  ghost predicate Conserved(t: Tables, invoice: int)
    requires invoice in t.invoices
  {
    forall rows :: IsListing(rows, t.items, {invoice}) ==> Balanced(rows, t.invoices[invoice].total)
  }

  predicate Balanced(rows: seq<ItemRow>, total: int) {
    Fits(Inputs(rows)) && Sum(Inputs(rows)) == total
  }

  ghost predicate AllConserved(t: Tables) {
    && (forall i :: i in t.invoices ==> Conserved(t, i))
    && (forall x :: x in t.items ==> t.items[x].invoice in t.invoices)
  }

  /** The item rows of a creation request, in request order. */
  function RequestRows(v: NewInvoice): (rows: seq<ItemRow>)
    requires |v.itemIds| == |v.inputs|
    ensures |rows| == |v.inputs|
    ensures forall i :: 0 <= i < |rows| ==> rows[i] == ItemRow(v.itemIds[i], StoredItem(v.id, v.inputs[i]))
  {
    seq(|v.inputs|, i requires 0 <= i < |v.inputs| => ItemRow(v.itemIds[i], StoredItem(v.id, v.inputs[i])))
  }

  /** Trimming descriptions changes no amount and no validity. */
  lemma StoredAmounts(v: NewInvoice)
    requires |v.itemIds| == |v.inputs| && Fits(v.inputs)
    ensures Balanced(RequestRows(v), Sum(v.inputs))
  {
    var stored := Inputs(RequestRows(v));
    forall i | 0 <= i < |stored| ensures ValidItem(stored[i]) && LineAmount(stored[i]) == LineAmount(v.inputs[i]) {
      assert ValidItem(v.inputs[i]);
      TrimSpaceIdempotent(v.inputs[i].description);
    }
    assert LineAmounts(stored) == LineAmounts(v.inputs);
  }

  predicate IdsUsable(items: map<int, Item>, v: NewInvoice) {
    && |v.inputs| == |v.itemIds|
    && (forall i, j :: 0 <= i < j < |v.itemIds| ==> v.itemIds[i] != v.itemIds[j])
    && (forall i :: 0 <= i < |v.itemIds| ==> v.itemIds[i] !in items)
  }

  lemma {:induction false} ItemAt(items: map<int, Item>, v: NewInvoice, n: nat, i: nat)
    requires IdsUsable(items, v) && i < n <= |v.inputs|
    ensures var w := WithItems(items, v.id, v.inputs, v.itemIds, n);
            v.itemIds[i] in w && w[v.itemIds[i]] == StoredItem(v.id, v.inputs[i])
  {
    if i < n - 1 {
      ItemAt(items, v, n - 1, i);
    }
  }

  lemma {:induction false} OldItemKept(items: map<int, Item>, v: NewInvoice, n: nat, x: int)
    requires IdsUsable(items, v) && n <= |v.inputs| && x in items
    ensures var w := WithItems(items, v.id, v.inputs, v.itemIds, n); x in w && w[x] == items[x]
  {
    if n > 0 {
      OldItemKept(items, v, n - 1, x);
    }
  }

  lemma ItemsAt(items: map<int, Item>, v: NewInvoice, n: nat)
    requires IdsUsable(items, v) && n == |v.inputs|
    ensures var w := WithItems(items, v.id, v.inputs, v.itemIds, n);
            && (forall i :: 0 <= i < n ==> v.itemIds[i] in w && w[v.itemIds[i]] == StoredItem(v.id, v.inputs[i]))
            && (forall x :: x in items ==> x in w && w[x] == items[x])
            && (forall x :: x in w ==> x in items || x in v.itemIds)
  {
    var w := WithItems(items, v.id, v.inputs, v.itemIds, n);
    forall i | 0 <= i < n ensures v.itemIds[i] in w && w[v.itemIds[i]] == StoredItem(v.id, v.inputs[i]) {
      ItemAt(items, v, n, i);
    }
    forall x | x in items ensures x in w && w[x] == items[x] {
      OldItemKept(items, v, n, x);
    }
    Handlers.WithItemsKeys(items, v.id, v.inputs, v.itemIds, n);
    assert v.itemIds[..n] == v.itemIds;
  }

  lemma RequestIds(t: Tables, v: NewInvoice, total: int64, rowIds: nat -> int, x: int)
    requires AllConserved(t) && Insertable(t, v, rowIds)
    ensures x in v.itemIds <==> x in ItemIds(WithInvoice(t, v, total).items, {v.id})
  {
    var items := WithInvoice(t, v, total).items;
    ItemsAt(t.items, v, |v.inputs|);
    if x in v.itemIds {
      var i :| 0 <= i < |v.itemIds| && v.itemIds[i] == x;
      assert items[v.itemIds[i]] == StoredItem(v.id, v.inputs[i]);
    }
  }

  /** The new invoice's listing is its request order, because its item ids increase. */
  lemma RequestOrderIsListing(t: Tables, v: NewInvoice, total: int64, rowIds: nat -> int)
    requires AllConserved(t) && Insertable(t, v, rowIds) && Increasing(v.itemIds)
    ensures IsListing(RequestRows(v), WithInvoice(t, v, total).items, {v.id})
  {
    assert Ids(RequestRows(v)) == v.itemIds;
    forall x ensures x in v.itemIds <==> x in ItemIds(WithInvoice(t, v, total).items, {v.id}) {
      RequestIds(t, v, total, rowIds, x);
    }
    ItemsAt(t.items, v, |v.inputs|);
  }

  /** Listings of the other invoices do not see the new items. */
  lemma OtherListingsUnchanged(t: Tables, v: NewInvoice, total: int64, rowIds: nat -> int, invoice: int,
                        rows: seq<ItemRow>)
    requires AllConserved(t) && Insertable(t, v, rowIds) && invoice in t.invoices
    ensures IsListing(rows, WithInvoice(t, v, total).items, {invoice}) <==> IsListing(rows, t.items, {invoice})
  {
    var items := WithInvoice(t, v, total).items;
    ItemsAt(t.items, v, |v.inputs|);
    forall x ensures x in ItemIds(t.items, {invoice}) <==> x in ItemIds(items, {invoice}) {
      if x in v.itemIds {
        var i :| 0 <= i < |v.itemIds| && v.itemIds[i] == x;
        assert items[v.itemIds[i]] == StoredItem(v.id, v.inputs[i]);
      }
    }
    SameListings(rows, t.items, items, invoice);
  }

  lemma SameListings(rows: seq<ItemRow>, items: map<int, Item>, more: map<int, Item>, invoice: int)
    requires forall x :: x in ItemIds(items, {invoice}) <==> x in ItemIds(more, {invoice})
    requires forall x :: x in items ==> x in more && more[x] == items[x]
    ensures IsListing(rows, more, {invoice}) <==> IsListing(rows, items, {invoice})
  {
    assert forall i :: 0 <= i < |rows| ==> Ids(rows)[i] in Ids(rows);
    if IsListing(rows, more, {invoice}) {
      forall i | 0 <= i < |rows| ensures rows[i].id in items && rows[i].item == items[rows[i].id] {
        assert Ids(rows)[i] in ItemIds(items, {invoice});
      }
    }
  }

  lemma CreationConserves(t: Tables, v: NewInvoice, rowIds: nat -> int)
    requires AllConserved(t) && Insertable(t, v, rowIds) && Creatable(v)
    ensures 0 <= Sum(v.inputs) <= MAX_INT64 && AllConserved(Created(t, v, Sum(v.inputs), rowIds))
  {
    FitsInInt64(v.inputs);
    var total: int64 := Sum(v.inputs);
    var t' := Created(t, v, total, rowIds);
    forall i | i in t'.invoices ensures Conserved(t', i) {
      forall rows | IsListing(rows, t'.items, {i}) ensures Balanced(rows, t'.invoices[i].total) {
        if i == v.id {
          RequestOrderIsListing(t, v, total, rowIds);
          ListingsAgree(rows, RequestRows(v), t'.items, {i});
          StoredAmounts(v);
        } else {
          OtherListingsUnchanged(t, v, total, rowIds, i, rows);
          assert Conserved(t, i);
        }
      }
    }
    ItemsAt(t.items, v, |v.inputs|);
    StoredItems(t.items, v, |v.inputs|);
  }

  ghost predicate SameBooks(t: Tables, u: Tables) {
    && u.items == t.items
    && u.invoices.Keys == t.invoices.Keys
    && forall i :: i in t.invoices ==> u.invoices[i].total == t.invoices[i].total
  }

  lemma SameBooksConserve(t: Tables, u: Tables)
    requires AllConserved(t) && SameBooks(t, u)
    ensures AllConserved(u)
  {
    forall i | i in u.invoices ensures Conserved(u, i) {
      assert i in t.invoices.Keys && Conserved(t, i);
    }
    forall x | x in u.items ensures u.items[x].invoice in u.invoices {
      assert u.items[x].invoice in t.invoices.Keys;
    }
  }

  lemma OtherStepsKeepBooks(digest: string -> string, s: Sys, e: Step)
    requires !e.CreateInvoice?
    ensures SameBooks(s.t, Next(digest, s, e).t)
  {
  }

  lemma CreationStepConserves(digest: string -> string, s: Sys, v: NewInvoice, rowIds: nat -> int, failAt: nat)
    requires AllConserved(s.t)
    ensures AllConserved(Next(digest, s, CreateInvoice(v, rowIds, failAt)).t)
  {
    if Creatable(v) {
      CreateEffect(digest, s, v, rowIds, failAt);
      if CreateTx(s.t, v, Sum(v.inputs), rowIds, failAt).1 {
        CreationConserves(s.t, v, rowIds);
      }
    }
  }

  lemma StepConserves(digest: string -> string, s: Sys, e: Step)
    requires AllConserved(s.t)
    ensures AllConserved(Next(digest, s, e).t)
  {
    if e.CreateInvoice? {
      CreationStepConserves(digest, s, e.v, e.rowIds, e.failAt);
    } else {
      OtherStepsKeepBooks(digest, s, e);
      SameBooksConserve(s.t, Next(digest, s, e).t);
    }
  }

  /** In every reachable state the stored lines of every invoice fit and add up to its total,
      so recomputing the line totals for a response never wraps. */
  lemma {:induction false} TotalsAreConserved(digest: string -> string, es: seq<Step>)
    ensures AllConserved(Run(digest, INIT, es).t)
  {
    if es != [] {
      TotalsAreConserved(digest, es[..|es| - 1]);
      StepConserves(digest, Run(digest, INIT, es[..|es| - 1]), es[|es| - 1]);
    }
  }

  lemma CreationKeepsListing(digest: string -> string, s: Sys, e: Step, invoice: int, rows: seq<ItemRow>)
    requires AllConserved(s.t) && invoice in s.t.invoices && IsListing(rows, s.t.items, {invoice})
    requires e.CreateInvoice? && Creatable(e.v) && Insertable(s.t, e.v, e.rowIds)
    ensures 0 <= Sum(e.v.inputs) <= MAX_INT64
    ensures var t' := Created(s.t, e.v, Sum(e.v.inputs), e.rowIds);
            IsListing(rows, t'.items, {invoice}) && invoice in t'.invoices
  {
    FitsInInt64(e.v.inputs);
    OtherListingsUnchanged(s.t, e.v, Sum(e.v.inputs), e.rowIds, invoice, rows);
  }

  lemma ListingStep(digest: string -> string, s: Sys, e: Step, invoice: int, rows: seq<ItemRow>)
    requires AllConserved(s.t) && invoice in s.t.invoices && IsListing(rows, s.t.items, {invoice})
    ensures var t' := Next(digest, s, e).t; IsListing(rows, t'.items, {invoice}) && invoice in t'.invoices
  {
    if !e.CreateInvoice? {
      OtherStepsKeepBooks(digest, s, e);
      assert invoice in s.t.invoices.Keys;
    } else if Creatable(e.v) && Insertable(s.t, e.v, e.rowIds) {
      CreateEffect(digest, s, e.v, e.rowIds, e.failAt);
      CreationKeepsListing(digest, s, e, invoice, rows);
    }
  }

  lemma {:induction false} ListingPersists(digest: string -> string, s: Sys, es: seq<Step>, invoice: int,
                        rows: seq<ItemRow>)
    requires AllConserved(s.t) && invoice in s.t.invoices && IsListing(rows, s.t.items, {invoice})
    ensures var t' := Run(digest, s, es).t;
            AllConserved(t') && invoice in t'.invoices && IsListing(rows, t'.items, {invoice})
  {
    if es != [] {
      ListingPersists(digest, s, es[..|es| - 1], invoice, rows);
      var r := Run(digest, s, es[..|es| - 1]);
      StepConserves(digest, r, es[|es| - 1]);
      ListingStep(digest, r, es[|es| - 1], invoice, rows);
    }
  }

  lemma CreatedListing(digest: string -> string, s: Sys, v: NewInvoice, rowIds: nat -> int, failAt: nat)
    requires AllConserved(s.t) && Creatable(v) && v.id !in s.t.invoices
    requires v.id in Next(digest, s, CreateInvoice(v, rowIds, failAt)).t.invoices
    ensures IsListing(RequestRows(v), Next(digest, s, CreateInvoice(v, rowIds, failAt)).t.items, {v.id})
  {
    CreateEffect(digest, s, v, rowIds, failAt);
    RequestOrderIsListing(s.t, v, Sum(v.inputs), rowIds);
  }

  /** Whatever happens after a creation, the item query returns the lines in request order. */
  lemma ItemsKeepRequestOrder(digest: string -> string, s: Sys, v: NewInvoice, rowIds: nat -> int, failAt: nat,
                        es: seq<Step>, rows: seq<ItemRow>)
    requires AllConserved(s.t) && Creatable(v) && v.id !in s.t.invoices
    requires var created := Next(digest, s, CreateInvoice(v, rowIds, failAt));
             v.id in created.t.invoices && IsListing(rows, Run(digest, created, es).t.items, {v.id})
    ensures |rows| == |v.inputs|
    ensures forall i :: 0 <= i < |rows| ==>
      rows[i] == ItemRow(v.itemIds[i],
        Item(v.id, TrimSpace(v.inputs[i].description), v.inputs[i].quantity, v.inputs[i].unitAmountCents))
  {
    var created := Next(digest, s, CreateInvoice(v, rowIds, failAt));
    CreatedListing(digest, s, v, rowIds, failAt);
    CreationStepConserves(digest, s, v, rowIds, failAt);
    ListingPersists(digest, created, es, v.id, RequestRows(v));
    ListingsAgree(rows, RequestRows(v), Run(digest, created, es).t.items, {v.id});
  }

  /** End to end: the amount of every PSP call is the sum of the invoice's stored lines. */
  lemma {:induction false} ChargesEqualLineSums(digest: string -> string, es: seq<Step>, n: nat, rows: seq<ItemRow>)
    requires var s := Run(digest, INIT, es);
             n < |s.calls| && IsListing(rows, s.t.items, {s.calls[n].invoice})
    ensures Balanced(rows, Run(digest, INIT, es).calls[n].amount)
  {
    var s := Run(digest, INIT, es);
    TotalsAreConserved(digest, es);
    SystemInvariants.ReachableInv(digest, es);
    assert SystemInvariants.CallOk(s.t, s.calls[n]);
    assert Conserved(s.t, s.calls[n].invoice);
  }
}

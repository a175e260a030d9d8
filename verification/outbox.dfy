/** Exactness of the transactional outbox. */
module Outbox {
  import opened MachineInt
  import opened Ordered
  import opened Schema
  import opened Transactions
  import opened TableInvariants
  import opened Protocol
  import opened SystemInvariants
  import InvoiceTotal

  /** The rows of `after` that `before` does not have are one per active endpoint. */
  ghost predicate AddsOneRowPerEndpoint(before: Tables, after: Tables, business: int, invoice: int, event: Event) {
    var added := set d | d in after.deliveries && d !in before.deliveries;
    var active := ActiveEndpointIds(before.endpoints, business);
    && (forall d :: d in before.deliveries ==> d in after.deliveries && after.deliveries[d] == before.deliveries[d])
    && (forall d :: d in added ==> after.deliveries[d].endpoint in active)
    && (forall d :: d in added ==> after.deliveries[d] == Delivery(after.deliveries[d].endpoint, invoice, event))
    && (forall x :: x in active ==> exists d :: d in added && after.deliveries[d].endpoint == x)
    && (forall d, e :: d in added && e in added && d != e
          ==> after.deliveries[d].endpoint != after.deliveries[e].endpoint)
  }

  ghost function RowsAfter(t: Tables, business: int, invoice: int, event: Event, ids: nat -> int): map<int, Delivery> {
    var endpoints := ActiveEndpoints(t, business);
    Queued(t.deliveries, endpoints, invoice, event, ids, |endpoints|)
  }

  /** Each added row comes from one turn of the insert loop. */
  lemma AddedBy(t: Tables, u: Tables, business: int, invoice: int, event: Event, ids: nat -> int,
                d: int) returns (i: nat)
    requires Queueable(u, invoice, ids, |ActiveEndpoints(t, business)|) && u.deliveries == t.deliveries
    requires d in RowsAfter(t, business, invoice, event, ids) && d !in t.deliveries
    ensures var endpoints := ActiveEndpoints(t, business);
            i < |endpoints| && d == ids(i) && endpoints[i] in ActiveEndpointIds(t.endpoints, business)
            && RowsAfter(t, business, invoice, event, ids)[d] == Delivery(endpoints[i], invoice, event)
  {
    var endpoints := ActiveEndpoints(t, business);
    QueuedContents(t.deliveries, endpoints, invoice, event, ids, |endpoints|);
    i :| 0 <= i < |endpoints| && d == ids(i);
    assert endpoints[i] in endpoints;
  }

  lemma AddedFor(t: Tables, u: Tables, business: int, invoice: int, event: Event, ids: nat -> int,
                 endpoint: int) returns (d: int)
    requires Queueable(u, invoice, ids, |ActiveEndpoints(t, business)|) && u.deliveries == t.deliveries
    requires endpoint in ActiveEndpointIds(t.endpoints, business)
    ensures var rows := RowsAfter(t, business, invoice, event, ids);
            d in rows && d !in t.deliveries && rows[d].endpoint == endpoint
  {
    var endpoints := ActiveEndpoints(t, business);
    QueuedContents(t.deliveries, endpoints, invoice, event, ids, |endpoints|);
    assert endpoint in endpoints;
    var i :| 0 <= i < |endpoints| && endpoints[i] == endpoint;
    d := ids(i);
  }

  lemma AddedDiffer(t: Tables, u: Tables, business: int, invoice: int, event: Event, ids: nat -> int, d: int, e: int)
    requires Queueable(u, invoice, ids, |ActiveEndpoints(t, business)|) && u.deliveries == t.deliveries
    requires var rows := RowsAfter(t, business, invoice, event, ids);
             d in rows && e in rows && d !in t.deliveries && e !in t.deliveries && d != e
    ensures var rows := RowsAfter(t, business, invoice, event, ids); rows[d].endpoint != rows[e].endpoint
  {
    var i := AddedBy(t, u, business, invoice, event, ids, d);
    var j := AddedBy(t, u, business, invoice, event, ids, e);
    assert ActiveEndpoints(t, business)[i] != ActiveEndpoints(t, business)[j];
  }

  lemma QueueAddsRows(t: Tables, u: Tables, business: int, invoice: int, event: Event, ids: nat -> int)
    requires Queueable(u, invoice, ids, |ActiveEndpoints(t, business)|)
    requires u.endpoints == t.endpoints && u.deliveries == t.deliveries
    ensures AddsOneRowPerEndpoint(t, QueueAll(u, business, invoice, event, ids), business, invoice, event)
  {
    var endpoints := ActiveEndpoints(t, business);
    var rows := RowsAfter(t, business, invoice, event, ids);
    assert QueueAll(u, business, invoice, event, ids).deliveries == rows;
    QueuedContents(t.deliveries, endpoints, invoice, event, ids, |endpoints|);
    forall d | d in rows && d !in t.deliveries
      ensures rows[d].endpoint in ActiveEndpointIds(t.endpoints, business)
      ensures rows[d] == Delivery(rows[d].endpoint, invoice, event)
    {
      var i := AddedBy(t, u, business, invoice, event, ids, d);
    }
    forall x | x in ActiveEndpointIds(t.endpoints, business)
      ensures exists d :: d in rows && d !in t.deliveries && rows[d].endpoint == x
    {
      var d := AddedFor(t, u, business, invoice, event, ids, x);
    }
    forall d, e | d in rows && e in rows && d !in t.deliveries && e !in t.deliveries && d != e
      ensures rows[d].endpoint != rows[e].endpoint
    {
      AddedDiffer(t, u, business, invoice, event, ids, d, e);
    }
  }

  /** A finalize that commits a success or a failure announces it to every endpoint active at
      that moment, once each; an unknown outcome or a rollback announces nothing. */
  lemma FinalizeAnnouncesExactly(digest: string -> string, s: Sys, p: nat, rowIds: nat -> int, failAt: nat)
    requires At(s, p).Called?
    ensures var s' := Next(digest, s, FinalizeCommit(p, rowIds, failAt));
            var Called(req, c, reply, _) := At(s, p);
            if At(s', p).answer.Fresh? && !reply.PspError?
            then AddsOneRowPerEndpoint(s.t, s'.t, req.business, c.invoiceId, EventFor(c, reply))
            else s'.t.deliveries == s.t.deliveries
  {
    var Called(req, c, reply, _) := At(s, p);
    FinalizeStep(digest, s, p, rowIds, failAt);
    if FinalizeEnabled(s, p, rowIds) && !reply.PspError? {
      QueueAddsRows(s.t, MarkSettled(s.t, c, reply), req.business, c.invoiceId, EventFor(c, reply), rowIds);
    }
  }

  /** Creating an invoice announces it once per active endpoint, or does nothing at all. */
  lemma CreationAnnouncesExactly(digest: string -> string, s: Sys, v: NewInvoice, rowIds: nat -> int, failAt: nat)
    requires Creatable(v)
    ensures 0 <= InvoiceTotal.Sum(v.inputs) <= MAX_INT64
    ensures var s' := Next(digest, s, CreateInvoice(v, rowIds, failAt));
            || s'.t == s.t
            || AddsOneRowPerEndpoint(s.t, s'.t, v.business, v.id, InvoiceCreated(InvoiceTotal.Sum(v.inputs)))
  {
    CreateEffect(digest, s, v, rowIds, failAt);
    if Insertable(s.t, v, rowIds) {
      QueueAddsRows(s.t, WithInvoice(s.t, v, InvoiceTotal.Sum(v.inputs)), v.business, v.id,
        InvoiceCreated(InvoiceTotal.Sum(v.inputs)), rowIds);
    }
  }

  /** No other step writes the outbox, and no row ever changes or disappears. */
  lemma OtherStepsKeepOutbox(digest: string -> string, s: Sys, e: Step)
    requires !e.FinalizeCommit? && !e.CreateInvoice?
    ensures Next(digest, s, e).t.deliveries == s.t.deliveries
  {
  }

  lemma {:induction false} RowsPersist(digest: string -> string, s: Sys, es: seq<Step>, d: int)
    requires d in s.t.deliveries
    ensures var t' := Run(digest, s, es).t; d in t'.deliveries && t'.deliveries[d] == s.t.deliveries[d]
  {
    if es != [] {
      var front, e := es[..|es| - 1], es[|es| - 1];
      var r := Run(digest, s, front);
      RowsPersist(digest, s, front, d);
      if e.FinalizeCommit? && At(r, e.p).Called? {
        FinalizeAnnouncesExactly(digest, r, e.p, e.rowIds, e.failAt);
      } else if e.CreateInvoice? && Creatable(e.v) {
        CreationAnnouncesExactly(digest, r, e.v, e.rowIds, e.failAt);
      }
    }
  }

  lemma OneSuccess(t: Tables, a: int, b: int)
    requires Settled(t) && a in t.attempts && b in t.attempts && t.attempts[a].invoice == t.attempts[b].invoice
    requires t.attempts[a].status == Succeeded && t.attempts[b].status == Succeeded
    ensures a == b
  {
    assert a != b ==> SuccessIsAlone(t.attempts[a], t.attempts[b]);
  }

  /** No (invoice, endpoint) pair ever has two INVOICE.PAID rows, nor two INVOICE.CREATED. */
  lemma PaidAnnouncedOnce(digest: string -> string, es: seq<Step>, d: int, e: int)
    requires var rows := Run(digest, INIT, es).t.deliveries;
             && d in rows && e in rows && d != e
             && rows[d].endpoint == rows[e].endpoint && rows[d].invoice == rows[e].invoice
    ensures var rows := Run(digest, INIT, es).t.deliveries;
            && !(rows[d].event.InvoicePaid? && rows[e].event.InvoicePaid?)
            && !(rows[d].event.InvoiceCreated? && rows[e].event.InvoiceCreated?)
  {
    var t := Run(digest, INIT, es).t;
    ReachableInv(digest, es);
    assert RowOk(t, t.deliveries[d]) && RowOk(t, t.deliveries[e]) && !SameNotice(t.deliveries[d], t.deliveries[e]);
    if t.deliveries[d].event.InvoicePaid? && t.deliveries[e].event.InvoicePaid? {
      OneSuccess(t, t.deliveries[d].event.attempt, t.deliveries[e].event.attempt);
    }
  }

  function FailureRows(t: Tables, invoice: int, endpoint: int): set<int> {
    set d | d in t.deliveries && t.deliveries[d].event.InvoicePaymentFailed?
            && t.deliveries[d].invoice == invoice && t.deliveries[d].endpoint == endpoint
  }

  function FailedAttempts(t: Tables, invoice: int): set<int> {
    set a | a in t.attempts && t.attempts[a].invoice == invoice && t.attempts[a].status == Failed
  }

  /** An injective image is no larger than its target. */
  lemma {:induction false} Injection(xs: set<int>, ys: set<int>, f: map<int, int>)
    requires forall x :: x in xs ==> x in f && f[x] in ys
    requires forall x, y :: x in xs && y in xs && x != y ==> f[x] != f[y]
    ensures |xs| <= |ys|
    decreases |xs|
  {
    if |xs| > 0 {
      HasMember(xs);
      var x :| x in xs;
      Injection(xs - {x}, ys - {f[x]}, f);
    }
  }

  /** Per endpoint there are never more failure rows than failed attempts of the invoice. */
  lemma FailureRowsBounded(digest: string -> string, es: seq<Step>, invoice: int, endpoint: int)
    ensures var t := Run(digest, INIT, es).t;
            |FailureRows(t, invoice, endpoint)| <= |FailedAttempts(t, invoice)|
  {
    var t := Run(digest, INIT, es).t;
    ReachableInv(digest, es);
    var rows := FailureRows(t, invoice, endpoint);
    var source := map d | d in rows :: t.deliveries[d].event.attempt;
    forall d | d in rows ensures source[d] in FailedAttempts(t, invoice) {
      assert RowOk(t, t.deliveries[d]);
    }
    forall d, e | d in rows && e in rows && d != e ensures source[d] != source[e] {
      assert RowOk(t, t.deliveries[d]) && RowOk(t, t.deliveries[e]);
      assert !SameNotice(t.deliveries[d], t.deliveries[e]);
    }
    Injection(rows, FailedAttempts(t, invoice), source);
  }
}

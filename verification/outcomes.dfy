/** What each step of the protocol leaves behind and answers, column by column and in the
    tables' own terms. */
module Outcomes {
  import opened MachineInt
  import opened Wrappers
  import opened Ordered
  import opened Schema
  import opened Transactions
  import opened Protocol
  import opened SystemInvariants
  import opened Outbox
  import opened Text
  import InvoiceTotal
  import Fingerprint

  // ----- admission and key read

  /** Whatever blanks surround them, key and token are taken whole: nothing of the middle is
      lost. Every text is of this form. */
  lemma ArriveTakesWholeTexts(digest: string -> string, s: Sys, p: nat, business: int, invoice: int,
                              a: string, key: string, b: string, c: string, token: string, d: string)
    requires p !in s.procs
    requires Blank(a) && Blank(b) && Blank(c) && Blank(d) && NoOuterBlanks(key) && NoOuterBlanks(token)
    ensures Next(digest, s, Arrive(p, business, invoice, a + key + b, c + token + d)) ==
              s.(procs := s.procs[p :=
                if key == "" || ByteLength(key) > 255 || token == "" then Answered(BadRequest)
                else Arrived(PayRequest(business, invoice, key, token))])
  {
    TrimSpaceIs(a, key, b);
    TrimSpaceIs(c, token, d);
  }

  /** Short ASCII texts without outer blanks always get in, as they are. */
  lemma PlainRequestsArrive(digest: string -> string, s: Sys, p: nat, business: int, invoice: int,
                            key: string, token: string)
    requires p !in s.procs && NoOuterBlanks(key) && NoOuterBlanks(token)
    requires 1 <= |key| <= 255 && token != "" && forall i :: 0 <= i < |key| ==> key[i] < '\U{80}'
    ensures Next(digest, s, Arrive(p, business, invoice, key, token)) ==
              s.(procs := s.procs[p := Arrived(PayRequest(business, invoice, key, token))])
  {
    AsciiBytes(key);
    ArriveTakesWholeTexts(digest, s, p, business, invoice, "", key, "", "", token, "");
    assert "" + key + "" == key && "" + token + "" == token;
  }

  /** A key nobody took is missed. */
  lemma UntakenKeyIsMissed(digest: string -> string, s: Sys, p: nat, fails: bool)
    requires At(s, p).Arrived?
    requires forall k :: k in s.t.keys ==>
      s.t.keys[k].business != At(s, p).req.business || s.t.keys[k].key != At(s, p).req.key
    ensures Next(digest, s, ReadKey(p, fails)) ==
              s.(procs := s.procs[p := if fails then Answered(Rejected(Internal)) else Missed(At(s, p).req)])
  {
    ReadKeyEffect(digest, s, p, At(s, p).req, fails);
  }

  // ----- claim and charge

  /** A won claim inserts exactly one PROCESSING key and one PROCESSING attempt, and remembers
      the invoice row it locked. */
  lemma WonClaimInserts(digest: string -> string, s: Sys, p: nat, ids: ClaimIds, failAt: nat)
    requires At(s, p).Missed? && At(Next(digest, s, ClaimCommit(p, ids, failAt)), p).Won?
    ensures var req := At(s, p).req;
            var hash := Fingerprint.RequestHash(digest, req.invoice, req.token);
            && req.invoice in s.t.invoices
            && Next(digest, s, ClaimCommit(p, ids, failAt)) ==
                 Sys(s.t.(keys := s.t.keys[ids.key := Key(req.business, req.key, hash, None)],
                          attempts := s.t.attempts[ids.attempt :=
                            Attempt(req.invoice, ids.key, Processing, ids.request, "", "", "")]),
                     s.procs[p := Won(req,
                       Claim(ids.key, ids.attempt, ids.request, req.invoice, s.t.invoices[req.invoice]))],
                     s.calls)
  {
    ClaimEffect(digest, s, p, At(s, p).req, ids, failAt);
  }

  /** One call of the PSP, charged if it says so, not charged if it declines, and either way if
      it errs. */
  lemma ChargeCallsOnce(digest: string -> string, s: Sys, p: nat, reply: PspReply, chargedOnError: bool)
    requires At(s, p).Won?
    ensures var Won(req, c) := At(s, p);
            var charged := reply.PspSucceeded? || (reply.PspError? && chargedOnError);
            Next(digest, s, Charge(p, reply, chargedOnError)) ==
              s.(calls := s.calls + [Call(c.attempt, c.invoiceId, req.business, req.key, c.invoice.total, charged)],
                 procs := s.procs[p := Called(req, c, reply, |s.calls|)])
  {
    ChargeEffect(digest, s, p, At(s, p).req, At(s, p).c, reply, chargedOnError);
  }

  // ----- finalize

  /** The rows a settled payment changes: its attempt, its key, and the invoices given. */
  predicate Settles(t: Tables, u: Tables, c: Claim, row: Attempt, answer: Response, invoices: map<int, Invoice>) {
    && c.key in t.keys
    && u.attempts == t.attempts[c.attempt := row]
    && u.keys == t.keys[c.key := t.keys[c.key].(response := Some(answer))]
    && u.invoices == invoices && u.items == t.items && u.endpoints == t.endpoints
  }

  /** The first n outbox ids are new and different. */
  predicate FreshIds(t: Tables, ids: nat -> int, n: nat) {
    && (forall i :: 0 <= i < n ==> ids(i) !in t.deliveries)
    && (forall i, j :: 0 <= i < j < n ==> ids(i) != ids(j))
  }

  lemma ActiveEndpointsAre(t: Tables, business: int, x: int)
    ensures Increasing(ActiveEndpoints(t, business))
    ensures x in ActiveEndpoints(t, business) <==> x in ActiveEndpointIds(t.endpoints, business)
    ensures x in ActiveEndpoints(t, business)
       <==> x in t.endpoints && t.endpoints[x].business == business && t.endpoints[x].active
  {
  }

  /** An ambiguous answer of the PSP is recorded as UNKNOWN and answered 202, unless one of the
      three statements fails; it announces nothing. */
  lemma AmbiguousOutcome(digest: string -> string, s: Sys, p: nat, rowIds: nat -> int, failAt: nat)
    requires Inv(digest, s) && At(s, p).Called? && At(s, p).reply.PspError?
    ensures var s', c := Next(digest, s, FinalizeCommit(p, rowIds, failAt)), At(s, p).c;
            var body := Body(c.attempt, c.invoiceId, Unknown, Open, "", "", "ambiguous_transport_error");
            && c.attempt in s.t.attempts && s'.calls == s.calls
            && var row := s.t.attempts[c.attempt].(status := Unknown, failureReason := "ambiguous_transport_error");
            if failAt >= 3 then
              && At(s', p) == Answered(Fresh(Response(202, body)))
              && Settles(s.t, s'.t, c, row, Response(202, body), s.t.invoices)
              && s'.t.deliveries == s.t.deliveries
            else At(s', p) == Answered(FinalizeFailed) && s'.t == s.t
  {
    FinalizeStep(digest, s, p, rowIds, failAt);
    assert ProcOk(digest, s.t, s.calls, s.procs[p]);
  }

  /** A decline is recorded as FAILED with the PSP's code, answered 402 and announced to every
      active endpoint, unless an outbox id is taken or a statement fails. */
  lemma DeclineOutcome(digest: string -> string, s: Sys, p: nat, rowIds: nat -> int, failAt: nat)
    requires Inv(digest, s) && At(s, p).Called? && At(s, p).reply.PspFailed?
    ensures var s', c := Next(digest, s, FinalizeCommit(p, rowIds, failAt)), At(s, p).c;
            var code, n := At(s, p).reply.failureCode, |ActiveEndpoints(s.t, At(s, p).req.business)|;
            var body := Body(c.attempt, c.invoiceId, Failed, Open, "", code, "");
            && c.attempt in s.t.attempts && s'.calls == s.calls
            && var row := s.t.attempts[c.attempt].(
                 status := Failed, failureCode := code, failureReason := "payment_declined");
            if FreshIds(s.t, rowIds, n) && failAt >= 4 + n then
              && At(s', p) == Answered(Fresh(Response(402, body)))
              && Settles(s.t, s'.t, c, row, Response(402, body), s.t.invoices)
              && AddsOneRowPerEndpoint(s.t, s'.t, At(s, p).req.business, c.invoiceId,
                   InvoicePaymentFailed(c.attempt, code))
            else At(s', p) == Answered(FinalizeFailed) && s'.t == s.t
  {
    FinalizeStep(digest, s, p, rowIds, failAt);
    FinalizeAnnouncesExactly(digest, s, p, rowIds, failAt);
    assert ProcOk(digest, s.t, s.calls, s.procs[p]);
  }

  /** A success is recorded as SUCCEEDED with the PSP's reference, makes the invoice PAID, is
      answered 200 and announced to every active endpoint, unless the invoice is no longer OPEN,
      an outbox id is taken or a statement fails. */
  lemma SuccessOutcome(digest: string -> string, s: Sys, p: nat, rowIds: nat -> int, failAt: nat)
    requires Inv(digest, s) && At(s, p).Called? && At(s, p).reply.PspSucceeded?
    ensures var s', c := Next(digest, s, FinalizeCommit(p, rowIds, failAt)), At(s, p).c;
            var ref, n := At(s, p).reply.pspRef, |ActiveEndpoints(s.t, At(s, p).req.business)|;
            var body := Body(c.attempt, c.invoiceId, Succeeded, Paid, ref, "", "");
            && c.attempt in s.t.attempts && c.invoiceId in s.t.invoices && s'.calls == s.calls
            && var row := s.t.attempts[c.attempt].(status := Succeeded, pspRef := ref);
            if s.t.invoices[c.invoiceId].state == Open && FreshIds(s.t, rowIds, n) && failAt >= 5 + n then
              && At(s', p) == Answered(Fresh(Response(200, body)))
              && Settles(s.t, s'.t, c, row, Response(200, body),
                   s.t.invoices[c.invoiceId := s.t.invoices[c.invoiceId].(state := Paid)])
              && AddsOneRowPerEndpoint(s.t, s'.t, At(s, p).req.business, c.invoiceId, InvoicePaid(c.attempt, ref))
            else At(s', p) == Answered(FinalizeFailed) && s'.t == s.t
  {
    FinalizeStep(digest, s, p, rowIds, failAt);
    FinalizeAnnouncesExactly(digest, s, p, rowIds, failAt);
    assert ProcOk(digest, s.t, s.calls, s.procs[p]);
  }

  // ----- creation

  /** The state, total and owner a new invoice is stored with, and when it is stored at all. */
  lemma CreationOutcome(digest: string -> string, s: Sys, v: NewInvoice, rowIds: nat -> int, failAt: nat)
    requires Creatable(v)
    ensures 0 <= InvoiceTotal.Sum(v.inputs) <= MAX_INT64
    ensures var s', n := Next(digest, s, CreateInvoice(v, rowIds, failAt)), |ActiveEndpoints(s.t, v.business)|;
            && s'.procs == s.procs && s'.calls == s.calls
            && if v.id !in s.t.invoices && (forall i :: 0 <= i < |v.itemIds| ==> v.itemIds[i] !in s.t.items)
                  && FreshIds(s.t, rowIds, n) && failAt >= 3 + |v.inputs| + n
               then
                 && s'.t.invoices == s.t.invoices[v.id := Invoice(v.business, InvoiceTotal.Sum(v.inputs), v.state)]
                 && s'.t.keys == s.t.keys && s'.t.attempts == s.t.attempts && s'.t.endpoints == s.t.endpoints
                 && AddsOneRowPerEndpoint(s.t, s'.t, v.business, v.id, InvoiceCreated(InvoiceTotal.Sum(v.inputs)))
               else s'.t == s.t
  {
    CreateEffect(digest, s, v, rowIds, failAt);
    CreationAnnouncesExactly(digest, s, v, rowIds, failAt);
    ValidInputs(v);
  }

  lemma ValidInputs(v: NewInvoice)
    requires Creatable(v)
    ensures forall i :: 0 <= i < |v.inputs| ==> v.inputs[i].quantity > 0 && v.inputs[i].unitAmountCents >= 0
  {
    assert forall i :: 0 <= i < |v.inputs| ==> InvoiceTotal.ValidItem(v.inputs[i]);
  }

  // ----- crashes and endpoints

  lemma CrashForgetsTheRequest(digest: string -> string, s: Sys, p: nat)
    requires p in s.procs
    ensures Next(digest, s, Crash(p)) == s.(procs := s.procs[p := Crashed])
  {
  }

  lemma EndpointOutcomes(digest: string -> string, s: Sys, id: int, business: int, active: bool)
    ensures id !in s.t.endpoints ==>
              Next(digest, s, AddEndpoint(id, business)).t ==
                s.t.(endpoints := s.t.endpoints[id := Endpoint(business, true)])
    ensures id in s.t.endpoints ==>
              Next(digest, s, SetActive(id, active)).t ==
                s.t.(endpoints := s.t.endpoints[id := Endpoint(s.t.endpoints[id].business, active)])
  {
  }
}

/** The payment protocol as a step machine. Any number of requests interleave; the database
    transactions are single steps, and everything between them is a point where another
    request may run or the process may crash. */
module Protocol {
  import opened MachineInt
  import opened Wrappers
  import opened Ordered
  import opened Schema
  import opened Transactions
  import opened Text
  import Fingerprint
  import InvoiceTotal

  /** One call of the PSP's charge endpoint, and whether the card was really charged. */
  datatype Call = Call(attempt: int, invoice: int, business: int, key: string, amount: int64, charged: bool)

  datatype Answer =
    | Fresh(response: Response)
    | Replayed(response: Response)
    | Rejected(error: ClaimError)
    | BadRequest
    | FinalizeFailed
    | VoidAnswer(check: VoidCheck)
    | VoidFailed

  /** Where a request is, with the locals it still needs. `Called` remembers the position of
      its own call in the PSP's ledger. */
  datatype Proc =
    | Arrived(req: PayRequest)
    | Missed(req: PayRequest)
    | Won(req: PayRequest, c: Claim)
    | Called(req: PayRequest, c: Claim, reply: PspReply, call: nat)
    | Voiding(business: int, invoice: int)
    | Answered(answer: Answer)
    | Crashed

  datatype Sys = Sys(t: Tables, procs: map<nat, Proc>, calls: seq<Call>)

  datatype Step =
    | Arrive(p: nat, business: int, invoice: int, header: string, token: string)
    | ReadKey(p: nat, fails: bool)
    | ClaimCommit(p: nat, ids: ClaimIds, failAt: nat)
    | Charge(p: nat, reply: PspReply, chargedOnError: bool)
    | FinalizeCommit(p: nat, rowIds: nat -> int, failAt: nat)
    | VoidRead(p: nat, business: int, invoice: int, fails: bool)
    | VoidWrite(p: nat, fails: bool)
    | Crash(p: nat)
    | CreateInvoice(v: NewInvoice, rowIds: nat -> int, failAt: nat)
    | AddEndpoint(id: int, business: int)
    | SetActive(id: int, active: bool)

  const INIT := Sys(EMPTY, map[], [])

  function At(s: Sys, p: nat): Proc {
    if p in s.procs then s.procs[p] else Crashed
  }

  /** PayInvoice's own checks on the header and the body. */
  function Admit(business: int, invoice: int, header: string, token: string): Proc {
    var key := TrimSpace(header);
    if key == "" || ByteLength(key) > 255 || TrimSpace(token) == "" then Answered(BadRequest)
    else Arrived(PayRequest(business, invoice, key, TrimSpace(token)))
  }

  function AfterLookup(req: PayRequest, r: LookupResult): Proc {
    match r
    case Miss => Missed(req)
    case Replay(response) => Answered(Replayed(response))
    case Refused(e) => Answered(Rejected(e))
  }

  function AfterClaim(req: PayRequest, r: Result<Claim, ClaimError>): Proc {
    match r
    case Ok(c) => Won(req, c)
    case Err(e) => Answered(Rejected(e))
  }

  /** "succeeded" means charged, "failed" means not charged, an error means either. */
  function ReallyCharged(reply: PspReply, chargedOnError: bool): bool {
    match reply
    case PspSucceeded(_) => true
    case PspFailed(_) => false
    case PspError => chargedOnError
  }

  function CallFor(req: PayRequest, c: Claim, charged: bool): Call {
    Call(c.attempt, c.invoiceId, req.business, req.key, c.invoice.total, charged)
  }

  function AfterFinalize(r: Option<Response>): Proc {
    match r
    case Some(response) => Answered(Fresh(response))
    case None => Answered(FinalizeFailed)
  }

  function AfterVoidRead(business: int, invoice: int, fails: bool, check: VoidCheck): Proc {
    if fails then Answered(VoidFailed)
    else if check == MayVoid then Voiding(business, invoice)
    else Answered(VoidAnswer(check))
  }

  function AfterVoidWrite(t: Tables, business: int, invoice: int, fails: bool): Proc {
    if fails || !OwnsInvoice(t, business, invoice) then Answered(VoidFailed) else Answered(VoidAnswer(MayVoid))
  }

  predicate Creatable(v: NewInvoice) {
    && v.inputs != [] && InvoiceTotal.Fits(v.inputs)
    && (v.state == Draft || v.state == Open)
    && |v.itemIds| == |v.inputs| && Increasing(v.itemIds)
  }

  ghost function Next(digest: string -> string, s: Sys, e: Step): Sys {
    match e
    case Arrive(p, business, invoice, header, token) =>
      if p in s.procs then s else s.(procs := s.procs[p := Admit(business, invoice, header, token)])
    case ReadKey(p, fails) =>
      (match At(s, p)
       case Arrived(req) =>
         var hash := Fingerprint.RequestHash(digest, req.invoice, req.token);
         s.(procs := s.procs[p := AfterLookup(req, LookupTx(s.t, req, hash, fails))])
       case _ => s)
    case ClaimCommit(p, ids, failAt) =>
      (match At(s, p)
       case Missed(req) =>
         var (t, r) := ClaimTx(s.t, req, Fingerprint.RequestHash(digest, req.invoice, req.token), ids, failAt);
         s.(t := t, procs := s.procs[p := AfterClaim(req, r)])
       case _ => s)
    case Charge(p, reply, chargedOnError) =>
      (match At(s, p)
       case Won(req, c) =>
         s.(calls := s.calls + [CallFor(req, c, ReallyCharged(reply, chargedOnError))],
            procs := s.procs[p := Called(req, c, reply, |s.calls|)])
       case _ => s)
    case FinalizeCommit(p, rowIds, failAt) =>
      (match At(s, p)
       case Called(req, c, reply, _) =>
         var (t, r) := FinalizeTx(s.t, c, reply, req.business, rowIds, failAt);
         s.(t := t, procs := s.procs[p := AfterFinalize(r)])
       case _ => s)
    case VoidRead(p, business, invoice, fails) =>
      if p in s.procs then s
      else s.(procs := s.procs[p := AfterVoidRead(business, invoice, fails, VoidReadTx(s.t, business, invoice))])
    case VoidWrite(p, fails) =>
      (match At(s, p)
       case Voiding(business, invoice) =>
         s.(t := if fails then s.t else VoidWriteTx(s.t, business, invoice),
            procs := s.procs[p := AfterVoidWrite(s.t, business, invoice, fails)])
       case _ => s)
    case Crash(p) =>
      if p in s.procs then s.(procs := s.procs[p := Crashed]) else s
    case CreateInvoice(v, rowIds, failAt) =>
      if Creatable(v) then
        InvoiceTotal.FitsInInt64(v.inputs);
        s.(t := CreateTx(s.t, v, InvoiceTotal.Sum(v.inputs), rowIds, failAt).0)
      else s
    case AddEndpoint(id, business) =>
      if id in s.t.endpoints then s else s.(t := s.t.(endpoints := s.t.endpoints[id := Endpoint(business, true)]))
    case SetActive(id, active) =>
      if id !in s.t.endpoints then s
      else s.(t := s.t.(endpoints := s.t.endpoints[id := s.t.endpoints[id].(active := active)]))
  }

  // ----- what single steps do, for proofs about given runs

  lemma ReadKeyEffect(digest: string -> string, s: Sys, p: nat, req: PayRequest, fails: bool)
    requires At(s, p) == Arrived(req)
    ensures var r := LookupTx(s.t, req, Fingerprint.RequestHash(digest, req.invoice, req.token), fails);
            Next(digest, s, ReadKey(p, fails)) == s.(procs := s.procs[p := AfterLookup(req, r)])
  {
  }

  lemma ClaimEffect(digest: string -> string, s: Sys, p: nat, req: PayRequest, ids: ClaimIds, failAt: nat)
    requires At(s, p) == Missed(req)
    ensures var r := ClaimTx(s.t, req, Fingerprint.RequestHash(digest, req.invoice, req.token), ids, failAt);
            Next(digest, s, ClaimCommit(p, ids, failAt)) == s.(t := r.0, procs := s.procs[p := AfterClaim(req, r.1)])
  {
  }

  lemma ChargeEffect(digest: string -> string, s: Sys, p: nat, req: PayRequest, c: Claim, reply: PspReply,
                     chargedOnError: bool)
    requires At(s, p) == Won(req, c)
    ensures Next(digest, s, Charge(p, reply, chargedOnError)) ==
              s.(calls := s.calls + [CallFor(req, c, ReallyCharged(reply, chargedOnError))],
                 procs := s.procs[p := Called(req, c, reply, |s.calls|)])
  {
  }

  lemma FinalizeEffect(digest: string -> string, s: Sys, p: nat, rowIds: nat -> int, failAt: nat)
    requires At(s, p).Called?
    ensures var r := FinalizeTx(s.t, At(s, p).c, At(s, p).reply, At(s, p).req.business, rowIds, failAt);
            Next(digest, s, FinalizeCommit(p, rowIds, failAt)) ==
              s.(t := r.0, procs := s.procs[p := AfterFinalize(r.1)])
  {
  }

  lemma CreateEffect(digest: string -> string, s: Sys, v: NewInvoice, rowIds: nat -> int, failAt: nat)
    requires Creatable(v)
    ensures 0 <= InvoiceTotal.Sum(v.inputs) <= MAX_INT64
    ensures Next(digest, s, CreateInvoice(v, rowIds, failAt)) ==
              s.(t := CreateTx(s.t, v, InvoiceTotal.Sum(v.inputs), rowIds, failAt).0)
  {
    InvoiceTotal.FitsInInt64(v.inputs);
  }

  lemma VoidWriteEffect(digest: string -> string, s: Sys, p: nat, business: int, invoice: int)
    requires At(s, p) == Voiding(business, invoice)
    ensures Next(digest, s, VoidWrite(p, false)) ==
              s.(t := VoidWriteTx(s.t, business, invoice),
                 procs := s.procs[p := AfterVoidWrite(s.t, business, invoice, false)])
  {
  }

  ghost function Run(digest: string -> string, s: Sys, es: seq<Step>): Sys {
    if es == [] then s else Next(digest, Run(digest, s, es[..|es| - 1]), es[|es| - 1])
  }

  lemma RunSnoc(digest: string -> string, s: Sys, es: seq<Step>, e: Step)
    ensures Run(digest, s, es + [e]) == Next(digest, Run(digest, s, es), e)
  {
    assert (es + [e])[..|es|] == es;
  }

  lemma RunPair(digest: string -> string, s: Sys, es: seq<Step>, e: Step, f: Step)
    ensures Run(digest, s, es + [e, f]) == Next(digest, Next(digest, Run(digest, s, es), e), f)
  {
    assert es + [e, f] == (es + [e]) + [f];
    RunSnoc(digest, s, es + [e], f);
    RunSnoc(digest, s, es, e);
  }

  lemma {:induction false} RunAppends(digest: string -> string, s: Sys, es: seq<Step>, fs: seq<Step>)
    ensures Run(digest, s, es + fs) == Run(digest, Run(digest, s, es), fs)
  {
    if fs == [] {
      assert es + fs == es;
    } else {
      assert (es + fs)[..|es + fs| - 1] == es + fs[..|fs| - 1];
      RunAppends(digest, s, es, fs[..|fs| - 1]);
    }
  }
}

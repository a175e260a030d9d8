/** Whole requests, run without interference: each is a run of the step machine. */
module Endpoints {
  import opened MachineInt
  import opened Wrappers
  import opened Ordered
  import opened Schema
  import opened Transactions
  import opened Database
  import opened Handlers
  import opened Protocol
  import opened Text
  import Fingerprint
  import PublicId
  import InvoiceTotal

  /** The outside world during one payment: drawn ids, database faults, and the PSP. */
  datatype World = World(
    readFails: bool, ids: ClaimIds, claimFailAt: nat,
    reply: PspReply, chargedOnError: bool,
    rowIds: nat -> int, finalizeFailAt: nat)

  /** The steps of one undisturbed payment; those after its answer do nothing. */
  function PaySteps(business: int, invoice: int, header: string, token: string, w: World): seq<Step> {
    [Arrive(0, business, invoice, header, token),
     ReadKey(0, w.readFails),
     ClaimCommit(0, w.ids, w.claimFailAt),
     Charge(0, w.reply, w.chargedOnError),
     FinalizeCommit(0, w.rowIds, w.finalizeFailAt)]
  }

  ghost function Entered(digest: string -> string, s: Sys, w: World): Sys {
    Next(digest, Next(digest, s, ReadKey(0, w.readFails)), ClaimCommit(0, w.ids, w.claimFailAt))
  }

  ghost function Concluded(digest: string -> string, s: Sys, w: World): Sys {
    Next(digest, Next(digest, s, Charge(0, w.reply, w.chargedOnError)), FinalizeCommit(0, w.rowIds, w.finalizeFailAt))
  }

  lemma PayRun(digest: string -> string, s: Sys, business: int, invoice: int, header: string, token: string, w: World)
    ensures var es := PaySteps(business, invoice, header, token, w);
            Run(digest, s, es) == Concluded(digest, Entered(digest, Next(digest, s, es[0]), w), w)
  {
    var es := PaySteps(business, invoice, header, token, w);
    assert es == ([] + [es[0]] + [es[1], es[2]]) + [es[3], es[4]];
    RunPair(digest, s, [] + [es[0]] + [es[1], es[2]], es[3], es[4]);
    RunPair(digest, s, [] + [es[0]], es[1], es[2]);
    RunSnoc(digest, s, [], es[0]);
  }

  /** The claim half of an undisturbed request. */
  method Enter(store: Store, digest: string -> string, req: PayRequest, w: World, ghost s: Sys) returns (proc: Proc)
    requires ConstraintsHold(store.View()) && s.t == store.View() && At(s, 0) == Arrived(req)
    modifies store
    ensures Entered(digest, s, w) == s.(t := store.View(), procs := s.procs[0 := proc])
    ensures proc.Won? || proc.Answered?
    ensures proc.Won? ==> proc.req == req
  {
    var hash := Fingerprint.RequestHash(digest, req.invoice, req.token);
    var lookup := LookupKey(store, req, hash, w.readFails);
    if lookup.Refused? {
      return Answered(Rejected(lookup.error));
    }
    if lookup.Replay? {
      return Answered(Replayed(lookup.response));
    }
    var claim := LockAndClaim(store, req, hash, w.ids, w.claimFailAt);
    return if claim.Ok? then Won(req, claim.value) else Answered(Rejected(claim.error));
  }

  /** The charge and finalize half. */
  method Conclude(store: Store, digest: string -> string, req: PayRequest, c: Claim, w: World, ghost s: Sys)
    returns (answer: Answer, call: Call)
    requires s.t == store.View() && At(s, 0) == Won(req, c)
    modifies store
    ensures Concluded(digest, s, w) == Sys(store.View(), s.procs[0 := Answered(answer)], s.calls + [call])
  {
    call := CallFor(req, c, ReallyCharged(w.reply, w.chargedOnError));
    var done := Finalize(store, c, w.reply, req.business, w.rowIds, w.finalizeFailAt);
    answer := if done.Some? then Fresh(done.value) else FinalizeFailed;
  }

  lemma AnsweredStays(digest: string -> string, s: Sys, w: World)
    requires At(s, 0).Answered?
    ensures Entered(digest, s, w) == s && Concluded(digest, s, w) == s
  {
  }

  /** What the path parameter names, for either endpoint. */
  function InvoiceInPath(codec: PublicId.Codec, path: string): Option<int> {
    match PublicId.DecodedId(codec.schedule, "inv", path)
    case Ok(invoice) => Some(invoice)
    case Err(_) => None
  }

  /** The path of an invoice names it, and the identifier of anything else names no invoice. */
  lemma PathNamesInvoice(codec: PublicId.Codec, prefix: string, id: int64)
    requires prefix != "" && '_' !in prefix
    ensures InvoiceInPath(codec, PublicId.EncodedId(codec.schedule, prefix, id).value) ==
              if prefix == "inv" then Some(id) else None
  {
    if prefix == "inv" {
      PublicId.RoundTrip(codec.schedule, prefix, id);
    } else {
      PublicId.OtherPrefixRejected(codec.schedule, prefix, "inv", id);
    }
  }

  predicate KeyAccepted(header: string) {
    TrimSpace(header) != "" && ByteLength(TrimSpace(header)) <= 255
  }

  /** This answer and this PSP ledger are those of the steps, which also leave these tables. */
  ghost predicate PaidAs(digest: string -> string, before: Tables, es: seq<Step>, after: Tables, answer: Answer,
                        calls: seq<Call>) {
    var s := Run(digest, Sys(before, map[], []), es);
    s.t == after && s.calls == calls && At(s, 0) == Answered(answer)
  }

  /** PayInvoice: a bad header or path answers at once; otherwise tables, PSP ledger and answer
      are those of its five steps. */
  method PayInvoice(store: Store, digest: string -> string, codec: PublicId.Codec,
                    business: int, path: string, header: string, token: string, w: World)
    returns (answer: Answer, calls: seq<Call>)
    requires ConstraintsHold(store.View())
    modifies store
    ensures match InvoiceInPath(codec, path)
            case Some(invoice) =>
              PaidAs(digest, old(store.View()), PaySteps(business, invoice, header, token, w),
                store.View(), answer, calls)
            case None =>
              && store.View() == old(store.View()) && calls == []
              && answer == if KeyAccepted(header) then Rejected(NotFound) else BadRequest
  {
    if !KeyAccepted(header) {
      ghost var invoice := InvoiceInPath(codec, path);
      if invoice.Some? {
        RefusedAtOnce(digest, store.View(), business, invoice.value, header, token, w);
      }
      return BadRequest, [];
    }
    var decoded := codec.Decode("inv", path);
    if decoded.Err? {
      return Rejected(NotFound), [];
    }
    answer, calls := PayDecoded(store, digest, business, decoded.value, header, token, w);
  }

  lemma RefusedAtOnce(digest: string -> string, t: Tables, business: int, invoice: int, header: string, token: string,
                      w: World)
    requires !KeyAccepted(header) || TrimSpace(token) == ""
    ensures PaidAs(digest, t, PaySteps(business, invoice, header, token, w), t, BadRequest, [])
  {
    var start := Sys(t, map[], []);
    PayRun(digest, start, business, invoice, header, token, w);
    AnsweredStays(digest, Next(digest, start, Arrive(0, business, invoice, header, token)), w);
  }

  method PayDecoded(store: Store, digest: string -> string, business: int, invoice: int, header: string,
                    token: string, w: World)
    returns (answer: Answer, calls: seq<Call>)
    requires ConstraintsHold(store.View()) && KeyAccepted(header)
    modifies store
    ensures PaidAs(digest, old(store.View()), PaySteps(business, invoice, header, token, w),
              store.View(), answer, calls)
  {
    if TrimSpace(token) == "" {
      RefusedAtOnce(digest, store.View(), business, invoice, header, token, w);
      return BadRequest, [];
    }
    ghost var start := Sys(store.View(), map[], []);
    PayRun(digest, start, business, invoice, header, token, w);
    ghost var s := Next(digest, start, Arrive(0, business, invoice, header, token));
    var req := PayRequest(business, invoice, TrimSpace(header), TrimSpace(token));
    var proc := Enter(store, digest, req, w, s);
    ghost var entered := Entered(digest, s, w);
    if proc.Answered? {
      AnsweredStays(digest, entered, w);
      return proc.answer, [];
    }
    var concluded, call := Conclude(store, digest, req, proc.c, w, entered);
    return concluded, [call];
  }

  /** VoidInvoice: a bad path answers at once; otherwise check the state that was read, then
      overwrite the state. Undisturbed, that is the two void steps. */
  method VoidInvoice(store: Store, codec: PublicId.Codec, business: int, path: string, readFails: bool,
                     writeFails: bool,
                     ghost digest: string -> string)
    returns (answer: Answer)
    modifies store`invoices
    ensures match InvoiceInPath(codec, path)
            case Some(invoice) =>
              PaidAs(digest, old(store.View()), [VoidRead(0, business, invoice, readFails), VoidWrite(0, writeFails)],
                store.View(), answer, [])
            case None => store.View() == old(store.View()) && answer == VoidAnswer(VoidNotFound)
  {
    var decoded := codec.Decode("inv", path);
    if decoded.Err? {
      return VoidAnswer(VoidNotFound);
    }
    answer := VoidDecoded(store, business, decoded.value, readFails, writeFails);
    VoidRun(digest, old(store.View()), business, decoded.value, readFails, writeFails, store.View(), answer);
  }

  /** What VoidInvoice answers and leaves behind, as a relation between tables. */
  predicate VoidedAs(t: Tables, business: int, invoice: int, readFails: bool, writeFails: bool, after: Tables,
                     answer: Answer) {
    var check := VoidReadTx(t, business, invoice);
    var writes := !readFails && check == MayVoid;
    && answer == (if readFails || (writes && writeFails) then VoidFailed else VoidAnswer(check))
    && after == if writes && !writeFails then VoidWriteTx(t, business, invoice) else t
  }

  lemma VoidRun(digest: string -> string, t: Tables, business: int, invoice: int, readFails: bool, writeFails: bool,
                after: Tables, answer: Answer)
    requires VoidedAs(t, business, invoice, readFails, writeFails, after, answer)
    ensures PaidAs(digest, t, [VoidRead(0, business, invoice, readFails), VoidWrite(0, writeFails)], after, answer, [])
  {
    var s, read, write := Sys(t, map[], []), VoidRead(0, business, invoice, readFails), VoidWrite(0, writeFails);
    RunPair(digest, s, [], read, write);
    assert [] + [read, write] == [read, write];
  }

  method VoidDecoded(store: Store, business: int, invoice: int, readFails: bool,
                     writeFails: bool) returns (answer: Answer)
    modifies store`invoices
    ensures VoidedAs(old(store.View()), business, invoice, readFails, writeFails, store.View(), answer)
  {
    if readFails {
      return VoidFailed;
    }
    var inv := store.GetInvoiceByID(business, invoice);
    if inv.None? {
      return VoidAnswer(VoidNotFound);
    }
    match inv.value.state {
      case Paid => return VoidAnswer(VoidRefused);
      case Uncollectible => return VoidAnswer(VoidRefused);
      case Void => return VoidAnswer(AlreadyVoid);
      case Draft =>
      case Open =>
    }
    if writeFails {
      return VoidFailed;
    }
    var _ := store.UpdateInvoiceStateToVoid(business, invoice);
    return VoidAnswer(MayVoid);
  }

  datatype CreateAnswer = InvoiceStored | InvalidItems(error: InvoiceTotal.TotalError) | InvalidState | StoreFailed

  /** CreateInvoice, from the decoded request on: the total loop, then the transaction. The item
      ids come from one generator, so they increase. */
  method CreateInvoiceEndpoint(store: Store, v: NewInvoice, rowIds: nat -> int, failAt: nat,
                        ghost digest: string -> string)
    returns (answer: CreateAnswer)
    requires |v.itemIds| == |v.inputs| && Increasing(v.itemIds)
    modifies store
    ensures store.View() == Next(digest, Sys(old(store.View()), map[], []), CreateInvoice(v, rowIds, failAt)).t
    ensures answer.InvalidItems? ==> InvoiceTotal.Explains(v.inputs, answer.error)
    ensures answer.InvalidItems? <==> v.inputs == [] || !InvoiceTotal.Fits(v.inputs)
    ensures answer.InvalidState? <==>
              v.inputs != [] && InvoiceTotal.Fits(v.inputs) && v.state != Draft && v.state != Open
    ensures answer.InvoiceStored? <==>
              Creatable(v) && Insertable(old(store.View()), v, rowIds)
              && failAt >= CreateStatements(old(store.View()), v)
    ensures if answer.InvoiceStored? then
              && v.id !in old(store.invoices) && 0 <= InvoiceTotal.Sum(v.inputs) <= MAX_INT64
              && store.invoices ==
                   old(store.invoices)[v.id := Invoice(v.business, InvoiceTotal.Sum(v.inputs), v.state)]
            else store.View() == old(store.View())
  {
    var total := InvoiceTotal.ComputeTotal(v.inputs);
    if total.Err? {
      return InvalidItems(total.error);
    }
    if v.state != Draft && v.state != Open {
      return InvalidState;
    }
    InvoiceTotal.FitsInInt64(v.inputs);
    var ok := StoreInvoice(store, v, total.value, rowIds, failAt);
    return if ok then InvoiceStored else StoreFailed;
  }
}

/** Concrete runs for claims that do not hold of this code. */
module Counterexamples {
  import opened Wrappers
  import opened Schema
  import opened Transactions
  import opened Protocol
  import opened InvoiceStates
  import opened InvoiceTotal
  import opened Text
  import opened PaymentTheorems
  import Fingerprint
  import Ordered

  function OneItem(): ItemInput {
    ItemInput("x", 1, 5)
  }

  function TheInvoice(): NewInvoice {
    NewInvoice(7, 1, Open, [OneItem()], [8])
  }

  /** A void reads the invoice while it is open; the payment runs to completion; then the
      void writes. */
  function LateStep(n: nat): Step
    requires n < 8
  {
    match n
    case 0 => CreateInvoice(TheInvoice(), (k: nat) => k as int, 100)
    case 1 => VoidRead(1, 1, 7, false)
    case 2 => Arrive(0, 1, 7, "k", "t")
    case 3 => ReadKey(0, false)
    case 4 => ClaimCommit(0, ClaimIds(10, 11, 12), 100)
    case 5 => Charge(0, PspSucceeded("ref"), true)
    case 6 => FinalizeCommit(0, (k: nat) => k as int, 100)
    case 7 => VoidWrite(1, false)
  }

  function LateVoid(): seq<Step> {
    seq(8, n requires 0 <= n < 8 => LateStep(n))
  }

  lemma OneItemFits()
    ensures Creatable(TheInvoice()) && Sum([OneItem()]) == 5
  {
    assert TrimSpace("x") == "x";
    assert LineAmounts([OneItem()]) == [5];
    assert SumOf([5]) == SumOf([]) + 5 by {
      assert [5][..0] == [];
    }
  }

  lemma NoEndpoints(business: int)
    ensures ActiveEndpointIds(map[], business) == {}
    ensures Ordered.InOrder({}) == []
  {
  }

  ghost function After(digest: string -> string, es: seq<Step>, n: nat): Sys
    requires n <= |es|
  {
    Run(digest, INIT, es[..n])
  }

  lemma OneMore(digest: string -> string, es: seq<Step>, n: nat)
    requires n < |es|
    ensures After(digest, es, n + 1) == Next(digest, After(digest, es, n), es[n])
  {
    assert es[..n + 1] == es[..n] + [es[n]];
    RunSnoc(digest, INIT, es[..n], es[n]);
  }

  lemma AfterCreation(digest: string -> string, es: seq<Step>)
    requires es != [] && es[0] == LateStep(0)
    ensures var s := After(digest, es, 1);
            && s.t == OPEN_INVOICE && s.procs == map[] && s.calls == []
  {
    OneMore(digest, es, 0);
    OneItemFits();
    NoEndpoints(1);
    assert ActiveEndpoints(EMPTY, 1) == [];
    var v := TheInvoice();
    assert TrimSpace("x") == "x";
    assert StoredItem(7, OneItem()) == Item(7, "x", 1, 5);
    assert WithItems(map[], 7, v.inputs, v.itemIds, 0) == map[];
    assert WithItems(map[], 7, v.inputs, v.itemIds, 1) == map[8 := Item(7, "x", 1, 5)];
    assert Insertable(EMPTY, v, (n: nat) => n as int);
  }

  const OPEN_INVOICE := EMPTY.(invoices := map[7 := Invoice(1, 5, Open)], items := map[8 := Item(7, "x", 1, 5)])

  function TheRequest(): PayRequest {
    PayRequest(1, 7, "k", "t")
  }

  function TheClaim(): Claim {
    Claim(10, 11, 12, 7, Invoice(1, 5, Open))
  }

  lemma Arrives(digest: string -> string, s: Sys, p: nat)
    requires p !in s.procs
    ensures Next(digest, s, Arrive(p, 1, 7, "k", "t")) == s.(procs := s.procs[p := Arrived(TheRequest())])
  {
    assert TrimSpace("k") == "k" && TrimSpace("t") == "t";
    assert ByteLength("k") == 1 by {
      assert "k"[..0] == "";
    }
  }

  lemma Misses(digest: string -> string, s: Sys, p: nat)
    requires At(s, p) == Arrived(TheRequest()) && s.t.keys == map[]
    ensures Next(digest, s, ReadKey(p, false)) == s.(procs := s.procs[p := Missed(TheRequest())])
  {
    ReadKeyEffect(digest, s, p, TheRequest(), false);
  }

  lemma AfterVoidRead(digest: string -> string)
    ensures After(digest, LateVoid(), 2) == After(digest, LateVoid(), 1).(procs := map[1 := Voiding(1, 7)])
  {
    AfterCreation(digest, LateVoid());
    OneMore(digest, LateVoid(), 1);
  }

  lemma AfterArrival(digest: string -> string)
    ensures After(digest, LateVoid(), 3) ==
              After(digest, LateVoid(), 1).(procs := map[1 := Voiding(1, 7), 0 := Arrived(TheRequest())])
  {
    AfterVoidRead(digest);
    OneMore(digest, LateVoid(), 2);
    Arrives(digest, After(digest, LateVoid(), 2), 0);
  }

  lemma AfterMiss(digest: string -> string)
    ensures After(digest, LateVoid(), 4) ==
              After(digest, LateVoid(), 1).(procs := map[1 := Voiding(1, 7), 0 := Missed(TheRequest())])
  {
    AfterCreation(digest, LateVoid());
    AfterArrival(digest);
    OneMore(digest, LateVoid(), 3);
    Misses(digest, After(digest, LateVoid(), 3), 0);
  }

  /** The claim of the one request is in: nothing else stands in finalize's way. */
  predicate Chargeable(t: Tables) {
    && OwnsInvoice(t, 1, 7) && t.invoices[7].state == Open && t.endpoints == map[]
    && 11 in t.attempts && t.attempts[11].status == Processing
    && 10 in t.keys && t.keys[10].business == 1 && t.keys[10].key == "k" && t.keys[10].response == None
  }

  lemma ClaimGoesThrough(t: Tables, hash: string)
    requires t.keys == map[] && t.attempts == map[] && t.endpoints == map[]
    requires t.invoices == map[7 := Invoice(1, 5, Open)]
    ensures var r := ClaimTx(t, TheRequest(), hash, ClaimIds(10, 11, 12), 100);
            r.1 == Ok(TheClaim()) && Chargeable(r.0) && r.0.keys.Keys == {10}
  {
  }

  lemma AfterClaim(digest: string -> string)
    ensures After(digest, LateVoid(), 5).procs == map[1 := Voiding(1, 7), 0 := Won(TheRequest(), TheClaim())]
    ensures After(digest, LateVoid(), 5).calls == [] && Chargeable(After(digest, LateVoid(), 5).t)
  {
    AfterMiss(digest);
    AfterCreation(digest, LateVoid());
    OneMore(digest, LateVoid(), 4);
    ClaimGoesThrough(After(digest, LateVoid(), 4).t, Fingerprint.RequestHash(digest, 7, "t"));
    ClaimEffect(digest, After(digest, LateVoid(), 4), 0, TheRequest(), ClaimIds(10, 11, 12), 100);
  }

  lemma AfterCharge(digest: string -> string)
    ensures var s := After(digest, LateVoid(), 6);
            && s.procs == map[1 := Voiding(1, 7), 0 := Called(TheRequest(), TheClaim(), PspSucceeded("ref"), 0)]
            && Chargeable(s.t)
  {
    AfterClaim(digest);
    OneMore(digest, LateVoid(), 5);
    ChargeEffect(digest, After(digest, LateVoid(), 5), 0, TheRequest(), TheClaim(), PspSucceeded("ref"), true);
  }

  lemma SuccessGoesThrough(t: Tables)
    requires Chargeable(t)
    ensures var r := FinalizeTx(t, TheClaim(), PspSucceeded("ref"), 1, (k: nat) => k as int, 100);
            r.1.Some? && 7 in r.0.invoices && r.0.invoices[7] == t.invoices[7].(state := Paid)
  {
    NoEndpoints(1);
    assert ActiveEndpoints(t, 1) == [];
    assert Finalizable(t, TheClaim(), PspSucceeded("ref"), 1, (k: nat) => k as int);
  }

  lemma AfterFinalizing(digest: string -> string)
    ensures var s := After(digest, LateVoid(), 7);
            InState(s, 7, Paid) && OwnsInvoice(s.t, 1, 7) && At(s, 1) == Voiding(1, 7)
  {
    AfterCharge(digest);
    OneMore(digest, LateVoid(), 6);
    SuccessGoesThrough(After(digest, LateVoid(), 6).t);
    FinalizeEffect(digest, After(digest, LateVoid(), 6), 0, (k: nat) => k as int, 100);
  }

  /** PAID is not terminal: the same run is PAID after seven steps and VOID after eight. */
  lemma PaidIsNotTerminal(digest: string -> string)
    ensures InState(Run(digest, INIT, LateVoid()[..7]), 7, Paid)
    ensures InState(Run(digest, INIT, LateVoid()), 7, Void)
  {
    AfterFinalizing(digest);
    OneMore(digest, LateVoid(), 7);
    VoidWriteEffect(digest, After(digest, LateVoid(), 7), 1, 1, 7);
    assert LateVoid()[..8] == LateVoid();
  }

  // ----- a void between the charge and finalize

  /** The PSP answers, the pending void writes, and only then does finalize try. */
  function Overtaken(reply: PspReply): seq<Step> {
    LateVoid()[..5] + [Charge(0, reply, false), VoidWrite(1, false), FinalizeCommit(0, (k: nat) => k as int, 100)]
  }

  /** Claimed, then voided. */
  predicate Voided(t: Tables) {
    && OwnsInvoice(t, 1, 7) && t.invoices[7].state == Void && t.endpoints == map[]
    && 11 in t.attempts && t.attempts[11].status == Processing
    && 10 in t.keys && t.keys[10].response == None
  }

  lemma Charged(digest: string -> string, reply: PspReply)
    ensures var s := After(digest, Overtaken(reply), 6);
            && Chargeable(s.t) && s.calls == [CallFor(TheRequest(), TheClaim(), ReallyCharged(reply, false))]
            && s.procs == map[1 := Voiding(1, 7), 0 := Called(TheRequest(), TheClaim(), reply, 0)]
  {
    var es := Overtaken(reply);
    AfterClaim(digest);
    assert es[..5] == LateVoid()[..5];
    OneMore(digest, es, 5);
    ChargeEffect(digest, After(digest, es, 5), 0, TheRequest(), TheClaim(), reply, false);
  }

  lemma VoidOvertakes(digest: string -> string, reply: PspReply)
    ensures var s := After(digest, Overtaken(reply), 7);
            && Voided(s.t) && s.calls == [CallFor(TheRequest(), TheClaim(), ReallyCharged(reply, false))]
            && At(s, 0) == Called(TheRequest(), TheClaim(), reply, 0)
  {
    var es := Overtaken(reply);
    Charged(digest, reply);
    OneMore(digest, es, 6);
    VoidWriteEffect(digest, After(digest, es, 6), 1, 1, 7);
  }

  lemma DeclineGoesThrough(t: Tables)
    requires Voided(t)
    ensures var r := FinalizeTx(t, TheClaim(), PspFailed("declined"), 1, (k: nat) => k as int, 100);
            && r.1 == Some(AnswerTo(TheClaim(), PspFailed("declined")))
            && r.0.invoices == t.invoices
  {
    NoEndpoints(1);
    assert ActiveEndpoints(t, 1) == [];
    assert Finalizable(t, TheClaim(), PspFailed("declined"), 1, (k: nat) => k as int);
  }

  /** An answer may be stale: this one says OPEN about an invoice that is VOID. */
  lemma AnswerMayBeStale(digest: string -> string)
    ensures var s := Run(digest, INIT, Overtaken(PspFailed("declined")));
            && InState(s, 7, Void)
            && At(s, 0).Answered? && At(s, 0).answer.Fresh?
            && At(s, 0).answer.response.code == 402 && At(s, 0).answer.response.body.invoiceState == Open
  {
    var es := Overtaken(PspFailed("declined"));
    VoidOvertakes(digest, PspFailed("declined"));
    OneMore(digest, es, 7);
    DeclineGoesThrough(After(digest, es, 7).t);
    FinalizeEffect(digest, After(digest, es, 7), 0, (k: nat) => k as int, 100);
    assert es[..8] == es;
  }

  lemma SuccessRollsBack(t: Tables)
    requires Voided(t)
    ensures FinalizeTx(t, TheClaim(), PspSucceeded("ref"), 1, (k: nat) => k as int, 100) == (t, None)
  {
  }

  /** A real charge may go unrecorded: the invoice is VOID and the attempt left PROCESSING. */
  lemma ChargeMayGoUnrecorded(digest: string -> string)
    ensures var s := Run(digest, INIT, Overtaken(PspSucceeded("ref")));
            && s.calls == [CallFor(TheRequest(), TheClaim(), true)] && s.calls[0].invoice == 7
            && InState(s, 7, Void)
            && 11 in s.t.attempts && s.t.attempts[11].status == Processing
            && At(s, 0) == Answered(FinalizeFailed)
  {
    var es := Overtaken(PspSucceeded("ref"));
    VoidOvertakes(digest, PspSucceeded("ref"));
    OneMore(digest, es, 7);
    SuccessRollsBack(After(digest, es, 7).t);
    FinalizeEffect(digest, After(digest, es, 7), 0, (k: nat) => k as int, 100);
    assert es[..8] == es;
  }

  // ----- a race on one key

  function RaceStep(n: nat): Step
    requires n < 7
  {
    match n
    case 0 => LateStep(0)
    case 1 => Arrive(0, 1, 7, "k", "t")
    case 2 => Arrive(1, 1, 7, "k", "t")
    case 3 => ReadKey(0, false)
    case 4 => ReadKey(1, false)
    case 5 => ClaimCommit(0, ClaimIds(10, 11, 12), 100)
    case 6 => ClaimCommit(1, ClaimIds(20, 21, 22), 100)
  }

  /** The same request twice, both past the key read before either claims. */
  function KeyRace(): seq<Step> {
    seq(7, n requires 0 <= n < 7 => RaceStep(n))
  }

  /** No claim has committed yet, and the two requests stand at x and y. */
  predicate Racing(s: Sys, x: Proc, y: Proc) {
    s.t == OPEN_INVOICE && s.procs == map[0 := x, 1 := y]
  }

  lemma ArriveBoth(digest: string -> string, s: Sys)
    requires s.t == OPEN_INVOICE && s.procs == map[]
    ensures Racing(Next(digest, Next(digest, s, RaceStep(1)), RaceStep(2)),
              Arrived(TheRequest()), Arrived(TheRequest()))
  {
    Arrives(digest, s, 0);
    Arrives(digest, Next(digest, s, RaceStep(1)), 1);
  }

  lemma MissBoth(digest: string -> string, s: Sys)
    requires Racing(s, Arrived(TheRequest()), Arrived(TheRequest()))
    ensures Racing(Next(digest, Next(digest, s, RaceStep(3)), RaceStep(4)), Missed(TheRequest()), Missed(TheRequest()))
  {
    Misses(digest, s, 0);
    Misses(digest, s.(procs := s.procs[0 := Missed(TheRequest())]), 1);
  }

  lemma FirstClaims(digest: string -> string, s: Sys)
    requires Racing(s, Missed(TheRequest()), Missed(TheRequest()))
    ensures var r := Next(digest, s, RaceStep(5));
            && At(r, 0) == Won(TheRequest(), TheClaim()) && At(r, 1) == Missed(TheRequest()) && Chargeable(r.t)
  {
    ClaimGoesThrough(s.t, Fingerprint.RequestHash(digest, 7, "t"));
    ClaimEffect(digest, s, 0, TheRequest(), ClaimIds(10, 11, 12), 100);
  }

  lemma SecondLoses(digest: string -> string, s: Sys)
    requires At(s, 0).Won? && At(s, 1) == Missed(TheRequest()) && Chargeable(s.t)
    ensures var r := Next(digest, s, RaceStep(6)); At(r, 0).Won? && At(r, 1) == Answered(Rejected(Internal))
  {
    assert KeyTaken(s.t, 1, "k");
    SameKeyLoserAnswer(digest, s, 1, ClaimIds(20, 21, 22), 100);
    ClaimEffect(digest, s, 1, TheRequest(), ClaimIds(20, 21, 22), 100);
  }

  lemma BothArrive(digest: string -> string)
    ensures Racing(After(digest, KeyRace(), 3), Arrived(TheRequest()), Arrived(TheRequest()))
  {
    AfterCreation(digest, KeyRace());
    ArriveBoth(digest, After(digest, KeyRace(), 1));
    OneMore(digest, KeyRace(), 1);
    OneMore(digest, KeyRace(), 2);
  }

  lemma BothMiss(digest: string -> string)
    ensures Racing(After(digest, KeyRace(), 5), Missed(TheRequest()), Missed(TheRequest()))
  {
    BothArrive(digest);
    MissBoth(digest, After(digest, KeyRace(), 3));
    OneMore(digest, KeyRace(), 3);
    OneMore(digest, KeyRace(), 4);
  }

  lemma FirstWins(digest: string -> string)
    ensures var s := After(digest, KeyRace(), 6);
            && At(s, 0) == Won(TheRequest(), TheClaim()) && At(s, 1) == Missed(TheRequest()) && Chargeable(s.t)
  {
    BothMiss(digest);
    FirstClaims(digest, After(digest, KeyRace(), 5));
    OneMore(digest, KeyRace(), 5);
  }

  /** The loser of a race on one key is not told that a payment is in progress. */
  lemma KeyRaceIsInternalError(digest: string -> string)
    ensures At(Run(digest, INIT, KeyRace()), 0).Won?
    ensures At(Run(digest, INIT, KeyRace()), 1) == Answered(Rejected(Internal))
  {
    var es := KeyRace();
    FirstWins(digest);
    OneMore(digest, es, 6);
    SecondLoses(digest, After(digest, es, 6));
    assert es[..7] == es;
  }
}

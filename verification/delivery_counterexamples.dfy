/** What the queue does not guarantee once the lease discipline is dropped, or claims are
    abandoned. */
module DeliveryCounterexamples {
  import opened Wrappers
  import opened DeliveryQueue
  import opened DeliveryInvariants

  const TINY := Config(1, 1)

  function LateStep(n: nat): Step
    requires n < 6
  {
    match n
    case 0 => Enqueue(5)
    case 1 => ClaimBatch([5])
    case 2 => Tick(1)
    case 3 => ClaimBatch([5])
    case 4 => MarkDelivered(1)
    case 5 => MarkFailed(0, "late")
  }

  /** A slow worker's lease expires, a second one delivers, then the first reports failure. */
  function LateMark(): seq<Step> {
    seq(6, n requires 0 <= n < 6 => LateStep(n))
  }

  function After(n: nat): Queue
    requires n <= 6
  {
    Run(TINY, EMPTY, LateMark()[..n])
  }

  lemma OneMore(n: nat)
    requires n < 6
    ensures After(n + 1) == Next(TINY, After(n), LateStep(n))
  {
    assert LateMark()[..n + 1][..n] == LateMark()[..n];
  }

  lemma OnlyRowIsBatch(rows: map<int, Row>, now: int)
    requires 5 in rows && (forall id :: id in rows ==> id == 5) && Active(rows[5]) && rows[5].due <= now
    ensures IsBatch(rows, now, 1, [5])
  {
    forall id ensures id in DueIds(rows, now) <==> id == 5 {
    }
    assert DueIds(rows, now) == {5};
  }

  lemma Singleton(q: Queue)
    requires q.rows.Keys == {5} && Active(q.rows[5]) && q.rows[5].due <= q.now
    ensures IsBatch(q.rows, q.now, 1, [5])
  {
    assert forall id :: id in q.rows ==> id in q.rows.Keys;
    OnlyRowIsBatch(q.rows, q.now);
  }

  predicate OnlyFive(q: Queue) {
    q.rows.Keys == {5} == q.history.Keys
  }

  lemma OneToken(q: Queue)
    requires 5 in q.rows
    ensures ClaimTokens(q, [5], q.now + 1) == map[q.next := Claim(5, q.rows[5].count + 1, q.now + 1)]
  {
    var tokens := ClaimTokens(q, [5], q.now + 1);
    assert tokens.Keys == {q.next};
    assert tokens[q.next] == TokenFor(q, [5], q.now + 1, 0);
  }

  predicate FiveTaken(q: Queue, r: Queue)
    requires 5 in q.rows && 5 in q.history
  {
    && r.now == q.now && r.next == q.next + 1
    && r.live == q.live[q.next := Claim(5, q.rows[5].count + 1, q.now + 1)]
    && OnlyFive(r) && r.rows[5] == ClaimedRow(q.rows[5], q.now + 1)
    && r.history[5].abandoned == q.history[5].abandoned
  }

  lemma TakeFive(q: Queue)
    requires 5 in q.rows && 5 in q.history && OnlyFive(q)
    ensures FiveTaken(q, Claimed(q, TINY, [5]))
  {
    assert 5 in [5];
    OneToken(q);
    var r := Claimed(q, TINY, [5]);
    assert r.rows.Keys == q.rows.Keys && r.history.Keys == q.history.Keys;
  }

  lemma ClaimFive(q: Queue)
    requires OnlyFive(q) && Active(q.rows[5]) && q.rows[5].due <= q.now
    ensures 5 in q.history && FiveTaken(q, Next(TINY, q, ClaimBatch([5])))
  {
    assert 5 in q.rows.Keys && 5 in q.history.Keys;
    Singleton(q);
    BatchIsClaimed(q, TINY, [5]);
    TakeFive(q);
  }

  lemma AfterFirstClaim()
    ensures OnlyFive(After(2)) && After(2).now == 0 && After(2).next == 1
    ensures After(2).rows[5] == Row(Processing, 1, 1, None, None)
    ensures After(2).live == map[0 := Claim(5, 1, 1)]
  {
    OneMore(0);
    OneMore(1);
    ClaimFive(After(1));
  }

  lemma AfterExpiry()
    ensures OnlyFive(After(3)) && After(3).now == 1 && After(3).next == 1
    ensures After(3).rows[5] == Row(Processing, 1, 1, None, None)
    ensures After(3).live == map[0 := Claim(5, 1, 1)]
  {
    AfterFirstClaim();
    OneMore(2);
  }

  lemma AfterReclaim()
    ensures OnlyFive(After(4)) && After(4).now == 1
    ensures After(4).rows[5] == Row(Processing, 2, 2, None, None)
    ensures After(4).live == map[0 := Claim(5, 1, 1), 1 := Claim(5, 2, 2)]
  {
    AfterExpiry();
    OneMore(3);
    ClaimFive(After(3));
  }

  lemma SecondHolderDelivers(q: Queue)
    requires OnlyFive(q) && q.live == map[0 := Claim(5, 1, 1), 1 := Claim(5, 2, 2)]
    ensures var r := Next(TINY, q, MarkDelivered(1));
            OnlyFive(r) && r.now == q.now && r.rows[5].status == Delivered && r.live == map[0 := Claim(5, 1, 1)]
  {
    assert 5 in q.rows.Keys && 5 in q.history.Keys;
  }

  lemma AfterDelivery()
    ensures OnlyFive(After(5)) && After(5).now == 1 && After(5).rows[5].status == Delivered
    ensures After(5).live == map[0 := Claim(5, 1, 1)]
  {
    AfterReclaim();
    OneMore(4);
    SecondHolderDelivers(After(4));
  }

  /** DELIVERED is not terminal: the late failure report puts the row back to PENDING. */
  lemma DeliveredIsNotTerminal()
    ensures OnlyFive(After(5)) && After(5).rows[5].status == Delivered
    ensures OnlyFive(After(6)) && After(6).rows[5].status == Pending && After(6).rows[5].due == 1 + MINUTE
    ensures After(6) == Run(TINY, EMPTY, LateMark())
  {
    AfterDelivery();
    assert 5 in After(5).rows.Keys && 5 in After(5).history.Keys;
    OneMore(5);
    assert LateMark()[..6] == LateMark();
  }

  /** Claim, abandon, wait: one attempt used up and nothing delivered, n times over. */
  function AbandonRun(n: nat): seq<Step> {
    if n == 0 then [Enqueue(5)]
    else AbandonRun(n - 1) + [ClaimBatch([5])] + [Abandon(n - 1)] + [Tick(n)]
  }

  predicate AfterAbandons(q: Queue, n: nat) {
    && q.now == n && q.next == n && q.live == map[]
    && q.rows.Keys == {5} == q.history.Keys
    && Active(q.rows[5]) && q.rows[5].count == n == q.history[5].abandoned && q.rows[5].due <= n
  }

  lemma AbandonRound(q: Queue, n: nat)
    requires AfterAbandons(q, n)
    ensures AfterAbandons(Next(TINY, Next(TINY, Next(TINY, q, ClaimBatch([5])), Abandon(n)), Tick(n + 1)), n + 1)
  {
    ClaimFive(q);
    var r := Next(TINY, q, ClaimBatch([5]));
    assert 5 in r.rows.Keys && 5 in r.history.Keys;
    assert Holds(r, n);
  }

  lemma {:induction false} AbandonsAddUp(n: nat)
    ensures AfterAbandons(Run(TINY, EMPTY, AbandonRun(n)), n)
  {
    if n == 0 {
      assert [Enqueue(5)][..0] == [];
    } else {
      AbandonsAddUp(n - 1);
      var es := AbandonRun(n - 1);
      RunSnoc(TINY, EMPTY, es, ClaimBatch([5]));
      RunSnoc(TINY, EMPTY, es + [ClaimBatch([5])], Abandon(n - 1));
      RunSnoc(TINY, EMPTY, es + [ClaimBatch([5])] + [Abandon(n - 1)], Tick(n));
      AbandonRound(Run(TINY, EMPTY, es), n - 1);
    }
  }

  /** attempt_count has no cap of its own: abandonments drive it as high as one likes. */
  lemma AttemptCountIsUncapped(n: nat)
    ensures var q := Run(TINY, EMPTY, AbandonRun(n)); 5 in q.rows && q.rows[5].count == n
  {
    AbandonsAddUp(n);
    assert 5 in Run(TINY, EMPTY, AbandonRun(n)).rows.Keys;
  }

  // ----- DELIVERED turned EXHAUSTED

  /** After five abandoned claims the sixth outlives its lease, a seventh delivers the row, and
      only then does the sixth report failure. */
  function LateGiveUp(): seq<Step> {
    AbandonRun(5) + [ClaimBatch([5])] + [Tick(6)] + [ClaimBatch([5])] + [MarkDelivered(6)] + [MarkFailed(5, "late")]
  }

  lemma SixthAndSeventh(q: Queue)
    requires AfterAbandons(q, 5)
    ensures var r := Next(TINY, Next(TINY, Next(TINY, q, ClaimBatch([5])), Tick(6)), ClaimBatch([5]));
            && OnlyFive(r) && Active(r.rows[5])
            && r.live == map[5 := Claim(5, 6, 6), 6 := Claim(5, 7, 7)]
  {
    ClaimFive(q);
    var held := Next(TINY, q, ClaimBatch([5]));
    assert held.live == map[5 := Claim(5, 6, 6)];
    ClaimFive(Next(TINY, held, Tick(6)));
  }

  lemma DeliveredThenGivenUp(q: Queue)
    requires OnlyFive(q) && q.live == map[5 := Claim(5, 6, 6), 6 := Claim(5, 7, 7)]
    ensures var r := Next(TINY, q, MarkDelivered(6));
            && HasStatus(r, 5, Delivered) && !LateRetry(r, MarkFailed(5, "late"), 5)
            && HasStatus(Next(TINY, r, MarkFailed(5, "late")), 5, Exhausted)
  {
    assert 5 in q.rows.Keys && 5 in q.history.Keys;
  }

  lemma LateGiveUpSteps()
    ensures var es := AbandonRun(5) + [ClaimBatch([5])] + [Tick(6)] + [ClaimBatch([5])];
            && OnlyFive(Run(TINY, EMPTY, es))
            && Run(TINY, EMPTY, es).live == map[5 := Claim(5, 6, 6), 6 := Claim(5, 7, 7)]
  {
    var es := AbandonRun(5);
    AbandonsAddUp(5);
    RunSnoc(TINY, EMPTY, es, ClaimBatch([5]));
    RunSnoc(TINY, EMPTY, es + [ClaimBatch([5])], Tick(6));
    RunSnoc(TINY, EMPTY, es + [ClaimBatch([5])] + [Tick(6)], ClaimBatch([5]));
    SixthAndSeventh(Run(TINY, EMPTY, es));
  }

  /** A delivered webhook is recorded as given up. */
  lemma DeliveredMayTurnExhausted()
    ensures var es := LateGiveUp();
            && HasStatus(Run(TINY, EMPTY, es[..|es| - 1]), 5, Delivered)
            && HasStatus(Run(TINY, EMPTY, es), 5, Exhausted)
  {
    var es := AbandonRun(5) + [ClaimBatch([5])] + [Tick(6)] + [ClaimBatch([5])];
    LateGiveUpSteps();
    RunSnoc(TINY, EMPTY, es, MarkDelivered(6));
    RunSnoc(TINY, EMPTY, es + [MarkDelivered(6)], MarkFailed(5, "late"));
    DeliveredThenGivenUp(Run(TINY, EMPTY, es));
    assert LateGiveUp()[..|LateGiveUp()| - 1] == es + [MarkDelivered(6)];
  }

  // ----- any number of attempts with nothing abandoned

  /** Claim and let the lease run out, n times over; every claim is still live. */
  function OvertakeRun(n: nat): seq<Step> {
    if n == 0 then [Enqueue(5)] else OvertakeRun(n - 1) + [ClaimBatch([5])] + [Tick(n)]
  }

  predicate AfterOvertakes(q: Queue, n: nat) {
    && q.now == n && OnlyFive(q)
    && Active(q.rows[5]) && q.rows[5].count == n && q.rows[5].due <= n && q.history[5].abandoned == 0
  }

  lemma OvertakeRound(q: Queue, n: nat)
    requires AfterOvertakes(q, n)
    ensures AfterOvertakes(Next(TINY, Next(TINY, q, ClaimBatch([5])), Tick(n + 1)), n + 1)
  {
    ClaimFive(q);
  }

  /** Outside the lease discipline no abandonment is needed to pass six attempts. */
  lemma {:induction false} OvertakesAddUp(n: nat)
    ensures AfterOvertakes(Run(TINY, EMPTY, OvertakeRun(n)), n)
  {
    if n == 0 {
      assert [Enqueue(5)][..0] == [];
    } else {
      OvertakesAddUp(n - 1);
      var es := OvertakeRun(n - 1);
      RunSnoc(TINY, EMPTY, es, ClaimBatch([5]));
      RunSnoc(TINY, EMPTY, es + [ClaimBatch([5])], Tick(n));
      OvertakeRound(Run(TINY, EMPTY, es), n - 1);
    }
  }
}

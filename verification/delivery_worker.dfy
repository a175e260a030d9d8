/** The webhook worker over its delivery table, tied to the queue's step machine. */
module DeliveryWorker {
  import opened Wrappers
  import opened Ordered
  import opened DeliveryQueue
  import opened DeliveryInvariants
  import Fingerprint

  /** A row as the claim statement returned it. */
  datatype ClaimedDelivery = ClaimedDelivery(id: int, count: nat)

  /** How one HTTP delivery went. */
  datatype Outcome = BadRequest(message: string) | NoResponse(message: string) | HttpStatus(code: int)

  function FailureMessage(o: Outcome): string {
    match o
    case BadRequest(m) => "failed to create HTTP request: " + m
    case NoResponse(m) => "transport error: " + m
    case HttpStatus(code) => "HTTP status " + Fingerprint.FormatInt(code)
  }

  predicate Accepted(o: Outcome) {
    o.HttpStatus? && 200 <= o.code < 300
  }

  /** The machine step a delivery amounts to; a mark the server refuses only gets logged. */
  function StepOf(o: Outcome, markOk: bool, c: nat): Step {
    if !markOk then Abandon(c)
    else if Accepted(o) then MarkDelivered(c)
    else MarkFailed(c, FailureMessage(o))
  }

  lemma HasEarliest(rows: map<int, Row>, ids: set<int>)
    requires ids != {} && forall id :: id in ids ==> id in rows
    ensures exists e :: IsEarliest(rows, ids, e)
    decreases |ids|
  {
    HasMember(ids);
    var a :| a in ids;
    var rest := ids - {a};
    if rest == {} {
      assert ids == {a};
      assert IsEarliest(rows, ids, a);
    } else {
      HasEarliest(rows, rest);
      var e :| IsEarliest(rows, rest, e);
      assert ids == rest + {a};
      assert IsEarliest(rows, ids, if rows[a].due < rows[e].due then a else e);
    }
  }

  predicate IsEarliest(rows: map<int, Row>, ids: set<int>, e: int)
    requires forall id :: id in ids ==> id in rows
  {
    e in ids && forall d :: d in ids ==> rows[e].due <= rows[d].due
  }

  class DeliveryTable {
    var now: int
    var rows: map<int, Row>
    ghost var live: map<nat, Claim>
    ghost var history: map<int, History>
    ghost var next: nat

    constructor ()
      ensures View() == EMPTY
    {
      now, rows, live, history, next := 0, map[], map[], map[], 0;
    }

    ghost function View(): Queue
      reads this
    {
      Queue(now, rows, live, history, next)
    }

    ghost method Become(q: Queue)
      requires q.now == now && q.rows == rows
      modifies this`live, this`history, this`next
      ensures View() == q
    {
      live, history, next := q.live, q.history, q.next;
    }

    method Sleep(micros: nat)
      modifies this`now
      ensures View() == old(View()).(now := old(now) + micros)
    {
      now := now + micros;
    }

    /** The due rows in claim order, up to the limit. */
    method SelectDue(limit: nat) returns (ids: seq<int>)
      ensures IsBatch(rows, now, limit, ids)
    {
      var due := DueIds(rows, now);
      var rest := due;
      ids := [];
      while |ids| < limit && rest != {}
        invariant Distinct(ids) && |ids| <= limit && |ids| + |rest| == |due| && rest <= due
        invariant forall i :: 0 <= i < |ids| ==> ids[i] in due && ids[i] !in rest
        invariant forall d :: d in due ==> d in rest || d in ids
        invariant forall i, d :: 0 <= i < |ids| && d in rest ==> rows[ids[i]].due <= rows[d].due
        decreases |rest|
      {
        HasEarliest(rows, rest);
        var id :| IsEarliest(rows, rest, id);
        ids, rest := ids + [id], rest - {id};
      }
    }

    /** ClaimDueWebhookDeliveries. */
    method ClaimDue(cfg: Config) returns (claimed: seq<ClaimedDelivery>, ghost ids: seq<int>)
      requires WellFormed(View())
      modifies this
      ensures IsBatch(old(rows), old(now), cfg.batch, ids)
      ensures View() == Next(cfg, old(View()), ClaimBatch(ids))
      ensures Returned(old(rows), ids, claimed)
    {
      var batch := SelectDue(cfg.batch);
      ids := batch;
      ghost var after := Claimed(View(), cfg, batch);
      rows := ClaimRows(rows, batch, now + cfg.lease);
      claimed := [];
      for i := 0 to |batch|
        invariant |claimed| == i
        invariant forall j :: 0 <= j < i ==> claimed[j] == ClaimedDelivery(batch[j], old(rows)[batch[j]].count + 1)
        invariant rows == after.rows && View() == old(View()).(rows := rows)
      {
        claimed := claimed + [ClaimedDelivery(batch[i], rows[batch[i]].count)];
      }
      Become(after);
    }

    /** MarkWebhookDeliveryDelivered: WHERE id = ... and nothing else. */
    method MarkWebhookDeliveryDelivered(id: int) returns (found: bool)
      modifies this`rows
      ensures found == (id in old(rows))
      ensures View() == if !found then old(View())
                        else old(View()).(rows := old(rows)[id := DeliveredRow(old(rows)[id], now)])
    {
      if id !in rows {
        return false;
      }
      rows := rows[id := rows[id].(status := Delivered, deliveredAt := Some(now), lastError := None)];
      return true;
    }

    method MarkWebhookDeliveryExhausted(id: int, error: string) returns (found: bool)
      modifies this`rows
      ensures found == (id in old(rows))
      ensures View() == if !found then old(View())
                        else old(View()).(rows := old(rows)[id :=
                          old(rows)[id].(status := Exhausted, lastError := Some(error))])
    {
      if id !in rows {
        return false;
      }
      rows := rows[id := rows[id].(status := Exhausted, lastError := Some(error))];
      return true;
    }

    method MarkWebhookDeliveryRetry(id: int, due: int, error: string) returns (found: bool)
      modifies this`rows
      ensures found == (id in old(rows))
      ensures View() == if !found then old(View())
                        else old(View()).(rows := old(rows)[id :=
                          old(rows)[id].(status := Pending, due := due, lastError := Some(error))])
    {
      if id !in rows {
        return false;
      }
      rows := rows[id := rows[id].(status := Pending, due := due, lastError := Some(error))];
      return true;
    }
  }

  class Worker {
    const cfg: Config
    const table: DeliveryTable

    /** NewWorker's defaults: thirty seconds, ten rows. */
    constructor (table: DeliveryTable, lease: int, batch: int)
      ensures this.table == table && Positive(cfg)
      ensures cfg.lease == (if lease > 0 then lease else MINUTE / 2)
      ensures cfg.batch == (if batch > 0 then batch else 10)
    {
      this.table := table;
      this.cfg := Config(if lease <= 0 then MINUTE / 2 else lease, if batch <= 0 then 10 else batch);
    }

    /** The claim in hand is the one the queue knows under this token. */
    ghost predicate InHand(d: ClaimedDelivery, c: nat)
      reads table
    {
      && WellFormed(table.View())
      && c in table.live && table.live[c].row == d.id && table.live[c].count == d.count
    }

    method HandleFailure(d: ClaimedDelivery, error: string, markOk: bool, ghost c: nat)
      requires InHand(d, c)
      modifies table
      ensures table.View() == Next(cfg, old(table.View()), if markOk then MarkFailed(c, error) else Abandon(c))
    {
      ghost var after := Next(cfg, table.View(), if markOk then MarkFailed(c, error) else Abandon(c));
      assert d.id in table.rows.Keys && d.id in table.history.Keys;
      if d.count >= 6 {
        if markOk {
          var _ := table.MarkWebhookDeliveryExhausted(d.id, error);
        }
        table.Become(after);
        return;
      }
      var intervalIndex := d.count - 1;
      if intervalIndex < 0 {
        intervalIndex := 0;
      }
      if intervalIndex >= |RETRY_INTERVALS| {
        intervalIndex := |RETRY_INTERVALS| - 1;
      }
      var nextAttempt := table.now + RETRY_INTERVALS[intervalIndex];
      if markOk {
        var _ := table.MarkWebhookDeliveryRetry(d.id, nextAttempt, error);
      }
      table.Become(after);
    }

    method DeliverOne(d: ClaimedDelivery, o: Outcome, markOk: bool, ghost c: nat)
      requires InHand(d, c)
      modifies table
      ensures table.View() == Next(cfg, old(table.View()), StepOf(o, markOk, c))
    {
      if !o.HttpStatus? || o.code < 200 || o.code >= 300 {
        HandleFailure(d, FailureMessage(o), markOk, c);
        return;
      }
      ghost var after := Next(cfg, table.View(), StepOf(o, markOk, c));
      assert d.id in table.rows.Keys && d.id in table.history.Keys;
      if markOk {
        var _ := table.MarkWebhookDeliveryDelivered(d.id);
      }
      table.Become(after);
    }

    /** One turn of the batch loop: time passes, then the delivery is made and marked. */
    method OneDelivery(d: ClaimedDelivery, o: Outcome, markOk: bool, elapsed: nat, ghost c: nat, ghost start: Queue,
                       ghost before: seq<Step>)
      returns (ghost trace: seq<Step>)
      requires InHand(d, c) && table.View() == Run(cfg, start, before)
      modifies table
      ensures WellFormed(table.View()) && table.View() == Run(cfg, start, trace)
      ensures trace == before + [Tick(old(table.now) + elapsed)] + [StepOf(o, markOk, c)]
      ensures table.now == old(table.now) + elapsed
      ensures table.live == old(table.live) - {c} && table.next == old(table.next)
    {
      table.Sleep(elapsed);
      RunSnoc(cfg, start, before, Tick(table.now));
      trace := before + [Tick(table.now)];
      ghost var q := table.View();
      DeliverOne(d, o, markOk, c);
      WellFormedStep(cfg, q, StepOf(o, markOk, c));
      MarkReleases(cfg, q, o, markOk, c);
      RunSnoc(cfg, start, trace, StepOf(o, markOk, c));
      trace := trace + [StepOf(o, markOk, c)];
    }

    /** The batch has been claimed and its first i deliveries made by these steps, in this time;
        the other claims are still in hand. */
    ghost predicate Underway(start: Queue, ids: seq<int>, trace: seq<Step>, spent: nat, i: nat)
      requires forall j :: 0 <= j < |ids| ==> ids[j] in start.rows
      reads table
    {
      && WellFormed(table.View()) && table.View() == Run(cfg, start, trace)
      && table.now == start.now + spent && table.next == start.next + |ids|
      && table.live == InHandAfter(start, cfg, ids, i)
    }

    /** One turn of the batch loop, on the i-th delivery. */
    method DeliverNext(ds: seq<ClaimedDelivery>, i: nat, o: Outcome, markOk: bool, elapsed: nat,
                       ghost start: Queue, ghost ids: seq<int>, ghost trace: seq<Step>, ghost spent: nat)
      requires WellFormed(start) && Returned(start.rows, ids, ds) && i < |ds| && Underway(start, ids, trace, spent, i)
      modifies table
      ensures Underway(start, ids, trace + [Tick(start.now + spent + elapsed)] + [StepOf(o, markOk, start.next + i)],
                spent + elapsed, i + 1)
    {
      NextInHand(start, cfg, ids, ds, i);
      ghost var _ := OneDelivery(ds[i], o, markOk, elapsed, start.next + i, start, trace);
    }

    /** The batch loop: delivery i takes elapsed(i) and ends as outcomes(i); marks(i) tells
        whether its mark is stored. */
    method DeliverAll(ds: seq<ClaimedDelivery>, outcomes: nat -> Outcome, marks: nat -> bool, elapsed: nat -> nat,
                      ghost start: Queue, ghost ids: seq<int>)
      requires WellFormed(start) && Returned(start.rows, ids, ds) && Underway(start, ids, [ClaimBatch(ids)], 0, 0)
      modifies table
      ensures Underway(start, ids, BatchSteps(start, ids, outcomes, marks, elapsed, |ds|), Total(elapsed, |ds|), |ds|)
    {
      for i := 0 to |ds|
        invariant Underway(start, ids, BatchSteps(start, ids, outcomes, marks, elapsed, i), Total(elapsed, i), i)
      {
        DeliverTurn(ds, outcomes, marks, elapsed, i, start, ids);
      }
    }

    method DeliverTurn(ds: seq<ClaimedDelivery>, outcomes: nat -> Outcome, marks: nat -> bool, elapsed: nat -> nat,
                       i: nat, ghost start: Queue, ghost ids: seq<int>)
      requires WellFormed(start) && Returned(start.rows, ids, ds) && i < |ds|
      requires Underway(start, ids, BatchSteps(start, ids, outcomes, marks, elapsed, i), Total(elapsed, i), i)
      modifies table
      ensures Underway(start, ids, BatchSteps(start, ids, outcomes, marks, elapsed, i + 1),
                Total(elapsed, i + 1), i + 1)
    {
      NextTurn(start, ids, outcomes, marks, elapsed, i);
      DeliverNext(ds, i, outcomes(i), marks(i), elapsed(i), start, ids,
        BatchSteps(start, ids, outcomes, marks, elapsed, i), Total(elapsed, i));
    }

    /** ProcessBatch: claim one batch, then deliver it row by row, each row marked as its own
        outcome calls for. The whole batch is a run of the machine that leaves no claim of its
        own behind, so a single worker keeps the discipline. */
    method ProcessBatch(claimFails: bool, outcomes: nat -> Outcome, marks: nat -> bool, elapsed: nat -> nat)
      returns (n: nat, ghost trace: seq<Step>)
      requires WellFormed(table.View())
      modifies table
      ensures WellFormed(table.View()) && table.View() == Run(cfg, old(table.View()), trace)
      ensures table.live == old(table.live)
      ensures old(table.live) == map[] ==> Disciplined(cfg, old(table.View()), trace)
      ensures table.next == old(table.next) + n
      ensures n == if claimFails then 0 else BatchSize(old(table.View()), cfg)
      ensures if claimFails then trace == []
              else
                && trace != [] && trace[0].ClaimBatch?
                && IsBatch(old(table.rows), old(table.now), cfg.batch, trace[0].ids)
                && trace == BatchSteps(old(table.View()), trace[0].ids, outcomes, marks, elapsed, n)
    {
      trace := [];
      if claimFails {
        return 0, trace;
      }
      ghost var start := table.View();
      ghost var ids;
      var deliveries;
      deliveries, ids := table.ClaimDue(cfg);
      WellFormedStep(cfg, start, ClaimBatch(ids));
      BatchIsClaimed(start, cfg, ids);
      RunOne(cfg, start, ClaimBatch(ids));
      DeliverAll(deliveries, outcomes, marks, elapsed, start, ids);
      trace := BatchSteps(start, ids, outcomes, marks, elapsed, |deliveries|);
      LastInHand(start, cfg, ids);
      n := |deliveries|;
      BatchHasOneClaim(start, ids, outcomes, marks, elapsed, n);
      if start.live == map[] {
        SoleWorkerIsCareful(cfg, start, trace);
      }
    }
  }

  /** The time the first n deliveries take. */
  function Total(elapsed: nat -> nat, n: nat): nat {
    if n == 0 then 0 else Total(elapsed, n - 1) + elapsed(n - 1)
  }

  /** The steps of a batch that starts here, up to its n-th delivery: the claim, and then each
      delivery lets its time pass and marks its own claim as its own outcome calls for. */
  function BatchSteps(start: Queue, ids: seq<int>, outcomes: nat -> Outcome, marks: nat -> bool,
                      elapsed: nat -> nat, n: nat): seq<Step> {
    if n == 0 then [ClaimBatch(ids)]
    else
      BatchSteps(start, ids, outcomes, marks, elapsed, n - 1)
      + [Tick(start.now + Total(elapsed, n))] + [StepOf(outcomes(n - 1), marks(n - 1), start.next + n - 1)]
  }

  lemma NextTurn(start: Queue, ids: seq<int>, outcomes: nat -> Outcome, marks: nat -> bool,
                 elapsed: nat -> nat, n: nat)
    ensures Total(elapsed, n + 1) == Total(elapsed, n) + elapsed(n)
    ensures BatchSteps(start, ids, outcomes, marks, elapsed, n + 1) ==
              BatchSteps(start, ids, outcomes, marks, elapsed, n)
              + [Tick(start.now + Total(elapsed, n) + elapsed(n))] + [StepOf(outcomes(n), marks(n), start.next + n)]
  {
  }

  /** Turn j in plain terms: a stored mark is "delivered" exactly for a 2xx answer, and otherwise
      "failed" with the message of what went wrong. */
  lemma {:induction false} TurnAt(start: Queue, ids: seq<int>, outcomes: nat -> Outcome, marks: nat -> bool,
                                  elapsed: nat -> nat, n: nat, j: nat)
    requires j < n
    ensures var steps := BatchSteps(start, ids, outcomes, marks, elapsed, n);
            && |steps| == 1 + 2 * n
            && steps[1 + 2 * j] == Tick(start.now + Total(elapsed, j + 1))
            && steps[2 + 2 * j] ==
                 if !marks(j) then Abandon(start.next + j)
                 else
                   match outcomes(j)
                   case HttpStatus(code) =>
                     if 200 <= code < 300 then MarkDelivered(start.next + j)
                     else MarkFailed(start.next + j, "HTTP status " + Fingerprint.FormatInt(code))
                   case NoResponse(m) => MarkFailed(start.next + j, "transport error: " + m)
                   case BadRequest(m) => MarkFailed(start.next + j, "failed to create HTTP request: " + m)
  {
    StepCount(start, ids, outcomes, marks, elapsed, n - 1);
    if j < n - 1 {
      TurnAt(start, ids, outcomes, marks, elapsed, n - 1, j);
    }
  }

  lemma {:induction false} StepCount(start: Queue, ids: seq<int>, outcomes: nat -> Outcome, marks: nat -> bool,
                                     elapsed: nat -> nat, n: nat)
    ensures |BatchSteps(start, ids, outcomes, marks, elapsed, n)| == 1 + 2 * n
  {
    if n > 0 {
      StepCount(start, ids, outcomes, marks, elapsed, n - 1);
    }
  }

  lemma {:induction false} BatchHasOneClaim(start: Queue, ids: seq<int>, outcomes: nat -> Outcome,
                                            marks: nat -> bool, elapsed: nat -> nat, n: nat)
    ensures BatchSteps(start, ids, outcomes, marks, elapsed, n) != []
    ensures BatchSteps(start, ids, outcomes, marks, elapsed, n)[0] == ClaimBatch(ids)
    ensures OneClaim(BatchSteps(start, ids, outcomes, marks, elapsed, n))
  {
    if n > 0 {
      BatchHasOneClaim(start, ids, outcomes, marks, elapsed, n - 1);
    }
  }

  function BatchSize(q: Queue, cfg: Config): nat {
    var due := DueIds(q.rows, q.now);
    if |due| < cfg.batch then |due| else cfg.batch
  }

  /** The rows the claim statement returned. */
  predicate Returned(rows: map<int, Row>, ids: seq<int>, ds: seq<ClaimedDelivery>) {
    && |ds| == |ids|
    && (forall i :: 0 <= i < |ids| ==> ids[i] in rows && ds[i] == ClaimedDelivery(ids[i], rows[ids[i]].count + 1))
  }

  lemma FirstInHand(start: Queue, cfg: Config, ids: seq<int>)
    requires forall c :: c in start.live ==> c < start.next
    requires forall j :: 0 <= j < |ids| ==> ids[j] in start.rows
    ensures LeftInHand(start, cfg, ids, Claimed(start, cfg, ids).live, 0)
    ensures Claimed(start, cfg, ids).next == start.next + |ids|
  {
    var tokens := ClaimTokens(start, ids, start.now + cfg.lease);
    assert Claimed(start, cfg, ids).live == start.live + tokens;
  }

  lemma RunOne(cfg: Config, q: Queue, e: Step)
    ensures Run(cfg, q, [e]) == Next(cfg, q, e)
  {
    RunSnoc(cfg, q, [], e);
    assert [] + [e] == [e];
  }

  /** The live claims after the batch's first i deliveries. */
  function InHandAfter(start: Queue, cfg: Config, ids: seq<int>, i: nat): map<nat, Claim>
    requires forall j :: 0 <= j < |ids| ==> ids[j] in start.rows
  {
    if i == 0 then Claimed(start, cfg, ids).live else InHandAfter(start, cfg, ids, i - 1) - {start.next + i - 1}
  }

  lemma {:induction false} InHandAfterIs(start: Queue, cfg: Config, ids: seq<int>, i: nat)
    requires forall c :: c in start.live ==> c < start.next
    requires (forall j :: 0 <= j < |ids| ==> ids[j] in start.rows) && i <= |ids|
    ensures LeftInHand(start, cfg, ids, InHandAfter(start, cfg, ids, i), i)
  {
    if i == 0 {
      FirstInHand(start, cfg, ids);
    } else {
      InHandAfterIs(start, cfg, ids, i - 1);
    }
  }

  lemma NextInHand(start: Queue, cfg: Config, ids: seq<int>, ds: seq<ClaimedDelivery>, i: nat)
    requires Returned(start.rows, ids, ds) && i < |ids| && forall c :: c in start.live ==> c < start.next
    ensures var c: nat, live := start.next + i, InHandAfter(start, cfg, ids, i);
            && c in live && live[c].row == ds[i].id && live[c].count == ds[i].count
            && InHandAfter(start, cfg, ids, i + 1) == live - {c}
  {
    var c: nat, live := start.next + i, InHandAfter(start, cfg, ids, i);
    InHandAfterIs(start, cfg, ids, i);
    assert live[c] == TokenFor(start, ids, start.now + cfg.lease, c - start.next);
  }

  lemma LastInHand(start: Queue, cfg: Config, ids: seq<int>)
    requires forall j :: 0 <= j < |ids| ==> ids[j] in start.rows
    requires forall c :: c in start.live ==> c < start.next
    ensures InHandAfter(start, cfg, ids, |ids|) == start.live
  {
    InHandAfterIs(start, cfg, ids, |ids|);
  }

  /** The claims live before the batch, and the batch's own from position i on. */
  ghost predicate LeftInHand(start: Queue, cfg: Config, ids: seq<int>, live: map<nat, Claim>, i: nat)
    requires forall j :: 0 <= j < |ids| ==> ids[j] in start.rows
  {
    && (forall c :: c in start.live ==> c < start.next)
    && (forall c :: c in live <==> c in start.live || start.next + i <= c < start.next + |ids|)
    && (forall c :: c in start.live && c in live ==> live[c] == start.live[c])
    && (forall c :: start.next + i <= c < start.next + |ids| && c in live
          ==> live[c] == TokenFor(start, ids, start.now + cfg.lease, c - start.next))
  }

  lemma MarkReleases(cfg: Config, q: Queue, o: Outcome, markOk: bool, c: nat)
    requires WellFormed(q) && c in q.live
    ensures var r := Next(cfg, q, StepOf(o, markOk, c)); r.live == q.live - {c} && r.next == q.next
  {
    assert q.live[c].row in q.history.Keys;
  }

  predicate OneClaim(es: seq<Step>) {
    forall n :: 1 <= n < |es| ==> !es[n].ClaimBatch?
  }

  lemma SoleWorkerIsCareful(cfg: Config, q: Queue, es: seq<Step>)
    requires q.live == map[] && OneClaim(es)
    ensures Disciplined(cfg, q, es)
  {
    forall n | 0 <= n < |es| ensures Careful(Run(cfg, q, es[..n]), es[n]) {
      if n == 0 {
        assert es[..0] == [];
      }
    }
  }
}

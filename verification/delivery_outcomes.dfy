/** What each queue step writes, column by column. */
module DeliveryOutcomes {
  import opened Wrappers
  import opened DeliveryQueue

  /** A new row is due at once. */
  lemma EnqueueOutcome(cfg: Config, q: Queue, id: int)
    requires id !in q.rows
    ensures var r := Next(cfg, q, Enqueue(id));
            && r.rows == q.rows[id := Row(Pending, 0, q.now, None, None)]
            && r.live == q.live && r.now == q.now
  {
  }

  /** The claim takes at most `batch` due rows, active and earliest first, and leases them. */
  lemma ClaimOutcome(cfg: Config, q: Queue, ids: seq<int>, id: int)
    requires IsBatch(q.rows, q.now, cfg.batch, ids) && id in q.rows
    ensures var r := Next(cfg, q, ClaimBatch(ids));
            && |ids| <= cfg.batch && r.rows.Keys == q.rows.Keys
            && (id !in ids ==> r.rows[id] == q.rows[id])
            && (id in ids ==>
                  && (q.rows[id].status == Pending || q.rows[id].status == Processing) && q.rows[id].due <= q.now
                  && r.rows[id] == Row(Processing, q.rows[id].count + 1, q.now + cfg.lease,
                                       q.rows[id].lastError, q.rows[id].deliveredAt))
  {
    if id in ids {
      assert id in DueIds(q.rows, q.now);
    }
  }

  /** A row passed over although it is due is due no earlier than any row taken, and the batch
      is full. */
  lemma PassedOver(cfg: Config, q: Queue, ids: seq<int>, id: int, taken: int)
    requires IsBatch(q.rows, q.now, cfg.batch, ids) && taken in ids
    requires id in q.rows && id !in ids && q.rows[id].due <= q.now
    requires q.rows[id].status == Pending || q.rows[id].status == Processing
    ensures taken in q.rows && q.rows[taken].due <= q.rows[id].due
  {
    assert id in DueIds(q.rows, q.now) && taken in DueIds(q.rows, q.now);
  }

  lemma DeliveredOutcome(cfg: Config, q: Queue, c: nat)
    requires Holds(q, c)
    ensures var id, r := q.live[c].row, Next(cfg, q, MarkDelivered(c));
            && r.rows == q.rows[id := Row(Delivered, q.rows[id].count, q.rows[id].due, None, Some(q.now))]
            && r.live == q.live - {c}
  {
  }

  /** The sixth failure gives up; the others reschedule, one, five, thirty minutes, two and
      twelve hours ahead. */
  lemma FailedOutcome(cfg: Config, q: Queue, c: nat, error: string)
    requires Holds(q, c) && q.live[c].count >= 1
    ensures var id, n, r := q.live[c].row, q.live[c].count, Next(cfg, q, MarkFailed(c, error));
            && r.live == q.live - {c} && r.rows.Keys == q.rows.Keys
            && (forall x :: x in q.rows && x != id ==> r.rows[x] == q.rows[x])
            && r.rows[id].count == q.rows[id].count && r.rows[id].deliveredAt == q.rows[id].deliveredAt
            && r.rows[id].lastError == Some(error)
            && r.rows[id].status == (if n >= 6 then Exhausted else Pending)
            && (n >= 6 ==> r.rows[id].due == q.rows[id].due)
            && (n == 1 ==> r.rows[id].due == q.now + 60_000_000)
            && (n == 2 ==> r.rows[id].due == q.now + 300_000_000)
            && (n == 3 ==> r.rows[id].due == q.now + 1_800_000_000)
            && (n == 4 ==> r.rows[id].due == q.now + 7_200_000_000)
            && (n == 5 ==> r.rows[id].due == q.now + 43_200_000_000)
  {
  }

  /** An abandoned claim leaves its row to its lease. */
  lemma AbandonedOutcome(cfg: Config, q: Queue, c: nat)
    requires Holds(q, c)
    ensures var r := Next(cfg, q, Abandon(c)); r.rows == q.rows && r.live == q.live - {c}
  {
  }
}

/** The billing outbox: parked wallet calls retried by workers on several replicas.

    A worker reads the clock, claims up to 50 due rows by one UPDATE, then replays
    them one by one.  Nothing but the row's status guards the completing write: it
    does not check who owns the claim.  Mutual exclusion therefore rests on timing,
    and the state machine below makes that timing explicit.  The settle/release
    table and the debit table run the same protocol.

    Times are milliseconds on one clock shared by the replicas. */
module Outbox {
  const MAX_RETRIES: nat := 10
  const BATCH: nat := 50
  const MAX_BACKOFF: nat := 300_000
  const LEASE: nat := 300_000

  datatype Status = Pending | Processing | Done | Failed

  /** `failures` and `written` are history: the failures recorded on the row so far
      and when it was last written. */
  datatype Row = Row(status: Status, retries: nat, nextRetry: int, updatedAt: int, failures: nat, written: int)
  {
    predicate Terminal() { status.Done? || status.Failed? }

    /** The WHERE clause of the claim statement. */
    predicate Due(stamp: int) {
      (status.Pending? && nextRetry <= stamp) || (status.Processing? && updatedAt + LEASE <= stamp)
    }
  }

  /** The verdict of one replayed call.  `Futile` is a refusal no retry can change;
      the debit table never produces it. */
  datatype Verdict = Accepted | Refused | Futile

  function Pow2(n: nat): nat {
    if n == 0 then 1 else 2 * Pow2(n - 1)
  }

  function Backoff(retry: nat): (d: nat)
    ensures d <= MAX_BACKOFF
  {
    if Pow2(retry) * 5_000 < MAX_BACKOFF then Pow2(retry) * 5_000 else MAX_BACKOFF
  }

  /** The completing write of one entry, from the retry count the worker copied
      when it claimed.  A row that left `Processing` is not touched. */
  function Completed(row: Row, copied: nat, verdict: Verdict, now: int): Row {
    if !row.status.Processing? then row
    else if verdict.Accepted? then row.(status := Done, updatedAt := now, written := now)
    else if verdict.Futile? || copied + 1 >= MAX_RETRIES then
      row.(status := Failed, retries := copied + 1, updatedAt := now, failures := row.failures + 1, written := now)
    else
      row.(status := Pending, retries := copied + 1, nextRetry := now + Backoff(copied + 1), updatedAt := now,
           failures := row.failures + 1, written := now)
  }

  datatype Entry = Entry(id: nat, retries: nat)

  // ---------------------------------------------------------------- the sweep

  /** What the platform answered for one entry, when the write was issued, and
      whether the write reached the database. */
  datatype Reply = Reply(verdict: Verdict, at: int, landed: bool)

  /** The row once its entry's reply is in: completed, if the write landed. */
  function Answered(row: Row, entry: Entry, reply: Reply): Row {
    if reply.landed then Completed(row, entry.retries, reply.verdict, reply.at) else row
  }

  /** What a reply to `entry` makes of its row, said on the row's columns.  A write that
      did not land, or found the row no longer processing, changes nothing.  Otherwise
      the row is done exactly when the call was accepted, its counters untouched; it is
      failed exactly when no retry can help or the tenth failure is in; and it is
      pending, due after the backoff, in every other case. */
  predicate Follows(before: Row, entry: Entry, reply: Reply, after: Row) {
    if !reply.landed || before.status != Processing then after == before
    else
      && after.status != Processing
      && (after.status == Done <==> reply.verdict == Accepted)
      && (after.status == Failed <==> reply.verdict == Futile || (reply.verdict == Refused && entry.retries >= 9))
      && (after.status == Done ==> after.retries == before.retries && after.failures == before.failures)
      && (after.status != Done ==> after.retries == entry.retries + 1 && after.failures == before.failures + 1)
      && (after.status == Pending ==> after.nextRetry == reply.at + Backoff(after.retries))
      && after.updatedAt == reply.at
  }

  lemma AnsweredFollows(row: Row, entry: Entry, reply: Reply)
    ensures Follows(row, entry, reply, Answered(row, entry, reply))
  {}

  predicate Distinct(batch: seq<Entry>) {
    forall i, j | 0 <= i < j < |batch| :: batch[i].id != batch[j].id
  }

  class Table {
    var rows: map<nat, Row>

    constructor ()
      ensures rows == map[]
    {
      rows := map[];
    }

    method Enqueue(id: nat, now: int)
      requires id !in rows
      modifies this
      ensures rows == old(rows)[id := Row(Pending, 0, now, now, 0, now)]
      ensures rows[id].Due(now)
    {
      rows := rows[id := Row(Pending, 0, now, now, 0, now)];
    }

    /** The loop of ProcessBillingOutbox over a claimed batch: every claimed row is
        completed once, with the reply to its own entry; no other row moves. */
    method ProcessEntries(batch: seq<Entry>, replies: seq<Reply>)
      requires |replies| == |batch| && Distinct(batch) && forall e | e in batch :: e.id in rows
      modifies this
      ensures rows.Keys == old(rows).Keys
      ensures forall i | 0 <= i < |batch| ::
                Follows(old(rows)[batch[i].id], batch[i], replies[i], rows[batch[i].id])
      ensures forall i | 0 <= i < |batch| ::
                rows[batch[i].id] == Answered(old(rows)[batch[i].id], batch[i], replies[i])
      ensures forall id | id in rows && (forall e | e in batch :: e.id != id) :: rows[id] == old(rows)[id]
    {
      for i := 0 to |batch|
        invariant rows.Keys == old(rows).Keys
        invariant forall j | 0 <= j < i ::
                    rows[batch[j].id] == Answered(old(rows)[batch[j].id], batch[j], replies[j])
        invariant forall j | i <= j < |batch| :: rows[batch[j].id] == old(rows)[batch[j].id]
        invariant forall id | id in rows && (forall e | e in batch :: e.id != id) :: rows[id] == old(rows)[id]
      {
        Complete(batch[i], replies[i]);
      }
      forall i | 0 <= i < |batch|
        ensures Follows(old(rows)[batch[i].id], batch[i], replies[i], rows[batch[i].id])
      {
        AnsweredFollows(old(rows)[batch[i].id], batch[i], replies[i]);
      }
    }

    /** One entry of the loop. */
    method Complete(entry: Entry, reply: Reply)
      requires entry.id in rows
      modifies this
      ensures rows == old(rows)[entry.id := Answered(old(rows)[entry.id], entry, reply)]
    {
      var row := rows[entry.id];
      if reply.landed && row.status.Processing? {
        if reply.verdict.Accepted? {
          row := row.(status := Done, updatedAt := reply.at, written := reply.at);
        } else {
          var retries := entry.retries + 1;
          var status, nextRetry := Pending, row.nextRetry;
          if reply.verdict.Futile? || retries >= MAX_RETRIES {
            status := Failed;
          } else {
            nextRetry := reply.at + Backoff(retries);
          }
          row := Row(status, retries, nextRetry, reply.at, row.failures + 1, reply.at);
        }
        rows := rows[entry.id := row];
      }
    }
  }

  /** The sum of every backoff before a row is marked failed, and the reason the
      hold's lifetime is an hour: it outlives the longest request (1800 s) plus this. */
  method RetryHorizon() returns (total: nat)
    ensures total == 1_510_000
    ensures 1_800_000 + total < 3_600_000
  {
    total := 0;
    var retry := 1;
    while retry < MAX_RETRIES
      invariant 1 <= retry <= MAX_RETRIES
      invariant total == [0, 10_000, 30_000, 70_000, 150_000, 310_000, 610_000, 910_000, 1_210_000, 1_510_000][retry - 1]
    {
      BackoffTable(retry);
      total := total + Backoff(retry);
      retry := retry + 1;
    }
  }

  lemma BackoffTable(retry: nat)
    requires 1 <= retry < MAX_RETRIES
    ensures Backoff(retry) == [10_000, 20_000, 40_000, 80_000, 160_000, 300_000, 300_000, 300_000, 300_000][retry - 1]
  {
    assert Pow2(1) == 2 && Pow2(2) == 4 && Pow2(3) == 8 && Pow2(4) == 16 && Pow2(5) == 32;
    assert Pow2(6) == 64 && Pow2(7) == 128 && Pow2(8) == 256 && Pow2(9) == 512;
  }
}

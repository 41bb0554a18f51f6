/** The outbox as a state machine: any number of workers on any number of
    replicas, interleaved arbitrarily, with crashes and lost writes. */
module OutboxProtocol {
  import opened Outbox

  /** `Reading` has read the clock and is about to claim; `Busy` is replaying the
      head of `rest`, which it started at `since`. */
  datatype Worker = Reading(stamp: int) | Busy(stamp: int, rest: seq<Entry>, since: int)

  datatype System = System(now: int, rows: map<nat, Row>, workers: map<nat, Worker>)

  datatype Step =
    | Tick(d: nat)
    | Enqueue(id: nat)
    | ReadClock(w: nat)
    | Claim(w: nat, ids: seq<nat>)
    | Finish(w: nat, verdict: Verdict, landed: bool)
    | Crash(w: nat)

  predicate Enabled(s: System, step: Step) {
    match step
    case Tick(_) => true
    case Enqueue(id) => id !in s.rows
    case ReadClock(w) => w !in s.workers
    case Claim(w, ids) =>
      && w in s.workers && s.workers[w].Reading?
      && |ids| <= BATCH
      && (forall i, j | 0 <= i < j < |ids| :: ids[i] != ids[j])
      && (forall id | id in ids :: id in s.rows && s.rows[id].Due(s.workers[w].stamp))
    case Finish(w, _, _) => w in s.workers && s.workers[w].Busy? && s.workers[w].rest != [] && s.workers[w].rest[0].id in s.rows
    case Crash(w) => w in s.workers
  }

  function Entries(rows: map<nat, Row>, ids: seq<nat>): (es: seq<Entry>)
    requires forall id | id in ids :: id in rows
    ensures |es| == |ids|
    ensures forall i | 0 <= i < |ids| :: es[i] == Entry(ids[i], rows[ids[i]].retries)
  {
    seq(|ids|, i requires 0 <= i < |ids| => Entry(ids[i], rows[ids[i]].retries))
  }

  function Claimed(rows: map<nat, Row>, ids: seq<nat>, stamp: int, now: int): map<nat, Row> {
    map id | id in rows :: if id in ids then rows[id].(status := Processing, updatedAt := stamp, written := now) else rows[id]
  }

  function Apply(s: System, step: Step): System
    requires Enabled(s, step)
  {
    match step
    case Tick(d) => s.(now := s.now + d)
    case Enqueue(id) => s.(rows := s.rows[id := Row(Pending, 0, s.now, s.now, 0, s.now)])
    case ReadClock(w) => s.(workers := s.workers[w := Reading(s.now)])
    case Claim(w, ids) =>
      var stamp := s.workers[w].stamp;
      s.(rows := Claimed(s.rows, ids, stamp, s.now),
         workers := s.workers[w := Busy(stamp, Entries(s.rows, ids), s.now)])
    case Finish(w, verdict, landed) =>
      var Busy(stamp, rest, _) := s.workers[w];
      var e := rest[0];
      s.(rows := if landed then s.rows[e.id := Completed(s.rows[e.id], e.retries, verdict, s.now)] else s.rows,
         workers := s.workers[w := Busy(stamp, rest[1..], s.now)])
    case Crash(w) => s.(workers := s.workers - {w})
  }

  predicate Possible(s: System, steps: seq<Step>)
    decreases steps
  {
    steps == [] || (Enabled(s, steps[0]) && Possible(Apply(s, steps[0]), steps[1..]))
  }

  function After(s: System, steps: seq<Step>): System
    requires Possible(s, steps)
    decreases steps
  {
    if steps == [] then s else After(Apply(s, steps[0]), steps[1..])
  }

  predicate Fresh(s: System) {
    s.rows == map[] && s.workers == map[]
  }

  // ---------------------------------------------------------------- with no timing assumption

  /** Every unfinished row becomes claimable within five minutes of its last write. */
  predicate Live(s: System) {
    forall id | id in s.rows :: LiveRow(s.rows[id], s.now)
  }

  predicate LiveRow(row: Row, now: int) {
    row.written <= now && (row.status.Pending? ==> row.nextRetry <= row.written + MAX_BACKOFF)
    && (row.status.Processing? ==> row.updatedAt <= row.written)
  }

  predicate StampsPast(s: System) {
    forall w | w in s.workers :: s.workers[w].stamp <= s.now
  }

  /** A finished row is never written again, not even by a stale worker. */
  lemma StepAbsorbs(s: System, step: Step, id: nat)
    requires Enabled(s, step) && id in s.rows && s.rows[id].Terminal()
    ensures id in Apply(s, step).rows && Apply(s, step).rows[id] == s.rows[id]
  {
  }

  lemma StepKeepsLive(s: System, step: Step)
    requires Enabled(s, step) && Live(s) && StampsPast(s)
    ensures Live(Apply(s, step)) && StampsPast(Apply(s, step))
  {
    var s' := Apply(s, step);
    forall id | id in s'.rows
      ensures LiveRow(s'.rows[id], s'.now)
    {
      if id in s.rows {
        assert LiveRow(s.rows[id], s.now);
      }
    }
  }

  lemma {:induction false} RunKeepsLive(s: System, steps: seq<Step>)
    requires Possible(s, steps) && Live(s) && StampsPast(s)
    ensures Live(After(s, steps))
    decreases steps
  {
    if steps != [] {
      StepKeepsLive(s, steps[0]);
      RunKeepsLive(Apply(s, steps[0]), steps[1..]);
    }
  }

  /** In every interleaving, timely or not, done and failed rows stay exactly as
      they are, even under late writes by stale workers. */
  lemma {:induction false} FinishedRowsAbsorb(s: System, steps: seq<Step>, id: nat)
    requires Possible(s, steps) && id in s.rows && s.rows[id].Terminal()
    ensures id in After(s, steps).rows && After(s, steps).rows[id] == s.rows[id]
    decreases steps
  {
    if steps != [] {
      StepAbsorbs(s, steps[0], id);
      FinishedRowsAbsorb(Apply(s, steps[0]), steps[1..], id);
    }
  }

  /** In every interleaving, timely or not, every unfinished row can be claimed from
      five minutes after its last write on.  A killed worker never wedges a row. */
  lemma {:induction false} NoRowIsWedged(s: System, steps: seq<Step>, id: nat, stamp: int)
    requires Fresh(s) && Possible(s, steps) && id in After(s, steps).rows && !After(s, steps).rows[id].Terminal()
    requires After(s, steps).rows[id].written + LEASE <= stamp
    ensures After(s, steps).rows[id].Due(stamp)
  {
    RunKeepsLive(s, steps);
    var s' := After(s, steps);
    assert LiveRow(s'.rows[id], s'.now);
  }

  // ---------------------------------------------------------------- with the lease arithmetic

  /** The bounds the source relies on: a claim takes at most `claim`, an entry (5 s
      call plus the write) at most `entry`, and a full batch fits inside the lease. */
  datatype Bounds = Bounds(claim: nat, entry: nat)
  {
    predicate FitLease() { claim + BATCH * entry < LEASE }
  }

  /** Time does not pass beyond what a running worker is allowed. */
  predicate Timely(b: Bounds, s: System, step: Step) {
    step.Tick? ==>
      forall w | w in s.workers ::
        match s.workers[w]
        case Reading(stamp) => s.now + step.d <= stamp + b.claim
        case Busy(_, rest, since) => rest != [] ==> s.now + step.d <= since + b.entry
  }

  predicate TimelyRun(b: Bounds, s: System, steps: seq<Step>)
    requires Possible(s, steps)
    decreases steps
  {
    steps == [] || (Timely(b, s, steps[0]) && TimelyRun(b, Apply(s, steps[0]), steps[1..]))
  }

  predicate OnTime(b: Bounds, w: Worker, now: int) {
    match w
    case Reading(stamp) => stamp <= now <= stamp + b.claim
    case Busy(stamp, rest, since) =>
      && stamp <= since <= now
      && |rest| <= BATCH
      && since + |rest| * b.entry <= stamp + b.claim + BATCH * b.entry
      && (rest != [] ==> now <= since + b.entry)
  }

  /** A claimed entry matches its row: still processing, under this claim's stamp,
      with the retry count the worker copied. */
  predicate Matches(rows: map<nat, Row>, e: Entry, stamp: int) {
    e.id in rows && rows[e.id].status.Processing? && rows[e.id].updatedAt == stamp && rows[e.id].retries == e.retries
  }

  predicate Owns(rows: map<nat, Row>, w: Worker) {
    w.Busy? ==> Distinct(w.rest) && forall i | 0 <= i < |w.rest| :: Matches(rows, w.rest[i], w.stamp)
  }

  /** Two workers hold no row in common. */
  predicate Apart(v: Worker, w: Worker) {
    v.Busy? && w.Busy? ==> forall i, j | 0 <= i < |v.rest| && 0 <= j < |w.rest| :: v.rest[i].id != w.rest[j].id
  }

  /** The retry count is the number of recorded failures, at most ten, and a row
      that recorded ten is failed. */
  predicate Counted(row: Row) {
    row.retries == row.failures <= MAX_RETRIES && (!row.Terminal() ==> row.failures < MAX_RETRIES)
  }

  predicate Exclusive(s: System) {
    forall v, w | v in s.workers && w in s.workers && v != w :: Apart(s.workers[v], s.workers[w])
  }

  predicate Inv(b: Bounds, s: System) {
    && (forall w | w in s.workers :: OnTime(b, s.workers[w], s.now) && Owns(s.rows, s.workers[w]))
    && Exclusive(s)
    && (forall id | id in s.rows :: Counted(s.rows[id]))
  }

  /** A row some worker holds is not due, whatever stamp a rival reads by now. */
  lemma HeldIsNotDue(b: Bounds, s: System, v: nat, i: nat, stamp: int)
    requires b.FitLease() && Inv(b, s) && v in s.workers && s.workers[v].Busy? && i < |s.workers[v].rest| && stamp <= s.now
    ensures s.workers[v].rest[i].id in s.rows && !s.rows[s.workers[v].rest[i].id].Due(stamp)
  {
    var Busy(mine, rest, since) := s.workers[v];
    assert OnTime(b, s.workers[v], s.now) && Owns(s.rows, s.workers[v]);
    assert Matches(s.rows, rest[i], mine);
    assert b.entry <= |rest| * b.entry;
    assert s.now <= since + b.entry <= mine + b.claim + BATCH * b.entry < mine + LEASE;
  }

  /** A claim leaves the rival's rows to it. */
  lemma ClaimKeepsRival(b: Bounds, s: System, w: nat, ids: seq<nat>, v: nat)
    requires b.FitLease() && Inv(b, s) && Enabled(s, Claim(w, ids)) && v in s.workers && v != w
    ensures var s' := Apply(s, Claim(w, ids)); Owns(s'.rows, s.workers[v]) && Apart(s'.workers[w], s.workers[v])
  {
    var s' := Apply(s, Claim(w, ids));
    assert OnTime(b, s.workers[w], s.now) && Owns(s.rows, s.workers[v]);
    if s.workers[v].Busy? {
      forall i | 0 <= i < |s.workers[v].rest|
        ensures Matches(s'.rows, s.workers[v].rest[i], s.workers[v].stamp) && s.workers[v].rest[i].id !in ids
      {
        HeldIsNotDue(b, s, v, i, s.workers[w].stamp);
        assert Matches(s.rows, s.workers[v].rest[i], s.workers[v].stamp);
      }
    }
  }

  lemma ClaimIsOnTime(b: Bounds, s: System, w: nat, ids: seq<nat>)
    requires Inv(b, s) && Enabled(s, Claim(w, ids))
    ensures var s' := Apply(s, Claim(w, ids)); OnTime(b, s'.workers[w], s'.now) && Owns(s'.rows, s'.workers[w])
  {
    assert OnTime(b, s.workers[w], s.now);
    assert |ids| * b.entry <= BATCH * b.entry;
  }

  lemma ClaimKeepsInv(b: Bounds, s: System, w: nat, ids: seq<nat>)
    requires b.FitLease() && Inv(b, s) && Enabled(s, Claim(w, ids))
    ensures Inv(b, Apply(s, Claim(w, ids)))
  {
    var s' := Apply(s, Claim(w, ids));
    ClaimIsOnTime(b, s, w, ids);
    forall v | v in s.workers && v != w
      ensures OnTime(b, s'.workers[v], s'.now) && Owns(s'.rows, s'.workers[v])
      ensures Apart(s'.workers[w], s'.workers[v]) && Apart(s'.workers[v], s'.workers[w])
    {
      assert OnTime(b, s.workers[v], s.now);
      ClaimKeepsRival(b, s, w, ids, v);
    }
    forall u, v | u in s'.workers && v in s'.workers && u != v
      ensures Apart(s'.workers[u], s'.workers[v])
    {
      assert Apart(s.workers[u], s.workers[v]);
    }
    forall id | id in s'.rows
      ensures Counted(s'.rows[id])
    {
      assert Counted(s.rows[id]);
    }
  }

  /** Completing one entry leaves every other claim as it is. */
  lemma FinishKeepsOwners(b: Bounds, s: System, w: nat, verdict: Verdict, landed: bool, v: nat)
    requires Inv(b, s) && Enabled(s, Finish(w, verdict, landed)) && v in s.workers
    ensures var s' := Apply(s, Finish(w, verdict, landed)); Owns(s'.rows, s'.workers[v])
  {
    var s' := Apply(s, Finish(w, verdict, landed));
    var Busy(stamp, rest, since) := s.workers[w];
    assert Owns(s.rows, s.workers[w]) && Owns(s.rows, s.workers[v]);
    if s'.workers[v].Busy? {
      forall i | 0 <= i < |s'.workers[v].rest|
        ensures Matches(s'.rows, s'.workers[v].rest[i], s'.workers[v].stamp)
      {
        if v == w {
          assert Matches(s.rows, rest[i + 1], stamp) && rest[i + 1].id != rest[0].id;
        } else {
          assert Apart(s.workers[v], s.workers[w]);
          assert Matches(s.rows, s.workers[v].rest[i], s.workers[v].stamp);
        }
      }
    }
  }

  lemma FinishIsOnTime(b: Bounds, s: System, w: nat, verdict: Verdict, landed: bool, v: nat)
    requires Inv(b, s) && Enabled(s, Finish(w, verdict, landed)) && v in s.workers
    ensures var s' := Apply(s, Finish(w, verdict, landed)); OnTime(b, s'.workers[v], s'.now)
  {
    assert OnTime(b, s.workers[v], s.now) && OnTime(b, s.workers[w], s.now);
    OneEntryLess(b, s.workers[w], s.now);
  }

  lemma OneEntryLess(b: Bounds, w: Worker, now: int)
    requires w.Busy? && w.rest != [] && OnTime(b, w, now)
    ensures OnTime(b, Busy(w.stamp, w.rest[1..], now), now)
  {
    OneTimeLess(|w.rest|, b.entry);
  }

  lemma OneTimeLess(n: nat, entry: nat)
    requires n > 0
    ensures (n - 1) * entry == n * entry - entry
  {}

  lemma FinishKeepsInv(b: Bounds, s: System, w: nat, verdict: Verdict, landed: bool)
    requires Inv(b, s) && Enabled(s, Finish(w, verdict, landed))
    ensures Inv(b, Apply(s, Finish(w, verdict, landed)))
  {
    var s' := Apply(s, Finish(w, verdict, landed));
    var e := s.workers[w].rest[0];
    forall v | v in s'.workers
      ensures OnTime(b, s'.workers[v], s'.now) && Owns(s'.rows, s'.workers[v])
    {
      FinishIsOnTime(b, s, w, verdict, landed, v);
      FinishKeepsOwners(b, s, w, verdict, landed, v);
    }
    forall u, v | u in s'.workers && v in s'.workers && u != v
      ensures Apart(s'.workers[u], s'.workers[v])
    {
      assert Apart(s.workers[u], s.workers[v]);
    }
    assert Owns(s.rows, s.workers[w]) && Matches(s.rows, e, s.workers[w].stamp) && Counted(s.rows[e.id]);
  }

  lemma StepKeepsInv(b: Bounds, s: System, step: Step)
    requires b.FitLease() && Inv(b, s) && Enabled(s, step) && Timely(b, s, step)
    ensures Inv(b, Apply(s, step))
  {
    match step
    case Tick(d) =>
      var s' := Apply(s, step);
      forall w | w in s'.workers
        ensures OnTime(b, s'.workers[w], s'.now)
      {
        assert OnTime(b, s.workers[w], s.now);
      }
    case Enqueue(id) =>
      var s' := Apply(s, step);
      forall w | w in s'.workers
        ensures Owns(s'.rows, s'.workers[w])
      {
        assert Owns(s.rows, s.workers[w]);
        if s.workers[w].Busy? {
          forall i | 0 <= i < |s.workers[w].rest|
            ensures Matches(s'.rows, s.workers[w].rest[i], s.workers[w].stamp)
          {
            assert Matches(s.rows, s.workers[w].rest[i], s.workers[w].stamp);
          }
        }
      }
    case ReadClock(w) =>
    case Claim(w, ids) => ClaimKeepsInv(b, s, w, ids);
    case Finish(w, verdict, landed) => FinishKeepsInv(b, s, w, verdict, landed);
    case Crash(w) =>
  }

  lemma {:induction false} RunKeepsInv(b: Bounds, s: System, steps: seq<Step>)
    requires b.FitLease() && Inv(b, s) && Possible(s, steps) && TimelyRun(b, s, steps)
    ensures Inv(b, After(s, steps))
    decreases steps
  {
    if steps != [] {
      StepKeepsInv(b, s, steps[0]);
      RunKeepsInv(b, Apply(s, steps[0]), steps[1..]);
    }
  }

  /** In every timely interleaving of any number of workers, crashes and lost writes
      included: no row is ever held by two workers, every row's retry count equals
      the failures recorded on it, and at most ten are ever recorded. */
  lemma {:induction false} TimelyRunsExclude(b: Bounds, s: System, steps: seq<Step>)
    requires b.FitLease() && Fresh(s) && Possible(s, steps) && TimelyRun(b, s, steps)
    ensures var s' := After(s, steps);
            && Exclusive(s')
            && forall id | id in s'.rows :: s'.rows[id].retries == s'.rows[id].failures <= MAX_RETRIES
  {
    RunKeepsInv(b, s, steps);
    var s' := After(s, steps);
    forall id | id in s'.rows
      ensures s'.rows[id].retries == s'.rows[id].failures <= MAX_RETRIES
    {
      assert Counted(s'.rows[id]);
    }
  }

  /** In such a run a landed refusal raises the row's retry count by exactly one. */
  lemma FailureCountsOnce(b: Bounds, s: System, w: nat, verdict: Verdict)
    requires Inv(b, s) && Enabled(s, Finish(w, verdict, true)) && !verdict.Accepted?
    ensures var id := s.workers[w].rest[0].id;
            var row := Apply(s, Finish(w, verdict, true)).rows[id];
            && row.retries == s.rows[id].retries + 1
            && row.failures == s.rows[id].failures + 1
            && (row.status.Failed? <==> verdict.Futile? || row.retries == MAX_RETRIES)
            && (row.status.Pending? <==> !row.status.Failed?)
            && (row.status.Pending? ==> row.nextRetry == s.now + Backoff(row.retries))
  {
    var Busy(stamp, rest, since) := s.workers[w];
    assert Owns(s.rows, s.workers[w]) && Matches(s.rows, rest[0], stamp);
    assert Counted(s.rows[rest[0].id]);
  }

  /** The worker that holds a row decides it: a landed write leaves the row done exactly
      when the platform accepted the call, and an acceptance counts no failure. */
  lemma DoneIffAccepted(b: Bounds, s: System, w: nat, verdict: Verdict)
    requires Inv(b, s) && Enabled(s, Finish(w, verdict, true))
    ensures var id := s.workers[w].rest[0].id;
            var row := Apply(s, Finish(w, verdict, true)).rows[id];
            && (row.status.Done? <==> verdict.Accepted?)
            && (verdict.Accepted? ==> row.retries == s.rows[id].retries && row.failures == s.rows[id].failures)
  {
    var Busy(stamp, rest, since) := s.workers[w];
    assert Owns(s.rows, s.workers[w]) && Matches(s.rows, rest[0], stamp);
  }

  /** After a landed acceptance the row is done in every later state of every run, timely
      or not, and no worker can claim it again: an accepted call is not replayed. */
  lemma {:induction false} AcceptedIsNotReplayed(b: Bounds, s: System, w: nat, steps: seq<Step>)
    requires Inv(b, s) && Enabled(s, Finish(w, Accepted, true))
    requires Possible(Apply(s, Finish(w, Accepted, true)), steps)
    ensures var id := s.workers[w].rest[0].id;
            var t := After(Apply(s, Finish(w, Accepted, true)), steps);
            && id in t.rows && t.rows[id].status.Done?
            && (forall v, ids: seq<nat> | id in ids :: !Enabled(t, Claim(v, ids)))
  {
    DoneIffAccepted(b, s, w, Accepted);
    FinishedRowsAbsorb(Apply(s, Finish(w, Accepted, true)), steps, s.workers[w].rest[0].id);
  }

  // ---------------------------------------------------------------- backoff

  predicate Claims(step: Step, id: nat) {
    step.Claim? && id in step.ids
  }

  /** A pending row waits: only a claim moves it, whatever late writes arrive. */
  lemma {:induction false} PendingWaits(s: System, steps: seq<Step>, id: nat)
    requires Possible(s, steps) && StampsPast(s) && id in s.rows && s.rows[id].status.Pending?
    requires forall step | step in steps :: !Claims(step, id)
    ensures id in After(s, steps).rows && After(s, steps).rows[id] == s.rows[id] && StampsPast(After(s, steps))
    decreases steps
  {
    if steps != [] {
      assert !Claims(steps[0], id);
      assert Apply(s, steps[0]).rows[id] == s.rows[id];
      PendingWaits(Apply(s, steps[0]), steps[1..], id);
    }
  }

  /** A row refused at time t is claimed no earlier than its backoff after t, in every
      interleaving: whatever runs in between, the first worker that claims it does so at
      or after t + Backoff(retries). */
  lemma {:induction false} BackoffIsServed(b: Bounds, s: System, w: nat, steps: seq<Step>, v: nat, ids: seq<nat>)
    requires Inv(b, s) && StampsPast(s) && Enabled(s, Finish(w, Refused, true))
    requires Possible(Apply(s, Finish(w, Refused, true)), steps)
    requires Enabled(After(Apply(s, Finish(w, Refused, true)), steps), Claim(v, ids))
    requires s.workers[w].rest[0].id in ids
    requires forall step | step in steps :: !Claims(step, s.workers[w].rest[0].id)
    ensures var retries := s.rows[s.workers[w].rest[0].id].retries + 1;
            && retries < MAX_RETRIES
            && After(Apply(s, Finish(w, Refused, true)), steps).now >= s.now + Backoff(retries)
  {
    FailureCountsOnce(b, s, w, Refused);
    var id, s1 := s.workers[w].rest[0].id, Apply(s, Finish(w, Refused, true));
    if s1.rows[id].status.Failed? {
      FinishedRowsAbsorb(s1, steps, id);
    } else {
      PendingWaits(s1, steps, id);
    }
  }

  /** The source's own numbers fit: 50 entries of a 5 s call and a write under a
      second leave room for the claim. */
  lemma SourceBoundsFit(claim: nat, write: nat)
    requires claim + BATCH * write < 50_000
    ensures Bounds(claim, 5_000 + write).FitLease()
  {
  }
}

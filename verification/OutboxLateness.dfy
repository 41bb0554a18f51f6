/** Why the lease arithmetic is the exact condition: whenever a full batch does not fit
    inside the lease, a worker that takes all its time is robbed of its last row. */
module OutboxLateness {
  import opened Outbox
  import opened OutboxProtocol

  lemma {:induction false} Prepend(b: Bounds, s: System, step: Step, steps: seq<Step>)
    requires Enabled(s, step) && Timely(b, s, step)
    requires Possible(Apply(s, step), steps) && TimelyRun(b, Apply(s, step), steps)
    ensures Possible(s, [step] + steps) && TimelyRun(b, s, [step] + steps)
    ensures After(s, [step] + steps) == After(Apply(s, step), steps)
  {
    assert ([step] + steps)[1..] == steps;
  }

  /** A timely run from `s` at the end of which two workers hold one row. */
  ghost predicate Robs(b: Bounds, s: System, steps: seq<Step>) {
    Possible(s, steps) && TimelyRun(b, s, steps) && !Exclusive(After(s, steps))
  }

  /** How long after its clock reading a worker that uses all its time is done with `j`
      entries. */
  function Elapsed(b: Bounds, j: nat): nat {
    if j == 0 then b.claim else Elapsed(b, j - 1) + b.entry
  }

  lemma {:induction false} ElapsedIsLinear(b: Bounds, j: nat)
    ensures Elapsed(b, j) == b.claim + j * b.entry
  {
    if j > 0 {
      ElapsedIsLinear(b, j - 1);
      assert j * b.entry == (j - 1) * b.entry + b.entry;
    }
  }

  function Ids(k: nat): (ids: seq<nat>)
    ensures |ids| == k && forall i | 0 <= i < k :: ids[i] == i
    ensures forall id: nat :: id in ids <==> id < k
  {
    if k == 0 then [] else Ids(k - 1) + [k - 1]
  }

  function Batch(n: nat): seq<Entry> { seq(n, i requires 0 <= i < n => Entry(i, 0)) }

  /** `k` rows enqueued at `t`. */
  function Waiting(t: int, k: nat): System {
    System(t, map id | id in Ids(k) :: Row(Pending, 0, t, t, 0, t), map[])
  }

  /** One worker holds a batch of `n`, has used all the time it may, and has `j` entries
      behind it, none of whose writes landed. */
  function Working(b: Bounds, t: int, n: nat, j: nat): System
    requires j <= n
  {
    System(t + Elapsed(b, j), map id | id in Ids(n) :: Row(Processing, 0, t, t, 0, t + b.claim),
           map[1 := Busy(t, Batch(n)[j..], t + Elapsed(b, j))])
  }

  /** On its last entry the slow worker's lease runs out, and a rival claims the row. */
  lemma RobLast(b: Bounds, t: int, n: nat) returns (steps: seq<Step>)
    requires !b.FitLease() && n == BATCH
    ensures Robs(b, Working(b, t, n, n - 1), steps)
  {
    var last := n - 1;
    var s := Working(b, t, n, last);
    ElapsedIsLinear(b, n);
    var s1 := Apply(s, Tick(b.entry));
    assert s1.now == t + Elapsed(b, n);
    var s2 := Apply(s1, ReadClock(2));
    assert s2.rows[last].Due(s2.workers[2].stamp);
    var s3 := Apply(s2, Claim(2, [last]));
    assert s3.workers[1].rest[0].id == last == s3.workers[2].rest[0].id;
    assert !Apart(s3.workers[1], s3.workers[2]);
    Prepend(b, s2, Claim(2, [last]), []);
    Prepend(b, s1, ReadClock(2), [Claim(2, [last])]);
    Prepend(b, s, Tick(b.entry), [ReadClock(2)] + [Claim(2, [last])]);
    steps := [Tick(b.entry)] + ([ReadClock(2)] + [Claim(2, [last])]);
  }

  lemma NextEntry(n: nat, j: nat)
    requires j < n
    ensures Batch(n)[j..][0] == Entry(j, 0) && Batch(n)[j..][1..] == Batch(n)[j + 1..]
  {}

  /** The slow worker takes all its time for one more entry. */
  lemma WorkOn(b: Bounds, t: int, n: nat, j: nat, s: System, s1: System)
    requires j < n && s == Working(b, t, n, j) && s1 == s.(now := t + Elapsed(b, j + 1))
    ensures Timely(b, s, Tick(b.entry)) && Apply(s, Tick(b.entry)) == s1
    ensures Enabled(s1, Finish(1, Accepted, false)) && Apply(s1, Finish(1, Accepted, false)) == Working(b, t, n, j + 1)
  {
    NextEntry(n, j);
    var w := Busy(t, Batch(n)[j + 1..], t + Elapsed(b, j + 1));
    assert s1.workers[1 := w] == map[1 := w];
  }

  lemma {:induction false} RobFrom(b: Bounds, t: int, n: nat, j: nat) returns (steps: seq<Step>)
    requires !b.FitLease() && n == BATCH && j < n
    ensures Robs(b, Working(b, t, n, j), steps)
    decreases n - j
  {
    if j == n - 1 {
      steps := RobLast(b, t, n);
    } else {
      steps := RobFrom(b, t, n, j + 1);
      var s, finish := Working(b, t, n, j), Finish(1, Accepted, false);
      var s1 := s.(now := t + Elapsed(b, j + 1));
      WorkOn(b, t, n, j, s, s1);
      Prepend(b, s1, finish, steps);
      Prepend(b, s, Tick(b.entry), [finish] + steps);
      steps := [Tick(b.entry)] + ([finish] + steps);
    }
  }

  lemma {:induction false} ClaimedRows(b: Bounds, t: int, n: nat)
    ensures Claimed(Waiting(t, n).rows, Ids(n), t, t + b.claim) == Working(b, t, n, 0).rows
  {}

  lemma {:induction false} ClaimedEntries(t: int, n: nat)
    ensures Entries(Waiting(t, n).rows, Ids(n)) == Batch(n)[0..]
  {}

  lemma {:induction false} CanClaimAll(b: Bounds, t: int, n: nat, s: System)
    requires n == BATCH && s == System(t + b.claim, Waiting(t, n).rows, map[1 := Reading(t)])
    ensures Enabled(s, Claim(1, Ids(n)))
  {}

  lemma ClaimApplies(s: System, ids: seq<nat>, t: int)
    requires Enabled(s, Claim(1, ids)) && s.workers[1] == Reading(t)
    ensures Apply(s, Claim(1, ids))
         == System(s.now, Claimed(s.rows, ids, t, s.now), s.workers[1 := Busy(t, Entries(s.rows, ids), s.now)])
  {}

  lemma {:induction false} ClaimsAll(b: Bounds, t: int, n: nat, s: System, ids: seq<nat>)
    requires ids == Ids(n) && s == System(t + b.claim, Waiting(t, n).rows, map[1 := Reading(t)]) && Enabled(s, Claim(1, ids))
    ensures Apply(s, Claim(1, ids)) == Working(b, t, n, 0)
  {
    ClaimApplies(s, ids, t);
    ClaimedRows(b, t, n);
    ClaimedEntries(t, n);
    var w := Busy(t, Batch(n)[0..], t + b.claim);
    assert s.workers[1 := w] == map[1 := w];
  }

  lemma RobAll(b: Bounds, t: int, n: nat) returns (steps: seq<Step>)
    requires !b.FitLease() && n == BATCH
    ensures Robs(b, Waiting(t, n), steps)
  {
    var rest := RobFrom(b, t, n, 0);
    var claim := Claim(1, Ids(n));
    var s := Waiting(t, n);
    var s1 := s.(workers := map[1 := Reading(t)]);
    var s2 := s1.(now := t + b.claim);
    assert Apply(s, ReadClock(1)) == s1 && Apply(s1, Tick(b.claim)) == s2;
    CanClaimAll(b, t, n, s2);
    ClaimsAll(b, t, n, s2, Ids(n));
    Prepend(b, s2, claim, rest);
    Prepend(b, s1, Tick(b.claim), [claim] + rest);
    Prepend(b, s, ReadClock(1), [Tick(b.claim)] + ([claim] + rest));
    steps := [ReadClock(1)] + ([Tick(b.claim)] + ([claim] + rest));
  }

  lemma OneMoreWaits(t: int, k: nat)
    ensures Enabled(Waiting(t, k), Enqueue(k)) && Apply(Waiting(t, k), Enqueue(k)) == Waiting(t, k + 1)
  {}

  lemma {:induction false} RobAfter(b: Bounds, t: int, n: nat, k: nat) returns (steps: seq<Step>)
    requires !b.FitLease() && n == BATCH && k <= n
    ensures Robs(b, Waiting(t, k), steps)
    decreases n - k
  {
    if k == n {
      steps := RobAll(b, t, n);
    } else {
      steps := RobAfter(b, t, n, k + 1);
      OneMoreWaits(t, k);
      Prepend(b, Waiting(t, k), Enqueue(k), steps);
      steps := [Enqueue(k)] + steps;
    }
  }

  /** Whenever a full batch does not fit the lease, some run within the bounds has two
      workers hold one row: the slow one is on its fiftieth entry when a rival claims it. */
  lemma LateWorkerIsRobbed(b: Bounds, s: System) returns (steps: seq<Step>)
    requires !b.FitLease() && Fresh(s)
    ensures Robs(b, s, steps)
  {
    assert s == Waiting(s.now, 0);
    steps := RobAfter(b, s.now, BATCH, 0);
  }

  ghost predicate AlwaysExclusive(b: Bounds) {
    forall s, steps | Fresh(s) && Possible(s, steps) && TimelyRun(b, s, steps) :: Exclusive(After(s, steps))
  }

  /** The lease arithmetic is the exact condition: every run within the bounds keeps
      workers apart if and only if a claim and a full batch fit inside the lease. */
  lemma ExclusiveIffFitLease(b: Bounds)
    ensures AlwaysExclusive(b) <==> b.FitLease()
  {
    if b.FitLease() {
      forall s, steps | Fresh(s) && Possible(s, steps) && TimelyRun(b, s, steps)
        ensures Exclusive(After(s, steps))
      {
        TimelyRunsExclude(b, s, steps);
      }
    } else {
      var s := System(0, map[], map[]);
      var steps := LateWorkerIsRobbed(b, s);
    }
  }
}

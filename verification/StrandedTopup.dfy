/** Stranded credit-pool topups: money that left the wallet without reaching the
    pool is recorded as an open fund event and credited later, once.

    The crediting transaction is raced by background sweeps on several replicas,
    by online retries and by operators closing events by hand.  Each transaction
    is atomic and may fail at any of its statements. */
module StrandedTopup {

  /** UNIQUE(tenant_id, event_id): the event id alone identifies nothing. */
  datatype Key = Key(tenant: string, event: string)

  /** The Source column.  `Regular` stands for every source outside the stranded
      life cycle. */
  datatype Source = Stranded | Reconciled | ManuallyClosed | Regular

  datatype Event = Event(pool: nat, amount: int, newBalance: int, source: Source)

  /** `max == -1` means no ceiling. */
  datatype Pool = Pool(balance: int, max: int)
  {
    predicate Fits(amount: int) { max == -1 || balance + amount <= max }
    predicate UnderCeiling() { max == -1 || balance <= max }
  }

  datatype Draw = Draw(pool: nat, tenant: string, credit: bool, amount: int)

  /** The three tables, and the history of compensating credits. */
  datatype Db = Db(events: map<Key, Event>, pools: map<nat, Pool>, draws: seq<Draw>, log: seq<Key>)

  datatype Outcome = Settled(event: Event) | NotStranded | WouldExceedCeiling | DbError

  /** The statement of the transaction that fails, if any. */
  datatype Fault = None | AtClaim | AtLoad | AtCredit | AtReadback | AtRecord | AtDraw

  // ---------------------------------------------------------------- the transaction

  predicate Open(db: Db, k: Key) {
    k in db.events && db.events[k].source.Stranded?
  }

  predicate Creditable(db: Db, k: Key) {
    Open(db, k) && db.events[k].pool in db.pools && db.pools[db.events[k].pool].Fits(db.events[k].amount)
  }

  /** The committed effect of one compensating credit. */
  function Credited(db: Db, k: Key): Db
    requires Creditable(db, k)
  {
    var e := db.events[k];
    var pool := db.pools[e.pool];
    var balance := pool.balance + e.amount;
    Db(db.events[k := e.(source := Reconciled, newBalance := balance)],
       db.pools[e.pool := pool.(balance := balance)],
       db.draws + [Draw(e.pool, k.tenant, true, e.amount)],
       db.log + [k])
  }

  /** The effect of finalizeStrandedTopup: all of the credit or nothing. */
  function Finalized(db: Db, k: Key, fault: Fault): Db {
    if Creditable(db, k) && fault.None? then Credited(db, k) else db
  }

  class Store {
    var events: map<Key, Event>
    var pools: map<nat, Pool>
    var draws: seq<Draw>
    ghost var log: seq<Key>

    constructor (pools: map<nat, Pool>)
      ensures View() == Db(map[], pools, [], [])
    {
      events, this.pools, draws, log := map[], pools, [], [];
    }

    ghost function View(): Db
      reads this
    {
      Db(events, pools, draws, log)
    }

    /** Recording is idempotent per tenant: an existing row, whatever its state,
        is left alone. */
    method RecordStrandedTopup(k: Key, pool: nat, amount: int, write: bool) returns (ok: bool)
      modifies this`events
      ensures ok == (k.event != "" && amount > 0 && write)
      ensures events == if ok && k !in old(events) then old(events)[k := Event(pool, amount, 0, Stranded)] else old(events)
    {
      if k.event == "" || amount <= 0 {
        return false;
      }
      if !write {
        return false;
      }
      if k !in events {
        events := events[k := Event(pool, amount, 0, Stranded)];
      }
      return true;
    }

    /** One transaction: claim, load, credit under the ceiling, read back, record
        the balance, append the draw; any failure rolls all of it back. */
    method FinalizeStrandedTopup(k: Key, fault: Fault) returns (r: Outcome)
      modifies this
      ensures View() == Finalized(old(View()), k, fault)
      ensures r.Settled? <==> Creditable(old(View()), k) && fault.None?
      ensures r.Settled? ==> r.event == events[k]
      ensures r.NotStranded? <==> !Open(old(View()), k) && !fault.AtClaim?
      ensures r.WouldExceedCeiling? <==>
                Open(old(View()), k) && !Creditable(old(View()), k) && !fault.AtClaim? && !fault.AtLoad? && !fault.AtCredit?
    {
      var tx := events;
      if fault.AtClaim? {
        return DbError;
      }
      if k !in tx || !tx[k].source.Stranded? {
        return NotStranded;
      }
      tx := tx[k := tx[k].(source := Reconciled)];
      if fault.AtLoad? {
        return DbError;
      }
      var evt := tx[k];
      if fault.AtCredit? {
        return DbError;
      }
      if evt.pool !in pools || !pools[evt.pool].Fits(evt.amount) {
        return WouldExceedCeiling;
      }
      var txPools := pools[evt.pool := pools[evt.pool].(balance := pools[evt.pool].balance + evt.amount)];
      if fault.AtReadback? {
        return DbError;
      }
      var balance := txPools[evt.pool].balance;
      if fault.AtRecord? {
        return DbError;
      }
      tx := tx[k := tx[k].(newBalance := balance)];
      if fault.AtDraw? {
        return DbError;
      }
      // commit
      events, pools, draws := tx, txPools, draws + [Draw(evt.pool, k.tenant, true, evt.amount)];
      log := log + [k];
      return Settled(evt.(newBalance := balance));
    }

    /** One sweep over a listed batch: the run that finalizes each listed event in turn.
        A listed event that is open, has room in its pool when its turn comes and meets
        no fault is credited.  When no two open ones share a pool the turn does not
        matter: the counters are those of the state the sweep started from. */
    method ReconcileStrandedTopups(refs: seq<Key>, faults: seq<Fault>) returns (reconciled: nat, failed: nat)
      requires |faults| == |refs| && forall i, j | 0 <= i < j < |refs| :: refs[i] != refs[j]
      modifies this
      ensures View() == Run(old(View()), Sweep(refs, faults))
      ensures reconciled == Settles(old(View()), refs, faults) && |log| == |old(log)| + reconciled
      ensures failed == Fails(old(View()), refs, faults)
      ensures OnlyListed(old(View()), View(), refs)
      ensures (forall k | k in refs :: Open(old(View()), k)) ==> reconciled + failed == |refs|
      ensures PoolsApart(old(View()), refs) ==>
                && reconciled == Ready(old(View()), refs, faults)
                && failed == Failing(old(View()), refs, faults)
    {
      reconciled, failed := 0, 0;
      for i := 0 to |refs|
        invariant View() == Run(old(View()), Sweep(refs[..i], faults[..i]))
        invariant reconciled == Settles(old(View()), refs[..i], faults[..i])
        invariant failed == Fails(old(View()), refs[..i], faults[..i])
      {
        SweepTurn(old(View()), View(), refs, faults, i);
        var r := FinalizeStrandedTopup(refs[i], faults[i]);
        match r {
          case Settled(_) => reconciled := reconciled + 1;
          case NotStranded =>
          case WouldExceedCeiling => failed := failed + 1;
          case DbError => failed := failed + 1;
        }
      }
      assert refs[..|refs|] == refs && faults[..|refs|] == faults;
      SweepCounters(old(View()), refs, faults);
      SweepTouchesOnlyListed(old(View()), refs, faults);
    }
  }

  /** The steps of one sweep. */
  function Sweep(refs: seq<Key>, faults: seq<Fault>): (steps: seq<Step>)
    requires |faults| == |refs|
    ensures |steps| == |refs| && forall i | 0 <= i < |refs| :: steps[i] == Finalize(refs[i], faults[i])
  {
    seq(|refs|, i requires 0 <= i < |refs| => Finalize(refs[i], faults[i]))
  }

  /** How many listed events are credited, each judged by the state its turn finds. */
  function Settles(db: Db, refs: seq<Key>, faults: seq<Fault>): nat
    requires |faults| == |refs|
  {
    if refs == [] then 0
    else
      var n := |refs| - 1;
      var turn := Run(db, Sweep(refs[..n], faults[..n]));
      Settles(db, refs[..n], faults[..n]) + (if Creditable(turn, refs[n]) && faults[n].None? then 1 else 0)
  }

  /** How many fail again: open at their turn but not credited, or not even claimed. */
  function Fails(db: Db, refs: seq<Key>, faults: seq<Fault>): nat
    requires |faults| == |refs|
  {
    if refs == [] then 0
    else
      var n := |refs| - 1;
      var turn := Run(db, Sweep(refs[..n], faults[..n]));
      Fails(db, refs[..n], faults[..n])
      + (if faults[n].AtClaim? || (Open(turn, refs[n]) && !(Creditable(turn, refs[n]) && faults[n].None?)) then 1 else 0)
  }

  /** No two open events of the list are owed to the same pool. */
  predicate PoolsApart(db: Db, refs: seq<Key>) {
    forall i, j | 0 <= i < j < |refs| :: Open(db, refs[i]) && Open(db, refs[j]) ==>
      db.events[refs[i]].pool != db.events[refs[j]].pool
  }

  /** The listed events that are open, have room in their pool and meet no fault. */
  function Ready(db: Db, refs: seq<Key>, faults: seq<Fault>): nat
    requires |faults| == |refs|
  {
    if refs == [] then 0
    else
      var n := |refs| - 1;
      Ready(db, refs[..n], faults[..n]) + (if Creditable(db, refs[n]) && faults[n].None? then 1 else 0)
  }

  /** The other open ones, and those whose claim could not even be tried. */
  function Failing(db: Db, refs: seq<Key>, faults: seq<Fault>): nat
    requires |faults| == |refs|
  {
    if refs == [] then 0
    else
      var n := |refs| - 1;
      Failing(db, refs[..n], faults[..n])
      + (if faults[n].AtClaim? || (Open(db, refs[n]) && !(Creditable(db, refs[n]) && faults[n].None?)) then 1 else 0)
  }

  /** A sweep leaves the pool of an event it does not list alone, if it lists no other
      open event of that pool. */
  lemma {:induction false} SweepLeavesPool(db: Db, refs: seq<Key>, faults: seq<Fault>, pool: nat)
    requires |faults| == |refs|
    requires forall k | k in refs && Open(db, k) :: db.events[k].pool != pool
    ensures var end := Run(db, Sweep(refs, faults));
            (pool in db.pools <==> pool in end.pools) && (pool in db.pools ==> end.pools[pool] == db.pools[pool])
    decreases refs
  {
    if refs != [] {
      var db1 := Finalized(db, refs[0], faults[0]);
      assert refs[0] in refs;
      assert Sweep(refs, faults)[1..] == Sweep(refs[1..], faults[1..]);
      SweepLeavesPool(db1, refs[1..], faults[1..], pool);
    }
  }

  /** When no two open events share a pool, each turn finds its event and its pool as the
      sweep found them, so the counts are those of the starting state. */
  lemma {:induction false} TurnsDoNotMatter(db: Db, refs: seq<Key>, faults: seq<Fault>)
    requires |faults| == |refs| && PoolsApart(db, refs) && forall i, j | 0 <= i < j < |refs| :: refs[i] != refs[j]
    ensures Settles(db, refs, faults) == Ready(db, refs, faults) && Fails(db, refs, faults) == Failing(db, refs, faults)
  {
    if refs != [] {
      var n := |refs| - 1;
      TurnsDoNotMatter(db, refs[..n], faults[..n]);
      SweepLeavesUnlisted(db, refs[..n], faults[..n], refs[n]);
      if Open(db, refs[n]) {
        SweepLeavesPool(db, refs[..n], faults[..n], db.events[refs[n]].pool);
      }
    }
  }

  /** The history grows by the credits. */
  lemma {:induction false} SweepLogs(db: Db, refs: seq<Key>, faults: seq<Fault>)
    requires |faults| == |refs|
    ensures |Run(db, Sweep(refs, faults)).log| == |db.log| + Settles(db, refs, faults)
  {
    if refs != [] {
      var n := |refs| - 1;
      SweepLogs(db, refs[..n], faults[..n]);
      SweepSnoc(db, refs[..n], faults[..n], refs[n], faults[n]);
      assert refs[..n] + [refs[n]] == refs && faults[..n] + [faults[n]] == faults;
    }
  }

  /** Of events all open when the sweep starts, each is counted once. */
  lemma {:induction false} SweepCountsOnce(db: Db, refs: seq<Key>, faults: seq<Fault>)
    requires |faults| == |refs| && forall i, j | 0 <= i < j < |refs| :: refs[i] != refs[j]
    requires forall k | k in refs :: Open(db, k)
    ensures Settles(db, refs, faults) + Fails(db, refs, faults) == |refs|
  {
    if refs != [] {
      var n := |refs| - 1;
      SweepCountsOnce(db, refs[..n], faults[..n]);
      assert refs[n] in refs;
      SweepLeavesUnlisted(db, refs[..n], faults[..n], refs[n]);
    }
  }

  lemma {:induction false} SweepCounters(db: Db, refs: seq<Key>, faults: seq<Fault>)
    requires |faults| == |refs| && forall i, j | 0 <= i < j < |refs| :: refs[i] != refs[j]
    ensures |Run(db, Sweep(refs, faults)).log| == |db.log| + Settles(db, refs, faults)
    ensures (forall k | k in refs :: Open(db, k)) ==> Settles(db, refs, faults) + Fails(db, refs, faults) == |refs|
    ensures PoolsApart(db, refs) ==>
              Settles(db, refs, faults) == Ready(db, refs, faults) && Fails(db, refs, faults) == Failing(db, refs, faults)
  {
    SweepLogs(db, refs, faults);
    if forall k | k in refs :: Open(db, k) {
      SweepCountsOnce(db, refs, faults);
    }
    if PoolsApart(db, refs) {
      TurnsDoNotMatter(db, refs, faults);
    }
  }

  lemma {:induction false} SweepSnoc(db: Db, refs: seq<Key>, faults: seq<Fault>, k: Key, fault: Fault)
    requires |faults| == |refs|
    ensures Run(db, Sweep(refs + [k], faults + [fault])) == Finalized(Run(db, Sweep(refs, faults)), k, fault)
  {
    assert Sweep(refs + [k], faults + [fault]) == Sweep(refs, faults) + [Finalize(k, fault)];
    RunAppends(db, Sweep(refs, faults), [Finalize(k, fault)]);
    var mid := Run(db, Sweep(refs, faults));
    assert Run(mid, [Finalize(k, fault)]) == Run(Apply(mid, Finalize(k, fault)), []);
  }

  /** From `db` to `db'` only listed events were credited: no row appears or goes, no
      other row moves, and an open listed one is reconciled or as it was. */
  predicate OnlyListed(db: Db, db': Db, refs: seq<Key>) {
    && db'.events.Keys == db.events.Keys
    && db.log <= db'.log && (forall k | k in db'.log[|db.log|..] :: k in refs)
    && (forall k | k in db.events && k !in refs :: db'.events[k] == db.events[k])
    && (forall k | k in db.events && k in refs :: db'.events[k].source.Reconciled? || db'.events[k] == db.events[k])
  }

  lemma {:induction false} SweepTouchesOnlyListed(db: Db, refs: seq<Key>, faults: seq<Fault>)
    requires |faults| == |refs|
    ensures OnlyListed(db, Run(db, Sweep(refs, faults)), refs)
  {
    if refs != [] {
      var n := |refs| - 1;
      var mid := Run(db, Sweep(refs[..n], faults[..n]));
      SweepTouchesOnlyListed(db, refs[..n], faults[..n]);
      assert refs[..n] + [refs[n]] == refs && faults[..n] + [faults[n]] == faults;
      SweepSnoc(db, refs[..n], faults[..n], refs[n], faults[n]);
      TurnTouchesOnlyListed(db, mid, refs[..n], refs[n], faults[n]);
    }
  }

  lemma TurnTouchesOnlyListed(db: Db, mid: Db, refs: seq<Key>, k: Key, fault: Fault)
    requires OnlyListed(db, mid, refs)
    ensures OnlyListed(db, Finalized(mid, k, fault), refs + [k])
  {
    var end := Finalized(mid, k, fault);
    assert end.log == mid.log || end.log == mid.log + [k];
  }

  /** Turn `i` of a sweep, on the state it finds. */
  lemma {:induction false} SweepTurn(db: Db, turn: Db, refs: seq<Key>, faults: seq<Fault>, i: nat)
    requires |faults| == |refs| && i < |refs| && turn == Run(db, Sweep(refs[..i], faults[..i]))
    ensures Run(db, Sweep(refs[..i + 1], faults[..i + 1])) == Finalized(turn, refs[i], faults[i])
    ensures Settles(db, refs[..i + 1], faults[..i + 1])
         == Settles(db, refs[..i], faults[..i]) + (if Creditable(turn, refs[i]) && faults[i].None? then 1 else 0)
    ensures Fails(db, refs[..i + 1], faults[..i + 1])
         == Fails(db, refs[..i], faults[..i])
            + (if faults[i].AtClaim? || (Open(turn, refs[i]) && !(Creditable(turn, refs[i]) && faults[i].None?)) then 1 else 0)
  {
    assert refs[..i + 1] == refs[..i] + [refs[i]] && faults[..i + 1] == faults[..i] + [faults[i]];
    SweepSnoc(db, refs[..i], faults[..i], refs[i], faults[i]);
    CountsSnoc(db, refs[..i], faults[..i], refs[i], faults[i]);
  }

  lemma {:induction false} CountsSnoc(db: Db, refs: seq<Key>, faults: seq<Fault>, k: Key, fault: Fault)
    requires |faults| == |refs|
    ensures var turn := Run(db, Sweep(refs, faults));
            && Settles(db, refs + [k], faults + [fault])
               == Settles(db, refs, faults) + (if Creditable(turn, k) && fault.None? then 1 else 0)
            && Fails(db, refs + [k], faults + [fault])
               == Fails(db, refs, faults)
                  + (if fault.AtClaim? || (Open(turn, k) && !(Creditable(turn, k) && fault.None?)) then 1 else 0)
  {
    assert (refs + [k])[..|refs|] == refs && (faults + [fault])[..|refs|] == faults;
  }

  lemma {:induction false} RunAppends(db: Db, steps: seq<Step>, more: seq<Step>)
    ensures Run(db, steps + more) == Run(Run(db, steps), more)
    decreases steps
  {
    if steps == [] {
      assert steps + more == more;
    } else {
      assert (steps + more)[0] == steps[0] && (steps + more)[1..] == steps[1..] + more;
      RunAppends(Apply(db, steps[0]), steps[1..], more);
    }
  }

  /** What a sweep does to each listed event.  Open, with room in its pool when its turn
      comes and no fault, it ends reconciled with its credit in the history; otherwise
      its turn leaves it as it found it. */
  lemma {:induction false} SweepCreditsWhatFits(db: Db, refs: seq<Key>, faults: seq<Fault>, i: nat)
    requires |faults| == |refs| && i < |refs| && forall k, j | 0 <= k < j < |refs| :: refs[k] != refs[j]
    ensures var turn := Run(db, Sweep(refs[..i], faults[..i]));
            var end := Run(db, Sweep(refs, faults));
            if Creditable(turn, refs[i]) && faults[i].None? then
              && refs[i] in end.log && refs[i] in end.events && end.events[refs[i]].source.Reconciled?
              && end.events[refs[i]].newBalance == turn.pools[turn.events[refs[i]].pool].balance + turn.events[refs[i]].amount
            else
              refs[i] in db.events ==> refs[i] in end.events && end.events[refs[i]] == db.events[refs[i]]
  {
    var k := refs[i];
    var turn := Run(db, Sweep(refs[..i], faults[..i]));
    var done, rest := Finalized(turn, k, faults[i]), Sweep(refs[i + 1..], faults[i + 1..]);
    SweepSnoc(db, refs[..i], faults[..i], k, faults[i]);
    assert Sweep(refs, faults) == Sweep(refs[..i] + [k], faults[..i] + [faults[i]]) + rest;
    RunAppends(db, Sweep(refs[..i] + [k], faults[..i] + [faults[i]]), rest);
    SweepLeavesUnlisted(db, refs[..i], faults[..i], k);
    SweepLeavesUnlisted(done, refs[i + 1..], faults[i + 1..], k);
  }

  /** A sweep does not touch an event it does not list, and forgets no credit. */
  lemma {:induction false} SweepLeavesUnlisted(db: Db, refs: seq<Key>, faults: seq<Fault>, k: Key)
    requires |faults| == |refs| && k !in refs
    ensures var end := Run(db, Sweep(refs, faults));
            && (k in db.events <==> k in end.events)
            && (k in db.events ==> end.events[k] == db.events[k])
            && (k in db.log ==> k in end.log)
    decreases refs
  {
    if refs != [] {
      assert Sweep(refs, faults)[1..] == Sweep(refs[1..], faults[1..]);
      SweepLeavesUnlisted(Finalized(db, refs[0], faults[0]), refs[1..], faults[1..], k);
    }
  }

  // ---------------------------------------------------------------- interleavings

  /** Everything that touches the tables, as one atomic step each.  `Close` is an
      operator closing an event by hand, crediting the pool in the same transaction
      when `force`; `Topup` and `Spend` are the pool's other movements, the latter
      overdrafts included. */
  datatype Step =
    | Record(k: Key, pool: nat, amount: int)
    | Finalize(k: Key, fault: Fault)
    | Close(k: Key, force: bool)
    | Topup(pool: nat, tenant: string, amount: int)
    | Spend(pool: nat, tenant: string, amount: int)

  function Moved(db: Db, pool: nat, tenant: string, credit: bool, amount: int): Db
    requires pool in db.pools
  {
    var delta := if credit then amount else -amount;
    db.(pools := db.pools[pool := db.pools[pool].(balance := db.pools[pool].balance + delta)],
        draws := db.draws + [Draw(pool, tenant, credit, amount)])
  }

  function Apply(db: Db, step: Step): Db {
    match step
    case Record(k, pool, amount) =>
      if k.event == "" || amount <= 0 || k in db.events then db
      else db.(events := db.events[k := Event(pool, amount, 0, Stranded)])
    case Finalize(k, fault) => Finalized(db, k, fault)
    case Close(k, force) =>
      if !Open(db, k) || (force && db.events[k].pool !in db.pools) then db
      else
        var e := db.events[k];
        var closed := db.(events := db.events[k := e.(source := ManuallyClosed)]);
        if force then Moved(closed, e.pool, k.tenant, true, e.amount).(log := db.log + [k]) else closed
    case Topup(pool, tenant, amount) =>
      if amount > 0 && pool in db.pools && db.pools[pool].Fits(amount) then Moved(db, pool, tenant, true, amount) else db
    case Spend(pool, tenant, amount) =>
      if amount > 0 && pool in db.pools then Moved(db, pool, tenant, false, amount) else db
  }

  function Run(db: Db, steps: seq<Step>): Db
    decreases steps
  {
    if steps == [] then db else Run(Apply(db, steps[0]), steps[1..])
  }

  function NetDraws(draws: seq<Draw>, pool: nat): int {
    if draws == [] then 0
    else
      var d := draws[|draws| - 1];
      NetDraws(draws[..|draws| - 1], pool) + (if d.pool != pool then 0 else if d.credit then d.amount else -d.amount)
  }

  lemma {:induction false} NetDrawsAppend(draws: seq<Draw>, d: Draw, pool: nat)
    ensures NetDraws(draws + [d], pool)
         == NetDraws(draws, pool) + (if d.pool != pool then 0 else if d.credit then d.amount else -d.amount)
  {
    assert (draws + [d])[..|draws|] == draws;
  }

  /** The history agrees with the rows: a key is credited at most once, a reconciled
      row was credited, and a credited row is closed. */
  predicate Accounted(db: Db) {
    && (forall i, j | 0 <= i < j < |db.log| :: db.log[i] != db.log[j])
    && (forall k | k in db.log :: k in db.events && (db.events[k].source.Reconciled? || db.events[k].source.ManuallyClosed?))
    && (forall k | k in db.events && db.events[k].source.Reconciled? :: k in db.log)
  }

  lemma StepKeepsAccounted(db: Db, step: Step)
    requires Accounted(db)
    ensures Accounted(Apply(db, step))
  {
    var db' := Apply(db, step);
    if db'.log != db.log {
      var k := db'.log[|db.log|];
      assert db'.log == db.log + [k] && k !in db.log;
      assert k in db'.log;
    }
  }

  /** One step moves a pool exactly by what it writes to the draw ledger. */
  lemma {:induction false} StepConserves(db: Db, step: Step, pool: nat)
    requires pool in db.pools
    ensures var db' := Apply(db, step);
            pool in db'.pools && db'.pools[pool].max == db.pools[pool].max
            && db'.pools[pool].balance - NetDraws(db'.draws, pool) == db.pools[pool].balance - NetDraws(db.draws, pool)
  {
    var db' := Apply(db, step);
    if db'.draws != db.draws {
      DrawConserves(db, db', db'.draws[|db.draws|], pool);
    }
  }

  lemma {:induction false} DrawConserves(db: Db, db': Db, d: Draw, pool: nat)
    requires pool in db.pools && d.pool in db.pools && db'.draws == db.draws + [d]
    requires var p := db.pools[d.pool];
             db'.pools == db.pools[d.pool := p.(balance := p.balance + if d.credit then d.amount else -d.amount)]
    ensures pool in db'.pools && db'.pools[pool].max == db.pools[pool].max
    ensures db'.pools[pool].balance - NetDraws(db'.draws, pool) == db.pools[pool].balance - NetDraws(db.draws, pool)
  {
    NetDrawsAppend(db.draws, d, pool);
  }

  /** In every interleaving of recording, sweeps, online retries, operator closes and
      other pool traffic: each (tenant, event) is credited at most once, and a row is
      reconciled only if it was. */
  lemma {:induction false} CreditedAtMostOnce(db: Db, steps: seq<Step>)
    requires Accounted(db)
    ensures Accounted(Run(db, steps))
    decreases steps
  {
    if steps != [] {
      StepKeepsAccounted(db, steps[0]);
      CreditedAtMostOnce(Apply(db, steps[0]), steps[1..]);
    }
  }

  /** In every interleaving a pool's balance minus its net draws is constant. */
  lemma {:induction false} BalanceExplainedByDraws(db: Db, steps: seq<Step>, pool: nat)
    requires pool in db.pools
    ensures var db' := Run(db, steps);
            pool in db'.pools
            && db'.pools[pool].balance - NetDraws(db'.draws, pool) == db.pools[pool].balance - NetDraws(db.draws, pool)
    decreases steps
  {
    if steps != [] {
      StepConserves(db, steps[0], pool);
      BalanceExplainedByDraws(Apply(db, steps[0]), steps[1..], pool);
    }
  }

  /** Unless an operator forces a credit, no interleaving lifts a pool above its
      ceiling. */
  lemma {:induction false} CeilingKept(db: Db, steps: seq<Step>, pool: nat)
    requires pool in db.pools && db.pools[pool].UnderCeiling()
    requires forall s | s in steps :: !(s.Close? && s.force)
    ensures pool in Run(db, steps).pools && Run(db, steps).pools[pool].UnderCeiling()
    decreases steps
  {
    if steps != [] {
      assert steps[0] in steps;
      var db1 := Apply(db, steps[0]);
      assert pool in db1.pools && db1.pools[pool].UnderCeiling();
      CeilingKept(db1, steps[1..], pool);
    }
  }

  /** A credit happens exactly when the row goes from stranded to reconciled, for
      the recorded amount; an attempt that does not settle changes nothing; and no
      other row moves, whoever's tenant shares the event id. */
  lemma CreditIffReconciled(db: Db, k: Key, fault: Fault)
    requires Accounted(db)
    ensures var db' := Finalized(db, k, fault);
            && (db' != db <==> Open(db, k) && db'.events[k].source.Reconciled?)
            && (db' != db ==>
                  var e := db.events[k];
                  && db'.log == db.log + [k] && k !in db.log
                  && e.pool in db.pools
                  && db'.pools == db.pools[e.pool := db.pools[e.pool].(balance := db.pools[e.pool].balance + e.amount)]
                  && db'.draws == db.draws + [Draw(e.pool, k.tenant, true, e.amount)]
                  && db'.events[k].newBalance == db'.pools[e.pool].balance
                  && db'.pools[e.pool].UnderCeiling())
            && (forall other | other in db.events && other != k :: other in db'.events && db'.events[other] == db.events[other])
  {
    var db' := Finalized(db, k, fault);
    if db' != db {
      assert |db'.log| == |db.log| + 1;
    }
  }

  // ---------------------------------------------------------------- the online retry

  datatype Answer = Absent | Row(event: Event) | ClosedByHand(event: Event) | Failed(event: Event)

  /** TryFinalizeStrandedTopup as its three transactions, each run on whatever state
      the others have produced by then.  `Row` is a nil error. */
  function TryFinalize(read: Db, claim: Db, reread: Db, k: Key, fault: Fault): Answer
    requires k in read.events ==> k in reread.events
  {
    if k !in read.events || read.events[k].source.Regular? then Absent
    else if read.events[k].source.Reconciled? then Row(read.events[k])
    else if read.events[k].source.ManuallyClosed? then ClosedByHand(read.events[k])
    else if Creditable(claim, k) && fault.None? then Row(Credited(claim, k).events[k])
    else if !Open(claim, k) && !fault.AtClaim? then Row(reread.events[k])
    else Failed(read.events[k])
  }

  /** A stranded row can only become reconciled or closed by hand, and then stays. */
  lemma {:induction false} ClosedStays(db: Db, steps: seq<Step>, k: Key)
    requires k in db.events
    ensures k in Run(db, steps).events
    ensures !db.events[k].source.Stranded? ==> Run(db, steps).events[k] == db.events[k]
    ensures var e := Run(db, steps).events[k];
            db.events[k].source.Stranded? ==>
              && (e.source.Stranded? ==> e == db.events[k])
              && !e.source.Regular?
              && (e.source.ManuallyClosed? ==> exists s | s in steps :: s.Close? && s.k == k)
    decreases steps
  {
    if steps != [] {
      var db1 := Apply(db, steps[0]);
      ClosedStays(db1, steps[1..], k);
      if db1.events[k].source.ManuallyClosed? && db.events[k].source.Stranded? {
        assert steps[0] in steps && steps[0].Close? && steps[0].k == k;
      }
      if exists s | s in steps[1..] :: s.Close? && s.k == k {
        var s :| s in steps[1..] && s.Close? && s.k == k;
        assert s in steps;
      }
    }
  }

  /** What a nil error means.  Whatever runs between the three transactions, the row
      returned is closed; it is reconciled unless an operator closed it between the
      first read and the claim, in which case the caller is handed a manually closed
      row with no error. */
  lemma {:induction false} NilMeansClosed(db: Db, before: seq<Step>, between: seq<Step>, k: Key, fault: Fault)
    ensures var claim := Run(db, before);
            var reread := Run(Finalized(claim, k, fault), between);
            (k in db.events ==> k in reread.events) &&
            var a := TryFinalize(db, claim, reread, k, fault);
            a.Row? ==>
              && (a.event.source.Reconciled? || a.event.source.ManuallyClosed?)
              && (a.event.source.ManuallyClosed? <==> Open(db, k) && k in claim.events && claim.events[k].source.ManuallyClosed?)
              && (a.event.source.ManuallyClosed? ==> exists s | s in before :: s.Close? && s.k == k)
  {
    var claim := Run(db, before);
    var reread := Run(Finalized(claim, k, fault), between);
    if k in db.events {
      ClosedStays(db, before, k);
      ClosedStays(Finalized(claim, k, fault), between, k);
    }
  }

  /** So the documented reading of a nil error, "the event is now reconciled", fails
      whenever the operator wins that race. */
  lemma {:induction false} NilCanMeanManuallyClosed(db: Db, k: Key)
    requires Open(db, k)
    ensures var claim := Run(db, [Close(k, false)]);
            k in claim.events && TryFinalize(db, claim, claim, k, None) == Row(db.events[k].(source := ManuallyClosed))
  {
    assert Run(db, [Close(k, false)]) == Run(Apply(db, Close(k, false)), []);
  }
}

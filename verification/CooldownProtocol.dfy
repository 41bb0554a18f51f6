/** Replicas marking, clearing and snapshotting cooldowns over one Redis index.

    A mark, a snapshot refresh and a manual clear each take several steps: critical
    sections of one process, and Redis commands in between.  Any number of them run at
    once in any number of processes, and every order of their steps is a run. */
module CooldownProtocol {
  import opened Cooldown

  /** How a Redis write turned out: done and acknowledged, done though the client saw
      an error, or not done. */
  datatype Write = Ok | Lost | Failed

  /** An operation under way, named by its next step. */
  datatype Op =
    | Marking(p: nat, slot: Slot, until: int, now: nat)
    | Acking(p: nat, slot: Slot, until: int, now: nat)
    | Reading(p: nat, now: nat, startGen: nat)
    | Merging(p: nat, now: nat, startGen: nat, entries: map<Slot, int>)
    | Forgetting(p: nat, ch: int)
    | Listing(p: nat, ch: int)
    | Removing(p: nat, ch: int, members: set<Slot>)
    | Restamping(p: nat, ch: int)

  /** `accepted` records every deadline the index ever took. */
  datatype System = System(procs: map<nat, Proc>, redis: map<Slot, int>, ops: map<nat, Op>, accepted: set<(Slot, int)>)
  {
    function With(p: nat, proc: Proc): System { this.(procs := procs[p := proc]) }

    function Next(id: nat, op: Op): System { this.(ops := ops[id := op]) }

    function Done(id: nat): System { this.(ops := ops - {id}) }
  }

  datatype Step =
    | Mark(id: nat, p: nat, slot: Slot, until: int, now: nat)
    | Put(id: nat, how: Write)
    | Ack(id: nat)
    | BeginRead(id: nat, p: nat, now: nat)
    | Read(id: nat, ok: bool)
    | Merge(id: nat)
    | BeginClear(id: nat, p: nat, ch: int)
    | Forget(id: nat)
    | List(id: nat, ok: bool)
    | Remove(id: nat, done: bool)
    | Restamp(id: nat)
    | ResetLocal(p: nat)
    | ResetRemote(p: nat)
    | Evict(slots: set<Slot>)

  /** Every process an operation runs in exists. */
  predicate WellFormed(s: System) {
    forall id | id in s.ops :: s.ops[id].p in s.procs
  }

  predicate Enabled(s: System, step: Step) {
    match step
    case Mark(id, p, _, until, now) => id !in s.ops && p in s.procs && until * SECOND > now
    case Put(id, _) => id in s.ops && s.ops[id].Marking?
    case Ack(id) => id in s.ops && s.ops[id].Acking?
    case BeginRead(id, p, now) => id !in s.ops && p in s.procs && s.procs[p].SnapshotDue(now)
    case Read(id, _) => id in s.ops && s.ops[id].Reading?
    case Merge(id) => id in s.ops && s.ops[id].Merging?
    case BeginClear(id, p, _) => id !in s.ops && p in s.procs
    case Forget(id) => id in s.ops && s.ops[id].Forgetting?
    case List(id, _) => id in s.ops && s.ops[id].Listing?
    case Remove(id, _) => id in s.ops && s.ops[id].Removing?
    case Restamp(id) => id in s.ops && s.ops[id].Restamping?
    case ResetLocal(p) => p in s.procs
    case ResetRemote(p) => p in s.procs
    case Evict(_) => true
  }

  /** The index after a mark's pipeline: the deadline set, past ones removed. */
  function Accepted(redis: map<Slot, int>, slot: Slot, until: int, now: nat): map<Slot, int> {
    Live(redis[slot := until], Unix(now))
  }

  function Apply(s: System, step: Step): System
    requires WellFormed(s) && Enabled(s, step)
  {
    match step
    case Mark(id, p, slot, until, now) =>
      s.With(p, s.procs[p].Marked(slot, until, now)).Next(id, Marking(p, slot, until, now))
    case Put(id, how) =>
      var op := s.ops[id];
      var t := if how.Failed? then s
               else s.(redis := Accepted(s.redis, op.slot, op.until, op.now), accepted := s.accepted + {(op.slot, op.until)});
      if how.Ok? then t.Next(id, Acking(op.p, op.slot, op.until, op.now)) else t.Done(id)
    case Ack(id) =>
      var op := s.ops[id];
      s.With(op.p, s.procs[op.p].Acknowledged(op.slot, op.until, op.now)).Done(id)
    case BeginRead(id, p, now) =>
      s.With(p, s.procs[p].(remoteAt := Some(now))).Next(id, Reading(p, now, s.procs[p].gen))
    case Read(id, ok) =>
      var op := s.ops[id];
      if ok then s.Next(id, Merging(op.p, op.now, op.startGen, Live(s.redis, Unix(op.now)))) else s.Done(id)
    case Merge(id) =>
      var op := s.ops[id];
      s.With(op.p, s.procs[op.p].Merged(op.entries, op.startGen, op.now)).Done(id)
    case BeginClear(id, p, ch) => s.With(p, s.procs[p].Stamped(ch)).Next(id, Forgetting(p, ch))
    case Forget(id) =>
      var op := s.ops[id];
      s.With(op.p, s.procs[op.p].Forgotten(op.ch)).Next(id, Listing(op.p, op.ch))
    case List(id, ok) =>
      var op := s.ops[id];
      if ok then s.Next(id, Removing(op.p, op.ch, set m | m in s.redis && m.channel == op.ch))
      else s.Next(id, Restamping(op.p, op.ch))
    case Remove(id, done) =>
      var op := s.ops[id];
      (if done then s.(redis := s.redis - op.members) else s).Next(id, Restamping(op.p, op.ch))
    case Restamp(id) =>
      var op := s.ops[id];
      s.With(op.p, s.procs[op.p].Stamped(op.ch)).Done(id)
    case ResetLocal(p) => s.With(p, s.procs[p].(local := map[], synced := map[]))
    case ResetRemote(p) => s.With(p, s.procs[p].(remote := map[], remoteAt := None))
    case Evict(slots) => s.(redis := s.redis - slots)
  }

  lemma StepKeepsWellFormed(s: System, step: Step)
    requires WellFormed(s) && Enabled(s, step)
    ensures WellFormed(Apply(s, step)) && Apply(s, step).procs.Keys == s.procs.Keys
  {}

  // ---------------------------------------------------------------- the invariant

  /** A deadline marked as synced is one the index took; deadlines are positive; no
      channel was cleared at a generation yet to come. */
  predicate Sound(proc: Proc, accepted: set<(Slot, int)>) {
    && (forall s | s in proc.local && s in proc.synced :: (s, proc.local[s]) in accepted)
    && (forall s | s in proc.local :: proc.local[s] > 0)
    && (forall ch | ch in proc.cleared :: proc.cleared[ch] <= proc.gen)
  }

  predicate OpSound(s: System, op: Op) {
    && op.p in s.procs
    && (op.Marking? || op.Acking? ==> op.until > 0)
    && (op.Acking? ==> (op.slot, op.until) in s.accepted)
    && (op.Reading? || op.Merging? ==> op.startGen <= s.procs[op.p].gen)
  }

  predicate Inv(s: System) {
    && (forall p | p in s.procs :: Sound(s.procs[p], s.accepted))
    && (forall id | id in s.ops :: OpSound(s, s.ops[id]))
  }

  predicate Start(s: System) {
    && s.ops == map[]
    && forall p | p in s.procs :: s.procs[p] == Proc(map[], map[], map[], None, 0, map[])
  }

  /** Each critical section keeps a sound process sound. */
  lemma SectionsStaySound(proc: Proc, acc: set<(Slot, int)>, slot: Slot, until: int, now: nat, entries: map<Slot, int>,
                          g: nat, ch: int)
    requires Sound(proc, acc)
    ensures until > 0 ==> Sound(proc.Marked(slot, until, now), acc)
    ensures (slot, until) in acc && until > 0 ==> Sound(proc.Acknowledged(slot, until, now), acc)
    ensures Sound(proc.Merged(entries, g, now), acc)
    ensures Sound(proc.Stamped(ch), acc)
    ensures Sound(proc.Forgotten(ch), acc)
  {}

  lemma ProcessUpdateKeepsInv(s: System, p: nat, proc: Proc)
    requires Inv(s) && p in s.procs && Sound(proc, s.accepted) && proc.gen >= s.procs[p].gen
    ensures Inv(s.With(p, proc))
  {
    var t := s.With(p, proc);
    forall id | id in t.ops
      ensures OpSound(t, t.ops[id])
    {
      assert OpSound(s, s.ops[id]);
    }
  }

  lemma OpUpdateKeepsInv(s: System, id: nat, op: Op)
    requires Inv(s) && OpSound(s, op)
    ensures Inv(s.Next(id, op)) && Inv(s.Done(id))
  {
    forall k, t | t in {s.Next(id, op), s.Done(id)} && k in t.ops
      ensures OpSound(t, t.ops[k])
    {
      assert k == id || OpSound(s, s.ops[k]);
    }
  }

  lemma AcceptingKeepsInv(s: System, redis: map<Slot, int>, slot: Slot, until: int)
    requires Inv(s)
    ensures Inv(s.(redis := redis, accepted := s.accepted + {(slot, until)})) && Inv(s.(redis := redis))
  {
    forall t, id | t in {s.(redis := redis, accepted := s.accepted + {(slot, until)}), s.(redis := redis)} && id in t.ops
      ensures OpSound(t, t.ops[id])
    {
      assert OpSound(s, s.ops[id]);
    }
  }

  lemma MarkKeepsInv(s: System, step: Step)
    requires Inv(s) && Enabled(s, step) && (step.Mark? || step.Ack?)
    ensures Inv(Apply(s, step))
  {
    match step
    case Mark(id, p, slot, until, now) =>
      var proc := s.procs[p].Marked(slot, until, now);
      SectionsStaySound(s.procs[p], s.accepted, slot, until, now, map[], 0, 0);
      ProcessUpdateKeepsInv(s, p, proc);
      OpUpdateKeepsInv(s.With(p, proc), id, Marking(p, slot, until, now));
    case Ack(id) =>
      var op := s.ops[id];
      SectionsStaySound(s.procs[op.p], s.accepted, op.slot, op.until, op.now, map[], 0, 0);
      ProcessUpdateKeepsInv(s, op.p, s.procs[op.p].Acknowledged(op.slot, op.until, op.now));
      OpUpdateKeepsInv(s.With(op.p, s.procs[op.p].Acknowledged(op.slot, op.until, op.now)), id, op);
  }

  lemma PutKeepsInv(s: System, id: nat, how: Write)
    requires Inv(s) && Enabled(s, Put(id, how))
    ensures Inv(Apply(s, Put(id, how)))
  {
    var op := s.ops[id];
    AcceptingKeepsInv(s, Accepted(s.redis, op.slot, op.until, op.now), op.slot, op.until);
    var t := if how.Failed? then s
             else s.(redis := Accepted(s.redis, op.slot, op.until, op.now), accepted := s.accepted + {(op.slot, op.until)});
    OpUpdateKeepsInv(t, id, if how.Ok? then Acking(op.p, op.slot, op.until, op.now) else op);
  }

  lemma RefreshKeepsInv(s: System, step: Step)
    requires Inv(s) && Enabled(s, step) && (step.BeginRead? || step.Read? || step.Merge?)
    ensures Inv(Apply(s, step))
  {
    match step
    case BeginRead(id, p, now) =>
      var proc := s.procs[p].(remoteAt := Some(now));
      ProcessUpdateKeepsInv(s, p, proc);
      OpUpdateKeepsInv(s.With(p, proc), id, Reading(p, now, proc.gen));
    case Read(id, ok) =>
      var op := s.ops[id];
      OpUpdateKeepsInv(s, id, Merging(op.p, op.now, op.startGen, Live(s.redis, Unix(op.now))));
    case Merge(id) =>
      var op := s.ops[id];
      SectionsStaySound(s.procs[op.p], s.accepted, Slot(0, 0), 0, op.now, op.entries, op.startGen, 0);
      ProcessUpdateKeepsInv(s, op.p, s.procs[op.p].Merged(op.entries, op.startGen, op.now));
      OpUpdateKeepsInv(s.With(op.p, s.procs[op.p].Merged(op.entries, op.startGen, op.now)), id, op);
  }

  lemma ClearKeepsInv(s: System, step: Step)
    requires Inv(s) && Enabled(s, step) && (step.BeginClear? || step.Forget? || step.Restamp?)
    ensures Inv(Apply(s, step))
  {
    match step
    case BeginClear(id, p, ch) =>
      SectionsStaySound(s.procs[p], s.accepted, Slot(0, 0), 0, 0, map[], 0, ch);
      ProcessUpdateKeepsInv(s, p, s.procs[p].Stamped(ch));
      OpUpdateKeepsInv(s.With(p, s.procs[p].Stamped(ch)), id, Forgetting(p, ch));
    case Forget(id) =>
      var op := s.ops[id];
      SectionsStaySound(s.procs[op.p], s.accepted, Slot(0, 0), 0, 0, map[], 0, op.ch);
      ProcessUpdateKeepsInv(s, op.p, s.procs[op.p].Forgotten(op.ch));
      OpUpdateKeepsInv(s.With(op.p, s.procs[op.p].Forgotten(op.ch)), id, Listing(op.p, op.ch));
    case Restamp(id) =>
      var op := s.ops[id];
      SectionsStaySound(s.procs[op.p], s.accepted, Slot(0, 0), 0, 0, map[], 0, op.ch);
      ProcessUpdateKeepsInv(s, op.p, s.procs[op.p].Stamped(op.ch));
      OpUpdateKeepsInv(s.With(op.p, s.procs[op.p].Stamped(op.ch)), id, op);
  }

  lemma OtherStepKeepsInv(s: System, step: Step)
    requires Inv(s) && Enabled(s, step)
    requires step.List? || step.Remove? || step.ResetLocal? || step.ResetRemote? || step.Evict?
    ensures Inv(Apply(s, step))
  {
    match step
    case List(id, ok) =>
      var op := s.ops[id];
      OpUpdateKeepsInv(s, id, if ok then Removing(op.p, op.ch, set m | m in s.redis && m.channel == op.ch)
                              else Restamping(op.p, op.ch));
    case Remove(id, done) =>
      var op := s.ops[id];
      var t := if done then s.(redis := s.redis - op.members) else s;
      AcceptingKeepsInv(s, t.redis, Slot(0, 0), 0);
      OpUpdateKeepsInv(t, id, Restamping(op.p, op.ch));
    case ResetLocal(p) => ProcessUpdateKeepsInv(s, p, s.procs[p].(local := map[], synced := map[]));
    case ResetRemote(p) => ProcessUpdateKeepsInv(s, p, s.procs[p].(remote := map[], remoteAt := None));
    case Evict(slots) => AcceptingKeepsInv(s, s.redis - slots, Slot(0, 0), 0);
  }

  /** Every step of every operation keeps the invariant. */
  lemma StepKeepsInv(s: System, step: Step)
    requires Inv(s) && Enabled(s, step)
    ensures Inv(Apply(s, step))
  {
    if step.Mark? || step.Ack? {
      MarkKeepsInv(s, step);
    } else if step.Put? {
      PutKeepsInv(s, step.id, step.how);
    } else if step.BeginRead? || step.Read? || step.Merge? {
      RefreshKeepsInv(s, step);
    } else if step.BeginClear? || step.Forget? || step.Restamp? {
      ClearKeepsInv(s, step);
    } else {
      OtherStepKeepsInv(s, step);
    }
  }

  // ---------------------------------------------------------------- runs

  predicate Possible(s: System, steps: seq<Step>)
    decreases |steps|
  {
    steps == [] || (WellFormed(s) && Enabled(s, steps[0]) && Possible(Apply(s, steps[0]), steps[1..]))
  }

  function After(s: System, steps: seq<Step>): System
    requires Possible(s, steps)
    decreases |steps|
  {
    if steps == [] then s else After(Apply(s, steps[0]), steps[1..])
  }

  lemma {:induction false} RunKeepsInv(s: System, steps: seq<Step>)
    requires Inv(s) && Possible(s, steps)
    ensures Inv(After(s, steps))
    decreases |steps|
  {
    if steps != [] {
      StepKeepsInv(s, steps[0]);
      RunKeepsInv(Apply(s, steps[0]), steps[1..]);
    }
  }

  lemma {:induction false} AcceptedGrows(s: System, steps: seq<Step>)
    requires Possible(s, steps)
    ensures s.accepted <= After(s, steps).accepted && After(s, steps).procs.Keys == s.procs.Keys
    decreases |steps|
  {
    if steps != [] {
      StepKeepsWellFormed(s, steps[0]);
      AcceptedGrows(Apply(s, steps[0]), steps[1..]);
    }
  }

  // ---------------------------------------------------------------- what a snapshot may discard

  /** In every run, a snapshot takes a deadline out of a process's own map only if the
      index once took exactly that deadline. */
  lemma {:induction false} DiscardsOnlyAccepted(s0: System, steps: seq<Step>, id: nat, slot: Slot)
    requires Start(s0) && Possible(s0, steps)
    requires Enabled(After(s0, steps), Merge(id)) && WellFormed(After(s0, steps))
    requires var s := After(s0, steps); slot in s.procs[s.ops[id].p].local
    requires var s := After(s0, steps); slot !in Apply(s, Merge(id)).procs[s.ops[id].p].local
    ensures var s := After(s0, steps); (slot, s.procs[s.ops[id].p].local[slot]) in s.accepted
  {
    RunKeepsInv(s0, steps);
    var s := After(s0, steps);
    assert Sound(s.procs[s.ops[id].p], s.accepted);
  }

  predicate Holds(s: System, p: nat, slot: Slot, until: int) {
    p in s.procs && slot in s.procs[p].local && s.procs[p].local[slot] == until
  }

  /** The process re-marks the slot, prunes it as past, clears its channel or resets. */
  predicate Disturbs(s: System, step: Step, p: nat, slot: Slot, until: int)
    requires Enabled(s, step)
  {
    match step
    case Mark(_, q, other, _, now) => q == p && (other == slot || until <= Unix(now))
    case Forget(id) => s.ops[id].p == p && s.ops[id].ch == slot.channel
    case ResetLocal(q) => q == p
    case _ => false
  }

  predicate Undisturbed(s: System, steps: seq<Step>, p: nat, slot: Slot, until: int)
    requires Possible(s, steps)
    decreases |steps|
  {
    steps == [] ||
    (!Disturbs(s, steps[0], p, slot, until) && Undisturbed(Apply(s, steps[0]), steps[1..], p, slot, until))
  }

  /** The steps that write a process's own deadlines: the others leave them alone. */
  predicate WritesLocal(step: Step) {
    step.Mark? || step.Merge? || step.Forget? || step.ResetLocal?
  }

  lemma LocalStays(s: System, step: Step, p: nat)
    requires WellFormed(s) && Enabled(s, step) && p in s.procs && !WritesLocal(step)
    ensures p in Apply(s, step).procs && Apply(s, step).procs[p].local == s.procs[p].local
  {}

  lemma DeadlineStays(s: System, step: Step, p: nat, slot: Slot, until: int)
    requires Inv(s) && WellFormed(s) && Enabled(s, step) && Holds(s, p, slot, until)
    requires !Disturbs(s, step, p, slot, until) && (slot, until) !in s.accepted
    ensures Holds(Apply(s, step), p, slot, until)
  {
    assert Sound(s.procs[p], s.accepted);
    if !WritesLocal(step) {
      LocalStays(s, step, p);
    }
  }

  /** A deadline the index never took stays in force in its process, whatever the other
      operations do, until it is re-marked, cleared by hand, reset or past. */
  lemma {:induction false} NeverAcceptedStays(s: System, steps: seq<Step>, p: nat, slot: Slot, until: int)
    requires Inv(s) && Possible(s, steps) && Holds(s, p, slot, until)
    requires Undisturbed(s, steps, p, slot, until) && (slot, until) !in After(s, steps).accepted
    ensures Holds(After(s, steps), p, slot, until)
    ensures forall now: nat | Unix(now) < until :: After(s, steps).procs[p].CoolingUntil(slot, now) >= until
    decreases |steps|
  {
    if steps != [] {
      var t := Apply(s, steps[0]);
      AcceptedGrows(s, [steps[0]]);
      AcceptedGrows(t, steps[1..]);
      assert s.accepted <= t.accepted;
      DeadlineStays(s, steps[0], p, slot, until);
      StepKeepsInv(s, steps[0]);
      NeverAcceptedStays(t, steps[1..], p, slot, until);
    }
  }

  // ---------------------------------------------------------------- clears and stale snapshots

  /** The operation a step belongs to, if any. */
  predicate By(step: Step, id: nat) {
    match step
    case ResetLocal(_) => false
    case ResetRemote(_) => false
    case Evict(_) => false
    case _ => step.id == id
  }

  predicate NoneBy(steps: seq<Step>, id: nat) {
    forall step | step in steps :: !By(step, id)
  }

  predicate Refreshing(s: System, r: nat, p: nat) {
    r in s.ops && (s.ops[r].Reading? || s.ops[r].Merging?) && s.ops[r].p == p && p in s.procs
  }

  /** The refresh began before the channel's latest clear in its process. */
  predicate Stale(s: System, r: nat, p: nat, ch: int) {
    Refreshing(s, r, p) && s.procs[p].ClearedSince(ch, s.ops[r].startGen)
  }

  /** The steps that stamp a clear: the others leave generations alone. */
  predicate Stamps(step: Step) { step.BeginClear? || step.Restamp? }

  lemma GenerationsStay(s: System, step: Step, p: nat)
    requires WellFormed(s) && Enabled(s, step) && p in s.procs && !Stamps(step)
    ensures p in Apply(s, step).procs && Apply(s, step).procs[p].cleared == s.procs[p].cleared
  {}

  lemma ClearStays(s: System, step: Step, p: nat, ch: int, g: nat)
    requires WellFormed(s) && Enabled(s, step) && p in s.procs && s.procs[p].ClearedSince(ch, g)
    requires s.procs[p].cleared[ch] <= s.procs[p].gen
    ensures p in Apply(s, step).procs && Apply(s, step).procs[p].ClearedSince(ch, g)
  {
    if !Stamps(step) {
      GenerationsStay(s, step, p);
    }
  }

  /** A step of another operation leaves this one as it is. */
  lemma OtherOpStays(s: System, step: Step, r: nat)
    requires WellFormed(s) && Enabled(s, step) && !By(step, r) && r in s.ops
    ensures r in Apply(s, step).ops && Apply(s, step).ops[r] == s.ops[r]
  {}

  lemma StaleStays(s: System, step: Step, r: nat, p: nat, ch: int)
    requires Inv(s) && WellFormed(s) && Enabled(s, step) && Stale(s, r, p, ch)
    requires step != Merge(r) && step != Read(r, false)
    ensures Stale(Apply(s, step), r, p, ch)
  {
    assert Sound(s.procs[p], s.accepted);
    ClearStays(s, step, p, ch, s.ops[r].startGen);
    if By(step, r) {
      assert step == Read(r, true);
    } else {
      OtherOpStays(s, step, r);
    }
  }

  lemma {:induction false} StaleRun(s: System, steps: seq<Step>, r: nat, p: nat, ch: int)
    requires Inv(s) && Possible(s, steps) && Stale(s, r, p, ch)
    requires Merge(r) !in steps && Read(r, false) !in steps
    ensures Stale(After(s, steps), r, p, ch)
    decreases |steps|
  {
    if steps != [] {
      StaleStays(s, steps[0], r, p, ch);
      StepKeepsInv(s, steps[0]);
      StaleRun(Apply(s, steps[0]), steps[1..], r, p, ch);
    }
  }

  /** A snapshot under way in a process when a manual clear finishes there, and merged
      after any further steps, brings back no slot of that channel. */
  lemma {:induction false} SnapshotCannotUndoClear(s: System, c: nat, steps: seq<Step>, r: nat)
    requires Inv(s) && WellFormed(s) && Enabled(s, Restamp(c)) && Refreshing(s, r, s.ops[c].p)
    requires Possible(Apply(s, Restamp(c)), steps) && Merge(r) !in steps && Read(r, false) !in steps
    requires var t := After(Apply(s, Restamp(c)), steps); WellFormed(t) && Enabled(t, Merge(r))
    ensures var p, ch, t := s.ops[c].p, s.ops[c].ch, After(Apply(s, Restamp(c)), steps);
            var u := Apply(t, Merge(r));
            && p in u.procs && p in t.procs
            && (forall slot | slot in u.procs[p].remote :: slot.channel != ch)
            && (forall slot | slot in u.procs[p].local :: slot in t.procs[p].local)
  {
    var p, ch := s.ops[c].p, s.ops[c].ch;
    assert OpSound(s, s.ops[r]) && Sound(s.procs[p], s.accepted);
    assert Stale(Apply(s, Restamp(c)), r, p, ch);
    StepKeepsInv(s, Restamp(c));
    StaleRun(Apply(s, Restamp(c)), steps, r, p, ch);
  }

  // ---------------------------------------------------------------- clears where they are made

  /** A mark of the channel or a merge, in process `p`: all that can cool it again there. */
  predicate Recools(s: System, step: Step, p: nat, ch: int)
    requires Enabled(s, step)
  {
    (step.Mark? && step.p == p && step.slot.channel == ch) || (step.Merge? && s.ops[step.id].p == p)
  }

  predicate NeverRecooled(s: System, steps: seq<Step>, p: nat, ch: int)
    requires Possible(s, steps)
    decreases |steps|
  {
    steps == [] || (!Recools(s, steps[0], p, ch) && NeverRecooled(Apply(s, steps[0]), steps[1..], p, ch))
  }

  /** No slot of the channel cools in the process. */
  ghost predicate Lifted(s: System, p: nat, ch: int) {
    p in s.procs && forall slot: Slot, now: nat | slot.channel == ch :: s.procs[p].CoolingUntil(slot, now) == 0
  }

  lemma StaysLifted(s: System, step: Step, p: nat, ch: int)
    requires WellFormed(s) && Enabled(s, step) && Lifted(s, p, ch) && !Recools(s, step, p, ch)
    ensures Lifted(Apply(s, step), p, ch)
  {
    var t := Apply(s, step);
    forall slot: Slot, now: nat | slot.channel == ch
      ensures t.procs[p].CoolingUntil(slot, now) == 0
    {
      assert s.procs[p].CoolingUntil(slot, now) == 0;
    }
  }

  lemma {:induction false} LiftedRun(s: System, steps: seq<Step>, p: nat, ch: int)
    requires Possible(s, steps) && Lifted(s, p, ch) && NeverRecooled(s, steps, p, ch)
    ensures Lifted(After(s, steps), p, ch)
    decreases |steps|
  {
    if steps != [] {
      StaysLifted(s, steps[0], p, ch);
      LiftedRun(Apply(s, steps[0]), steps[1..], p, ch);
    }
  }

  /** A manual clear takes effect at once and lasts: from its local section on, no slot of
      the channel cools in that process, whatever runs, until the channel is marked there
      or a refresh merges.  Slots of other channels keep their cooldown. */
  lemma {:induction false} ClearLasts(s: System, c: nat, steps: seq<Step>)
    requires WellFormed(s) && Enabled(s, Forget(c)) && Possible(Apply(s, Forget(c)), steps)
    requires NeverRecooled(Apply(s, Forget(c)), steps, s.ops[c].p, s.ops[c].ch)
    ensures Lifted(After(Apply(s, Forget(c)), steps), s.ops[c].p, s.ops[c].ch)
    ensures var p, ch := s.ops[c].p, s.ops[c].ch;
            forall slot: Slot, now: nat | slot.channel != ch ::
              Apply(s, Forget(c)).procs[p].CoolingUntil(slot, now) == s.procs[p].CoolingUntil(slot, now)
  {
    var p, ch := s.ops[c].p, s.ops[c].ch;
    forall slot: Slot, now: nat
      ensures s.procs[p].Forgotten(ch).CoolingUntil(slot, now)
           == if slot.channel == ch then 0 else s.procs[p].CoolingUntil(slot, now)
    {
      ClearLifts(s.procs[p], ch, slot, now);
    }
    LiftedRun(Apply(s, Forget(c)), steps, p, ch);
  }

  // ---------------------------------------------------------------- clears and other replicas

  /** The step belongs to a mark of the channel. */
  predicate Marks(s: System, step: Step, ch: int)
    requires Enabled(s, step)
  {
    match step
    case Mark(_, _, slot, _, _) => slot.channel == ch
    case Put(id, _) => s.ops[id].slot.channel == ch
    case Ack(id) => s.ops[id].slot.channel == ch
    case _ => false
  }

  predicate Unmarked(s: System, steps: seq<Step>, ch: int)
    requires Possible(s, steps)
    decreases |steps|
  {
    steps == [] || (!Marks(s, steps[0], ch) && Unmarked(Apply(s, steps[0]), steps[1..], ch))
  }

  /** Every slot of the channel in the index is one of `members`. */
  predicate Covers(redis: map<Slot, int>, ch: int, members: set<Slot>) {
    forall slot | slot in redis && slot.channel == ch :: slot in members
  }

  /** What replica `q` may still hold of a slot once synced at `stamp`: nothing of its
      own, or the deadline with that stamp. */
  predicate SyncedOrGone(s: System, q: nat, slot: Slot, stamp: nat) {
    q in s.procs && (slot in s.procs[q].local ==> slot in s.procs[q].synced && s.procs[q].synced[slot] == stamp)
  }

  lemma QuietIndex(s: System, step: Step, ch: int, members: set<Slot>)
    requires WellFormed(s) && Enabled(s, step) && !Marks(s, step, ch) && Covers(s.redis, ch, members)
    ensures Covers(Apply(s, step).redis, ch, members)
  {}

  lemma QuietReplica(s: System, step: Step, q: nat, slot: Slot, stamp: nat)
    requires WellFormed(s) && Enabled(s, step) && !Marks(s, step, slot.channel) && SyncedOrGone(s, q, slot, stamp)
    ensures SyncedOrGone(Apply(s, step), q, slot, stamp)
  {}

  lemma {:induction false} QuietRun(s: System, steps: seq<Step>, q: nat, slot: Slot, stamp: nat, members: set<Slot>, r: nat)
    requires Possible(s, steps) && Unmarked(s, steps, slot.channel) && NoneBy(steps, r)
    ensures Covers(s.redis, slot.channel, members) ==> Covers(After(s, steps).redis, slot.channel, members)
    ensures SyncedOrGone(s, q, slot, stamp) ==> SyncedOrGone(After(s, steps), q, slot, stamp)
    ensures r in s.ops ==> r in After(s, steps).ops && After(s, steps).ops[r] == s.ops[r]
    decreases |steps|
  {
    if steps != [] {
      if Covers(s.redis, slot.channel, members) {
        QuietIndex(s, steps[0], slot.channel, members);
      }
      if SyncedOrGone(s, q, slot, stamp) {
        QuietReplica(s, steps[0], q, slot, stamp);
      }
      if r in s.ops {
        OtherOpStays(s, steps[0], r);
      }
      QuietRun(Apply(s, steps[0]), steps[1..], q, slot, stamp, members, r);
    }
  }

  /** A clear's Redis leg empties the index of the channel, if no mark of the channel
      runs between its read and its removal. */
  lemma {:induction false} ClearEmptiesIndex(s: System, c: nat, steps: seq<Step>)
    requires WellFormed(s) && Enabled(s, List(c, true))
    requires Possible(Apply(s, List(c, true)), steps)
    requires Unmarked(Apply(s, List(c, true)), steps, s.ops[c].ch) && NoneBy(steps, c)
    ensures var t := After(Apply(s, List(c, true)), steps);
            Enabled(t, Remove(c, true)) && (WellFormed(t) ==> Covers(Apply(t, Remove(c, true)).redis, s.ops[c].ch, {}))
  {
    var members := set m | m in s.redis && m.channel == s.ops[c].ch;
    QuietRun(Apply(s, List(c, true)), steps, 0, Slot(s.ops[c].ch, 0), 0, members, c);
  }

  /** A merge drops a slot its snapshot does not list and that was synced before. */
  lemma MergeDropsSlot(s: System, r: nat, q: nat, slot: Slot, stamp: nat)
    requires Inv(s) && WellFormed(s) && Enabled(s, Merge(r)) && s.ops[r].p == q && slot !in s.ops[r].entries
    requires SyncedOrGone(s, q, slot, stamp) && stamp < s.ops[r].now
    ensures q in Apply(s, Merge(r)).procs
    ensures slot !in Apply(s, Merge(r)).procs[q].local && slot !in Apply(s, Merge(r)).procs[q].remote
  {
    assert Sound(s.procs[q], s.accepted);
  }

  /** A read taken while the index holds nothing of the channel lists nothing of it. */
  lemma ReadSeesNothing(s: System, r: nat, q: nat, slot: Slot, stamp: nat)
    requires Inv(s) && WellFormed(s) && Enabled(s, Read(r, true)) && Covers(s.redis, slot.channel, {})
    requires SyncedOrGone(s, q, slot, stamp)
    ensures Inv(Apply(s, Read(r, true))) && SyncedOrGone(Apply(s, Read(r, true)), q, slot, stamp)
    ensures var op := Apply(s, Read(r, true)).ops[r];
            op.Merging? && op.p == s.ops[r].p && op.now == s.ops[r].now && slot !in op.entries
  {
    StepKeepsInv(s, Read(r, true));
  }

  /** Once the index holds nothing of the channel, any replica's next refresh (begun in
      `s`, reading in `s2`, merging in `s4`) also drops what it had synced earlier,
      unless a mark of the channel arrives meanwhile. */
  lemma {:induction false} RefreshDropsCleared(s: System, r: nat, q: nat, now: nat, a: seq<Step>, s2: System,
                                               b: seq<Step>, s4: System, slot: Slot)
    requires Inv(s) && WellFormed(s) && Covers(s.redis, slot.channel, {}) && Enabled(s, BeginRead(r, q, now))
    requires slot in s.procs[q].synced && s.procs[q].synced[slot] < now
    requires var s1 := Apply(s, BeginRead(r, q, now));
             Possible(s1, a) && Unmarked(s1, a, slot.channel) && NoneBy(a, r) && s2 == After(s1, a)
    requires WellFormed(s2) && Enabled(s2, Read(r, true))
    requires var s3 := Apply(s2, Read(r, true));
             Possible(s3, b) && Unmarked(s3, b, slot.channel) && NoneBy(b, r) && s4 == After(s3, b)
    requires WellFormed(s4) && Enabled(s4, Merge(r))
    ensures q in Apply(s4, Merge(r)).procs
    ensures slot !in Apply(s4, Merge(r)).procs[q].local && slot !in Apply(s4, Merge(r)).procs[q].remote
  {
    var stamp, s1, s3 := s.procs[q].synced[slot], Apply(s, BeginRead(r, q, now)), Apply(s2, Read(r, true));
    StepKeepsInv(s, BeginRead(r, q, now));
    assert s1.ops[r].p == q && s1.ops[r].now == now && SyncedOrGone(s1, q, slot, stamp);
    QuietRun(s1, a, q, slot, stamp, {}, r);
    RunKeepsInv(s1, a);
    ReadSeesNothing(s2, r, q, slot, stamp);
    QuietRun(s3, b, q, slot, stamp, {}, r);
    RunKeepsInv(s3, b);
    MergeDropsSlot(s4, r, q, slot, stamp);
  }

  // ---------------------------------------------------------------- when a refresh drops a deadline

  /** Steps of other operations leave an operation as it is. */
  lemma {:induction false} OpStays(s: System, steps: seq<Step>, r: nat)
    requires Possible(s, steps) && NoneBy(steps, r) && r in s.ops
    ensures r in After(s, steps).ops && After(s, steps).ops[r] == s.ops[r]
    decreases |steps|
  {
    if steps != [] {
      OtherOpStays(s, steps[0], r);
      OpStays(Apply(s, steps[0]), steps[1..], r);
    }
  }

  /** Exactly when a refresh, reading in `s` and merging in `t`, takes a deadline that is
      still ahead out of its process's map: it was synced by a mark begun before the
      refresh, and either the index listed less when it was read, or the channel was
      cleared since the refresh began. */
  lemma {:induction false} DropsIff(s: System, r: nat, steps: seq<Step>, t: System, slot: Slot, until: int)
    requires WellFormed(s) && Enabled(s, Read(r, true))
    requires Possible(Apply(s, Read(r, true)), steps) && NoneBy(steps, r) && t == After(Apply(s, Read(r, true)), steps)
    requires WellFormed(t) && Holds(t, s.ops[r].p, slot, until) && until > Unix(s.ops[r].now)
    ensures Enabled(t, Merge(r)) && s.ops[r].p in Apply(t, Merge(r)).procs
    ensures var op, proc := s.ops[r], t.procs[s.ops[r].p];
            slot !in Apply(t, Merge(r)).procs[op.p].local <==>
              && slot in proc.synced && proc.synced[slot] < op.now
              && (At(s.redis, slot) < until || proc.ClearedSince(slot.channel, op.startGen))
  {
    OpStays(Apply(s, Read(r, true)), steps, r);
    var op, proc := t.ops[r], t.procs[s.ops[r].p];
    assert op == Merging(s.ops[r].p, s.ops[r].now, s.ops[r].startGen, Live(s.redis, Unix(s.ops[r].now)));
    assert At(proc.Snapshot(op.entries, op.startGen), slot) < until
      <==> At(s.redis, slot) < until || proc.ClearedSince(slot.channel, op.startGen);
  }

  lemma {:induction false} Prepend(s: System, step: Step, rest: seq<Step>)
    requires WellFormed(s) && Enabled(s, step) && Possible(Apply(s, step), rest)
    ensures Possible(s, [step] + rest) && After(s, [step] + rest) == After(Apply(s, step), rest)
  {
    assert ([step] + rest)[1..] == rest;
  }

  /** A mark of `slot` begun at `m` in process 0, with a refresh that began at `r` and has
      read an empty index. */
  function Overtaken(slot: Slot, until: int, m: nat, r: nat): System {
    System(map[0 := Proc(map[slot := until], map[], map[], Some(r), 0, map[])], map[],
           map[0 := Marking(0, slot, until, m), 1 := Merging(0, r, 0, map[])], {})
  }

  lemma OvertakenIsReachable(slot: Slot, until: int, m: nat, r: nat) returns (s0: System, steps: seq<Step>)
    requires m < until * SECOND
    ensures Start(s0) && Possible(s0, steps) && After(s0, steps) == Overtaken(slot, until, m, r)
  {
    s0 := System(map[0 := Proc(map[], map[], map[], None, 0, map[])], map[], map[], {});
    var mark, read := Mark(0, 0, slot, until, m), BeginRead(1, 0, r);
    var s1 := Apply(s0, mark);
    var s2 := Apply(s1, read);
    assert s2.procs[0].local == map[slot := until];
    assert Apply(s2, Read(1, true)) == Overtaken(slot, until, m, r);
    Prepend(s2, Read(1, true), []);
    Prepend(s1, read, [Read(1, true)]);
    Prepend(s0, mark, [read] + [Read(1, true)]);
    steps := [mark] + ([read] + [Read(1, true)]);
  }

  /** A mark's sync stamp is taken when the mark starts.  A refresh that starts later but
      reads before the mark's Redis write drops the deadline, though the index lists
      it: the slot reads as free until the next refresh. */
  lemma FreshMarkCanBeDropped(slot: Slot, until: int, m: nat, r: nat) returns (steps: seq<Step>)
    requires m < r && m < until * SECOND
    ensures Possible(Overtaken(slot, until, m, r), steps)
    ensures var s := After(Overtaken(slot, until, m, r), steps);
            0 in s.procs && At(s.redis, slot) == until && forall now :: s.procs[0].CoolingUntil(slot, now) == 0
  {
    var s := Overtaken(slot, until, m, r);
    var s1 := Apply(s, Put(0, Ok));
    assert s1.redis == map[slot := until];
    var s2 := Apply(s1, Ack(0));
    assert s2.procs[0].local == map[slot := until] && s2.procs[0].synced == map[slot := m];
    Prepend(s2, Merge(1), []);
    Prepend(s1, Ack(0), [Merge(1)]);
    Prepend(s, Put(0, Ok), [Ack(0)] + [Merge(1)]);
    steps := [Put(0, Ok)] + ([Ack(0)] + [Merge(1)]);
  }
}

/** Any number of requests racing on one user balance and one limited key.

    A pre-consume debits the key, then the user, each by a conditional UPDATE; a
    refused user debit rolls the key back.  An admitted call is later settled at its
    cost, user first and without any condition; a refund is a settlement at cost 0.
    Steps of different calls interleave arbitrarily, and every write may fail. */
module FreezeRace {

  /** Where a call stands.  `KeyStranded` is a refused call whose rollback failed;
      `HalfSettled` a settlement that has only reached the user. */
  datatype Phase =
    | Arrived | KeyTaken | Frozen | Undoing | Refused | KeyStranded
    | HalfSettled(cost: nat) | Settled(cost: nat)

  datatype Call = Call(amount: nat, phase: Phase)
  {
    /** What the call has taken from the user, frozen or spent. */
    function OnUser(): nat {
      match phase
      case Frozen => amount
      case HalfSettled(cost) => cost
      case Settled(cost) => cost
      case _ => 0
    }

    /** What it has taken from the key. */
    function OnKey(): nat {
      match phase
      case Arrived => 0
      case Refused => 0
      case Settled(cost) => cost
      case _ => amount
    }
  }

  datatype State = State(user: int, key: int, calls: seq<Call>)

  datatype Step =
    | Arrive(amount: nat)
    | Refuse(i: nat)
    | TakeKey(i: nat, write: bool)
    | TakeUser(i: nat, write: bool)
    | UndoKey(i: nat, write: bool)
    | SettleUser(i: nat, cost: nat)
    | SettleKey(i: nat, write: bool)

  predicate At(s: State, i: nat, phase: Phase) {
    i < |s.calls| && s.calls[i].phase == phase
  }

  predicate Halfway(s: State, i: nat) {
    i < |s.calls| && s.calls[i].phase.HalfSettled?
  }

  function To(s: State, i: nat, phase: Phase): State
    requires i < |s.calls|
  {
    s.(calls := s.calls[i := s.calls[i].(phase := phase)])
  }

  /** A step of a call that is not at that point does nothing. */
  function Apply(s: State, step: Step): State {
    match step
    case Arrive(amount) => s.(calls := s.calls + [Call(amount, Arrived)])
    case Refuse(i) => if At(s, i, Arrived) then To(s, i, Refused) else s
    case TakeKey(i, write) =>
      if !At(s, i, Arrived) then s
      else if write && s.key >= s.calls[i].amount then To(s.(key := s.key - s.calls[i].amount), i, KeyTaken)
      else To(s, i, Refused)
    case TakeUser(i, write) =>
      if !At(s, i, KeyTaken) then s
      else if write && s.user >= s.calls[i].amount then To(s.(user := s.user - s.calls[i].amount), i, Frozen)
      else To(s, i, Undoing)
    case UndoKey(i, write) =>
      if !At(s, i, Undoing) then s
      else if write then To(s.(key := s.key + s.calls[i].amount), i, Refused)
      else To(s, i, KeyStranded)
    case SettleUser(i, cost) =>
      if !At(s, i, Frozen) then s
      else To(s.(user := s.user - (cost - s.calls[i].amount)), i, HalfSettled(cost))
    case SettleKey(i, write) =>
      if !Halfway(s, i) then s
      else
        var cost, amount := s.calls[i].phase.cost, s.calls[i].amount;
        if write then To(s.(key := s.key - (cost - amount)), i, Settled(cost))
        else To(s.(user := s.user + (cost - amount)), i, Frozen)  // compensation: unconditional
  }

  function Run(s: State, steps: seq<Step>): State
    decreases steps
  {
    if steps == [] then s else Run(Apply(s, steps[0]), steps[1..])
  }

  // ---------------------------------------------------------------- conservation

  function UserHeld(calls: seq<Call>): nat {
    if calls == [] then 0 else UserHeld(calls[..|calls| - 1]) + calls[|calls| - 1].OnUser()
  }

  function KeyHeld(calls: seq<Call>): nat {
    if calls == [] then 0 else KeyHeld(calls[..|calls| - 1]) + calls[|calls| - 1].OnKey()
  }

  lemma {:induction false} HeldUpdate(calls: seq<Call>, i: nat, c: Call)
    requires i < |calls|
    ensures UserHeld(calls[i := c]) == UserHeld(calls) - calls[i].OnUser() + c.OnUser()
    ensures KeyHeld(calls[i := c]) == KeyHeld(calls) - calls[i].OnKey() + c.OnKey()
  {
    var last := |calls| - 1;
    if i == last {
      assert calls[i := c][..last] == calls[..last];
    } else {
      HeldUpdate(calls[..last], i, c);
      assert calls[i := c][..last] == calls[..last][i := c];
    }
  }

  /** Balance plus everything taken from it, on each ledger. */
  function UserTotal(s: State): int { s.user + UserHeld(s.calls) }
  function KeyTotal(s: State): int { s.key + KeyHeld(s.calls) }

  /** A step moves the ledgers by what its call gave or took. */
  lemma StepMoves(s: State, step: Step)
    ensures var t := Apply(s, step);
            if step.Arrive? || step.i >= |s.calls| then t.user == s.user && t.key == s.key
            else
              && |t.calls| == |s.calls|
              && t.user - s.user == s.calls[step.i].OnUser() - t.calls[step.i].OnUser()
              && t.key - s.key == s.calls[step.i].OnKey() - t.calls[step.i].OnKey()
  {}

  /** A step moves no other call. */
  lemma StepKeepsOthers(s: State, step: Step)
    ensures var t := Apply(s, step);
            if step.Arrive? then t.calls == s.calls + [Call(step.amount, Arrived)]
            else if step.i >= |s.calls| then t.calls == s.calls
            else |t.calls| == |s.calls| && t.calls == s.calls[step.i := t.calls[step.i]]
  {}

  lemma {:induction false} StepConserves(s: State, step: Step)
    ensures UserTotal(Apply(s, step)) == UserTotal(s) && KeyTotal(Apply(s, step)) == KeyTotal(s)
  {
    StepMoves(s, step);
    StepKeepsOthers(s, step);
    if step.Arrive? {
      assert (s.calls + [Call(step.amount, Arrived)])[..|s.calls|] == s.calls;
    } else if step.i < |s.calls| {
      HeldUpdate(s.calls, step.i, Apply(s, step).calls[step.i]);
    }
  }

  /** In every interleaving, with any writes failing: user balance plus freezes and
      spending, and key balance plus freezes, spending, debits in flight and stranded
      debits, are constant. */
  lemma {:induction false} FreezesConserve(s: State, steps: seq<Step>)
    ensures var s' := Run(s, steps); UserTotal(s') == UserTotal(s) && KeyTotal(s') == KeyTotal(s)
    decreases steps
  {
    if steps != [] {
      StepConserves(s, steps[0]);
      FreezesConserve(Apply(s, steps[0]), steps[1..]);
    }
  }

  // ---------------------------------------------------------------- overdrafts

  /** The unconditional writes that find too little: a settlement above its freeze by
      more than the balance, and the compensation of one below its freeze. */
  predicate OverdrawsUser(s: State, step: Step) {
    match step
    case SettleUser(i, cost) => At(s, i, Frozen) && s.user + s.calls[i].amount < cost
    case SettleKey(i, write) => Halfway(s, i) && !write && s.user + s.calls[i].phase.cost < s.calls[i].amount
    case _ => false
  }

  predicate OverdrawsKey(s: State, step: Step) {
    step.SettleKey? && Halfway(s, step.i) && step.write && s.key + s.calls[step.i].amount < s.calls[step.i].phase.cost
  }

  /** A step takes a balance below zero exactly when it is such a write. */
  lemma OverdrawnIff(s: State, step: Step)
    ensures s.user >= 0 ==> (Apply(s, step).user < 0 <==> OverdrawsUser(s, step))
    ensures s.key >= 0 ==> (Apply(s, step).key < 0 <==> OverdrawsKey(s, step))
  {}

  /** Both balances are non-negative now and after every step. */
  predicate Solvent(s: State, steps: seq<Step>)
    decreases steps
  {
    s.user >= 0 && s.key >= 0 && (steps == [] || Solvent(Apply(s, steps[0]), steps[1..]))
  }

  /** No unconditional write of the run finds too little. */
  predicate Covered(s: State, steps: seq<Step>)
    decreases steps
  {
    steps == [] ||
    (!OverdrawsUser(s, steps[0]) && !OverdrawsKey(s, steps[0]) && Covered(Apply(s, steps[0]), steps[1..]))
  }

  /** Exactly when neither balance ever goes below zero, over every interleaving of
      pre-consumes, settlements and refunds. */
  lemma {:induction false} SolventIffCovered(s: State, steps: seq<Step>)
    requires s.user >= 0 && s.key >= 0
    ensures Solvent(s, steps) <==> Covered(s, steps)
    decreases steps
  {
    if steps != [] {
      OverdrawnIff(s, steps[0]);
      if !OverdrawsUser(s, steps[0]) && !OverdrawsKey(s, steps[0]) {
        SolventIffCovered(Apply(s, steps[0]), steps[1..]);
      }
    }
  }

  predicate Gate(step: Step) { !step.SettleUser? && !step.SettleKey? }

  /** In every interleaving of pre-consume calls alone, whatever fails, neither balance
      goes below zero. */
  lemma {:induction false} GateNeverOverdraws(s: State, steps: seq<Step>)
    requires s.user >= 0 && s.key >= 0 && forall step | step in steps :: Gate(step)
    ensures Solvent(s, steps)
    decreases steps
  {
    if steps != [] {
      assert Gate(steps[0]);
      OverdrawnIff(s, steps[0]);
      GateNeverOverdraws(Apply(s, steps[0]), steps[1..]);
    }
  }

  /** Every settlement of the run stays within its freeze. */
  predicate Frugal(s: State, steps: seq<Step>)
    decreases steps
  {
    steps == [] ||
    (&& (steps[0].SettleUser? && At(s, steps[0].i, Frozen) ==> steps[0].cost <= s.calls[steps[0].i].amount)
     && Frugal(Apply(s, steps[0]), steps[1..]))
  }

  predicate Within(s: State) {
    forall c | c in s.calls :: c.phase.HalfSettled? ==> c.phase.cost <= c.amount
  }

  /** If no settlement exceeds its freeze the key never goes below zero, compensated
      refunds included: only the user ledger is exposed to those. */
  lemma {:induction false} KeyNeverNegative(s: State, steps: seq<Step>)
    requires s.key >= 0 && Within(s) && Frugal(s, steps)
    ensures Run(s, steps).key >= 0
    decreases steps
  {
    if steps != [] {
      OverdrawnIff(s, steps[0]);
      assert Within(Apply(s, steps[0]));
      KeyNeverNegative(Apply(s, steps[0]), steps[1..]);
    }
  }

  /** A refund whose key write fails overdraws the user, when another call froze the
      money in between. */
  lemma CompensationOverdraws(amount: nat) returns (steps: seq<Step>)
    requires amount > 0
    ensures Run(State(amount, 2 * amount, []), steps).user == -(amount as int)
  {
    var s := State(amount, 2 * amount, []);
    var s1 := Apply(s, Arrive(amount));
    var s2 := Apply(s1, Arrive(amount));
    var s3 := Apply(s2, TakeKey(0, true));
    var s4 := Apply(s3, TakeUser(0, true));
    var s5 := Apply(s4, TakeKey(1, true));
    assert s5 == State(0, 0, [Call(amount, Frozen), Call(amount, KeyTaken)]);
    steps := RefundRace(amount);
    steps := Prepend(s4, TakeKey(1, true), steps);
    steps := Prepend(s3, TakeUser(0, true), steps);
    steps := Prepend(s2, TakeKey(0, true), steps);
    steps := Prepend(s1, Arrive(amount), steps);
    steps := Prepend(s, Arrive(amount), steps);
  }

  lemma RefundRace(amount: nat) returns (steps: seq<Step>)
    ensures Run(State(0, 0, [Call(amount, Frozen), Call(amount, KeyTaken)]), steps).user == -(amount as int)
  {
    var s := State(0, 0, [Call(amount, Frozen), Call(amount, KeyTaken)]);
    var s1 := Apply(s, SettleUser(0, 0));
    var s2 := Apply(s1, TakeUser(1, true));
    assert s2 == State(0, 0, [Call(amount, HalfSettled(0)), Call(amount, Frozen)]);
    steps := Prepend(s2, SettleKey(0, false), []);
    steps := Prepend(s1, TakeUser(1, true), steps);
    steps := Prepend(s, SettleUser(0, 0), steps);
  }

  /** A single request overdraws both ledgers, with every write landing: its cost
      exceeded the freeze by more than was left. */
  lemma SettlementOverdraws(freeze: nat, cost: nat) returns (steps: seq<Step>)
    requires freeze < cost
    ensures var s := Run(State(freeze, freeze, []), steps); s.user == freeze - cost && s.key == freeze - cost
  {
    var s := State(freeze, freeze, []);
    var s1 := Apply(s, Arrive(freeze));
    var s2 := Apply(s1, TakeKey(0, true));
    var s3 := Apply(s2, TakeUser(0, true));
    assert s3 == State(0, 0, [Call(freeze, Frozen)]);
    var s4 := Apply(s3, SettleUser(0, cost));
    steps := Prepend(s4, SettleKey(0, true), []);
    steps := Prepend(s3, SettleUser(0, cost), steps);
    steps := Prepend(s2, TakeUser(0, true), steps);
    steps := Prepend(s1, TakeKey(0, true), steps);
    steps := Prepend(s, Arrive(freeze), steps);
  }

  lemma {:induction false} Prepend(s: State, step: Step, rest: seq<Step>) returns (steps: seq<Step>)
    ensures Run(s, steps) == Run(Apply(s, step), rest)
  {
    steps := [step] + rest;
    assert steps[1..] == rest;
  }

  // ---------------------------------------------------------------- one call among others

  predicate Of(step: Step, i: nat) { !step.Arrive? && step.i == i }

  function Taken(s: State, i: nat): (nat, nat) {
    if i < |s.calls| then (s.calls[i].OnUser(), s.calls[i].OnKey()) else (0, 0)
  }

  /** What the steps of call `i` added to the user and the key over the run. */
  function Moved(s: State, steps: seq<Step>, i: nat): (int, int)
    decreases steps
  {
    if steps == [] then (0, 0)
    else
      var t := Apply(s, steps[0]);
      var rest := Moved(t, steps[1..], i);
      if Of(steps[0], i) then (t.user - s.user + rest.0, t.key - s.key + rest.1) else rest
  }

  lemma StepMovesWhatItTook(s: State, step: Step, i: nat)
    ensures var t := Apply(s, step);
            if Of(step, i) then t.user - s.user == Taken(s, i).0 - Taken(t, i).0 && t.key - s.key == Taken(s, i).1 - Taken(t, i).1
            else Taken(t, i) == Taken(s, i)
  {
    StepMoves(s, step);
    StepKeepsOthers(s, step);
  }

  /** In every interleaving a call moved the ledgers by exactly what it holds or spent. */
  lemma {:induction false} CallMovesWhatItTook(s: State, steps: seq<Step>, i: nat)
    ensures Moved(s, steps, i).0 == Taken(s, i).0 - Taken(Run(s, steps), i).0
    ensures Moved(s, steps, i).1 == Taken(s, i).1 - Taken(Run(s, steps), i).1
    decreases steps
  {
    if steps != [] {
      StepMovesWhatItTook(s, steps[0], i);
      CallMovesWhatItTook(Apply(s, steps[0]), steps[1..], i);
    }
  }

  /** A call refused with its rollback landed, or refunded, has moved neither ledger,
      whatever the other calls are doing. */
  lemma {:induction false} RefusedCallLeavesNoTrace(s: State, steps: seq<Step>, i: nat)
    requires i >= |s.calls|
    requires At(Run(s, steps), i, Refused) || At(Run(s, steps), i, Settled(0))
    ensures Moved(s, steps, i) == (0, 0)
  {
    CallMovesWhatItTook(s, steps, i);
  }
}

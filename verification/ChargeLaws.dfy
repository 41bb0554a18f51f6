/** What the charge path promises over whole requests and whole runs. */
module ChargeLaws {
  import opened ChargePath

  // ---------------------------------------------------------------- holds

  /** A call made on a request after admission, with its failures. */
  datatype Call = Settle(quota: int, pre: int, w: Weather, advisory: bool) | Refund(w: Weather, advisory: bool)

  function Step(p: Payer, b: Books, c: Call): Books {
    match c
    case Settle(quota, pre, w, advisory) => Posted(p, b, quota, pre, w, advisory)
    case Refund(w, advisory) => Returned(p, b, w, advisory)
  }

  function Run(p: Payer, b: Books, calls: seq<Call>): Books
    decreases calls
  {
    if calls == [] then b else Run(p, Step(p, b, calls[0]), calls[1..])
  }

  function HoldExits(exits: seq<Exit>): nat {
    if exits == [] then 0
    else HoldExits(exits[..|exits| - 1]) + (if exits[|exits| - 1].EndsHold() then 1 else 0)
  }

  /** Holds ended so far plus the one still open. */
  function Obligation(b: Books): nat {
    HoldExits(b.exits) + (if b.hold > 0 then 1 else 0)
  }

  lemma {:induction false} HoldExitsAppend(exits: seq<Exit>, x: Exit)
    ensures HoldExits(exits + [x]) == HoldExits(exits) + (if x.EndsHold() then 1 else 0)
  {
    assert (exits + [x])[..|exits|] == exits;
  }

  /** One wallet outcome at most, and if it ends a hold it names the open one. */
  ghost predicate OneExit(b: Books, b': Books) {
    || (b'.exits == b.exits && b'.hold == b.hold)
    || exists x: Exit :: b'.exits == b.exits + [x] && ExitFor(b.hold, b'.hold, x)
  }

  predicate ExitFor(hold: nat, hold': nat, x: Exit) {
    hold' == 0 && (if hold > 0 then x.EndsHold() && x.id == hold else !x.EndsHold())
  }

  lemma WalletLegEmitsOneExit(p: Payer, b: Books, total: int, pre: int, chargeable: bool, w: Weather)
    ensures OneExit(b, WalletSettled(p, b, total, pre, chargeable, w))
  {
    var b' := WalletSettled(p, b, total, pre, chargeable, w);
    if b'.exits != b.exits {
      var x := b'.exits[|b.exits|];
      assert b'.exits == b.exits + [x] && ExitFor(b.hold, b'.hold, x);
    }
  }

  /** Every call emits at most one outcome for the hold and closes it in the same
      call: none is lost, none is handled twice. */
  lemma StepEmitsOneExit(p: Payer, b: Books, c: Call)
    ensures OneExit(b, Step(p, b, c))
  {
    match c
    case Settle(quota, pre, w, advisory) =>
      PostEmitsOneExit(p, b, quota, pre, w, advisory);
    case Refund(w, advisory) =>
      var b1 := if b.frozen != 0 then Posted(p, b, 0 - b.frozen, 0, w, advisory) else b;
      assert b1.exits == b.exits && b1.hold == b.hold;
      var b' := Abandoned(b1, w.release, w.releasePark);
      if b.hold > 0 {
        var x := ReleaseExit(b.hold, w.release, w.releasePark);
        assert b'.exits == b.exits + [x] && ExitFor(b.hold, b'.hold, x);
      }
  }

  lemma PostEmitsOneExit(p: Payer, b: Books, quota: int, pre: int, w: Weather, advisory: bool)
    ensures OneExit(b, Posted(p, b, quota, pre, w, advisory))
  {
    if !Aborted(p, w, advisory) {
      WalletLegEmitsOneExit(p, LocallyPosted(p, b, quota, quota + pre, w), quota + pre, pre, !KeyFailed(p, w) || advisory, w);
    }
  }

  /** Over every run of settlements and refunds, whatever fails: holds ended plus
      holds open never changes, the log only grows, and every exit added names the
      hold the run started with.  So a hold leaves exactly once. */
  lemma {:induction false} RunConservesHold(p: Payer, b: Books, calls: seq<Call>)
    ensures var b' := Run(p, b, calls);
            && Obligation(b') == Obligation(b)
            && b.exits <= b'.exits
            && b'.hold in {0, b.hold}
            && (forall i | |b.exits| <= i < |b'.exits| :: b'.exits[i].EndsHold() ==> b'.exits[i].id == b.hold)
    decreases calls
  {
    if calls != [] {
      var b1 := Step(p, b, calls[0]);
      StepEmitsOneExit(p, b, calls[0]);
      if b1.exits != b.exits {
        var x :| b1.exits == b.exits + [x] && ExitFor(b.hold, b1.hold, x);
        HoldExitsAppend(b.exits, x);
      }
      RunConservesHold(p, b1, calls[1..]);
      var b' := Run(p, b1, calls[1..]);
      if b1.hold != b.hold {
        NoHoldNoExit(b1, b');
      }
    }
  }

  /** Where the count of ended holds is already final, nothing ends one. */
  lemma {:induction false} NothingEnds(exits: seq<Exit>, n: nat, i: nat)
    requires n <= i < |exits| && HoldExits(exits[..n]) == HoldExits(exits)
    ensures !exits[i].EndsHold()
  {
    assert exits[..|exits|] == exits;
    HoldExitsMonotone(exits, n, i);
    HoldExitsMonotone(exits, i + 1, |exits|);
    assert exits[..i + 1][..i] == exits[..i];
  }

  /** With no open hold the count of ended ones is final, so nothing later ends one. */
  lemma {:induction false} NoHoldNoExit(b: Books, b': Books)
    requires b.hold == 0 && Obligation(b') == Obligation(b) && b.exits <= b'.exits
    ensures forall i | |b.exits| <= i < |b'.exits| :: !b'.exits[i].EndsHold()
  {
    var n := |b.exits|;
    assert b'.exits[..n] == b.exits && b'.exits[..|b'.exits|] == b'.exits;
    HoldExitsMonotone(b'.exits, n, |b'.exits|);
    forall i | n <= i < |b'.exits|
      ensures !b'.exits[i].EndsHold()
    {
      NothingEnds(b'.exits, n, i);
    }
  }

  /** Once the hold is gone no later call, whatever it is and whatever fails, ends one
      or opens one. */
  lemma {:induction false} NoLaterExit(p: Payer, b: Books, calls: seq<Call>)
    requires b.hold == 0
    ensures var b' := Run(p, b, calls);
            b'.hold == 0 && b.exits <= b'.exits && forall i | |b.exits| <= i < |b'.exits| :: !b'.exits[i].EndsHold()
  {
    RunConservesHold(p, b, calls);
    NoHoldNoExit(b, Run(p, b, calls));
  }

  lemma {:induction false} HoldExitsMonotone(exits: seq<Exit>, i: nat, j: nat)
    requires i <= j <= |exits|
    ensures HoldExits(exits[..i]) <= HoldExits(exits[..j])
    decreases j
  {
    if i < j {
      HoldExitsMonotone(exits, i, j - 1);
      assert exits[..j][..j - 1] == exits[..j - 1];
    }
  }

  lemma WalletLegDischargesHold(p: Payer, b: Books, total: int, pre: int, chargeable: bool, w: Weather)
    requires p.account > 0 && b.hold > 0
    ensures var b' := WalletSettled(p, b, total, pre, chargeable, w);
            && (b'.hold == 0 <==> total > 0 || pre > 0)
            && (b'.hold == 0 ==> HoldExits(b'.exits) == HoldExits(b.exits) + 1)
  {
    var b' := WalletSettled(p, b, total, pre, chargeable, w);
    if b'.hold == 0 {
      var x := b'.exits[|b.exits|];
      assert b'.exits == b.exits + [x] && x.EndsHold();
      HoldExitsAppend(b.exits, x);
    }
  }

  /** Exactly when a settlement call discharges the hold: unless phase 1 failed
      outside advisory mode, or it is a zero-usage call with nothing frozen.  It
      then emits exactly one exit. */
  lemma SettlementDischargesHold(p: Payer, b: Books, quota: int, pre: int, w: Weather, advisory: bool)
    requires p.account > 0 && b.hold > 0
    ensures var b' := Posted(p, b, quota, pre, w, advisory);
            && (b'.hold == 0 <==> !Aborted(p, w, advisory) && (quota + pre > 0 || pre > 0))
            && (b'.hold == 0 ==> HoldExits(b'.exits) == HoldExits(b.exits) + 1)
  {
    if !Aborted(p, w, advisory) {
      var local := LocallyPosted(p, b, quota, quota + pre, w);
      assert local.hold == b.hold && local.exits == b.exits;
      WalletLegDischargesHold(p, local, quota + pre, pre, !KeyFailed(p, w) || advisory, w);
    }
  }

  lemma RefundExits(p: Payer, b: Books, w: Weather, advisory: bool)
    requires b.hold > 0
    ensures var b' := Returned(p, b, w, advisory);
            b'.hold == 0 && b'.exits == b.exits + [ReleaseExit(b.hold, w.release, w.releasePark)]
  {}

  /** The refund always discharges the hold, and by a release. */
  lemma RefundDischargesHold(p: Payer, b: Books, w: Weather, advisory: bool)
    requires b.hold > 0
    ensures var b' := Returned(p, b, w, advisory);
            b'.hold == 0 && b'.exits == b.exits + [ReleaseExit(b.hold, w.release, w.releasePark)]
            && HoldExits(b'.exits) == HoldExits(b.exits) + 1
  {
    RefundExits(p, b, w, advisory);
    HoldExitsAppend(b.exits, ReleaseExit(b.hold, w.release, w.releasePark));
  }

  // ---------------------------------------------------------------- admission

  /** What the platform's answer does to the hold: one carried over from an earlier
      attempt is kept and no second one opened, a request that is not asked about, or is
      skipped, or passes degraded opens none, and a refusal leaves none. */
  lemma PlatformAnswer(p: Payer, hold: nat, amount: nat, e: PreWeather)
    ensures hold > 0 ==> Authorized(p, hold, amount, e) && Held(p, hold, amount, e) == hold
    ensures hold == 0 && (!e.unified || p.account == 0 || amount == 0 || e.skip) ==>
              Authorized(p, hold, amount, e) && Held(p, hold, amount, e) == 0
    ensures hold == 0 && e.unified && p.account > 0 && amount > 0 && !e.skip ==>
              && Held(p, hold, amount, e) == e.grant
              && (Authorized(p, hold, amount, e) <==> e.grant > 0 || e.degraded)
  {}

  /** What stands behind an admission: both caps, a read balance that covers the
      estimate, and either the whole estimate frozen on ledgers that had it or a balance
      and a key allowance both above the trust line.  Advisory mode waives the user
      balance only. */
  lemma AdmissionRestsOn(p: Payer, b: Books, b': Books, amount: nat, e: PreWeather, advisory: bool, v: Verdict)
    requires Reserved(p, b, b', amount, e, advisory, v) && v.Admit?
    ensures e.tenantOk && e.projectOk && b'.frozen in {0, amount}
    ensures p.userId > 0 ==> e.balanceRead && (advisory || (0 < e.balance && amount <= e.balance))
    ensures b'.frozen > 0 ==>
              && (p.playground || (e.keyWrite && (p.unlimited || (p.tokenId > 0 && b.key >= amount))))
              && (p.userId > 0 ==> e.userWrite && (advisory || b.user >= amount))
    ensures b'.frozen == 0 && amount > 0 && !advisory ==>
              (if p.userId > 0 then e.balance else 0) > e.trust && (p.unlimited || e.tokenQuota > e.trust)
  {}

  /** And what suffices for one.  Nothing but an unread balance, a cap or the key's own
      allowance refuses in advisory mode; the allowance refuses there too. */
  lemma AdmissionFollows(p: Payer, b: Books, b': Books, amount: nat, e: PreWeather, advisory: bool, v: Verdict)
    requires Reserved(p, b, b', amount, e, advisory, v)
    requires e.tenantOk && e.projectOk && (p.userId > 0 ==> e.balanceRead)
    ensures var keyCovers := p.playground || p.unlimited || (p.tokenId > 0 && b.key >= amount);
            var userCovers := p.userId > 0 ==> e.userWrite && 0 < e.balance && amount <= e.balance && amount <= b.user;
            var trusted := (if p.userId > 0 then e.balance else 0) > e.trust && (p.unlimited || e.tokenQuota > e.trust);
            && (keyCovers && advisory ==> v.Admit?)
            && (keyCovers && (p.playground || e.keyWrite) && userCovers ==> v.Admit?)
            && (!keyCovers && e.keyWrite && amount > 0 && !trusted ==> !v.Admit?)
            && (!advisory && p.userId > 0 && (e.balance <= 0 || e.balance < amount) ==> !v.Admit?)
  {}

  /** What an admission takes: the freeze, from each ledger the payer has, and nothing
      else; the hold stays open.  Only an advisory request whose user write failed can
      leave more behind, when its key rollback failed too. */
  lemma AdmissionTakes(p: Payer, b: Books, b': Books, amount: nat, e: PreWeather, advisory: bool, v: Verdict)
    requires Reserved(p, b, b', amount, e, advisory, v) && v.Admit?
    requires p.userId == 0 || e.userWrite || !advisory || (p.KeyLeg() && e.rollback)
    ensures b'.user == b.user - (if p.userId > 0 then b'.frozen else 0)
    ensures b'.key == b.key - (if p.tokenId > 0 && !p.playground then b'.frozen else 0)
    ensures b'.hold == b.hold && b'.exits == b.exits && b'.pool == b.pool && b'.draws == b.draws
    ensures b'.daily == b.daily && b'.charge == b.charge
  {}

  /** What a refusal leaves: every ledger as it was, for a payer with a key row, if the
      rollback it may need lands.  The hold is given up, except by a request whose balance
      could not be read. */
  lemma RefusalLeavesNothing(p: Payer, b: Books, b': Books, amount: nat, e: PreWeather, advisory: bool, v: Verdict)
    requires Reserved(p, b, b', amount, e, advisory, v) && !v.Admit? && p.KeyLeg() && e.rollback
    ensures b'.user == b.user && b'.key == b.key && b'.pool == b.pool && b'.daily == b.daily && b'.charge == b.charge
    ensures b'.hold == (if p.userId > 0 && !e.balanceRead then b.hold else 0)
    ensures b.hold > 0 && b'.hold == 0 ==> |b'.exits| == |b.exits| + 1 && b'.exits[|b.exits|].EndsHold()
  {}

  // ---------------------------------------------------------------- outcomes

  /** What the wallet log says happened did happen.  A settlement call that charges adds
      one outcome for the whole cost: settled exactly when the settle call succeeded,
      parked exactly when it failed and the outbox took it, and likewise for the direct
      debit of a request with no hold.  One that does not charge releases the hold. */
  lemma SettlementOutcome(p: Payer, b: Books, quota: int, pre: int, w: Weather, advisory: bool)
    requires p.account > 0 && (p.UserLeg() ==> w.userWrite || advisory)
    ensures var b' := Posted(p, b, quota, pre, w, advisory);
            var n, total := |b.exits|, quota + pre;
            var charged := total > 0 && (!p.KeyLeg() || w.keyWrite || advisory);
            if charged then
              && |b'.exits| == n + 1 && b'.exits[..n] == b.exits && b'.charge == total && b'.hold == 0
              && var x := b'.exits[n];
                 if b.hold > 0 then
                   && (x == Settled(b.hold, total) <==> w.settle)
                   && (x == SettleParked(b.hold, total) <==> !w.settle && w.settlePark)
                   && (x == SettleLost(b.hold, total) <==> !w.settle && !w.settlePark)
                 else
                   && (x == Debited(total) <==> w.debit)
                   && (x == DebitParked(total) <==> !w.debit && w.debitPark)
                   && (x == DebitLost(total) <==> !w.debit && !w.debitPark)
            else
              b'.charge == b.charge && (b.hold == 0 ==> b'.exits == b.exits)
  {
  }

  /** The same for a refund: the hold is released, parked or lost as the calls went. */
  lemma RefundOutcome(p: Payer, b: Books, w: Weather, advisory: bool)
    requires b.hold > 0
    ensures var b' := Returned(p, b, w, advisory);
            var n := |b.exits|;
            && |b'.exits| == n + 1 && b'.exits[..n] == b.exits && b'.hold == 0 && b'.charge == b.charge
            && (b'.exits[n] == Released(b.hold) <==> w.release)
            && (b'.exits[n] == ReleaseParked(b.hold) <==> !w.release && w.releasePark)
            && (b'.exits[n] == ReleaseLost(b.hold) <==> !w.release && !w.releasePark)
  {
    RefundExits(p, b, w, advisory);
  }

  // ---------------------------------------------------------------- money

  /** The payer's tenant pool is charged. */
  predicate Pooled(p: Payer) { p.gated && p.tokenId > 0 }

  /** Every local write of a settlement lands. */
  predicate Landed(p: Payer, w: Weather) {
    && (p.UserLeg() ==> w.userWrite && w.dailyWrite)
    && (p.KeyLeg() ==> w.keyWrite)
    && (Pooled(p) ==> w.poolLookup && w.poolDebit && w.overdraft)
  }

  /** From `b` to `b'`, each ledger the payer has moved by `total`: the user and the
      daily counter if there is a user, the key if there is a key, the pool if it is
      gated.  A ledger the payer does not have did not move. */
  predicate Moved(p: Payer, b: Books, b': Books, total: int) {
    && b'.user == b.user - (if p.userId > 0 then total else 0)
    && b'.daily == b.daily + (if p.userId > 0 then total else 0)
    && b'.key == b.key - (if p.tokenId > 0 && !p.playground then total else 0)
    && b'.pool == b.pool - (if p.tokenId > 0 && p.gated then total else 0)
  }

  /** The pool's draw ledger grew by one row for `cost`: a debit exactly when the
      balance covered it, otherwise an overdraft. */
  predicate DrawnFor(p: Payer, b: Books, b': Books, cost: int) {
    b'.draws == b.draws + if p.tokenId > 0 && p.gated then [if b.pool >= cost then RelayDebit(cost) else Overdraft(cost)] else []
  }

  /** Pre-consume, then settle at cost `cost`, for every payer, tenant-scoped keys
      included: each ledger moves by exactly the cost, whatever was frozen, a gated pool
      by one draw row, and a payer with a wallet is charged once. */
  lemma ChargedOnce(p: Payer, b: Books, freeze: nat, id: nat, cost: nat, w: Weather, advisory: bool)
    requires cost > 0 && Landed(p, w) && b.hold == 0
    ensures var b' := Posted(p, Admitted(p, b, freeze, id), cost - freeze, freeze, w, advisory);
            && Moved(p, b, b', cost)
            && DrawnFor(p, b, b', cost)
            && (p.account > 0 ==>
                  && b'.charge == cost && b'.hold == 0
                  && b'.exits == b.exits + [if id > 0 then SettleExit(id, cost, w) else DebitExit(cost, w)])
            && (p.account == 0 ==> b'.charge == b.charge && b'.hold == id && b'.exits == b.exits)
  {
    var a := Admitted(p, b, freeze, id);
    assert (cost - freeze) + freeze == cost;
    assert PoolDrawn(p, a.pool, cost, w) == Pooled(p);
    assert !HandedBack(p, a.pool, cost, w);
  }

  /** The key write fails and the compensating writes land: user and key both stay
      at minus the freeze, pool and daily-neutral draws cancel, nobody is charged,
      and an open hold is released. */
  lemma KeyFailureCompensated(p: Payer, b: Books, freeze: nat, id: nat, cost: nat, w: Weather)
    requires p.KeyLeg() && cost > 0 && b.hold == 0
    requires (p.UserLeg() ==> w.userWrite && w.compensate) && !w.keyWrite && w.poolCredit
    ensures var b' := Posted(p, Admitted(p, b, freeze, id), cost - freeze, freeze, w, false);
            && b'.user == b.user - (if p.userId > 0 then freeze else 0)
            && b'.key == b.key - freeze
            && b'.pool == b.pool
            && b'.charge == b.charge
            && (p.account > 0 ==>
                  && b'.hold == 0
                  && b'.exits == if id > 0 then b.exits + [ReleaseExit(id, w.release, w.releasePark)] else b.exits)
            && (p.account == 0 ==> b'.hold == id && b'.exits == b.exits)
  {
    assert (cost - freeze) + freeze == cost;
  }

  /** In advisory mode the wallet is the ledger of record: a failed key write does not
      stop the charge.  The compensation undoes the user debit whether or not that
      debit landed, so the user is credited what was never taken exactly when both
      writes failed and the compensation did not. */
  lemma AdvisoryKeyFailure(p: Payer, b: Books, cost: nat, w: Weather)
    requires p.Ordinary() && p.account > 0 && cost > 0 && !w.keyWrite
    ensures var b' := Posted(p, b, cost, 0, w, true);
            && b'.charge == cost && b'.key == b.key
            && (b'.user > b.user <==> !w.userWrite && w.compensate)
            && (b'.user == b.user <==> w.userWrite == w.compensate)
            && (b'.user < b.user <==> w.userWrite && !w.compensate)
  {
    assert cost + 0 == cost;
  }

  /** The refund puts every ledger back and releases the hold.  The daily counter
      and the pool were never touched. */
  lemma RefundRestores(p: Payer, b: Books, freeze: nat, id: nat, w: Weather, advisory: bool)
    requires b.hold == 0 && (p.UserLeg() ==> w.userWrite) && (p.KeyLeg() ==> w.keyWrite)
    ensures Returned(p, Admitted(p, b, freeze, id), w, advisory)
         == Abandoned(b.(frozen := freeze, hold := id), w.release, w.releasePark)
  {
    var a := Admitted(p, b, freeze, id);
    if freeze != 0 {
      var local := LocallyPosted(p, a, 0 - freeze, 0 - freeze, w);
      assert local == b.(frozen := freeze, hold := id);
      assert Posted(p, a, 0 - freeze, 0, w, advisory) == local;
    }
  }

  /** From `b` to `b'`, everything moved by `cost` and the wallet, if there is one, was
      told once. */
  ghost predicate ChargedFrom(p: Payer, b: Books, b': Books, cost: int) {
    && Moved(p, b, b', cost) && DrawnFor(p, b, b', cost) && b'.hold == 0
    && if p.account == 0 then b'.charge == b.charge && b'.exits == b.exits
       else b'.charge == cost && exists x: Exit :: b'.exits == b.exits + [x] && x.Charge() == cost
  }

  /** Every ledger is as it was and the hold, if there was one, released. */
  predicate RestoredTo(b: Books, b': Books, id: nat, w: Weather) {
    && b'.user == b.user && b'.key == b.key && b'.daily == b.daily && b'.pool == b.pool && b'.charge == b.charge
    && b'.draws == b.draws
    && b'.hold == 0 && b'.exits == if id > 0 then b.exits + [ReleaseExit(id, w.release, w.releasePark)] else b.exits
  }

  /** An admitted request is settled at `cost`.  If the freeze is all that admission left
      on the ledgers, it is charged from where it started. */
  method ConcludeServed(r: Request, cost: nat, w: Weather, advisoryFlag: bool, ghost b: Books, ghost id: nat)
    requires cost > 0 && b.hold == 0 && Landed(r.p, w) && (r.p.account == 0 ==> id == 0)
    modifies r`user, r`key, r`pool, r`draws, r`daily, r`hold, r`charge, r`exits
    ensures old(r.View()) == Admitted(r.p, b, r.frozen, id) ==> ChargedFrom(r.p, b, r.View(), cost)
  {
    ghost var a, advisory := r.View(), r.governed && (advisoryFlag || r.walletAuthoritative);
    var ok := r.PostConsumeQuota(cost - r.frozen, r.frozen, w, advisoryFlag);
    if a == Admitted(r.p, b, r.frozen, id) {
      ChargedFromStart(r.p, b, a, r.View(), r.frozen, id, cost, w, advisory);
    }
  }

  lemma ChargedFromStart(p: Payer, b: Books, a: Books, b': Books, freeze: nat, id: nat, cost: nat, w: Weather, advisory: bool)
    requires cost > 0 && b.hold == 0 && Landed(p, w) && (p.account == 0 ==> id == 0)
    requires a == Admitted(p, b, freeze, id) && b' == Posted(p, a, cost - freeze, freeze, w, advisory)
    ensures ChargedFrom(p, b, b', cost)
  {
    ChargedOnce(p, b, freeze, id, cost, w, advisory);
    if p.account > 0 {
      var x := if id > 0 then SettleExit(id, cost, w) else DebitExit(cost, w);
      assert b'.exits == b.exits + [x] && x.Charge() == cost;
    }
  }

  /** An admitted request that was not served is refunded. */
  method ConcludeUnserved(r: Request, w: Weather, advisoryFlag: bool, ghost b: Books, ghost id: nat)
    requires b.hold == 0 && (r.p.UserLeg() ==> w.userWrite) && (r.p.KeyLeg() ==> w.keyWrite)
    modifies r`user, r`key, r`pool, r`draws, r`daily, r`hold, r`charge, r`exits
    ensures old(r.View()) == Admitted(r.p, b, r.frozen, id) ==> RestoredTo(b, r.View(), id, w)
  {
    ghost var a, advisory := r.View(), r.governed && (advisoryFlag || r.walletAuthoritative);
    r.ReturnPreConsumedQuota(w, advisoryFlag);
    if a == Admitted(r.p, b, r.frozen, id) {
      RestoredToStart(r.p, b, a, r.View(), r.frozen, id, w, advisory);
    }
  }

  lemma RestoredToStart(p: Payer, b: Books, a: Books, b': Books, freeze: nat, id: nat, w: Weather, advisory: bool)
    requires b.hold == 0 && (p.UserLeg() ==> w.userWrite) && (p.KeyLeg() ==> w.keyWrite)
    requires a == Admitted(p, b, freeze, id) && b' == Returned(p, a, w, advisory)
    ensures RestoredTo(b, b', id, w)
  {
    RefundRestores(p, b, freeze, id, w, advisory);
  }

  /** One request from admission to its end, on one set of ledgers, for every payer.
      Admitted and served it is charged its cost once on every ledger, whatever was
      frozen; admitted and not served it leaves every ledger as it was; refused
      likewise, but for a key debit whose rollback failed. */
  method RelayRequest(r: Request, amount: nat, e: PreWeather, served: bool, cost: nat, w: Weather, advisoryFlag: bool)
    returns (v: Verdict)
    requires cost > 0 && r.hold == 0 && Landed(r.p, w)
    modifies r
    ensures v.Admit? && (r.frozen > 0 || !r.p.UserLeg() || e.userWrite || Residue(r.p, amount, e.rollback) == 0) ==>
              if served then ChargedFrom(r.p, old(r.View()), r.View(), cost)
              else RestoredTo(old(r.View()), r.View(), Held(r.p, 0, amount, e), w)
    ensures !v.Admit? && v != NoPreAuth && !v.BalanceUnread? ==>
              r.View() == Refused(r.p, old(r.View()).(hold := Held(r.p, 0, amount, e)), amount, v, e)
    ensures v == NoPreAuth ==> r.View() == old(r.View())
  {
    ghost var b := r.View();
    v := r.PreConsumeQuota(amount, e);
    if v.Admit? {
      ghost var id := Held(r.p, 0, amount, e);
      assert Admitted(r.p, b.(hold := id), r.frozen, id) == Admitted(r.p, b, r.frozen, id);
      if served {
        ConcludeServed(r, cost, w, advisoryFlag, b, id);
      } else {
        ConcludeUnserved(r, w, advisoryFlag, b, id);
      }
    }
  }

  /** Whatever fails, outside advisory mode the user and key ledgers of a user's key move
      by the same amount exactly when the phase-1 debit of a request whose key write
      failed was handed back.  The call succeeds exactly when both moved by `quota`; a
      tenant-scoped key has no user ledger to move. */
  lemma LedgersMoveTogether(p: Payer, b: Books, quota: int, pre: int, w: Weather)
    requires p.KeyLeg()
    ensures var b' := Posted(p, b, quota, pre, w, false);
            var landed := (p.UserLeg() ==> w.userWrite) && w.keyWrite;
            && (p.UserLeg() ==>
                  (b'.user - b.user == b'.key - b.key <==> !(w.userWrite && !w.keyWrite && !w.compensate && quota != 0)))
            && (!p.UserLeg() ==> b'.user == b.user && b'.daily == b.daily)
            && (landed ==> b'.key == b.key - quota && (p.UserLeg() ==> b'.user == b.user - quota))
            && (!landed ==> b'.key == b.key && forall x | x in b'.exits[|b.exits|..] :: x.Charge() == 0)
  {
    PostEmitsOneExit(p, b, quota, pre, w, false);
    var b' := Posted(p, b, quota, pre, w, false);
    assert b'.user == LocallyPosted(p, b, quota, quota + pre, w).user || b' == b;
    if b'.exits != b.exits {
      var x :| b'.exits == b.exits + [x] && ExitFor(b.hold, b'.hold, x);
      assert b'.exits[|b.exits|..] == [x];
    } else {
      assert b'.exits[|b.exits|..] == [];
    }
  }

  // ---------------------------------------------------------------- pool ledger

  function Signed(d: Draw): int {
    if d.Adjustment? then -d.amount else d.amount
  }

  function Drawn(draws: seq<Draw>): int {
    if draws == [] then 0 else Drawn(draws[..|draws| - 1]) + Signed(draws[|draws| - 1])
  }

  lemma {:induction false} DrawnAppend(draws: seq<Draw>, d: Draw)
    ensures Drawn(draws + [d]) == Drawn(draws) + Signed(d)
  {
    assert (draws + [d])[..|draws|] == draws;
  }

  lemma {:induction false} PoolLegKeepsLedger(p: Payer, draws: seq<Draw>, pool: int, total: int, w: Weather,
                                              draws': seq<Draw>, pool': int)
    requires pool' == PoolAfter(p, pool, total, w) && draws' == DrawsAfter(p, draws, pool, total, w)
    ensures pool' + Drawn(draws') == pool + Drawn(draws)
  {
    DrawnAppend(draws, DrawOf(pool, total));
    DrawnAppend(draws + [DrawOf(pool, total)], Adjustment(total));
  }

  /** Only the pool leg moves the pool. */
  lemma PostedPoolLeg(p: Payer, b: Books, quota: int, pre: int, w: Weather, advisory: bool)
    requires !Aborted(p, w, advisory)
    ensures var b' := Posted(p, b, quota, pre, w, advisory);
            && b'.pool == PoolAfter(p, b.pool, quota + pre, w)
            && b'.draws == DrawsAfter(p, b.draws, b.pool, quota + pre, w)
  {
  }

  lemma {:induction false} PostKeepsPoolLedger(p: Payer, b: Books, quota: int, pre: int, w: Weather, advisory: bool, b': Books)
    requires b' == Posted(p, b, quota, pre, w, advisory)
    ensures b'.pool + Drawn(b'.draws) == b.pool + Drawn(b.draws)
  {
    if Aborted(p, w, advisory) {
      assert b' == b;
    } else {
      PostedPoolLeg(p, b, quota, pre, w, advisory);
      PoolLegKeepsLedger(p, b.draws, b.pool, quota + pre, w, b'.draws, b'.pool);
    }
  }

  /** Over every run, whatever fails, the pool balance plus its recorded draws is
      constant: overdrafts and hand-backs included, no balance is invented. */
  lemma {:induction false} RunKeepsPoolLedger(p: Payer, b: Books, calls: seq<Call>)
    ensures var b' := Run(p, b, calls); b'.pool + Drawn(b'.draws) == b.pool + Drawn(b.draws)
    decreases calls
  {
    if calls != [] {
      var c := calls[0];
      match c {
        case Settle(quota, pre, w, advisory) =>
          PostKeepsPoolLedger(p, b, quota, pre, w, advisory, Posted(p, b, quota, pre, w, advisory));
        case Refund(w, advisory) =>
          PostKeepsPoolLedger(p, b, 0 - b.frozen, 0, w, advisory, Posted(p, b, 0 - b.frozen, 0, w, advisory));
      }
      RunKeepsPoolLedger(p, Step(p, b, c), calls[1..]);
    }
  }

  // ---------------------------------------------------------------- realtime sessions

  /** One usage event of a realtime session, with its failures. */
  datatype Usage = Usage(cost: nat, w: Weather, advisory: bool)

  function Session(p: Payer, b: Books, events: seq<Usage>): Books
    decreases events
  {
    if events == [] then b
    else Session(p, Posted(p, b, events[0].cost, 0, events[0].w, events[0].advisory), events[1..])
  }

  function Total(events: seq<Usage>): nat {
    if events == [] then 0 else events[0].cost + Total(events[1..])
  }

  function Charges(exits: seq<Exit>): int {
    if exits == [] then 0 else Charges(exits[..|exits| - 1]) + exits[|exits| - 1].Charge()
  }

  lemma {:induction false} ChargesAppend(exits: seq<Exit>, x: Exit)
    ensures Charges(exits + [x]) == Charges(exits) + x.Charge()
  {
    assert (exits + [x])[..|exits|] == exits;
  }

  /** From `b` to `b'`, everything moved by `total`, the wallet included. */
  predicate MovedAll(p: Payer, b: Books, b': Books, total: nat) {
    && Moved(p, b, b', total)
    && Charges(b'.exits) == Charges(b.exits) + (if p.account > 0 then total else 0)
    && b'.frozen == b.frozen
    && b'.hold == (if total == 0 || p.account == 0 then b.hold else 0)
  }

  /** One landed event: its cost off every ledger, one draw row, one wallet outcome. */
  lemma EventPosts(p: Payer, b: Books, e: Usage)
    requires Landed(p, e.w)
    ensures var b' := Posted(p, b, e.cost, 0, e.w, e.advisory);
            && Moved(p, b, b', e.cost) && b'.frozen == b.frozen
            && (if e.cost == 0 then b'.draws == b.draws else DrawnFor(p, b, b', e.cost))
            && b'.hold == (if e.cost == 0 || p.account == 0 then b.hold else 0)
            && b'.exits == (if e.cost == 0 || p.account == 0 then b.exits else b.exits + [EventExit(b.hold, e)])
  {
    assert e.cost + 0 == e.cost;
    assert PoolDrawn(p, b.pool, e.cost, e.w) == (Pooled(p) && e.cost > 0);
    assert !HandedBack(p, b.pool, e.cost, e.w);
  }

  /** One landed event moves everything by its cost. */
  lemma EventMovesAll(p: Payer, b: Books, e: Usage, b': Books)
    requires Landed(p, e.w) && b' == Posted(p, b, e.cost, 0, e.w, e.advisory)
    ensures MovedAll(p, b, b', e.cost)
  {
    EventPosts(p, b, e);
    EventCharges(p, b, e, b'.exits);
  }

  lemma {:induction false} EventCharges(p: Payer, b: Books, e: Usage, exits: seq<Exit>)
    requires exits == if e.cost == 0 || p.account == 0 then b.exits else b.exits + [EventExit(b.hold, e)]
    ensures Charges(exits) == Charges(b.exits) + (if p.account > 0 then e.cost else 0)
  {
    ChargesAppend(b.exits, EventExit(b.hold, e));
  }

  /** What the log gains with at most one outcome. */
  lemma {:induction false} ChargesGain(exits: seq<Exit>, gained: seq<Exit>)
    requires |gained| <= 1
    ensures Charges(exits + gained) == Charges(exits) + if gained == [] then 0 else gained[0].Charge()
  {
    if gained == [] {
      assert exits + gained == exits;
    } else {
      ChargesAppend(exits, gained[0]);
      assert [gained[0]] == gained;
    }
  }

  /** How an event is charged: the open hold is settled, otherwise a direct debit. */
  function EventExit(hold: nat, e: Usage): Exit {
    if hold > 0 then SettleExit(hold, e.cost, e.w) else DebitExit(e.cost, e.w)
  }

  lemma {:induction false} SessionMovesAll(p: Payer, b: Books, events: seq<Usage>)
    requires forall e | e in events :: Landed(p, e.w)
    ensures MovedAll(p, b, Session(p, b, events), Total(events))
    decreases events
  {
    if events != [] {
      var e := events[0];
      assert e in events;
      var b1 := Posted(p, b, e.cost, 0, e.w, e.advisory);
      EventMovesAll(p, b, e, b1);
      SessionMovesAll(p, b1, events[1..]);
    }
  }

  /** Index of the first event that costs something, or the number of events. */
  function FirstPositive(events: seq<Usage>): (i: nat)
    ensures i <= |events|
    ensures i < |events| <==> Total(events) > 0
  {
    if events == [] then 0 else if events[0].cost > 0 then 0 else 1 + FirstPositive(events[1..])
  }

  /** The first charge of a session is the first positive event's, on the hold. */
  lemma {:induction false} SessionFirstCharge(p: Payer, b: Books, events: seq<Usage>)
    requires forall e | e in events :: Landed(p, e.w)
    ensures var i := FirstPositive(events);
            if i == |events| || p.account == 0 then Session(p, b, events).exits == b.exits
            else b.exits + [EventExit(b.hold, events[i])] <= Session(p, b, events).exits
    decreases events
  {
    if events != [] {
      var e := events[0];
      assert e in events;
      EventPosts(p, b, e);
      var b1 := Posted(p, b, e.cost, 0, e.w, e.advisory);
      SessionFirstCharge(p, b1, events[1..]);
      assert b1.exits <= Session(p, b1, events[1..]).exits;
    }
  }

  /** A whole realtime session, for every payer.  Whatever the sequence of usage events,
      closing it leaves user, key, gated pool, daily counter and the total sent to the
      wallet moved by exactly the sum of the events; the freeze is gone; the hold was
      settled by the first positive event, or is released at close if there was none. */
  lemma {:induction false} RealtimeSessionExact(p: Payer, b: Books, freeze: nat, id: nat, events: seq<Usage>,
                                                w: Weather, advisory: bool)
    requires freeze > 0 && b.hold == 0 && (p.account == 0 ==> id == 0)
    requires Landed(p, w) && forall e | e in events :: Landed(p, e.w)
    ensures var b' := Closed(p, Session(p, Admitted(p, b, freeze, id), events), w, advisory);
            var i := FirstPositive(events);
            && MovedAll(p, b, b'.(frozen := b.frozen), Total(events))
            && b'.hold == 0
            && if i == |events| || p.account == 0 then b'.exits == Abandoned(b.(hold := id), w.release, w.releasePark).exits
               else b.exits + [EventExit(id, events[i])] <= b'.exits
  {
    var a := Admitted(p, b, freeze, id);
    var t := Session(p, a, events);
    SessionMovesAll(p, a, events);
    SessionFirstCharge(p, a, events);
    CloseRestores(p, t, w, advisory);
    SessionCloses(p, b, freeze, id, Total(events), a, t, Closed(p, t, w, advisory), w);
  }

  lemma SessionCloses(p: Payer, b: Books, freeze: nat, id: nat, total: nat, a: Books, t: Books, b': Books, w: Weather)
    requires b.hold == 0 && (p.account == 0 ==> id == 0) && a == Admitted(p, b, freeze, id)
    requires MovedAll(p, a, t, total) && (total == 0 || p.account == 0 ==> t.exits == b.exits)
    requires b' == if p.account > 0 then Abandoned(Thawed(p, t), w.release, w.releasePark) else Thawed(p, t)
    ensures MovedAll(p, b, b'.(frozen := b.frozen), total) && b'.hold == 0
    ensures total == 0 || p.account == 0 ==> b'.exits == Abandoned(b.(hold := id), w.release, w.releasePark).exits
    ensures t.exits <= b'.exits
  {
    var gained := if t.hold > 0 then [ReleaseExit(t.hold, w.release, w.releasePark)] else [];
    ChargesGain(t.exits, gained);
    assert b'.exits == t.exits + gained;
  }

  /** The freeze given back to each ledger the payer has. */
  function Thawed(p: Payer, s: Books): Books {
    s.(user := s.user + (if p.userId > 0 then s.frozen else 0),
       key := s.key + (if p.tokenId > 0 && !p.playground then s.frozen else 0))
  }

  /** Closing gives the freeze back, charges nothing and releases an unused hold. */
  lemma CloseRestores(p: Payer, s: Books, w: Weather, advisory: bool)
    requires s.frozen > 0 && (p.UserLeg() ==> w.userWrite) && (p.KeyLeg() ==> w.keyWrite)
    ensures Closed(p, s, w, advisory)
         == if p.account > 0 then Abandoned(Thawed(p, s), w.release, w.releasePark) else Thawed(p, s)
  {
    assert (0 - s.frozen) + s.frozen == 0;
  }
}

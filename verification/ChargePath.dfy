/** The charge path of one relayed request: pre-consume, settle, refund.

    A request touches a user ledger, a key ledger, the tenant credit pool, a
    daily counter and a hold on the platform wallet.  Every leg can fail and
    some failures are compensated.  `Request` is the imperative code; the
    functions `Posted`, `Returned` and `Admitted` are its closed forms: they
    give the net effect of a whole call, not its phases.  Money is counted in
    quota units throughout.

    Every call into a store or the platform is atomic and may fail; which calls
    fail is given by a `Weather` (or `PreWeather`) record, so each contract
    holds for every pattern of failures. */
module ChargePath {

  /** One outcome on the platform wallet.  The first six end a hold. */
  datatype Exit =
    | Settled(id: nat, amount: int)
    | SettleParked(id: nat, amount: int)
    | SettleLost(id: nat, amount: int)
    | Released(id: nat)
    | ReleaseParked(id: nat)
    | ReleaseLost(id: nat)
    | Debited(amount: int)
    | DebitParked(amount: int)
    | DebitLost(amount: int)
  {
    predicate EndsHold() {
      !Debited? && !DebitParked? && !DebitLost?
    }

    /** What this outcome charges, or would charge had it not been lost. */
    function Charge(): int {
      if Released? || ReleaseParked? || ReleaseLost? then 0 else amount
    }
  }

  /** A row of the pool's draw ledger. */
  datatype Draw = RelayDebit(amount: int) | Overdraft(amount: int) | Adjustment(amount: int)

  /** The immutable part of the relay info.  `userId == 0` is a tenant-scoped
      key; `gated` says the key's tenant has a limited credit pool. */
  datatype Payer = Payer(userId: nat, tokenId: nat, playground: bool, unlimited: bool, account: nat, gated: bool)
  {
    predicate UserLeg() { userId > 0 }
    predicate KeyLeg() { !playground && tokenId > 0 }
    /** A user-owned key that has a row to charge. */
    predicate Ordinary() { UserLeg() && KeyLeg() }
  }

  /** Ledgers and the request's mutable billing fields. */
  datatype Books = Books(user: int, key: int, pool: int, draws: seq<Draw>, daily: int,
                         hold: nat, frozen: nat, charge: int, exits: seq<Exit>)

  /** Which calls succeed while a request is settled or refunded. */
  datatype Weather = Weather(userWrite: bool, dailyWrite: bool, poolLookup: bool, poolDebit: bool,
                             overdraft: bool, poolCredit: bool, keyWrite: bool, compensate: bool,
                             settle: bool, settlePark: bool, release: bool, releasePark: bool,
                             debit: bool, debitPark: bool)

  // ---------------------------------------------------------------- closed forms

  function SettleExit(id: nat, amount: int, w: Weather): Exit {
    if w.settle then Settled(id, amount) else if w.settlePark then SettleParked(id, amount) else SettleLost(id, amount)
  }

  function ReleaseExit(id: nat, release: bool, park: bool): Exit {
    if release then Released(id) else if park then ReleaseParked(id) else ReleaseLost(id)
  }

  function DebitExit(amount: int, w: Weather): Exit {
    if w.debit then Debited(amount) else if w.debitPark then DebitParked(amount) else DebitLost(amount)
  }

  function Abandoned(b: Books, release: bool, park: bool): Books {
    if b.hold == 0 then b else b.(hold := 0, exits := b.exits + [ReleaseExit(b.hold, release, park)])
  }

  /** The wallet leg, by what the request owes. */
  function WalletSettled(p: Payer, b: Books, total: int, pre: int, chargeable: bool, w: Weather): Books {
    if p.account == 0 then b
    else if total > 0 && chargeable then
      b.(hold := 0, charge := total,
         exits := b.exits + [if b.hold > 0 then SettleExit(b.hold, total, w) else DebitExit(total, w)])
    else if total > 0 || pre > 0 then Abandoned(b, w.release, w.releasePark)
    else b
  }

  /** Phase 1 failed outside advisory mode: the call returns at once. */
  predicate Aborted(p: Payer, w: Weather, advisory: bool) {
    p.UserLeg() && !w.userWrite && !advisory
  }

  predicate KeyFailed(p: Payer, w: Weather) {
    p.KeyLeg() && !w.keyWrite
  }

  predicate PoolDrawn(p: Payer, pool: int, total: int, w: Weather) {
    total > 0 && p.tokenId > 0 && p.gated && w.poolLookup && w.poolDebit && (pool >= total || w.overdraft)
  }

  function DrawOf(pool: int, total: int): Draw {
    if pool >= total then RelayDebit(total) else Overdraft(total)
  }

  predicate HandedBack(p: Payer, pool: int, total: int, w: Weather) {
    PoolDrawn(p, pool, total, w) && KeyFailed(p, w) && w.poolCredit
  }

  function UserAfter(p: Payer, user: int, quota: int, w: Weather): int {
    user - (if p.UserLeg() && w.userWrite then quota else 0)
         + (if p.UserLeg() && KeyFailed(p, w) && w.compensate then quota else 0)
  }

  function PoolAfter(p: Payer, pool: int, total: int, w: Weather): int {
    if PoolDrawn(p, pool, total, w) && !HandedBack(p, pool, total, w) then pool - total else pool
  }

  function DrawsAfter(p: Payer, draws: seq<Draw>, pool: int, total: int, w: Weather): seq<Draw> {
    if HandedBack(p, pool, total, w) then draws + [DrawOf(pool, total)] + [Adjustment(total)]
    else if PoolDrawn(p, pool, total, w) then draws + [DrawOf(pool, total)]
    else draws
  }

  /** Net movement of the local ledgers when one settlement call goes through. */
  function LocallyPosted(p: Payer, b: Books, quota: int, total: int, w: Weather): Books {
    b.(user := UserAfter(p, b.user, quota, w),
       key := b.key - (if p.KeyLeg() && w.keyWrite then quota else 0),
       daily := b.daily + (if p.UserLeg() && total > 0 && w.dailyWrite then total else 0),
       pool := PoolAfter(p, b.pool, total, w),
       draws := DrawsAfter(p, b.draws, b.pool, total, w))
  }

  /** The whole of PostConsumeQuota. */
  function Posted(p: Payer, b: Books, quota: int, pre: int, w: Weather, advisory: bool): Books {
    if Aborted(p, w, advisory) then b
    else WalletSettled(p, LocallyPosted(p, b, quota, quota + pre, w), quota + pre, pre, !KeyFailed(p, w) || advisory, w)
  }

  /** The whole of ReturnPreConsumedQuota. */
  function Returned(p: Payer, b: Books, w: Weather, advisory: bool): Books {
    Abandoned(if b.frozen != 0 then Posted(p, b, 0 - b.frozen, 0, w, advisory) else b, w.release, w.releasePark)
  }

  /** The end of a realtime session: the freeze goes back, nothing is charged. */
  function Closed(p: Payer, b: Books, w: Weather, advisory: bool): Books {
    if b.frozen == 0 then b else Posted(p, b, 0 - b.frozen, b.frozen, w, advisory)
  }

  /** What an admitted pre-consume leaves: `freeze` taken from the user and the
      key, and hold `id` open (0 for none). */
  function Admitted(p: Payer, b: Books, freeze: nat, id: nat): Books {
    b.(user := b.user - (if p.UserLeg() then freeze else 0),
       key := b.key - (if p.KeyLeg() then freeze else 0),
       hold := id, frozen := freeze)
  }

  // ---------------------------------------------------------------- the pre-consume gate

  /** Which calls succeed, and what they read, while a request is admitted.
      `grant` is the id of the hold the platform opens, 0 when it refuses. */
  datatype PreWeather = PreWeather(unified: bool, skip: bool, grant: nat, degraded: bool, advisoryFlag: bool,
                                   tenantWallet: bool, balanceRead: bool, balance: int, tenantOk: bool,
                                   projectOk: bool, trust: int, tokenQuota: int, keyWrite: bool,
                                   userWrite: bool, rollback: bool, release: bool, releasePark: bool)

  datatype Verdict = Admit | NoPreAuth | BalanceUnread | UserShort | TenantCapped | ProjectCapped
                   | KeyShort | KeyUnwritten | UserUnwritten | UserRaced
  {
    /** Refused after the key had been debited, so the key was rolled back. */
    predicate Undone() { UserUnwritten? || UserRaced? }
  }

  /** The hold in force once the platform has been asked: the one carried over
      from an earlier attempt, or the one just granted. */
  function Held(p: Payer, hold: nat, amount: nat, e: PreWeather): nat {
    if hold == 0 && e.unified && p.account > 0 && amount > 0 && !e.skip then e.grant else hold
  }

  /** The platform lets the request through: a hold, a trusted or degraded skip,
      or no unified billing for it. */
  predicate Authorized(p: Payer, hold: nat, amount: nat, e: PreWeather) {
    hold > 0 || !Asked(p, hold, amount, e) || e.skip || e.grant > 0 || e.degraded
  }

  predicate Asked(p: Payer, hold: nat, amount: nat, e: PreWeather) {
    hold == 0 && e.unified && p.account > 0 && amount > 0
  }

  /** Balance high enough to skip the local freeze. */
  predicate Trusted(p: Payer, e: PreWeather) {
    (if p.UserLeg() then e.balance else 0) > e.trust && (p.unlimited || e.tokenQuota > e.trust)
  }

  predicate KeyCapped(p: Payer, key: int, amount: nat) {
    !p.playground && !p.unlimited && (p.tokenId == 0 || key < amount)
  }

  predicate KeyPays(p: Payer, key: int, amount: nat, e: PreWeather) {
    p.playground || (e.keyWrite && !KeyCapped(p, key, amount))
  }

  /** The freeze lands on both ledgers.  Advisory mode lets the user ledger go
      negative. */
  predicate Freezes(p: Payer, user: int, key: int, amount: nat, e: PreWeather, advisory: bool) {
    KeyPays(p, key, amount, e) && (p.UserLeg() ==> e.userWrite && (advisory || user >= amount))
  }

  /** The admission rule of the local gates.  Advisory mode waives the user
      balance and failed writes, never the key's own cap. */
  predicate Admits(p: Payer, user: int, key: int, amount: nat, e: PreWeather, advisory: bool) {
    && (p.UserLeg() ==> e.balanceRead && (advisory || (e.balance > 0 && e.balance >= amount)))
    && e.tenantOk
    && e.projectOk
    && (amount == 0 || Trusted(p, e) || Freezes(p, user, key, amount, e, advisory)
        || (advisory && !(e.keyWrite && KeyCapped(p, key, amount))))
  }

  /** Why a request was refused by the local gates, in the order they are asked. */
  predicate Justifies(p: Payer, user: int, key: int, amount: nat, e: PreWeather, advisory: bool, v: Verdict) {
    match v
    case Admit => true
    case NoPreAuth => false
    case BalanceUnread => p.UserLeg() && !e.balanceRead
    case UserShort => p.UserLeg() && !advisory && (e.balance <= 0 || e.balance < amount)
    case TenantCapped => !e.tenantOk
    case ProjectCapped => e.tenantOk && !e.projectOk
    case KeyShort => e.tenantOk && e.projectOk && e.keyWrite && KeyCapped(p, key, amount)
    case KeyUnwritten => e.tenantOk && e.projectOk && !p.playground && !e.keyWrite && !advisory
    case UserUnwritten => KeyPays(p, key, amount, e) && p.UserLeg() && !e.userWrite && !advisory
    case UserRaced => KeyPays(p, key, amount, e) && p.UserLeg() && e.userWrite && user < amount && !advisory
  }

  /** What an undone freeze leaves on the key: nothing, or the debit itself when
      the rollback write failed, or an unearned credit for a playground token. */
  function Residue(p: Payer, amount: nat, rollback: bool): int {
    (if rollback && p.tokenId > 0 then amount else 0) - (if p.KeyLeg() then amount else 0)
  }

  /** The same residue under an admitted request: advisory mode lets it through although
      its user write failed, with nothing frozen. */
  function Stuck(p: Payer, key: int, amount: nat, e: PreWeather, advisory: bool): int {
    if advisory && amount > 0 && !Trusted(p, e) && KeyPays(p, key, amount, e) && p.UserLeg() && !e.userWrite then
      Residue(p, amount, e.rollback)
    else 0
  }

  /** What a refusal leaves: the hold released, the ledgers untouched but for the
      residue of an undone freeze. */
  function Refused(p: Payer, b: Books, amount: nat, v: Verdict, e: PreWeather): Books {
    Abandoned(b.(key := b.key + if v.Undone() then Residue(p, amount, e.rollback) else 0), e.release, e.releasePark)
  }

  /** From `b`, with its hold open, to `b'`.  An admitted request froze all of the
      estimate or none of it, in the same amount on both ledgers, with nothing else left
      behind but, in advisory mode, a key debit whose rollback failed.  A refused one freezes
      nothing, and its only trace is a key debit whose rollback failed (or, for
      playground tokens, a rollback of a debit that never happened).  A refusal
      discharges the hold, except a failed balance read, which leaves it open. */
  predicate Reserved(p: Payer, b: Books, b': Books, amount: nat, e: PreWeather, advisory: bool, v: Verdict) {
    && v != NoPreAuth
    && v.Admit? == Admits(p, b.user, b.key, amount, e, advisory)
    && Justifies(p, b.user, b.key, amount, e, advisory, v)
    && v.BalanceUnread? == (p.UserLeg() && !e.balanceRead)
    && (v.Admit? ==> b'.frozen == if !Trusted(p, e) && Freezes(p, b.user, b.key, amount, e, advisory) then amount else 0)
    && (v.Admit? ==>
          b' == Admitted(p, b.(key := b.key + Stuck(p, b.key, amount, e, advisory)), b'.frozen, b.hold))
    && (!v.Admit? && !v.BalanceUnread? ==> b' == Refused(p, b, amount, v, e))
    && (v.BalanceUnread? ==> b' == b)
  }

  /** What the reservation leaves on the two ledgers. */
  predicate Reserves(p: Payer, b: Books, amount: nat, e: PreWeather, advisory: bool, v: Verdict,
                     taken: nat, user: int, key: int) {
    && v.Admit? == Admits(p, b.user, b.key, amount, e, advisory)
    && Justifies(p, b.user, b.key, amount, e, advisory, v)
    && v.BalanceUnread? == (p.UserLeg() && !e.balanceRead)
    && taken == (if v.Admit? && !Trusted(p, e) && Freezes(p, b.user, b.key, amount, e, advisory) then amount else 0)
    && user == b.user - (if p.UserLeg() then taken else 0)
    && (v.Undone() ==> key == b.key + Residue(p, amount, e.rollback))
    && (!v.Admit? && !v.Undone() ==> key == b.key)
    && (v.Admit? ==> key == b.key + Stuck(p, b.key, amount, e, advisory) - (if p.KeyLeg() then taken else 0))
  }

  lemma ReservedSoFar(p: Payer, b: Books, b': Books, amount: nat, e: PreWeather, advisory: bool, v: Verdict,
                      taken: nat, user: int, key: int)
    requires Reserves(p, b, amount, e, advisory, v, taken, user, key)
    requires b' == if v.Admit? then b.(user := user, key := key, frozen := taken)
                   else if v.BalanceUnread? then b.(user := user, key := key)
                   else Abandoned(b.(user := user, key := key), e.release, e.releasePark)
    ensures Reserved(p, b, b', amount, e, advisory, v)
  {}

  class Request {
    const p: Payer
    var user: int
    var key: int
    var pool: int
    var draws: seq<Draw>
    var daily: int
    var hold: nat
    var frozen: nat
    var charge: int
    var exits: seq<Exit>
    var governed: bool
    var walletAuthoritative: bool

    constructor (p: Payer, user: int, key: int, pool: int)
      ensures this.p == p && View() == Books(user, key, pool, [], 0, 0, 0, 0, [])
      ensures !governed && !walletAuthoritative
    {
      this.p, this.user, this.key, this.pool := p, user, key, pool;
      draws, daily, hold, frozen, charge, exits := [], 0, 0, 0, 0, [];
      governed, walletAuthoritative := false, false;
    }

    function View(): Books
      reads this
    {
      Books(user, key, pool, draws, daily, hold, frozen, charge, exits)
    }

    /** abandonPreAuth with releasePlatformPreAuth inlined. */
    method AbandonPreAuth(release: bool, park: bool)
      modifies this`hold, this`exits
      ensures View() == Abandoned(old(View()), release, park)
    {
      if hold == 0 {
        return;
      }
      var id := hold;
      if release {
        exits := exits + [Released(id)];
      } else if park {
        exits := exits + [ReleaseParked(id)];
      } else {
        exits := exits + [ReleaseLost(id)];
      }
      hold := 0;
    }

    method SettleOrPark(amount: int, w: Weather)
      requires hold > 0
      modifies this`hold, this`exits, this`charge
      ensures View() == old(View()).(hold := 0, charge := amount, exits := old(exits) + [SettleExit(old(hold), amount, w)])
    {
      var id := hold;
      charge := amount;
      if w.settle {
        exits := exits + [Settled(id, amount)];
      } else if w.settlePark {
        exits := exits + [SettleParked(id, amount)];
      } else {
        exits := exits + [SettleLost(id, amount)];
      }
      hold := 0;
    }

    method SettlePlatformWallet(total: int, pre: int, consistent: bool, advisory: bool, w: Weather)
      modifies this`hold, this`exits, this`charge
      ensures View() == WalletSettled(p, old(View()), total, pre, consistent || advisory, w)
    {
      if p.account > 0 && total > 0 {
        if hold > 0 {
          if !consistent && !advisory {
            AbandonPreAuth(w.release, w.releasePark);
          } else {
            SettleOrPark(total, w);
          }
        } else if consistent || advisory {
          charge := total;
          if w.debit {
            exits := exits + [Debited(total)];
          } else if w.debitPark {
            exits := exits + [DebitParked(total)];
          } else {
            exits := exits + [DebitLost(total)];
          }
        }
      } else if p.account > 0 && total <= 0 && pre > 0 && hold > 0 {
        AbandonPreAuth(w.release, w.releasePark);
      }
    }

    /** debitTenantPool: a recorded debit, an overdraft when the pool is short,
        or nothing. */
    method DebitTenantPool(amount: int, w: Weather) returns (recorded: bool)
      requires amount > 0 && p.tokenId > 0
      modifies this`pool, this`draws
      ensures recorded == PoolDrawn(p, old(pool), amount, w)
      ensures pool == if recorded then old(pool) - amount else old(pool)
      ensures draws == if recorded then old(draws) + [DrawOf(old(pool), amount)] else old(draws)
    {
      if !p.gated || !w.poolLookup || !w.poolDebit {
        return false;
      }
      if pool >= amount {
        pool, draws := pool - amount, draws + [RelayDebit(amount)];
        return true;
      }
      if w.overdraft {
        pool, draws := pool - amount, draws + [Overdraft(amount)];
        return true;
      }
      return false;
    }

    /** Phase 3: the key ledger; on a failed write the user debit and the pool
        draw of the same request are handed back. */
    method UpdateKeyLedger(quota: int, total: int, poolDebited: bool, w: Weather) returns (consistent: bool)
      modifies this`key, this`user, this`pool, this`draws
      ensures consistent == !KeyFailed(p, w)
      ensures key == old(key) - (if p.KeyLeg() && w.keyWrite then quota else 0)
      ensures user == old(user) + (if !consistent && p.UserLeg() && w.compensate then quota else 0)
      ensures pool == old(pool) + (if !consistent && poolDebited && w.poolCredit then total else 0)
      ensures draws == if !consistent && poolDebited && w.poolCredit then old(draws) + [Adjustment(total)] else old(draws)
    {
      consistent := true;
      if !p.playground && p.tokenId > 0 {
        if w.keyWrite {
          key := key - quota;
        } else {
          consistent := false;
          if p.UserLeg() && w.compensate {
            user := user + quota;
          }
          if poolDebited && w.poolCredit {
            pool, draws := pool + total, draws + [Adjustment(total)];
          }
        }
      }
    }

    /** Phase 1: the user ledger; true unless the write failed. */
    method UpdateUserLedger(quota: int, write: bool) returns (ok: bool)
      modifies this`user
      ensures ok == (!p.UserLeg() || write)
      ensures user == old(user) - (if p.UserLeg() && write then quota else 0)
    {
      if p.UserLeg() {
        if !write {
          return false;
        }
        user := user - quota;
      }
      return true;
    }

    /** Phases 2.5 and 3: the tenant pool and the key ledger. */
    method PostPoolAndKey(quota: int, total: int, w: Weather) returns (consistent: bool)
      modifies this`user, this`key, this`pool, this`draws
      ensures consistent == !KeyFailed(p, w)
      ensures user == old(user) + (if p.UserLeg() && KeyFailed(p, w) && w.compensate then quota else 0)
      ensures key == old(key) - (if p.KeyLeg() && w.keyWrite then quota else 0)
      ensures pool == PoolAfter(p, old(pool), total, w)
      ensures draws == DrawsAfter(p, old(draws), old(pool), total, w)
    {
      var poolDebited := false;
      if total > 0 && p.tokenId > 0 {
        poolDebited := DebitTenantPool(total, w);
      }
      consistent := UpdateKeyLedger(quota, total, poolDebited, w);
    }

    /** Phases 1 to 3.  `aborted` is the early return of phase 1. */
    method PostLocalLedgers(quota: int, total: int, w: Weather, advisory: bool) returns (aborted: bool, consistent: bool)
      modifies this`user, this`key, this`pool, this`draws, this`daily
      ensures aborted == Aborted(p, w, advisory)
      ensures aborted ==> View() == old(View())
      ensures !aborted ==> consistent == !KeyFailed(p, w) && View() == LocallyPosted(p, old(View()), quota, total, w)
    {
      var written := UpdateUserLedger(quota, w.userWrite);
      if !written && !advisory {
        return true, false;
      }
      aborted := false;
      // Phase 2: daily counter
      if p.UserLeg() && total > 0 && w.dailyWrite {
        daily := daily + total;
      }
      consistent := PostPoolAndKey(quota, total, w);
    }

    method PostConsumeQuota(quota: int, pre: int, w: Weather, advisoryFlag: bool) returns (ok: bool)
      modifies this`user, this`key, this`pool, this`draws, this`daily, this`hold, this`charge, this`exits
      ensures View() == Posted(p, old(View()), quota, pre, w, governed && (advisoryFlag || walletAuthoritative))
      ensures var advisory := governed && (advisoryFlag || walletAuthoritative);
              ok == (advisory || !(Aborted(p, w, advisory) || KeyFailed(p, w)))
    {
      var advisory := governed && (advisoryFlag || walletAuthoritative);
      var aborted, consistent := PostLocalLedgers(quota, quota + pre, w, advisory);
      if aborted {
        return false;
      }
      // Phase 5: platform wallet
      SettlePlatformWallet(quota + pre, pre, consistent, advisory, w);
      ok := consistent || advisory;
    }

    method ReturnPreConsumedQuota(w: Weather, advisoryFlag: bool)
      modifies this`user, this`key, this`pool, this`draws, this`daily, this`hold, this`charge, this`exits
      ensures View() == Returned(p, old(View()), w, governed && (advisoryFlag || walletAuthoritative))
    {
      if frozen != 0 {
        var ok := PostConsumeQuota(0 - frozen, 0, w, advisoryFlag);
      }
      ghost var refunded := View();
      AbandonPreAuth(w.release, w.releasePark);
      assert View() == Abandoned(refunded, w.release, w.releasePark);
    }

    /** PreWssConsumeQuota: one usage event of a realtime session, refused when a
        read fails or a balance read is short.  Per-call pricing charges nothing. */
    method PreWssConsumeQuota(cost: nat, usePrice: bool, readable: bool, balance: int, remain: int, w: Weather,
                              advisoryFlag: bool)
      returns (ok: bool)
      modifies this`user, this`key, this`pool, this`draws, this`daily, this`hold, this`charge, this`exits
      ensures var accepted := !usePrice && readable && balance >= cost && (p.unlimited || remain >= cost);
              var advisory := governed && (advisoryFlag || walletAuthoritative);
              && View() == (if accepted then Posted(p, old(View()), cost, 0, w, advisory) else old(View()))
              && ok == (usePrice || (accepted && (advisory || !(Aborted(p, w, advisory) || KeyFailed(p, w)))))
    {
      if usePrice {
        return true;
      }
      if !readable || balance < cost || (!p.unlimited && remain < cost) {
        return false;
      }
      ok := PostConsumeQuota(cost, 0, w, advisoryFlag);
    }

    /** The settlement part of PostWssConsumeQuota. */
    method CloseRealtime(w: Weather, advisoryFlag: bool)
      modifies this`user, this`key, this`pool, this`draws, this`daily, this`hold, this`charge, this`exits
      ensures View() == Closed(p, old(View()), w, governed && (advisoryFlag || walletAuthoritative))
    {
      if frozen != 0 {
        var ok := PostConsumeQuota(0 - frozen, frozen, w, advisoryFlag);
      }
    }

    /** PreConsumeTokenQuota: Admit, KeyShort or KeyUnwritten. */
    method PreConsumeTokenQuota(amount: nat, keyWrite: bool) returns (v: Verdict)
      modifies this`key
      ensures v == if p.playground || (keyWrite && !KeyCapped(p, old(key), amount)) then Admit
                   else if keyWrite then KeyShort else KeyUnwritten
      ensures key == old(key) - (if v == Admit && p.KeyLeg() then amount else 0)
      ensures v == Admit && p.KeyLeg() && !p.unlimited ==> key >= 0
    {
      if p.playground {
        return Admit;
      }
      if !keyWrite {
        return KeyUnwritten;
      }
      if p.unlimited {
        if p.tokenId > 0 {
          key := key - amount;
        }
        return Admit;
      }
      if p.tokenId > 0 && key >= amount {
        key := key - amount;
        return Admit;
      }
      return KeyShort;
    }

    /** platformPreAuthorize and the re-entry guard: governs the request, opens
        a hold unless one is carried over, or refuses; then the advisory rule. */
    method PreAuthorize(amount: nat, e: PreWeather) returns (ok: bool, advisory: bool)
      modifies this`hold, this`governed, this`walletAuthoritative
      ensures ok == Authorized(p, old(hold), amount, e)
      ensures hold == Held(p, old(hold), amount, e)
      ensures !ok ==> hold == 0
      ensures governed == (old(governed) || old(hold) > 0 || (ok && Asked(p, old(hold), amount, e)))
      ensures ok ==> advisory == (governed && (e.advisoryFlag || e.tenantWallet))
      ensures walletAuthoritative == (old(walletAuthoritative) || (ok && governed && !e.advisoryFlag && e.tenantWallet))
    {
      if hold > 0 {
        governed := true;
      } else if e.unified && p.account > 0 && amount > 0 {
        if e.skip {
          governed := true;
        } else if e.grant == 0 {
          if !e.degraded {
            return false, false;
          }
          governed := true;
        } else {
          hold, governed := e.grant, true;
        }
      }
      advisory := e.advisoryFlag && governed;
      if !advisory && governed && e.tenantWallet {
        advisory, walletAuthoritative := true, true;
      }
      ok := true;
    }

    method RollbackTokenFreeze(amount: nat, write: bool)
      modifies this`key
      ensures key == old(key) + (if write && p.tokenId > 0 then amount else 0)
    {
      if write && p.tokenId > 0 {
        key := key + amount;
      }
    }

    /** The pre-deduction: `frozen` is what was taken from both ledgers. */
    method Freeze(amount: nat, e: PreWeather, advisory: bool) returns (v: Verdict, taken: nat)
      requires amount > 0 && e.tenantOk && e.projectOk
      modifies this`user, this`key
      ensures !v.BalanceUnread? && Justifies(p, old(user), old(key), amount, e, advisory, v)
      ensures v.Admit? == (Freezes(p, old(user), old(key), amount, e, advisory)
                           || (advisory && !(e.keyWrite && KeyCapped(p, old(key), amount))))
      ensures taken == if Freezes(p, old(user), old(key), amount, e, advisory) then amount else 0
      ensures user == old(user) - (if p.UserLeg() then taken else 0)
      ensures v.Undone() ==> key == old(key) + Residue(p, amount, e.rollback)
      ensures v.Admit? && !Trusted(p, e) ==>
                key == old(key) + Stuck(p, old(key), amount, e, advisory) - (if p.KeyLeg() then taken else 0)
      ensures !advisory && taken > 0 && p.Ordinary() ==> user >= 0 && (!p.unlimited ==> key >= 0)
      ensures !v.Admit? && !v.Undone() ==> key == old(key)
    {
      v := PreConsumeTokenQuota(amount, e.keyWrite);
      if v != Admit {
        return if advisory && v != KeyShort then Admit else v, 0;
      }
      if !p.UserLeg() {
        return Admit, amount;
      }
      if advisory {
        if e.userWrite {
          user := user - amount;
          return Admit, amount;
        }
        RollbackTokenFreeze(amount, e.rollback);
        return Admit, 0;
      }
      if !e.userWrite || user < amount {
        RollbackTokenFreeze(amount, e.rollback);
        return if !e.userWrite then UserUnwritten else UserRaced, 0;
      }
      user := user - amount;
      return Admit, amount;
    }

    /** The local balance gate and the tenant and project caps. */
    function Gates(amount: nat, balance: int, advisory: bool, e: PreWeather): (v: Verdict)
      ensures !v.BalanceUnread? && !v.Undone()
    {
      if p.UserLeg() && (balance <= 0 || balance - amount < 0) && !advisory then UserShort
      else if !e.tenantOk then TenantCapped
      else if !e.projectOk then ProjectCapped
      else Admit
    }

    /** Everything after the platform answered: gates, trust, freeze. */
    method ReserveLocally(amount: nat, e: PreWeather, advisory: bool) returns (v: Verdict, taken: nat)
      modifies this`user, this`key
      ensures Reserves(p, old(View()), amount, e, advisory, v, taken, user, key)
      ensures !advisory && taken > 0 && p.Ordinary() ==> user >= 0 && (!p.unlimited ==> key >= 0)
    {
      var balance := 0;
      if p.UserLeg() {
        if !e.balanceRead {
          return BalanceUnread, 0;
        }
        balance := e.balance;
      }
      v, taken := Gates(amount, balance, advisory, e), 0;
      if v == Admit && amount > 0 && !(balance > e.trust && (p.unlimited || e.tokenQuota > e.trust)) {
        v, taken := Freeze(amount, e, advisory);
      }
    }

    /** Reserve, then record the freeze or give the hold up. */
    method ReserveOrAbandon(amount: nat, e: PreWeather, advisory: bool) returns (v: Verdict)
      modifies this`user, this`key, this`hold, this`exits, this`frozen
      ensures Reserved(p, old(View()), View(), amount, e, advisory, v)
    {
      var taken;
      v, taken := ReserveLocally(amount, e, advisory);
      if v.Admit? {
        frozen := taken;
      } else if !v.BalanceUnread? {
        AbandonPreAuth(e.release, e.releasePark);
      }
      ReservedSoFar(p, old(View()), View(), amount, e, advisory, v, taken, user, key);
    }

    /** Admission.  The request is admitted exactly when the platform authorizes it
        and the local gates admit it, on the hold then in force. */
    method PreConsumeQuota(amount: nat, e: PreWeather) returns (v: Verdict)
      modifies this`user, this`key, this`hold, this`exits, this`governed, this`walletAuthoritative, this`frozen
      ensures v == NoPreAuth <==> !Authorized(p, old(hold), amount, e)
      ensures v == NoPreAuth ==> View() == old(View())
      ensures v != NoPreAuth ==>
                && governed == (old(governed) || old(hold) > 0 || Asked(p, old(hold), amount, e))
                && Reserved(p, old(View()).(hold := Held(p, old(hold), amount, e)), View(), amount, e,
                            governed && (e.advisoryFlag || e.tenantWallet), v)
    {
      var authorized, advisory := PreAuthorize(amount, e);
      if !authorized {
        return NoPreAuth;
      }
      assert View() == old(View()).(hold := Held(p, old(hold), amount, e));
      v := ReserveOrAbandon(amount, e, advisory);
    }
  }
}

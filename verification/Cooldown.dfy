/** Channel cooldowns of one process: the deadlines it wrote, the last snapshot of the
    shared index, and the generation stamps that keep a stale snapshot from undoing a
    manual clear.

    The source guards these maps with one mutex.  Each method here is one critical
    section; CooldownProtocol interleaves them.  Times are in nanoseconds, deadlines in
    Unix seconds. */
module Cooldown {
  datatype Option<T> = None | Some(value: T)

  datatype Slot = Slot(channel: int, key: int)

  const SECOND := 1_000_000_000
  const SNAPSHOT_EVERY := 2 * SECOND

  function Unix(now: nat): nat { now / SECOND }

  /** A Go map read: 0 for a missing key. */
  function At(m: map<Slot, int>, s: Slot): int { if s in m then m[s] else 0 }

  function Live(m: map<Slot, int>, sec: int): map<Slot, int> {
    map s | s in m && m[s] > sec :: m[s]
  }

  function Without<V>(m: map<Slot, V>, ch: int): map<Slot, V> {
    map s | s in m && s.channel != ch :: m[s]
  }

  /** The maps of one process. */
  datatype Proc = Proc(local: map<Slot, int>, remote: map<Slot, int>, synced: map<Slot, nat>,
                       remoteAt: Option<nat>, gen: nat, cleared: map<int, nat>)
  {
    /** The channel was cleared by hand after generation `g`. */
    predicate ClearedSince(ch: int, g: nat) { ch in cleared && cleared[ch] > g }

    /** Redis accepted this deadline before `now`, and `snap` has none or an earlier one. */
    predicate Superseded(snap: map<Slot, int>, now: nat, s: Slot) {
      s in synced && synced[s] < now && At(snap, s) < At(local, s)
    }

    function Marked(s: Slot, until: int, now: nat): Proc {
      this.(local := Live(local, Unix(now))[s := until], synced := synced - {s})
    }

    function Acknowledged(s: Slot, until: int, now: nat): Proc {
      if At(local, s) == until then this.(synced := synced[s := now]) else this
    }

    predicate SnapshotDue(now: nat) { remoteAt.None? || now - remoteAt.value >= SNAPSHOT_EVERY }

    /** The slots of a snapshot whose read began at generation `startGen`, less those
        of channels cleared since. */
    function Snapshot(entries: map<Slot, int>, startGen: nat): map<Slot, int> {
      map s | s in entries && !ClearedSince(s.channel, startGen) :: entries[s]
    }

    function KeptLocal(snap: map<Slot, int>, now: nat): map<Slot, int> {
      map s | s in local && !Superseded(snap, now, s) :: local[s]
    }

    function KeptSynced(snap: map<Slot, int>, now: nat): map<Slot, nat> {
      map s | s in synced && !Superseded(snap, now, s) :: synced[s]
    }

    function Merged(entries: map<Slot, int>, startGen: nat, now: nat): Proc {
      var snap := Snapshot(entries, startGen);
      this.(remote := snap, local := KeptLocal(snap, now), synced := KeptSynced(snap, now))
    }

    function Stamped(ch: int): Proc { this.(gen := gen + 1, cleared := cleared[ch := gen + 1]) }

    /** Clearing one channel.  Only slots still in the local map lose their sync mark. */
    function Forgotten(ch: int): Proc {
      this.(local := Without(local, ch), remote := Without(remote, ch),
            synced := map s | s in synced && !(s.channel == ch && s in local) :: synced[s])
    }

    function CoolingUntil(s: Slot, now: nat): int {
      var mine, theirs := At(local, s), At(remote, s);
      var until := if mine > Unix(now) then mine else 0;
      if theirs > Unix(now) && theirs > until then theirs else until
    }
  }

  /** A mark cools its slot until its deadline, longer only if the last snapshot says so,
      and no other slot is cooled more or less than before from then on. */
  lemma MarkCools(p: Proc, slot: Slot, until: int, now: nat, later: nat, other: Slot)
    requires now <= later
    ensures Unix(later) < until ==>
              var told := p.Marked(slot, until, now).CoolingUntil(slot, later);
              told == if slot in p.remote && p.remote[slot] > until then p.remote[slot] else until
    ensures other != slot ==> p.Marked(slot, until, now).CoolingUntil(other, later) == p.CoolingUntil(other, later)
  {
    assert Unix(now) <= Unix(later) by { DivisionOrdered(now, later); }
  }

  lemma DivisionOrdered(a: nat, b: nat)
    requires a <= b
    ensures Unix(a) <= Unix(b)
  {}

  /** Clearing a channel lifts every cooldown of it at once and no other. */
  lemma ClearLifts(p: Proc, ch: int, slot: Slot, now: nat)
    ensures p.Forgotten(ch).CoolingUntil(slot, now) == if slot.channel == ch then 0 else p.CoolingUntil(slot, now)
    ensures p.Forgotten(ch).Stamped(ch).CoolingUntil(slot, now) == p.Forgotten(ch).CoolingUntil(slot, now)
  {}

  // ---------------------------------------------------------------- map loops

  /** The pruning loop of a mark. */
  method DropExpired(m: map<Slot, int>, sec: int) returns (r: map<Slot, int>)
    ensures r == Live(m, sec)
  {
    r := m;
    var todo := m.Keys;
    while todo != {}
      invariant todo <= m.Keys
      invariant forall s :: s in r <==> s in m && (s in todo || m[s] > sec)
      invariant forall s | s in r :: r[s] == m[s]
      decreases |todo|
    {
      var s :| s in todo;
      todo := todo - {s};
      if m[s] <= sec {
        r := r - {s};
      }
    }
  }

  /** The loop that discards slots of channels cleared since the read began. */
  method DropCleared(p: Proc, entries: map<Slot, int>, startGen: nat) returns (snap: map<Slot, int>)
    ensures snap == p.Snapshot(entries, startGen)
  {
    snap := entries;
    var todo := entries.Keys;
    while todo != {}
      invariant todo <= entries.Keys
      invariant forall s :: s in snap <==> s in entries && (s in todo || !p.ClearedSince(s.channel, startGen))
      invariant forall s | s in snap :: snap[s] == entries[s]
      decreases |todo|
    {
      var s :| s in todo;
      todo := todo - {s};
      if s.channel in p.cleared && p.cleared[s.channel] > startGen {
        snap := snap - {s};
      }
    }
  }

  /** The loop that discards local deadlines Redis accepted and no longer lists. */
  method DropSuperseded(p: Proc, snap: map<Slot, int>, now: nat) returns (local: map<Slot, int>, synced: map<Slot, nat>)
    ensures local == p.KeptLocal(snap, now) && synced == p.KeptSynced(snap, now)
  {
    local, synced := p.local, p.synced;
    var todo := p.synced.Keys;
    while todo != {}
      invariant todo <= p.synced.Keys
      invariant forall s :: s in local <==> s in p.local && (s in todo || !p.Superseded(snap, now, s))
      invariant forall s :: s in synced <==> s in p.synced && (s in todo || !p.Superseded(snap, now, s))
      invariant forall s | s in local :: local[s] == p.local[s]
      invariant forall s | s in synced :: synced[s] == p.synced[s]
      decreases |todo|
    {
      var s :| s in todo;
      if synced[s] < now && At(snap, s) < At(local, s) {
        local, synced := local - {s}, synced - {s};
      }
      todo := todo - {s};
    }
  }

  /** The loop that deletes the slots of one channel. */
  method DropChannel(m: map<Slot, int>, ch: int) returns (r: map<Slot, int>, gone: set<Slot>)
    ensures r == Without(m, ch) && gone == set s | s in m && s.channel == ch
  {
    r, gone := m, {};
    var todo := m.Keys;
    while todo != {}
      invariant todo <= m.Keys
      invariant forall s :: s in r <==> s in m && (s in todo || s.channel != ch)
      invariant forall s | s in r :: r[s] == m[s]
      invariant forall s :: s in gone <==> s in m && s !in todo && s.channel == ch
      decreases |todo|
    {
      var s :| s in todo;
      todo := todo - {s};
      if s.channel == ch {
        r, gone := r - {s}, gone + {s};
      }
    }
  }

  class Process {
    var local: map<Slot, int>
    var remote: map<Slot, int>
    var synced: map<Slot, nat>
    var remoteAt: Option<nat>
    var gen: nat
    var cleared: map<int, nat>

    ghost function View(): Proc
      reads this
    {
      Proc(local, remote, synced, remoteAt, gen, cleared)
    }

    constructor ()
      ensures View() == Proc(map[], map[], map[], None, 0, map[])
    {
      local, remote, synced, remoteAt, gen, cleared := map[], map[], map[], None, 0, map[];
    }

    /** MarkChannelCooldown, first section.  A deadline already past is ignored. */
    method RecordLocal(s: Slot, until: int, now: nat) returns (started: bool)
      modifies this`local, this`synced
      ensures started == (until * SECOND > now)
      ensures View() == if started then old(View()).Marked(s, until, now) else old(View())
    {
      started := until * SECOND > now;
      if started {
        var live := DropExpired(local, Unix(now));
        local := live[s := until];
        synced := synced - {s};
      }
    }

    /** MarkChannelCooldown, once Redis accepted the deadline. */
    method RecordSynced(s: Slot, until: int, now: nat)
      modifies this`synced
      ensures View() == old(View()).Acknowledged(s, until, now)
    {
      if At(local, s) == until {
        synced := synced[s := now];
      }
    }

    /** refreshCooldownSnapshot, first section: at most one read per interval. */
    method BeginSnapshot(now: nat) returns (startGen: Option<nat>)
      modifies this`remoteAt
      ensures startGen.Some? <==> old(View()).SnapshotDue(now)
      ensures startGen.None? <==> old(remoteAt).Some? && now < old(remoteAt).value + 2_000_000_000
      ensures View() == if startGen.Some? then old(View()).(remoteAt := Some(now)) else old(View())
      ensures startGen.Some? ==> startGen.value == gen
    {
      if remoteAt.Some? && now - remoteAt.value < SNAPSHOT_EVERY {
        return None;
      }
      remoteAt := Some(now);
      return Some(gen);
    }

    /** refreshCooldownSnapshot, last section. */
    method MergeSnapshot(entries: map<Slot, int>, startGen: nat, now: nat)
      modifies this`remote, this`local, this`synced
      ensures View() == old(View()).Merged(entries, startGen, now)
    {
      var p := Proc(local, remote, synced, remoteAt, gen, cleared);
      var snap := DropCleared(p, entries, startGen);
      remote := snap;
      local, synced := DropSuperseded(p, snap, now);
    }

    /** markCooldownCleared. */
    method StampClear(ch: int)
      modifies this`gen, this`cleared
      ensures View() == old(View()).Stamped(ch)
    {
      gen := gen + 1;
      cleared := cleared[ch := gen];
    }

    /** ClearChannelCooldown, the section between its two stamps. */
    method ForgetChannel(ch: int)
      modifies this`local, this`remote, this`synced
      ensures View() == old(View()).Forgotten(ch)
    {
      var gone, ignored;
      local, gone := DropChannel(local, ch);
      synced := synced - gone;
      remote, ignored := DropChannel(remote, ch);
    }

    /** resetLocalChannelCooldowns. */
    method ResetLocal()
      modifies this`local, this`synced
      ensures View() == old(View()).(local := map[], synced := map[])
    {
      local, synced := map[], map[];
    }

    /** ClearChannelCooldowns, its second section. */
    method ResetRemote()
      modifies this`remote, this`remoteAt
      ensures View() == old(View()).(remote := map[], remoteAt := None)
    {
      remote, remoteAt := map[], None;
    }

    /** coolingUntil: the latest deadline still ahead, or 0. */
    method CoolingUntil(s: Slot, now: nat) returns (until: int)
      ensures until == View().CoolingUntil(s, now)
      ensures until == 0 <==> At(local, s) <= Unix(now) && At(remote, s) <= Unix(now)
      ensures until != 0 ==> until > Unix(now) && until in {At(local, s), At(remote, s)}
      ensures until != 0 ==> until >= At(local, s) && until >= At(remote, s)
    {
      until := 0;
      if At(local, s) > Unix(now) {
        until := local[s];
      }
      if At(remote, s) > Unix(now) && At(remote, s) > until {
        until := remote[s];
      }
    }
  }
}

/** The erasure cascade: one user's rows deleted, scrubbed or pseudonymised step by
    step, with a persisted cursor, under failures at any store call.

    The database is one map from table and row id to the row.  A store call fails
    before its effect, fails after it, or succeeds; a killed pass is a call that fails.
    Timestamps the cascade writes are not part of the rows. */
module Erasure {
  datatype Table =
    | Tokens | Totps | BackupCodes | UserSessions | ProjectMembers | ResponseRegistry | Grants
    | IdentityMappings
    | ChatMessages | ChatSessions | Midjourneys | Tasks | QuotaData | Presets | LogBodies
    | Logs
    | AuditEvents
    | Users

  datatype Key = Key(table: Table, id: int)

  datatype Handle = Given(name: string) | ErasedHandle(id: int)

  datatype Option<T> = None | Some(value: T)

  /** A row, with the user it belongs to and the columns the cascade reads or writes. */
  datatype Row =
    | Plain(user: int, content: string)
    | Grant(user: int, resource: string, revoked: bool)
    | Message(user: int, session: int, content: string)
    | Job(user: int, status: string, progress: string, properties: string, payload: string, failReason: string, quota: int)
    | Picture(user: int, status: string, progress: string, prompt: string)
    | Usage(user: int, username: string, quota: int)
    | Log(user: int, username: string, tokenName: string, ip: string, content: string, other: string, employee: string,
          quota: int)
    | Audit(user: int, actorType: string, ip: string, details: string, action: string)
    | Account(user: int, handle: Handle, displayName: string, email: string, remark: string, setting: string,
              accessToken: Option<string>, platformId: Option<int>, enabled: bool, deleted: bool, quota: int)

  type Data = map<Key, Row>

  const MARKER := "[erased]"
  const BATCH := 500

  // ---------------------------------------------------------------- what erasure means

  /** The cascade step a table belongs to. */
  function Rank(t: Table): nat {
    match t
    case IdentityMappings => 2
    case ChatMessages => 3
    case ChatSessions => 3
    case Midjourneys => 3
    case Tasks => 3
    case QuotaData => 3
    case Presets => 3
    case LogBodies => 3
    case Logs => 4
    case AuditEvents => 5
    case Users => 6
    case _ => 1
  }

  /** Tables whose rows survive, rewritten. */
  predicate Kept(t: Table) { t in {Grants, Tasks, QuotaData, Logs, AuditEvents, Users} }

  /** A message counts as the user's by its own column or by its session's owner. */
  predicate InSessionOf(data: Data, uid: int, row: Row) {
    row.Message? && Key(ChatSessions, row.session) in data && data[Key(ChatSessions, row.session)].user == uid
  }

  predicate Doomed(data: Data, uid: int, k: Key)
    requires k in data
  {
    !Kept(k.table) && (data[k].user == uid || (k.table == ChatMessages && InSessionOf(data, uid, data[k])))
  }

  /** An open task or picture, taken out of its poller's selection. */
  function Closed(row: Row): Row {
    if row.Job? && row.status !in {"FAILURE", "SUCCESS"} then
      row.(status := "FAILURE", progress := "100%", failReason := "erased")
    else if row.Picture? && row.progress != "100%" then Picture(row.user, "FAILURE", "100%", row.prompt)
    else row
  }

  /** The user's row of a kept table, as the cascade leaves it. */
  function Scrubbed(t: Table, row: Row): Row {
    match row
    case Grant(u, _, _) => if t == Grants && u > 0 then row.(revoked := true) else row
    case Job(_, _, _, _, _, _, _) => if t == Tasks then row.(properties := "", payload := "", failReason := "") else row
    case Usage(u, _, q) => if t == QuotaData then Usage(u, MARKER, q) else row
    case Log(_, name, _, _, _, _, _, _) =>
      if t == Logs && name != MARKER then
        row.(username := MARKER, tokenName := MARKER, ip := "", content := "", other := "", employee := "")
      else row
    case Audit(_, actor, _, _, _) => if t == AuditEvents && actor == "user" then row.(ip := "", details := MARKER) else row
    case Account(u, _, _, _, _, _, _, _, _, gone, _) =>
      // the update is scoped: it does not see a soft-deleted user
      if t == Users && !gone then
        row.(handle := ErasedHandle(u), displayName := MARKER, email := "", remark := "", setting := "",
             accessToken := None, platformId := None, enabled := false, deleted := true)
      else row
    case _ => row
  }

  function Cleaned(uid: int, t: Table, row: Row): Row {
    if row.user != uid || !Kept(t) then row
    else if t == Tasks then Scrubbed(t, Closed(row))
    else Scrubbed(t, row)
  }

  /** The data an uninterrupted cascade leaves behind. */
  function Final(data: Data, uid: int): Data {
    map k | k in data && !Doomed(data, uid, k) :: Cleaned(uid, k.table, data[k])
  }

  /** Nothing is left to do in the table. */
  predicate Settled(data: Data, uid: int, t: Table) {
    forall k | k in data && k.table == t :: !Doomed(data, uid, k) && Cleaned(uid, t, data[k]) == data[k]
  }

  /** A change the cascade may make at any time: the outcome is the same, and no table
      that was settled comes undone. */
  predicate Toward(data: Data, next: Data, uid: int) {
    Final(next, uid) == Final(data, uid) && forall t | Settled(data, uid, t) :: Settled(next, uid, t)
  }

  predicate AllSettled(data: Data, uid: int, rank: nat) {
    forall t | Rank(t) <= rank :: Settled(data, uid, t)
  }

  // What a completed erasure means on the data itself, table by table.

  /** No row of the user's is left where rows are deleted, nor any message of a chat
      that was theirs. */
  predicate NothingLeft(before: Data, after: Data, uid: int) {
    && (forall k | k in after && k.table in {Tokens, Totps, BackupCodes, UserSessions, ProjectMembers, ResponseRegistry,
                                             IdentityMappings, ChatMessages, ChatSessions, Midjourneys, Presets, LogBodies} ::
          after[k].user != uid)
    && (forall k | k in after && k.table == ChatMessages && after[k].Message? ::
          var chat := Key(ChatSessions, after[k].session); chat in before ==> before[chat].user != uid)
  }

  /** A row that stays says nothing personal: a grant is revoked, a task ended and empty,
      quota data and logs under the marker, the user's own audit event bare, the user
      row deleted. */
  predicate Bare(t: Table, row: Row) {
    && (t == Grants && row.Grant? && row.user > 0 ==> row.revoked)
    && (t == Tasks && row.Job? ==>
          row.properties == "" && row.payload == "" && row.failReason == "" && row.status in {"SUCCESS", "FAILURE"})
    && (t == QuotaData && row.Usage? ==> row.username == "[erased]")
    && (t == AuditEvents && row.Audit? && row.actorType == "user" ==> row.ip == "" && row.details == "[erased]")
    && (t == Logs && row.Log? ==> row.username == "[erased]")
    && (t == Users && row.Account? ==> row.deleted)
  }

  predicate NothingTold(after: Data, uid: int) {
    forall k | k in after && after[k].user == uid :: Bare(k.table, after[k])
  }

  /** The columns billing and audit need. */
  predicate SameFigures(row: Row, row': Row) {
    && (row.Job? ==> row'.Job? && row'.quota == row.quota)
    && (row.Usage? ==> row'.Usage? && row'.quota == row.quota)
    && (row.Log? ==> row'.Log? && row'.quota == row.quota)
    && (row.Account? ==> row'.Account? && row'.quota == row.quota)
    && (row.Audit? ==> row'.Audit? && row'.action == row.action && row'.actorType == row.actorType)
    && (row.Grant? ==> row'.Grant? && row'.resource == row.resource)
  }

  /** No row appears; the rows that must survive do, with their figures; another user's
      row is untouched unless it is a message in a chat of the erased user. */
  predicate RestStands(before: Data, after: Data, uid: int) {
    && after.Keys <= before.Keys
    && (forall k | k in before && k.table in {Grants, Tasks, QuotaData, Logs, AuditEvents, Users} ::
          k in after && after[k].user == before[k].user && SameFigures(before[k], after[k]))
    && (forall k | k in before && before[k].user != uid ::
          || (k in after && after[k] == before[k])
          || (k.table == ChatMessages && before[k].Message? && Key(ChatSessions, before[k].session) in before
              && before[Key(ChatSessions, before[k].session)].user == uid))
  }

  predicate Erased(before: Data, after: Data, uid: int) {
    NothingLeft(before, after, uid) && NothingTold(after, uid) && RestStands(before, after, uid)
  }

  lemma CleanedIsBare(uid: int, t: Table, row: Row)
    ensures Cleaned(uid, t, row).user == row.user && SameFigures(row, Cleaned(uid, t, row))
    ensures row.user == uid && Kept(t) ==> Bare(t, Cleaned(uid, t, row))
    ensures row.user != uid ==> Cleaned(uid, t, row) == row
  {}

  lemma OutcomeLeavesNothing(before: Data, uid: int)
    ensures NothingLeft(before, Final(before, uid), uid)
  {
    forall k | k in Final(before, uid)
      ensures Final(before, uid)[k].user == before[k].user
    {
      CleanedIsBare(uid, k.table, before[k]);
    }
  }

  lemma OutcomeTellsNothing(before: Data, uid: int)
    ensures NothingTold(Final(before, uid), uid)
  {
    forall k | k in Final(before, uid) && Final(before, uid)[k].user == uid
      ensures Bare(k.table, Final(before, uid)[k])
    {
      CleanedIsBare(uid, k.table, before[k]);
    }
  }

  lemma OutcomeLeavesTheRest(before: Data, uid: int)
    ensures RestStands(before, Final(before, uid), uid)
  {
    forall k | k in before
      ensures Cleaned(uid, k.table, before[k]).user == before[k].user && SameFigures(before[k], Cleaned(uid, k.table, before[k]))
      ensures before[k].user != uid ==> Cleaned(uid, k.table, before[k]) == before[k]
    {
      CleanedIsBare(uid, k.table, before[k]);
    }
  }

  /** The outcome of the cascade is an erasure. */
  lemma OutcomeIsErasure(before: Data, uid: int)
    ensures Erased(before, Final(before, uid), uid)
  {
    OutcomeLeavesNothing(before, uid);
    OutcomeTellsNothing(before, uid);
    OutcomeLeavesTheRest(before, uid);
  }

  /** Settled everywhere on the way to an outcome, the data is that outcome's erasure. */
  lemma SettledIsErased(before: Data, data: Data, uid: int)
    requires Final(data, uid) == Final(before, uid) && AllSettled(data, uid, 6)
    ensures Erased(before, data, uid)
  {
    SettledIsFinal(data, uid);
    OutcomeIsErasure(before, uid);
  }

  /** Settled everywhere, the data is the outcome. */
  lemma SettledIsFinal(data: Data, uid: int)
    requires AllSettled(data, uid, 6)
    ensures data == Final(data, uid)
  {
    forall k | k in data
      ensures !Doomed(data, uid, k) && Cleaned(uid, k.table, data[k]) == data[k]
    {
      assert Settled(data, uid, k.table);
    }
  }

  /** Deleting doomed rows, in any order and any portions, leads to the same outcome, so
      long as no session goes while a message of it is left. */
  lemma RemovingLeadsOn(data: Data, uid: int, gone: set<Key>)
    requires forall k | k in gone :: k in data && Doomed(data, uid, k)
    requires Settled(data, uid, ChatMessages) || forall k | k in gone :: k.table != ChatSessions
    ensures Toward(data, data - gone, uid)
  {
    var next := data - gone;
    forall k | k in next
      ensures Doomed(next, uid, k) == Doomed(data, uid, k)
    {
      if k.table == ChatMessages && data[k].Message? {
        var s := Key(ChatSessions, data[k].session);
        assert s in data && s !in next ==> s in gone;
      }
    }
    assert Final(next, uid) == Final(data, uid);
  }

  /** Rewriting rows that are not settled, towards the same cleaned row, leads to the
      same outcome. */
  lemma RewritingLeadsOn(data: Data, uid: int, next: Data)
    requires next.Keys == data.Keys
    requires forall k | k in data && next[k] != data[k] ::
               && k.table != ChatMessages && k.table != ChatSessions && next[k].user == data[k].user
               && (Doomed(data, uid, k) || Cleaned(uid, k.table, next[k]) == Cleaned(uid, k.table, data[k]) != data[k])
    ensures Toward(data, next, uid)
  {
    forall k | k in data
      ensures Doomed(next, uid, k) == Doomed(data, uid, k)
    {
      if k.table == ChatMessages && data[k].Message? {
        var s := Key(ChatSessions, data[k].session);
        assert s in data ==> next[s] == data[s];
      }
    }
    assert Final(next, uid) == Final(data, uid);
  }

  // ---------------------------------------------------------------- the store

  /** What becomes of one store call. */
  datatype Fate = Fine | FailsBefore | FailsAfter

  datatype Cursor =
    | NotStarted | TokensDeleted | MappingsDeleted | ContentDeleted | LogsAnonymized | AuditScrubbed
    | Unknown(step: string)

  /** The last completed step. */
  function Done(c: Cursor): nat {
    match c
    case TokensDeleted => 1
    case MappingsDeleted => 2
    case ContentDeleted => 3
    case LogsAnonymized => 4
    case AuditScrubbed => 5
    case _ => 0
  }

  /** Which rows of the table still want work. */
  predicate Hit(data: Data, uid: int, t: Table, k: Key) {
    k in data && k.table == t && (Doomed(data, uid, k) || Cleaned(uid, t, data[k]) != data[k])
  }

  function Hits(data: Data, uid: int, t: Table): set<Key> {
    set k | k in data && Hit(data, uid, t, k)
  }

  lemma NoHitsIsSettled(data: Data, uid: int, t: Table)
    ensures Hits(data, uid, t) == {} <==> Settled(data, uid, t)
  {
    forall k | k in data && k.table == t
      ensures k in Hits(data, uid, t) <==> Doomed(data, uid, k) || Cleaned(uid, t, data[k]) != data[k]
    {}
    if Settled(data, uid, t) {
      assert forall k :: k !in Hits(data, uid, t);
    }
  }

  /** The tables are independent but for one direction: messages go before sessions. */
  predicate MayDelete(data: Data, uid: int, t: Table) {
    !Kept(t) && (t == ChatSessions ==> Settled(data, uid, ChatMessages))
  }

  /** A persisted request and the database it works on. */
  class Store {
    const uid: int
    const weather: nat -> Fate
    var calls: nat
    var data: Data
    var cursor: Cursor
    var completed: bool

    constructor (uid: int, weather: nat -> Fate, data: Data)
      ensures this.uid == uid && this.weather == weather && this.data == data
      ensures calls == 0 && cursor == NotStarted && !completed
    {
      this.uid, this.weather, this.data := uid, weather, data;
      calls, cursor, completed := 0, NotStarted, false;
    }

    /** The cursor is honest: every step it counts as completed is. */
    ghost predicate Honest()
      reads this
    {
      AllSettled(data, uid, Done(cursor)) && (completed ==> AllSettled(data, uid, 6))
    }

    /** One store call that writes `next`. */
    method Call(next: Data) returns (ok: bool)
      requires Toward(data, next, uid)
      modifies this`calls, this`data
      ensures data == if weather(old(calls)).FailsBefore? then old(data) else next
      ensures ok == weather(old(calls)).Fine? && calls == old(calls) + 1
    {
      var fate := weather(calls);
      calls := calls + 1;
      if !fate.FailsBefore? {
        data := next;
      }
      return fate.Fine?;
    }

    /** A hard delete of all the user's rows in a table. */
    method DeleteAll(t: Table) returns (ok: bool)
      requires MayDelete(data, uid, t)
      modifies this`calls, this`data
      ensures Toward(old(data), data, uid) && (ok ==> Settled(data, uid, t))
      ensures weather(old(calls)).Fine? ==> ok
    {
      var gone := Hits(data, uid, t);
      RemovingLeadsOn(data, uid, gone);
      ok := Call(data - gone);
      if ok {
        AllGone(old(data), uid, t);
      }
    }

    /** A batch delete: up to BATCH of the user's rows. */
    method DeleteBatch(t: Table) returns (ok: bool, n: nat)
      requires MayDelete(data, uid, t)
      modifies this`calls, this`data
      ensures Toward(old(data), data, uid)
      ensures ok && n == 0 ==> Settled(data, uid, t)
      ensures ok && n > 0 ==> |Hits(data, uid, t)| < |Hits(old(data), uid, t)|
      ensures weather(old(calls)).Fine? ==> ok
    {
      var ids := Batch(Hits(data, uid, t));
      RemovingLeadsOn(data, uid, ids);
      ok := Call(data - ids);
      n := |ids|;
      NoHitsIsSettled(old(data), uid, t);
      if ok && n > 0 {
        FewerHits(old(data), uid, t, ids);
      }
    }

    /** The loop around a batch delete. */
    method Drain(t: Table) returns (ok: bool)
      requires MayDelete(data, uid, t)
      modifies this`calls, this`data
      ensures Toward(old(data), data, uid) && (ok ==> Settled(data, uid, t))
      ensures (forall i :: weather(i).Fine?) ==> ok
    {
      while true
        invariant Toward(old(data), data, uid) && MayDelete(data, uid, t)
        decreases |Hits(data, uid, t)|
      {
        var n;
        ok, n := DeleteBatch(t);
        if !ok || n == 0 {
          return;
        }
      }
    }

    /** The user's open tasks or pictures, closed. */
    method CloseOpen(t: Table) returns (ok: bool)
      requires t in {Midjourneys, Tasks}
      modifies this`calls, this`data
      ensures Toward(old(data), data, uid) && (ok && t == Tasks ==> NoneOpen(data, uid))
      ensures weather(old(calls)).Fine? ==> ok
    {
      var next := map k | k in data :: if k.table == t && data[k].user == uid then Closed(data[k]) else data[k];
      forall k | k in data && k.table == t && data[k].user == uid
        ensures Closed(next[k]) == next[k] && next[k].user == uid
        ensures Doomed(data, uid, k) || next[k] == data[k] || Cleaned(uid, t, next[k]) == Cleaned(uid, t, data[k]) != data[k]
      {
        ClosedRow(uid, t, data[k]);
      }
      RewritingLeadsOn(data, uid, next);
      ok := Call(next);
    }

    /** A column update of all the user's rows in a kept table. */
    method ScrubAll(t: Table) returns (ok: bool)
      requires Kept(t) && (t == Tasks ==> NoneOpen(data, uid))
      modifies this`calls, this`data
      ensures Toward(old(data), data, uid) && (ok ==> Settled(data, uid, t))
      ensures weather(old(calls)).Fine? ==> ok
    {
      var next := map k | k in data :: if k.table == t && data[k].user == uid then Scrubbed(t, data[k]) else data[k];
      forall k | k in data && k.table == t && data[k].user == uid
        ensures Cleaned(uid, t, next[k]) == next[k] == Cleaned(uid, t, data[k]) && next[k].user == uid
      {
        ScrubbedRow(uid, t, data[k]);
      }
      RewritingLeadsOn(data, uid, next);
      ok := Call(next);
    }

    /** A batch of the user's logs or audit events, scrubbed. */
    method ScrubBatch(t: Table) returns (ok: bool, n: nat)
      requires t in {Logs, AuditEvents}
      modifies this`calls, this`data
      ensures Toward(old(data), data, uid)
      ensures ok && n == 0 ==> Settled(data, uid, t)
      ensures ok && n > 0 ==> |Hits(data, uid, t)| < |Hits(old(data), uid, t)|
      ensures weather(old(calls)).Fine? ==> ok
    {
      var ids := Batch(Hits(data, uid, t));
      var next := map k | k in data :: if k in ids then Scrubbed(t, data[k]) else data[k];
      forall k | k in ids
        ensures Cleaned(uid, t, next[k]) == Cleaned(uid, t, data[k]) && next[k].user == data[k].user
      {
        ScrubbedRow(uid, t, data[k]);
      }
      RewritingLeadsOn(data, uid, next);
      ok := Call(next);
      n := |ids|;
      NoHitsIsSettled(old(data), uid, t);
      if ok && n > 0 {
        FewerToScrub(old(data), uid, t, ids, next);
      } else if ok {
        assert next == old(data);
      }
    }

    /** The loop around a batch scrub. */
    method DrainScrub(t: Table) returns (ok: bool)
      requires t in {Logs, AuditEvents}
      modifies this`calls, this`data
      ensures Toward(old(data), data, uid) && (ok ==> Settled(data, uid, t))
      ensures (forall i :: weather(i).Fine?) ==> ok
    {
      while true
        invariant Toward(old(data), data, uid)
        decreases |Hits(data, uid, t)|
      {
        var n;
        ok, n := ScrubBatch(t);
        if !ok || n == 0 {
          return;
        }
      }
    }

    /** AdvanceErasureStep. */
    method Advance(step: Cursor) returns (ok: bool)
      requires !step.Unknown? && Done(cursor) <= Done(step) && AllSettled(data, uid, Done(step))
      modifies this`calls, this`cursor
      ensures cursor == if weather(old(calls)).FailsBefore? then old(cursor) else step
      ensures ok == weather(old(calls)).Fine?
    {
      var fate := weather(calls);
      calls := calls + 1;
      if !fate.FailsBefore? {
        cursor := step;
      }
      return fate.Fine?;
    }

    /** MarkErasureCompleted. */
    method Complete() returns (ok: bool)
      requires AllSettled(data, uid, 6)
      modifies this`calls, this`completed
      ensures completed == (old(completed) || !weather(old(calls)).FailsBefore?)
      ensures ok == weather(old(calls)).Fine?
    {
      var fate := weather(calls);
      calls := calls + 1;
      if !fate.FailsBefore? {
        completed := true;
      }
      return fate.Fine?;
    }

    // -------------------------------------------------------------- executeErasure

    /** Tokens and second factors. */
    method EraseSecrets() returns (ok: bool)
      modifies this`calls, this`data
      ensures Toward(old(data), data, uid)
      ensures ok ==> Settled(data, uid, Tokens) && Settled(data, uid, Totps) && Settled(data, uid, BackupCodes)
      ensures (forall i :: weather(i).Fine?) ==> ok
    {
      ok := DeleteAll(Tokens);
      if !ok { return; }
      ok := DeleteAll(Totps);
      if !ok { return; }
      ok := DeleteAll(BackupCodes);
    }

    /** Sessions, memberships and registered responses. */
    method EraseTraces() returns (ok: bool)
      modifies this`calls, this`data
      ensures Toward(old(data), data, uid)
      ensures ok ==>
                Settled(data, uid, UserSessions) && Settled(data, uid, ProjectMembers) && Settled(data, uid, ResponseRegistry)
      ensures (forall i :: weather(i).Fine?) ==> ok
    {
      ok := DeleteAll(UserSessions);
      if !ok { return; }
      ok := DeleteAll(ProjectMembers);
      if !ok { return; }
      ok := DeleteAll(ResponseRegistry);
    }

    /** The first step: tokens and what rides along. */
    method EraseCredentials() returns (ok: bool)
      requires cursor == NotStarted
      modifies this`calls, this`data, this`cursor
      ensures Toward(old(data), data, uid) && AllSettled(data, uid, Done(cursor)) && cursor in {NotStarted, TokensDeleted}
      ensures ok ==> cursor == TokensDeleted
      ensures (forall i :: weather(i).Fine?) ==> ok
    {
      ok := EraseSecrets();
      if !ok { return; }
      ok := EraseTraces();
      if !ok { return; }
      ok := ScrubAll(Grants);
      if !ok { return; }
      CredentialsComplete(data, uid);
      ok := Advance(TokensDeleted);
    }

    method EraseMappings() returns (ok: bool)
      requires cursor == TokensDeleted && AllSettled(data, uid, 1)
      modifies this`calls, this`data, this`cursor
      ensures Toward(old(data), data, uid) && AllSettled(data, uid, Done(cursor)) && cursor in {TokensDeleted, MappingsDeleted}
      ensures ok ==> cursor == MappingsDeleted
      ensures (forall i :: weather(i).Fine?) ==> ok
    {
      ok := DeleteAll(IdentityMappings);
      if !ok { return; }
      ok := Advance(MappingsDeleted);
    }

    /** Chats: messages are drained before the sessions they hang on. */
    method EraseChats() returns (ok: bool)
      modifies this`calls, this`data
      ensures Toward(old(data), data, uid)
      ensures ok ==> Settled(data, uid, ChatMessages) && Settled(data, uid, ChatSessions)
      ensures (forall i :: weather(i).Fine?) ==> ok
    {
      ok := Drain(ChatMessages);
      if !ok { return; }
      ok := Drain(ChatSessions);
    }

    /** Pictures are closed and deleted, tasks closed and scrubbed. */
    method EraseJobs() returns (ok: bool)
      modifies this`calls, this`data
      ensures Toward(old(data), data, uid)
      ensures ok ==> Settled(data, uid, Midjourneys) && Settled(data, uid, Tasks)
      ensures (forall i :: weather(i).Fine?) ==> ok
    {
      ok := CloseOpen(Midjourneys);
      if !ok { return; }
      ok := Drain(Midjourneys);
      if !ok { return; }
      ok := CloseOpen(Tasks);
      if !ok { return; }
      ok := ScrubAll(Tasks);
    }

    method EraseUsage() returns (ok: bool)
      modifies this`calls, this`data
      ensures Toward(old(data), data, uid)
      ensures ok ==> Settled(data, uid, QuotaData) && Settled(data, uid, Presets) && Settled(data, uid, LogBodies)
      ensures (forall i :: weather(i).Fine?) ==> ok
    {
      ok := ScrubAll(QuotaData);
      if !ok { return; }
      ok := DeleteAll(Presets);
      if !ok { return; }
      ok := Drain(LogBodies);
    }

    method DisposeOfContent() returns (ok: bool)
      modifies this`calls, this`data
      ensures Toward(old(data), data, uid) && (ok ==> ContentSettled(data, uid))
      ensures (forall i :: weather(i).Fine?) ==> ok
    {
      ok := EraseChats();
      if !ok { return; }
      ok := EraseJobs();
      if !ok { return; }
      ok := EraseUsage();
    }

    method EraseContent() returns (ok: bool)
      requires cursor == MappingsDeleted && AllSettled(data, uid, 2)
      modifies this`calls, this`data, this`cursor
      ensures Toward(old(data), data, uid) && AllSettled(data, uid, Done(cursor)) && cursor in {MappingsDeleted, ContentDeleted}
      ensures ok ==> cursor == ContentDeleted
      ensures (forall i :: weather(i).Fine?) ==> ok
    {
      ok := DisposeOfContent();
      if !ok { return; }
      ContentCompletes(data, uid);
      ok := Advance(ContentDeleted);
    }

    method EraseLogs() returns (ok: bool)
      requires cursor == ContentDeleted && AllSettled(data, uid, 3)
      modifies this`calls, this`data, this`cursor
      ensures Toward(old(data), data, uid) && AllSettled(data, uid, Done(cursor)) && cursor in {ContentDeleted, LogsAnonymized}
      ensures ok ==> cursor == LogsAnonymized
      ensures (forall i :: weather(i).Fine?) ==> ok
    {
      ok := DrainScrub(Logs);
      if !ok { return; }
      ok := Advance(LogsAnonymized);
    }

    method EraseAudit() returns (ok: bool)
      requires cursor == LogsAnonymized && AllSettled(data, uid, 4)
      modifies this`calls, this`data, this`cursor
      ensures Toward(old(data), data, uid) && AllSettled(data, uid, Done(cursor)) && cursor in {LogsAnonymized, AuditScrubbed}
      ensures ok ==> cursor == AuditScrubbed
      ensures (forall i :: weather(i).Fine?) ==> ok
    {
      ok := DrainScrub(AuditEvents);
      if !ok { return; }
      ok := Advance(AuditScrubbed);
    }

    /** The last step; a request without a user never gets past it. */
    method EraseAccount() returns (ok: bool)
      requires cursor == AuditScrubbed && AllSettled(data, uid, 5) && !completed
      modifies this`calls, this`data, this`completed
      ensures Toward(old(data), data, uid) && (completed ==> AllSettled(data, uid, 6))
      ensures ok ==> completed
      ensures uid != 0 && (forall i :: weather(i).Fine?) ==> ok
    {
      if uid == 0 {
        return false;
      }
      ok := ScrubAll(Users);
      if !ok { return; }
      ok := Complete();
    }

    /** executeErasure, the steps that delete. */
    method EraseRows() returns (ok: bool)
      requires AllSettled(data, uid, Done(cursor))
      modifies this`calls, this`data, this`cursor
      ensures Toward(old(data), data, uid) && AllSettled(data, uid, Done(cursor)) && Done(old(cursor)) <= Done(cursor)
      ensures ok && !old(cursor).Unknown? ==> Done(cursor) >= 3
      ensures old(cursor).Unknown? || Done(old(cursor)) >= 3 ==> ok && data == old(data) && cursor == old(cursor)
      ensures (forall i :: weather(i).Fine?) ==> ok
    {
      ok := true;
      if cursor == NotStarted {
        ok := EraseCredentials();
        if !ok { return; }
      }
      if cursor == TokensDeleted {
        ok := EraseMappings();
        if !ok { return; }
      }
      if cursor == MappingsDeleted {
        ok := EraseContent();
      }
    }

    /** executeErasure, the steps that scrub. */
    method EraseRecords() returns (ok: bool)
      requires AllSettled(data, uid, Done(cursor))
      modifies this`calls, this`data, this`cursor
      ensures Toward(old(data), data, uid) && AllSettled(data, uid, Done(cursor)) && Done(old(cursor)) <= Done(cursor)
      ensures ok && Done(old(cursor)) >= 3 ==> cursor == AuditScrubbed
      ensures old(cursor).Unknown? ==> ok && data == old(data) && cursor == old(cursor)
      ensures (forall i :: weather(i).Fine?) ==> ok
    {
      ok := true;
      if cursor == ContentDeleted {
        ok := EraseLogs();
        if !ok { return; }
      }
      if cursor == LogsAnonymized {
        ok := EraseAudit();
      }
    }

    /** executeErasure: from the persisted cursor on, as far as the store lets it. */
    method ExecuteErasure() returns (ok: bool)
      requires Honest() && !completed
      modifies this`calls, this`data, this`cursor, this`completed
      ensures Toward(old(data), data, uid) && Honest() && Done(old(cursor)) <= Done(cursor)
      ensures ok ==> completed
      ensures completed ==> Erased(old(data), data, uid)
      ensures old(cursor).Unknown? ==> !ok && data == old(data) && cursor == old(cursor) && !completed
      ensures uid != 0 && !old(cursor).Unknown? && (forall i :: weather(i).Fine?) ==> ok
    {
      ok := EraseRows();
      if !ok { return; }
      ok := EraseRecords();
      if !ok { return; }
      if cursor == AuditScrubbed {
        ok := EraseAccount();
        if completed {
          SettledIsErased(old(data), data, uid);
        }
        return;
      }
      return false;
    }

    /** The executor's ticks: a pending request is taken up again and again, however
        each pass ends. */
    method Retry(passes: nat)
      requires Honest()
      modifies this`calls, this`data, this`cursor, this`completed
      ensures Toward(old(data), data, uid) && Honest() && Done(old(cursor)) <= Done(cursor)
      ensures completed ==> data == Final(old(data), uid) && Erased(old(data), data, uid)
      ensures passes > 0 && uid != 0 && !old(cursor).Unknown? && (forall i :: weather(i).Fine?) ==> completed
    {
      for i := 0 to passes
        invariant Toward(old(data), data, uid) && Honest() && Done(old(cursor)) <= Done(cursor)
        invariant i == 0 ==> cursor == old(cursor)
        invariant i > 0 && uid != 0 && !old(cursor).Unknown? && (forall j :: weather(j).Fine?) ==> completed
      {
        if !completed {
          var _ := ExecuteErasure();
        }
      }
      if completed {
        SettledIsFinal(data, uid);
        SettledIsErased(old(data), data, uid);
      }
    }
  }

  lemma CredentialsComplete(data: Data, uid: int)
    requires Settled(data, uid, Tokens) && Settled(data, uid, Totps) && Settled(data, uid, BackupCodes)
    requires Settled(data, uid, UserSessions) && Settled(data, uid, ProjectMembers) && Settled(data, uid, ResponseRegistry)
    requires Settled(data, uid, Grants)
    ensures AllSettled(data, uid, 1)
  {}

  predicate ContentSettled(data: Data, uid: int) {
    && Settled(data, uid, ChatMessages) && Settled(data, uid, ChatSessions) && Settled(data, uid, Midjourneys)
    && Settled(data, uid, Tasks) && Settled(data, uid, QuotaData) && Settled(data, uid, Presets) && Settled(data, uid, LogBodies)
  }

  lemma ContentCompletes(data: Data, uid: int)
    requires AllSettled(data, uid, 2) && ContentSettled(data, uid)
    ensures AllSettled(data, uid, 3)
  {}

  predicate NoneOpen(data: Data, uid: int) {
    forall k | k in data && k.table == Tasks && data[k].user == uid :: Closed(data[k]) == data[k]
  }

  lemma ClosedRow(uid: int, t: Table, row: Row)
    requires row.user == uid
    ensures Closed(Closed(row)) == Closed(row) && Closed(row).user == uid
    ensures t == Tasks && Closed(row) != row ==> Cleaned(uid, t, Closed(row)) == Cleaned(uid, t, row) != row
  {}

  lemma ScrubbedRow(uid: int, t: Table, row: Row)
    requires Kept(t) && row.user == uid && (t == Tasks ==> Closed(row) == row)
    ensures Cleaned(uid, t, Scrubbed(t, row)) == Scrubbed(t, row) == Cleaned(uid, t, row) && Scrubbed(t, row).user == uid
  {}

  lemma FewerToScrub(data: Data, uid: int, t: Table, ids: set<Key>, next: Data)
    requires t in {Logs, AuditEvents} && ids <= Hits(data, uid, t) && ids != {}
    requires next.Keys == data.Keys && forall k | k in data :: next[k] == if k in ids then Scrubbed(t, data[k]) else data[k]
    ensures |Hits(next, uid, t)| < |Hits(data, uid, t)|
  {
    forall k | k in Hits(next, uid, t)
      ensures k in Hits(data, uid, t) - ids
    {
      if k in ids {
        ScrubbedRow(uid, t, data[k]);
      }
    }
    Smaller(Hits(next, uid, t), Hits(data, uid, t) - ids);
    assert |Hits(data, uid, t) - ids| == |Hits(data, uid, t)| - |ids|;
  }

  /** The first rows of a selection. */
  method Batch(hits: set<Key>) returns (ids: set<Key>)
    ensures ids <= hits && |ids| <= BATCH && (ids == {} <==> hits == {})
  {
    ids := {};
    var rest := hits;
    while rest != {} && |ids| < BATCH
      invariant ids <= hits && rest == hits - ids && |ids| <= BATCH
      decreases |rest|
    {
      var k :| k in rest;
      ids, rest := ids + {k}, rest - {k};
    }
  }

  lemma AllGone(data: Data, uid: int, t: Table)
    requires MayDelete(data, uid, t)
    ensures Settled(data - Hits(data, uid, t), uid, t)
  {
    var next := data - Hits(data, uid, t);
    forall k | k in next && k.table == t
      ensures !Doomed(next, uid, k)
    {
      assert k !in Hits(data, uid, t);
    }
  }

  /** Deleting some of the hits leaves fewer. */
  lemma FewerHits(data: Data, uid: int, t: Table, ids: set<Key>)
    requires MayDelete(data, uid, t) && ids <= Hits(data, uid, t) && ids != {}
    ensures |Hits(data - ids, uid, t)| < |Hits(data, uid, t)|
  {
    var next := data - ids;
    forall k | k in Hits(next, uid, t)
      ensures k in Hits(data, uid, t) - ids
    {}
    Smaller(Hits(next, uid, t), Hits(data, uid, t) - ids);
    Smaller(Hits(data, uid, t) - ids, Hits(data, uid, t));
    assert |Hits(data, uid, t) - ids| == |Hits(data, uid, t)| - |ids|;
  }

  lemma {:induction false} Smaller(a: set<Key>, b: set<Key>)
    requires a <= b
    ensures |a| <= |b|
    decreases b
  {
    if a != {} {
      var k :| k in a;
      Smaller(a - {k}, b - {k});
    }
  }

  // ---------------------------------------------------------------- what the outcome is

  /** Erasing again changes nothing. */
  lemma ErasureIsIdempotent(data: Data, uid: int)
    ensures Final(Final(data, uid), uid) == Final(data, uid)
  {
    var next := Final(data, uid);
    forall k | k in next
      ensures !Doomed(next, uid, k) && Cleaned(uid, k.table, next[k]) == next[k]
    {
      CleanedStays(uid, k.table, data[k]);
      if next[k].Message? && Key(ChatSessions, next[k].session) in next {
        var s := Key(ChatSessions, next[k].session);
        CleanedStays(uid, s.table, data[s]);
      }
    }
  }

  lemma CleanedStays(uid: int, t: Table, row: Row)
    ensures Cleaned(uid, t, Cleaned(uid, t, row)) == Cleaned(uid, t, row) && Cleaned(uid, t, row).user == row.user
    ensures !Kept(t) ==> Cleaned(uid, t, row) == row
  {
    ClosedRow(row.user, t, row);
    if row.user == uid && Kept(t) {
      ScrubbedRow(uid, t, if t == Tasks then Closed(row) else row);
    }
  }

  /** Two users' erasures do not depend on their order. */
  lemma ErasuresCommute(data: Data, a: int, b: int)
    requires a != b
    ensures Final(Final(data, a), b) == Final(Final(data, b), a)
  {
    forall k | k in data
      ensures k in Final(Final(data, a), b) <==> !Doomed(data, a, k) && !Doomed(data, b, k)
      ensures k in Final(Final(data, b), a) <==> !Doomed(data, a, k) && !Doomed(data, b, k)
    {
      DoomedLater(data, a, b, k);
      DoomedLater(data, b, a, k);
    }
    forall k | k in Final(Final(data, a), b)
      ensures k in Final(Final(data, b), a) && Final(Final(data, a), b)[k] == Final(Final(data, b), a)[k]
    {
      CleanedStays(a, k.table, data[k]);
      CleanedStays(b, k.table, data[k]);
    }
  }

  /** What user `a`'s erasure leaves of user `b`'s claims. */
  lemma DoomedLater(data: Data, a: int, b: int, k: Key)
    requires a != b && k in data
    ensures k in Final(data, a) ==> Doomed(Final(data, a), b, k) == Doomed(data, b, k)
  {
    if k in Final(data, a) {
      CleanedStays(a, k.table, data[k]);
      if data[k].Message? && Key(ChatSessions, data[k].session) in data {
        CleanedStays(a, ChatSessions, data[Key(ChatSessions, data[k].session)]);
      }
    }
  }

  /** Rows of others stay as they are, except messages inside the user's own chats. */
  lemma OthersKeepTheirRows(data: Data, uid: int, k: Key)
    requires k in data && data[k].user != uid && !(k.table == ChatMessages && InSessionOf(data, uid, data[k]))
    ensures k in Final(data, uid) && Final(data, uid)[k] == data[k]
  {}

  predicate Anonymous(row: Row)
    requires row.Log?
  {
    && row.username == MARKER && row.tokenName == MARKER
    && row.ip == "" && row.content == "" && row.other == "" && row.employee == ""
  }

  /** The batch takes a log for scrubbed by its user name alone.  So a log row ends
      anonymous if and only if it already was, or its user name was not the marker. */
  lemma LogEndsAnonymousIff(data: Data, uid: int, k: Key)
    requires k in data && k.table == Logs && data[k].Log? && data[k].user == uid
    ensures k in Final(data, uid) && Final(data, uid)[k].Log? && Final(data, uid)[k].quota == data[k].quota
    ensures Anonymous(Final(data, uid)[k]) <==> data[k].username != MARKER || Anonymous(data[k])
  {}

  lemma MarkerNameKeepsContent() returns (data: Data, uid: int, k: Key)
    ensures k in data && k.table == Logs && data[k].user == uid
    ensures k in Final(data, uid) && Final(data, uid)[k].Log? && !Anonymous(Final(data, uid)[k])
  {
    k, uid := Key(Logs, 1), 7;
    data := map[k := Log(uid, MARKER, "key", "10.0.0.1", "text", "", "", 5)];
  }

  /** Nothing personal is left in a user row. */
  predicate Nameless(row: Row)
    requires row.Account?
  {
    && row.handle == ErasedHandle(row.user) && row.displayName == MARKER
    && row.email == "" && row.remark == "" && row.setting == ""
    && row.accessToken.None? && row.platformId.None? && !row.enabled && row.deleted
  }

  /** The last update does not see a user row that is already soft-deleted, and the
      request completes all the same.  So the user's row ends anonymous if and only if
      it was not soft-deleted when the step ran, or was anonymous before. */
  lemma UserEndsAnonymousIff(data: Data, uid: int, k: Key)
    requires k in data && k.table == Users && data[k].Account? && data[k].user == uid
    ensures k in Final(data, uid) && Final(data, uid)[k].Account? && Final(data, uid)[k].quota == data[k].quota
    ensures Nameless(Final(data, uid)[k]) <==> !data[k].deleted || Nameless(data[k])
    ensures data[k].deleted ==> Final(data, uid)[k] == data[k]
  {}

  /** A user deleted between intake and the last step keeps name, e-mail and platform
      binding through a completed erasure. */
  method SoftDeletedUserSurvives(email: string) returns (store: Store, k: Key)
    requires email != ""
    ensures store.completed && k in store.data && store.data[k].Account?
    ensures store.data[k].user == store.uid && store.data[k].email == email && !Nameless(store.data[k])
  {
    k := Key(Users, 7);
    var row := Account(7, Given("name"), "display", email, "", "", None, Some(3), false, true, 5);
    store := new Store(7, i => Fine, map[k := row]);
    store.Retry(1);
    UserEndsAnonymousIff(map[k := row], 7, k);
  }

  /** Why messages go first: a session deleted before its messages takes with it the
      only trace that another author's message was in the user's chat. */
  lemma SessionFirstStrandsMessage() returns (data: Data, uid: int, session: Key, message: Key)
    ensures session in data && Doomed(data, uid, session) && message in data && Doomed(data, uid, message)
    ensures message !in Final(data, uid) && message in Final(data - {session}, uid)
  {
    uid, session, message := 7, Key(ChatSessions, 3), Key(ChatMessages, 4);
    data := map[session := Plain(uid, "title"), message := Message(8, 3, "text")];
  }
}

/** Runs of agent transactions, in any order and with any arguments, and what holds over them. */
module AgentRuns {
  import opened Wrappers
  import opened AgentModel
  import opened AgentInvariant

  datatype Step =
    | DoCreate(a: Id, key: Id, iteration: Id, payload: Payload, owned: bool)
    | DoClaim(rows: seq<Id>, gate: set<Id>, picks: map<Id, Id>, runner: Id,
              now: int, seconds: int, ids: ClaimIds)
    | DoAdopt(rows: seq<Id>, ready: set<Id>, runner: Id, now: int, seconds: int)
    | DoStart(a: Id, token: Id, session: Option<Id>, gate: set<Id>, now: int, seconds: int)
    | DoHeartbeat(a: Id, token: Id, now: int, seconds: int)
    | DoEnsure(a: Id, attempt: Id, turn: Id, runner: Id, gate: set<Id>,
               now: int, seconds: int)
    | DoComplete(value: Receipt, token: Id, continuation: Option<Id>, gate: set<Id>, now: int)
    | DoDefer(a: Id, token: Id, failure: Completion, now: int, seconds: int)
    | DoDecide(a: Id, attempt: Id, retry: bool, now: int, seconds: int)
    | DoCancel(a: Id)
    | DoSweep(current: set<Id>, scope: Option<set<Id>>)
    | DoRecoverCancelled(a: Id, attempt: Id, turn: Id, runner: Id, gate: set<Id>,
                         registered: bool, now: int, seconds: int)
    | DoRecoverDiscarded(a: Id, source: Id, turn: Id, runner: Id, gate: set<Id>,
                         registered: bool, now: int, seconds: int, ids: ClaimIds)

  function Apply(db: Db, step: Step): Result<Db> {
    match step
    case DoCreate(a, key, iteration, payload, owned) => Create(db, a, key, iteration, payload, owned)
    case DoClaim(rows, gate, picks, runner, now, seconds, ids) =>
      Claim(db, rows, gate, picks, runner, now, seconds, ids)
    case DoAdopt(rows, ready, runner, now, seconds) => Adopt(db, rows, ready, runner, now, seconds)
    case DoStart(a, token, session, gate, now, seconds) => Start(db, a, token, session, gate, now, seconds)
    case DoHeartbeat(a, token, now, seconds) => Heartbeat(db, a, token, now, seconds)
    case DoEnsure(a, attempt, turn, runner, gate, now, seconds) =>
      EnsureCompletionLease(db, a, attempt, turn, runner, gate, now, seconds)
    case DoComplete(value, token, continuation, gate, now) =>
      Complete(db, value, token, continuation, gate, now)
    case DoDefer(a, token, failure, now, seconds) => Defer(db, a, token, failure, now, seconds)
    case DoDecide(a, attempt, retry, now, seconds) => Decide(db, a, attempt, retry, now, seconds)
    case DoCancel(a) => Cancel(db, a)
    case DoSweep(current, scope) => Sweep(db, current, scope)
    case DoRecoverCancelled(a, attempt, turn, runner, gate, registered, now, seconds) =>
      RecoverCancelled(db, a, attempt, turn, runner, gate, registered, now, seconds)
    case DoRecoverDiscarded(a, source, turn, runner, gate, registered, now, seconds, ids) =>
      RecoverDiscarded(db, a, source, turn, runner, gate, registered, now, seconds, ids)
  }

  /** A rejected transaction changes nothing and the run goes on. */
  function Exec(db: Db, steps: seq<Step>): Db
    decreases |steps|
  {
    if steps == [] then db
    else Exec(if Apply(db, steps[0]).Success? then Apply(db, steps[0]).value else db, steps[1..])
  }

  // ----- Each transaction keeps the invariant -----

  lemma CreateKeepsInv(db: Db, a: Id, key: Id, iteration: Id, payload: Payload, owned: bool, db': Db)
    requires Inv(db) && Create(db, a, key, iteration, payload, owned) == Success(db')
    ensures Inv(db')
  {
    if key !in db.keys {
      var r := Record(payload, iteration, Queued, Queued, None, None, None, map[], None, None);
      PutRecordsOk(db.records, a, r);
    }
  }

  lemma ClaimChosenKeepsInv(db: Db, a: Id, agent: Id, runner: Id, expires: int, ids: ClaimIds, db': Db)
    requires RecordsOk(db.records) && RowsOk(db)
    requires a in db.records && db.records[a].state == Queued
    requires ClaimChosen(db, a, agent, runner, expires, ids) == Success(db')
    ensures Inv(db')
  {
    var r := db.records[a];
    assert RecordOk(r);
    ClaimRecordOk(r, agent, runner, expires, ids);
    var r' := ClaimRecord(r, agent, runner, expires, ids);
    PutRecordsOk(db.records, a, r');
    PutFreshRowsOk(db, a, r', ids.token);
  }

  lemma ClaimFromKeepsInv(db: Db, rows: seq<Id>, gate: set<Id>, picks: map<Id, Id>,
                          runner: Id, expires: int, ids: ClaimIds, db': Db)
    requires RecordsOk(db.records) && RowsOk(db)
    requires ClaimFrom(db, rows, gate, picks, runner, expires, ids) == Success(db')
    ensures Inv(db')
  {
    var chosen := FirstClaimable(db, rows, gate, picks);
    if chosen.Some? {
      ClaimChosenKeepsInv(db, chosen.value, picks[chosen.value], runner, expires, ids, db');
    }
  }

  lemma ClaimKeepsInv(db: Db, rows: seq<Id>, gate: set<Id>, picks: map<Id, Id>,
                      runner: Id, now: int, seconds: int, ids: ClaimIds, db': Db)
    requires Inv(db) && Claim(db, rows, gate, picks, runner, now, seconds, ids) == Success(db')
    ensures Inv(db')
  {
    ExpireOk(db, now);
    ClaimFromKeepsInv(Expire(db, now), rows, gate, picks, runner, now + seconds, ids, db');
  }

  lemma AdoptFromKeepsInv(db: Db, rows: seq<Id>, ready: set<Id>, runner: Id, expires: int, db': Db)
    requires RecordsOk(db.records) && RowsOk(db)
    requires AdoptFrom(db, rows, ready, runner, expires) == Success(db')
    ensures Inv(db')
  {
    var chosen := FirstAdoptable(db, rows, ready);
    if chosen.Some? {
      var r := db.records[chosen.value];
      assert RecordOk(r);
      PutOk(db, chosen.value, AdoptRecord(r, runner, expires), db');
    }
  }

  lemma AdoptKeepsInv(db: Db, rows: seq<Id>, ready: set<Id>, runner: Id, now: int, seconds: int, db': Db)
    requires Inv(db) && Adopt(db, rows, ready, runner, now, seconds) == Success(db')
    ensures Inv(db')
  {
    ExpireOk(db, now);
    AdoptFromKeepsInv(Expire(db, now), rows, ready, runner, now + seconds, db');
  }

  lemma StartKeepsInv(db: Db, a: Id, token: Id, session: Option<Id>, gate: set<Id>,
                      now: int, seconds: int, db': Db)
    requires Inv(db) && Start(db, a, token, session, gate, now, seconds) == Success(db')
    ensures Inv(db')
  {
    var r := db.records[a];
    var r' := StartRecord(r, a, session, a in gate, now + seconds).value;
    assert RecordOk(r);
    StartRecordOk(r, a, session, a in gate, now + seconds, r');
    PutOk(db, a, r', db');
  }

  lemma HeartbeatKeepsInv(db: Db, a: Id, token: Id, now: int, seconds: int, db': Db)
    requires Inv(db) && Heartbeat(db, a, token, now, seconds) == Success(db')
    ensures Inv(db')
  {
    assert RecordOk(db.records[a]);
    RenewOk(db.records[a], now + seconds);
    PutOk(db, a, Renew(db.records[a], now + seconds), db');
  }

  lemma EnsureKeepsInv(db: Db, a: Id, attempt: Id, turn: Id, runner: Id,
                       gate: set<Id>, now: int, seconds: int, db': Db)
    requires Inv(db)
    requires EnsureCompletionLease(db, a, attempt, turn, runner, gate, now, seconds) == Success(db')
    ensures Inv(db')
  {
    if db' != db {
      var r := db.records[a];
      assert RecordOk(r);
      ReviveOk(r, runner, now + seconds);
      var r' := Revive(r, runner, now + seconds);
      assert r' == r'.(receipt := None);
      PutOk(db, a, r', db');
    }
  }

  lemma IntentRowsOk(db: Db, key: (Id, Id), intent: Intent)
    requires RowsOk(db) && key.0 in db.records && key.1 in db.records[key.0].tries
    requires intent.receipt.action == key.0 && intent.receipt.status == Completed
    ensures RowsOk(db.(intents := db.intents[key := intent]))
  {
  }

  lemma CompleteKeepsInv(db: Db, value: Receipt, token: Id, continuation: Option<Id>,
                         gate: set<Id>, now: int, db': Db)
    requires Inv(db) && Complete(db, value, token, continuation, gate, now) == Success(db')
    ensures Inv(db')
  {
    var a := value.action;
    if db' != db {
      var r := db.records[a];
      var v := Effective(value, gate);
      assert RecordOk(r);
      CompleteRecordOk(r, v);
      var plain := Put(db, a, CompleteRecord(r, v));
      PutOk(db, a, CompleteRecord(r, v), plain);
      if continuation.Some? && v.status == Completed {
        IntentRowsOk(plain, (a, r.attempt.value), Intent(v, continuation.value));
      }
    }
  }

  lemma DeferKeepsInv(db: Db, a: Id, token: Id, failure: Completion, now: int, seconds: int, db': Db)
    requires Inv(db) && Defer(db, a, token, failure, now, seconds) == Success(db')
    ensures Inv(db')
  {
    var r := db.records[a];
    assert RecordOk(r);
    DeferRecordOk(r, failure, now + seconds);
    PutOk(db, a, DeferRecord(r, failure, now + seconds), db');
  }

  lemma DecideKeepsInv(db: Db, a: Id, attempt: Id, retry: bool, now: int, seconds: int, db': Db)
    requires Inv(db) && Decide(db, a, attempt, retry, now, seconds) == Success(db')
    ensures Inv(db')
  {
    if db' != db {
      var r := db.records[a];
      var t := CurrentTry(r).value;
      var failure := Arbitrated(t.completion.failure, r.state).value;
      assert RecordOk(r);
      if retry {
        var done := t.completion.(failure := failure);
        RequeueRecordOk(r, done, now + seconds);
        PutOk(db, a, RequeueRecord(r, done, now + seconds), db');
      } else {
        var done := t.completion.(failure := failure.(suffixes := failure.suffixes + 1));
        FailRecordOk(r, a, done);
        PutOk(db, a, FailRecord(r, a, done), db');
      }
    }
  }

  lemma CancelKeepsInv(db: Db, a: Id, db': Db)
    requires Inv(db) && Cancel(db, a) == Success(db')
    ensures Inv(db')
  {
    if db' != db {
      var r := db.records[a];
      assert RecordOk(r);
      CancelRecordOk(r);
      PutOk(db, a, CancelRecord(r), db');
    }
  }

  lemma SweepKeepsInv(db: Db, current: set<Id>, scope: Option<set<Id>>, db': Db)
    requires Inv(db) && Sweep(db, current, scope) == Success(db')
    ensures Inv(db')
  {
    forall a | a in db.records
      ensures Follows(db.records[a], db'.records[a])
    {
      var r := db.records[a];
      assert RecordOk(r);
      if Sweepable(r, a, current, scope) {
        SweepRecordOk(r, a, current, scope);
      }
    }
    AllFollowOk(db, db');
  }

  lemma AllFollowOk(db: Db, db': Db)
    requires RowsOk(db) && db' == db.(records := db'.records) && db'.records.Keys == db.records.Keys
    requires forall a :: a in db.records ==> Follows(db.records[a], db'.records[a])
    ensures RecordsOk(db'.records) && RowsOk(db')
  {
    forall k | k in db'.intents
      ensures k.0 in db'.records && k.1 in db'.records[k.0].tries
    {
      assert k.1 in db.records[k.0].tries.Keys;
    }
  }

  lemma RecoverCancelledKeepsInv(db: Db, a: Id, attempt: Id, turn: Id, runner: Id, gate: set<Id>,
                                 registered: bool, now: int, seconds: int, db': Db)
    requires Inv(db)
    requires RecoverCancelled(db, a, attempt, turn, runner, gate, registered, now, seconds) == Success(db')
    ensures Inv(db')
  {
    var r := db.records[a];
    assert RecordOk(r);
    ReviveOk(r, runner, now + seconds);
    PutOk(db, a, Revive(r, runner, now + seconds).(receipt := None), db');
  }

  lemma RecoverDiscardedKeepsInv(db: Db, a: Id, source: Id, turn: Id, runner: Id, gate: set<Id>,
                                 registered: bool, now: int, seconds: int, ids: ClaimIds, db': Db)
    requires Inv(db)
    requires RecoverDiscarded(db, a, source, turn, runner, gate, registered, now, seconds, ids) == Success(db')
    ensures Inv(db')
  {
    var r := db.records[a];
    assert RecordOk(r);
    ReplayRecordOk(r, r.agent.value, turn, runner, now + seconds, ids);
    var r' := ReplayRecord(r, r.agent.value, turn, runner, now + seconds, ids);
    PutRecordsOk(db.records, a, r');
    PutFreshRowsOk(db, a, r', ids.token);
  }

  lemma StepKeepsInv(db: Db, step: Step, db': Db)
    requires Inv(db) && Apply(db, step) == Success(db')
    ensures Inv(db')
  {
    match step
    case DoCreate(a, key, iteration, payload, owned) =>
      CreateKeepsInv(db, a, key, iteration, payload, owned, db');
    case DoClaim(rows, gate, picks, runner, now, seconds, ids) =>
      ClaimKeepsInv(db, rows, gate, picks, runner, now, seconds, ids, db');
    case DoAdopt(rows, ready, runner, now, seconds) =>
      AdoptKeepsInv(db, rows, ready, runner, now, seconds, db');
    case DoStart(a, token, session, gate, now, seconds) =>
      StartKeepsInv(db, a, token, session, gate, now, seconds, db');
    case DoHeartbeat(a, token, now, seconds) => HeartbeatKeepsInv(db, a, token, now, seconds, db');
    case DoEnsure(a, attempt, turn, runner, gate, now, seconds) =>
      EnsureKeepsInv(db, a, attempt, turn, runner, gate, now, seconds, db');
    case DoComplete(value, token, continuation, gate, now) =>
      CompleteKeepsInv(db, value, token, continuation, gate, now, db');
    case DoDefer(a, token, failure, now, seconds) => DeferKeepsInv(db, a, token, failure, now, seconds, db');
    case DoDecide(a, attempt, retry, now, seconds) => DecideKeepsInv(db, a, attempt, retry, now, seconds, db');
    case DoCancel(a) => CancelKeepsInv(db, a, db');
    case DoSweep(current, scope) => SweepKeepsInv(db, current, scope, db');
    case DoRecoverCancelled(a, attempt, turn, runner, gate, registered, now, seconds) =>
      RecoverCancelledKeepsInv(db, a, attempt, turn, runner, gate, registered, now, seconds, db');
    case DoRecoverDiscarded(a, source, turn, runner, gate, registered, now, seconds, ids) =>
      RecoverDiscardedKeepsInv(db, a, source, turn, runner, gate, registered, now, seconds, ids, db');
  }
}

/** What every transaction on agent actions keeps. */
module AgentInvariant {
  import opened Wrappers
  import opened AgentModel

  // ----- One record -----

  /** The ordinals of the attempts of an action are exactly 1 to their number. */
  predicate OrdinalsExact(tries: map<Id, Attempt>) {
    && (forall t :: t in tries ==> 1 <= tries[t].ordinal <= |tries|)
    && (forall t, u :: t in tries && u in tries && tries[t].ordinal == tries[u].ordinal ==> t == u)
    && (forall k :: 1 <= k <= |tries| ==> OrdinalTaken(tries, k))
  }

  predicate AttemptsOk(r: Record) {
    && (r.attempt.None? ==> r.tries == map[])
    && (r.attempt.Some? ==>
          r.attempt.value in r.tries && r.tries[r.attempt.value].ordinal == |r.tries|)
    && OrdinalsExact(r.tries)
  }

  /** The action and its current attempt agree on claimed, running and uncertain, and no
      superseded attempt is in one of these states. */
  predicate MirrorOk(r: Record) {
    && (Working(r.state) ==> r.attempt.Some?)
    && (forall t :: t in r.tries && Working(r.tries[t].state) ==>
          r.attempt == Some(t) && r.state == r.tries[t].state)
    && (Working(r.state) && CurrentTry(r).Some? ==> CurrentTry(r).value.state == r.state)
  }

  predicate LeaseOk(r: Record) {
    && (r.attempt.Some? <==> r.lease.Some?)
    && r.leaseId == (if r.lease.Some? then Some(r.lease.value.id) else None)
    && (Executing(r.state) ==> HasActiveLease(r))
  }

  /** A committed receipt belongs to the terminal state of the action, whose lease is not active. */
  predicate ReceiptOk(r: Record) {
    r.receipt.Some? ==>
      && r.receipt.value.status == r.state && Terminal(r.state)
      && r.lease.Some? && r.lease.value.state != Active
  }

  /** A live action has a live iteration; the converse fails, because expiry marks the iteration
      of any expired lease uncertain. */
  predicate IterationOk(r: Record) {
    Live(r.state) ==> Live(r.iterationState)
  }

  predicate RecordOk(r: Record) {
    AttemptsOk(r) && MirrorOk(r) && LeaseOk(r) && ReceiptOk(r) && IterationOk(r)
  }

  // ----- The database -----

  predicate TokensOk(db: Db) {
    forall a :: a in db.records && db.records[a].lease.Some? ==>
      && db.records[a].lease.value.token in db.issued
      && db.issued[db.records[a].lease.value.token] == a
  }

  predicate IntentsOk(db: Db) {
    forall k :: k in db.intents ==>
      && k.0 in db.records && k.1 in db.records[k.0].tries
      && db.intents[k].receipt.action == k.0 && db.intents[k].receipt.status == Completed
  }

  predicate KeysOk(db: Db) {
    forall k :: k in db.keys ==> db.keys[k] in db.records
  }

  predicate RecordsOk(records: map<Id, Record>) {
    forall a {:trigger RecordOk(records[a])} :: a in records ==> RecordOk(records[a])
  }

  predicate Inv(db: Db) {
    && RecordsOk(db.records)
    && OneActivePerRole(db.records) && OneLivePerCandidate(db.records)
    && TokensOk(db) && IntentsOk(db) && KeysOk(db)
  }

  // ----- Records through a transaction -----

  lemma MarkTryOk(r: Record, state: State, session: Option<Id>, completion: Option<Completion>)
    requires AttemptsOk(r)
    ensures var r' := MarkTry(r, state, session, completion);
            && AttemptsOk(r') && r'.tries.Keys == r.tries.Keys
            && r' == r.(tries := r'.tries)
            && (forall t :: t in r.tries && r.attempt != Some(t) ==> r'.tries[t] == r.tries[t])
            && (CurrentTry(r).Some? ==>
                  CurrentTry(r').Some? && CurrentTry(r').value.state == state)
  {
    var r' := MarkTry(r, state, session, completion);
    if CurrentTry(r).Some? {
      OrdinalsKept(r.tries, r'.tries);
    }
  }

  lemma SetTryOk(r: Record, t: Attempt)
    requires AttemptsOk(r) && CurrentTry(r).Some? && t.ordinal == CurrentTry(r).value.ordinal
    ensures var r' := SetTry(r, t);
            && AttemptsOk(r') && r'.tries.Keys == r.tries.Keys && r' == r.(tries := r'.tries)
            && (forall u :: u in r.tries && r.attempt != Some(u) ==> r'.tries[u] == r.tries[u])
            && CurrentTry(r') == Some(t)
  {
    OrdinalsKept(r.tries, SetTry(r, t).tries);
  }

  lemma OrdinalsKept(tries: map<Id, Attempt>, tries': map<Id, Attempt>)
    requires OrdinalsExact(tries) && tries'.Keys == tries.Keys
    requires forall t :: t in tries ==> tries'[t].ordinal == tries[t].ordinal
    ensures OrdinalsExact(tries') && |tries'| == |tries|
  {
    assert |tries'| == |tries'.Keys| == |tries.Keys| == |tries|;
    forall k | 1 <= k <= |tries'|
      ensures OrdinalTaken(tries', k)
    {
      assert OrdinalTaken(tries, k);
      var t :| t in tries && tries[t].ordinal == k;
      assert t in tries' && tries'[t].ordinal == k;
    }
  }

  /** A new attempt takes the next ordinal whether it is counted as one more than the rows or as
      one more than the current ordinal. */
  lemma NextOrdinal(tries: map<Id, Attempt>, id: Id, t: Attempt)
    requires OrdinalsExact(tries) && id !in tries && t.ordinal == |tries| + 1
    ensures OrdinalsExact(tries[id := t]) && |tries[id := t]| == |tries| + 1
  {
    var longer := tries[id := t];
    assert longer.Keys == tries.Keys + {id};
    forall k | 1 <= k <= |longer|
      ensures OrdinalTaken(longer, k)
    {
      if k == |longer| {
        assert longer[id].ordinal == k;
      } else {
        assert OrdinalTaken(tries, k);
        var u :| u in tries && tries[u].ordinal == k;
        assert longer[u].ordinal == k;
      }
    }
  }

  lemma ExpireRecordOk(r: Record)
    requires RecordOk(r) && HasActiveLease(r)
    ensures RecordOk(ExpireRecord(r))
  {
    var r' := ExpireRecord(r);
    OrdinalsKept(r.tries, r'.tries);
    assert CurrentTry(r').value == ExpireTry(CurrentTry(r).value);
  }

  lemma ClaimRecordOk(r: Record, agent: Id, runner: Id, expires: int, ids: ClaimIds)
    requires RecordOk(r) && r.state == Queued && ids.attempt !in r.tries
    ensures RecordOk(ClaimRecord(r, agent, runner, expires, ids))
    ensures !OrdinalTaken(r.tries, |r.tries| + 1)
  {
    var t := Attempt(|r.tries| + 1, agent, Claimed, None, NO_COMPLETION);
    NextOrdinal(r.tries, ids.attempt, t);
  }

  lemma ReviveOk(r: Record, runner: Id, expires: int)
    requires RecordOk(r) && r.lease.Some?
    ensures Follows(r, Revive(r, runner, expires).(receipt := None))
  {
    MarkTryOk(r, Running, None, None);
  }

  /** What putting a changed record back needs to know about it. */
  predicate Follows(r: Record, r': Record) {
    RecordOk(r') && r'.tries.Keys >= r.tries.Keys && SameToken(r'.lease, r.lease)
  }

  predicate SameToken(l: Option<Lease>, m: Option<Lease>) {
    (l.Some? <==> m.Some?) && (l.Some? ==> l.value.token == m.value.token)
  }

  lemma RenewOk(r: Record, expires: int)
    requires RecordOk(r)
    ensures Follows(r, Renew(r, expires))
  {
  }

  lemma StartRecordOk(r: Record, a: Id, session: Option<Id>, current: bool, expires: int, r': Record)
    requires RecordOk(r) && HasActiveLease(r)
    requires StartRecord(r, a, session, current, expires) == Success(r')
    ensures Follows(r, r')
  {
    var t := CurrentTry(r).value;
    if r.state == Running {
      RenewOk(r, expires);
    } else if r.state == Claimed && !current {
      SetTryOk(r, t.(state := Cancelled, session := session, completion := GateObsolete(session)));
    } else {
      SetTryOk(r, t.(state := Running, session := session));
      RunningRecordOk(r, t.(state := Running, session := session), expires);
    }
  }

  lemma RunningRecordOk(r: Record, t: Attempt, expires: int)
    requires RecordOk(r) && HasActiveLease(r) && (r.state == Claimed || r.state == Uncertain)
    requires CurrentTry(r).Some? && t.ordinal == CurrentTry(r).value.ordinal && t.state == Running
    ensures Follows(r, Renew(SetTry(r, t), expires).(state := Running, iterationState := Running))
  {
    SetTryOk(r, t);
  }

  lemma CompleteRecordOk(r: Record, v: Receipt)
    requires RecordOk(r) && HasActiveLease(r) && (Terminal(v.status) || v.status == Uncertain)
    ensures Follows(r, CompleteRecord(r, v))
  {
    MarkTryOk(r, v.status, v.completion.session, Some(v.completion));
  }

  lemma DeferRecordOk(r: Record, failure: Completion, expires: int)
    requires RecordOk(r) && HasActiveLease(r)
    ensures Follows(r, DeferRecord(r, failure, expires))
  {
    MarkTryOk(r, RetryPending, None, Some(failure));
  }

  lemma RequeueRecordOk(r: Record, done: Completion, expires: int)
    requires RecordOk(r) && r.lease.Some?
    ensures Follows(r, RequeueRecord(r, done, expires))
  {
    MarkTryOk(r, Failed, None, Some(done));
  }

  lemma FailRecordOk(r: Record, a: Id, done: Completion)
    requires RecordOk(r) && r.lease.Some?
    ensures Follows(r, FailRecord(r, a, done))
  {
    MarkTryOk(r, Failed, None, Some(done));
  }

  lemma CancelRecordOk(r: Record)
    requires RecordOk(r) && !Terminal(r.state)
    ensures Follows(r, CancelRecord(r))
  {
    OrdinalsKept(r.tries, CancelRecord(r).tries);
  }

  lemma ReplayRecordOk(r: Record, agent: Id, turn: Id, runner: Id, expires: int, ids: ClaimIds)
    requires RecordOk(r) && r.state == Failed && r.lease.Some? && CurrentTry(r).Some? && ids.attempt !in r.tries
    ensures RecordOk(ReplayRecord(r, agent, turn, runner, expires, ids))
    ensures !OrdinalTaken(r.tries, CurrentTry(r).value.ordinal + 1)
  {
    var t := Attempt(CurrentTry(r).value.ordinal + 1, agent, Running, Some(turn), NO_COMPLETION);
    NextOrdinal(r.tries, ids.attempt, t);
  }

  lemma SweepRecordOk(r: Record, a: Id, current: set<Id>, scope: Option<set<Id>>)
    requires RecordOk(r) && Sweepable(r, a, current, scope)
    ensures Follows(r, SweepRecord(r))
    ensures HasActiveLease(SweepRecord(r)) ==> HasActiveLease(r)
    ensures Live(SweepRecord(r).iterationState) ==> Live(r.iterationState)
  {
    var swept := r.(state := Cancelled,
                    iterationState := if r.iterationState == r.state then Cancelled else r.iterationState);
    MarkTryOk(swept, Cancelled, None, None);
  }

  // ----- Databases through a transaction -----

  /** Everything of the invariant that does not look inside a record's life cycle. */
  predicate RowsOk(db: Db) {
    TokensOk(db) && IntentsOk(db) && KeysOk(db)
  }

  lemma PutRowsOk(db: Db, a: Id, r: Record)
    requires RowsOk(db) && a in db.records
    requires r.tries.Keys >= db.records[a].tries.Keys && SameToken(r.lease, db.records[a].lease)
    ensures RowsOk(Put(db, a, r))
  {
    var db' := Put(db, a, r);
    forall k | k in db'.intents
      ensures k.0 in db'.records && k.1 in db'.records[k.0].tries
    {
      assert k.1 in db.records[k.0].tries.Keys;
    }
  }

  lemma PutFreshRowsOk(db: Db, a: Id, r: Record, token: Id)
    requires RowsOk(db) && a in db.records
    requires r.tries.Keys >= db.records[a].tries.Keys
    requires r.lease.Some? && r.lease.value.token == token && token !in db.issued
    ensures RowsOk(Put(db, a, r).(issued := db.issued[token := a]))
  {
    var db' := Put(db, a, r);
    forall k | k in db'.intents
      ensures k.0 in db'.records && k.1 in db'.records[k.0].tries
    {
      assert k.1 in db.records[k.0].tries.Keys;
    }
  }

  lemma PutRecordsOk(records: map<Id, Record>, a: Id, r: Record)
    requires RecordsOk(records) && RecordOk(r)
    ensures RecordsOk(records[a := r])
  {
    var records' := records[a := r];
    forall b | b in records'
      ensures RecordOk(records'[b])
    {
      assert b == a || RecordOk(records[b]);
    }
  }

  /** Putting one good record back keeps the invariant when the indexes accept it. */
  lemma PutOk(db: Db, a: Id, r: Record, db': Db)
    requires RecordsOk(db.records) && RowsOk(db) && a in db.records && Follows(db.records[a], r)
    requires Commit(Put(db, a, r)) == Success(db')
    ensures Inv(db')
  {
    PutRowsOk(db, a, r);
    PutRecordsOk(db.records, a, r);
  }

  lemma ExpireRecordsOk(db: Db, now: int)
    requires RecordsOk(db.records)
    ensures RecordsOk(Expire(db, now).records)
  {
    var db' := Expire(db, now);
    forall a | a in db'.records
      ensures RecordOk(db'.records[a])
    {
      assert RecordOk(db.records[a]);
      if IsExpired(db.records[a], now) {
        ExpireRecordOk(db.records[a]);
      }
    }
  }

  lemma ExpireRowsOk(db: Db, now: int)
    requires RowsOk(db) && OneActivePerRole(db.records)
    ensures RowsOk(Expire(db, now)) && OneActivePerRole(Expire(db, now).records)
  {
    var db' := Expire(db, now);
    forall a, b | a in db'.records && b in db'.records && SameRole(db'.records[a], db'.records[b])
                  && HasActiveLease(db'.records[a]) && HasActiveLease(db'.records[b])
      ensures a == b
    {
      assert SameRole(db.records[a], db.records[b]);
    }
    forall k | k in db'.intents
      ensures k.0 in db'.records && k.1 in db'.records[k.0].tries
    {
      assert k.1 in db.records[k.0].tries;
    }
  }

  /** Expiry keeps everything except possibly the index on live iterations. */
  lemma ExpireOk(db: Db, now: int)
    requires Inv(db)
    ensures OneActivePerRole(Expire(db, now).records)
    ensures OneLivePerCandidate(Expire(db, now).records) ==> Inv(Expire(db, now))
    ensures RecordsOk(Expire(db, now).records) && RowsOk(Expire(db, now))
  {
    ExpireRecordsOk(db, now);
    ExpireRowsOk(db, now);
  }
}

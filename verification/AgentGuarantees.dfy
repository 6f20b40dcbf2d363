/** What holds of agent actions over every run of transactions. */
module AgentGuarantees {
  import opened Wrappers
  import opened AgentModel
  import opened AgentInvariant
  import opened AgentRuns

  function Next(db: Db, step: Step): Db {
    if Apply(db, step).Success? then Apply(db, step).value else db
  }

  lemma {:induction false} RunKeepsInv(db: Db, steps: seq<Step>)
    requires Inv(db)
    ensures Inv(Exec(db, steps))
    decreases |steps|
  {
    if steps != [] {
      if Apply(db, steps[0]).Success? {
        StepKeepsInv(db, steps[0], Apply(db, steps[0]).value);
      }
      RunKeepsInv(Next(db, steps[0]), steps[1..]);
    }
  }

  ghost predicate Reachable(db: Db) {
    exists steps: seq<Step> :: Exec(EMPTY, steps) == db
  }

  lemma ReachableOk(db: Db)
    requires Reachable(db)
    ensures Inv(db)
  {
    var steps: seq<Step> :| Exec(EMPTY, steps) == db;
    RunKeepsInv(EMPTY, steps);
  }

  // ----- Leases and roles -----

  /** A claimed or running action has an active lease, and no other action of its operator and
      role is claimed or running. */
  lemma OneExecutorPerRole(db: Db, a: Id, b: Id)
    requires Reachable(db) && a in db.records && Executing(db.records[a].state)
    ensures HasActiveLease(db.records[a])
    ensures b in db.records && Executing(db.records[b].state) && SameRole(db.records[a], db.records[b])
            ==> a == b
  {
    ReachableOk(db);
    assert RecordOk(db.records[a]);
    if b in db.records {
      assert RecordOk(db.records[b]);
    }
  }

  /** An expired lease on an action whose iteration is over, beside another live iteration for
      the same candidate: expiry would make both live. */
  ghost predicate ExpiryClash(db: Db, now: int) {
    exists a, b {:trigger SameCandidate(db.records[a], db.records[b])} ::
      && a in db.records && b in db.records && a != b && SameCandidate(db.records[a], db.records[b])
      && IsExpired(db.records[a], now) && !Live(db.records[a].iterationState)
      && (Live(db.records[b].iterationState) || IsExpired(db.records[b], now))
  }

  lemma ExpiryClashExactly(db: Db, now: int)
    requires OneLivePerCandidate(db.records)
    ensures OneLivePerCandidate(Expire(db, now).records) <==> !ExpiryClash(db, now)
  {
    var db' := Expire(db, now);
    if OneLivePerCandidate(db'.records) && ExpiryClash(db, now) {
      var a, b :|
        && a in db.records && b in db.records && a != b && SameCandidate(db.records[a], db.records[b])
        && IsExpired(db.records[a], now) && !Live(db.records[a].iterationState)
        && (Live(db.records[b].iterationState) || IsExpired(db.records[b], now));
      assert SameCandidate(db'.records[a], db'.records[b]);
      assert false;
    }
    if !OneLivePerCandidate(db'.records) {
      var a, b :|
        && a in db'.records && b in db'.records && SameCandidate(db'.records[a], db'.records[b])
        && Live(db'.records[a].iterationState) && Live(db'.records[b].iterationState) && a != b;
      assert SameCandidate(db.records[a], db.records[b]) && SameCandidate(db.records[b], db.records[a]);
    }
  }

  /** Liveness of iterations, seen by the index, is untouched. */
  predicate SameIterations(records: map<Id, Record>, records': map<Id, Record>) {
    && records'.Keys == records.Keys
    && (forall a {:trigger records'[a]} :: a in records ==>
          && records'[a].payload == records[a].payload
          && (Live(records'[a].iterationState) <==> Live(records[a].iterationState)))
  }

  lemma SameIterationsSameIndex(records: map<Id, Record>, records': map<Id, Record>)
    requires SameIterations(records, records')
    ensures OneLivePerCandidate(records') <==> OneLivePerCandidate(records)
  {
    if OneLivePerCandidate(records) {
      forall a, b | a in records' && b in records' && SameCandidate(records'[a], records'[b])
                    && Live(records'[a].iterationState) && Live(records'[b].iterationState)
        ensures a == b
      {
        assert SameCandidate(records[a], records[b]);
      }
    }
    if OneLivePerCandidate(records') {
      forall a, b | a in records && b in records && SameCandidate(records[a], records[b])
                    && Live(records[a].iterationState) && Live(records[b].iterationState)
        ensures a == b
      {
        assert SameCandidate(records'[a], records'[b]);
      }
    }
  }

  /** One more active lease is accepted when no other lease of the role is active. */
  lemma ActiveAlone(records: map<Id, Record>, a: Id, r: Record)
    requires OneActivePerRole(records) && a in records && r.payload == records[a].payload
    requires forall b ::
      b in records && SameRole(records[a], records[b]) && HasActiveLease(records[b]) ==> b == a
    ensures OneActivePerRole(records[a := r])
  {
    var records' := records[a := r];
    forall b, c | b in records' && c in records' && SameRole(records'[b], records'[c])
                  && HasActiveLease(records'[b]) && HasActiveLease(records'[c])
      ensures b == c
    {
      assert SameRole(records[b], records[c]);
      assert SameRole(records[c], records[b]);
    }
  }

  lemma ClaimChosenIndexes(db: Db, rows: seq<Id>, gate: set<Id>, picks: map<Id, Id>,
                           runner: Id, expires: int, ids: ClaimIds)
    requires RecordsOk(db.records) && OneActivePerRole(db.records) && FreshIds(db, ids)
    ensures ClaimFrom(db, rows, gate, picks, runner, expires, ids).Success?
            <==> OneLivePerCandidate(db.records)
  {
    var chosen := FirstClaimable(db, rows, gate, picks);
    if chosen.Some? {
      var a := chosen.value;
      var r := db.records[a];
      assert RecordOk(r);
      ClaimRecordOk(r, picks[a], runner, expires, ids);
      var r' := ClaimRecord(r, picks[a], runner, expires, ids);
      ActiveAlone(db.records, a, r');
      SameIterationsSameIndex(db.records, db.records[a := r']);
    }
  }

  lemma ExpireKeepsFresh(db: Db, now: int, ids: ClaimIds)
    ensures FreshIds(Expire(db, now), ids) <==> FreshIds(db, ids)
  {
    var db' := Expire(db, now);
    forall b | b in db.records
      ensures db'.records[b].tries.Keys == db.records[b].tries.Keys
    {
    }
  }

  lemma ClaimExpiredIndexes(db: Db, rows: seq<Id>, gate: set<Id>, picks: map<Id, Id>,
                            runner: Id, now: int, expires: int, ids: ClaimIds)
    requires RecordsOk(Expire(db, now).records) && OneActivePerRole(Expire(db, now).records) && FreshIds(db, ids)
    ensures ClaimFrom(Expire(db, now), rows, gate, picks, runner, expires, ids).Success?
            <==> OneLivePerCandidate(Expire(db, now).records)
  {
    ExpireKeepsFresh(db, now, ids);
    ClaimChosenIndexes(Expire(db, now), rows, gate, picks, runner, expires, ids);
  }

  /** What expiry leaves of a reachable database for the rest of its transaction. */
  lemma ExpiredIsSound(db: Db, now: int)
    requires Reachable(db)
    ensures RecordsOk(Expire(db, now).records) && OneActivePerRole(Expire(db, now).records)
    ensures OneLivePerCandidate(Expire(db, now).records) <==> !ExpiryClash(db, now)
  {
    ReachableOk(db);
    ExpireOk(db, now);
    ExpiryClashExactly(db, now);
  }

  lemma ClaimIsClaimFrom(db: Db, rows: seq<Id>, gate: set<Id>, picks: map<Id, Id>,
                         runner: Id, now: int, seconds: int, ids: ClaimIds)
    requires 1 <= seconds <= 3600
    ensures Claim(db, rows, gate, picks, runner, now, seconds, ids)
            == ClaimFrom(Expire(db, now), rows, gate, picks, runner, now + seconds, ids)
  {
  }

  lemma ClaimAfterExpiry(db: Db, rows: seq<Id>, gate: set<Id>, picks: map<Id, Id>,
                         runner: Id, now: int, seconds: int, ids: ClaimIds)
    requires RecordsOk(Expire(db, now).records) && OneActivePerRole(Expire(db, now).records)
    requires 1 <= seconds <= 3600 && FreshIds(db, ids)
    ensures Claim(db, rows, gate, picks, runner, now, seconds, ids).Success?
            <==> OneLivePerCandidate(Expire(db, now).records)
  {
    ClaimExpiredIndexes(db, rows, gate, picks, runner, now, now + seconds, ids);
    ClaimIsClaimFrom(db, rows, gate, picks, runner, now, seconds, ids);
  }

  /** A claim with a valid duration and unused ids is rejected exactly when expiry clashes on live
      iterations: its own checks always satisfy the index on active leases. */
  lemma ClaimRejectedExactly(db: Db, rows: seq<Id>, gate: set<Id>, picks: map<Id, Id>,
                             runner: Id, now: int, seconds: int, ids: ClaimIds)
    requires Reachable(db) && 1 <= seconds <= 3600 && FreshIds(db, ids)
    ensures Claim(db, rows, gate, picks, runner, now, seconds, ids).Rejected? <==> ExpiryClash(db, now)
  {
    ExpiredIsSound(db, now);
    ClaimAfterExpiry(db, rows, gate, picks, runner, now, seconds, ids);
  }

  lemma AdoptChosenIndexes(db: Db, rows: seq<Id>, ready: set<Id>, runner: Id, expires: int)
    requires OneActivePerRole(db.records)
    ensures AdoptFrom(db, rows, ready, runner, expires).Success? <==> OneLivePerCandidate(db.records)
  {
    var chosen := FirstAdoptable(db, rows, ready);
    if chosen.Some? {
      var a := chosen.value;
      var r' := AdoptRecord(db.records[a], runner, expires);
      ActiveAlone(db.records, a, r');
      SameIterationsSameIndex(db.records, db.records[a := r']);
    }
  }

  lemma AdoptRejectedExactly(db: Db, rows: seq<Id>, ready: set<Id>, runner: Id, now: int, seconds: int)
    requires Reachable(db) && 1 <= seconds <= 3600
    ensures Adopt(db, rows, ready, runner, now, seconds).Rejected? <==> ExpiryClash(db, now)
  {
    ExpiredIsSound(db, now);
    AdoptChosenIndexes(Expire(db, now), rows, ready, runner, now + seconds);
  }

  lemma {:induction false} ExecAppend(db: Db, steps: seq<Step>, step: Step)
    ensures Exec(db, steps + [step]) == Next(Exec(db, steps), step)
    decreases |steps|
  {
    if steps == [] {
      assert Exec(Next(db, step), [step][1..]) == Next(db, step);
    } else {
      ExecAppend(Next(db, steps[0]), steps[1..], step);
      assert (steps + [step])[1..] == steps[1..] + [step];
    }
  }

  lemma ReachableNext(db: Db, step: Step)
    requires Reachable(db)
    ensures Reachable(Next(db, step))
  {
    var steps: seq<Step> :| Exec(EMPTY, steps) == db;
    ExecAppend(EMPTY, steps, step);
    assert Exec(EMPTY, steps + [step]) == Next(db, step);
  }

  const OBSOLETE := Payload(1, 1, 1, true, 0)
  const RETRY := Completion(Failure(true, false, false, 0), None, false, false, 0)
  const WAITING := Record(OBSOLETE, 1, Queued, Queued, None, None, None, map[], None, None)
  const TAKEN := WAITING.(state := Claimed, iterationState := Claimed, agent := Some(9),
                          attempt := Some(11), leaseId := Some(12),
                          tries := map[11 := Attempt(1, 9, Claimed, None, NO_COMPLETION)],
                          lease := Some(Lease(12, 13, 9, 7, Active, 60)))
  const DEFERRED := TAKEN.(state := RetryPending, iterationState := RetryPending,
                           tries := map[11 := Attempt(1, 9, RetryPending, None, RETRY)],
                           lease := Some(Lease(12, 13, 9, 7, Active, 61)))
  const REQUEUED := TAKEN.(state := Queued, iterationState := Queued,
                           tries := map[11 := Attempt(1, 9, Failed, None, RETRY)],
                           lease := Some(Lease(12, 13, 9, 7, Active, 62)))
  const SWEPT := REQUEUED.(state := Cancelled, iterationState := Cancelled)
  const WEDGED := Db(map[1 := SWEPT,
                         2 := Record(OBSOLETE, 2, Queued, Queued, None, None, None, map[], None, None)],
                     map[1 := 1, 2 := 2], map[], map[13 := 1])

  function Only(r: Record): Db {
    Db(map[1 := r], map[1 := 1], map[], map[13 := 1])
  }

  lemma WedgeClaim()
    ensures Next(Only(WAITING).(issued := map[]),
                 DoClaim([1], {1}, map[1 := 9], 7, 0, 60, ClaimIds(11, 12, 13))) == Only(TAKEN)
  {
    var created := Only(WAITING).(issued := map[]);
    assert Expire(created, 0) == created;
    assert Claimable(created, 1, {1}, map[1 := 9]);
    assert FirstClaimable(created, [1], {1}, map[1 := 9]) == Some(1);
    assert ClaimRecord(WAITING, 9, 7, 60, ClaimIds(11, 12, 13)) == TAKEN;
    var db' := Put(created, 1, TAKEN).(issued := map[13 := 1]);
    assert ClaimChosen(created, 1, 9, 7, 60, ClaimIds(11, 12, 13)) == Success(db');
    assert db' == Only(TAKEN);
  }

  lemma WedgeDefer()
    ensures Next(Only(TAKEN), DoDefer(1, 13, RETRY, 1, 60)) == Only(DEFERRED)
  {
    assert DeferRecord(TAKEN, RETRY, 61) == DEFERRED;
    assert Put(Only(TAKEN), 1, DEFERRED) == Only(DEFERRED);
  }

  lemma WedgeDecide()
    ensures Next(Only(DEFERRED), DoDecide(1, 11, true, 2, 60)) == Only(REQUEUED)
  {
    assert RequeueRecord(DEFERRED, RETRY, 62) == REQUEUED;
    assert Put(Only(DEFERRED), 1, REQUEUED) == Only(REQUEUED);
  }

  lemma WedgeSweep()
    ensures Next(Only(REQUEUED), DoSweep({}, None)) == Only(SWEPT)
  {
    assert SweepRecord(REQUEUED) == SWEPT;
    assert Sweepable(REQUEUED, 1, {}, None);
    assert SweepAll(Only(REQUEUED).records, {}, None) == map[1 := SWEPT];
    assert Only(REQUEUED).(records := map[1 := SWEPT]) == Only(SWEPT);
  }

  lemma WedgeCreate()
    ensures Next(EMPTY, DoCreate(1, 1, 1, OBSOLETE, false)) == Only(WAITING).(issued := map[])
  {
  }

  lemma WedgeCreateAgain()
    ensures Next(Only(SWEPT), DoCreate(2, 2, 2, OBSOLETE, false)) == WEDGED
  {
  }

  /** The clash happens: an action is claimed, deferred and queued again, its gate becomes obsolete
      and the sweep cancels it without releasing the lease, and the candidate gets a new action. */
  lemma WedgeIsReachable()
    ensures Reachable(WEDGED)
  {
    WedgeCreate();
    WedgeCreateAgain();
    WedgeClaim();
    WedgeDefer();
    WedgeDecide();
    WedgeSweep();
    WedgeChain(EMPTY, Only(WAITING).(issued := map[]), Only(TAKEN), Only(DEFERRED), Only(REQUEUED),
               Only(SWEPT), WEDGED);
  }

  lemma WedgeChain(db0: Db, db1: Db, db2: Db, db3: Db, db4: Db, db5: Db, db6: Db)
    requires db0 == EMPTY && db1 == Next(db0, DoCreate(1, 1, 1, OBSOLETE, false))
    requires db2 == Next(db1, DoClaim([1], {1}, map[1 := 9], 7, 0, 60, ClaimIds(11, 12, 13)))
    requires db3 == Next(db2, DoDefer(1, 13, RETRY, 1, 60))
    requires db4 == Next(db3, DoDecide(1, 11, true, 2, 60))
    requires db5 == Next(db4, DoSweep({}, None))
    requires db6 == Next(db5, DoCreate(2, 2, 2, OBSOLETE, false))
    ensures Reachable(db6)
  {
    assert Exec(EMPTY, []) == EMPTY;
    ReachableNext(db0, DoCreate(1, 1, 1, OBSOLETE, false));
    ReachableNext(db1, DoClaim([1], {1}, map[1 := 9], 7, 0, 60, ClaimIds(11, 12, 13)));
    ReachableNext(db2, DoDefer(1, 13, RETRY, 1, 60));
    ReachableNext(db3, DoDecide(1, 11, true, 2, 60));
    ReachableNext(db4, DoSweep({}, None));
    ReachableNext(db5, DoCreate(2, 2, 2, OBSOLETE, false));
  }

  /** From then on, and until another transaction changes these rows, every claim and every
      adoption is rejected once the forgotten lease is due, whatever its runner or candidates. */
  lemma ExpiryWedge(rows: seq<Id>, gate: set<Id>, picks: map<Id, Id>, ready: set<Id>,
                    runner: Id, now: int, seconds: int, ids: ClaimIds)
    requires 62 <= now
    ensures Claim(WEDGED, rows, gate, picks, runner, now, seconds, ids).Rejected?
    ensures Adopt(WEDGED, rows, ready, runner, now, seconds).Rejected?
  {
    WedgeIsReachable();
    assert SameCandidate(WEDGED.records[1], WEDGED.records[2]);
    assert ExpiryClash(WEDGED, now);
    if 1 <= seconds <= 3600 {
      AdoptRejectedExactly(WEDGED, rows, ready, runner, now, seconds);
      if FreshIds(WEDGED, ids) {
        ClaimRejectedExactly(WEDGED, rows, gate, picks, runner, now, seconds, ids);
      } else {
        ReachableOk(WEDGED);
        ExpireKeepsFresh(WEDGED, now, ids);
        ExpiryClashExactly(WEDGED, now);
      }
    }
  }

  // ----- Receipts and intents -----

  /** A committed receipt names the terminal state of its action, whose lease is not active; a
      live action has none. */
  lemma ReceiptMeansSettled(db: Db, a: Id)
    requires Reachable(db) && a in db.records && db.records[a].receipt.Some?
    ensures db.records[a].state == db.records[a].receipt.value.status && Terminal(db.records[a].state)
    ensures !HasActiveLease(db.records[a])
  {
    ReachableOk(db);
    assert RecordOk(db.records[a]);
  }

  /** Once a receipt is committed, completing again either repeats exactly that receipt under the
      same lease and changes nothing, or is rejected. */
  lemma ReplayChangesNothing(db: Db, value: Receipt, token: Id, continuation: Option<Id>,
                             gate: set<Id>, now: int)
    requires value.action in db.records && db.records[value.action].receipt.Some?
    ensures Complete(db, value, token, continuation, gate, now) in {Rejected, Success(db)}
    ensures Complete(db, value, token, continuation, gate, now).Success?
            ==> db.records[value.action].receipt == Some(value)
                && db.records[value.action].lease.Some?
                && db.records[value.action].lease.value.token == token
  {
  }

  predicate IntentsGrow(db: Db, db': Db) {
    && (forall k :: k in db.intents ==> k in db'.intents && db'.intents[k] == db.intents[k])
    && (forall k :: k in db'.intents && k !in db.intents ==>
          && k.0 in db'.records && db'.records[k.0].attempt == Some(k.1)
          && db'.records[k.0].state == Completed
          && db'.records[k.0].receipt == Some(db'.intents[k].receipt))
  }

  /** The completion intent of an attempt is written once, together with the receipt it carries. */
  lemma IntentsWrittenOnce(db: Db, step: Step, db': Db)
    requires Apply(db, step) == Success(db')
    ensures IntentsGrow(db, db')
  {
    if step.DoComplete? {
      CompleteWritesOnce(db, step.value, step.token, step.continuation, step.gate, step.now, db');
    } else {
      assert db'.intents == db.intents;
    }
  }

  lemma CompleteWritesOnce(db: Db, value: Receipt, token: Id, continuation: Option<Id>,
                           gate: set<Id>, now: int, db': Db)
    requires Complete(db, value, token, continuation, gate, now) == Success(db')
    ensures IntentsGrow(db, db')
  {
    if db' != db {
      var r := db.records[value.action];
      var v := Effective(value, gate);
      assert db'.records[value.action] == CompleteRecord(r, v);
    }
  }

  lemma {:induction false} IntentsNeverChange(db: Db, steps: seq<Step>, k: (Id, Id))
    requires k in db.intents
    ensures k in Exec(db, steps).intents && Exec(db, steps).intents[k] == db.intents[k]
    decreases |steps|
  {
    if steps != [] {
      if Apply(db, steps[0]).Success? {
        IntentsWrittenOnce(db, steps[0], Apply(db, steps[0]).value);
      }
      IntentsNeverChange(Next(db, steps[0]), steps[1..], k);
    }
  }

  // ----- Attempts -----

  /** The action is claimed, running or uncertain exactly when its current attempt is, in the same
      state; a superseded attempt never is; and the ordinals are exactly 1 to the number of
      attempts, the current one last. */
  lemma AttemptsMirrorAction(db: Db, a: Id, s: State)
    requires Reachable(db) && a in db.records && Working(s)
    ensures var r := db.records[a];
            && (r.state == s <==> CurrentTry(r).Some? && CurrentTry(r).value.state == s)
            && (forall t :: t in r.tries && r.attempt != Some(t) ==> r.tries[t].state != s)
            && OrdinalsExact(r.tries)
            && (r.attempt.Some? ==>
                  r.attempt.value in r.tries && r.tries[r.attempt.value].ordinal == |r.tries|)
  {
    ReachableOk(db);
    var r := db.records[a];
    assert RecordOk(r);
    if CurrentTry(r).Some? {
      var t := r.attempt.value;
      assert t in r.tries && r.tries[t] == CurrentTry(r).value;
    }
  }

  // ----- Fencing -----

  /** A token that was made for an action and is no longer the token of its lease. */
  predicate Fenced(db: Db, a: Id, token: Id) {
    && a in db.records && token in db.issued && db.issued[token] == a
    && (db.records[a].lease.Some? ==> db.records[a].lease.value.token != token)
  }

  /** A transaction keeps the token of a lease or replaces it by one that was never issued. */
  predicate TokensMove(db: Db, db': Db) {
    && (forall t :: t in db.issued ==> t in db'.issued && db'.issued[t] == db.issued[t])
    && (forall a :: a in db.records ==>
          && a in db'.records
          && (SameToken(db'.records[a].lease, db.records[a].lease)
              || (db'.records[a].lease.Some? && db'.records[a].lease.value.token !in db.issued)))
  }

  /** A transaction that rewrites one record under its token. */
  lemma PutMovesTokens(db: Db, a: Id, r: Record, db': Db)
    requires a in db.records && SameToken(r.lease, db.records[a].lease)
    requires db' == Put(db, a, r)
    ensures TokensMove(db, db')
  {
  }

  lemma ExpireMovesTokens(db: Db, now: int)
    ensures TokensMove(db, Expire(db, now)) && Expire(db, now).issued == db.issued
  {
  }

  lemma ClaimFromMovesTokens(db: Db, rows: seq<Id>, gate: set<Id>, picks: map<Id, Id>,
                             runner: Id, expires: int, ids: ClaimIds, db': Db)
    requires ClaimFrom(db, rows, gate, picks, runner, expires, ids) == Success(db')
    ensures TokensMove(db, db')
  {
  }

  lemma AdoptFromMovesTokens(db: Db, rows: seq<Id>, ready: set<Id>, runner: Id, expires: int, db': Db)
    requires AdoptFrom(db, rows, ready, runner, expires) == Success(db')
    ensures TokensMove(db, db')
  {
  }

  lemma TokensMoveTwice(db: Db, db1: Db, db2: Db)
    requires TokensMove(db, db1) && TokensMove(db1, db2)
    ensures TokensMove(db, db2)
  {
  }

  lemma SweepMovesTokens(db: Db, current: set<Id>, scope: Option<set<Id>>, db': Db)
    requires Sweep(db, current, scope) == Success(db')
    ensures TokensMove(db, db')
  {
  }

  lemma WorkMovesTokens(db: Db, step: Step, db': Db)
    requires step.DoStart? || step.DoHeartbeat? || step.DoDefer?
    requires Apply(db, step) == Success(db')
    ensures TokensMove(db, db')
  {
    PutMovesTokens(db, step.a, db'.records[step.a], db');
  }

  lemma CompleteMovesTokens(db: Db, value: Receipt, token: Id, continuation: Option<Id>,
                            gate: set<Id>, now: int, db': Db)
    requires Complete(db, value, token, continuation, gate, now) == Success(db')
    ensures TokensMove(db, db')
  {
  }

  lemma ControlMovesTokens(db: Db, step: Step, db': Db)
    requires step.DoEnsure? || step.DoCancel?
    requires Apply(db, step) == Success(db')
    ensures TokensMove(db, db')
  {
    if db' != db {
      PutMovesTokens(db, step.a, db'.records[step.a], db');
    }
  }

  lemma DecideMovesTokens(db: Db, a: Id, attempt: Id, retry: bool, now: int, seconds: int, db': Db)
    requires Decide(db, a, attempt, retry, now, seconds) == Success(db')
    ensures TokensMove(db, db')
  {
    if db' != db {
      PutMovesTokens(db, a, db'.records[a], db');
    }
  }

  lemma CreateMovesTokens(db: Db, a: Id, key: Id, iteration: Id, payload: Payload, owned: bool, db': Db)
    requires Create(db, a, key, iteration, payload, owned) == Success(db')
    ensures TokensMove(db, db')
  {
  }

  lemma RecoveryMovesTokens(db: Db, step: Step, db': Db)
    requires step.DoRecoverCancelled? || step.DoRecoverDiscarded?
    requires Apply(db, step) == Success(db')
    ensures TokensMove(db, db')
  {
  }

  lemma StepMovesTokens(db: Db, step: Step, db': Db)
    requires Apply(db, step) == Success(db')
    ensures TokensMove(db, db')
  {
    if step.DoClaim? {
      var db1 := Expire(db, step.now);
      ExpireMovesTokens(db, step.now);
      ClaimFromMovesTokens(db1, step.rows, step.gate, step.picks, step.runner, step.now + step.seconds,
                           step.ids, db');
      TokensMoveTwice(db, db1, db');
    } else if step.DoAdopt? {
      var db1 := Expire(db, step.now);
      ExpireMovesTokens(db, step.now);
      AdoptFromMovesTokens(db1, step.rows, step.ready, step.runner, step.now + step.seconds, db');
      TokensMoveTwice(db, db1, db');
    } else if step.DoSweep? {
      SweepMovesTokens(db, step.current, step.scope, db');
    } else if step.DoStart? || step.DoHeartbeat? || step.DoDefer? {
      WorkMovesTokens(db, step, db');
    } else if step.DoComplete? {
      CompleteMovesTokens(db, step.value, step.token, step.continuation, step.gate, step.now, db');
    } else if step.DoRecoverCancelled? || step.DoRecoverDiscarded? {
      RecoveryMovesTokens(db, step, db');
    } else if step.DoDecide? {
      DecideMovesTokens(db, step.a, step.attempt, step.retry, step.now, step.seconds, db');
    } else if step.DoCreate? {
      CreateMovesTokens(db, step.a, step.key, step.iteration, step.payload, step.owned, db');
    } else {
      ControlMovesTokens(db, step, db');
    }
  }

  lemma {:induction false} FencedForever(db: Db, steps: seq<Step>, a: Id, token: Id)
    requires Fenced(db, a, token)
    ensures Fenced(Exec(db, steps), a, token)
    decreases |steps|
  {
    if steps != [] {
      if Apply(db, steps[0]).Success? {
        StepMovesTokens(db, steps[0], Apply(db, steps[0]).value);
      }
      FencedForever(Next(db, steps[0]), steps[1..], a, token);
    }
  }

  /** The work of the holder of a token on its action. */
  predicate UsesToken(step: Step, a: Id, token: Id) {
    match step
    case DoStart(b, t, _, _, _, _) => b == a && t == token
    case DoHeartbeat(b, t, _, _) => b == a && t == token
    case DoComplete(value, t, _, _, _) => value.action == a && t == token
    case DoDefer(b, t, _, _, _) => b == a && t == token
    case _ => false
  }

  lemma FencedIsRejected(db: Db, a: Id, token: Id, step: Step)
    requires Fenced(db, a, token) && UsesToken(step, a, token)
    ensures Apply(db, step).Rejected?
  {
  }

  function TokenOf(db: Db, a: Id): Option<Id> {
    if a in db.records && db.records[a].lease.Some? then Some(db.records[a].lease.value.token) else None
  }

  /** Once a transaction gives the lease of an action another token, no start, heartbeat, deferral
      or completion with the earlier token succeeds again, the replay of a receipt included. */
  lemma RotationFences(db: Db, step: Step, a: Id, token: Id, later: seq<Step>, use: Step)
    requires Reachable(db)
    requires TokenOf(db, a) == Some(token) && TokenOf(Next(db, step), a) != Some(token)
    requires UsesToken(use, a, token)
    ensures Apply(Exec(Next(db, step), later), use).Rejected?
  {
    ReachableOk(db);
    StepMovesTokens(db, step, Next(db, step));
    FencedForever(Next(db, step), later, a, token);
    FencedIsRejected(Exec(Next(db, step), later), a, token, use);
  }

  /** A claim gives the action it takes another token. */
  lemma ClaimRotates(db: Db, rows: seq<Id>, gate: set<Id>, picks: map<Id, Id>,
                     runner: Id, now: int, seconds: int, ids: ClaimIds, db': Db, a: Id)
    requires Reachable(db) && a in db.records && db.records[a].state == Queued
    requires Claim(db, rows, gate, picks, runner, now, seconds, ids) == Success(db')
    requires a in db'.records && db'.records[a].state == Claimed
    ensures TokenOf(db', a) != TokenOf(db, a)
  {
    ReachableOk(db);
    assert ids.token !in Expire(db, now).issued;
  }

  /** So does the recovery of a discarded outcome. */
  lemma RecoverDiscardedRotates(db: Db, a: Id, source: Id, turn: Id, runner: Id, gate: set<Id>,
                                registered: bool, now: int, seconds: int, ids: ClaimIds, db': Db)
    requires Reachable(db)
    requires RecoverDiscarded(db, a, source, turn, runner, gate, registered, now, seconds, ids) == Success(db')
    ensures TokenOf(db', a) != TokenOf(db, a)
  {
    ReachableOk(db);
  }
}

/** When each transaction on agent actions is granted and what it leaves, for every reachable
    database: said of the rows themselves, not of the functions that compute them. */
module AgentOutcomes {
  import opened Wrappers
  import opened AgentModel
  import opened AgentInvariant
  import opened AgentRuns
  import opened AgentGuarantees

  // ----- What the statements below speak about -----

  /** The live lease of an action under this token. */
  predicate HoldsLease(db: Db, a: Id, token: Id, now: int) {
    && a in db.records && db.records[a].lease.Some?
    && db.records[a].lease.value.state == Active
    && db.records[a].lease.value.token == token
    && now < db.records[a].lease.value.expires
  }

  predicate OneHour(seconds: int) {
    0 < seconds <= 3600
  }

  /** Another action of the operator and role has an active lease. */
  ghost predicate OtherLease(db: Db, a: Id)
    requires a in db.records
  {
    exists b {:trigger SameRole(db.records[a], db.records[b])} ::
      b in db.records && b != a && SameRole(db.records[a], db.records[b]) && HasActiveLease(db.records[b])
  }

  /** Another iteration of the candidate is live. */
  ghost predicate OtherIteration(db: Db, a: Id)
    requires a in db.records
  {
    exists b {:trigger SameCandidate(db.records[a], db.records[b])} ::
      b in db.records && b != a && SameCandidate(db.records[a], db.records[b])
      && Live(db.records[b].iterationState)
  }

  /** Another action of the operator and role is in one of these states. */
  predicate OtherIn(db: Db, a: Id, states: set<State>)
    requires a in db.records
  {
    exists b :: b in db.records && b != a && db.records[b].state in states
                && db.records[b].payload.operator == db.records[a].payload.operator
                && db.records[b].payload.role == db.records[a].payload.role
  }

  lemma OthersExactly(db: Db, a: Id)
    requires a in db.records
    ensures OtherWorks(db, a) <==> OtherIn(db, a, {Claimed, Running, Uncertain})
    ensures OtherLive(db, a) <==> OtherIn(db, a, {Queued, Claimed, Running, Uncertain, RetryPending})
  {
    if b :| b in db.records && b != a && SameRole(db.records[a], db.records[b]) && Working(db.records[b].state) {
      assert OtherIn(db, a, {Claimed, Running, Uncertain});
    }
    if b :| b in db.records && b != a && SameRole(db.records[a], db.records[b]) && Live(db.records[b].state) {
      assert OtherIn(db, a, {Queued, Claimed, Running, Uncertain, RetryPending});
    }
  }

  /** No record uses the attempt or lease id, and the token was never issued. */
  predicate Unused(db: Db, ids: ClaimIds) {
    && ids.token !in db.issued
    && (forall b :: b in db.records ==>
          && ids.attempt !in db.records[b].tries
          && (db.records[b].lease == None || db.records[b].lease.value.id != ids.lease))
  }

  /** One record changed, and nothing else but what the caller says. */
  predicate OnlyRecord(db: Db, a: Id, db': Db) {
    && a in db.records && a in db'.records
    && db'.records == db.records[a := db'.records[a]]
    && db'.records[a].payload == db.records[a].payload
    && db'.records[a].iteration == db.records[a].iteration
    && db'.keys == db.keys
  }

  predicate NothingIssued(db: Db, db': Db) {
    db'.intents == db.intents && db'.issued == db.issued
  }

  /** The current attempt of an action that has one. */
  function Current(r: Record): Attempt
    requires r.attempt.Some? && r.attempt.value in r.tries
  {
    r.tries[r.attempt.value]
  }

  /** Only the current attempt changed, to this one. */
  predicate OnlyCurrent(r: Record, t: Attempt, r': Record) {
    r.attempt.Some? && r'.attempt == r.attempt && r'.tries == r.tries[r.attempt.value := t]
  }

  /** Rows of a reachable database are consistent, so that the joins of the queries lose nothing. */
  lemma Consistent(db: Db, a: Id)
    requires Reachable(db) && a in db.records
    ensures Inv(db) && RecordOk(db.records[a])
    ensures var r := db.records[a];
            && (r.lease.Some? <==> r.attempt.Some?)
            && (r.lease.Some? ==>
                  r.attempt.value in r.tries && r.leaseId == Some(r.lease.value.id)
                  && CurrentTry(r) == Some(Current(r)))
  {
    ReachableOk(db);
    assert RecordOk(db.records[a]);
  }

  // ----- The two unique indexes -----

  /** A transaction that changes one record is refused by an index exactly if it makes that record
      active or live beside another one. */
  lemma CommitExactly(db: Db, a: Id, r: Record)
    requires OneActivePerRole(db.records) && OneLivePerCandidate(db.records)
    requires a in db.records && r.payload == db.records[a].payload
    ensures OneActivePerRole(db.records[a := r]) <==> !(HasActiveLease(r) && OtherLease(db, a))
    ensures OneLivePerCandidate(db.records[a := r]) <==> !(Live(r.iterationState) && OtherIteration(db, a))
  {
    ActiveExactly(db, a, r);
    LiveExactly(db, a, r);
  }

  lemma ActiveExactly(db: Db, a: Id, r: Record)
    requires OneActivePerRole(db.records) && a in db.records && r.payload == db.records[a].payload
    ensures OneActivePerRole(db.records[a := r]) <==> !(HasActiveLease(r) && OtherLease(db, a))
  {
    var records' := db.records[a := r];
    if HasActiveLease(r) && OtherLease(db, a) {
      var b :| b in db.records && b != a && SameRole(db.records[a], db.records[b]) && HasActiveLease(db.records[b]);
      assert SameRole(records'[a], records'[b]);
    } else {
      forall b, c | b in records' && c in records' && SameRole(records'[b], records'[c])
                    && HasActiveLease(records'[b]) && HasActiveLease(records'[c])
        ensures b == c
      {
        assert SameRole(db.records[b], db.records[c]) && SameRole(db.records[c], db.records[b]);
      }
    }
  }

  lemma LiveExactly(db: Db, a: Id, r: Record)
    requires OneLivePerCandidate(db.records) && a in db.records && r.payload == db.records[a].payload
    ensures OneLivePerCandidate(db.records[a := r]) <==> !(Live(r.iterationState) && OtherIteration(db, a))
  {
    var records' := db.records[a := r];
    if Live(r.iterationState) && OtherIteration(db, a) {
      var b :| b in db.records && b != a && SameCandidate(db.records[a], db.records[b])
               && Live(db.records[b].iterationState);
      assert SameCandidate(records'[a], records'[b]);
    } else {
      forall b, c | b in records' && c in records' && SameCandidate(records'[b], records'[c])
                    && Live(records'[b].iterationState) && Live(records'[c].iterationState)
        ensures b == c
      {
        assert SameCandidate(db.records[b], db.records[c]) && SameCandidate(db.records[c], db.records[b]);
      }
    }
  }

  lemma PutCommitsExactly(db: Db, a: Id, r: Record)
    requires Reachable(db) && a in db.records && r.payload == db.records[a].payload
    ensures Commit(Put(db, a, r)) ==
            if (HasActiveLease(r) && OtherLease(db, a)) || (Live(r.iterationState) && OtherIteration(db, a))
            then Rejected
            else Success(db.(records := db.records[a := r]))
  {
    ReachableOk(db);
    CommitExactly(db, a, r);
  }

  /** An action whose lease is active, or whose iteration is live, has these for itself. */
  lemma AloneAlready(db: Db, a: Id)
    requires Inv(db) && a in db.records
    ensures HasActiveLease(db.records[a]) ==> !OtherLease(db, a)
    ensures Live(db.records[a].iterationState) ==> !OtherIteration(db, a)
  {
    CommitExactly(db, a, db.records[a]);
    assert db.records[a := db.records[a]] == db.records;
  }

  // ----- Creation -----

  /** A new action is created for nobody's workspace, under unused ids, when no iteration of its
      candidate is live; a repeated creation is accepted exactly if it says the same. */
  lemma CreatedExactly(db: Db, a: Id, key: Id, iteration: Id, payload: Payload, owned: bool)
    requires Reachable(db)
    ensures key !in db.keys ==>
              (Apply(db, DoCreate(a, key, iteration, payload, owned)).Success? <==>
                 && !owned && a !in db.records
                 && (forall b :: b in db.records ==> db.records[b].iteration != iteration)
                 && (forall b :: b in db.records && Live(db.records[b].iterationState) ==>
                       || db.records[b].payload.candidate != payload.candidate
                       || db.records[b].payload.operator != payload.operator
                       || db.records[b].payload.role != payload.role))
    ensures key in db.keys ==>
              Apply(db, DoCreate(a, key, iteration, payload, owned)) ==
              if db.keys[key] == a && a in db.records && db.records[a].payload == payload
                 && db.records[a].iteration == iteration
              then Success(db) else Rejected
  {
    ReachableOk(db);
    if key !in db.keys && !owned && a !in db.records
       && (forall b :: b in db.records ==> db.records[b].iteration != iteration)
    {
      var r := Record(payload, iteration, Queued, Queued, None, None, None, map[], None, None);
      var records' := db.records[a := r];
      FreshRecordCommits(db.records, a, r);
      if b :| b in db.records && Live(db.records[b].iterationState) && SameCandidate(r, db.records[b]) {
        assert SameCandidate(records'[a], records'[b]);
      }
    }
  }

  lemma FreshRecordCommits(records: map<Id, Record>, a: Id, r: Record)
    requires OneActivePerRole(records) && OneLivePerCandidate(records) && a !in records && r.lease.None?
    ensures OneActivePerRole(records[a := r])
    ensures (forall b :: b in records && Live(records[b].iterationState) ==> !SameCandidate(r, records[b]))
            ==> OneLivePerCandidate(records[a := r])
  {
    var records' := records[a := r];
    forall b, c | b in records' && c in records' && SameRole(records'[b], records'[c])
                  && HasActiveLease(records'[b]) && HasActiveLease(records'[c])
      ensures b == c
    {
      assert SameRole(records[b], records[c]);
    }
    if forall b :: b in records && Live(records[b].iterationState) ==> !SameCandidate(r, records[b]) {
      forall b, c | b in records' && c in records' && SameCandidate(records'[b], records'[c])
                    && Live(records'[b].iterationState) && Live(records'[c].iterationState)
        ensures b == c
      {
        if b != a && c != a {
          assert SameCandidate(records[b], records[c]);
        }
      }
    }
  }

  /** A created action waits, with nothing done for it yet. */
  lemma CreatedWaits(db: Db, a: Id, key: Id, iteration: Id, payload: Payload, owned: bool, db': Db)
    requires key !in db.keys && Apply(db, DoCreate(a, key, iteration, payload, owned)) == Success(db')
    ensures a in db'.records && a !in db.records && db'.records == db.records[a := db'.records[a]]
    ensures var r := db'.records[a];
            && r.payload == payload && r.iteration == iteration && r.state.Queued? && r.iterationState.Queued?
            && r.agent.None? && r.attempt.None? && r.lease.None? && r.receipt.None? && r.tries == map[]
    ensures db'.keys == db.keys[key := a] && NothingIssued(db, db')
  {
  }

  // ----- Expiry -----

  /** A lease expires when it is due: the action and its attempt are uncertain if they were being
      worked on, the iteration in any case.  Every other record stays as it was. */
  lemma ExpiryOutcome(db: Db, now: int, a: Id)
    requires Reachable(db) && a in db.records
    ensures var r, r' := db.records[a], Expire(db, now).records[a];
            if r.lease.Some? && r.lease.value.state == Active && r.lease.value.expires <= now then
              && r'.lease == Some(r.lease.value.(state := Expired)) && r'.iterationState.Uncertain?
              && (if r.state.Claimed? || r.state.Running? then
                    && r.attempt.Some? && r.attempt.value in r.tries
                    && r'.state.Uncertain? && OnlyCurrent(r, Current(r).(state := Uncertain), r')
                  else r'.state == r.state && r'.tries == r.tries)
              && r' == r.(lease := r'.lease, iterationState := r'.iterationState, state := r'.state, tries := r'.tries)
            else r' == r
  {
    Consistent(db, a);
    if IsExpired(db.records[a], now) {
      ExpiredTries(db.records[a]);
    }
  }

  lemma ExpiredTries(r: Record)
    requires RecordOk(r) && HasActiveLease(r)
    ensures r.attempt.Some? && r.attempt.value in r.tries
    ensures ExpireRecord(r).tries ==
            if Executing(r.state) then r.tries[r.attempt.value := Current(r).(state := Uncertain)] else r.tries
  {
    assert CurrentTry(r) == Some(Current(r));
    var expected := if Executing(r.state) then r.tries[r.attempt.value := Current(r).(state := Uncertain)] else r.tries;
    forall t | t in r.tries
      ensures ExpireTry(r.tries[t]) == expected[t]
    {
      assert Working(r.tries[t].state) ==> r.attempt == Some(t) && r.state == r.tries[t].state;
    }
    assert ExpireRecord(r).tries.Keys == expected.Keys;
  }

  // ----- Claim and adoption -----

  /** Nobody works for the operator and role, no other of its leases is active, the workflow gate
      is current and an agent was selected. */
  predicate Free(records: map<Id, Record>, a: Id, gate: set<Id>, picks: map<Id, Id>) {
    && a in records && records[a].state == Queued && a in gate && a in picks
    && (forall b ::
          b in records && records[b].payload.operator == records[a].payload.operator
          && records[b].payload.role == records[a].payload.role ==>
            && records[b].state != Claimed && records[b].state != Running && records[b].state != Uncertain
            && (records[b].lease.Some? && records[b].lease.value.state == Active ==> b == a))
  }

  lemma {:induction false} FirstIsFirst(db: Db, rows: seq<Id>, gate: set<Id>, picks: map<Id, Id>) returns (n: nat)
    ensures n <= |rows| && forall i :: 0 <= i < n ==> !Free(db.records, rows[i], gate, picks)
    ensures FirstClaimable(db, rows, gate, picks) == if n < |rows| then Some(rows[n]) else None
    ensures n < |rows| ==> Free(db.records, rows[n], gate, picks)
  {
    if rows == [] {
      n := 0;
    } else {
      FreeIsClaimable(db, rows[0], gate, picks);
      if Claimable(db, rows[0], gate, picks) {
        n := 0;
      } else {
        var m := FirstIsFirst(db, rows[1..], gate, picks);
        n := m + 1;
        forall i | 0 <= i < n
          ensures !Free(db.records, rows[i], gate, picks)
        {
          assert i == 0 || rows[i] == rows[1..][i - 1];
        }
      }
    }
  }

  lemma FreeIsClaimable(db: Db, a: Id, gate: set<Id>, picks: map<Id, Id>)
    ensures Free(db.records, a, gate, picks) <==> Claimable(db, a, gate, picks)
  {
  }

  /** A claim takes the first free action of the rows, after due leases expired, and no other: it
      gets the next attempt, the same lease with a new token, and is claimed with its iteration. */
  lemma ClaimOutcome(db: Db, rows: seq<Id>, gate: set<Id>, picks: map<Id, Id>, runner: Id, now: int, seconds: int,
                     ids: ClaimIds, db': Db) returns (n: nat)
    requires Apply(db, DoClaim(rows, gate, picks, runner, now, seconds, ids)) == Success(db')
    ensures var records := Expire(db, now).records;
            && n <= |rows| && (forall i :: 0 <= i < n ==> !Free(records, rows[i], gate, picks))
            && (n == |rows| ==> db' == db.(records := records))
            && (n < |rows| ==> Free(records, rows[n], gate, picks) && Claims(records, rows[n], db', picks, runner, ids)
                               && db'.records[rows[n]].lease.value.expires == now + seconds
                               && db'.issued == db.issued[ids.token := rows[n]] && db'.intents == db.intents
                               && Unused(db, ids))
  {
    var expired := Expire(db, now);
    ExpireKeepsFresh(db, now, ids);
    n := FirstIsFirst(expired, rows, gate, picks);
    if n < |rows| {
      ChosenIsClaimed(expired, rows[n], picks, runner, now + seconds, ids, db');
    }
  }

  lemma ChosenIsClaimed(db: Db, a: Id, picks: map<Id, Id>, runner: Id, expires: int, ids: ClaimIds, db': Db)
    requires a in db.records && a in picks
    requires ClaimChosen(db, a, picks[a], runner, expires, ids) == Success(db')
    ensures Claims(db.records, a, db', picks, runner, ids) && db'.records[a].lease.value.expires == expires
    ensures db'.issued == db.issued[ids.token := a] && db'.intents == db.intents
  {
  }

  predicate Claims(records: map<Id, Record>, a: Id, db': Db, picks: map<Id, Id>, runner: Id, ids: ClaimIds) {
    && a in records && a in picks && a in db'.records && db'.records == records[a := db'.records[a]]
    && (var r, r' := records[a], db'.records[a];
        && r'.state.Claimed? && r'.iterationState.Claimed? && r'.agent == Some(picks[a])
        && r'.attempt == Some(ids.attempt) && r'.tries.Keys == r.tries.Keys + {ids.attempt}
        && (forall t :: t in r.tries && t != ids.attempt ==> r'.tries[t] == r.tries[t])
        && r'.tries[ids.attempt].state.Claimed? && r'.tries[ids.attempt].agent == picks[a]
        && r'.tries[ids.attempt].ordinal == |r.tries| + 1 && r'.tries[ids.attempt].session.None?
        && r'.lease.Some? && r'.lease.value.state == Active && r'.lease.value.token == ids.token
        && r'.lease.value.runner == runner && r'.lease.value.agent == picks[a]
        && r'.lease.value.id == (if r.lease.Some? then r.lease.value.id else ids.lease)
        && r'.leaseId == Some(r'.lease.value.id)
        && r'.payload == r.payload && r'.iteration == r.iteration && r'.receipt == r.receipt)
  }

  /** An uncertain action whose agent is at hand, with no other active lease for its role. */
  predicate Recoverable(records: map<Id, Record>, a: Id, ready: set<Id>) {
    && a in records && records[a].state == Uncertain && a in ready
    && (forall b ::
          b in records && b != a && records[b].payload.operator == records[a].payload.operator
          && records[b].payload.role == records[a].payload.role && records[b].lease.Some? ==>
            records[b].lease.value.state != Active)
  }

  lemma RecoverableIsAdoptable(db: Db, a: Id, ready: set<Id>)
    requires RecordsOk(db.records)
    ensures Recoverable(db.records, a, ready) <==> Adoptable(db, a, ready)
  {
    if a in db.records {
      assert RecordOk(db.records[a]);
    }
  }

  lemma {:induction false} FirstAdoptableIsFirst(db: Db, rows: seq<Id>, ready: set<Id>) returns (n: nat)
    requires RecordsOk(db.records)
    ensures n <= |rows| && forall i :: 0 <= i < n ==> !Recoverable(db.records, rows[i], ready)
    ensures FirstAdoptable(db, rows, ready) == if n < |rows| then Some(rows[n]) else None
    ensures n < |rows| ==> Recoverable(db.records, rows[n], ready)
  {
    if rows == [] {
      n := 0;
    } else {
      RecoverableIsAdoptable(db, rows[0], ready);
      if Adoptable(db, rows[0], ready) {
        n := 0;
      } else {
        var m := FirstAdoptableIsFirst(db, rows[1..], ready);
        n := m + 1;
        forall i | 0 <= i < n
          ensures !Recoverable(db.records, rows[i], ready)
        {
          assert i == 0 || rows[i] == rows[1..][i - 1];
        }
      }
    }
  }

  /** An adoption takes the first such action of the rows: its lease is active again, under the
      token that its interrupted worker knows, and the action stays uncertain until it starts. */
  lemma AdoptOutcome(db: Db, rows: seq<Id>, ready: set<Id>, runner: Id, now: int, seconds: int, db': Db)
    returns (n: nat)
    requires Reachable(db) && Apply(db, DoAdopt(rows, ready, runner, now, seconds)) == Success(db')
    ensures var records := Expire(db, now).records;
            && n <= |rows| && (forall i :: 0 <= i < n ==> !Recoverable(records, rows[i], ready))
            && (n == |rows| ==> db' == db.(records := records))
            && (n < |rows| ==>
                  && Recoverable(records, rows[n], ready) && rows[n] in db'.records
                  && db'.records == records[rows[n] := db'.records[rows[n]]] && NothingIssued(db, db')
                  && (var r, r' := records[rows[n]], db'.records[rows[n]];
                      && r.lease.Some?
                      && r'.lease == Some(Lease(r.lease.value.id, r.lease.value.token, r.lease.value.agent, runner,
                                                Active, now + seconds))
                      && r' == r.(lease := r'.lease)))
  {
    ReachableOk(db);
    ExpireOk(db, now);
    n := FirstAdoptableIsFirst(Expire(db, now), rows, ready);
  }

  // ----- Start -----

  /** The holder of the lease can start a claimed, running or uncertain action under one turn. */
  lemma StartedExactly(db: Db, a: Id, token: Id, session: Option<Id>, gate: set<Id>, now: int, seconds: int)
    requires Reachable(db)
    ensures Apply(db, DoStart(a, token, session, gate, now, seconds)).Success? <==>
              && OneHour(seconds) && HoldsLease(db, a, token, now)
              && (db.records[a].state.Claimed? || db.records[a].state.Running? || db.records[a].state.Uncertain?)
              && db.records[a].attempt.Some? && db.records[a].attempt.value in db.records[a].tries
              && (Current(db.records[a]).session.None? || Current(db.records[a]).session == session)
  {
    if HoldsLease(db, a, token, now) {
      Consistent(db, a);
      AloneAlready(db, a);
      var started := StartRecord(db.records[a], a, session, a in gate, now + seconds);
      if started.Success? {
        CommitExactly(db, a, started.value);
      }
    }
  }

  /** Behind a current gate the action runs; one that was only claimed is cancelled, with a receipt,
      if its gate became obsolete.  A running action just keeps its lease longer. */
  lemma StartOutcome(db: Db, a: Id, token: Id, session: Option<Id>, gate: set<Id>, now: int, seconds: int, db': Db)
    requires Reachable(db) && Apply(db, DoStart(a, token, session, gate, now, seconds)) == Success(db')
    ensures OnlyRecord(db, a, db') && NothingIssued(db, db')
    ensures var r, r' := db.records[a], db'.records[a];
            && r.lease.Some? && r'.lease.Some? && r.attempt.Some? && r.attempt.value in r.tries
            && r'.agent == r.agent && r'.leaseId == r.leaseId
            && (r.state.Claimed? && a !in gate ==>
                  && r'.state.Cancelled? && r'.iterationState.Cancelled?
                  && r'.lease.value == r.lease.value.(state := Released)
                  && (var done := Completion(NO_FAILURE, session, false, false, GATE_OBSOLETE);
                      && OnlyCurrent(r, Current(r).(state := Cancelled, session := session, completion := done), r')
                      && r'.receipt == Some(Receipt(a, r.iteration, r.lease.value.agent, r.lease.value.id, Cancelled,
                                                    done))))
            && (!(r.state.Claimed? && a !in gate) ==>
                  && r'.state.Running? && r'.receipt == r.receipt
                  && r'.lease.value == r.lease.value.(expires := now + seconds)
                  && (if r.state.Running? then r'.tries == r.tries && r'.iterationState == r.iterationState
                      else
                        && r'.iterationState.Running?
                        && OnlyCurrent(r, Current(r).(state := Running, session := session), r')))
  {
    Consistent(db, a);
    var r := db.records[a];
    if r.state == Running {
      assert r.tries[r.attempt.value := Current(r)] == r.tries;
    }
  }

  // ----- Heartbeat and the lease of a finished turn -----

  lemma HeartbeatExactly(db: Db, a: Id, token: Id, now: int, seconds: int)
    requires Reachable(db)
    ensures var result := Apply(db, DoHeartbeat(a, token, now, seconds));
            && (result.Success? <==> OneHour(seconds) && HoldsLease(db, a, token, now))
            && (result.Success? ==>
                  && OnlyRecord(db, a, result.value) && NothingIssued(db, result.value)
                  && result.value.records[a] ==
                     db.records[a].(lease := Some(db.records[a].lease.value.(expires := now + seconds))))
  {
    if HoldsLease(db, a, token, now) {
      Consistent(db, a);
      AloneAlready(db, a);
      CommitExactly(db, a, Renew(db.records[a], now + seconds));
    }
  }

  /** The turn, its attempt and its runner are the ones of the action, which has not ended. */
  predicate TurnMatches(db: Db, a: Id, attempt: Id, turn: Id, runner: Id, gate: set<Id>) {
    && a in db.records && a in gate
    && (var r := db.records[a];
        && (r.state.Running? || r.state.Uncertain?) && r.receipt.None?
        && (r.iterationState.Running? || r.iterationState.Uncertain?)
        && r.attempt == Some(attempt) && attempt in r.tries && r.tries[attempt].session == Some(turn)
        && r.lease.Some? && r.lease.value.runner == runner && r.lease.value.state != Released)
  }

  /** The lease of a finished turn is revived exactly when the turn matches and nobody else works or
      holds a lease for its role; a lease that still runs is left alone. */
  lemma EnsuredExactly(db: Db, a: Id, attempt: Id, turn: Id, runner: Id, gate: set<Id>, now: int, seconds: int)
    requires Reachable(db)
    ensures var result := Apply(db, DoEnsure(a, attempt, turn, runner, gate, now, seconds));
            && (result.Success? <==>
                  && OneHour(seconds) && TurnMatches(db, a, attempt, turn, runner, gate)
                  && (!HoldsLease(db, a, db.records[a].lease.value.token, now) ==>
                        !OtherIn(db, a, {Claimed, Running, Uncertain}) && !OtherLease(db, a)))
            && (result.Success? && HoldsLease(db, a, db.records[a].lease.value.token, now) ==> result.value == db)
            && (result.Success? && !HoldsLease(db, a, db.records[a].lease.value.token, now) ==>
                  && OnlyRecord(db, a, result.value) && NothingIssued(db, result.value)
                  && Revived(db.records[a], now + seconds, runner, result.value.records[a])
                  && result.value.records[a].receipt.None?)
  {
    if TurnMatches(db, a, attempt, turn, runner, gate) {
      OthersExactly(db, a);
      Consistent(db, a);
      AloneAlready(db, a);
      CommitExactly(db, a, Revive(db.records[a], runner, now + seconds));
    }
  }

  /** The action runs again, in its attempt and under its token. */
  predicate Revived(r: Record, expires: int, runner: Id, r': Record) {
    && r.attempt.Some? && r.attempt.value in r.tries && r.lease.Some?
    && r'.state.Running? && r'.iterationState.Running?
    && OnlyCurrent(r, Current(r).(state := Running), r')
    && r'.lease == Some(r.lease.value.(state := Active, runner := runner, expires := expires))
    && r'.agent == r.agent && r'.leaseId == r.leaseId
  }

  // ----- Completion -----

  /** The receipt names the action, its iteration, and the lease and agent that did the work. */
  predicate ReceiptFits(db: Db, value: Receipt) {
    && value.action in db.records && db.records[value.action].lease.Some?
    && value.lease == db.records[value.action].lease.value.id
    && value.agent == db.records[value.action].lease.value.agent
    && value.iteration == db.records[value.action].iteration
    && (value.status.Completed? || value.status.Failed? || value.status.Cancelled? || value.status.Uncertain?)
  }

  /** A receipt that is committed as a completion, with something to go on with. */
  predicate GoesOn(value: Receipt, continuation: Option<Id>, gate: set<Id>) {
    value.status.Completed? && value.action in gate && continuation.Some?
  }

  /** The first completion is granted to the holder of the lease for a fitting receipt, unless the
      attempt already went on in another way, or an uncertain outcome would revive an iteration
      beside a live one. */
  lemma CompletedExactly(db: Db, value: Receipt, token: Id, continuation: Option<Id>, gate: set<Id>, now: int)
    requires Reachable(db) && value.action in db.records && db.records[value.action].receipt.None?
    ensures var r := db.records[value.action];
            Apply(db, DoComplete(value, token, continuation, gate, now)).Success? <==>
              && HoldsLease(db, value.action, token, now) && ReceiptFits(db, value)
              && (GoesOn(value, continuation, gate) && r.attempt.Some?
                  && (value.action, r.attempt.value) in db.intents ==>
                    db.intents[(value.action, r.attempt.value)] == Intent(value, continuation.value))
              && !(value.status.Uncertain? && OtherIteration(db, value.action))
  {
    var a := value.action;
    Consistent(db, a);
    if HoldsLease(db, a, token, now) && ReceiptFits(db, value) {
      FirstCompletion(db, value, token, continuation, gate, now);
      AloneAlready(db, a);
      EndedAsReceived(db.records[a], Effective(value, gate));
      PutCommitsExactly(db, a, CompleteRecord(db.records[a], Effective(value, gate)));
    }
  }

  lemma FirstCompletion(db: Db, value: Receipt, token: Id, continuation: Option<Id>, gate: set<Id>, now: int)
    requires HoldsLease(db, value.action, token, now) && ReceiptFits(db, value)
    requires db.records[value.action].receipt.None? && db.records[value.action].attempt.Some?
    ensures var r := db.records[value.action];
            Complete(db, value, token, continuation, gate, now).Success? <==>
              && (GoesOn(value, continuation, gate) && (value.action, r.attempt.value) in db.intents ==>
                    db.intents[(value.action, r.attempt.value)] == Intent(value, continuation.value))
              && Commit(Put(db, value.action, CompleteRecord(r, Effective(value, gate)))).Success?
  {
  }

  /** What a first completion commits.  Behind a current gate a completed receipt completes the
      action and goes on; behind an obsolete one it is committed as a cancellation and does not.
      A failure or cancellation is committed as it is, and an uncertain outcome commits no receipt
      and keeps the lease. */
  lemma CompletionOutcome(db: Db, value: Receipt, token: Id, continuation: Option<Id>, gate: set<Id>, now: int,
                          db': Db)
    requires Reachable(db) && value.action in db.records && db.records[value.action].receipt.None?
    requires Apply(db, DoComplete(value, token, continuation, gate, now)) == Success(db')
    ensures OnlyRecord(db, value.action, db') && db'.issued == db.issued
    ensures var r, r' := db.records[value.action], db'.records[value.action];
            && r.attempt.Some? && r.attempt.value in r.tries && r.lease.Some?
            && r'.agent == r.agent && r'.leaseId == r.leaseId
            && (value.status.Completed? && value.action in gate ==>
                  && SettledAs(r, Completed, value, r')
                  && (continuation.Some? ==>
                        db'.intents == db.intents[(value.action, r.attempt.value) := Intent(value, continuation.value)])
                  && (continuation.None? ==> db'.intents == db.intents))
            && (value.status.Completed? && value.action !in gate ==>
                  && SettledAs(r, Cancelled, ObsoleteReceipt(value), r') && db'.intents == db.intents)
            && (value.status.Failed? || value.status.Cancelled? ==>
                  && SettledAs(r, value.status, value, r') && db'.intents == db.intents)
            && (value.status.Uncertain? ==>
                  && r'.state.Uncertain? && r'.iterationState.Uncertain? && r'.receipt.None?
                  && r'.lease == r.lease && r'.lease.value.state == Active
                  && AttemptEnds(r, value, r') && db'.intents == db.intents)
  {
    CompletionWrites(db, value, token, continuation, gate, now, db');
    Consistent(db, value.action);
    EndedAsReceived(db.records[value.action], Effective(value, gate));
  }

  lemma CompletionWrites(db: Db, value: Receipt, token: Id, continuation: Option<Id>, gate: set<Id>, now: int, db': Db)
    requires value.action in db.records && db.records[value.action].receipt.None?
    requires Complete(db, value, token, continuation, gate, now) == Success(db')
    ensures var a, r, v := value.action, db.records[value.action], Effective(value, gate);
            && HasActiveLease(r) && r.attempt.Some? && (Terminal(value.status) || value.status.Uncertain?)
            && db'.records == db.records[a := CompleteRecord(r, v)] && db'.keys == db.keys && db'.issued == db.issued
            && db'.intents == if continuation.Some? && v.status.Completed?
                              then db.intents[(a, r.attempt.value) := Intent(v, continuation.value)] else db.intents
  {
  }

  lemma EndedAsReceived(r: Record, v: Receipt)
    requires CurrentTry(r).Some? && HasActiveLease(r) && r.receipt.None? && (Terminal(v.status) || v.status.Uncertain?)
    ensures var r' := CompleteRecord(r, v);
            && r' == r.(state := v.status, iterationState := v.status, tries := r'.tries, lease := r'.lease,
                        receipt := r'.receipt)
            && (Terminal(v.status) ==> SettledAs(r, v.status, v, r'))
            && (v.status.Uncertain? ==> r'.receipt.None? && r'.lease == r.lease && AttemptEnds(r, v, r'))
  {
  }

  /** A completion behind an obsolete gate: a cancellation that keeps only the turn. */
  function ObsoleteReceipt(value: Receipt): Receipt {
    Receipt(value.action, value.iteration, value.agent, value.lease, Cancelled,
            Completion(NO_FAILURE, value.completion.session, false, false, GATE_OBSOLETE))
  }

  /** The receipt is committed with its state, and the lease is given up. */
  predicate SettledAs(r: Record, s: State, value: Receipt, r': Record) {
    && r.lease.Some? && r.attempt.Some? && r.attempt.value in r.tries
    && r'.state == s && r'.iterationState == s && value.status == s && r'.receipt == Some(value)
    && r'.lease == Some(r.lease.value.(state := Released))
    && AttemptEnds(r, value, r')
  }

  /** The attempt ends as the receipt says; a turn that it names is recorded. */
  predicate AttemptEnds(r: Record, value: Receipt, r': Record)
    requires r.attempt.Some? && r.attempt.value in r.tries
  {
    OnlyCurrent(r, Current(r).(
      state := value.status, completion := value.completion,
      session := if value.completion.session.Some? then value.completion.session else Current(r).session), r')
  }

  /** Once a receipt is committed, a completion is a replay: it is accepted, and changes nothing, exactly
      for that receipt under the lease that earned it, with the continuation that was stored. */
  lemma ReplayedExactly(db: Db, value: Receipt, token: Id, continuation: Option<Id>, gate: set<Id>, now: int)
    requires Reachable(db) && value.action in db.records && db.records[value.action].receipt.Some?
    ensures var r := db.records[value.action];
            Apply(db, DoComplete(value, token, continuation, gate, now)) ==
            if r.receipt.value == value && r.lease.Some?
               && r.lease.value.token == token && r.lease.value.id == value.lease && r.lease.value.agent == value.agent
               && (continuation == None || StoredContinuation(db, value.action) == continuation)
            then Success(db) else Rejected
  {
    Consistent(db, value.action);
  }

  /** What an action goes on with after its current attempt, if that is stored. */
  function StoredContinuation(db: Db, a: Id): Option<Id>
    requires a in db.records
  {
    var r := db.records[a];
    if r.attempt.Some? && (a, r.attempt.value) in db.intents
    then Some(db.intents[(a, r.attempt.value)].continuation) else None
  }

  /** A claimed action can be worked off: behind a current gate its holder starts it in time and
      completes it in time, and its completion goes on exactly once. */
  lemma ClaimedWorkCompletes(db: Db, a: Id, session: Option<Id>, gate: set<Id>, started: int, seconds: int,
                             value: Receipt, continuation: Id, gate': set<Id>, completed: int)
    requires Reachable(db) && a in db.records && db.records[a].state.Claimed? && a in gate
    requires db.records[a].attempt.Some? && db.records[a].attempt.value in db.records[a].tries
    requires Current(db.records[a]).session.None? && (a, db.records[a].attempt.value) !in db.intents
    requires OneHour(seconds) && db.records[a].lease.Some? && started < db.records[a].lease.value.expires
    requires value.action == a && value.status.Completed? && ReceiptFits(db, value)
    requires a in gate' && completed < started + seconds
    ensures var token := db.records[a].lease.value.token;
            var running := Apply(db, DoStart(a, token, session, gate, started, seconds));
            && running.Success? && running.value.records[a].state.Running?
            && (var done := Apply(running.value, DoComplete(value, token, Some(continuation), gate', completed));
                && done.Success? && done.value.records[a].state.Completed?
                && done.value.records[a].receipt == Some(value)
                && done.value.intents == db.intents[(a, db.records[a].attempt.value) := Intent(value, continuation)])
  {
    Consistent(db, a);
    var token := db.records[a].lease.value.token;
    var start := DoStart(a, token, session, gate, started, seconds);
    StartedExactly(db, a, token, session, gate, started, seconds);
    var running := Apply(db, start).value;
    StartOutcome(db, a, token, session, gate, started, seconds, running);
    ReachableNext(db, start);
    CompletedExactly(running, value, token, Some(continuation), gate', completed);
    CompletionOutcome(running, value, token, Some(continuation), gate', completed,
                      Apply(running, DoComplete(value, token, Some(continuation), gate', completed)).value);
  }

  // ----- Retry arbitration -----

  /** A retryable failure before its turn is deferred by the holder of the lease. */
  lemma DeferredExactly(db: Db, a: Id, token: Id, failure: Completion, now: int, seconds: int)
    requires Reachable(db)
    ensures var result := Apply(db, DoDefer(a, token, failure, now, seconds));
            && (result.Success? <==>
                  && OneHour(seconds) && failure.failure.retryable && failure.failure.suffixes == 0
                  && HoldsLease(db, a, token, now) && !OtherIteration(db, a))
            && (result.Success? ==>
                  && OnlyRecord(db, a, result.value) && NothingIssued(db, result.value)
                  && (var r, r' := db.records[a], result.value.records[a];
                      && r.attempt.Some? && r.attempt.value in r.tries
                      && OnlyCurrent(r, Current(r).(state := RetryPending, completion := failure), r')
                      && r'.iterationState.RetryPending?
                      && r'.state == (if r.state.Claimed? || r.state.Running? || r.state.Uncertain? then RetryPending
                                      else r.state)
                      && r'.lease == Some(r.lease.value.(expires := now + seconds))
                      && r'.receipt == r.receipt && r'.agent == r.agent && r'.leaseId == r.leaseId))
  {
    if HoldsLease(db, a, token, now) {
      Consistent(db, a);
      AloneAlready(db, a);
      CommitExactly(db, a, DeferRecord(db.records[a], failure, now + seconds));
    }
  }

  /** The failure of the current attempt allows an arbitration, as it is or as a legacy failure. */
  predicate Arbitrable(r: Record)
    requires r.attempt.Some? && r.attempt.value in r.tries
  {
    var f := Current(r).completion.failure;
    (f.retryable && f.suffixes <= 1) || (f.legacy && r.state.Failed?)
  }

  /** A granted retry queues the action again under its lease and token, without a receipt; an
      authentication failure also gives up the agent. */
  lemma RetryExactly(db: Db, a: Id, attempt: Id, now: int, seconds: int)
    requires Reachable(db)
    ensures var result := Apply(db, DoDecide(a, attempt, true, now, seconds));
            && (result.Success? <==>
                  && OneHour(seconds) && a in db.records && db.records[a].attempt == Some(attempt)
                  && attempt in db.records[a].tries && Arbitrable(db.records[a])
                  && !OtherLease(db, a) && !OtherIteration(db, a))
            && (result.Success? ==>
                  && OnlyRecord(db, a, result.value) && NothingIssued(db, result.value)
                  && (var r, r' := db.records[a], result.value.records[a];
                      var f := Current(r).completion.failure;
                      && r'.state.Queued? && r'.iterationState.Queued? && r'.receipt.None?
                      && r.lease.Some? && r'.lease == Some(r.lease.value.(state := Active, expires := now + seconds))
                      && r'.leaseId == r.leaseId && r'.attempt == r.attempt && attempt in r'.tries
                      && r'.agent == (if f.retryable && f.suffixes <= 1 && f.auth then None else r.agent)
                      && r'.tries == r.tries[attempt := r'.tries[attempt]]
                      && r'.tries[attempt].state.Failed? && r'.tries[attempt].ordinal == Current(r).ordinal))
  {
    if a in db.records && db.records[a].attempt == Some(attempt) {
      Consistent(db, a);
      AloneAlready(db, a);
      var r := db.records[a];
      var t := Current(r);
      if Arbitrable(r) {
        var failure := Arbitrated(t.completion.failure, r.state).value;
        CommitExactly(db, a, RequeueRecord(r, t.completion.(failure := failure), now + seconds));
      }
    }
  }

  /** An exhausted arbitration fails the action with a receipt, once. */
  lemma ExhaustedExactly(db: Db, a: Id, attempt: Id, now: int, seconds: int)
    requires Reachable(db)
    ensures var result := Apply(db, DoDecide(a, attempt, false, now, seconds));
            && (result.Success? <==>
                  && OneHour(seconds) && a in db.records && db.records[a].attempt == Some(attempt)
                  && attempt in db.records[a].tries
                  && (Arbitrable(db.records[a]) || AlreadyExhausted(db.records[a])))
            && (result.Success? && AlreadyExhausted(db.records[a]) ==> result.value == db)
            && (result.Success? && !AlreadyExhausted(db.records[a]) ==>
                  && OnlyRecord(db, a, result.value) && NothingIssued(db, result.value)
                  && Exhausted(a, db.records[a], result.value.records[a]))
  {
    if a in db.records && db.records[a].attempt == Some(attempt) {
      Consistent(db, a);
      AloneAlready(db, a);
      var r := db.records[a];
      var t := Current(r);
      if Arbitrable(r) {
        var failure := Arbitrated(t.completion.failure, r.state).value;
        var done := t.completion.(failure := failure.(suffixes := failure.suffixes + 1));
        CommitExactly(db, a, FailRecord(r, a, done));
      }
    }
  }

  /** The action has failed: one more suffix tells that its retries are used up. */
  predicate Exhausted(a: Id, r: Record, r': Record) {
    && r.attempt.Some? && r.attempt.value in r.tries && r.lease.Some? && r.attempt.value in r'.tries
    && r'.state.Failed? && r'.iterationState.Failed? && r'.agent == r.agent && r'.leaseId == r.leaseId
    && r'.lease == Some(r.lease.value.(state := Released))
    && (var f, done := Current(r).completion.failure, r'.tries[r.attempt.value].completion;
        && OnlyCurrent(r, Current(r).(state := Failed, completion := done), r')
        && done == Current(r).completion.(failure := done.failure)
        && done.failure.retryable
        && done.failure.suffixes == (if f.retryable && f.suffixes <= 1 then f.suffixes else 0) + 1
        && r'.receipt == Some(Receipt(a, r.iteration, r.lease.value.agent, r.lease.value.id, Failed, done)))
  }

  predicate AlreadyExhausted(r: Record)
    requires r.attempt.Some? && r.attempt.value in r.tries
  {
    r.state.Failed? && Current(r).state.Failed? && Current(r).completion.failure.suffixes > 0
  }

  // ----- Cancellation and the obsolete sweep -----

  /** An action that has not completed or failed can be cancelled, with its attempt and its lease;
      cancelling again changes nothing. */
  lemma CancelledExactly(db: Db, a: Id)
    requires Reachable(db)
    ensures var result := Apply(db, DoCancel(a));
            && (result.Success? <==>
                  a in db.records && !db.records[a].state.Completed? && !db.records[a].state.Failed?)
            && (result.Success? && db.records[a].state.Cancelled? ==> result.value == db)
            && (result.Success? && !db.records[a].state.Cancelled? ==>
                  && OnlyRecord(db, a, result.value) && NothingIssued(db, result.value)
                  && CancelledWithWork(db.records[a], result.value.records[a]))
  {
    if a in db.records {
      Consistent(db, a);
      PutCommitsExactly(db, a, CancelRecord(db.records[a]));
      CancelledTries(db.records[a]);
    }
  }

  predicate CancelledWithWork(r: Record, r': Record) {
    && r'.state.Cancelled? && r'.iterationState.Cancelled? && r'.receipt == r.receipt
    && r'.agent == r.agent && r'.attempt == r.attempt && r'.leaseId == r.leaseId
    && (if r.state.Claimed? || r.state.Running? || r.state.Uncertain? then
          && r.attempt.Some? && r.attempt.value in r.tries && OnlyCurrent(r, Current(r).(state := Cancelled), r')
        else r'.tries == r.tries)
    && (if r.lease.Some? && r.lease.value.state == Active then r'.lease == Some(r.lease.value.(state := Released))
        else r'.lease == r.lease)
  }

  lemma CancelledTries(r: Record)
    requires RecordOk(r)
    ensures Working(r.state) ==> r.attempt.Some? && r.attempt.value in r.tries
    ensures CancelRecord(r).tries ==
            if Working(r.state) then r.tries[r.attempt.value := Current(r).(state := Cancelled)] else r.tries
  {
    assert Working(r.state) ==> CurrentTry(r) == Some(Current(r));
    var expected := if Working(r.state) then r.tries[r.attempt.value := Current(r).(state := Cancelled)] else r.tries;
    forall t | t in r.tries
      ensures CancelTry(r.tries[t]) == expected[t]
    {
      assert Working(r.tries[t].state) ==> r.attempt == Some(t) && r.state == r.tries[t].state;
    }
    assert CancelRecord(r).tries.Keys == expected.Keys;
  }

  /** The sweep always succeeds.  A waiting action of the workflow that lost its gate is cancelled; a
      deferred one gives up its lease, a queued one keeps whatever lease it has; all other records
      stay as they were. */
  lemma SweptExactly(db: Db, current: set<Id>, scope: Option<set<Id>>, a: Id)
    requires Reachable(db) && a in db.records
    ensures var result := Apply(db, DoSweep(current, scope));
            && result.Success? && result.value == db.(records := result.value.records)
            && result.value.records.Keys == db.records.Keys
            && (var r, r' := db.records[a], result.value.records[a];
                var lost := a !in current && r.payload.workflow && (scope.Some? ==> r.payload.operator in scope.value);
                && (lost && r.state.Queued? ==>
                      r' == r.(state := Cancelled,
                               iterationState := if r.iterationState.Queued? then Cancelled else r.iterationState))
                && (lost && r.state.RetryPending? && Waits(r) ==>
                      && OnlyCurrent(r, Current(r).(state := Cancelled), r')
                      && r' == r.(state := Cancelled, tries := r'.tries,
                                  lease := Some(r.lease.value.(state := Released)),
                                  iterationState := if r.iterationState.RetryPending? then Cancelled
                                                    else r.iterationState))
                && (!(lost && (r.state.Queued? || (r.state.RetryPending? && Waits(r)))) ==> r' == r))
  {
    SweepCommits(db, current, scope);
    Consistent(db, a);
    SweptRecord(db.records[a], a, current, scope);
  }

  lemma SweepCommits(db: Db, current: set<Id>, scope: Option<set<Id>>)
    requires Reachable(db)
    ensures Sweep(db, current, scope) == Success(db.(records := SweepAll(db.records, current, scope)))
  {
    ReachableOk(db);
    var records' := SweepAll(db.records, current, scope);
    forall b | b in db.records
      ensures records'[b].payload == db.records[b].payload
      ensures HasActiveLease(records'[b]) ==> HasActiveLease(db.records[b])
      ensures Live(records'[b].iterationState) ==> Live(db.records[b].iterationState)
    {
      assert RecordOk(db.records[b]);
      if Sweepable(db.records[b], b, current, scope) {
        SweepRecordOk(db.records[b], b, current, scope);
      }
    }
    FewerCommit(db.records, records');
  }

  /** A deferred action whose attempt waits under an active lease. */
  predicate Waits(r: Record) {
    && r.attempt.Some? && r.attempt.value in r.tries && Current(r).state.RetryPending?
    && r.lease.Some? && r.lease.value.state == Active
  }

  lemma FewerCommit(records: map<Id, Record>, records': map<Id, Record>)
    requires OneActivePerRole(records) && OneLivePerCandidate(records) && records'.Keys == records.Keys
    requires forall b :: b in records ==>
               && records'[b].payload == records[b].payload
               && (HasActiveLease(records'[b]) ==> HasActiveLease(records[b]))
               && (Live(records'[b].iterationState) ==> Live(records[b].iterationState))
    ensures OneActivePerRole(records') && OneLivePerCandidate(records')
  {
    forall b, c | b in records' && c in records' && SameRole(records'[b], records'[c])
                  && HasActiveLease(records'[b]) && HasActiveLease(records'[c])
      ensures b == c
    {
      assert SameRole(records[b], records[c]);
    }
    forall b, c | b in records' && c in records' && SameCandidate(records'[b], records'[c])
                  && Live(records'[b].iterationState) && Live(records'[c].iterationState)
      ensures b == c
    {
      assert SameCandidate(records[b], records[c]);
    }
  }

  lemma SweptRecord(r: Record, a: Id, current: set<Id>, scope: Option<set<Id>>)
    requires RecordOk(r)
    ensures Sweepable(r, a, current, scope) <==>
              && a !in current && r.payload.workflow && (scope.Some? ==> r.payload.operator in scope.value)
              && (r.state.Queued? || (r.state.RetryPending? && Waits(r)))
    ensures r.state.Queued? ==>
              SweepRecord(r) == r.(state := Cancelled,
                                   iterationState := if r.iterationState.Queued? then Cancelled else r.iterationState)
    ensures r.state.RetryPending? && Waits(r) ==>
              && OnlyCurrent(r, Current(r).(state := Cancelled), SweepRecord(r))
              && SweepRecord(r) == r.(state := Cancelled, tries := SweepRecord(r).tries,
                                      lease := Some(r.lease.value.(state := Released)),
                                      iterationState := if r.iterationState.RetryPending? then Cancelled
                                                        else r.iterationState)
  {
  }

  // ----- Recoveries -----

  /** A cancelled turn that was published is recovered exactly when the action, its attempt and its
      iteration are cancelled under a receipt of that defect, its lease was given up, the gate is
      current, the agent registered, and nothing of its role or candidate is in its way. */
  lemma CancelledRecoveredExactly(db: Db, a: Id, attempt: Id, turn: Id, runner: Id, gate: set<Id>,
                                  registered: bool, now: int, seconds: int)
    requires Reachable(db)
    ensures var result := Apply(db, DoRecoverCancelled(a, attempt, turn, runner, gate, registered, now, seconds));
            && (result.Success? <==>
                  && OneHour(seconds) && registered && a in db.records && a in gate
                  && EndedTurn(db.records[a], attempt, turn, Cancelled)
                  && db.records[a].receipt.value.completion.superseded
                  && !OtherIn(db, a, {Queued, Claimed, Running, Uncertain, RetryPending})
                  && !OtherLease(db, a) && !OtherIteration(db, a))
            && (result.Success? ==>
                  && OnlyRecord(db, a, result.value) && NothingIssued(db, result.value)
                  && Revived(db.records[a], now + seconds, runner, result.value.records[a])
                  && result.value.records[a].receipt.None?)
  {
    if a in db.records {
      OthersExactly(db, a);
      RecoveryOfCancelled(db, a, attempt, turn, runner, gate, registered, now, seconds);
      if EndedTurn(db.records[a], attempt, turn, Cancelled) {
        RevivedIs(db.records[a], runner, now + seconds);
        PutCommitsExactly(db, a, Revive(db.records[a], runner, now + seconds).(receipt := None));
      }
    }
  }

  lemma RecoveryOfCancelled(db: Db, a: Id, attempt: Id, turn: Id, runner: Id, gate: set<Id>,
                            registered: bool, now: int, seconds: int)
    requires Reachable(db) && a in db.records
    ensures RecoverCancelled(db, a, attempt, turn, runner, gate, registered, now, seconds) ==
            if OneHour(seconds) && registered && a in gate && EndedTurn(db.records[a], attempt, turn, Cancelled)
               && db.records[a].receipt.value.completion.superseded && !OtherLive(db, a)
            then Commit(Put(db, a, Revive(db.records[a], runner, now + seconds).(receipt := None)))
            else Rejected
  {
    Consistent(db, a);
  }

  lemma RevivedIs(r: Record, runner: Id, expires: int)
    requires r.attempt.Some? && r.attempt.value in r.tries && r.lease.Some?
    ensures Revived(r, expires, runner, Revive(r, runner, expires))
    ensures var r' := Revive(r, runner, expires);
            r'.payload == r.payload && r'.iteration == r.iteration && r'.receipt == r.receipt
  {
  }

  /** The action ended in a state, with its attempt, iteration and receipt, and gave up its lease. */
  predicate EndedTurn(r: Record, attempt: Id, turn: Id, s: State) {
    && r.state == s && r.iterationState == s && r.receipt.Some? && r.receipt.value.status == s
    && r.attempt == Some(attempt) && attempt in r.tries && r.tries[attempt].state == s
    && r.tries[attempt].session == Some(turn) && r.lease.Some? && r.lease.value.state == Released
  }

  /** A discarded outcome is recovered on the same conditions of its failure, under unused ids: the
      turn goes on in a new attempt and under a new token, and the receipt is removed. */
  lemma DiscardedRecoveredExactly(db: Db, a: Id, source: Id, turn: Id, runner: Id, gate: set<Id>,
                                  registered: bool, now: int, seconds: int, ids: ClaimIds)
    requires Reachable(db)
    ensures var result :=
              Apply(db, DoRecoverDiscarded(a, source, turn, runner, gate, registered, now, seconds, ids));
            && (result.Success? <==>
                  && OneHour(seconds) && registered && Unused(db, ids) && a in db.records && a in gate
                  && EndedTurn(db.records[a], source, turn, Failed) && db.records[a].agent.Some?
                  && db.records[a].receipt.value.completion.discarded
                  && db.records[a].receipt.value.completion.session == Some(turn)
                  && !OtherIn(db, a, {Queued, Claimed, Running, Uncertain, RetryPending})
                  && !OtherLease(db, a) && !OtherIteration(db, a))
            && (result.Success? ==>
                  && OnlyRecord(db, a, result.value) && result.value.intents == db.intents
                  && result.value.issued == db.issued[ids.token := a]
                  && Replayed(db.records[a], turn, runner, now + seconds, ids, result.value.records[a]))
  {
    if a in db.records {
      var r := db.records[a];
      OthersExactly(db, a);
      RecoveryOfDiscarded(db, a, source, turn, runner, gate, registered, now, seconds, ids);
      if EndedTurn(r, source, turn, Failed) && r.agent.Some? {
        Consistent(db, a);
        PutCommitsExactly(db, a, ReplayRecord(r, r.agent.value, turn, runner, now + seconds, ids));
      }
    }
  }

  lemma RecoveryOfDiscarded(db: Db, a: Id, source: Id, turn: Id, runner: Id, gate: set<Id>,
                            registered: bool, now: int, seconds: int, ids: ClaimIds)
    requires Reachable(db) && a in db.records
    ensures var r := db.records[a];
            RecoverDiscarded(db, a, source, turn, runner, gate, registered, now, seconds, ids) ==
            if OneHour(seconds) && registered && FreshIds(db, ids) && a in gate && EndedTurn(r, source, turn, Failed)
               && r.agent.Some? && r.receipt.value.completion.discarded
               && r.receipt.value.completion.session == Some(turn) && !OtherLive(db, a)
            then (match Commit(Put(db, a, ReplayRecord(r, r.agent.value, turn, runner, now + seconds, ids)))
                  case Rejected => Rejected
                  case Success(db') => Success(db'.(issued := db.issued[ids.token := a])))
            else Rejected
  {
    Consistent(db, a);
    var r := db.records[a];
    if EndedTurn(r, source, turn, Failed) && FreshIds(db, ids) && r.agent.Some? {
      ReplayRecordOk(r, r.agent.value, turn, runner, now + seconds, ids);
    }
  }

  predicate Replayed(r: Record, turn: Id, runner: Id, expires: int, ids: ClaimIds, r': Record) {
    && r.agent.Some? && r.lease.Some?
    && r'.state.Running? && r'.iterationState.Running? && r'.attempt == Some(ids.attempt)
    && r'.tries == r.tries[ids.attempt := Attempt(|r.tries| + 1, r.agent.value, Running, Some(turn), NO_COMPLETION)]
    && r'.lease == Some(Lease(r.lease.value.id, ids.token, r.lease.value.agent, runner, Active, expires))
    && r'.receipt.None? && r'.agent == r.agent && r'.leaseId == r.leaseId
  }
}

/** The repository of agent actions as it runs: tables that each transaction rewrites row by row,
    with a rollback when a unique index refuses the result. */
module AgentRepositories {
  import opened Wrappers
  import opened AgentModel
  import opened Collections

  class AgentRepository {
    var records: map<Id, Record>
    var keys: map<Id, Id>
    var intents: map<(Id, Id), Intent>
    var issued: map<Id, Id>

    function Contents(): Db
      reads this
    {
      Db(records, keys, intents, issued)
    }

    /** The tables follow one transaction of the model: its outcome, or nothing. */
    twostate predicate Did(result: Result<Db>, ok: bool)
      reads this
    {
      && (ok <==> result.Success?)
      && Contents() == (if result.Success? then result.value else old(Contents()))
    }

    constructor ()
      ensures Contents() == EMPTY
    {
      records, keys, intents, issued := map[], map[], map[], map[];
    }

    method Restore(before: Db)
      modifies this
      ensures Contents() == before
    {
      records, keys, intents, issued := before.records, before.keys, before.intents, before.issued;
    }

    method EndTransaction(before: Db) returns (ok: bool)
      modifies this
      ensures ok <==> Commit(old(Contents())).Success?
      ensures Contents() == if ok then old(Contents()) else before
    {
      ok := OneActivePerRole(records) && OneLivePerCandidate(records);
      if !ok {
        Restore(before);
      }
    }

    method CreateAction(a: Id, key: Id, iteration: Id, payload: Payload, owned: bool) returns (ok: bool)
      modifies this
      ensures Did(Create(old(Contents()), a, key, iteration, payload, owned), ok)
    {
      if key in keys {
        var existing := keys[key];
        ok := existing in records && records[existing].payload == payload
              && records[existing].iteration == iteration && existing == a;
        return;
      }
      if owned || a in records || exists b :: b in records && records[b].iteration == iteration {
        return false;
      }
      var before := Contents();
      records := records[a := Record(payload, iteration, Queued, Queued, None, None, None, map[], None, None)];
      keys := keys[key := a];
      ok := EndTransaction(before);
    }

    method ExpireRow(a: Id)
      requires a in records && HasActiveLease(records[a])
      modifies this`records
      ensures records == old(records)[a := ExpireRecord(old(records)[a])]
    {
      var r := records[a];
      r := r.(lease := Some(r.lease.value.(state := Expired)));
      if Executing(r.state) {
        r := r.(state := Uncertain);
      }
      r := r.(tries := map t | t in r.tries :: ExpireTry(r.tries[t]));
      r := r.(iterationState := Uncertain);
      assert r == ExpireRecord(records[a]);
      records := records[a := r];
    }

    method ExpireLeases(now: int)
      modifies this`records
      ensures Contents() == Expire(old(Contents()), now)
    {
      var before := records;
      var due := set a | a in records && IsExpired(records[a], now);
      while due != {}
        invariant records.Keys == before.Keys
        invariant forall a :: a in due ==>
          a in records && records[a] == before[a] && IsExpired(before[a], now)
        invariant forall a :: a in records && a !in due ==>
          records[a] == if IsExpired(before[a], now) then ExpireRecord(before[a]) else before[a]
        decreases |due|
      {
        var a := Any(due);
        ExpireRow(a);
        due := due - {a};
      }
      assert forall a :: a in before ==> records[a] == ExpireAll(before, now)[a];
      assert records == ExpireAll(before, now);
    }

    method ClaimAction(rows: seq<Id>, gate: set<Id>, picks: map<Id, Id>, runner: Id,
                       now: int, seconds: int, ids: ClaimIds) returns (ok: bool)
      modifies this
      ensures Did(Claim(old(Contents()), rows, gate, picks, runner, now, seconds, ids), ok)
    {
      if !(1 <= seconds <= 3600) {
        return false;
      }
      var before := Contents();
      ExpireLeases(now);
      for i := 0 to |rows|
        invariant Contents() == Expire(before, now)
        invariant FirstClaimable(Contents(), rows, gate, picks)
                  == FirstClaimable(Contents(), rows[i..], gate, picks)
      {
        assert rows[i..][1..] == rows[i + 1..];
        var a := rows[i];
        if a !in records || records[a].state != Queued || a !in gate || a !in picks {
          continue;
        }
        if exists b :: b in records && SameRole(records[a], records[b]) && Working(records[b].state) {
          continue;
        }
        if exists b :: b in records && SameRole(records[a], records[b]) && HasActiveLease(records[b]) && b != a {
          continue;
        }
        ok := ClaimRow(before, a, picks[a], runner, now + seconds, ids);
        return;
      }
      ok := EndTransaction(before);
    }

    /** The attempt is inserted, the lease inserted or rebound under a new token, and the action and
        its iteration follow. */
    method ClaimRow(before: Db, a: Id, agent: Id, runner: Id, expires: int, ids: ClaimIds)
      returns (ok: bool)
      requires a in records
      modifies this
      ensures ok <==> ClaimChosen(old(Contents()), a, agent, runner, expires, ids).Success?
      ensures Contents() == if ok then ClaimChosen(old(Contents()), a, agent, runner, expires, ids).value
                            else before
    {
      var r := records[a];
      var ordinal := |r.tries| + 1;
      if !FreshIds(Contents(), ids) || OrdinalTaken(r.tries, ordinal) {
        Restore(before);
        return false;
      }
      var leaseId := if r.lease.Some? then r.lease.value.id else ids.lease;
      r := r.(tries := r.tries[ids.attempt := Attempt(ordinal, agent, Claimed, None, NO_COMPLETION)]);
      r := r.(lease := Some(Lease(leaseId, ids.token, agent, runner, Active, expires)));
      r := r.(state := Claimed, agent := Some(agent), attempt := Some(ids.attempt), leaseId := Some(leaseId));
      r := r.(iterationState := Claimed);
      records := records[a := r];
      issued := issued[ids.token := a];
      ok := EndTransaction(before);
    }

    method AdoptUncertain(rows: seq<Id>, ready: set<Id>, runner: Id, now: int, seconds: int)
      returns (ok: bool)
      modifies this
      ensures Did(Adopt(old(Contents()), rows, ready, runner, now, seconds), ok)
    {
      if !(1 <= seconds <= 3600) {
        return false;
      }
      var before := Contents();
      ExpireLeases(now);
      for i := 0 to |rows|
        invariant Contents() == Expire(before, now)
        invariant FirstAdoptable(Contents(), rows, ready) == FirstAdoptable(Contents(), rows[i..], ready)
      {
        assert rows[i..][1..] == rows[i + 1..];
        var a := rows[i];
        if a !in records || records[a].state != Uncertain || a !in ready || CurrentTry(records[a]).None?
           || records[a].lease.None? || records[a].leaseId != Some(records[a].lease.value.id)
        {
          continue;
        }
        if exists b :: b in records && SameRole(records[a], records[b]) && HasActiveLease(records[b]) && b != a {
          continue;
        }
        var r := records[a];
        r := r.(lease := Some(r.lease.value.(runner := runner, state := Active, expires := now + seconds)));
        records := records[a := r];
        ok := EndTransaction(before);
        return;
      }
      ok := EndTransaction(before);
    }

    /** A claimed action whose gate is obsolete is cancelled with a receipt instead of started. */
    method CancelBeforeStart(before: Db, a: Id, session: Option<Id>, expires: int) returns (ok: bool)
      requires before == Contents() && a in records && records[a].lease.Some? && CurrentTry(records[a]).Some?
      requires records[a].state == Claimed
      requires CurrentTry(records[a]).value.session.Some? ==> CurrentTry(records[a]).value.session == session
      modifies this
      ensures Did(Commit(Put(before, a, StartRecord(before.records[a], a, session, false, expires).value)), ok)
    {
      var r := records[a];
      var lease, t, done := r.lease.value, CurrentTry(r).value, GateObsolete(session);
      r := r.(state := Cancelled);
      r := r.(tries := r.tries[r.attempt.value :=
                t.(state := Cancelled, session := session, completion := done)]);
      r := r.(iterationState := Cancelled);
      r := r.(lease := Some(lease.(state := Released)));
      r := r.(receipt := Some(Receipt(a, r.iteration, lease.agent, lease.id, Cancelled, done)));
      records := records[a := r];
      ok := EndTransaction(before);
    }

    method StartAction(a: Id, token: Id, session: Option<Id>, gate: set<Id>, now: int, seconds: int)
      returns (ok: bool)
      modifies this
      ensures Did(Start(old(Contents()), a, token, session, gate, now, seconds), ok)
    {
      if !(1 <= seconds <= 3600) || RequireActiveLease(Contents(), a, token, now).Rejected? {
        return false;
      }
      var before := Contents();
      var r := records[a];
      var lease := r.lease.value;
      var prior := r.state;
      if CurrentTry(r).None? {
        return false;
      }
      var t := CurrentTry(r).value;
      if t.session.Some? && t.session != session {
        return false;
      }
      if prior != Running {
        if prior != Claimed && prior != Uncertain {
          return false;
        }
        if prior == Claimed && a !in gate {
          ok := CancelBeforeStart(before, a, session, now + seconds);
          return;
        }
        r := r.(state := Running);
        if t.state == Claimed || t.state == Uncertain {
          r := r.(tries := r.tries[r.attempt.value := t.(state := Running, session := session)]);
        } else {
          assert r.tries[r.attempt.value := t] == r.tries;
        }
        r := r.(iterationState := Running);
      }
      r := r.(lease := Some(lease.(expires := now + seconds)));
      records := records[a := r];
      ok := EndTransaction(before);
    }

    method HeartbeatAction(a: Id, token: Id, now: int, seconds: int) returns (ok: bool)
      modifies this
      ensures Did(Heartbeat(old(Contents()), a, token, now, seconds), ok)
    {
      if !(1 <= seconds <= 3600) || RequireActiveLease(Contents(), a, token, now).Rejected? {
        return false;
      }
      var before := Contents();
      var r := records[a];
      records := records[a := r.(lease := Some(r.lease.value.(expires := now + seconds)))];
      ok := EndTransaction(before);
    }

    method EnsureTurnLease(a: Id, attempt: Id, turn: Id, runner: Id, gate: set<Id>, now: int, seconds: int)
      returns (ok: bool)
      modifies this
      ensures Did(EnsureCompletionLease(old(Contents()), a, attempt, turn, runner, gate, now, seconds), ok)
    {
      if !(1 <= seconds <= 3600) || a !in records {
        return false;
      }
      var before := Contents();
      var r := records[a];
      if CurrentTry(r).None? || r.lease.None? || r.leaseId != Some(r.lease.value.id) {
        return false;
      }
      var t, lease := CurrentTry(r).value, r.lease.value;
      if r.attempt != Some(attempt) || t.session != Some(turn) || lease.runner != runner
         || r.receipt.Some? || a !in gate
      {
        return false;
      }
      if (r.state != Running && r.state != Uncertain) || (t.state != Running && t.state != Uncertain)
         || (r.iterationState != Running && r.iterationState != Uncertain) || lease.state == Released
      {
        return false;
      }
      if lease.state == Active && now < lease.expires {
        return true;
      }
      if exists b :: b in records && b != a && SameRole(r, records[b]) && Working(records[b].state) {
        return false;
      }
      r := r.(state := Running);
      r := r.(tries := r.tries[r.attempt.value := t.(state := Running)]);
      r := r.(iterationState := Running);
      r := r.(lease := Some(lease.(state := Active, runner := runner, expires := now + seconds)));
      records := records[a := r];
      ok := EndTransaction(before);
    }

    method CompleteAction(value: Receipt, token: Id, continuation: Option<Id>, gate: set<Id>, now: int)
      returns (ok: bool)
      modifies this
      ensures Did(Complete(old(Contents()), value, token, continuation, gate, now), ok)
    {
      if !Terminal(value.status) && value.status != Uncertain {
        return false;
      }
      var a := value.action;
      var before := Contents();
      if a in records && records[a].receipt.Some? {
        return ReplayMatches(before, value, token, continuation);
      }
      if RequireActiveLease(before, a, token, now).Rejected? {
        return false;
      }
      var r := records[a];
      var lease := r.lease.value;
      if value.lease != lease.id || value.agent != lease.agent || value.iteration != r.iteration
         || r.attempt.None?
      {
        return false;
      }
      var v := value;
      if value.status == Completed && a !in gate {
        v := value.(status := Cancelled, completion := Obsolete(value.completion));
      }
      r := r.(state := v.status);
      r := MarkTry(r, v.status, v.completion.session, Some(v.completion));
      if v.status != Uncertain {
        r := r.(lease := Some(lease.(state := Released)));
      }
      r := r.(iterationState := v.status);
      if v.status != Uncertain {
        r := r.(receipt := Some(v));
      }
      if continuation.Some? && v.status == Completed {
        var key, intent := (a, r.attempt.value), Intent(v, continuation.value);
        if key in intents && intents[key] != intent {
          return false;
        }
        intents := intents[key := intent];
      }
      assert r == CompleteRecord(before.records[a], v);
      records := records[a := r];
      ok := EndTransaction(before);
    }

    method DeferRetry(a: Id, token: Id, failure: Completion, now: int, seconds: int) returns (ok: bool)
      modifies this
      ensures Did(Defer(old(Contents()), a, token, failure, now, seconds), ok)
    {
      if !(1 <= seconds <= 3600) || !failure.failure.retryable || failure.failure.suffixes != 0
         || RequireActiveLease(Contents(), a, token, now).Rejected?
      {
        return false;
      }
      var before := Contents();
      var r := records[a];
      if Working(r.state) {
        r := r.(state := RetryPending);
      }
      r := MarkTry(r, RetryPending, None, Some(failure));
      r := r.(iterationState := RetryPending);
      r := r.(lease := Some(r.lease.value.(expires := now + seconds)));
      records := records[a := r];
      ok := EndTransaction(before);
    }

    method ApplyRetryDecision(a: Id, attempt: Id, retry: bool, now: int, seconds: int) returns (ok: bool)
      modifies this
      ensures Did(Decide(old(Contents()), a, attempt, retry, now, seconds), ok)
    {
      if !(1 <= seconds <= 3600) || a !in records {
        return false;
      }
      var before := Contents();
      var r := records[a];
      if CurrentTry(r).None? || r.attempt != Some(attempt) || r.lease.None? {
        return false;
      }
      var t, lease := CurrentTry(r).value, r.lease.value;
      if !retry && r.state == Failed && t.state == Failed && t.completion.failure.suffixes > 0 {
        return true;
      }
      var failure := Arbitrated(t.completion.failure, r.state);
      if failure.None? {
        return false;
      }
      if retry {
        r := r.(state := Queued, agent := if failure.value.auth then None else r.agent);
        r := r.(iterationState := Queued);
        r := MarkTry(r, Failed, None, Some(t.completion.(failure := failure.value)));
        r := r.(lease := Some(lease.(state := Active, expires := now + seconds)));
        r := r.(receipt := None);
      } else {
        var done := t.completion.(failure := failure.value.(suffixes := failure.value.suffixes + 1));
        r := r.(state := Failed);
        r := r.(iterationState := Failed);
        r := MarkTry(r, Failed, None, Some(done));
        r := r.(lease := Some(lease.(state := Released)));
        r := r.(receipt := Some(Receipt(a, r.iteration, lease.agent, lease.id, Failed, done)));
      }
      records := records[a := r];
      ok := EndTransaction(before);
    }

    method CancelAction(a: Id) returns (ok: bool)
      modifies this
      ensures Did(Cancel(old(Contents()), a), ok)
    {
      if a !in records {
        return false;
      }
      var r := records[a];
      if r.state == Cancelled {
        return true;
      }
      if r.state == Completed || r.state == Failed {
        return false;
      }
      var before := Contents();
      r := r.(state := Cancelled);
      r := r.(iterationState := Cancelled);
      r := r.(tries := map t | t in r.tries :: CancelTry(r.tries[t]));
      if HasActiveLease(r) {
        r := r.(lease := Some(r.lease.value.(state := Released)));
      }
      assert r == CancelRecord(before.records[a]);
      records := records[a := r];
      ok := EndTransaction(before);
    }

    method CancelObsoleteRow(a: Id, current: set<Id>, scope: Option<set<Id>>)
      requires a in records && (records[a].state == Queued || records[a].state == RetryPending)
      modifies this`records
      ensures records == old(records)[a :=
                if Sweepable(old(records)[a], a, current, scope) then SweepRecord(old(records)[a])
                else old(records)[a]]
    {
      var r := records[a];
      if (scope.Some? && r.payload.operator !in scope.value) || a in current || !r.payload.workflow {
        return;
      }
      var prior := r.state;
      if prior == RetryPending
         && (CurrentTry(r).None? || CurrentTry(r).value.state != RetryPending || !HasActiveLease(r)
             || r.leaseId != Some(r.lease.value.id))
      {
        return;
      }
      r := r.(state := Cancelled);
      if r.iterationState == prior {
        r := r.(iterationState := Cancelled);
      }
      if prior == RetryPending {
        r := MarkTry(r, Cancelled, None, None);
        r := r.(lease := Some(r.lease.value.(state := Released)));
      }
      records := records[a := r];
    }

    method CancelObsoleteRows(current: set<Id>, scope: Option<set<Id>>)
      modifies this`records
      ensures records == SweepAll(old(records), current, scope)
    {
      var before := records;
      var waiting := set a | a in records && (records[a].state == Queued || records[a].state == RetryPending);
      while waiting != {}
        invariant records.Keys == before.Keys
        invariant forall a :: a in waiting ==>
          && a in records && records[a] == before[a]
          && (before[a].state == Queued || before[a].state == RetryPending)
        invariant forall a :: a in records && a !in waiting ==>
          records[a] == if Sweepable(before[a], a, current, scope) then SweepRecord(before[a]) else before[a]
        decreases |waiting|
      {
        var a := Any(waiting);
        CancelObsoleteRow(a, current, scope);
        waiting := waiting - {a};
      }
      assert forall a :: a in before ==> records[a] == SweepAll(before, current, scope)[a];
    }

    method CancelObsolete(current: set<Id>, scope: Option<set<Id>>) returns (ok: bool)
      modifies this
      ensures Did(Sweep(old(Contents()), current, scope), ok)
    {
      var before := Contents();
      CancelObsoleteRows(current, scope);
      ok := EndTransaction(before);
    }

    method RecoverCancelledAction(a: Id, attempt: Id, turn: Id, runner: Id, gate: set<Id>,
                                  registered: bool, now: int, seconds: int) returns (ok: bool)
      modifies this
      ensures Did(RecoverCancelled(old(Contents()), a, attempt, turn, runner, gate, registered, now, seconds), ok)
    {
      if !(1 <= seconds <= 3600) || a !in records {
        return false;
      }
      var before := Contents();
      var r := records[a];
      if r.state != Cancelled || r.attempt != Some(attempt) || a !in gate || CurrentTry(r).None?
         || r.lease.None? || r.leaseId != Some(r.lease.value.id) || r.receipt.None?
      {
        return false;
      }
      var t, lease, receipt := CurrentTry(r).value, r.lease.value, r.receipt.value;
      if t.state != Cancelled || r.iterationState != Cancelled || lease.state != Released
         || receipt.status != Cancelled || t.session != Some(turn) || !receipt.completion.superseded
         || OtherLive(before, a) || !registered
      {
        return false;
      }
      r := r.(state := Running);
      r := r.(tries := r.tries[r.attempt.value := t.(state := Running)]);
      r := r.(iterationState := Running);
      r := r.(lease := Some(lease.(state := Active, runner := runner, expires := now + seconds)));
      r := r.(receipt := None);
      records := records[a := r];
      ok := EndTransaction(before);
    }

    method RecoverDiscardedOutcome(a: Id, source: Id, turn: Id, runner: Id, gate: set<Id>,
                                   registered: bool, now: int, seconds: int, ids: ClaimIds)
      returns (ok: bool)
      modifies this
      ensures Did(RecoverDiscarded(old(Contents()), a, source, turn, runner, gate, registered, now, seconds, ids), ok)
    {
      if !(1 <= seconds <= 3600) || a !in records {
        return false;
      }
      var before := Contents();
      var r := records[a];
      if CurrentTry(r).None? || r.lease.None? || r.leaseId != Some(r.lease.value.id)
         || r.receipt.None? || r.attempt != Some(source) || a !in gate
      {
        return false;
      }
      var t, lease, receipt := CurrentTry(r).value, r.lease.value, r.receipt.value;
      if r.state != Failed || t.state != Failed || lease.state != Released || r.iterationState != Failed
         || receipt.status != Failed || t.session != Some(turn) || !receipt.completion.discarded
         || receipt.completion.session != Some(turn) || r.agent.None? || OtherLive(before, a) || !registered
         || !FreshIds(before, ids) || OrdinalTaken(r.tries, t.ordinal + 1)
      {
        return false;
      }
      r := r.(tries := r.tries[ids.attempt :=
                Attempt(t.ordinal + 1, r.agent.value, Running, Some(turn), NO_COMPLETION)]);
      r := r.(state := Running, attempt := Some(ids.attempt));
      r := r.(iterationState := Running);
      r := r.(lease := Some(lease.(token := ids.token, state := Active, runner := runner,
                                   expires := now + seconds)));
      r := r.(receipt := None);
      records := records[a := r];
      issued := issued[ids.token := a];
      ok := EndTransaction(before);
    }
  }
}

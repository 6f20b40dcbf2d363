/** The delivery outbox: intents that are written once, claimed under a lease, and finished or
    deferred only by the holder of their latest claim.  Times are integers; an operation may see any
    time, because some read it before their transaction starts. */
module Outbox {
  import opened Wrappers

  type Id = int

  /** The three names of an intent; blank names are 0. */
  datatype Names = Names(origin: Id, attempt: Id, topic: Id)

  /** The digest of the names.  Equal names have one digest and different names different ones. */
  type OutboxId = int

  datatype RowState = Pending | Claimed | Delivered

  datatype Row = Row(names: Names, payload: Id, state: RowState, available: int, token: Option<Id>, owner: Id,
                     expires: int, attempts: nat, result: Option<Id>, error: Option<Id>, created: int)

  /** Which claim of which row a token was made for; not a table. */
  datatype Grant = Grant(box: OutboxId, number: nat)

  datatype Db = Db(rows: map<OutboxId, Row>, issued: map<Id, Grant>)

  const EMPTY := Db(map[], map[])

  function Put(db: Db, id: OutboxId, row: Row): Db {
    db.(rows := db.rows[id := row])
  }

  predicate IsDigest(db: Db, id: OutboxId, names: Names) {
    forall b :: b in db.rows ==> (b == id <==> db.rows[b].names == names)
  }

  function Enqueue(db: Db, id: OutboxId, names: Names, payload: Id, created: int): Result<Db> {
    if names.origin == 0 || names.attempt == 0 || names.topic == 0 || !IsDigest(db, id, names) then Rejected
    else if id in db.rows then (if db.rows[id].payload != payload then Rejected else Success(db))
    else Success(Put(db, id, Row(names, payload, Pending, created, None, 0, 0, 0, None, None, created)))
  }

  predicate Due(row: Row, now: int) {
    (row.state.Pending? && row.available <= now) || (row.state.Claimed? && row.expires <= now)
  }

  predicate Wanted(db: Db, id: OutboxId, topic: Id, origin: Option<Id>, now: int) {
    && id in db.rows && db.rows[id].names.topic == topic
    && (origin.Some? ==> db.rows[id].names.origin == origin.value)
    && Due(db.rows[id], now)
  }

  /** The order of the query: availability, then creation, then digest. */
  predicate Earlier(db: Db, a: OutboxId, b: OutboxId)
    requires a in db.rows && b in db.rows
  {
    var r, s := db.rows[a], db.rows[b];
    r.available < s.available
    || (r.available == s.available && (r.created < s.created || (r.created == s.created && a < b)))
  }

  /** The first due row: every other one comes after it. */
  predicate IsNext(db: Db, id: OutboxId, topic: Id, origin: Option<Id>, now: int) {
    && Wanted(db, id, topic, origin, now)
    && (forall b :: b in db.rows && b != id && Wanted(db, b, topic, origin, now) ==> Earlier(db, id, b))
  }

  lemma OneNext(db: Db, a: OutboxId, b: OutboxId, topic: Id, origin: Option<Id>, now: int)
    requires IsNext(db, a, topic, origin, now) && IsNext(db, b, topic, origin, now)
    ensures a == b
  {
  }

  function ClaimRow(db: Db, id: OutboxId, owner: Id, expires: int, token: Id): Db
    requires id in db.rows
  {
    var row := db.rows[id];
    Put(db, id, row.(state := Claimed, token := Some(token), owner := owner, expires := expires,
                     attempts := row.attempts + 1))
    .(issued := db.issued[token := Grant(id, row.attempts + 1)])
  }

  /** chosen is the row that the query returns. */
  function Claim(db: Db, topic: Id, owner: Id, seconds: int, origin: Option<Id>, now: int, token: Id,
                 chosen: Option<OutboxId>): Result<Db>
  {
    if owner == 0 || seconds <= 0 || token in db.issued then Rejected
    else if chosen.None? then
      if exists b :: b in db.rows && Wanted(db, b, topic, origin, now) then Rejected else Success(db)
    else if !IsNext(db, chosen.value, topic, origin, now) then Rejected
    else Success(ClaimRow(db, chosen.value, owner, now + seconds, token))
  }

  predicate Holds(db: Db, id: OutboxId, token: Id, now: int) {
    id in db.rows && db.rows[id].state.Claimed? && db.rows[id].token == Some(token) && now < db.rows[id].expires
  }

  function Renew(db: Db, id: OutboxId, token: Id, seconds: int, now: int): Result<Db> {
    if seconds <= 0 || !Holds(db, id, token, now) then Rejected
    else Success(Put(db, id, db.rows[id].(expires := now + seconds)))
  }

  function Finish(db: Db, id: OutboxId, token: Id, result: Id, now: int): Result<Db> {
    if !Holds(db, id, token, now) then Rejected
    else Success(Put(db, id, db.rows[id].(state := Delivered, result := Some(result), token := None,
                                          expires := 0, error := None)))
  }

  function Defer(db: Db, id: OutboxId, token: Id, error: Id, delay: int, now: int): Result<Db> {
    if delay < 0 || !Holds(db, id, token, now) then Rejected
    else Success(Put(db, id, db.rows[id].(state := Pending, available := now + delay, token := None,
                                          expires := 0, error := Some(error))))
  }

  // ----- Runs -----

  datatype Step =
    | DoEnqueue(id: OutboxId, names: Names, payload: Id, created: int)
    | DoClaim(topic: Id, owner: Id, seconds: int, origin: Option<Id>, now: int, token: Id,
              chosen: Option<OutboxId>)
    | DoRenew(id: OutboxId, token: Id, seconds: int, now: int)
    | DoFinish(id: OutboxId, token: Id, result: Id, now: int)
    | DoDefer(id: OutboxId, token: Id, error: Id, delay: int, now: int)

  function Apply(db: Db, step: Step): Result<Db> {
    match step
    case DoEnqueue(id, names, payload, created) => Enqueue(db, id, names, payload, created)
    case DoClaim(topic, owner, seconds, origin, now, token, chosen) =>
      Claim(db, topic, owner, seconds, origin, now, token, chosen)
    case DoRenew(id, token, seconds, now) => Renew(db, id, token, seconds, now)
    case DoFinish(id, token, result, now) => Finish(db, id, token, result, now)
    case DoDefer(id, token, error, delay, now) => Defer(db, id, token, error, delay, now)
  }

  function Next(db: Db, step: Step): Db {
    if Apply(db, step).Success? then Apply(db, step).value else db
  }

  function Exec(db: Db, steps: seq<Step>): Db
    decreases |steps|
  {
    if steps == [] then db else Exec(Next(db, steps[0]), steps[1..])
  }

  lemma {:induction false} ExecConcat(db: Db, first: seq<Step>, second: seq<Step>)
    ensures Exec(db, first + second) == Exec(Exec(db, first), second)
    decreases |first|
  {
    if first == [] {
      assert first + second == second;
    } else {
      assert (first + second)[1..] == first[1..] + second;
      ExecConcat(Next(db, first[0]), first[1..], second);
    }
  }

  // ----- What every step keeps -----

  /** A claimed row carries the token of its latest claim; other rows carry none. */
  predicate RowOk(db: Db, id: OutboxId)
    requires id in db.rows
  {
    var row := db.rows[id];
    && (row.state.Claimed? <==> row.token.Some?)
    && (row.token.Some? ==> row.token.value in db.issued && db.issued[row.token.value] == Grant(id, row.attempts))
    && (row.state.Delivered? ==> row.result.Some? && row.attempts > 0)
  }

  predicate Inv(db: Db) {
    && (forall id {:trigger RowOk(db, id)} :: id in db.rows ==> RowOk(db, id))
    && (forall t :: t in db.issued ==>
          db.issued[t].box in db.rows && 1 <= db.issued[t].number <= db.rows[db.issued[t].box].attempts)
  }

  lemma StepKeepsInv(db: Db, step: Step)
    requires Inv(db)
    ensures Inv(Next(db, step))
  {
    var db' := Next(db, step);
    forall id | id in db'.rows
      ensures RowOk(db', id)
    {
      if id in db.rows {
        assert RowOk(db, id);
      }
    }
  }

  lemma {:induction false} RunKeepsInv(db: Db, steps: seq<Step>)
    requires Inv(db)
    ensures Inv(Exec(db, steps))
    decreases |steps|
  {
    if steps != [] {
      StepKeepsInv(db, steps[0]);
      RunKeepsInv(Next(db, steps[0]), steps[1..]);
    }
  }

  /** The claims of a row in a run. */
  function Claims(db: Db, steps: seq<Step>, id: OutboxId): nat
    decreases |steps|
  {
    if steps == [] then 0
    else (if steps[0].DoClaim? && steps[0].chosen == Some(id) && Apply(db, steps[0]).Success? then 1 else 0)
         + Claims(Next(db, steps[0]), steps[1..], id)
  }

  function Attempts(db: Db, id: OutboxId): nat {
    if id in db.rows then db.rows[id].attempts else 0
  }

  /** attempts counts exactly the claims that were granted. */
  lemma {:induction false} AttemptsCountClaims(db: Db, steps: seq<Step>, id: OutboxId)
    ensures Attempts(Exec(db, steps), id) == Attempts(db, id) + Claims(db, steps, id)
    decreases |steps|
  {
    if steps != [] {
      AttemptsCountClaims(Next(db, steps[0]), steps[1..], id);
    }
  }

  // ----- When each operation is granted, and what it leaves -----

  /** An intent with three names is written under its digest; one that is there already is accepted
      again exactly if it says the same. */
  lemma EnqueuedExactly(db: Db, id: OutboxId, names: Names, payload: Id, created: int)
    ensures var result := Apply(db, DoEnqueue(id, names, payload, created));
            && (result.Success? <==>
                  && names.origin != 0 && names.attempt != 0 && names.topic != 0
                  && (forall b :: b in db.rows && b != id ==> db.rows[b].names != names)
                  && (id in db.rows ==> db.rows[id].names == names && db.rows[id].payload == payload))
            && (result.Success? && id in db.rows ==> result.value == db)
            && (result.Success? && id !in db.rows ==>
                  && id in result.value.rows && result.value == Put(db, id, result.value.rows[id])
                  && (var row := result.value.rows[id];
                      && row.names == names && row.payload == payload && row.state.Pending? && row.token.None?
                      && row.available == created && row.created == created && row.attempts == 0 && row.result.None?))
  {
  }

  /** A row of the topic, and of the origin if one is asked for, that is pending and available, or
      claimed under an expired lease. */
  predicate CanBeClaimed(row: Row, topic: Id, origin: Option<Id>, now: int) {
    && row.names.topic == topic && (origin == None || origin == Some(row.names.origin))
    && match row.state
       case Pending => now >= row.available
       case Claimed => now >= row.expires
       case Delivered => false
  }

  /** A claim takes, of all rows that can be claimed, the one that became available first, and of
      those the oldest and then the one of the least digest; it finds none only if there is none. */
  lemma ClaimedExactly(db: Db, topic: Id, owner: Id, seconds: int, origin: Option<Id>, now: int, token: Id,
                       chosen: Option<OutboxId>, db': Db)
    requires Apply(db, DoClaim(topic, owner, seconds, origin, now, token, chosen)) == Success(db')
    ensures owner != 0 && seconds > 0 && token !in db.issued
    ensures chosen.None? ==> db' == db && forall b :: b in db.rows ==> !CanBeClaimed(db.rows[b], topic, origin, now)
    ensures chosen.Some? ==>
              var id := chosen.value;
              && id in db.rows && CanBeClaimed(db.rows[id], topic, origin, now)
              && (forall b :: b in db.rows && b != id && CanBeClaimed(db.rows[b], topic, origin, now) ==>
                    && db.rows[id].available <= db.rows[b].available
                    && (db.rows[id].available == db.rows[b].available ==>
                          && db.rows[id].created <= db.rows[b].created
                          && (db.rows[id].created == db.rows[b].created ==> id < b)))
              && (var row := db.rows[id];
                  db'.rows == db.rows[id := Row(row.names, row.payload, Claimed, row.available, Some(token), owner,
                                                now + seconds, row.attempts + 1, row.result, row.error, row.created)])
              && token in db'.issued && db'.issued[token].box == id
  {
    if chosen.None? {
      forall b | b in db.rows
        ensures !CanBeClaimed(db.rows[b], topic, origin, now)
      {
        assert !Wanted(db, b, topic, origin, now);
      }
    } else {
      forall b | b in db.rows && b != chosen.value && CanBeClaimed(db.rows[b], topic, origin, now)
        ensures Earlier(db, chosen.value, b)
      {
        assert Wanted(db, b, topic, origin, now);
      }
    }
  }

  /** The row is claimed under this token and its lease has not run out. */
  predicate LiveClaim(db: Db, id: OutboxId, token: Id, now: int) {
    id in db.rows && db.rows[id].state == Claimed && db.rows[id].token == Some(token) && db.rows[id].expires > now
  }

  /** Renewing moves only the end of a live claim. */
  lemma RenewedExactly(db: Db, id: OutboxId, token: Id, seconds: int, now: int)
    ensures var result := Apply(db, DoRenew(id, token, seconds, now));
            && (result.Success? <==> seconds > 0 && LiveClaim(db, id, token, now))
            && (result.Success? ==> result.value == Put(db, id, db.rows[id].(expires := now + seconds)))
  {
  }

  /** Finishing a live claim leaves the row delivered with its result, and nobody holds it. */
  lemma FinishedExactly(db: Db, id: OutboxId, token: Id, result: Id, now: int)
    ensures var finished := Apply(db, DoFinish(id, token, result, now));
            && (finished.Success? <==> LiveClaim(db, id, token, now))
            && (finished.Success? ==>
                  && id in finished.value.rows && finished.value == Put(db, id, finished.value.rows[id])
                  && (var row, row' := db.rows[id], finished.value.rows[id];
                      && row'.state.Delivered? && row'.result == Some(result) && row'.token.None? && row'.error.None?
                      && SameIntent(row', row) && row'.attempts == row.attempts))
  {
  }

  /** Deferring a live claim makes the row available again after the delay, and nobody holds it. */
  lemma DeferredExactly(db: Db, id: OutboxId, token: Id, error: Id, delay: int, now: int)
    ensures var deferred := Apply(db, DoDefer(id, token, error, delay, now));
            && (deferred.Success? <==> delay >= 0 && LiveClaim(db, id, token, now))
            && (deferred.Success? ==>
                  && id in deferred.value.rows && deferred.value == Put(db, id, deferred.value.rows[id])
                  && (var row, row' := db.rows[id], deferred.value.rows[id];
                      && row'.state.Pending? && row'.available == now + delay && row'.token.None?
                      && row'.error == Some(error) && row'.result == row.result
                      && SameIntent(row', row) && row'.attempts == row.attempts))
  {
  }

  // ----- Fencing -----

  predicate UsesToken(step: Step, id: OutboxId, token: Id) {
    match step
    case DoRenew(b, t, _, _) => b == id && t == token
    case DoFinish(b, t, _, _) => b == id && t == token
    case DoDefer(b, t, _, _, _) => b == id && t == token
    case _ => false
  }

  /** Renewing, finishing and deferring succeed only with the token of the latest claim of the row. */
  lemma OnlyLatestClaim(steps: seq<Step>, step: Step, id: OutboxId, token: Id)
    requires UsesToken(step, id, token) && Apply(Exec(EMPTY, steps), step).Success?
    ensures var db := Exec(EMPTY, steps);
            && id in db.rows && token in db.issued
            && db.issued[token] == Grant(id, Claims(EMPTY, steps, id))
  {
    RunKeepsInv(EMPTY, steps);
    AttemptsCountClaims(EMPTY, steps, id);
    assert RowOk(Exec(EMPTY, steps), id);
  }

  /** The token was made for the row and no longer holds it. */
  predicate Spent(db: Db, id: OutboxId, token: Id) {
    && token in db.issued && db.issued[token].box == id
    && (id in db.rows ==> db.rows[id].token != Some(token))
  }

  lemma SpentStays(db: Db, step: Step, id: OutboxId, token: Id)
    requires Spent(db, id, token)
    ensures Spent(Next(db, step), id, token) || id !in db.rows
  {
  }

  /** A token that lost its row, to a newer claim, a deferral or a delivery, never works again. */
  lemma {:induction false} SpentForever(db: Db, steps: seq<Step>, id: OutboxId, token: Id, use: Step)
    requires Inv(db) && Spent(db, id, token) && UsesToken(use, id, token)
    ensures Apply(Exec(db, steps), use).Rejected?
    decreases |steps|
  {
    if steps != [] {
      SpentStays(db, steps[0], id, token);
      StepKeepsInv(db, steps[0]);
      SpentForever(Next(db, steps[0]), steps[1..], id, token, use);
    }
  }

  /** What a claim of a row takes from the earlier holder. */
  lemma NewClaimSpendsOld(db: Db, claim: Step, id: OutboxId, token: Id)
    requires Inv(db) && id in db.rows && db.rows[id].token == Some(token)
    requires claim.DoClaim? && claim.chosen == Some(id) && Apply(db, claim).Success?
    ensures Spent(Next(db, claim), id, token)
  {
    assert RowOk(db, id);
  }

  // ----- The steps of one process among those of the others -----

  datatype Event = Event(own: bool, step: Step)

  function Steps(events: seq<Event>): seq<Step> {
    if events == [] then [] else [events[0].step] + Steps(events[1..])
  }

  /** What the others did. */
  function OthersOnly(events: seq<Event>): seq<Step> {
    if events == [] then []
    else (if events[0].own then [] else [events[0].step]) + OthersOnly(events[1..])
  }

  /** What this process did. */
  function OwnSteps(events: seq<Event>): seq<Step> {
    if events == [] then []
    else (if events[0].own then [events[0].step] else []) + OwnSteps(events[1..])
  }

  lemma {:induction false} OwnStepsConcat(first: seq<Event>, second: seq<Event>)
    ensures OwnSteps(first + second) == OwnSteps(first) + OwnSteps(second)
  {
    if first == [] {
      assert first + second == second;
    } else {
      assert (first + second)[1..] == first[1..] + second;
      OwnStepsConcat(first[1..], second);
    }
  }

  lemma {:induction false} NothingOwn(events: seq<Event>)
    requires forall k :: 0 <= k < |events| ==> !events[k].own
    ensures OwnSteps(events) == []
  {
    if events != [] {
      NothingOwn(events[1..]);
    }
  }

  lemma {:induction false} StepsConcat(first: seq<Event>, second: seq<Event>)
    ensures Steps(first + second) == Steps(first) + Steps(second)
  {
    if first == [] {
      assert first + second == second;
    } else {
      assert (first + second)[1..] == first[1..] + second;
      StepsConcat(first[1..], second);
    }
  }

  /** The own steps among the events are finishes and deferrals under one claim. */
  predicate OnlyThisClaim(events: seq<Event>, id: OutboxId, token: Id) {
    forall k :: 0 <= k < |events| && events[k].own ==>
      UsesToken(events[k].step, id, token) && !events[k].step.DoRenew?
  }

  /** From the moment a claim has lost its row, a process that writes only under this claim does
      not show: in any interleaving with the others, the database is what they alone make of it. */
  lemma {:induction false} LostClaimWritesNothing(db: Db, events: seq<Event>, id: OutboxId, token: Id)
    requires Inv(db) && Spent(db, id, token) && OnlyThisClaim(events, id, token)
    ensures Exec(db, Steps(events)) == Exec(db, OthersOnly(events))
    decreases |events|
  {
    if events != [] {
      var step, rest := events[0].step, events[1..];
      assert Steps(events)[0] == step && Steps(events)[1..] == Steps(rest);
      forall k | 0 <= k < |rest| && rest[k].own
        ensures UsesToken(rest[k].step, id, token) && !rest[k].step.DoRenew?
      {
        assert events[k + 1] == rest[k];
      }
      if events[0].own {
        assert UsesToken(events[0].step, id, token);
        assert Next(db, step) == db;
        assert OthersOnly(events) == OthersOnly(rest);
        LostClaimWritesNothing(db, rest, id, token);
      } else {
        assert OthersOnly(events)[0] == step && OthersOnly(events)[1..] == OthersOnly(rest);
        SpentStays(db, step, id, token);
        StepKeepsInv(db, step);
        LostClaimWritesNothing(Next(db, step), rest, id, token);
      }
    }
  }

  // ----- Delivered rows and payloads -----

  predicate DeliveredAt(db: Db, id: OutboxId) {
    id in db.rows && db.rows[id].state.Delivered?
  }

  predicate SameIntent(r: Row, s: Row) {
    r.names == s.names && r.payload == s.payload
  }

  lemma StepKeepsRows(db: Db, step: Step, id: OutboxId)
    requires id in db.rows
    ensures id in Next(db, step).rows && SameIntent(Next(db, step).rows[id], db.rows[id])
    ensures db.rows[id].state.Delivered? ==> Next(db, step).rows[id] == db.rows[id]
  {
  }

  /** Names and payload never change, and a delivered row never changes at all. */
  lemma {:induction false} DeliveredIsFinal(db: Db, steps: seq<Step>, id: OutboxId)
    requires id in db.rows
    ensures id in Exec(db, steps).rows && SameIntent(Exec(db, steps).rows[id], db.rows[id])
    ensures db.rows[id].state.Delivered? ==> Exec(db, steps).rows[id] == db.rows[id]
    decreases |steps|
  {
    if steps != [] {
      StepKeepsRows(db, steps[0], id);
      DeliveredIsFinal(Next(db, steps[0]), steps[1..], id);
    }
  }

  predicate OneRowEach(db: Db) {
    forall a, b {:trigger db.rows[a].names, db.rows[b].names} ::
      a in db.rows && b in db.rows && db.rows[a].names == db.rows[b].names ==> a == b
  }

  /** Over every run there is at most one row for an origin, attempt and topic. */
  lemma {:induction false} OneRowPerIntent(db: Db, steps: seq<Step>)
    requires OneRowEach(db)
    ensures OneRowEach(Exec(db, steps))
    decreases |steps|
  {
    if steps != [] {
      StepKeepsOneRow(db, steps[0]);
      OneRowPerIntent(Next(db, steps[0]), steps[1..]);
    }
  }

  lemma StepKeepsOneRow(db: Db, step: Step)
    requires OneRowEach(db)
    ensures OneRowEach(Next(db, step))
  {
    var db' := Next(db, step);
    forall a, b | a in db'.rows && b in db'.rows && db'.rows[a].names == db'.rows[b].names
      ensures a == b
    {
      if a in db.rows && b in db.rows {
        assert db.rows[a].names == db.rows[b].names;
      }
    }
  }
}

/** Evidence operations: requested once, claimed under a token, routed to an execution, and completed
    by a result.  The request document repeats the state that its row holds in a column. */
module EvidenceOperations {
  import opened Wrappers

  type Id = int

  datatype State = Queued | Claimed | Routed | Running | Completed | Failed | Cancelled

  predicate Terminal(s: State) {
    s.Completed? || s.Failed? || s.Cancelled?
  }

  predicate Placed(s: State) {
    s.Routed? || s.Running? || Terminal(s)
  }

  /** identity stands for the fields that a result must repeat; created_at is left out. */
  datatype Request = Request(id: Id, key: Id, identity: Id, code: Id, rest: Id, state: State)

  const BLANK: Id := 0

  datatype Route = Route(test: Id, wire: Id, endpoint: Id, environment: Id)

  const NO_ROUTE := Route(BLANK, BLANK, BLANK, BLANK)

  datatype Row = Row(state: State, request: Request, executor: Id, route: Route, token: Id,
                     expires: Option<int>, attempts: nat, created: int)

  datatype Evidence = Evidence(id: Id, request: Id, status: State, identity: Id, execution: Route, rest: Id)

  /** Which claim of which request a token was made for; not a table. */
  datatype Grant = Grant(request: Id, number: nat)

  datatype Db = Db(rows: map<Id, Row>, keys: map<Id, Id>, results: map<Id, Evidence>, issued: map<Id, Grant>)

  const EMPTY := Db(map[], map[], map[], map[])

  function Put(db: Db, id: Id, row: Row): Db {
    db.(rows := db.rows[id := row])
  }

  /** The column and the document change together. */
  function SetState(row: Row, s: State): Row {
    row.(state := s, request := row.request.(state := s))
  }

  function Release(row: Row): Row {
    row.(token := BLANK, expires := None)
  }

  function Create(db: Db, request: Request, executor: Id, originOk: bool, now: int): Result<Db> {
    if !request.state.Queued? || !originOk then Rejected
    else if request.key in db.keys then
      if db.keys[request.key] in db.rows && db.rows[db.keys[request.key]].request == request
      then Success(db) else Rejected
    else if request.id in db.rows then Rejected
    else
      Success(Put(db, request.id, Row(Queued, request, executor, NO_ROUTE, BLANK, None, 0, now))
              .(keys := db.keys[request.key := request.id]))
  }

  predicate Expired(row: Row, now: int) {
    row.state.Claimed? && row.expires.Some? && row.expires.value <= now
  }

  function Requeue(rows: map<Id, Row>, now: int): map<Id, Row> {
    map id | id in rows :: if Expired(rows[id], now) then Release(SetState(rows[id], Queued)) else rows[id]
  }

  predicate Wanted(rows: map<Id, Row>, id: Id, executor: Id, codes: Option<set<Id>>) {
    && id in rows && rows[id].executor == executor && rows[id].state.Queued?
    && (codes.Some? ==> rows[id].request.code in codes.value)
  }

  predicate Before(rows: map<Id, Row>, a: Id, b: Id)
    requires a in rows && b in rows
  {
    rows[a].created < rows[b].created || (rows[a].created == rows[b].created && a < b)
  }

  predicate IsFirst(rows: map<Id, Row>, id: Id, executor: Id, codes: Option<set<Id>>) {
    && Wanted(rows, id, executor, codes)
    && (forall b :: b in rows && b != id && Wanted(rows, b, executor, codes) ==> Before(rows, id, b))
  }

  function ClaimRow(row: Row, token: Id, expires: int): Row {
    SetState(row, Claimed).(token := token, expires := Some(expires), attempts := row.attempts + 1)
  }

  function GrantClaim(db: Db, id: Id, token: Id, expires: int): Db
    requires id in db.rows
  {
    Put(db, id, ClaimRow(db.rows[id], token, expires)).(
      issued := db.issued[token := Grant(id, db.rows[id].attempts + 1)])
  }

  /** chosen is the row that the query returns; a generated token is new and not blank. */
  function Claim(db: Db, executor: Id, consumer: Id, codes: Option<set<Id>>, token: Id, now: int, seconds: int,
                 chosen: Option<Id>): Result<Db>
  {
    if executor == BLANK || consumer == BLANK || !(1 <= seconds <= 3600) then Rejected
    else if token == BLANK || token in db.issued then Rejected
    else
      var db' := db.(rows := Requeue(db.rows, now));
      if chosen.None? then
        if exists b :: b in db'.rows && Wanted(db'.rows, b, executor, codes) then Rejected else Success(db')
      else if !IsFirst(db'.rows, chosen.value, executor, codes) then Rejected
      else Success(GrantClaim(db', chosen.value, token, now + seconds))
  }

  function Place(db: Db, id: Id, token: Id, route: Route, now: int): Result<Db> {
    if id !in db.rows then Rejected
    else
      var row := db.rows[id];
      if Placed(row.state) then (if row.route != route then Rejected else Success(db))
      else if !row.state.Claimed? || row.token != token then Rejected
      else if row.expires.None? || row.expires.value <= now then Rejected
      else if (route.test == BLANK) != (route.wire == BLANK) then Rejected
      else if exists b :: b in db.rows && b != id && route.test != BLANK && db.rows[b].route.test == route.test
      then Rejected
      else Success(Put(db, id, Release(SetState(row, Routed)).(route := route)))
  }

  /** A deferred request keeps its state; its claim ends and can be taken over after the delay. */
  function Defer(db: Db, id: Id, token: Id, delay: int, failure: Id, now: int): Result<Db> {
    if delay < 0 || failure == BLANK || delay > 3600 then Rejected
    else if id !in db.rows || !db.rows[id].state.Claimed? || db.rows[id].token != token then Rejected
    else Success(Put(db, id, db.rows[id].(token := BLANK, expires := Some(now + delay))))
  }

  predicate ResultMatches(row: Row, value: Evidence) {
    value.identity == row.request.identity && value.execution == row.route
  }

  function Complete(db: Db, value: Evidence): Result<Db> {
    var id := value.request;
    if !Terminal(value.status) || id !in db.rows || !ResultMatches(db.rows[id], value) then Rejected
    else if id in db.results then (if db.results[id] != value then Rejected else Success(db))
    else if !(db.rows[id].state.Claimed? || db.rows[id].state.Routed? || db.rows[id].state.Running?) then Rejected
    else if exists b :: b in db.results && db.results[b].id == value.id then Rejected
    else Success(Put(db, id, Release(SetState(db.rows[id], value.status))).(results := db.results[id := value]))
  }

  // ----- Runs -----

  datatype Step =
    | DoCreate(request: Request, executor: Id, originOk: bool, now: int)
    | DoClaim(executor: Id, consumer: Id, codes: Option<set<Id>>, token: Id, now: int, seconds: int,
              chosen: Option<Id>)
    | DoPlace(id: Id, token: Id, route: Route, now: int)
    | DoDefer(id: Id, token: Id, delay: int, failure: Id, now: int)
    | DoComplete(value: Evidence)

  function Apply(db: Db, step: Step): Result<Db> {
    match step
    case DoCreate(request, executor, originOk, now) => Create(db, request, executor, originOk, now)
    case DoClaim(executor, consumer, codes, token, now, seconds, chosen) =>
      Claim(db, executor, consumer, codes, token, now, seconds, chosen)
    case DoPlace(id, token, route, now) => Place(db, id, token, route, now)
    case DoDefer(id, token, delay, failure, now) => Defer(db, id, token, delay, failure, now)
    case DoComplete(value) => Complete(db, value)
  }

  function Next(db: Db, step: Step): Db {
    if Apply(db, step).Success? then Apply(db, step).value else db
  }

  function Exec(db: Db, steps: seq<Step>): Db
    decreases |steps|
  {
    if steps == [] then db else Exec(Next(db, steps[0]), steps[1..])
  }

  // ----- What every run keeps -----

  /** The column agrees with the document, a row that was not placed has no route, and a result is
      there exactly in the terminal states, with the route of the row as its execution. */
  predicate RowOk(db: Db, id: Id)
    requires id in db.rows
  {
    var row := db.rows[id];
    && row.request.id == id && row.state == row.request.state
    && (!Placed(row.state) ==> row.route == NO_ROUTE)
    && (Terminal(row.state) <==> id in db.results)
    && (id in db.results ==>
          db.results[id].status == row.state && db.results[id].execution == row.route
          && db.results[id].identity == row.request.identity)
    && TokenOk(db, id)
  }

  /** A row holds the token of its latest claim or none, and only a claimed row holds one. */
  predicate TokenOk(db: Db, id: Id)
    requires id in db.rows
  {
    var row := db.rows[id];
    && (row.token != BLANK ==> row.state.Claimed? && IsLatestClaim(db, id, row.token))
    && (row.state.Claimed? ==> row.expires.Some?)
  }

  predicate IsLatestClaim(db: Db, id: Id, token: Id)
    requires id in db.rows
  {
    token in db.issued && db.issued[token] == Grant(id, db.rows[id].attempts)
  }

  predicate KeysOk(db: Db) {
    && (forall id :: id in db.rows ==>
          db.rows[id].request.key in db.keys && db.keys[db.rows[id].request.key] == id)
    && (forall k :: k in db.keys ==> db.keys[k] in db.rows && db.rows[db.keys[k]].request.key == k)
  }

  predicate Inv(db: Db) {
    && (forall id {:trigger RowOk(db, id)} :: id in db.rows ==> RowOk(db, id))
    && (forall id :: id in db.results ==> id in db.rows)
    && KeysOk(db) && GrantsOk(db)
  }

  predicate SameGrant(g: Grant, h: Grant) {
    g == h
  }

  predicate GrantsOk(db: Db) {
    && BLANK !in db.issued
    && (forall t :: t in db.issued ==>
          db.issued[t].request in db.rows && 1 <= db.issued[t].number <= db.rows[db.issued[t].request].attempts)
    && (forall t, u {:trigger SameGrant(db.issued[t], db.issued[u])} ::
          t in db.issued && u in db.issued && SameGrant(db.issued[t], db.issued[u]) ==> t == u)
  }

  lemma RequeueKeepsInv(db: Db, now: int)
    requires Inv(db)
    ensures Inv(db.(rows := Requeue(db.rows, now)))
  {
    var db' := db.(rows := Requeue(db.rows, now));
    forall id | id in db'.rows
      ensures RowOk(db', id)
    {
      assert RowOk(db, id);
    }
  }

  lemma GrantKeepsInv(db: Db, id: Id, token: Id, expires: int)
    requires Inv(db) && id in db.rows && db.rows[id].state.Queued?
    requires token != BLANK && token !in db.issued
    ensures Inv(GrantClaim(db, id, token, expires))
  {
    var db' := GrantClaim(db, id, token, expires);
    forall b | b in db'.rows
      ensures RowOk(db', b)
    {
      assert RowOk(db, b);
    }
  }

  lemma StepKeepsInv(db: Db, step: Step)
    requires Inv(db)
    ensures Inv(Next(db, step))
  {
    if step.DoClaim? {
      var db1 := db.(rows := Requeue(db.rows, step.now));
      RequeueKeepsInv(db, step.now);
      if Apply(db, step).Success? && step.chosen.Some? {
        GrantKeepsInv(db1, step.chosen.value, step.token, step.now + step.seconds);
      }
    } else if step.DoCreate? {
      CreateKeepsInv(db, step.request, step.executor, step.originOk, step.now);
    } else {
      OtherKeepsInv(db, step);
    }
  }

  lemma CreateKeepsInv(db: Db, request: Request, executor: Id, originOk: bool, now: int)
    requires Inv(db)
    ensures Inv(Next(db, DoCreate(request, executor, originOk, now)))
  {
    var db' := Next(db, DoCreate(request, executor, originOk, now));
    forall id | id in db'.rows
      ensures RowOk(db', id)
    {
      if id in db.rows {
        assert RowOk(db, id);
      }
    }
  }

  lemma OtherKeepsInv(db: Db, step: Step)
    requires Inv(db) && (step.DoPlace? || step.DoDefer? || step.DoComplete?)
    ensures Inv(Next(db, step))
  {
    var db' := Next(db, step);
    forall id | id in db'.rows
      ensures RowOk(db', id)
    {
      if id in db.rows {
        assert RowOk(db, id);
      }
    }
  }

  lemma {:induction false} RunKeepsInv(db: Db, steps: seq<Step>)
    requires Inv(db)
    ensures Inv(Exec(db, steps))
    decreases |steps|
  {
    if steps != [] {
      StepKeepsInv(db, steps[0]);
      RunKeepsInv(Next(db, steps[0]), steps[1..]);
    }
  }

  /** In every reachable state the column agrees with the document and a result is there exactly in
      the terminal states, for the route of its row. */
  lemma ColumnsAgree(steps: seq<Step>, id: Id)
    requires id in Exec(EMPTY, steps).rows
    ensures var db := Exec(EMPTY, steps); var row := db.rows[id];
            && row.state == row.request.state
            && (!Placed(row.state) ==> row.route == NO_ROUTE)
            && (Terminal(row.state) <==> id in db.results)
            && (id in db.results ==> db.results[id].status == row.state && db.results[id].execution == row.route)
  {
    RunKeepsInv(EMPTY, steps);
    assert RowOk(Exec(EMPTY, steps), id);
  }

  lemma StepKeepsPlace(db: Db, step: Step, id: Id)
    requires Inv(db) && id in db.rows
    ensures id in Next(db, step).rows
    ensures Placed(db.rows[id].state) ==>
              Placed(Next(db, step).rows[id].state) && Next(db, step).rows[id].route == db.rows[id].route
    ensures id in db.results ==>
              && Next(db, step).rows[id] == db.rows[id]
              && id in Next(db, step).results && Next(db, step).results[id] == db.results[id]
    ensures Next(db, step).rows[id].request.(state := Queued) == db.rows[id].request.(state := Queued)
  {
    assert RowOk(db, id);
  }

  /** A route is written at most once, and once the result is there nothing about the request ever
      changes. */
  lemma {:induction false} RouteWrittenOnce(db: Db, steps: seq<Step>, id: Id)
    requires Inv(db) && id in db.rows
    ensures id in Exec(db, steps).rows
    ensures Placed(db.rows[id].state) ==> Exec(db, steps).rows[id].route == db.rows[id].route
    ensures id in db.results ==>
              && Exec(db, steps).rows[id] == db.rows[id]
              && id in Exec(db, steps).results && Exec(db, steps).results[id] == db.results[id]
    ensures Exec(db, steps).rows[id].request.(state := Queued) == db.rows[id].request.(state := Queued)
    decreases |steps|
  {
    if steps != [] {
      StepKeepsPlace(db, steps[0], id);
      StepKeepsInv(db, steps[0]);
      RouteWrittenOnce(Next(db, steps[0]), steps[1..], id);
    }
  }

  // ----- Fencing -----

  /** Routing and deferring are the uses of a claim; a placed request only repeats its route. */
  predicate UsesClaim(step: Step, id: Id, token: Id) {
    match step
    case DoPlace(b, t, _, _) => b == id && t == token
    case DoDefer(b, t, _, _, _) => b == id && t == token
    case _ => false
  }

  /** What a use needs besides the token. */
  predicate UseAllowed(db: Db, use: Step, id: Id)
    requires id in db.rows
  {
    match use
    case DoPlace(_, _, route, now) =>
      && db.rows[id].expires.Some? && now < db.rows[id].expires.value
      && (route.test == BLANK <==> route.wire == BLANK)
      && (forall b :: b in db.rows && b != id && route.test != BLANK ==> db.rows[b].route.test != route.test)
    case DoDefer(_, _, delay, failure, _) => 0 <= delay <= 3600 && failure != BLANK
    case _ => true
  }

  /** A claim that was deferred: the row stays claimed, with its token blank. */
  predicate Deferred(db: Db, id: Id)
    requires id in db.rows
  {
    db.rows[id].state.Claimed? && db.rows[id].token == BLANK
  }

  /** While a request is claimed, its latest claimant can route or defer it exactly until it
      deferred it, and anybody else exactly with a blank token after that. */
  lemma OutsiderUsesExactly(steps: seq<Step>, use: Step, id: Id, token: Id)
    requires id in Exec(EMPTY, steps).rows && Exec(EMPTY, steps).rows[id].state.Claimed?
    requires UsesClaim(use, id, token)
    ensures var db := Exec(EMPTY, steps);
            && (!IsLatestClaim(db, id, token) ==>
                  (Apply(db, use).Success? <==> token == BLANK && Deferred(db, id) && UseAllowed(db, use, id)))
            && (IsLatestClaim(db, id, token) ==>
                  (Apply(db, use).Success? <==> !Deferred(db, id) && UseAllowed(db, use, id)))
  {
    RunKeepsInv(EMPTY, steps);
    var db := Exec(EMPTY, steps);
    assert RowOk(db, id);
    if IsLatestClaim(db, id, token) && db.rows[id].token != BLANK {
      assert SameGrant(db.issued[token], db.issued[db.rows[id].token]);
    }
  }

  /** The token was made for the request and no longer holds it. */
  predicate Spent(db: Db, id: Id, token: Id) {
    && token in db.issued && db.issued[token].request == id
    && (id in db.rows ==> db.rows[id].token != token)
  }

  lemma SpentStays(db: Db, step: Step, id: Id, token: Id)
    requires Inv(db) && Spent(db, id, token)
    ensures Spent(Next(db, step), id, token)
  {
  }

  /** A token that lost its request, to a newer claim, a deferral, a route or a result, never
      routes or defers it while it is claimed. */
  lemma {:induction false} SpentForever(db: Db, steps: seq<Step>, id: Id, token: Id, use: Step)
    requires Inv(db) && Spent(db, id, token) && UsesClaim(use, id, token)
    ensures var db' := Exec(db, steps);
            id in db'.rows && db'.rows[id].state.Claimed? ==> Apply(db', use).Rejected?
    decreases |steps|
  {
    if steps != [] {
      SpentStays(db, steps[0], id, token);
      StepKeepsInv(db, steps[0]);
      SpentForever(Next(db, steps[0]), steps[1..], id, token, use);
    }
  }

  const REQUEST := Request(1, 1, 1, 1, 1, Queued)
  const ROUTE := Route(7, 8, 0, 0)

  /** Such a use: a request is claimed and deferred, and then routed with a blank token. */
  lemma BlankTokenRoutes()
    ensures var steps := [DoCreate(REQUEST, 1, true, 0), DoClaim(1, 1, None, 5, 0, 60, Some(1)),
                          DoDefer(1, 5, 30, 1, 10)];
            var db := Exec(EMPTY, steps);
            && 1 in db.rows && Deferred(db, 1) && !IsLatestClaim(db, 1, BLANK)
            && Place(db, 1, BLANK, ROUTE, 20).Success?
  {
    var queued := Row(Queued, REQUEST, 1, NO_ROUTE, BLANK, None, 0, 0);
    var db1 := Db(map[1 := queued], map[1 := 1], map[], map[]);
    var create := DoCreate(REQUEST, 1, true, 0);
    assert Next(EMPTY, create) == db1;
    var claim := DoClaim(1, 1, None, 5, 0, 60, Some(1));
    assert Requeue(db1.rows, 0) == db1.rows;
    assert IsFirst(db1.rows, 1, 1, None);
    var claimed := Row(Claimed, REQUEST.(state := Claimed), 1, NO_ROUTE, 5, Some(60), 1, 0);
    var db2 := Db(map[1 := claimed], map[1 := 1], map[], map[5 := Grant(1, 1)]);
    assert Next(db1, claim) == db2;
    var defer := DoDefer(1, 5, 30, 1, 10);
    var db3 := db2.(rows := map[1 := claimed.(token := BLANK, expires := Some(40))]);
    assert Next(db2, defer) == db3;
    assert Exec(db2, [defer]) == Exec(db3, []);
    assert [claim, defer][1..] == [defer];
    assert Exec(db1, [claim, defer]) == Exec(db2, [defer]);
    assert [create, claim, defer][1..] == [claim, defer];
  }

  // ----- What each operation leaves -----

  /** The claim of a request ends by itself when its time is over. */
  predicate RanOut(row: Row, now: int) {
    row.state == Claimed && row.expires.Some? && row.expires.value <= now
  }

  /** A claim call returns run-out claims to the queue and takes at most one request, the oldest that
      its executor may take, under the new token.  A live claim, a placed or finished request, and
      every other waiting one stay exactly as they were. */
  lemma ClaimOutcome(db: Db, executor: Id, consumer: Id, codes: Option<set<Id>>, token: Id, now: int, seconds: int,
                     chosen: Option<Id>, db': Db, id: Id)
    requires id in db.rows
    requires Apply(db, DoClaim(executor, consumer, codes, token, now, seconds, chosen)) == Success(db')
    ensures id in db'.rows && db'.rows.Keys == db.rows.Keys && db'.results == db.results && db'.keys == db.keys
    ensures var row, row' := db.rows[id], db'.rows[id];
            && (chosen == Some(id) ==>
                  && Takeable(row, executor, codes, now)
                  && (forall b :: b in db.rows && Takeable(db.rows[b], executor, codes, now) ==>
                        row.created < db.rows[b].created || (row.created == db.rows[b].created && id <= b))
                  && row' == Row(Claimed, row.request.(state := Claimed), executor, row.route, token,
                                 Some(now + seconds), row.attempts + 1, row.created)
                  && token in db'.issued && db'.issued[token].request == id)
            && (chosen != Some(id) && RanOut(row, now) ==>
                  row' == Row(Queued, row.request.(state := Queued), row.executor, row.route, BLANK, None,
                              row.attempts, row.created))
            && (chosen != Some(id) && !RanOut(row, now) ==> row' == row)
            && (chosen.None? ==> !Takeable(row, executor, codes, now))
  {
    var rows := Requeue(db.rows, now);
    forall b | b in db.rows
      ensures Takeable(db.rows[b], executor, codes, now) <==> Wanted(rows, b, executor, codes)
    {
    }
    if chosen == Some(id) {
      forall b | b in db.rows && Takeable(db.rows[b], executor, codes, now) && b != id
        ensures Before(rows, id, b)
      {
      }
    }
  }

  /** A request that waits, or whose claim ran out, for this executor and one of the codes. */
  predicate Takeable(row: Row, executor: Id, codes: Option<set<Id>>, now: int) {
    && (row.state == Queued || RanOut(row, now)) && row.executor == executor
    && (codes == None || row.request.code in codes.value)
  }

  /** So a live claim survives every other claim call. */
  lemma LiveClaimSurvives(db: Db, executor: Id, consumer: Id, codes: Option<set<Id>>, token: Id, now: int,
                          seconds: int, chosen: Option<Id>, id: Id)
    requires id in db.rows && db.rows[id].state.Claimed? && db.rows[id].expires.Some?
    requires now < db.rows[id].expires.value
    ensures var db' := Next(db, DoClaim(executor, consumer, codes, token, now, seconds, chosen));
            id in db'.rows && db'.rows[id] == db.rows[id]
  {
    var step := DoClaim(executor, consumer, codes, token, now, seconds, chosen);
    if Apply(db, step).Success? {
      ClaimOutcome(db, executor, consumer, codes, token, now, seconds, chosen, Apply(db, step).value, id);
    }
  }

  /** A claim is refused only for missing names, a wrong duration or a token that is not new. */
  lemma ClaimGranted(db: Db, executor: Id, consumer: Id, codes: Option<set<Id>>, token: Id, now: int, seconds: int,
                     chosen: Option<Id>)
    requires Apply(db, DoClaim(executor, consumer, codes, token, now, seconds, chosen)).Success?
    ensures executor != BLANK && consumer != BLANK && 0 < seconds <= 3600 && token != BLANK && token !in db.issued
  {
  }

  /** Routing and deferring while the request is claimed, and routing again after it was placed. */
  lemma UseOutcome(db: Db, use: Step, id: Id, token: Id, db': Db)
    requires UsesClaim(use, id, token) && Apply(db, use) == Success(db')
    ensures id in db.rows && id in db'.rows && db' == Put(db, id, db'.rows[id])
    ensures var row, row' := db.rows[id], db'.rows[id];
            && (use.DoPlace? && row.state.Claimed? ==>
                  row' == Row(Routed, row.request.(state := Routed), row.executor, use.route, BLANK, None,
                              row.attempts, row.created))
            && (use.DoPlace? && !row.state.Claimed? ==> row' == row && row.route == use.route)
            && (use.DoDefer? ==> row' == row.(token := BLANK, expires := Some(use.now + use.delay)))
  {
    if db' == db {
      assert db.rows[id := db.rows[id]] == db.rows;
    }
  }

  /** Once a request was placed, the same route is accepted again from anybody, and no other one; a
      queued request is never routed. */
  lemma RouteRepeatedExactly(db: Db, id: Id, token: Id, route: Route, now: int)
    requires id in db.rows && !db.rows[id].state.Claimed?
    ensures Apply(db, DoPlace(id, token, route, now)) ==
            if !db.rows[id].state.Queued? && db.rows[id].route == route then Success(db) else Rejected
  {
  }

  /** In every reachable state a result is accepted exactly if it repeats the identity and the route of
      its request and is the first one of a request that is being worked on, under a new id, or the one
      that is already there. */
  lemma CompletedExactly(steps: seq<Step>, value: Evidence)
    ensures var db, id := Exec(EMPTY, steps), value.request; var result := Apply(db, DoComplete(value));
            && (result.Success? <==>
                  && Terminal(value.status) && id in db.rows
                  && value.identity == db.rows[id].request.identity && value.execution == db.rows[id].route
                  && (id in db.results ==> db.results[id] == value)
                  && (id !in db.results ==>
                        !db.rows[id].state.Queued? && forall b :: b in db.results ==> db.results[b].id != value.id))
            && (result.Success? && id in db.results ==> result.value == db)
            && (result.Success? && id !in db.results ==>
                  && result.value.results == db.results[id := value]
                  && result.value == Put(db, id, Row(value.status, db.rows[id].request.(state := value.status),
                                                     db.rows[id].executor, db.rows[id].route, BLANK, None,
                                                     db.rows[id].attempts, db.rows[id].created))
                                     .(results := result.value.results))
  {
    RunKeepsInv(EMPTY, steps);
    var db := Exec(EMPTY, steps);
    if value.request in db.rows {
      assert RowOk(db, value.request);
    }
  }

  // ----- Creation -----

  /** A new request is written, queued and unplaced, exactly under an unused key and id, for an origin
      that exists. */
  lemma CreatedExactly(db: Db, request: Request, executor: Id, originOk: bool, now: int)
    requires request.key !in db.keys
    ensures var result := Apply(db, DoCreate(request, executor, originOk, now));
            && (result.Success? <==> request.state.Queued? && originOk && request.id !in db.rows)
            && (result.Success? ==>
                  && result.value.keys == db.keys[request.key := request.id]
                  && result.value.results == db.results && result.value.issued == db.issued
                  && result.value.rows ==
                     db.rows[request.id := Row(Queued, request, executor, NO_ROUTE, BLANK, None, 0, now)])
  {
  }

  /** Repeating a creation is accepted exactly while the request is queued: its stored document
      takes on the later states, and the repetition is compared with all of it. */
  lemma CreateRepeatedExactly(db: Db, request: Request, executor: Id, created: int, steps: seq<Step>,
                              otherExecutor: Id, now: int)
    requires Inv(db) && request.key !in db.keys && Create(db, request, executor, true, created).Success?
    ensures var db' := Exec(Create(db, request, executor, true, created).value, steps);
            && request.id in db'.rows
            && (Create(db', request, otherExecutor, true, now).Success? <==> db'.rows[request.id].state.Queued?)
            && (Create(db', request, otherExecutor, true, now).Success? ==>
                  Create(db', request, otherExecutor, true, now).value == db')
  {
    var first := Create(db, request, executor, true, created).value;
    StepKeepsInv(db, DoCreate(request, executor, true, created));
    RunKeepsInv(first, steps);
    RouteWrittenOnce(first, steps, request.id);
    var db' := Exec(first, steps);
    assert RowOk(db', request.id);
  }

  /** Such a refusal: the same creation, once more, after the request was claimed. */
  lemma CreateAfterClaimRefused()
    ensures var steps := [DoCreate(REQUEST, 1, true, 0), DoClaim(1, 1, None, 5, 0, 60, Some(1))];
            Create(EMPTY, REQUEST, 1, true, 0).Success? && Create(Exec(EMPTY, steps), REQUEST, 1, true, 0).Rejected?
  {
    var create := DoCreate(REQUEST, 1, true, 0);
    var claim := DoClaim(1, 1, None, 5, 0, 60, Some(1));
    var db1 := Next(EMPTY, create);
    assert db1.rows == map[1 := Row(Queued, REQUEST, 1, NO_ROUTE, BLANK, None, 0, 0)];
    assert Requeue(db1.rows, 0) == db1.rows;
    assert IsFirst(db1.rows, 1, 1, None);
    assert Next(db1, claim).rows[1].state.Claimed?;
    assert [create, claim][1..] == [claim];
    assert Exec(db1, [claim]) == Exec(Next(db1, claim), []);
    CreateRepeatedExactly(EMPTY, REQUEST, 1, 0, [claim], 1, 0);
  }
}

/** The two evidence tables as they are rewritten in place. */
module EvidenceRepositories {
  import opened Wrappers
  import opened Collections
  import opened EvidenceOperations

  class EvidenceRepository {
    var rows: map<Id, Row>
    var keys: map<Id, Id>
    var results: map<Id, Evidence>
    var issued: map<Id, Grant>

    function Contents(): Db
      reads this
    {
      Db(rows, keys, results, issued)
    }

    twostate predicate Did(result: Result<Db>, ok: bool)
      reads this
    {
      (ok <==> result.Success?) && Contents() == (if result.Success? then result.value else old(Contents()))
    }

    constructor ()
      ensures Contents() == EMPTY
    {
      rows, keys, results, issued := map[], map[], map[], map[];
    }

    method CreateRequest(request: Request, executor: Id, originOk: bool, now: int) returns (ok: bool)
      modifies this
      ensures Did(Create(old(Contents()), request, executor, originOk, now), ok)
    {
      if !request.state.Queued? || !originOk {
        return false;
      }
      if request.key in keys {
        var existing := keys[request.key];
        return existing in rows && rows[existing].request == request;
      }
      if request.id in rows {
        return false;
      }
      rows := rows[request.id := Row(Queued, request, executor, NO_ROUTE, BLANK, None, 0, now)];
      keys := keys[request.key := request.id];
      return true;
    }

    method RequeueExpired(now: int)
      modifies this`rows
      ensures rows == Requeue(old(rows), now)
    {
      var before := rows;
      var expired := set id | id in rows && Expired(rows[id], now);
      while expired != {}
        invariant rows.Keys == before.Keys
        invariant forall id :: id in expired ==> id in rows && rows[id] == before[id] && Expired(before[id], now)
        invariant forall id :: id in rows && id !in expired ==>
          rows[id] == if Expired(before[id], now) then Release(SetState(before[id], Queued)) else before[id]
        decreases |expired|
      {
        var id := Any(expired);
        var row := rows[id];
        row := row.(request := row.request.(state := Queued));
        row := row.(state := Queued, token := BLANK, expires := None);
        rows := rows[id := row];
        expired := expired - {id};
      }
      assert forall id :: id in before ==> rows[id] == Requeue(before, now)[id];
    }

    method FirstQueued(executor: Id, codes: Option<set<Id>>) returns (first: Option<Id>)
      ensures first.Some? ==> IsFirst(rows, first.value, executor, codes)
      ensures first.None? ==> forall b :: b in rows ==> !Wanted(rows, b, executor, codes)
    {
      var rest := rows.Keys;
      first := None;
      while rest != {}
        invariant rest <= rows.Keys
        invariant first.Some? ==>
          && first.value !in rest && Wanted(rows, first.value, executor, codes)
          && (forall b :: b in rows && b !in rest && b != first.value && Wanted(rows, b, executor, codes) ==>
                Before(rows, first.value, b))
        invariant first.None? ==> forall b :: b in rows && b !in rest ==> !Wanted(rows, b, executor, codes)
        decreases |rest|
      {
        var b := Any(rest);
        rest := rest - {b};
        if Wanted(rows, b, executor, codes) && (first.None? || Before(rows, b, first.value)) {
          first := Some(b);
        }
      }
    }

    method ClaimOperation(executor: Id, consumer: Id, codes: Option<set<Id>>, token: Id, now: int, seconds: int)
      returns (ok: bool, chosen: Option<Id>)
      modifies this
      ensures Did(Claim(old(Contents()), executor, consumer, codes, token, now, seconds, chosen), ok)
      ensures ok <==> executor != BLANK && consumer != BLANK && 1 <= seconds <= 3600
                      && token != BLANK && token !in old(issued)
    {
      if executor == BLANK || consumer == BLANK || !(1 <= seconds <= 3600) || token == BLANK || token in issued {
        return false, None;
      }
      RequeueExpired(now);
      if codes == Some({}) {
        return true, None;
      }
      chosen := FirstQueued(executor, codes);
      if chosen.Some? {
        var row := rows[chosen.value];
        row := row.(request := row.request.(state := Claimed));
        row := row.(state := Claimed, token := token, expires := Some(now + seconds), attempts := row.attempts + 1);
        rows := rows[chosen.value := row];
        issued := issued[token := Grant(chosen.value, row.attempts)];
      }
      return true, chosen;
    }

    method RouteOperation(id: Id, token: Id, route: Route, now: int) returns (ok: bool)
      modifies this
      ensures Did(Place(old(Contents()), id, token, route, now), ok)
    {
      if id !in rows {
        return false;
      }
      var row := rows[id];
      if Placed(row.state) {
        return row.route == route;
      }
      if !row.state.Claimed? || row.token != token || row.expires.None? || row.expires.value <= now
         || (route.test == BLANK) != (route.wire == BLANK)
      {
        return false;
      }
      if route.test != BLANK && exists b :: b in rows && b != id && rows[b].route.test == route.test {
        return false;
      }
      row := row.(request := row.request.(state := Routed));
      row := row.(state := Routed, route := route, token := BLANK, expires := None);
      rows := rows[id := row];
      return true;
    }

    method DeferOperation(id: Id, token: Id, delay: int, failure: Id, now: int) returns (ok: bool)
      modifies this
      ensures Did(Defer(old(Contents()), id, token, delay, failure, now), ok)
    {
      if delay < 0 || failure == BLANK || delay > 3600 {
        return false;
      }
      if id !in rows || !rows[id].state.Claimed? || rows[id].token != token {
        return false;
      }
      rows := rows[id := rows[id].(token := BLANK, expires := Some(now + delay))];
      return true;
    }

    method CompleteOperation(value: Evidence) returns (ok: bool)
      modifies this
      ensures Did(Complete(old(Contents()), value), ok)
    {
      var id := value.request;
      if !Terminal(value.status) || id !in rows {
        return false;
      }
      var row := rows[id];
      if value.identity != row.request.identity || value.execution != row.route {
        return false;
      }
      if id in results {
        return results[id] == value;
      }
      if !row.state.Claimed? && !row.state.Routed? && !row.state.Running? {
        return false;
      }
      if exists b :: b in results && results[b].id == value.id {
        return false;
      }
      results := results[id := value];
      row := row.(request := row.request.(state := value.status));
      row := row.(state := value.status, token := BLANK, expires := None);
      rows := rows[id := row];
      return true;
    }
  }
}

/** The outbox table as it is rewritten in place, shared with other processes, and the delivery of
    claimed rows through handlers that may do anything. */
module OutboxRepositories {
  import opened Wrappers
  import opened Collections
  import opened Outbox

  method AnySteps() returns (steps: seq<Step>)
  {
    steps := *;
  }

  method AnyInt() returns (n: int)
  {
    n := *;
  }

  method MayDie() returns (dies: bool)
  {
    dies := *;
  }

  /** The events after the first ones, and the database that they lead to. */
  ghost predicate Leads(db: Db, before: seq<Event>, db': Db, after: seq<Event>) {
    before <= after && db' == Exec(db, Steps(after[|before|..]))
  }

  lemma LeadsNowhere(db: Db, events: seq<Event>)
    ensures Leads(db, events, db, events)
  {
    assert events[|events|..] == [];
  }

  lemma LeadsStep(db: Db, before: seq<Event>, event: Event)
    ensures Leads(db, before, Next(db, event.step), before + [event])
  {
    assert (before + [event])[|before|..] == [event];
    assert Steps([event]) == [event.step];
    assert Exec(db, [event.step]) == Exec(Next(db, event.step), []);
  }

  lemma LeadsSteps(db: Db, before: seq<Event>, events: seq<Event>)
    ensures Leads(db, before, Exec(db, Steps(events)), before + events)
  {
    assert (before + events)[|before|..] == events;
  }

  lemma LeadsOn(db: Db, before: seq<Event>, db1: Db, middle: seq<Event>, db2: Db, after: seq<Event>)
    requires Leads(db, before, db1, middle) && Leads(db1, middle, db2, after)
    ensures Leads(db, before, db2, after)
  {
    var first, second := middle[|before|..], after[|middle|..];
    assert after[|before|..] == first + second;
    StepsConcat(first, second);
    ExecConcat(db, Steps(first), Steps(second));
  }

  lemma LeadsKeepsRows(db: Db, before: seq<Event>, db': Db, after: seq<Event>)
    requires Leads(db, before, db', after)
    ensures forall id :: id in db.rows ==>
              && id in db'.rows && SameIntent(db'.rows[id], db.rows[id])
              && (DeliveredAt(db, id) ==> DeliveredAt(db', id))
  {
    forall id | id in db.rows
      ensures id in db'.rows && SameIntent(db'.rows[id], db.rows[id])
      ensures DeliveredAt(db, id) ==> DeliveredAt(db', id)
    {
      DeliveredIsFinal(db, Steps(after[|before|..]), id);
    }
  }

  lemma {:induction false} EventsOf(steps: seq<Step>, events: seq<Event>)
    requires |events| == |steps| && forall k :: 0 <= k < |steps| ==> events[k] == Event(false, steps[k])
    ensures Steps(events) == steps
  {
    if steps != [] {
      EventsOf(steps[1..], events[1..]);
    }
  }

  class OutboxRepository {
    var rows: map<OutboxId, Row>
    var issued: map<Id, Grant>

    /** Everything that happened to the table, with what this process did marked as own. */
    ghost var history: seq<Event>

    function Contents(): Db
      reads this
    {
      Db(rows, issued)
    }

    /** One operation of this process: it is recorded, and it commits or changes nothing. */
    twostate predicate Did(step: Step)
      reads this
    {
      history == old(history) + [Event(true, step)] && Contents() == Next(old(Contents()), step)
    }

    /** The table went on from where it was, as the history says. */
    twostate predicate WentOn()
      reads this
    {
      Leads(old(Contents()), old(history), Contents(), history)
    }

    constructor ()
      ensures Contents() == EMPTY && history == []
    {
      rows, issued, history := map[], map[], [];
    }

    /** Other processes and threads run in between. */
    method OthersRun()
      modifies this
      ensures WentOn() && OwnSteps(history[|old(history)|..]) == []
      ensures forall k :: |old(history)| <= k < |history| ==> !history[k].own
    {
      var steps := AnySteps();
      ghost var events := seq(|steps|, k requires 0 <= k < |steps| => Event(false, steps[k]));
      EventsOf(steps, events);
      LeadsSteps(Contents(), history, events);
      var db := Exec(Contents(), steps);
      rows, issued := db.rows, db.issued;
      NothingOwn(events);
      assert (history + events)[|history|..] == events;
      history := history + events;
    }

    method EnqueueIntent(id: OutboxId, names: Names, payload: Id, created: int) returns (ok: bool)
      modifies this
      ensures Did(DoEnqueue(id, names, payload, created))
      ensures ok <==> Enqueue(old(Contents()), id, names, payload, created).Success?
    {
      history := history + [Event(true, DoEnqueue(id, names, payload, created))];
      if names.origin == 0 || names.attempt == 0 || names.topic == 0 || !IsDigest(Contents(), id, names) {
        return false;
      }
      if id in rows {
        return rows[id].payload == payload;
      }
      rows := rows[id := Row(names, payload, Pending, created, None, 0, 0, 0, None, None, created)];
      return true;
    }

    /** The first due row, found by one pass over the table. */
    method FirstDue(topic: Id, origin: Option<Id>, now: int) returns (first: Option<OutboxId>)
      ensures first.Some? ==> IsNext(Contents(), first.value, topic, origin, now)
      ensures first.None? ==> forall b :: b in rows ==> !Wanted(Contents(), b, topic, origin, now)
    {
      var rest := rows.Keys;
      first := None;
      while rest != {}
        invariant rest <= rows.Keys
        invariant first.Some? ==>
          && first.value !in rest && Wanted(Contents(), first.value, topic, origin, now)
          && (forall b :: b in rows && b !in rest && b != first.value && Wanted(Contents(), b, topic, origin, now) ==>
                Earlier(Contents(), first.value, b))
        invariant first.None? ==>
          forall b :: b in rows && b !in rest ==> !Wanted(Contents(), b, topic, origin, now)
        decreases |rest|
      {
        var b := Any(rest);
        rest := rest - {b};
        if Wanted(Contents(), b, topic, origin, now) && (first.None? || Earlier(Contents(), b, first.value)) {
          first := Some(b);
        }
      }
    }

    method ClaimOutbox(topic: Id, owner: Id, seconds: int, origin: Option<Id>, now: int, token: Id)
      returns (claimed: Result<Option<OutboxId>>)
      modifies this
      ensures Did(DoClaim(topic, owner, seconds, origin, now, token,
                          if claimed.Success? then claimed.value else None))
      ensures claimed.Success? <==>
                Claim(old(Contents()), topic, owner, seconds, origin, now, token,
                      if claimed.Success? then claimed.value else None).Success?
      ensures claimed.Rejected? <==> owner == 0 || seconds <= 0 || token in old(issued)
    {
      if owner == 0 || seconds <= 0 || token in issued {
        history := history + [Event(true, DoClaim(topic, owner, seconds, origin, now, token, None))];
        return Rejected;
      }
      var first := FirstDue(topic, origin, now);
      history := history + [Event(true, DoClaim(topic, owner, seconds, origin, now, token, first))];
      if first.Some? {
        var row := rows[first.value];
        rows := rows[first.value := row.(state := Claimed, token := Some(token), owner := owner,
                                         expires := now + seconds, attempts := row.attempts + 1)];
        issued := issued[token := Grant(first.value, row.attempts + 1)];
      }
      return Success(first);
    }

    /** The table between the operations' reading of the time and their write is not locked, so now
        may be stale. */
    method RenewOutbox(id: OutboxId, token: Id, seconds: int, now: int) returns (ok: bool)
      modifies this
      ensures Did(DoRenew(id, token, seconds, now))
      ensures ok <==> Renew(old(Contents()), id, token, seconds, now).Success?
    {
      history := history + [Event(true, DoRenew(id, token, seconds, now))];
      if seconds <= 0 || !Holds(Contents(), id, token, now) {
        return false;
      }
      rows := rows[id := rows[id].(expires := now + seconds)];
      return true;
    }

    method FinishOutbox(id: OutboxId, token: Id, result: Id, now: int) returns (ok: bool)
      modifies this
      ensures Did(DoFinish(id, token, result, now))
      ensures ok <==> Finish(old(Contents()), id, token, result, now).Success?
    {
      history := history + [Event(true, DoFinish(id, token, result, now))];
      if !Holds(Contents(), id, token, now) {
        return false;
      }
      rows := rows[id := rows[id].(state := Delivered, result := Some(result), token := None,
                                   expires := 0, error := None)];
      return true;
    }

    method DeferOutbox(id: OutboxId, token: Id, error: Id, delay: int, now: int) returns (ok: bool)
      modifies this
      ensures Did(DoDefer(id, token, error, delay, now))
      ensures ok <==> Defer(old(Contents()), id, token, error, delay, now).Success?
    {
      history := history + [Event(true, DoDefer(id, token, error, delay, now))];
      if delay < 0 || !Holds(Contents(), id, token, now) {
        return false;
      }
      rows := rows[id := rows[id].(state := Pending, available := now + delay, token := None,
                                   expires := 0, error := Some(error))];
      return true;
    }
  }
}

/** Delivery of claimed rows through a handler. */
module Delivery {
  import opened Wrappers
  import opened Collections
  import opened Outbox
  import opened OutboxRepositories

  const TEST_ACK: Id := 1
  const TEST_REQUEST: Id := 2
  const DEFER_SECONDS := 5
  const CLAIM_SECONDS := 60

  datatype Disposition = Paused | PendingRemote | Settled

  datatype Handled = Raises | Returns(disposition: Disposition, result: Id)

  datatype Report = Report(delivered: bool, failed: bool)

  method AnyHandled() returns (handled: Handled)
  {
    handled := *;
  }

  /** All writes of this process since the first events are made under the claim. */
  predicate OnlyUnderClaim(before: seq<Event>, after: seq<Event>, id: OutboxId, token: Id) {
    before <= after && OnlyThisClaim(after[|before|..], id, token)
  }

  lemma UnderClaimOn(before: seq<Event>, middle: seq<Event>, after: seq<Event>, id: OutboxId, token: Id)
    requires OnlyUnderClaim(before, middle, id, token) && OnlyUnderClaim(middle, after, id, token)
    ensures OnlyUnderClaim(before, after, id, token)
  {
    var first, second := middle[|before|..], after[|middle|..];
    assert after[|before|..] == first + second;
  }

  /** The history ends with one step of this process, the only one since the first events; ok tells
      whether it was granted by the table as it was then. */
  ghost predicate DidLast(db: Db, before: seq<Event>, after: seq<Event>, step: Step, ok: bool) {
    && before < after && after[|after| - 1] == Event(true, step)
    && OwnSteps(after[|before|..]) == [step]
    && (ok <==> Apply(Exec(db, Steps(after[|before|..|after| - 1])), step).Success?)
  }

  lemma OthersThenStep(db: Db, before: seq<Event>, db1: Db, middle: seq<Event>, step: Step)
    requires Leads(db, before, db1, middle) && OwnSteps(middle[|before|..]) == []
    ensures DidLast(db, before, middle + [Event(true, step)], step, Apply(db1, step).Success?)
    ensures Leads(db, before, Next(db1, step), middle + [Event(true, step)])
  {
    var event := Event(true, step);
    var after := middle + [event];
    assert after[|before|..] == middle[|before|..] + [event];
    OwnStepsConcat(middle[|before|..], [event]);
    assert OwnSteps([event]) == [step];
    assert after[|before|..|after| - 1] == middle[|before|..];
    LeadsStep(db1, middle, event);
    LeadsOn(db, before, db1, middle, Next(db1, step), after);
  }

  method RunHandler(database: OutboxRepository, id: OutboxId, token: Id) returns (handled: Handled)
    modifies database
    ensures database.WentOn() && OnlyUnderClaim(old(database.history), database.history, id, token)
    ensures OwnSteps(database.history[|old(database.history)|..]) == []
  {
    database.OthersRun();
    handled := AnyHandled();
  }

  /** One deferral, after others ran; it may fail because the claim was lost. */
  method TryDefer(database: OutboxRepository, id: OutboxId, token: Id) returns (ok: bool, ghost step: Step)
    modifies database
    ensures database.WentOn() && OnlyUnderClaim(old(database.history), database.history, id, token)
    ensures IsDeferral(step, id, token)
    ensures DidLast(old(database.Contents()), old(database.history), database.history, step, ok)
  {
    database.OthersRun();
    ghost var db1, events := database.Contents(), database.history;
    var error := AnyInt();
    var now := AnyInt();
    ok := database.DeferOutbox(id, token, error, DEFER_SECONDS, now);
    step := DoDefer(id, token, error, DEFER_SECONDS, now);
    OthersThenStep(old(database.Contents()), old(database.history), db1, events, step);
  }

  predicate IsDeferral(step: Step, id: OutboxId, token: Id) {
    step.DoDefer? && step.id == id && step.token == token && step.delay == DEFER_SECONDS
  }

  method TryFinish(database: OutboxRepository, id: OutboxId, token: Id, result: Id)
    returns (ok: bool, ghost step: Step)
    modifies database
    ensures database.WentOn() && OnlyUnderClaim(old(database.history), database.history, id, token)
    ensures ok ==> DeliveredAt(database.Contents(), id)
    ensures step.DoFinish? && step.id == id && step.token == token && step.result == result
    ensures DidLast(old(database.Contents()), old(database.history), database.history, step, ok)
  {
    database.OthersRun();
    ghost var db1, events := database.Contents(), database.history;
    var now := AnyInt();
    ok := database.FinishOutbox(id, token, result, now);
    step := DoFinish(id, token, result, now);
    OthersThenStep(old(database.Contents()), old(database.history), db1, events, step);
  }

  /** What a delivery owes to the answer of its handler.  A settled row, or one that is pending
      elsewhere on another topic, is finished with the result; a paused one, or one pending on the two
      test topics, is deferred; and so is the row of a handler that raises.  A first write that is
      refused is followed by one deferral, and the report says what was granted. */
  predicate Delivers(topic: Id, handled: Handled, id: OutboxId, token: Id, own: seq<Step>, granted: bool,
                     report: Report)
  {
    && own != []
    && (match handled
        case Raises => |own| == 1 && IsDeferral(own[0], id, token) && report == Report(false, true)
        case Returns(disposition, result) =>
          && AnswersWith(topic, disposition, result, id, token, own[0])
          && report == Report(granted && own[0].DoFinish?, !granted))
    && (handled.Returns? ==> if granted then |own| == 1 else |own| == 2 && IsDeferral(own[1], id, token))
  }

  predicate Finishes(step: Step, id: OutboxId, token: Id, result: Id) {
    step.DoFinish? && step.id == id && step.token == token && step.result == result
  }

  /** The first own step since the first events, at its place in the history, and whether the table
      granted it then. */
  ghost predicate FirstOwn(db: Db, before: seq<Event>, after: seq<Event>, at: nat, granted: bool) {
    && |before| <= at < |after| && after[at].own && OwnSteps(after[|before|..at]) == []
    && (granted <==> Apply(Exec(db, Steps(after[|before|..at])), after[at].step).Success?)
  }

  lemma OneOwnStep(db: Db, before: seq<Event>, after: seq<Event>, step: Step, ok: bool)
    requires DidLast(db, before, after, step, ok)
    ensures FirstOwn(db, before, after, |after| - 1, ok) && OwnSteps(after[|before|..]) == [step]
  {
    var others := after[|before|..|after| - 1];
    assert after[|before|..] == others + [Event(true, step)];
    OwnStepsConcat(others, [Event(true, step)]);
    assert OwnSteps([Event(true, step)]) == [step];
  }

  lemma SecondOwnStep(db0: Db, before: seq<Event>, first: seq<Event>, db2: Db, after: seq<Event>, step: Step,
                      second: Step, ok: bool)
    requires before < first && FirstOwn(db0, before, first, |first| - 1, false)
    requires OwnSteps(first[|before|..]) == [step] && DidLast(db2, first, after, second, ok)
    ensures FirstOwn(db0, before, after, |first| - 1, false) && OwnSteps(after[|before|..]) == [step, second]
  {
    assert after[|before|..] == first[|before|..] + after[|first|..];
    OwnStepsConcat(first[|before|..], after[|first|..]);
    assert after[|before|..|first| - 1] == first[|before|..|first| - 1];
  }

  /** The write that the answer of a handler asks for. */
  predicate AnswersWith(topic: Id, disposition: Disposition, result: Id, id: OutboxId, token: Id, step: Step) {
    match disposition
    case Paused => IsDeferral(step, id, token)
    case Settled => Finishes(step, id, token, result)
    case PendingRemote =>
      if topic in {TEST_ACK, TEST_REQUEST} then IsDeferral(step, id, token) else Finishes(step, id, token, result)
  }

  method WriteAnswer(database: OutboxRepository, id: OutboxId, token: Id, topic: Id, disposition: Disposition,
                     result: Id)
    returns (ok: bool, finished: bool, ghost step: Step)
    modifies database
    ensures database.WentOn() && OnlyUnderClaim(old(database.history), database.history, id, token)
    ensures AnswersWith(topic, disposition, result, id, token, step)
    ensures DidLast(old(database.Contents()), old(database.history), database.history, step, ok)
    ensures finished <==> ok && step.DoFinish?
    ensures finished ==> DeliveredAt(database.Contents(), id)
  {
    var paused := disposition.Paused?;
    var pending := (topic == TEST_ACK || topic == TEST_REQUEST) && disposition.PendingRemote?;
    if paused || pending {
      ok, step := TryDefer(database, id, token);
      finished := false;
    } else {
      ok, step := TryFinish(database, id, token, result);
      finished := ok;
    }
  }

  /** The same seen from further back, when only others acted in between. */
  lemma SinceEarlier(db0: Db, before: seq<Event>, db1: Db, middle: seq<Event>, after: seq<Event>, at: nat,
                     granted: bool)
    requires Leads(db0, before, db1, middle) && OwnSteps(middle[|before|..]) == [] && middle <= after
    requires FirstOwn(db1, middle, after, at, granted)
    ensures FirstOwn(db0, before, after, at, granted)
    ensures OwnSteps(after[|before|..]) == OwnSteps(after[|middle|..])
  {
    var first, second := middle[|before|..], after[|middle|..at];
    assert after[|before|..] == first + after[|middle|..];
    OwnStepsConcat(first, after[|middle|..]);
    assert after[|before|..at] == first + second;
    OwnStepsConcat(first, second);
    StepsConcat(first, second);
    ExecConcat(db0, Steps(first), Steps(second));
  }

  /** The part of a delivery that follows its handler. */
  method Conclude(database: OutboxRepository, id: OutboxId, token: Id, topic: Id, handled: Handled)
    returns (outcome: Outcome<Report>, ghost at: nat, ghost granted: bool)
    modifies database
    ensures database.WentOn() && OnlyUnderClaim(old(database.history), database.history, id, token)
    ensures !outcome.Raised?
    ensures FirstOwn(old(database.Contents()), old(database.history), database.history, at, granted)
    ensures outcome.Done? ==>
              && Delivers(topic, handled, id, token, OwnSteps(database.history[|old(database.history)|..]), granted,
                          outcome.value)
              && (outcome.value.delivered ==> DeliveredAt(database.Contents(), id) && !outcome.value.failed)
  {
    ghost var db0, events0 := database.Contents(), database.history;
    if handled.Raises? {
      var deferred, step := TryDefer(database, id, token);
      OneOwnStep(db0, events0, database.history, step, deferred);
      return Done(Report(false, true)), |database.history| - 1, deferred;
    }
    var ok, finished, first := WriteAnswer(database, id, token, topic, handled.disposition, handled.result);
    OneOwnStep(db0, events0, database.history, first, ok);
    at, granted := |database.history| - 1, ok;
    if ok {
      return Done(Report(finished, false)), at, granted;
    }
    var dies := MayDie();
    if dies {
      return Died, at, granted;
    }
    ghost var db1, events1 := database.Contents(), database.history;
    var deferred, second := TryDefer(database, id, token);
    SecondOwnStep(db0, events0, events1, db1, database.history, first, second, deferred);
    LeadsOn(db0, events0, db1, events1, database.Contents(), database.history);
    UnderClaimOn(events0, events1, database.history, id, token);
    return Done(Report(false, true)), at, granted;
  }

  /** A claim that was lost meanwhile is never overwritten: whatever the handler does and wherever
      the process dies, the only writes use the claimed token.  When the delivery returns, it did
      what the answer of the handler asks for. */
  method DeliverClaim(database: OutboxRepository, id: OutboxId, token: Id)
    returns (outcome: Outcome<Report>, ghost handled: Handled, ghost at: nat, ghost granted: bool)
    requires id in database.rows
    modifies database
    ensures database.WentOn() && OnlyUnderClaim(old(database.history), database.history, id, token)
    ensures !outcome.Raised?
    ensures outcome.Done? ==>
              && FirstOwn(old(database.Contents()), old(database.history), database.history, at, granted)
              && Delivers(old(database.rows)[id].names.topic, handled, id, token,
                          OwnSteps(database.history[|old(database.history)|..]), granted, outcome.value)
    ensures outcome.Done? && outcome.value.delivered ==>
              DeliveredAt(database.Contents(), id) && !outcome.value.failed
  {
    ghost var db0, events0 := database.Contents(), database.history;
    var topic := database.rows[id].names.topic;
    var answer := RunHandler(database, id, token);
    handled, at, granted := answer, 0, false;
    ghost var db1, events1 := database.Contents(), database.history;
    var dies := MayDie();
    if dies {
      return Died, handled, at, granted;
    }
    outcome, at, granted := Conclude(database, id, token, topic, answer);
    SinceEarlier(db0, events0, db1, events1, database.history, at, granted);
    LeadsOn(db0, events0, db1, events1, database.Contents(), database.history);
    UnderClaimOn(events0, events1, database.history, id, token);
  }

  /** A delivery that loses its claim anywhere does not show in the table from then on: the rest is
      what the others alone make of it. */
  lemma LostDeliveryDoesNotShow(db: Db, before: seq<Event>, middle: seq<Event>, db': Db, after: seq<Event>,
                                id: OutboxId, token: Id)
    requires Inv(db) && before <= middle <= after
    requires Leads(db, before, db', after) && OnlyUnderClaim(before, after, id, token)
    requires Spent(Exec(db, Steps(middle[|before|..])), id, token)
    ensures db' == Exec(Exec(db, Steps(middle[|before|..])), OthersOnly(after[|middle|..]))
  {
    var first, second := middle[|before|..], after[|middle|..];
    assert after[|before|..] == first + second;
    StepsConcat(first, second);
    ExecConcat(db, Steps(first), Steps(second));
    RunKeepsInv(db, Steps(first));
    assert forall k :: 0 <= k < |second| ==> second[k] == after[|before|..][|first| + k];
    LostClaimWritesNothing(Exec(db, Steps(first)), second, id, token);
  }

  /** Distinct rows that the dispatch wanted and that are delivered now. */
  predicate AllDelivered(db: Db, delivered: seq<OutboxId>, topic: Id, origin: Option<Id>) {
    && (forall i, j :: 0 <= i < j < |delivered| ==> delivered[i] != delivered[j])
    && (forall id :: id in delivered ==> DeliveredAt(db, id) && IsOf(db, id, topic, origin))
  }

  /** How many rows were claimed. */
  function Taken(own: seq<Step>): nat {
    if own == [] then 0 else (if own[0].DoClaim? && own[0].chosen.Some? then 1 else 0) + Taken(own[1..])
  }

  lemma {:induction false} TakenConcat(first: seq<Step>, second: seq<Step>)
    ensures Taken(first + second) == Taken(first) + Taken(second)
  {
    if first == [] {
      assert first + second == second;
    } else {
      assert (first + second)[1..] == first[1..] + second;
      TakenConcat(first[1..], second);
    }
  }

  lemma {:induction false} TakesNothing(events: seq<Event>, id: OutboxId, token: Id)
    requires OnlyThisClaim(events, id, token)
    ensures Taken(OwnSteps(events)) == 0
  {
    if events != [] {
      assert forall k :: 0 <= k < |events[1..]| ==> events[1..][k] == events[k + 1];
      TakesNothing(events[1..], id, token);
      TakenConcat(if events[0].own then [events[0].step] else [], OwnSteps(events[1..]));
    }
  }

  /** What this process claimed between two points of the history. */
  function TakenSince(before: seq<Event>, after: seq<Event>): nat
    requires before <= after
  {
    Taken(OwnSteps(after[|before|..]))
  }

  lemma TakenOn(before: seq<Event>, middle: seq<Event>, after: seq<Event>)
    requires before <= middle <= after
    ensures TakenSince(before, after) == TakenSince(before, middle) + TakenSince(middle, after)
  {
    assert after[|before|..] == middle[|before|..] + after[|middle|..];
    OwnStepsConcat(middle[|before|..], after[|middle|..]);
    TakenConcat(OwnSteps(middle[|before|..]), OwnSteps(after[|middle|..]));
  }

  /** The last thing this process did was to look for a row of the topic, and there was none. */
  predicate FoundNone(events: seq<Event>, topic: Id, origin: Option<Id>) {
    && events != [] && events[|events| - 1].own
    && (var step := events[|events| - 1].step;
        step.DoClaim? && step.topic == topic && step.origin == origin && step.chosen.None?)
  }

  /** One claim and its delivery: a row of the topic that was not delivered before, or none is left. */
  method DispatchOne(database: OutboxRepository, topic: Id, owner: Id, origin: Option<Id>)
    returns (outcome: Outcome<Option<(OutboxId, Report)>>)
    modifies database
    ensures database.WentOn()
    ensures outcome.Raised? ==> owner == 0
    ensures outcome.Done? ==>
              TakenSince(old(database.history), database.history) == if outcome.value.Some? then 1 else 0
    ensures outcome.Done? && outcome.value.None? ==> FoundNone(database.history, topic, origin)
    ensures outcome.Done? && outcome.value.Some? ==>
              var (id, report) := outcome.value.value; var db := database.Contents();
              && !DeliveredAt(old(database.Contents()), id) && !(report.delivered && report.failed)
              && (report.delivered ==> DeliveredAt(db, id)) && IsOf(db, id, topic, origin)
  {
    ghost var db0, events0 := database.Contents(), database.history;
    var claimed := ClaimNext(database, topic, owner, origin);
    LeadsKeepsRows(db0, events0, database.Contents(), database.history);
    if claimed.Rejected? {
      return Raised;
    }
    if claimed.value.None? {
      return Done(None);
    }
    var (id, token) := claimed.value.value;
    ghost var db1, events1 := database.Contents(), database.history;
    var result, _, _, _ := DeliverClaim(database, id, token);
    LeadsKeepsRows(db1, events1, database.Contents(), database.history);
    LeadsOn(db0, events0, db1, events1, database.Contents(), database.history);
    TakenOn(events0, events1, database.history);
    TakesNothing(database.history[|events1|..], id, token);
    if !result.Done? {
      return Died;
    }
    return Done(Some((id, result.value)));
  }

  predicate IsOf(db: Db, id: OutboxId, topic: Id, origin: Option<Id>) {
    && id in db.rows && db.rows[id].names.topic == topic
    && (origin.Some? ==> db.rows[id].names.origin == origin.value)
  }

  /** At most limit claims are delivered, and fewer only when no row is left; the delivered ids are
      distinct and all of their rows are delivered when the dispatch ends. */
  method DispatchTopic(database: OutboxRepository, topic: Id, owner: Id, limit: int, origin: Option<Id>)
    returns (outcome: Outcome<(seq<OutboxId>, seq<OutboxId>)>)
    modifies database
    ensures database.WentOn()
    ensures outcome.Raised? ==> owner == 0
    ensures outcome.Done? ==>
              TakenSince(old(database.history), database.history) ==
              (if limit < 0 then 0 else if limit < 100 then limit else 100)
              || FoundNone(database.history, topic, origin)
    ensures outcome.Done? ==>
              && AllDelivered(database.Contents(), outcome.value.0, topic, origin)
              && |outcome.value.0| + |outcome.value.1| <= (if limit < 0 then 0 else if limit < 100 then limit else 100)
  {
    var rounds := if limit < 0 then 0 else if limit < 100 then limit else 100;
    var delivered: seq<OutboxId> := [];
    var errors: seq<OutboxId> := [];
    ghost var db0, events0 := database.Contents(), database.history;
    LeadsNowhere(db0, events0);
    assert events0[|events0|..] == [];
    for k := 0 to rounds
      invariant Leads(db0, events0, database.Contents(), database.history)
      invariant TakenSince(events0, database.history) == k
      invariant |delivered| + |errors| <= k
      invariant AllDelivered(database.Contents(), delivered, topic, origin)
    {
      ghost var db1, events1 := database.Contents(), database.history;
      var one := DispatchOne(database, topic, owner, origin);
      LeadsKeepsRows(db1, events1, database.Contents(), database.history);
      LeadsOn(db0, events0, db1, events1, database.Contents(), database.history);
      TakenOn(events0, events1, database.history);
      if !one.Done? {
        return if one.Raised? then Raised else Died;
      }
      if one.value.None? {
        break;
      }
      var (id, report) := one.value.value;
      if report.delivered {
        delivered := delivered + [id];
      }
      if report.failed {
        errors := errors + [id];
      }
    }
    return Done((delivered, errors));
  }

  /** Claims the next row, after others ran. */
  method ClaimNext(database: OutboxRepository, topic: Id, owner: Id, origin: Option<Id>)
    returns (claimed: Result<Option<(OutboxId, Id)>>)
    modifies database
    ensures database.WentOn()
    ensures claimed.Rejected? <==> owner == 0
    ensures claimed.Success? ==>
              TakenSince(old(database.history), database.history) == if claimed.value.Some? then 1 else 0
    ensures claimed.Success? && claimed.value.None? ==> FoundNone(database.history, topic, origin)
    ensures claimed.Success? && claimed.value.Some? ==>
              var id := claimed.value.value.0; var db := database.Contents();
              && IsOf(db, id, topic, origin) && db.rows[id].state.Claimed?
              && db.rows[id].token == Some(claimed.value.value.1)
  {
    database.OthersRun();
    ghost var db1, events := database.Contents(), database.history;
    var now := AnyInt();
    var token := Unused(database.issued.Keys);
    var first := database.ClaimOutbox(topic, owner, CLAIM_SECONDS, origin, now, token);
    ghost var step := database.history[|events|].step;
    OthersThenStep(old(database.Contents()), old(database.history), db1, events, step);
    assert Taken([step]) == if step.chosen.Some? then 1 else 0;
    if first.Rejected? {
      return Rejected;
    }
    return Success(if first.value.None? then None else Some((first.value.value, token)));
  }
}

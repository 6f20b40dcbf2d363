/** Agent actions with their attempts, work lease, iteration and receipt.  A record groups the rows
    that the five tables hold for one action; a transaction is one function on the database that
    either commits or is rejected and leaves everything as it was.  Times are integers and a
    transaction may see any time; tokens and generated ids never repeat. */
module AgentModel {
  import opened Wrappers

  /** Identifiers, tokens, payload bodies and other texts that are only compared for equality. */
  type Id = int

  datatype State =
    | Queued | Claimed | Running | Uncertain | RetryPending | Completed | Failed | Cancelled

  predicate Live(s: State) {
    s.Queued? || s.Claimed? || s.Running? || s.Uncertain? || s.RetryPending?
  }

  predicate Working(s: State) {
    s.Claimed? || s.Running? || s.Uncertain?
  }

  predicate Executing(s: State) {
    s.Claimed? || s.Running?
  }

  predicate Terminal(s: State) {
    s.Completed? || s.Failed? || s.Cancelled?
  }

  datatype LeaseState = Active | Expired | Released

  /** A failure class: one of the retryable classes, agent-auth among them, or another one; with
      the number of retry-exhausted suffixes.  legacy marks details that the policy normalizes to
      a retryable class once the action has failed. */
  datatype Failure = Failure(retryable: bool, auth: bool, legacy: bool, suffixes: nat)

  const NO_FAILURE := Failure(false, false, false, 0)

  /** superseded and discarded mark the two defects that the recoveries are limited to. */
  datatype Completion = Completion(failure: Failure, session: Option<Id>,
                                   superseded: bool, discarded: bool, text: Id)

  const NO_TEXT: Id := 0
  const GATE_OBSOLETE: Id := 1

  const NO_COMPLETION := Completion(NO_FAILURE, None, false, false, NO_TEXT)

  datatype Attempt = Attempt(ordinal: nat, agent: Id, state: State,
                             session: Option<Id>, completion: Completion)

  datatype Lease = Lease(id: Id, token: Id, agent: Id, runner: Id,
                         state: LeaseState, expires: int)

  datatype Receipt = Receipt(action: Id, iteration: Id, agent: Id, lease: Id,
                             status: State, completion: Completion)

  datatype Payload = Payload(operator: Id, role: Id, candidate: Id,
                             workflow: bool, body: Id)

  datatype Record = Record(
    payload: Payload, iteration: Id, iterationState: State,
    state: State, agent: Option<Id>, attempt: Option<Id>, leaseId: Option<Id>,
    tries: map<Id, Attempt>, lease: Option<Lease>, receipt: Option<Receipt>)

  datatype Intent = Intent(receipt: Receipt, continuation: Id)

  /** issued is not a table: it remembers which action each token was made for. */
  datatype Db = Db(records: map<Id, Record>, keys: map<Id, Id>,
                   intents: map<(Id, Id), Intent>, issued: map<Id, Id>)

  const EMPTY := Db(map[], map[], map[], map[])

  predicate SameRole(r: Record, s: Record) {
    r.payload.operator == s.payload.operator && r.payload.role == s.payload.role
  }

  predicate HasActiveLease(r: Record) {
    r.lease.Some? && r.lease.value.state == Active
  }

  /** The partial unique index on work leases. */
  predicate OneActivePerRole(records: map<Id, Record>) {
    forall a, b {:trigger SameRole(records[a], records[b])} ::
      a in records && b in records && SameRole(records[a], records[b])
      && HasActiveLease(records[a]) && HasActiveLease(records[b])
      ==> a == b
  }

  predicate SameCandidate(r: Record, s: Record) {
    SameRole(r, s) && r.payload.candidate == s.payload.candidate
  }

  /** The partial unique index on iterations. */
  predicate OneLivePerCandidate(records: map<Id, Record>) {
    forall a, b {:trigger SameCandidate(records[a], records[b])} ::
      a in records && b in records && SameCandidate(records[a], records[b])
      && Live(records[a].iterationState) && Live(records[b].iterationState)
      ==> a == b
  }

  /** A transaction whose rows violate a unique index is rolled back. */
  function Commit(db: Db): Result<Db> {
    if OneActivePerRole(db.records) && OneLivePerCandidate(db.records) then Success(db) else Rejected
  }

  function Put(db: Db, a: Id, r: Record): Db {
    db.(records := db.records[a := r])
  }

  function ExpiresAt(now: int, seconds: int): Result<int> {
    if 1 <= seconds <= 3600 then Success(now + seconds) else Rejected
  }

  function RequireActiveLease(db: Db, a: Id, token: Id, now: int): Result<Lease> {
    if a in db.records && HasActiveLease(db.records[a])
       && db.records[a].lease.value.token == token && now < db.records[a].lease.value.expires
    then Success(db.records[a].lease.value)
    else Rejected
  }

  /** The current attempt of a record, when its row exists. */
  function CurrentTry(r: Record): Option<Attempt> {
    if r.attempt.Some? && r.attempt.value in r.tries then Some(r.tries[r.attempt.value]) else None
  }

  function SetTry(r: Record, t: Attempt): Record {
    if r.attempt.Some? && r.attempt.value in r.tries
    then r.(tries := r.tries[r.attempt.value := t]) else r
  }

  /** The current attempt takes a state and, when given, a session and a completion. */
  function MarkTry(r: Record, state: State, session: Option<Id>, completion: Option<Completion>): Record {
    if CurrentTry(r).None? then r
    else
      var t := CurrentTry(r).value;
      SetTry(r, t.(state := state,
                   session := if session.Some? then session else t.session,
                   completion := if completion.Some? then completion.value else t.completion))
  }

  // ----- Creation -----

  function Create(db: Db, a: Id, key: Id, iteration: Id, payload: Payload, owned: bool): Result<Db> {
    if key in db.keys then
      if db.keys[key] in db.records && db.records[db.keys[key]].payload == payload
         && db.records[db.keys[key]].iteration == iteration && db.keys[key] == a
      then Success(db) else Rejected
    else if owned || a in db.records
            || (exists b :: b in db.records && db.records[b].iteration == iteration) then Rejected
    else
      Commit(Put(db, a, Record(payload, iteration, Queued, Queued, None, None, None, map[], None, None))
             .(keys := db.keys[key := a]))
  }

  // ----- Expiry and claim -----

  predicate IsExpired(r: Record, now: int) {
    HasActiveLease(r) && r.lease.value.expires <= now
  }

  function ExpireTry(t: Attempt): Attempt {
    if Executing(t.state) then t.(state := Uncertain) else t
  }

  function ExpireRecord(r: Record): Record
    requires r.lease.Some?
  {
    r.(lease := Some(r.lease.value.(state := Expired)),
       state := if Executing(r.state) then Uncertain else r.state,
       tries := map t | t in r.tries :: ExpireTry(r.tries[t]),
       iterationState := Uncertain)
  }

  function ExpireAll(records: map<Id, Record>, now: int): map<Id, Record> {
    map a | a in records :: if IsExpired(records[a], now) then ExpireRecord(records[a]) else records[a]
  }

  function Expire(db: Db, now: int): Db {
    db.(records := ExpireAll(db.records, now))
  }

  /** gate holds the actions whose workflow gate is current, picks the agent selected for each
      action that a managed agent of this runner may take. */
  predicate Claimable(db: Db, a: Id, gate: set<Id>, picks: map<Id, Id>) {
    && a in db.records && db.records[a].state == Queued
    && a in gate && a in picks
    && (forall b :: b in db.records && SameRole(db.records[a], db.records[b]) ==>
          !Working(db.records[b].state))
    && (forall b ::
          b in db.records && SameRole(db.records[a], db.records[b]) && HasActiveLease(db.records[b])
          ==> b == a)
  }

  function FirstClaimable(db: Db, rows: seq<Id>, gate: set<Id>, picks: map<Id, Id>): (a: Option<Id>)
    ensures a.Some? ==> a.value in rows && Claimable(db, a.value, gate, picks)
    ensures a.None? ==> forall b :: b in rows ==> !Claimable(db, b, gate, picks)
  {
    if rows == [] then None
    else if Claimable(db, rows[0], gate, picks) then Some(rows[0])
    else FirstClaimable(db, rows[1..], gate, picks)
  }

  datatype ClaimIds = ClaimIds(attempt: Id, lease: Id, token: Id)

  function ClaimRecord(r: Record, agent: Id, runner: Id, expires: int, ids: ClaimIds): Record {
    var leaseId := if r.lease.Some? then r.lease.value.id else ids.lease;
    r.(state := Claimed, iterationState := Claimed, agent := Some(agent),
       attempt := Some(ids.attempt), leaseId := Some(leaseId),
       tries := r.tries[ids.attempt := Attempt(|r.tries| + 1, agent, Claimed, None, NO_COMPLETION)],
       lease := Some(Lease(leaseId, ids.token, agent, runner, Active, expires)))
  }

  /** Generated ids are unused; the primary keys would reject them otherwise. */
  predicate FreshIds(db: Db, ids: ClaimIds) {
    && ids.token !in db.issued
    && (forall b :: b in db.records ==>
          && ids.attempt !in db.records[b].tries
          && (db.records[b].lease.Some? ==> db.records[b].lease.value.id != ids.lease))
  }

  predicate OrdinalTaken(tries: map<Id, Attempt>, ordinal: nat) {
    exists t :: t in tries && tries[t].ordinal == ordinal
  }

  function ClaimChosen(db: Db, a: Id, agent: Id, runner: Id, expires: int, ids: ClaimIds): Result<Db>
    requires a in db.records
  {
    if !FreshIds(db, ids) || OrdinalTaken(db.records[a].tries, |db.records[a].tries| + 1) then Rejected
    else
      Commit(Put(db, a, ClaimRecord(db.records[a], agent, runner, expires, ids))
             .(issued := db.issued[ids.token := a]))
  }

  /** The part of a claim that follows the expiry of leases in the same transaction. */
  function ClaimFrom(db: Db, rows: seq<Id>, gate: set<Id>, picks: map<Id, Id>,
                     runner: Id, expires: int, ids: ClaimIds): Result<Db>
  {
    var chosen := FirstClaimable(db, rows, gate, picks);
    if chosen.None? then Commit(db)
    else ClaimChosen(db, chosen.value, picks[chosen.value], runner, expires, ids)
  }

  function Claim(db: Db, rows: seq<Id>, gate: set<Id>, picks: map<Id, Id>,
                 runner: Id, now: int, seconds: int, ids: ClaimIds): Result<Db>
  {
    var expires :- ExpiresAt(now, seconds);
    ClaimFrom(Expire(db, now), rows, gate, picks, runner, expires, ids)
  }

  // ----- Adoption -----

  /** ready holds the actions whose assigned agent is managed, healthy and open to this runner. */
  predicate Adoptable(db: Db, a: Id, ready: set<Id>) {
    && a in db.records && db.records[a].state == Uncertain && a in ready
    && CurrentTry(db.records[a]).Some?
    && db.records[a].lease.Some? && db.records[a].leaseId == Some(db.records[a].lease.value.id)
    && (forall b ::
          b in db.records && SameRole(db.records[a], db.records[b]) && HasActiveLease(db.records[b])
          ==> b == a)
  }

  function FirstAdoptable(db: Db, rows: seq<Id>, ready: set<Id>): (a: Option<Id>)
    ensures a.Some? ==> a.value in rows && Adoptable(db, a.value, ready)
    ensures a.None? ==> forall b :: b in rows ==> !Adoptable(db, b, ready)
  {
    if rows == [] then None
    else if Adoptable(db, rows[0], ready) then Some(rows[0])
    else FirstAdoptable(db, rows[1..], ready)
  }

  function AdoptRecord(r: Record, runner: Id, expires: int): Record
    requires r.lease.Some?
  {
    r.(lease := Some(r.lease.value.(state := Active, runner := runner, expires := expires)))
  }

  function AdoptFrom(db: Db, rows: seq<Id>, ready: set<Id>, runner: Id, expires: int): Result<Db> {
    var chosen := FirstAdoptable(db, rows, ready);
    if chosen.None? then Commit(db)
    else Commit(Put(db, chosen.value, AdoptRecord(db.records[chosen.value], runner, expires)))
  }

  function Adopt(db: Db, rows: seq<Id>, ready: set<Id>, runner: Id, now: int, seconds: int): Result<Db> {
    var expires :- ExpiresAt(now, seconds);
    AdoptFrom(Expire(db, now), rows, ready, runner, expires)
  }

  // ----- Work under a lease -----

  function Renew(r: Record, expires: int): Record {
    if r.lease.None? then r else r.(lease := Some(r.lease.value.(expires := expires)))
  }

  function CloseLease(r: Record): Record {
    if r.lease.None? then r else r.(lease := Some(r.lease.value.(state := Released)))
  }

  function GateObsolete(session: Option<Id>): Completion {
    Completion(NO_FAILURE, session, false, false, GATE_OBSOLETE)
  }

  /** A claimed action whose gate is no longer current ends as a cancellation instead. */
  function StartRecord(r: Record, a: Id, session: Option<Id>, current: bool, expires: int): Result<Record>
    requires r.lease.Some?
  {
    if CurrentTry(r).None? then Rejected
    else if CurrentTry(r).value.session.Some? && CurrentTry(r).value.session != session then Rejected
    else if r.state == Running then Success(Renew(r, expires))
    else if r.state != Claimed && r.state != Uncertain then Rejected
    else if r.state == Claimed && !current then
      var done := GateObsolete(session);
      var t := CurrentTry(r).value.(state := Cancelled, session := session, completion := done);
      Success(CloseLease(SetTry(r, t)).(
        state := Cancelled, iterationState := Cancelled,
        receipt := Some(Receipt(a, r.iteration, r.lease.value.agent, r.lease.value.id, Cancelled, done))))
    else
      var t := CurrentTry(r).value;
      var t' := if t.state == Claimed || t.state == Uncertain
                then t.(state := Running, session := session) else t;
      Success(Renew(SetTry(r, t'), expires).(state := Running, iterationState := Running))
  }

  function Start(db: Db, a: Id, token: Id, session: Option<Id>, gate: set<Id>,
                 now: int, seconds: int): Result<Db>
  {
    var expires :- ExpiresAt(now, seconds);
    var lease :- RequireActiveLease(db, a, token, now);
    var started :- StartRecord(db.records[a], a, session, a in gate, expires);
    Commit(Put(db, a, started))
  }

  function Heartbeat(db: Db, a: Id, token: Id, now: int, seconds: int): Result<Db> {
    var expires :- ExpiresAt(now, seconds);
    var lease :- RequireActiveLease(db, a, token, now);
    Commit(Put(db, a, Renew(db.records[a], expires)))
  }

  predicate OtherWorks(db: Db, a: Id)
    requires a in db.records
  {
    exists b :: b in db.records && b != a && SameRole(db.records[a], db.records[b])
                && Working(db.records[b].state)
  }

  predicate OtherLive(db: Db, a: Id)
    requires a in db.records
  {
    exists b :: b in db.records && b != a && SameRole(db.records[a], db.records[b])
                && Live(db.records[b].state)
  }

  /** The record runs again under its own lease. */
  function Revive(r: Record, runner: Id, expires: int): Record
    requires r.lease.Some?
  {
    MarkTry(r, Running, None, None).(
      state := Running, iterationState := Running,
      lease := Some(r.lease.value.(state := Active, runner := runner, expires := expires)))
  }

  function EnsureCompletionLease(db: Db, a: Id, attempt: Id, turn: Id, runner: Id,
                                 gate: set<Id>, now: int, seconds: int): Result<Db>
  {
    var expires :- ExpiresAt(now, seconds);
    if a !in db.records then Rejected else
    var r := db.records[a];
    if CurrentTry(r).None? || r.lease.None? || r.leaseId != Some(r.lease.value.id) then Rejected
    else if r.attempt != Some(attempt) || CurrentTry(r).value.session != Some(turn)
            || r.lease.value.runner != runner || r.receipt.Some? || a !in gate then Rejected
    else if !(r.state == Running || r.state == Uncertain)
            || !(CurrentTry(r).value.state == Running || CurrentTry(r).value.state == Uncertain)
            || !(r.iterationState == Running || r.iterationState == Uncertain)
            || r.lease.value.state == Released then Rejected
    else if r.lease.value.state == Active && now < r.lease.value.expires then Success(db)
    else if OtherWorks(db, a) then Rejected
    else Commit(Put(db, a, Revive(r, runner, expires)))
  }

  function Obsolete(c: Completion): Completion {
    c.(failure := NO_FAILURE, superseded := false, discarded := false, text := GATE_OBSOLETE)
  }

  /** The receipt as it is committed: a completion behind an obsolete gate becomes a cancellation. */
  function Effective(value: Receipt, gate: set<Id>): Receipt {
    if value.status == Completed && value.action !in gate
    then value.(status := Cancelled, completion := Obsolete(value.completion))
    else value
  }

  predicate ReplayMatches(db: Db, value: Receipt, token: Id, continuation: Option<Id>)
    requires value.action in db.records
  {
    var r := db.records[value.action];
    && r.receipt == Some(value)
    && r.lease.Some? && r.lease.value.token == token
    && r.lease.value.id == value.lease && r.lease.value.agent == value.agent
    && (continuation.Some? ==>
          && r.attempt.Some? && (value.action, r.attempt.value) in db.intents
          && db.intents[(value.action, r.attempt.value)].continuation == continuation.value)
  }

  /** An uncertain outcome keeps the lease and writes no receipt. */
  function CompleteRecord(r: Record, v: Receipt): Record {
    var marked := MarkTry(r, v.status, v.completion.session, Some(v.completion)).(
      state := v.status, iterationState := v.status);
    if v.status == Uncertain then marked else CloseLease(marked).(receipt := Some(v))
  }

  function Complete(db: Db, value: Receipt, token: Id, continuation: Option<Id>,
                    gate: set<Id>, now: int): Result<Db>
  {
    var a := value.action;
    if !Terminal(value.status) && value.status != Uncertain then Rejected
    else if a in db.records && db.records[a].receipt.Some? then
      if ReplayMatches(db, value, token, continuation) then Success(db) else Rejected
    else
      var lease :- RequireActiveLease(db, a, token, now);
      var r := db.records[a];
      if value.lease != lease.id || value.agent != lease.agent || value.iteration != r.iteration
         || r.attempt.None? then Rejected
      else
        var v := Effective(value, gate);
        var key := (a, r.attempt.value);
        if continuation.Some? && v.status == Completed then
          var intent := Intent(v, continuation.value);
          if key in db.intents && db.intents[key] != intent then Rejected
          else Commit(Put(db, a, CompleteRecord(r, v)).(intents := db.intents[key := intent]))
        else Commit(Put(db, a, CompleteRecord(r, v)))
  }

  // ----- Retry arbitration -----

  function DeferRecord(r: Record, failure: Completion, expires: int): Record {
    Renew(MarkTry(r, RetryPending, None, Some(failure)), expires).(
      state := if Working(r.state) then RetryPending else r.state,
      iterationState := RetryPending)
  }

  function Defer(db: Db, a: Id, token: Id, failure: Completion, now: int, seconds: int): Result<Db> {
    var expires :- ExpiresAt(now, seconds);
    if !failure.failure.retryable || failure.failure.suffixes != 0 then Rejected
    else
      var lease :- RequireActiveLease(db, a, token, now);
      Commit(Put(db, a, DeferRecord(db.records[a], failure, expires)))
  }

  /** The failure as the arbitration sees it: retryable up to one exhausted suffix, or legacy
      details of a failed action that are normalized to a retryable class. */
  function Arbitrated(f: Failure, state: State): Option<Failure> {
    if f.retryable && f.suffixes <= 1 then Some(f)
    else if f.legacy && state == Failed then Some(Failure(true, false, f.legacy, 0))
    else None
  }

  /** The action waits for a new claim and keeps its lease and token. */
  function RequeueRecord(r: Record, done: Completion, expires: int): Record
    requires r.lease.Some?
  {
    MarkTry(r, Failed, None, Some(done)).(
      state := Queued, iterationState := Queued,
      agent := if done.failure.auth then None else r.agent,
      lease := Some(r.lease.value.(state := Active, expires := expires)),
      receipt := None)
  }

  function FailRecord(r: Record, a: Id, done: Completion): Record
    requires r.lease.Some?
  {
    CloseLease(MarkTry(r, Failed, None, Some(done))).(
      state := Failed, iterationState := Failed,
      receipt := Some(Receipt(a, r.iteration, r.lease.value.agent, r.lease.value.id, Failed, done)))
  }

  function Decide(db: Db, a: Id, attempt: Id, retry: bool, now: int, seconds: int): Result<Db> {
    var expires :- ExpiresAt(now, seconds);
    if a !in db.records then Rejected else
    var r := db.records[a];
    if CurrentTry(r).None? || r.attempt != Some(attempt) || r.lease.None? then Rejected else
    var t := CurrentTry(r).value;
    if !retry && r.state == Failed && t.state == Failed && t.completion.failure.suffixes > 0 then Success(db)
    else if Arbitrated(t.completion.failure, r.state).None? then Rejected
    else
      var failure := Arbitrated(t.completion.failure, r.state).value;
      if retry then
        Commit(Put(db, a, RequeueRecord(r, t.completion.(failure := failure), expires)))
      else
        var done := t.completion.(failure := failure.(suffixes := failure.suffixes + 1));
        Commit(Put(db, a, FailRecord(r, a, done)))
  }

  // ----- Cancellation and the obsolete sweep -----

  function CancelTry(t: Attempt): Attempt {
    if Working(t.state) then t.(state := Cancelled) else t
  }

  function CancelRecord(r: Record): Record {
    r.(state := Cancelled, iterationState := Cancelled,
       tries := map t | t in r.tries :: CancelTry(r.tries[t]),
       lease := if HasActiveLease(r) then Some(r.lease.value.(state := Released)) else r.lease)
  }

  function Cancel(db: Db, a: Id): Result<Db> {
    if a !in db.records then Rejected else
    var r := db.records[a];
    if r.state == Cancelled then Success(db)
    else if r.state == Completed || r.state == Failed then Rejected
    else
      Commit(Put(db, a, CancelRecord(r)))
  }

  predicate Sweepable(r: Record, a: Id, current: set<Id>, scope: Option<set<Id>>) {
    && a !in current && r.payload.workflow
    && (scope.Some? ==> r.payload.operator in scope.value)
    && (r.state == Queued
        || (r.state == RetryPending && CurrentTry(r).Some? && CurrentTry(r).value.state == RetryPending
            && HasActiveLease(r) && r.leaseId == Some(r.lease.value.id)))
  }

  /** A re-queued action is cancelled without releasing its lease. */
  function SweepRecord(r: Record): Record {
    var swept := r.(state := Cancelled,
                    iterationState := if r.iterationState == r.state then Cancelled else r.iterationState);
    if r.state == RetryPending then CloseLease(MarkTry(swept, Cancelled, None, None)) else swept
  }

  function SweepAll(records: map<Id, Record>, current: set<Id>, scope: Option<set<Id>>): map<Id, Record> {
    map a | a in records ::
      if Sweepable(records[a], a, current, scope) then SweepRecord(records[a]) else records[a]
  }

  function Sweep(db: Db, current: set<Id>, scope: Option<set<Id>>): Result<Db> {
    Commit(db.(records := SweepAll(db.records, current, scope)))
  }

  // ----- Recoveries -----

  function RecoverCancelled(db: Db, a: Id, attempt: Id, turn: Id, runner: Id,
                            gate: set<Id>, registered: bool, now: int, seconds: int): Result<Db>
  {
    var expires :- ExpiresAt(now, seconds);
    if a !in db.records then Rejected else
    var r := db.records[a];
    if r.state != Cancelled || r.attempt != Some(attempt) || a !in gate then Rejected
    else if CurrentTry(r).None? || r.lease.None? || r.leaseId != Some(r.lease.value.id)
            || r.receipt.None? then Rejected
    else if CurrentTry(r).value.state != Cancelled || r.iterationState != Cancelled
            || r.lease.value.state != Released || r.receipt.value.status != Cancelled
            || CurrentTry(r).value.session != Some(turn)
            || !r.receipt.value.completion.superseded then Rejected
    else if OtherLive(db, a) || !registered then Rejected
    else Commit(Put(db, a, Revive(r, runner, expires).(receipt := None)))
  }

  /** A new attempt for the discarded turn, under a rotated token. */
  function ReplayRecord(r: Record, agent: Id, turn: Id, runner: Id, expires: int, ids: ClaimIds): Record
    requires CurrentTry(r).Some? && r.lease.Some?
  {
    var t := Attempt(CurrentTry(r).value.ordinal + 1, agent, Running, Some(turn), NO_COMPLETION);
    r.(state := Running, iterationState := Running, attempt := Some(ids.attempt),
       tries := r.tries[ids.attempt := t],
       lease := Some(r.lease.value.(token := ids.token, state := Active, runner := runner, expires := expires)),
       receipt := None)
  }

  function RecoverDiscarded(db: Db, a: Id, source: Id, turn: Id, runner: Id,
                            gate: set<Id>, registered: bool, now: int, seconds: int,
                            ids: ClaimIds): Result<Db>
  {
    var expires :- ExpiresAt(now, seconds);
    if a !in db.records then Rejected else
    var r := db.records[a];
    if CurrentTry(r).None? || r.lease.None? || r.leaseId != Some(r.lease.value.id)
       || r.receipt.None? || r.attempt != Some(source) || a !in gate then Rejected
    else if r.state != Failed || CurrentTry(r).value.state != Failed
            || r.lease.value.state != Released || r.iterationState != Failed
            || r.receipt.value.status != Failed || CurrentTry(r).value.session != Some(turn)
            || !r.receipt.value.completion.discarded
            || r.receipt.value.completion.session != Some(turn) || r.agent.None? then Rejected
    else if OtherLive(db, a) || !registered then Rejected
    else if !FreshIds(db, ids) || OrdinalTaken(r.tries, CurrentTry(r).value.ordinal + 1) then Rejected
    else
      Commit(Put(db, a, ReplayRecord(r, r.agent.value, turn, runner, expires, ids))
             .(issued := db.issued[ids.token := a]))
  }
}

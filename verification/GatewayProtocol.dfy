/** The publication and acknowledgement protocol of one request, as atomic steps.

    Two locks exist.  The operation lock is held by one submit, status, cancel or resume call at a
    time; the acknowledgement lock by one acknowledge call; the no-progress watchdog of wait()
    writes without a lock.  A step is one journal replacement or one transport call of one of
    them, so that a run interleaves them freely, and a process can die (release its lock and
    forget everything) between any two of its steps. */
module GatewayProtocol {
  import opened Wrappers
  import opened GatewayContracts
  import opened RunJournals

  /** What a call of transport.submit told the gateway.  Only RequestError, raised before the
      publication, says that nothing was published. */
  datatype SubmitOutcome =
    | RequestError | AdmissionError(code: string) | OtherError | Answer(receipt: Receipt)

  datatype OpPhase =
    | OpFree
    | Held(submitting: bool, retryUncertain: bool)
    | Armed                            // PUBLISHING is durable, transport.submit is next
    | Answered(outcome: SubmitOutcome) // transport.submit has ended

  datatype AckPhase =
    | AckFree
    | AckHeld
    | AckChecked(eventId: EventId)     // the durable acceptance was required and found
    | AckBegun(eventId: EventId)       // the attempt is counted, transport.acknowledge is next
    | AckAnswered(eventId: EventId, verdict: Option<bool>)

  /** One call of transport.acknowledge, the journal that was durable when it was made, and its
      answer, if it gave one. */
  datatype AckCall = AckCall(eventId: EventId, journal: Journal, verdict: Option<bool>)

  /** What transport.cancel or transport.status reported. */
  datatype Observation = Observation(cancelling: bool, status: Status)

  /** What the holder of the operation lock was told since it took the lock: whether the preflight
      passed, the rejection and the receipt that reconciling found, the status of the remote side, and
      how transport.submit ended.  raised tells that a call of the transport or the scan of the
      evidence raised instead. */
  datatype Inquiry = Inquiry(preflight: Option<bool>, rejection: Option<Option<Status>>,
                             receipt: Option<Option<Receipt>>, observed: Option<Observation>,
                             submitted: Option<SubmitOutcome>, raised: bool)

  const NOT_ASKED := Inquiry(None, None, None, None, None, false)

  /** forged counts the endpoint rejections recorded by a reconciling submit that have the shape
      of a failure before publication.  ackRaised tells that the evidence could not be scanned for the
      holder of the acknowledgement lock. */
  datatype World = World(
    journal: Journal, op: OpPhase, asked: Inquiry, ack: AckPhase, ackRaised: bool,
    submits: nat, published: nat, retries: nat, forged: nat,
    ackCalls: seq<AckCall>, confirmed: set<EventId>)

  datatype Step =
    | Acquire(submitting: bool, retryUncertain: bool)
    | Release
    | AskPreflight(passed: bool)
    | AskRejection(found: Option<Status>)
    | AskReceipt(known: Option<Receipt>)
    | AskStatus(observation: Observation)
    | AskFails
    | StartPublish
    | CallSubmit(outcome: SubmitOutcome, landed: bool)
    | RefuseRequest
    | RecordRejection(status: Status)
    | OpWrite(op: JournalOp)
    | AckAcquire
    | AckRelease
    | AckFails
    | AckAccept(receipt: Receipt, status: Status, retained: Retention, index: Result<seq<FileEntry>>)
    | AckCheck(eventId: EventId, index: Result<seq<FileEntry>>)
    | AckBegin
    | AckCallTransport(verdict: Option<bool>)
    | AckRecord(error: string)
    | Watchdog(target: TestState, status: Status)

  // ----- What the gateway records of a failure -----

  /** The bundle does not pass the preflight of the transport. */
  function PreflightFailure(requestId: string): Status {
    Status(requestId, Failed, INVALID_REQUEST, NO_RESULT, NO_METRICS)
  }

  /** transport.submit raised a request error: nothing was published by this call. */
  function RequestFailure(requestId: string): Status {
    Status(requestId, Failed, INVALID_REQUEST, NO_RESULT, NO_METRICS.(publicationStarted := Some(false)))
  }

  const ADMISSION_REJECTED: string := "endpoint-admission-rejected:"

  /** The endpoint refused the published request. */
  function AdmissionFailure(requestId: string, code: string): Status {
    Status(requestId, Failed, ADMISSION_REJECTED + code, NO_RESULT,
           NO_METRICS.(publicationStarted := Some(true), returnPathReady := Some(true)))
  }

  function ReconciliationPending(requestId: string): Status {
    Status(requestId, Publishing, "transport-reconciliation-pending", NO_RESULT,
           NO_METRICS.(returnPathReady := Some(false)))
  }

  predicate NeedsReceipt(s: TestState) {
    s.Accepted? || s.Running? || s.Collecting? || s.Cancelling? || s.Completed?
  }

  /** What a transition of a request without a receipt has to be based on: it fails for the answer that
      the transport gave, it is uncertain because its publication is, and it is cancelled only before
      any publication. */
  predicate TransitionJustified(w: World, target: TestState, remote: Option<Status>) {
    match target
    case Failed =>
      || (w.op.Held? && w.asked.preflight == Some(false) && remote == Some(PreflightFailure(w.journal.requestId)))
      || (w.op.Answered? && w.op.outcome.AdmissionError?
          && remote == Some(AdmissionFailure(w.journal.requestId, w.op.outcome.code)))
    case Uncertain =>
      && remote.None?
      && (w.op.Held? ==> w.asked.receipt == Some(None))
      && (w.op.Answered? ==> w.op.outcome.OtherError? || w.op.outcome.Answer?)
    case Cancelled => w.op.Held? && w.journal.state == Prepared && w.journal.cancellation.Some?
    case Publishing => w.journal.state == Publishing && w.op.Held?
    case _ => false
  }

  /** The journal writes a lock holder may make besides the ones that have their own step.  A receipt
      is the one that the transport gave, and a status the one that it reported, unless a terminal is
      imported from the journal itself. */
  predicate WriteAllowed(w: World, op: JournalOp) {
    match op
    case DoTransition(target, remote) =>
      if w.journal.receipt.None? then TransitionJustified(w, target, remote)
      else
        && target != Prepared
        && (remote.Some? ==>
              Terminal(w.journal.state) || (w.asked.observed.Some? && remote.value == w.asked.observed.value.status))
    case DoAttachReceipt(receipt) =>
      && w.journal.state != Prepared
      && ((w.op.Held? && w.asked.receipt == Some(Some(receipt))) || w.op == Answered(Answer(receipt)))
    case DoResume => w.op == Held(false, false)
    case DoRequestCancellation(_) => w.op.Held?
    case DoRecordAck(_, _, _, _) => false
    case _ => true
  }

  function Write(w: World, op: JournalOp): Result<World> {
    var j :- Perform(w.journal, op);
    Success(w.(journal := j))
  }

  function Apply(w: World, step: Step): Result<World> {
    match step
    case Acquire(submitting, retryUncertain) =>
      if w.op != OpFree then Rejected else
      Success(w.(op := Held(submitting, retryUncertain), asked := NOT_ASKED,
                 retries := w.retries + if submitting && retryUncertain then 1 else 0))
    case Release => Success(w.(op := OpFree))
    case AskPreflight(passed) => Success(w.(asked := w.asked.(preflight := Some(passed))))
    case AskRejection(found) => Success(w.(asked := w.asked.(rejection := Some(found))))
    case AskReceipt(known) => Success(w.(asked := w.asked.(receipt := Some(known))))
    case AskStatus(observation) => Success(w.(asked := w.asked.(observed := Some(observation))))
    case AskFails => Success(w.(asked := w.asked.(raised := true)))
    case StartPublish =>
      if !w.op.Held? || !w.op.submitting || w.journal.receipt.Some? || w.journal.cancellation.Some?
         || w.asked.preflight != Some(true) then Rejected
      else if w.journal.state != Prepared
              && !(w.journal.state == Uncertain && w.op.retryUncertain
                   && w.asked.rejection == Some(None) && w.asked.receipt == Some(None)) then Rejected
      else
        var w' :- Write(w, DoTransition(Publishing, None));
        Success(w'.(op := Armed))
    case CallSubmit(outcome, landed) =>
      if w.op != Armed then Rejected else
      Success(w.(op := Answered(outcome), asked := w.asked.(submitted := Some(outcome)), submits := w.submits + 1,
                 published := w.published + if landed && !outcome.RequestError? then 1 else 0))
    case RefuseRequest =>
      if w.op != Answered(RequestError) then Rejected
      else
        var w' :- Write(w, DoTransition(Failed, Some(RequestFailure(w.journal.requestId))));
        Success(w'.(op := Held(false, false)))
    case RecordRejection(status) =>
      if !w.op.Held? || !w.op.submitting || w.journal.receipt.Some?
         || (w.journal.state != Publishing && w.journal.state != Uncertain)
         || w.asked.rejection != Some(Some(status)) || status.requestId != w.journal.requestId then Rejected
      else
        var w' :- Write(w, DoTransition(Failed, Some(status)));
        Success(w'.(forged := w.forged + if PrepublicationShape(status) then 1 else 0))
    case OpWrite(op) =>
      if !w.op.Held? && !(w.op.Answered? && w.op != Answered(RequestError)) then Rejected
      else if !WriteAllowed(w, op) then Rejected
      else Write(w, op)
    case AckAcquire => if w.ack != AckFree then Rejected else Success(w.(ack := AckHeld, ackRaised := false))
    case AckRelease => Success(w.(ack := AckFree))
    case AckFails => Success(w.(ackRaised := true))
    case AckAccept(receipt, status, retained, index) =>
      if w.ack != AckHeld || !Terminal(w.journal.state) then Rejected
      else Write(w, DoAccept(receipt, status, retained, index))
    case AckCheck(eventId, index) =>
      if w.ack != AckHeld || RequireTerminalAcceptance(w.journal, eventId, index).Rejected?
      then Rejected
      else Success(w.(ack := AckChecked(eventId)))
    case AckBegin =>
      if !w.ack.AckChecked? then Rejected
      else
        var w' :- Write(w, DoRecordAck(w.ack.eventId, true, false, ""));
        Success(w'.(ack := AckBegun(w.ack.eventId)))
    case AckCallTransport(verdict) =>
      if !w.ack.AckBegun? then Rejected else
      Success(w.(ack := AckAnswered(w.ack.eventId, verdict),
                 ackCalls := w.ackCalls + [AckCall(w.ack.eventId, w.journal, verdict)],
                 confirmed := w.confirmed + if verdict == Some(true) then {w.ack.eventId} else {}))
    case AckRecord(error) =>
      if !w.ack.AckAnswered? then Rejected
      else
        var w' :- Write(w, DoRecordAck(w.ack.eventId, false, w.ack.verdict == Some(true), error));
        Success(w'.(ack := AckHeld))
    case Watchdog(target, status) =>
      if w.journal.receipt.None? || Terminal(target) || target == Prepared then Rejected
      else Write(w, DoTransition(target, Some(status)))
  }

  function Initial(requestId: string): World {
    World(Fresh(requestId), OpFree, NOT_ASKED, AckFree, false, 0, 0, 0, 0, [], {})
  }

  /** A run: every step must be possible when it is taken. */
  function Exec(w: World, steps: seq<Step>): Result<World>
    decreases |steps|
  {
    if steps == [] then Success(w)
    else
      var w' :- Apply(w, steps[0]);
      Exec(w', steps[1..])
  }

  predicate Reachable(requestId: string, steps: seq<Step>, w: World) {
    Exec(Initial(requestId), steps) == Success(w)
  }

  lemma {:induction false} ExecConcat(w: World, first: seq<Step>, second: seq<Step>)
    requires Exec(w, first).Success?
    ensures Exec(w, first + second) == Exec(Exec(w, first).value, second)
    decreases |first|
  {
    if first == [] {
      assert first + second == second;
    } else {
      assert (first + second)[1..] == first[1..] + second;
      ExecConcat(Apply(w, first[0]).value, first[1..], second);
    }
  }

  // ----- The invariant -----

  /** The right to one more publication without a retry: the request was never published, or it
      failed before publication and can be resumed, or a started publication has not landed. */
  function Token(w: World): nat {
    if w.journal.state == Prepared || Resumable(w.journal)
       || w.op == Armed || w.op == Answered(RequestError) then 1 else 0
  }

  /** A retry that was asked for and not yet used. */
  function Credit(w: World): nat {
    if w.op == Held(true, true) then 1 else 0
  }

  predicate Unpublishable(j: Journal) {
    j.state == Publishing && j.receipt.None?
  }

  predicate DeliveryJustified(j: Journal, confirmed: set<EventId>) {
    j.ack.Some? && j.ack.value.delivered ==>
      || j.ack.value.eventId in confirmed
      || (j.ack.value.priorObservation && j.remote.Some?
          && j.remote.value.metrics.returnPathReady == Some(true))
  }

  predicate AckCallsJustified(calls: seq<AckCall>) {
    forall k :: 0 <= k < |calls| ==>
      ReadTerminalAcceptance(calls[k].journal, calls[k].eventId).Success?
  }

  predicate AckPhaseJustified(w: World) {
    && (w.ack.AckChecked? || w.ack.AckBegun? || w.ack.AckAnswered? ==>
          HoldsAcceptance(w.journal, w.ack.eventId))
    && (w.ack.AckAnswered? && w.ack.verdict == Some(true) ==> w.ack.eventId in w.confirmed)
  }

  predicate StatesHaveReceipts(j: Journal) {
    && (NeedsReceipt(j.state) ==> j.receipt.Some?)
    && (j.state == Prepared ==> j.remote.None? && j.receipt.None?)
  }

  /** Publications made and still possible, against what was asked for.  No step raises it. */
  function Potential(w: World): int {
    w.published + Token(w) + Credit(w) - w.retries - w.forged
  }

  predicate OpPhaseJustified(w: World) {
    && (w.op == Armed ==> Unpublishable(w.journal) && w.journal.cancellation.None?)
    && (w.op == Answered(RequestError) ==> Unpublishable(w.journal))
    && (w.op.Answered? && w.journal.receipt.None? ==> OutcomeKnown(w))
  }

  /** What is recorded while the answer of transport.submit is dealt with: a failure only for an
      admission error, and an outcome that is not known stays uncertain. */
  predicate OutcomeKnown(w: World)
    requires w.op.Answered?
  {
    && (w.op.outcome.OtherError? || w.op.outcome.Answer? ==>
          w.journal.state == Publishing || w.journal.state == Uncertain)
    && (w.op.outcome.AdmissionError? ==>
          || w.journal.state == Publishing
          || (w.journal.state == Failed
              && w.journal.remote == Some(AdmissionFailure(w.journal.requestId, w.op.outcome.code))))
  }

  predicate AckJustified(w: World) {
    && AckPhaseJustified(w) && AckCallsJustified(w.ackCalls)
    && DeliveryJustified(w.journal, w.confirmed)
  }

  predicate Inv(w: World) {
    && Coherent(w.journal) && StatesHaveReceipts(w.journal)
    && OpPhaseJustified(w) && AckJustified(w)
  }

  lemma InitialInv(requestId: string)
    ensures Inv(Initial(requestId))
  {
    FreshIsCoherent(requestId);
  }

  /** The journal write that a step makes, if it makes one. */
  function WriteOf(w: World, step: Step): Option<JournalOp> {
    match step
    case StartPublish => Some(DoTransition(Publishing, None))
    case RefuseRequest => Some(DoTransition(Failed, Some(RequestFailure(w.journal.requestId))))
    case RecordRejection(status) => Some(DoTransition(Failed, Some(status)))
    case OpWrite(op) => Some(op)
    case Watchdog(target, status) => Some(DoTransition(target, Some(status)))
    case AckAccept(receipt, status, retained, index) => Some(DoAccept(receipt, status, retained, index))
    case AckBegin =>
      if w.ack.AckChecked? then Some(DoRecordAck(w.ack.eventId, true, false, "")) else None
    case AckRecord(error) =>
      if w.ack.AckAnswered?
      then Some(DoRecordAck(w.ack.eventId, false, w.ack.verdict == Some(true), error)) else None
    case _ => None
  }

  lemma StepWrites(w: World, step: Step)
    requires Apply(w, step).Success?
    ensures var w' := Apply(w, step).value; var op := WriteOf(w, step);
            if op.None? then w'.journal == w.journal
            else Perform(w.journal, op.value) == Success(w'.journal)
  {
  }

  lemma CoherentStep(w: World, step: Step)
    requires Coherent(w.journal) && Apply(w, step).Success?
    ensures Coherent(Apply(w, step).value.journal)
  {
    StepWrites(w, step);
    if WriteOf(w, step).Some? {
      PerformKeepsCoherent(w.journal, WriteOf(w, step).value);
    }
  }

  /** What the invariants below need to know about a write. */
  predicate WriteEffect(j: Journal, op: JournalOp, j': Journal) {
    && j'.requestId == j.requestId
    && (j'.receipt == j.receipt || (op.DoAttachReceipt? && j'.receipt.Some?))
    && (j'.cancellation == j.cancellation || (op.DoRequestCancellation? && j.cancellation.None?))
    && (match op
        case DoTransition(target, remote) =>
          j'.state == target && j'.remote == if remote.Some? then remote else j.remote
        case DoResume =>
          if Resumable(j) then j'.state == Prepared && j'.remote == None
          else j'.state == j.state && j'.remote == j.remote
        case DoAccept(_, _, _, _) => j'.receipt.Some? && Terminal(j'.state)
        case DoRecordAck(_, _, _, _) =>
          j'.state == j.state && j.ack.Some? && j'.receipt == j.receipt
        case _ => j'.state == j.state && j'.remote == j.remote)
  }

  lemma WriteHasEffect(j: Journal, op: JournalOp)
    requires Perform(j, op).Success?
    ensures WriteEffect(j, op, Perform(j, op).value)
  {
  }

  /** A step seen from outside the journal: its guard, its effect on phases and counters, and the
      effect of its write. */
  predicate Skeleton(w: World, step: Step, w': World) {
    && (match WriteOf(w, step)
        case None => w'.journal == w.journal
        case Some(op) => WriteEffect(w.journal, op, w'.journal))
    && (match step
        case Acquire(submitting, retry) =>
          && w'.op == Held(submitting, retry)
          && w' == w.(op := w'.op, asked := NOT_ASKED, retries := w.retries + if submitting && retry then 1 else 0)
        case Release => w' == w.(op := OpFree)
        case StartPublish =>
          && w.op.Held? && w.op.submitting && w.journal.receipt.None? && w.journal.cancellation.None?
          && (w.journal.state == Prepared || w.op == Held(true, true))
          && w' == w.(op := Armed, journal := w'.journal)
        case CallSubmit(outcome, landed) =>
          && w.op == Armed
          && w' == w.(op := Answered(outcome), asked := w.asked.(submitted := Some(outcome)), submits := w.submits + 1,
                      published := w.published + if landed && !outcome.RequestError? then 1 else 0)
        case RefuseRequest =>
          w.op == Answered(RequestError) && w' == w.(op := Held(false, false), journal := w'.journal)
        case RecordRejection(status) =>
          && w.op.Held? && status.requestId == w.journal.requestId && w.asked.rejection == Some(Some(status))
          && w' == w.(journal := w'.journal,
                      forged := w.forged + if PrepublicationShape(status) then 1 else 0)
        case OpWrite(op) =>
          && (w.op.Held? || w.op.Answered?) && w.op != Answered(RequestError)
          && WriteAllowed(w, op) && w' == w.(journal := w'.journal)
        case Watchdog(target, _) =>
          && w.journal.receipt.Some? && !Terminal(target) && target != Prepared
          && w' == w.(journal := w'.journal)
        case AckAccept(_, _, _, _) => Terminal(w.journal.state) && w' == w.(journal := w'.journal)
        case AskPreflight(_) => w' == w.(asked := w'.asked)
        case AskRejection(_) => w' == w.(asked := w'.asked)
        case AskReceipt(_) => w' == w.(asked := w'.asked)
        case AskStatus(_) => w' == w.(asked := w'.asked)
        case AskFails => w' == w.(asked := w'.asked)
        case _ => w' == w.(journal := w'.journal, ack := w'.ack, ackRaised := w'.ackRaised,
                           ackCalls := w'.ackCalls, confirmed := w'.confirmed))
  }

  lemma StepHasSkeleton(w: World, step: Step)
    requires Apply(w, step).Success?
    ensures Skeleton(w, step, Apply(w, step).value)
  {
    StepWrites(w, step);
    if WriteOf(w, step).Some? {
      WriteHasEffect(w.journal, WriteOf(w, step).value);
    }
  }

  predicate AckNeedsReceipt(j: Journal) {
    j.ack.Some? ==> j.receipt.Some? && Terminal(j.state)
  }

  lemma PhaseStep(w: World, step: Step, w': World)
    requires OpPhaseJustified(w) && StatesHaveReceipts(w.journal) && AckNeedsReceipt(w.journal)
    requires Skeleton(w, step, w')
    ensures OpPhaseJustified(w') && StatesHaveReceipts(w'.journal)
  {
  }

  lemma PotentialStep(w: World, step: Step, w': World)
    requires OpPhaseJustified(w) && AckNeedsReceipt(w.journal)
    requires Skeleton(w, step, w')
    ensures Potential(w') <= Potential(w)
  {
  }

  lemma AckWriteStep(j: Journal, op: JournalOp, confirmed: set<EventId>)
    requires Coherent(j) && Perform(j, op).Success? && DeliveryJustified(j, confirmed)
    requires op.DoRecordAck? && op.acknowledged ==> op.eventId in confirmed
    ensures var j' := Perform(j, op).value;
            && DeliveryJustified(j', confirmed)
            && (forall e :: HoldsAcceptance(j, e) ==> HoldsAcceptance(j', e))
  {
    if j.retention.Some? {
      AcceptedIsFrozen(j, op);
    }
  }

  lemma OneMoreAckCall(calls: seq<AckCall>, call: AckCall)
    requires AckCallsJustified(calls) && ReadTerminalAcceptance(call.journal, call.eventId).Success?
    ensures AckCallsJustified(calls + [call])
  {
  }

  lemma AckCallStep(w: World, step: Step)
    requires Coherent(w.journal) && AckJustified(w) && Apply(w, step).Success?
    requires step.AckCallTransport?
    ensures AckJustified(Apply(w, step).value)
  {
    HeldReadsBack(w.journal, w.ack.eventId);
    OneMoreAckCall(w.ackCalls, AckCall(w.ack.eventId, w.journal, step.verdict));
    AckAnswerStep(w, step.verdict, Apply(w, step).value);
  }

  lemma HeldReadsBack(j: Journal, eventId: EventId)
    requires Coherent(j) && HoldsAcceptance(j, eventId)
    ensures ReadTerminalAcceptance(j, eventId).Success?
  {
    AcceptanceReadsBack(j, eventId);
  }

  lemma AckAnswerStep(w: World, verdict: Option<bool>, w': World)
    requires AckPhaseJustified(w) && DeliveryJustified(w.journal, w.confirmed)
    requires Apply(w, AckCallTransport(verdict)) == Success(w')
    ensures AckPhaseJustified(w') && DeliveryJustified(w'.journal, w'.confirmed)
    ensures w'.ackCalls == w.ackCalls + [AckCall(w.ack.eventId, w.journal, verdict)]
  {
  }

  lemma AckPhaseStep(w: World, step: Step, w': World)
    requires AckPhaseJustified(w) && Apply(w, step) == Success(w') && !step.AckCallTransport?
    requires forall e :: HoldsAcceptance(w.journal, e) ==> HoldsAcceptance(w'.journal, e)
    ensures AckPhaseJustified(w')
    ensures w'.ackCalls == w.ackCalls && w'.confirmed == w.confirmed
  {
  }

  lemma AckStep(w: World, step: Step)
    requires Coherent(w.journal) && AckJustified(w) && Apply(w, step).Success?
    ensures AckJustified(Apply(w, step).value)
  {
    if step.AckCallTransport? {
      AckCallStep(w, step);
    } else {
      var w' := Apply(w, step).value;
      var op := WriteOf(w, step);
      assert w'.journal == w.journal || (op.Some? && Perform(w.journal, op.value) == Success(w'.journal)) by {
        StepWrites(w, step);
      }
      if op.Some? {
        AckWriteStep(w.journal, op.value, w.confirmed);
      }
      AckPhaseStep(w, step, w');
    }
  }

  lemma StepKeepsInv(w: World, step: Step)
    requires Inv(w) && Apply(w, step).Success?
    ensures Inv(Apply(w, step).value)
  {
    CoherentStep(w, step);
    StepHasSkeleton(w, step);
    PhaseStep(w, step, Apply(w, step).value);
    AckStep(w, step);
  }

  lemma {:induction false} RunKeepsInv(w: World, steps: seq<Step>)
    requires Inv(w) && Exec(w, steps).Success?
    ensures Inv(Exec(w, steps).value)
    decreases |steps|
  {
    if steps != [] {
      StepKeepsInv(w, steps[0]);
      RunKeepsInv(Apply(w, steps[0]).value, steps[1..]);
    }
  }

  lemma ReachableInv(requestId: string, steps: seq<Step>, w: World)
    requires Reachable(requestId, steps, w)
    ensures Inv(w)
  {
    InitialInv(requestId);
    RunKeepsInv(Initial(requestId), steps);
  }

  // ----- Publication -----

  lemma {:induction false} PotentialOverRun(w: World, steps: seq<Step>)
    requires Inv(w) && Exec(w, steps).Success?
    ensures Potential(Exec(w, steps).value) <= Potential(w)
    decreases |steps|
  {
    if steps != [] {
      var w1 := Apply(w, steps[0]).value;
      StepHasSkeleton(w, steps[0]);
      PotentialStep(w, steps[0], w1);
      StepKeepsInv(w, steps[0]);
      PotentialOverRun(w1, steps[1..]);
    }
  }

  /** Over every run, with any crashes and any interleaving, a request is published at most once
      more often than its publication was retried on demand or reopened by a forged rejection. */
  lemma PublicationBounded(requestId: string, steps: seq<Step>, w: World)
    requires Reachable(requestId, steps, w)
    ensures w.published <= 1 + w.retries + w.forged
  {
    InitialInv(requestId);
    PotentialOverRun(Initial(requestId), steps);
  }

  /** The same for the rest of a run: from a world that has no unpublished right left, nothing is
      published again without a retry on demand or a forged rejection. */
  lemma PublicationBoundedFrom(requestId: string, before: seq<Step>, w: World, after: seq<Step>, w': World)
    requires Reachable(requestId, before, w) && Exec(w, after) == Success(w')
    requires w.journal.state != Prepared && !Resumable(w.journal) && w.op == OpFree
    ensures w'.published - w.published <= (w'.retries - w.retries) + (w'.forged - w.forged)
  {
    ReachableInv(requestId, before, w);
    PotentialOverRun(w, after);
  }

  lemma ExecSnoc(w: World, steps: seq<Step>, step: Step)
    requires Exec(w, steps).Success? && Apply(Exec(w, steps).value, step).Success?
    ensures Exec(w, steps + [step]) == Apply(Exec(w, steps).value, step)
  {
    ExecConcat(w, steps, [step]);
  }

  lemma {:induction false} TraceRuns(ws: seq<World>, steps: seq<Step>)
    requires |ws| == |steps| + 1
    requires forall i :: 0 <= i < |steps| ==> Apply(ws[i], steps[i]) == Success(ws[i + 1])
    ensures Exec(ws[0], steps) == Success(ws[|steps|])
    decreases |steps|
  {
    if steps != [] {
      TraceRuns(ws[1..], steps[1..]);
    }
  }

  /** The lock is taken and the transport asked what a publication must know: a passed preflight
      and, for a retry, that neither a rejection nor a receipt is known. */
  function Inquiries(retry: bool): seq<Step> {
    if retry then [Acquire(true, true), AskPreflight(true), AskRejection(None), AskReceipt(None)]
    else [Acquire(true, false), AskPreflight(true)]
  }

  /** One publication of unknown outcome: the request is left UNCERTAIN without a receipt. */
  function UnclearPublication(): seq<Step> {
    [StartPublish, CallSubmit(OtherError, true), OpWrite(DoTransition(Uncertain, None)), Release]
  }

  /** The answers that let a publication go on. */
  function Clear(retry: bool): Inquiry {
    NOT_ASKED.(preflight := Some(true), rejection := if retry then Some(None) else None,
               receipt := if retry then Some(None) else None)
  }

  function UncertainRound(retry: bool): seq<Step> {
    Inquiries(retry) + UnclearPublication()
  }

  lemma InquiriesClear(w: World, retry: bool) returns (w': World)
    requires w.op == OpFree
    ensures Exec(w, Inquiries(retry)) == Success(w')
    ensures w' == w.(op := Held(true, retry), asked := Clear(retry),
                     retries := w.retries + if retry then 1 else 0)
  {
    var all := Inquiries(retry);
    var w1 := Apply(w, all[0]).value;
    var w2 := Apply(w1, all[1]).value;
    if retry {
      var w3 := Apply(w2, all[2]).value;
      w' := Apply(w3, all[3]).value;
      TraceRuns([w, w1, w2, w3, w'], all);
    } else {
      w' := w2;
      TraceRuns([w, w1, w2], all);
    }
  }

  lemma UnclearWrites(j: Journal)
    requires (j.state == Prepared || j.state == Uncertain) && j.receipt.None? && j.cancellation.None?
    ensures Perform(j, DoTransition(Publishing, None)).Success?
    ensures var j' := Perform(j, DoTransition(Publishing, None)).value;
            && Unpublishable(j') && j'.cancellation.None? && j'.requestId == j.requestId
            && Perform(j', DoTransition(Uncertain, None)).Success?
  {
  }

  lemma PublicationStarts(w: World, retry: bool) returns (w': World)
    requires w.op == Held(true, retry) && w.asked == Clear(retry)
    requires w.journal.receipt.None? && w.journal.cancellation.None?
    requires w.journal.state == Prepared || (w.journal.state == Uncertain && retry)
    ensures Apply(w, StartPublish) == Success(w')
    ensures w' == w.(op := Armed, journal := w'.journal) && w'.journal.requestId == w.journal.requestId
    ensures Unpublishable(w'.journal) && w'.journal.cancellation.None?
  {
    UnclearWrites(w.journal);
    w' := Apply(w, StartPublish).value;
  }

  lemma UnclearIsRecorded(w: World) returns (w': World)
    requires w.op == Answered(OtherError) && Unpublishable(w.journal)
    ensures Apply(w, OpWrite(DoTransition(Uncertain, None))) == Success(w')
    ensures w' == w.(journal := w'.journal) && w'.journal == w.journal.(state := Uncertain, events := w'.journal.events)
  {
    w' := Apply(w, OpWrite(DoTransition(Uncertain, None))).value;
  }

  lemma UnclearPublicationRuns(w: World, retry: bool) returns (w': World)
    requires w.op == Held(true, retry) && w.asked == Clear(retry)
    requires w.journal.receipt.None? && w.journal.cancellation.None?
    requires w.journal.state == Prepared || (w.journal.state == Uncertain && retry)
    ensures Exec(w, UnclearPublication()) == Success(w')
    ensures w'.op == OpFree && w'.journal.receipt.None? && w'.journal.cancellation.None?
    ensures w'.journal.state == Uncertain && w'.forged == w.forged
    ensures w'.journal.requestId == w.journal.requestId
    ensures w'.published == w.published + 1 && w'.retries == w.retries
  {
    var all := UnclearPublication();
    var w1 := PublicationStarts(w, retry);
    var w2 := Apply(w1, all[1]).value;
    var w3 := UnclearIsRecorded(w2);
    w' := Apply(w3, all[3]).value;
    TraceRuns([w, w1, w2, w3, w'], all);
  }

  lemma RoundPublishes(w: World, retry: bool) returns (w': World)
    requires w.op == OpFree && w.journal.receipt.None? && w.journal.cancellation.None?
    requires w.journal.state == Prepared || (w.journal.state == Uncertain && retry)
    ensures Exec(w, UncertainRound(retry)) == Success(w')
    ensures w'.op == OpFree && w'.journal.receipt.None? && w'.journal.cancellation.None?
    ensures w'.journal.state == Uncertain && w'.forged == w.forged
    ensures w'.journal.requestId == w.journal.requestId
    ensures w'.published == w.published + 1 && w'.retries == w.retries + if retry then 1 else 0
  {
    var ready := InquiriesClear(w, retry);
    w' := UnclearPublicationRuns(ready, retry);
    ExecConcat(w, Inquiries(retry), UnclearPublication());
  }

  /** The bound is exact: with n retries on demand a request can be published n + 1 times. */
  lemma {:induction false} BoundIsReached(requestId: string, n: nat) returns (steps: seq<Step>, w: World)
    ensures Reachable(requestId, steps, w)
    ensures w.retries == n && w.forged == 0 && w.published == n + 1
    ensures w.op == OpFree && w.journal.state == Uncertain && w.journal.requestId == requestId
    ensures w.journal.receipt.None? && w.journal.cancellation.None?
  {
    if n == 0 {
      w := RoundPublishes(Initial(requestId), false);
      steps := UncertainRound(false);
    } else {
      var shorter, w0 := BoundIsReached(requestId, n - 1);
      w := RoundPublishes(w0, true);
      steps := shorter + UncertainRound(true);
      ExecConcat(Initial(requestId), shorter, UncertainRound(true));
    }
  }

  predicate RejectionsFrom(steps: seq<Step>, rejections: set<Status>) {
    forall i :: 0 <= i < |steps| && steps[i].RecordRejection? ==> steps[i].status in rejections
  }

  lemma ForgedStep(w: World, step: Step, w': World)
    requires Skeleton(w, step, w')
    ensures w'.journal.requestId == w.journal.requestId
    ensures w'.forged > w.forged ==>
              && step.RecordRejection? && step.status.requestId == w.journal.requestId
              && PrepublicationShape(step.status)
    ensures w.forged <= w'.forged
  {
  }

  lemma {:induction false} HonestRejectionsForgeNothing(w: World, steps: seq<Step>, rejections: set<Status>)
    requires RejectionsFrom(steps, rejections) && Exec(w, steps).Success?
    requires forall s :: s in rejections && s.requestId == w.journal.requestId ==> !PrepublicationShape(s)
    ensures Exec(w, steps).value.forged == w.forged
    decreases |steps|
  {
    if steps != [] {
      var w1 := Apply(w, steps[0]).value;
      StepHasSkeleton(w, steps[0]);
      ForgedStep(w, steps[0], w1);
      HonestRejectionsForgeNothing(w1, steps[1..], rejections);
    }
  }

  /** The rejection is reported to a submit, which records it. */
  function Rejection(rejection: Status): seq<Step> {
    [Acquire(true, false), AskRejection(Some(rejection)), RecordRejection(rejection), Release]
  }

  lemma RejectionIsRecorded(w: World, rejection: Status) returns (w': World)
    requires w.op == OpFree && w.journal.receipt.None? && w.journal.cancellation.None?
    requires w.journal.state == Uncertain && rejection.requestId == w.journal.requestId
    ensures Exec(w, Rejection(rejection)) == Success(w')
    ensures w'.op == OpFree && w'.journal.receipt.None? && w'.journal.cancellation.None?
    ensures w'.journal.state == Failed && w'.journal.remote == Some(rejection)
    ensures w'.retries == w.retries && w'.published == w.published && w'.journal.requestId == w.journal.requestId
  {
    var all := Rejection(rejection);
    var w1 := Apply(w, all[0]).value;
    var w2 := Apply(w1, all[1]).value;
    var w3 := Apply(w2, all[2]).value;
    w' := Apply(w3, all[3]).value;
    TraceRuns([w, w1, w2, w3, w'], all);
  }

  function Resumed(): seq<Step> {
    [Acquire(false, false), OpWrite(DoResume), Release]
  }

  lemma FailureIsResumed(w: World) returns (w': World)
    requires w.op == OpFree && Resumable(w.journal) && w.journal.cancellation.None?
    ensures Exec(w, Resumed()) == Success(w')
    ensures w'.op == OpFree && w'.journal.receipt.None? && w'.journal.cancellation.None?
    ensures w'.journal.state == Prepared && w'.retries == w.retries && w'.published == w.published
  {
    var all := Resumed();
    var w1 := Apply(w, all[0]).value;
    var w2 := Apply(w1, all[1]).value;
    w' := Apply(w2, all[2]).value;
    TraceRuns([w, w1, w2, w'], all);
  }

  /** A rejection that looks like a failure before publication lets a published request be
      resumed and published again although no retry was asked for. */
  lemma ForgedRejectionRepublishes(requestId: string, rejection: Status)
    returns (steps: seq<Step>, w: World)
    requires rejection.requestId == requestId && PrepublicationShape(rejection)
    ensures Reachable(requestId, steps, w) && RejectionsFrom(steps, {rejection})
    ensures w.retries == 0 && w.published == 2
  {
    var w0 := RoundPublishes(Initial(requestId), false);
    var w1 := RejectionIsRecorded(w0, rejection);
    var w2 := FailureIsResumed(w1);
    w := RoundPublishes(w2, false);
    var round, more := UncertainRound(false), Rejection(rejection) + Resumed();
    ExecConcat(w0, Rejection(rejection), Resumed());
    ExecConcat(Initial(requestId), round, more);
    ExecConcat(Initial(requestId), round + more, round);
    steps := round + more + round;
  }

  /** Exactly when the documented bound of one publication plus the retries on demand holds: the
      transport must report no rejection that carries the shape of a failure before publication. */
  lemma BoundHoldsExactly(requestId: string, rejections: set<Status>)
    ensures (forall steps, w :: Reachable(requestId, steps, w) && RejectionsFrom(steps, rejections)
               ==> w.published <= 1 + w.retries)
            <==>
            (forall s :: s in rejections && s.requestId == requestId ==> !PrepublicationShape(s))
  {
    if forall s :: s in rejections && s.requestId == requestId ==> !PrepublicationShape(s) {
      forall steps, w | Reachable(requestId, steps, w) && RejectionsFrom(steps, rejections)
        ensures w.published <= 1 + w.retries
      {
        PublicationBounded(requestId, steps, w);
        HonestRejectionsForgeNothing(Initial(requestId), steps, rejections);
      }
    } else {
      var s :| s in rejections && s.requestId == requestId && PrepublicationShape(s);
      var steps, w := ForgedRejectionRepublishes(requestId, s);
      assert RejectionsFrom(steps, rejections);
    }
  }

  // ----- What can be resumed -----

  /** A request that can be resumed was published no more often than retries and forged rejections
      account for. */
  lemma ResumableBounded(requestId: string, steps: seq<Step>, w: World)
    requires Reachable(requestId, steps, w) && Resumable(w.journal)
    ensures w.published <= w.retries + w.forged
  {
    InitialInv(requestId);
    PotentialOverRun(Initial(requestId), steps);
  }

  /** A retry that transport.submit refuses before it publishes again. */
  function RefusedPublication(): seq<Step> {
    [StartPublish, CallSubmit(RequestError, false), RefuseRequest, Release]
  }

  lemma RefusalIsRecorded(w: World) returns (w': World)
    requires w.op == Answered(RequestError) && Unpublishable(w.journal)
    ensures Apply(w, RefuseRequest) == Success(w') && Resumable(w'.journal)
    ensures w' == w.(op := Held(false, false), journal := w'.journal)
  {
    w' := Apply(w, RefuseRequest).value;
  }

  lemma RefusedPublicationRuns(w: World) returns (w': World)
    requires w.op == Held(true, true) && w.asked == Clear(true)
    requires w.journal.receipt.None? && w.journal.cancellation.None? && w.journal.state == Uncertain
    ensures Exec(w, RefusedPublication()) == Success(w')
    ensures Resumable(w'.journal) && w'.published == w.published
    ensures w'.retries == w.retries && w'.forged == w.forged
  {
    var all := RefusedPublication();
    var w1 := PublicationStarts(w, true);
    var w2 := Apply(w1, all[1]).value;
    var w3 := RefusalIsRecorded(w2);
    w' := Apply(w3, all[3]).value;
    TraceRuns([w, w1, w2, w3, w'], all);
  }

  /** A retry of a published request that raises a request error leaves it resumable, as if it had
      never been published. */
  lemma RetryMakesPublishedResumable(requestId: string) returns (steps: seq<Step>, w: World)
    ensures Reachable(requestId, steps, w) && RejectionsFrom(steps, {})
    ensures Resumable(w.journal) && w.published == 1 && w.retries == 1 && w.forged == 0
  {
    var w0 := RoundPublishes(Initial(requestId), false);
    var w1 := InquiriesClear(w0, true);
    w := RefusedPublicationRuns(w1);
    var round, refused := UncertainRound(false), RefusedPublication();
    ExecConcat(Initial(requestId), round, Inquiries(true));
    ExecConcat(Initial(requestId), round + Inquiries(true), refused);
    steps := round + Inquiries(true) + refused;
  }

  /** So does a rejection that looks like a failure before publication, without any retry. */
  lemma RejectionMakesPublishedResumable(requestId: string, rejection: Status)
    returns (steps: seq<Step>, w: World)
    requires rejection.requestId == requestId && PrepublicationShape(rejection)
    ensures Reachable(requestId, steps, w) && RejectionsFrom(steps, {rejection})
    ensures Resumable(w.journal) && w.published == 1 && w.retries == 0
  {
    var w0 := RoundPublishes(Initial(requestId), false);
    w := RejectionIsRecorded(w0, rejection);
    ExecConcat(Initial(requestId), UncertainRound(false), Rejection(rejection));
    steps := UncertainRound(false) + Rejection(rejection);
  }

  /** In no reachable state, with at most n retries on demand, can a published request be resumed. */
  ghost predicate ResumeKeepsPromise(requestId: string, rejections: set<Status>, n: nat) {
    forall steps, w ::
      Reachable(requestId, steps, w) && RejectionsFrom(steps, rejections) && w.retries <= n && Resumable(w.journal)
      ==> w.published == 0
  }

  /** Exactly when only requests that were never published can be resumed: no retry on demand is
      made, and the transport reports no rejection shaped like a failure before publication. */
  lemma ResumePromiseExactly(requestId: string, rejections: set<Status>, n: nat)
    ensures ResumeKeepsPromise(requestId, rejections, n)
            <==> n == 0 && forall s :: s in rejections && s.requestId == requestId ==> !PrepublicationShape(s)
  {
    if n > 0 {
      var steps, w := RetryMakesPublishedResumable(requestId);
      assert RejectionsFrom(steps, rejections);
    } else if s :| s in rejections && s.requestId == requestId && PrepublicationShape(s) {
      var steps, w := RejectionMakesPublishedResumable(requestId, s);
      assert RejectionsFrom(steps, rejections);
    } else {
      forall steps, w |
        Reachable(requestId, steps, w) && RejectionsFrom(steps, rejections) && w.retries <= n && Resumable(w.journal)
        ensures w.published == 0
      {
        ResumableBounded(requestId, steps, w);
        HonestRejectionsForgeNothing(Initial(requestId), steps, rejections);
      }
    }
  }

  // ----- Why a request failed -----

  /** Whatever transport.submit last said to its caller, while that is dealt with: an outcome that may
      have been a publication is never recorded as a failure, and an admission error only as its own. */
  lemma UnknownOutcomeStaysUncertain(requestId: string, steps: seq<Step>, w: World)
    requires Reachable(requestId, steps, w) && w.op.Answered? && w.journal.receipt.None?
    ensures w.op.outcome.OtherError? || w.op.outcome.Answer? ==>
              w.journal.state == Publishing || w.journal.state == Uncertain
    ensures w.op.outcome.RequestError? ==> w.journal.state == Publishing
    ensures w.op.outcome.AdmissionError? ==>
              || w.journal.state == Publishing
              || (w.journal.state == Failed
                  && w.journal.remote == Some(AdmissionFailure(requestId, w.op.outcome.code)))
  {
    ReachableInv(requestId, steps, w);
    SameRequest(Initial(requestId), steps);
  }

  lemma {:induction false} SameRequest(w: World, steps: seq<Step>)
    requires Exec(w, steps).Success?
    ensures Exec(w, steps).value.journal.requestId == w.journal.requestId
    decreases |steps|
  {
    if steps != [] {
      StepHasSkeleton(w, steps[0]);
      SameRequest(Apply(w, steps[0]).value, steps[1..]);
    }
  }

  /** The causes for which a request without a receipt is failed. */
  ghost predicate FailedForCause(j: Journal, rejections: set<Status>) {
    && j.remote.Some?
    && (|| j.remote.value == PreflightFailure(j.requestId) || j.remote.value == RequestFailure(j.requestId)
        || j.remote.value in rejections
        || exists code :: j.remote.value == AdmissionFailure(j.requestId, code))
  }

  ghost predicate FailureHasCause(j: Journal, rejections: set<Status>) {
    j.state == Failed && j.receipt.None? ==> FailedForCause(j, rejections)
  }

  lemma CauseStep(w: World, step: Step, w': World, rejections: set<Status>)
    requires Inv(w) && FailureHasCause(w.journal, rejections) && Skeleton(w, step, w')
    requires step.RecordRejection? ==> step.status in rejections
    ensures FailureHasCause(w'.journal, rejections)
  {
  }

  lemma {:induction false} CauseOverRun(w: World, steps: seq<Step>, rejections: set<Status>)
    requires Inv(w) && FailureHasCause(w.journal, rejections) && Exec(w, steps).Success?
    requires RejectionsFrom(steps, rejections)
    ensures FailureHasCause(Exec(w, steps).value.journal, rejections)
    decreases |steps|
  {
    if steps != [] {
      var w1 := Apply(w, steps[0]).value;
      StepHasSkeleton(w, steps[0]);
      CauseStep(w, steps[0], w1, rejections);
      StepKeepsInv(w, steps[0]);
      CauseOverRun(w1, steps[1..], rejections);
    }
  }

  /** Over every run: a request that failed without a receipt failed its preflight, was refused before
      its publication, was refused by the endpoint, or was rejected as the transport reported.  So an
      interrupted or unknown publication is never turned into a failure by the gateway itself. */
  lemma FailuresHaveCauses(requestId: string, steps: seq<Step>, rejections: set<Status>, w: World)
    requires Reachable(requestId, steps, w) && RejectionsFrom(steps, rejections)
    requires w.journal.state == Failed && w.journal.receipt.None?
    ensures w.journal.remote.Some?
    ensures w.journal.remote.value in {PreflightFailure(requestId), RequestFailure(requestId)}
            || w.journal.remote.value in rejections
            || exists code :: w.journal.remote.value == AdmissionFailure(requestId, code)
  {
    InitialInv(requestId);
    CauseOverRun(Initial(requestId), steps, rejections);
    SameRequest(Initial(requestId), steps);
  }

  // ----- Cancellation -----

  lemma CancelledStep(w: World, step: Step, w': World)
    requires w.journal.cancellation.Some? && w.op != Armed
    requires Skeleton(w, step, w')
    ensures w'.journal.cancellation.Some? && w'.op != Armed
    ensures w'.submits == w.submits && w'.published == w.published
  {
  }

  /** Once a cancellation intent is durable, transport.submit is never entered again. */
  lemma {:induction false} CancellationStopsPublication(w: World, steps: seq<Step>)
    requires Inv(w) && w.journal.cancellation.Some? && Exec(w, steps).Success?
    ensures var w' := Exec(w, steps).value;
            && w'.submits == w.submits && w'.published == w.published
            && w'.journal.cancellation.Some?
    decreases |steps|
  {
    if steps != [] {
      var w1 := Apply(w, steps[0]).value;
      StepHasSkeleton(w, steps[0]);
      CancelledStep(w, steps[0], w1);
      StepKeepsInv(w, steps[0]);
      CancellationStopsPublication(w1, steps[1..]);
    }
  }

  // ----- Acceptance and acknowledgement -----

  /** From its acceptance on, over every continuation, a terminal keeps its state, receipt, event,
      retention and result, its acknowledgement never regresses, and the acceptance reads back. */
  lemma {:induction false} AcceptanceIsForever(w: World, steps: seq<Step>)
    requires Inv(w) && w.journal.retention.Some? && Exec(w, steps).Success?
    ensures var w' := Exec(w, steps).value;
            && FrozenSince(w.journal, w'.journal)
            && ReadTerminalAcceptance(w'.journal, w.journal.retention.value.eventId)
               == Success(w'.journal)
    decreases |steps|
  {
    if steps == [] {
      AcceptanceReadsBack(w.journal, w.journal.retention.value.eventId);
    } else {
      var w1 := Apply(w, steps[0]).value;
      StepWrites(w, steps[0]);
      if WriteOf(w, steps[0]).Some? {
        AcceptedIsFrozen(w.journal, WriteOf(w, steps[0]).value);
      }
      StepKeepsInv(w, steps[0]);
      AcceptanceIsForever(w1, steps[1..]);
    }
  }

  /** transport.acknowledge is called only while the journal durably holds the exact terminal,
      and an acknowledgement is recorded as delivered only after the transport confirmed that
      event or the accepted status itself had observed the return path. */
  lemma AcknowledgementJustified(requestId: string, steps: seq<Step>, w: World)
    requires Reachable(requestId, steps, w)
    ensures forall k :: 0 <= k < |w.ackCalls| ==>
              var call := w.ackCalls[k];
              && HoldsAcceptance(call.journal, call.eventId)
              && ReadTerminalAcceptance(call.journal, call.eventId).Success?
    ensures w.journal.ack.Some? && w.journal.ack.value.delivered ==>
              || w.journal.ack.value.eventId in w.confirmed
              || (w.journal.ack.value.priorObservation && w.journal.remote.Some?
                  && w.journal.remote.value.metrics.returnPathReady == Some(true))
  {
    ReachableInv(requestId, steps, w);
  }

  /** An event is confirmed only by a transport.acknowledge call made for it. */
  lemma {:induction false} ConfirmedWasCalled(w: World, steps: seq<Step>)
    requires Exec(w, steps).Success?
    requires forall e :: e in w.confirmed ==> exists k :: 0 <= k < |w.ackCalls| && w.ackCalls[k].eventId == e
    ensures var w' := Exec(w, steps).value;
            forall e :: e in w'.confirmed ==> exists k :: 0 <= k < |w'.ackCalls| && w'.ackCalls[k].eventId == e
    decreases |steps|
  {
    if steps != [] {
      var w1 := Apply(w, steps[0]).value;
      forall e | e in w1.confirmed
        ensures exists k :: 0 <= k < |w1.ackCalls| && w1.ackCalls[k].eventId == e
      {
        if e in w.confirmed {
          var k :| 0 <= k < |w.ackCalls| && w.ackCalls[k].eventId == e;
          assert w1.ackCalls[k] == w.ackCalls[k];
        } else {
          assert w1.ackCalls[|w.ackCalls|].eventId == e;
        }
      }
      ConfirmedWasCalled(w1, steps[1..]);
    }
  }

  /** In every reachable world the event list is a connected walk from PREPARED to the state. */
  lemma EventsAreAWalk(requestId: string, steps: seq<Step>, w: World)
    requires Reachable(requestId, steps, w)
    ensures IsWalk(w.journal.events, w.journal.state)
  {
    ReachableInv(requestId, steps, w);
  }
}

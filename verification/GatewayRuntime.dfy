/** The gateway operations as the code writes them, with a process that can die at every journal
    write and transport call and with the other lock holders running in between.  Each operation
    is proved to take only steps of the protocol, so that its theorems hold of the code. */
module GatewayRuntimes {
  import opened Wrappers
  import opened GatewayContracts
  import opened RunJournals
  import opened GatewayProtocol

  function ProgressRank(s: TestState): nat {
    match s
    case Accepted => 1
    case Running => 2
    case Collecting => 3
    case _ => 0
  }

  /** A remote status that lags behind the local progress does not move the request back. */
  function TargetState(local: TestState, remote: TestState): TestState {
    if 0 < ProgressRank(local) && 0 < ProgressRank(remote) && ProgressRank(remote) < ProgressRank(local)
    then local else remote
  }

  /** A report that is behind the progress that is already known. */
  predicate Lags(reported: TestState, known: TestState) {
    || (reported == Accepted && (known == Running || known == Collecting))
    || (reported == Running && known == Collecting)
  }

  /** A report is recorded as it is unless it lags; and between accepted, running and collecting every
      report can be recorded. */
  lemma ReportsOfProgressAreRecorded(local: TestState, reported: TestState)
    ensures TargetState(local, reported) == if Lags(reported, local) then local else reported
    ensures local in {Accepted, Running, Collecting} && reported in {Accepted, Running, Collecting} ==>
              TargetState(local, reported) == local || TargetState(local, reported) in AllowedTransitions(local)
  {
  }

  predicate WatchdogApplicable(data: Journal) {
    data.remote.Some? && data.remote.value.metrics.engineRunning
    && !data.remote.value.metrics.heartbeatFresh
  }

  const NO_PROGRESS: string := "no-progress-watchdog"

  /** What the watchdog writes: the status it saw, in the state it saw, with its own classification. */
  function NoProgress(observed: Status, state: TestState): Status {
    observed.(state := state, classification := NO_PROGRESS)
  }

  /** The engine was seen running without a fresh heartbeat. */
  predicate ReportsNoProgress(status: Status) {
    status.classification == NO_PROGRESS && status.metrics.engineRunning && !status.metrics.heartbeatFresh
  }

  predicate AckSide(step: Step) {
    step.AckAcquire? || step.AckRelease? || step.AckAccept? || step.AckCheck? || step.AckBegin?
    || step.AckCallTransport? || step.AckRecord? || step.AckFails?
  }

  /** What stays true for the holder of the operation lock while the others run. */
  predicate StableForOperation(w: World, w': World) {
    && w'.op == w.op && w'.asked == w.asked && w'.submits == w.submits && w'.published == w.published
    && w'.retries == w.retries && w'.forged == w.forged
    && w'.journal.receipt == w.journal.receipt
    && w'.journal.cancellation == w.journal.cancellation
    && (w.journal.receipt.None? ==> w'.journal == w.journal)
    && (Terminal(w.journal.state) ==> w'.journal.state == w.journal.state)
    && (Terminal(w'.journal.state) ==> Terminal(w.journal.state))
    && (w.journal.retention.Some? ==> w'.journal.retention == w.journal.retention)
    && (Terminal(w.journal.state) && w'.journal.retention.None? ==> w'.journal.remote == w.journal.remote)
  }

  /** What stays true for the holder of the acknowledgement lock while the others run. */
  predicate StableForAck(w: World, w': World) {
    && w'.ack == w.ack && w'.ackRaised == w.ackRaised && w'.ackCalls == w.ackCalls && w'.confirmed == w.confirmed
    && (w.journal.retention.Some? ==> FrozenSince(w.journal, w'.journal) && w'.journal.ack == w.journal.ack)
    && (Terminal(w.journal.state) && w.journal.receipt.Some? ==>
          w'.journal.state == w.journal.state && w'.journal.receipt == w.journal.receipt)
  }

  lemma OtherStepIsStable(w: World, step: Step)
    requires Inv(w) && Apply(w, step).Success?
    ensures AckSide(step) || step.Watchdog? ==> StableForOperation(w, Apply(w, step).value)
    ensures !AckSide(step) ==> StableForAck(w, Apply(w, step).value)
    ensures Apply(w, step).value.journal.requestId == w.journal.requestId
  {
    var w' := Apply(w, step).value;
    StepHasSkeleton(w, step);
    if AckSide(step) || step.Watchdog? {
      AckSideIsStable(w, step, w');
    }
    if !AckSide(step) {
      OperationSideIsStable(w, step, w');
    }
  }

  lemma AckSideIsStable(w: World, step: Step, w': World)
    requires Coherent(w.journal) && Apply(w, step) == Success(w') && (AckSide(step) || step.Watchdog?)
    ensures StableForOperation(w, w')
  {
    StepWrites(w, step);
    if WriteOf(w, step).Some? {
      AckWriteIsStable(w.journal, WriteOf(w, step).value, w'.journal);
    }
  }

  lemma AckWriteIsStable(j: Journal, op: JournalOp, j': Journal)
    requires Coherent(j) && Perform(j, op) == Success(j')
    requires op.DoAccept? ==> Terminal(j.state)
    requires op.DoAccept? || op.DoRecordAck? || op.DoTransition?
    requires op.DoTransition? ==> j.receipt.Some? && !Terminal(op.target)
    ensures j'.receipt == j.receipt && j.receipt.Some? && j'.cancellation == j.cancellation
    ensures Terminal(j.state) ==> j'.state == j.state
    ensures Terminal(j'.state) ==> Terminal(j.state)
    ensures j.retention.Some? ==> j'.retention == j.retention
    ensures Terminal(j.state) && j'.retention.None? ==> j'.remote == j.remote
  {
    WriteIsStable(j, op);
    WriteHasEffect(j, op);
  }

  lemma OperationSideIsStable(w: World, step: Step, w': World)
    requires Coherent(w.journal) && Apply(w, step) == Success(w') && !AckSide(step)
    ensures StableForAck(w, w')
  {
    StepWrites(w, step);
    StepHasSkeleton(w, step);
    if WriteOf(w, step).Some? {
      WriteIsStable(w.journal, WriteOf(w, step).value);
      if w.journal.retention.Some? {
        AcceptedIsFrozen(w.journal, WriteOf(w, step).value);
      }
    }
  }

  lemma WriteIsStable(j: Journal, op: JournalOp)
    requires Coherent(j) && Perform(j, op).Success?
    ensures var j' := Perform(j, op).value;
            && (Terminal(j.state) && j.receipt.Some? ==> j'.state == j.state && j'.receipt == j.receipt)
            && (Terminal(j.state) && !op.DoResume? ==> j'.state == j.state)
            && (j.retention.Some? ==> j'.retention == j.retention)
            && (op.DoAccept? || op.DoRecordAck? ==> j.receipt.Some? && j'.receipt == j.receipt)
  {
  }

  lemma OpWriteApplies(w: World, op: JournalOp, j': Journal)
    requires w.op.Held? || (w.op.Answered? && w.op != Answered(RequestError))
    requires WriteAllowed(w, op) && Perform(w.journal, op) == Success(j')
    ensures Apply(w, OpWrite(op)) == Success(w.(journal := j'))
    ensures WriteEffect(w.journal, op, j')
  {
    WriteHasEffect(w.journal, op);
  }

  const CANCEL_REASON: string := "standalone gateway cancellation requested"

  lemma CancellationIsDurable(j: Journal)
    requires !Terminal(j.state) && j.cancellation.None?
    ensures var j' := RequestCancellation(j, CANCEL_REASON);
            && j'.Success? && j'.value.cancellation.Some?
            && j'.value.state == j.state && j'.value.receipt == j.receipt && j'.value.requestId == j.requestId
  {
    assert !IsSpace(CANCEL_REASON[0]) && !IsSpace(CANCEL_REASON[|CANCEL_REASON| - 1]);
    assert StripLeft(CANCEL_REASON) == CANCEL_REASON && StripRight(CANCEL_REASON) == CANCEL_REASON;
  }

  // ----- What a call owes to the answers it got -----

  /** The journal holds the report, in its state or a later one, and a terminal of the wire protocol
      with the evidence retained for it. */
  predicate ReportTaken(s: Status, j: Journal) {
    && j.remote == Some(s) && (j.state == s.state || Lags(s.state, j.state))
    && (Terminal(s.state) && j.receipt.Some? && j.receipt.value.details.wireV3 ==> j.retention.Some?)
  }

  /** A report that the journal refuses: of another request, a terminal without a valid event, or one
      that its state and what it holds do not allow. */
  ghost predicate Unrecordable(j: Journal, receipt: Receipt, s: Status, target: TestState) {
    || s.requestId != receipt.requestId
    || (match WireTerminalEvent(receipt, s)
        case None => Perform(j, DoTransition(target, Some(s))).Rejected?
        case Some(event) =>
          event.Rejected?
          || exists files ::
               Perform(j, DoAccept(receipt, s, Retention(event.value.id, files), Success(files))).Rejected?)
  }

  predicate IsReceipt(j: Journal, receipt: Receipt) {
    j.receipt == Some(receipt) || StoredReceipt(j) == Success(Some(receipt))
  }

  /** Somebody else moved a request that just got its receipt, so that it cannot become ACCEPTED. */
  predicate MovedOn(w: World) {
    w.journal.receipt.Some? && Perform(w.journal, DoTransition(Accepted, None)).Rejected?
  }

  /** The preflight, the rejection and the end of transport.submit are as they were. */
  predicate KeepsAnswers(asked: Inquiry, asked': Inquiry) {
    asked'.preflight == asked.preflight && asked'.rejection == asked.rejection && asked'.submitted == asked.submitted
  }

  /** The reasons for which an observation raises: the transport or the evidence scan did, the stored
      receipt cannot be read, or what was found or reported cannot be recorded. */
  ghost predicate CannotRecord(requestId: string, w: World) {
    || w.asked.raised || StoredReceipt(w.journal).Rejected? || MovedOn(w)
    || (w.asked.receipt.Some? && w.asked.receipt.value.Some? && w.asked.receipt.value.value.requestId != requestId)
    || (w.asked.observed.Some? &&
        var s := w.asked.observed.value.status;
        || s.requestId != requestId
        || exists receipt, target ::
             IsReceipt(w.journal, receipt) && (target == s.state || Lags(s.state, target))
             && Unrecordable(w.journal, receipt, s, target))
  }

  lemma RefusedReport(requestId: string, w: World, receipt: Receipt, target: TestState)
    requires w.asked.observed.Some? && IsReceipt(w.journal, receipt)
    requires var s := w.asked.observed.value.status;
             (target == s.state || Lags(s.state, target)) && Unrecordable(w.journal, receipt, s, target)
    ensures CannotRecord(requestId, w)
  {
  }

  /** What a status call returns, for the journal it started with and the answers it got.  A terminal
      is not asked about again; a prepared request is reported as it is; without a receipt the
      transport is asked for one; and with one the remote side is asked, or told to cancel, and its
      report recorded. */
  predicate StatusTold(requestId: string, before: Journal, asked: Inquiry, j: Journal) {
    if Terminal(before.state) then
      && j.state == before.state && (before.retention.Some? ==> j.retention == before.retention)
      && (Importable(before) ==> j.retention.Some?)
    else if before.receipt.Some? then
      ReportTold(requestId, before, asked, j) && j.receipt == before.receipt
    else if before.state == Prepared then j == before
    else
      && asked.receipt.Some?
      && (if asked.receipt.value.Some? then
            ReportTold(requestId, before, asked, j) && j.receipt == asked.receipt.value
          else
            && j.receipt.None? && j.state == before.state
            && j.remote == if before.state == Publishing then Some(ReconciliationPending(requestId)) else before.remote)
  }

  /** A terminal of the wire protocol that was recorded together with its status. */
  predicate Importable(j: Journal) {
    && j.receipt.Some? && j.receipt.value.details.wireV3
    && j.remote.Some? && Terminal(j.remote.value.state)
  }

  predicate ReportTold(requestId: string, before: Journal, asked: Inquiry, j: Journal) {
    && asked.observed.Some? && asked.observed.value.cancelling == before.cancellation.Some?
    && asked.observed.value.status.requestId == requestId && ReportTaken(asked.observed.value.status, j)
  }

  /** What a cancellation returns: a terminal stays; otherwise the intent is durable, a prepared
      request is cancelled, a receipt is looked for, and with one the remote side is told. */
  predicate CancelTold(before: Journal, asked: Inquiry, j: Journal) {
    if Terminal(before.state) then j.state == before.state
    else
      && j.cancellation.Some?
      && (if before.receipt.Some? then CancelReported(asked, j) && j.receipt == before.receipt
          else if before.state == Prepared then j.state == Cancelled && j.receipt.None?
          else
            && asked.receipt.Some?
            && (if asked.receipt.value.Some? then CancelReported(asked, j) && j.receipt == asked.receipt.value
                else j.state == Uncertain && j.receipt.None?))
  }

  predicate CancelReported(asked: Inquiry, j: Journal) {
    && asked.observed.Some? && asked.observed.value.cancelling
    && ReportTaken(asked.observed.value.status, j) && j.state == asked.observed.value.status.state
  }

  /** What publishing returns for the answers it got: refused before its publication, rejected as the
      transport reported, found after all, uncertain without a retry on demand, or submitted. */
  predicate PublishTold(requestId: string, state: TestState, retry: bool, asked: Inquiry, j: Journal) {
    match asked.preflight
    case None => false
    case Some(false) =>
      asked.submitted.None? && j.state == Failed && j.remote == Some(PreflightFailure(requestId))
    case Some(true) =>
      if state == Prepared then SubmitTold(requestId, asked, j)
      else
        && (state == Publishing || state == Uncertain) && asked.rejection.Some?
        && (match asked.rejection.value
            case Some(rejection) =>
              asked.submitted.None? && j.state == Failed && j.remote == Some(rejection)
              && rejection.requestId == requestId
            case None =>
              && asked.receipt.Some?
              && (match asked.receipt.value
                  case Some(receipt) => asked.submitted.None? && Accepts(requestId, receipt, asked, j)
                  case None =>
                    if retry then SubmitTold(requestId, asked, j)
                    else asked.submitted.None? && j.state == Uncertain && j.receipt.None?))
  }

  /** What is made of the answer of transport.submit.  An unknown outcome returns nothing. */
  predicate SubmitTold(requestId: string, asked: Inquiry, j: Journal) {
    match asked.submitted
    case None => false
    case Some(RequestError) => j.state == Failed && j.remote == Some(RequestFailure(requestId)) && j.receipt.None?
    case Some(AdmissionError(code)) =>
      j.state == Failed && j.remote == Some(AdmissionFailure(requestId, code)) && j.receipt.None?
    case Some(OtherError) => false
    case Some(Answer(receipt)) => Accepts(requestId, receipt, asked, j)
  }

  /** The receipt is attached and the remote side was asked about it. */
  predicate Accepts(requestId: string, receipt: Receipt, asked: Inquiry, j: Journal) {
    && receipt.requestId == requestId && j.receipt == Some(receipt)
    && asked.observed.Some? && asked.observed.value.status.requestId == requestId
    && ReportTaken(asked.observed.value.status, j)
  }

  /** The reasons for which publishing raises besides those of an observation.  After an unknown
      outcome the request is left uncertain. */
  ghost predicate PublishRaises(requestId: string, state: TestState, w: World) {
    || CannotRecord(requestId, w)
    || (Terminal(state) && w.asked.preflight.Some?)
    || (w.asked.rejection.Some? && w.asked.rejection.value.Some?
        && w.asked.rejection.value.value.requestId != requestId)
    || (SubmitUnknown(requestId, w.asked) && w.journal.state == Uncertain && w.journal.receipt.None?)
  }

  /** What transport.submit leaves behind, however its caller ends: a failure without a receipt needs one
      of its two errors, and after an unknown outcome the request is uncertain, or still publishing if
      the process died. */
  predicate SubmitLeaves(requestId: string, w: World, died: bool) {
    && (w.asked.submitted.Some? && w.journal.receipt.None? && w.journal.state == Failed ==>
          w.asked.submitted.value.RequestError? || w.asked.submitted.value.AdmissionError?)
    && (SubmitUnknown(requestId, w.asked) ==>
          w.journal.receipt.None? && (w.journal.state == Uncertain || (died && w.journal.state == Publishing)))
  }

  /** What a submit returns: the status of a request that has its receipt, the cancellation of one that
      is to be cancelled, and otherwise what publishing returns. */
  predicate SubmitReturns(requestId: string, before: Journal, retry: bool, asked: Inquiry, j: Journal) {
    if before.receipt.Some? then StatusTold(requestId, before, asked, j)
    else if before.cancellation.Some? then CancelTold(before, asked, j)
    else PublishTold(requestId, before.state, retry, asked, j)
  }

  ghost predicate SubmitRaises(requestId: string, before: Journal, w: World) {
    || PublishRaises(requestId, before.state, w)
    || (Terminal(before.state) && before.receipt.Some? && before.retention.None?)
  }

  /** transport.submit raised something else, or answered for another request. */
  predicate SubmitUnknown(requestId: string, asked: Inquiry) {
    && asked.submitted.Some?
    && (asked.submitted.value.OtherError?
        || (asked.submitted.value.Answer? && asked.submitted.value.receipt.requestId != requestId))
  }

  lemma AcceptanceIsRecorded(j: Journal, op: JournalOp)
    requires op.DoAccept? && Perform(j, op).Success?
    ensures Perform(j, op).value.state == op.status.state
    ensures Perform(j, op).value.retention == Some(op.retained)
  {
  }

  lemma AcceptanceApplies(w: World, receipt: Receipt, status: Status, retained: Retention,
                          index: Result<seq<FileEntry>>)
    requires w.ack == AckHeld && Terminal(w.journal.state)
    requires Perform(w.journal, DoAccept(receipt, status, retained, index)).Success?
    ensures var j := Perform(w.journal, DoAccept(receipt, status, retained, index)).value;
            && Apply(w, AckAccept(receipt, status, retained, index)) == Success(w.(journal := j))
            && j.retention == Some(retained)
  {
    AcceptanceIsRecorded(w.journal, DoAccept(receipt, status, retained, index));
  }

  lemma AcceptanceHeld(requestId: string, steps: seq<Step>, w: World)
    requires Reachable(requestId, steps, w)
    ensures w.ack.AckChecked? || w.ack.AckBegun? || w.ack.AckAnswered? ==>
              HoldsAcceptance(w.journal, w.ack.eventId) && w.journal.remote.Some?
    ensures w.journal.retention.Some? ==>
              w.journal.remote.Some? && HoldsAcceptance(w.journal, w.journal.retention.value.eventId)
  {
    ReachableInv(requestId, steps, w);
  }

  lemma AckIsRecorded(j: Journal, eventId: EventId, begin: bool, acknowledged: bool, error: string)
    requires HoldsAcceptance(j, eventId) && j.remote.Some?
    ensures Perform(j, DoRecordAck(eventId, begin, acknowledged, error)).Success?
    ensures var j' := Perform(j, DoRecordAck(eventId, begin, acknowledged, error)).value;
            && HoldsAcceptance(j', eventId) && j'.requestId == j.requestId
            && (!j.ack.value.delivered ==>
                  && j'.ack.value.delivered == acknowledged
                  && j'.ack.value.attempts == j.ack.value.attempts + (if begin then 1 else 0))
  {
  }

  lemma RequiredIsHeld(j: Journal, eventId: EventId, index: Result<seq<FileEntry>>)
    requires RequireTerminalAcceptance(j, eventId, index).Success?
    ensures HoldsAcceptance(j, eventId)
  {
  }

  lemma AcceptanceChecked(w: World, eventId: EventId, index: Result<seq<FileEntry>>)
    requires w.ack == AckHeld && RequireTerminalAcceptance(w.journal, eventId, index).Success?
    ensures HoldsAcceptance(w.journal, eventId)
    ensures Apply(w, AckCheck(eventId, index)) == Success(w.(ack := AckChecked(eventId)))
  {
    RequiredIsHeld(w.journal, eventId, index);
  }

  class GatewayRuntime {
    const requestId: string
    const journal: RunJournal
    /** The durable journal together with the history that no process has to remember. */
    var world: World
    ghost var steps: seq<Step>

    ghost predicate Valid()
      reads this, journal
    {
      && journal.file == Some(world.journal)
      && world.journal.requestId == requestId
      && Reachable(requestId, steps, world)
    }

    /** Whatever was called, died and interleaved so far, the protocol theorems hold here. */
    lemma ProtocolHolds()
      requires Valid()
      ensures world.published <= 1 + world.retries + world.forged
      ensures IsWalk(world.journal.events, world.journal.state)
      ensures forall k :: 0 <= k < |world.ackCalls| ==>
                HoldsAcceptance(world.ackCalls[k].journal, world.ackCalls[k].eventId)
    {
      PublicationBounded(requestId, steps, world);
      EventsAreAWalk(requestId, steps, world);
      AcknowledgementJustified(requestId, steps, world);
    }

    ghost predicate Extends(before: seq<Step>)
      reads this
    {
      before <= steps
    }

    /** prepare(): the bundle is stored and its journal initialized. */
    constructor Prepare(requestId: string)
      ensures Valid() && world == Initial(requestId) && fresh(journal)
    {
      this.requestId := requestId;
      journal := new RunJournal();
      world := Initial(requestId);
      steps := [];
      new;
      var _ := journal.Initialize(requestId);
    }

    ghost method Record(step: Step, before: World)
      requires Reachable(requestId, steps, before)
      requires Apply(before, step) == Success(world)
      requires before.journal.requestId == requestId && journal.file == Some(world.journal)
      modifies this`steps
      ensures Valid() && steps == old(steps) + [step]
    {
      ExecSnoc(Initial(requestId), steps, step);
      ReachableInv(requestId, steps, before);
      OtherStepIsStable(before, step);
      steps := steps + [step];
    }

    /** The acknowledgement worker and the watchdog take any number of steps. */
    method OthersRun()
      requires Valid()
      modifies this, journal
      ensures Valid() && Extends(old(steps)) && StableForOperation(old(world), world)
    {
      var n := AnyCount();
      for i := 0 to n
        invariant Valid() && Extends(old(steps)) && StableForOperation(old(world), world)
      {
        var step := AnyStep();
        if (AckSide(step) || step.Watchdog?) && Apply(world, step).Success? {
          var before := world;
          world := Apply(world, step).value;
          journal.file := Some(world.journal);
          ReachableInv(requestId, steps, before);
          OtherStepIsStable(before, step);
          Record(step, before);
        }
      }
    }

    /** The operations of other processes and the watchdog take any number of steps. */
    method OperationsRun()
      requires Valid()
      modifies this, journal
      ensures Valid() && Extends(old(steps)) && StableForAck(old(world), world)
    {
      var n := AnyCount();
      ReachableInv(requestId, steps, world);
      for i := 0 to n
        invariant Valid() && Extends(old(steps)) && StableForAck(old(world), world)
      {
        var step := AnyStep();
        if !AckSide(step) && Apply(world, step).Success? {
          var before := world;
          world := Apply(world, step).value;
          journal.file := Some(world.journal);
          ReachableInv(requestId, steps, before);
          OtherStepIsStable(before, step);
          Record(step, before);
        }
      }
    }

    // ----- Single actions of an operation-lock holder -----

    method ReadJournal() returns (o: Outcome<Journal>)
      requires Valid()
      modifies this, journal
      ensures Valid() && Extends(old(steps)) && StableForOperation(old(world), world)
      ensures !o.Raised?
      ensures o.Done? ==> o.value == world.journal
    {
      OthersRun();
      var dies: bool := *;
      if dies {
        return Died;
      }
      return Done(journal.file.value);
    }

    method ReadReceipt() returns (o: Outcome<Option<Receipt>>)
      requires Valid()
      modifies this, journal
      ensures Valid() && Extends(old(steps)) && StableForOperation(old(world), world)
      ensures o.Done? ==> StoredReceipt(world.journal) == Success(o.value)
      ensures o.Raised? ==> StoredReceipt(world.journal).Rejected?
    {
      var data :- ReadJournal();
      var receipt := StoredReceipt(data);
      if receipt.Rejected? {
        return Raised;
      }
      return Done(receipt.value);
    }

    /** Two worlds that differ for this operation only by one write of the journal. */
    static ghost predicate WroteOnly(w: World, w': World) {
      w'.op == w.op && w'.submits == w.submits && w'.published == w.published
      && w'.retries == w.retries && w'.forged == w.forged
    }

    predicate MayWrite()
      reads this
    {
      world.op.Held? || (world.op.Answered? && world.op != Answered(RequestError))
    }

    /** The status is the one that the remote side reported to this holder of the lock. */
    predicate Reported(status: Status)
      reads this
    {
      world.asked.observed.Some? && world.asked.observed.value.status == status
    }

    method Transition(target: TestState, remote: Option<Status>) returns (o: Outcome<Journal>)
      requires Valid() && MayWrite()
      requires world.journal.receipt.None? ==> TransitionJustified(world, target, remote)
      requires world.journal.receipt.Some? && remote.Some? ==> Terminal(world.journal.state) || Reported(remote.value)
      modifies this, journal
      ensures Valid() && Extends(old(steps)) && WroteOnly(old(world), world)
      ensures world.journal.receipt == old(world.journal.receipt)
      ensures world.journal.cancellation == old(world.journal.cancellation)
      ensures Terminal(old(world.journal.state)) ==> world.journal.state == old(world.journal.state)
      ensures !o.Done? ==> StableForOperation(old(world), world)
                           || (world.journal.state == target && o.Died?)
      ensures world.asked == old(world.asked)
      ensures o.Done? ==> o.value == world.journal && o.value.state == target
                          && (remote.Some? ==> o.value.remote == remote)
      ensures o.Done? && old(world.journal.receipt).None? && remote.None? ==>
                o.value.remote == old(world.journal.remote)
      ensures o.Raised? ==> Perform(world.journal, DoTransition(target, remote)).Rejected?
    {
      OthersRun();
      var dies: bool := *;
      if dies {
        return Died;
      }
      var before := world;
      assert StatesHaveReceipts(world.journal) by {
        ReachableInv(requestId, steps, world);
      }
      var r := journal.Transition(target, remote);
      if r.Rejected? {
        return Raised;
      }
      world := world.(journal := r.value);
      OpWriteApplies(before, DoTransition(target, remote), r.value);
      Record(OpWrite(DoTransition(target, remote)), before);
      dies := *;
      if dies {
        return Died;
      }
      return Done(r.value);
    }

    method AttachReceipt(receipt: Receipt) returns (o: Outcome<Journal>)
      requires Valid() && MayWrite() && world.journal.state != Prepared
      requires world.journal.receipt.None?
      requires (world.op.Held? && world.asked.receipt == Some(Some(receipt))) || world.op == Answered(Answer(receipt))
      modifies this, journal
      ensures Valid() && Extends(old(steps)) && WroteOnly(old(world), world)
      ensures world.asked == old(world.asked)
      ensures world.journal.cancellation == old(world.journal.cancellation)
      ensures world.journal.state == old(world.journal.state)
      ensures o.Done? ==> o.value == world.journal && o.value.receipt == Some(receipt)
                          && receipt.requestId == requestId
      ensures o.Raised? ==> world.journal == old(world.journal) && receipt.requestId != requestId
    {
      OthersRun();
      var dies: bool := *;
      if dies {
        return Died;
      }
      var before := world;
      var r := journal.AttachReceipt(receipt);
      if r.Rejected? {
        return Raised;
      }
      world := world.(journal := r.value);
      OpWriteApplies(before, DoAttachReceipt(receipt), r.value);
      Record(OpWrite(DoAttachReceipt(receipt)), before);
      dies := *;
      if dies {
        return Died;
      }
      return Done(r.value);
    }

    method RequestCancellation() returns (o: Outcome<Journal>)
      requires Valid() && world.op.Held?
      requires !Terminal(world.journal.state) && world.journal.cancellation.None?
      modifies this, journal
      ensures Valid() && Extends(old(steps)) && WroteOnly(old(world), world) && !o.Raised?
      ensures world.asked == old(world.asked)
      ensures world.journal.receipt == old(world.journal.receipt)
      ensures old(world.journal.receipt).None? ==> world.journal.state == old(world.journal.state)
      ensures !Terminal(world.journal.state)
      ensures o.Done? ==> world.journal.cancellation.Some?
    {
      OthersRun();
      var dies: bool := *;
      if dies {
        return Died;
      }
      var before := world;
      CancellationIsDurable(before.journal);
      var r := journal.RequestCancellation(CANCEL_REASON);
      world := world.(journal := r.value);
      OpWriteApplies(before, DoRequestCancellation(CANCEL_REASON), r.value);
      Record(OpWrite(DoRequestCancellation(CANCEL_REASON)), before);
      dies := *;
      if dies {
        return Died;
      }
      return Done(r.value);
    }

    /** Scans and syncs the evidence of an event; the scan may fail. */
    method RetainEvidence(event: Event) returns (o: Outcome<Retention>)
      requires Valid()
      modifies this
      ensures Valid() && Extends(old(steps)) && !o.Died?
      ensures world == old(world).(asked := old(world.asked).(raised := world.asked.raised))
      ensures o.Done? ==> o.value.eventId == event.id && world == old(world)
      ensures o.Raised? ==> world.asked.raised
    {
      var index := ScanEvidence();
      if index.Rejected? {
        Remember(AskFails);
        return Raised;
      }
      return Done(Retention(event.id, index.value));
    }

    // ----- The transport port and other choices of the environment -----

    static method AnyCount() returns (n: nat)
    {
      n := *;
    }

    static method AnyStep() returns (step: Step)
    {
      step := *;
    }

    static method AnySubmitOutcome() returns (outcome: SubmitOutcome)
    {
      outcome := *;
    }

    static method ScanEvidence() returns (index: Result<seq<FileEntry>>)
    {
      index := *;
    }

    static method AnyPreflight() returns (o: Outcome<bool>)
    {
      o := *;
    }

    static method AnyRejection() returns (o: Outcome<Option<Status>>)
    {
      o := *;
    }

    static method AnyReceipt() returns (o: Outcome<Option<Receipt>>)
    {
      o := *;
    }

    static method AnyStatus() returns (o: Outcome<Status>)
    {
      o := *;
    }

    /** The answer of an inquiry is remembered as long as the lock is held. */
    method Remember(step: Step)
      requires Valid()
      requires step.AskPreflight? || step.AskRejection? || step.AskReceipt? || step.AskStatus? || step.AskFails?
      modifies this
      ensures Valid() && Extends(old(steps))
      ensures Apply(old(world), step) == Success(world) && world == old(world).(asked := world.asked)
    {
      var before := world;
      world := Apply(world, step).value;
      Record(step, before);
    }

    method Preflight() returns (o: Outcome<bool>)
      requires Valid()
      modifies this
      ensures Valid() && Extends(old(steps)) && world == old(world).(asked := world.asked)
      ensures o.Done? ==> world.asked == old(world.asked).(preflight := Some(o.value))
      ensures o.Raised? ==> world.asked == old(world.asked).(raised := true)
      ensures o.Died? ==> world == old(world)
    {
      o := AnyPreflight();
      if o.Done? {
        Remember(AskPreflight(o.value));
      } else if o.Raised? {
        Remember(AskFails);
      }
    }

    method ReconcileRejection() returns (o: Outcome<Option<Status>>)
      requires Valid()
      modifies this
      ensures Valid() && Extends(old(steps)) && world == old(world).(asked := world.asked)
      ensures o.Done? ==> world.asked == old(world.asked).(rejection := Some(o.value))
      ensures o.Raised? ==> world.asked == old(world.asked).(raised := true)
      ensures o.Died? ==> world == old(world)
    {
      o := AnyRejection();
      if o.Done? {
        Remember(AskRejection(o.value));
      } else if o.Raised? {
        Remember(AskFails);
      }
    }

    method Reconcile() returns (o: Outcome<Option<Receipt>>)
      requires Valid()
      modifies this
      ensures Valid() && Extends(old(steps)) && world == old(world).(asked := world.asked)
      ensures o.Done? ==> world.asked == old(world.asked).(receipt := Some(o.value))
      ensures o.Raised? ==> world.asked == old(world.asked).(raised := true)
      ensures o.Died? ==> world == old(world)
    {
      o := AnyReceipt();
      if o.Done? {
        Remember(AskReceipt(o.value));
      } else if o.Raised? {
        Remember(AskFails);
      }
    }

    /** transport.cancel when a cancellation is pending, transport.status otherwise. */
    method RemoteStatus(cancelling: bool) returns (o: Outcome<Status>)
      requires Valid()
      modifies this
      ensures Valid() && Extends(old(steps)) && world == old(world).(asked := world.asked)
      ensures o.Done? ==> world.asked == old(world.asked).(observed := Some(Observation(cancelling, o.value)))
      ensures o.Raised? ==> world.asked == old(world.asked).(raised := true)
      ensures o.Died? ==> world == old(world)
    {
      o := AnyStatus();
      if o.Done? {
        Remember(AskStatus(Observation(cancelling, o.value)));
      } else if o.Raised? {
        Remember(AskFails);
      }
    }

    /** PUBLISHING becomes durable before the transport is entered. */
    method StartPublishing(retryUncertain: bool) returns (o: Outcome<Journal>)
      requires Valid() && world.op == Held(true, retryUncertain)
      requires world.journal.receipt.None? && world.journal.cancellation.None?
      requires world.asked.preflight == Some(true)
      requires world.journal.state == Prepared
               || (world.journal.state == Uncertain && retryUncertain
                   && world.asked.rejection == Some(None) && world.asked.receipt == Some(None))
      modifies this, journal
      ensures Valid() && Extends(old(steps)) && !o.Raised?
      ensures world.submits == old(world.submits) && world.published == old(world.published)
      ensures world.retries == old(world.retries) && world.forged == old(world.forged)
      ensures world.journal.receipt.None? && world.journal.cancellation.None?
      ensures world.asked == old(world.asked)
      ensures o.Done? ==> world.op == Armed
    {
      OthersRun();
      var dies: bool := *;
      if dies {
        return Died;
      }
      var before := world;
      var r := journal.Transition(Publishing, None);
      world := world.(journal := r.value, op := Armed);
      Record(StartPublish, before);
      dies := *;
      if dies {
        return Died;
      }
      return Done(r.value);
    }

    /** The two failures that end a publication before or during its admission. */
    method RecordFailure(step: Step) returns (o: Outcome<Journal>)
      requires Valid() && (step.RefuseRequest? || step.RecordRejection?)
      requires step.RefuseRequest? ==> world.op == Answered(RequestError)
      requires step.RecordRejection? ==>
                 && world.op.Held? && world.op.submitting
                 && (world.journal.state == Publishing || world.journal.state == Uncertain)
                 && world.asked.rejection == Some(Some(step.status)) && step.status.requestId == requestId
      requires world.journal.receipt.None?
      modifies this, journal
      ensures Valid() && Extends(old(steps)) && !o.Raised?
      ensures world.submits == old(world.submits) && world.published == old(world.published)
      ensures world.retries == old(world.retries)
      ensures world.forged <= old(world.forged)
                              + if step.RecordRejection? && PrepublicationShape(step.status) then 1 else 0
      ensures old(world.forged) <= world.forged
      ensures world.asked == old(world.asked)
      ensures o.Done? ==> o.value == world.journal && o.value.state == Failed && o.value.receipt.None?
                          && o.value.remote == Some(if step.RecordRejection? then step.status
                                                    else RequestFailure(requestId))
    {
      assert OpPhaseJustified(world) by {
        ReachableInv(requestId, steps, world);
      }
      OthersRun();
      var dies: bool := *;
      if dies {
        return Died;
      }
      var before := world;
      var failure := if step.RecordRejection? then step.status else RequestFailure(requestId);
      var r := journal.Transition(Failed, Some(failure));
      world := Apply(world, step).value;
      Record(step, before);
      dies := *;
      if dies {
        return Died;
      }
      return Done(r.value);
    }

    method AcceptTerminal(receipt: Receipt, status: Status, retained: Retention)
      returns (o: Outcome<Journal>)
      requires Valid() && MayWrite() && Terminal(status.state)
      modifies this, journal
      ensures Valid() && Extends(old(steps)) && WroteOnly(old(world), world)
      ensures world.asked == old(world.asked).(raised := world.asked.raised)
      ensures world.journal.receipt == old(world.journal.receipt)
      ensures world.journal.cancellation == old(world.journal.cancellation)
      ensures Terminal(old(world.journal.state)) ==> world.journal.state == old(world.journal.state)
      ensures o.Done? ==> o.value == world.journal && o.value.state == status.state
                          && o.value.retention == Some(retained)
      ensures o.Done? && !Terminal(old(world.journal.state)) ==> o.value.remote == Some(status)
      ensures o.Raised? && !world.asked.raised ==>
                Perform(world.journal, DoAccept(receipt, status, retained, Success(retained.files))).Rejected?
    {
      OthersRun();
      var dies: bool := *;
      if dies {
        return Died;
      }
      var before := world;
      var index := ScanEvidence();
      var op := DoAccept(receipt, status, retained, index);
      var r := journal.AcceptTerminal(receipt, status, retained, index);
      if r.Rejected? {
        if index != Success(retained.files) {
          Remember(AskFails);
        }
        return Raised;
      }
      world := world.(journal := r.value);
      OpWriteApplies(before, op, r.value);
      ReachableInv(requestId, steps, before);
      WriteIsStable(before.journal, op);
      AcceptanceIsRecorded(before.journal, op);
      Record(OpWrite(op), before);
      dies := *;
      if dies {
        return Died;
      }
      return Done(r.value);
    }

    method SubmitToTransport() returns (o: Outcome<SubmitOutcome>)
      requires Valid() && world.op == Armed
      modifies this, journal
      ensures Valid() && Extends(old(steps)) && !o.Raised?
      ensures world.journal == old(world.journal)
      ensures world.submits == old(world.submits) + 1
      ensures world.published <= old(world.published) + 1
      ensures world.retries == old(world.retries) && world.forged == old(world.forged)
      ensures world.op.Answered? && world.asked == old(world.asked).(submitted := Some(world.op.outcome))
      ensures o.Done? ==> world.op == Answered(o.value)
    {
      assert OpPhaseJustified(world) by {
        ReachableInv(requestId, steps, world);
      }
      OthersRun();
      var outcome := AnySubmitOutcome();
      var landed: bool := *;
      var before := world;
      world := Apply(world, CallSubmit(outcome, landed)).value;
      Record(CallSubmit(outcome, landed), before);
      var dies: bool := *;
      if dies {
        return Died;
      }
      return Done(outcome);
    }

    // ----- The operations -----

    method AcceptObservation(receipt: Receipt, remote: Status) returns (o: Outcome<Journal>)
      requires Valid() && MayWrite() && world.journal.receipt.Some?
      requires Terminal(world.journal.state) || Reported(remote)
      modifies this, journal
      ensures Valid() && Extends(old(steps)) && WroteOnly(old(world), world)
      ensures world.asked == old(world.asked).(raised := world.asked.raised)
      ensures world.journal.receipt == old(world.journal.receipt)
      ensures world.journal.cancellation == old(world.journal.cancellation)
      ensures Terminal(old(world.journal.state)) ==> world.journal.state == old(world.journal.state)
      ensures o.Done? ==> o.value == world.journal && o.value.state == remote.state
                          && remote.requestId == receipt.requestId
      ensures o.Done? && !Terminal(old(world.journal.state)) ==> o.value.remote == Some(remote)
      ensures o.Done? && Terminal(remote.state) && receipt.details.wireV3 ==> o.value.retention.Some?
      ensures o.Raised? && !world.asked.raised ==> Unrecordable(world.journal, receipt, remote, remote.state)
    {
      if remote.requestId != receipt.requestId {
        return Raised;
      }
      var event := WireTerminalEvent(receipt, remote);
      if event.Some? {
        if event.value.Rejected? {
          return Raised;
        }
        var retained :- RetainEvidence(event.value.value);
        o := AcceptTerminal(receipt, remote, retained);
        return;
      }
      o := Transition(remote.state, Some(remote));
    }

    /** The remote side is asked, or told to cancel, and its answer recorded. */
    method ObserveRemote(localState: TestState, receipt: Receipt) returns (o: Outcome<Journal>)
      requires Valid() && MayWrite() && world.journal.receipt.Some? && !Terminal(world.journal.state)
      requires IsReceipt(world.journal, receipt)
      modifies this, journal
      ensures Valid() && Extends(old(steps)) && WroteOnly(old(world), world)
      ensures world.asked == old(world.asked).(observed := world.asked.observed, raised := world.asked.raised)
      ensures world.journal.cancellation == old(world.journal.cancellation)
      ensures world.journal.receipt == old(world.journal.receipt)
      ensures o.Done? ==>
                && o.value == world.journal && world.asked.observed.Some?
                && world.asked.observed.value.cancelling == old(world.journal.cancellation).Some?
                && (var s := world.asked.observed.value.status;
                    && s.requestId == requestId && ReportTaken(s, o.value)
                    && (Lags(s.state, localState) || o.value.state == s.state))
      ensures o.Raised? ==> CannotRecord(requestId, world)
    {
      var current :- ReadJournal();
      var remote :- RemoteStatus(current.cancellation.Some?);
      o := RecordReport(localState, receipt, remote);
    }

    /** A report of another request makes this one uncertain; a wire terminal is accepted with its
        evidence; any other report is recorded unless it lags behind. */
    method RecordReport(localState: TestState, receipt: Receipt, remote: Status) returns (o: Outcome<Journal>)
      requires Valid() && MayWrite() && world.journal.receipt.Some? && !Terminal(world.journal.state)
      requires IsReceipt(world.journal, receipt) && Reported(remote)
      modifies this, journal
      ensures Valid() && Extends(old(steps)) && WroteOnly(old(world), world)
      ensures world.asked == old(world.asked).(raised := world.asked.raised)
      ensures world.journal.cancellation == old(world.journal.cancellation)
      ensures world.journal.receipt == old(world.journal.receipt)
      ensures o.Done? ==>
                && o.value == world.journal && remote.requestId == requestId && ReportTaken(remote, o.value)
                && (Lags(remote.state, localState) || o.value.state == remote.state)
      ensures o.Raised? ==> CannotRecord(requestId, world)
    {
      if remote.requestId != requestId {
        var _ :- Transition(Uncertain, None);
        return Raised;
      }
      var target := remote.state;
      if WireTerminalEvent(receipt, remote).Some? {
        o := AcceptObservation(receipt, remote);
      } else {
        target := TargetState(localState, remote.state);
        o := Transition(target, Some(remote));
      }
      if o.Raised? && !world.asked.raised {
        RefusedReport(requestId, world, receipt, target);
      }
    }

    /** A receipt found by the transport is attached and the request is ACCEPTED. */
    method AdoptReceipt(receipt: Receipt, accept: bool) returns (o: Outcome<Journal>)
      requires Valid() && MayWrite() && world.journal.state != Prepared && !Terminal(world.journal.state)
      requires world.journal.receipt.None?
      requires (world.op.Held? && world.asked.receipt == Some(Some(receipt))) || world.op == Answered(Answer(receipt))
      modifies this, journal
      ensures Valid() && Extends(old(steps)) && WroteOnly(old(world), world)
      ensures world.asked == old(world.asked)
      ensures world.journal.cancellation == old(world.journal.cancellation)
      ensures o.Done? ==> world.journal.receipt == Some(receipt) && receipt.requestId == requestId
                          && !Terminal(world.journal.state)
      ensures world.journal.receipt.None? ==> world.journal.state == old(world.journal.state)
      ensures o.Raised? ==> receipt.requestId != requestId || (world.journal.receipt == Some(receipt) && MovedOn(world))
    {
      o := AttachReceipt(receipt);
      if o.Done? && accept {
        o := Transition(Accepted, None);
      }
    }

    /** A request without a receipt is reconciled if its publication was started; nothing else
        about it is known to the transport. */
    method StatusWithoutReceipt(data: Journal) returns (o: Outcome<Journal>)
      requires Valid() && MayWrite() && world.op.Held? && world.journal == data
      requires data.receipt.None? && !Terminal(data.state)
      modifies this, journal
      ensures Valid() && Extends(old(steps)) && WroteOnly(old(world), world)
      ensures KeepsAnswers(old(world.asked), world.asked)
      ensures world.journal.cancellation == data.cancellation
      ensures o.Done? ==> o.value.state == world.journal.state && o.value.receipt == world.journal.receipt
                          && o.value.cancellation == world.journal.cancellation
      ensures o.Done? ==> StatusTold(requestId, data, world.asked, o.value)
      ensures o.Raised? ==> CannotRecord(requestId, world)
    {
      assert StatesHaveReceipts(data) && data.retention.None? by {
        ReachableInv(requestId, steps, world);
      }
      if data.state != Publishing && data.state != Uncertain {
        return Done(data);
      }
      var receipt :- Reconcile();
      if receipt.None? {
        if data.state == Publishing {
          o := Transition(Publishing, Some(ReconciliationPending(requestId)));
          return;
        }
        return Done(data);
      }
      var _ :- AdoptReceipt(receipt.value, true);
      o := ObserveRemote(Accepted, receipt.value);
    }

    /** Observes the request.  A terminal is returned without asking the transport again; an
        unpublished request is never moved. */
    method StatusLocked() returns (o: Outcome<Journal>)
      requires Valid() && MayWrite() && (world.op.Held? || world.journal.receipt.Some?)
      modifies this, journal
      ensures Valid() && Extends(old(steps)) && WroteOnly(old(world), world)
      ensures KeepsAnswers(old(world.asked), world.asked)
      ensures old(world.journal.receipt).Some? ==> world.asked.receipt == old(world.asked.receipt)
      ensures world.journal.cancellation == old(world.journal.cancellation)
      ensures old(world.journal.receipt).Some? ==> world.journal.receipt == old(world.journal.receipt)
      ensures Terminal(old(world.journal.state)) ==> world.journal.state == old(world.journal.state)
      ensures o.Done? ==> o.value.state == world.journal.state && o.value.receipt == world.journal.receipt
                          && o.value.cancellation == world.journal.cancellation
      ensures o.Done? ==> StatusTold(requestId, old(world.journal), world.asked, o.value)
      ensures o.Raised? ==> CannotRecord(requestId, world)
                            || (Terminal(old(world.journal.state)) && old(world.journal.receipt).Some?
                                && old(world.journal.retention).None?)
    {
      var data :- ReadJournal();
      var receipt :- ReadReceipt();
      if Terminal(data.state) {
        if receipt.Some? && data.retention.None? && data.remote.Some? {
          o := AcceptObservation(receipt.value, data.remote.value);
          return;
        }
        return Done(data);
      }
      if receipt.None? {
        o := StatusWithoutReceipt(data);
        return;
      }
      o := ObserveRemote(data.state, receipt.value);
    }

    /** The part of a cancellation that follows the durable intent. */
    method CancelWithIntent(state: TestState) returns (o: Outcome<Journal>)
      requires Valid() && world.op.Held? && world.journal.cancellation.Some? && !Terminal(world.journal.state)
      requires world.journal.receipt.None? ==> state == world.journal.state
      modifies this, journal
      ensures Valid() && Extends(old(steps)) && WroteOnly(old(world), world)
      ensures KeepsAnswers(old(world.asked), world.asked)
      ensures old(world.journal.receipt).Some? ==> world.journal.receipt == old(world.journal.receipt)
      ensures o.Done? ==> CancelTold(old(world.journal), world.asked, o.value)
      ensures o.Raised? ==> CannotRecord(requestId, world)
    {
      var receipt :- ReadReceipt();
      if receipt.None? {
        o := CancelWithoutReceipt(state);
        return;
      }
      o := TellRemoteToCancel(receipt.value);
    }

    /** The remote side is told to cancel and its answer recorded. */
    method TellRemoteToCancel(receipt: Receipt) returns (o: Outcome<Journal>)
      requires Valid() && world.op.Held? && world.journal.cancellation.Some? && !Terminal(world.journal.state)
      requires world.journal.receipt.Some? && IsReceipt(world.journal, receipt)
      modifies this, journal
      ensures Valid() && Extends(old(steps)) && WroteOnly(old(world), world)
      ensures world.asked == old(world.asked).(observed := world.asked.observed, raised := world.asked.raised)
      ensures world.journal.receipt == old(world.journal.receipt)
      ensures o.Done? ==> o.value == world.journal && o.value.cancellation.Some? && CancelReported(world.asked, o.value)
      ensures o.Raised? ==> CannotRecord(requestId, world)
    {
      var remote :- RemoteStatus(true);
      o := AcceptObservation(receipt, remote);
    }

    /** A prepared request is simply cancelled; a started publication is reconciled first, and
        without a receipt its outcome stays uncertain. */
    method CancelWithoutReceipt(state: TestState) returns (o: Outcome<Journal>)
      requires Valid() && world.op.Held? && world.journal.cancellation.Some?
      requires world.journal.receipt.None? && state == world.journal.state && !Terminal(state)
      modifies this, journal
      ensures Valid() && Extends(old(steps)) && WroteOnly(old(world), world)
      ensures KeepsAnswers(old(world.asked), world.asked)
      ensures o.Done? ==> CancelTold(old(world.journal), world.asked, o.value)
      ensures o.Raised? ==> CannotRecord(requestId, world)
    {
      assert StatesHaveReceipts(world.journal) by {
        ReachableInv(requestId, steps, world);
      }
      if state == Prepared {
        o := Transition(Cancelled, None);
        return;
      }
      var receipt :- Reconcile();
      if receipt.None? {
        if state == Publishing {
          o := Transition(Uncertain, None);
          return;
        }
        o := ReadJournal();
        return;
      }
      o := CancelFound(state, receipt.value);
    }

    /** The receipt that was looked for is attached before the remote side is told. */
    method CancelFound(state: TestState, receipt: Receipt) returns (o: Outcome<Journal>)
      requires Valid() && world.op.Held? && world.journal.cancellation.Some?
      requires world.journal.receipt.None? && state == world.journal.state && !Terminal(state) && state != Prepared
      requires world.asked.receipt == Some(Some(receipt))
      modifies this, journal
      ensures Valid() && Extends(old(steps)) && WroteOnly(old(world), world)
      ensures KeepsAnswers(old(world.asked), world.asked) && world.asked.receipt == old(world.asked.receipt)
      ensures o.Done? ==> o.value.cancellation.Some? && o.value.receipt == Some(receipt)
                          && CancelReported(world.asked, o.value)
      ensures o.Raised? ==> CannotRecord(requestId, world)
    {
      var _ :- AdoptReceipt(receipt, state == Publishing || state == Uncertain);
      o := TellRemoteToCancel(receipt);
    }

    method CancelLocked() returns (o: Outcome<Journal>)
      requires Valid() && world.op.Held?
      modifies this, journal
      ensures Valid() && Extends(old(steps)) && WroteOnly(old(world), world)
      ensures KeepsAnswers(old(world.asked), world.asked)
      ensures old(world.journal.receipt).Some? ==> world.journal.receipt == old(world.journal.receipt)
      ensures o.Done? ==> CancelTold(old(world.journal), world.asked, o.value)
      ensures o.Raised? ==> CannotRecord(requestId, world)
    {
      var data :- ReadJournal();
      var state := data.state;
      if Terminal(state) {
        return Done(data);
      }
      if data.cancellation.None? {
        var _ :- RequestCancellation();
      }
      o := CancelWithIntent(state);
    }

    /** A publication of unknown outcome is reconciled first.  The call is finished unless it was
        asked to retry and neither a rejection nor a receipt is known. */
    method ReconcilePublication(state: TestState, retryUncertain: bool)
      returns (o: Outcome<Option<Journal>>)
      requires Valid() && world.op == Held(true, retryUncertain)
      requires world.journal.receipt.None? && world.journal.cancellation.None?
      requires world.journal.state == state && (state == Publishing || state == Uncertain)
      requires world.asked == NOT_ASKED.(preflight := Some(true))
      modifies this, journal
      ensures Valid() && Extends(old(steps))
      ensures world.submits == old(world.submits) && world.published == old(world.published)
      ensures world.retries == old(world.retries)
      ensures old(world.forged) <= world.forged <= old(world.forged) + 1
      ensures world.asked.preflight == Some(true) && world.asked.submitted.None?
      ensures o.Done? && o.value.Some? ==>
                PublishTold(requestId, state, retryUncertain, world.asked, o.value.value)
      ensures o.Done? && o.value.None? ==>
                && retryUncertain && world.op == Held(true, true) && world.asked == Clear(true)
                && world.journal.receipt.None? && world.journal.cancellation.None?
                && world.journal.state == Uncertain
      ensures o.Raised? ==> PublishRaises(requestId, state, world)
    {
      var rejection :- ReconcileRejection();
      if rejection.Some? {
        if rejection.value.requestId != requestId {
          return Raised;
        }
        var failed :- RecordFailure(RecordRejection(rejection.value));
        return Done(Some(failed));
      }
      o := ReconcileReceipt(state, retryUncertain);
    }

    /** No rejection is known: a receipt is adopted, and without one the outcome is uncertain. */
    method ReconcileReceipt(state: TestState, retryUncertain: bool)
      returns (o: Outcome<Option<Journal>>)
      requires Valid() && world.op == Held(true, retryUncertain)
      requires world.journal.receipt.None? && world.journal.cancellation.None?
      requires world.journal.state == state && (state == Publishing || state == Uncertain)
      requires world.asked == NOT_ASKED.(preflight := Some(true), rejection := Some(None))
      modifies this, journal
      ensures Valid() && Extends(old(steps)) && WroteOnly(old(world), world)
      ensures KeepsAnswers(old(world.asked), world.asked)
      ensures o.Done? && o.value.Some? ==>
                PublishTold(requestId, state, retryUncertain, world.asked, o.value.value)
      ensures o.Done? && o.value.None? ==>
                && retryUncertain && world.asked == Clear(true)
                && world.journal.receipt.None? && world.journal.cancellation.None?
                && world.journal.state == Uncertain
      ensures o.Raised? ==> PublishRaises(requestId, state, world)
    {
      var found :- Reconcile();
      if found.Some? {
        var _ :- AdoptReceipt(found.value, true);
        var observed :- StatusLocked();
        return Done(Some(observed));
      }
      if state == Publishing {
        var _ :- Transition(Uncertain, None);
      }
      if !retryUncertain {
        var data :- ReadJournal();
        return Done(Some(data));
      }
      return Done(None);
    }

    method SubmitLocked(retryUncertain: bool) returns (o: Outcome<Journal>)
      requires Valid() && world.op == Held(true, retryUncertain) && world.asked == NOT_ASKED
      modifies this, journal
      ensures Valid() && Extends(old(steps))
      ensures world.submits == old(world.submits) + if world.asked.submitted.Some? then 1 else 0
      ensures world.asked.submitted.None? ==> world.published == old(world.published)
      ensures world.retries == old(world.retries)
      ensures old(world.forged) <= world.forged <= old(world.forged) + 1
      ensures old(world.journal.receipt).Some? || old(world.journal.cancellation).Some?
              || (!retryUncertain && old(world.journal.state) != Prepared) || Terminal(old(world.journal.state)) ==>
                world.asked.submitted.None?
      ensures o.Done? ==> SubmitReturns(requestId, old(world.journal), retryUncertain, world.asked, o.value)
      ensures SubmitLeaves(requestId, world, o.Died?)
      ensures o.Raised? ==> SubmitRaises(requestId, old(world.journal), world)
    {
      var data :- ReadJournal();
      var state := data.state;
      var receipt :- ReadReceipt();
      if receipt.Some? {
        o := StatusLocked();
        return;
      }
      assert world.journal == data;
      if data.cancellation.Some? {
        o := CancelLocked();
        return;
      }
      o := Publish(state, retryUncertain);
    }

    /** A request without receipt and cancellation is checked, reconciled if it may have been
        published before, and published. */
    method Publish(state: TestState, retryUncertain: bool) returns (o: Outcome<Journal>)
      requires Valid() && world.op == Held(true, retryUncertain) && world.asked == NOT_ASKED
      requires world.journal.receipt.None? && world.journal.cancellation.None?
      requires world.journal.state == state
      modifies this, journal
      ensures Valid() && Extends(old(steps))
      ensures world.submits == old(world.submits) + if world.asked.submitted.Some? then 1 else 0
      ensures world.asked.submitted.None? ==> world.published == old(world.published)
      ensures world.retries == old(world.retries)
      ensures old(world.forged) <= world.forged <= old(world.forged) + 1
      ensures (!retryUncertain && state != Prepared) || Terminal(state) ==> world.asked.submitted.None?
      ensures o.Done? ==> PublishTold(requestId, state, retryUncertain, world.asked, o.value)
      ensures SubmitLeaves(requestId, world, o.Died?)
      ensures o.Raised? ==> PublishRaises(requestId, state, world)
    {
      assert StatesHaveReceipts(world.journal) by {
        ReachableInv(requestId, steps, world);
      }
      var valid :- Preflight();
      if !valid {
        o := Transition(Failed, Some(PreflightFailure(requestId)));
        return;
      }
      o := PublishChecked(state, retryUncertain);
    }

    /** The part of a submit that follows a passed preflight. */
    method PublishChecked(state: TestState, retryUncertain: bool) returns (o: Outcome<Journal>)
      requires Valid() && world.op == Held(true, retryUncertain)
      requires world.asked == NOT_ASKED.(preflight := Some(true))
      requires world.journal.receipt.None? && world.journal.cancellation.None?
      requires world.journal.state == state && !NeedsReceipt(state)
      modifies this, journal
      ensures Valid() && Extends(old(steps))
      ensures world.submits == old(world.submits) + if world.asked.submitted.Some? then 1 else 0
      ensures world.asked.submitted.None? ==> world.published == old(world.published)
      ensures world.retries == old(world.retries)
      ensures old(world.forged) <= world.forged <= old(world.forged) + 1
      ensures (!retryUncertain && state != Prepared) || Terminal(state) ==> world.asked.submitted.None?
      ensures o.Done? ==> PublishTold(requestId, state, retryUncertain, world.asked, o.value)
      ensures SubmitLeaves(requestId, world, o.Died?)
      ensures o.Raised? ==> PublishRaises(requestId, state, world)
    {
      if state == Publishing || state == Uncertain {
        var finished :- ReconcilePublication(state, retryUncertain);
        if finished.Some? {
          return Done(finished.value);
        }
      } else if state != Prepared {
        return Raised;
      }
      var _ :- StartPublishing(retryUncertain);
      o := FinishSubmit();
    }

    /** The transport is entered once and its answer recorded. */
    method FinishSubmit() returns (o: Outcome<Journal>)
      requires Valid() && world.op == Armed && !world.asked.raised
      modifies this, journal
      ensures Valid() && Extends(old(steps))
      ensures world.submits == old(world.submits) + 1
      ensures world.retries == old(world.retries) && world.forged == old(world.forged)
      ensures world.asked.submitted.Some? && world.asked.receipt == old(world.asked.receipt)
      ensures world.asked.preflight == old(world.asked.preflight) && world.asked.rejection == old(world.asked.rejection)
      ensures o.Done? ==> SubmitTold(requestId, world.asked, o.value)
      ensures SubmitLeaves(requestId, world, o.Died?)
      ensures o.Raised? ==>
                || CannotRecord(requestId, world)
                || (SubmitUnknown(requestId, world.asked) && world.journal.state == Uncertain
                    && world.journal.receipt.None?)
    {
      assert Unpublishable(world.journal) by {
        ReachableInv(requestId, steps, world);
      }
      var outcome :- SubmitToTransport();
      match outcome
      case AdmissionError(code) =>
        o := Transition(Failed, Some(AdmissionFailure(requestId, code)));
      case RequestError =>
        o := RecordFailure(RefuseRequest);
      case OtherError =>
        var _ :- Transition(Uncertain, None);
        return Raised;
      case Answer(receipt) =>
        o := FinishAnswered(receipt);
    }

    /** An answer for another request leaves the publication uncertain; otherwise the receipt is
        attached and the remote side asked about it. */
    method FinishAnswered(receipt: Receipt) returns (o: Outcome<Journal>)
      requires Valid() && world.op == Answered(Answer(receipt)) && Unpublishable(world.journal)
      modifies this, journal
      ensures Valid() && Extends(old(steps)) && WroteOnly(old(world), world)
      ensures KeepsAnswers(old(world.asked), world.asked) && world.asked.receipt == old(world.asked.receipt)
      ensures o.Done? ==> Accepts(requestId, receipt, world.asked, o.value)
      ensures o.Raised? ==>
                || CannotRecord(requestId, world)
                || (receipt.requestId != requestId && world.journal.state == Uncertain
                    && world.journal.receipt.None?)
      ensures world.journal.receipt.None? ==>
                world.journal.state == Uncertain || (!o.Raised? && world.journal.state == Publishing)
      ensures receipt.requestId != requestId ==> !o.Done? && world.journal.receipt.None?
    {
      if receipt.requestId != requestId {
        var _ :- Transition(Uncertain, None);
        return Raised;
      }
      var _ :- AdoptReceipt(receipt, true);
      o := StatusLocked();
    }

    /** The lock is released when the call returns, raises or its process dies. */
    ghost method ReleaseOperation(before: World)
      requires Reachable(requestId, steps, before) && before.journal.requestId == requestId
      requires world == before.(op := OpFree) && journal.file == Some(before.journal)
      modifies this`steps
      ensures Valid() && Extends(old(steps))
    {
      Record(Release, before);
    }

    /** The answers that the holder of the lock got stay in world.asked when it returns. */
    method Submit(retryUncertain: bool) returns (o: Outcome<Journal>)
      requires Valid()
      modifies this, journal
      ensures Valid() && Extends(old(steps))
      ensures old(world.op) != OpFree ==> o.Raised? && world == old(world)
      ensures old(world.op) == OpFree ==>
                && world.submits == old(world.submits) + (if world.asked.submitted.Some? then 1 else 0)
                && world.retries == old(world.retries) + (if retryUncertain then 1 else 0)
                && (world.asked.submitted.None? ==> world.published == old(world.published))
      ensures old(world.journal.receipt).Some? || old(world.journal.cancellation).Some?
              || (!retryUncertain && old(world.journal.state) != Prepared) || Terminal(old(world.journal.state)) ==>
                world.submits == old(world.submits) && world.published == old(world.published)
      ensures o.Done? ==> SubmitReturns(requestId, old(world.journal), retryUncertain, world.asked, o.value)
      ensures old(world.op) == OpFree ==> SubmitLeaves(requestId, world, o.Died?)
      ensures o.Raised? && old(world.op) == OpFree ==> SubmitRaises(requestId, old(world.journal), world)
    {
      if world.op != OpFree {
        return Raised;
      }
      var before := world;
      world := Apply(world, Acquire(true, retryUncertain)).value;
      Record(Acquire(true, retryUncertain), before);
      o := SubmitLocked(retryUncertain);
      before := world;
      world := world.(op := OpFree);
      ReleaseOperation(before);
    }

    method Status() returns (o: Outcome<Journal>)
      requires Valid()
      modifies this, journal
      ensures Valid() && Extends(old(steps))
      ensures world.submits == old(world.submits) && world.published == old(world.published)
      ensures world.journal.cancellation == old(world.journal.cancellation)
      ensures Terminal(old(world.journal.state)) ==> world.journal.state == old(world.journal.state)
      ensures old(world.journal.receipt).Some? ==> world.journal.receipt == old(world.journal.receipt)
      ensures o.Done? ==> o.value.receipt == world.journal.receipt && o.value.state == world.journal.state
      ensures o.Done? ==> StatusTold(requestId, old(world.journal), world.asked, o.value)
      ensures o.Raised? ==> old(world.op) != OpFree || CannotRecord(requestId, world)
                            || (Terminal(old(world.journal.state)) && old(world.journal.receipt).Some?
                                && old(world.journal.retention).None?)
    {
      if world.op != OpFree {
        return Raised;
      }
      var before := world;
      world := Apply(world, Acquire(false, false)).value;
      Record(Acquire(false, false), before);
      o := StatusLocked();
      before := world;
      world := world.(op := OpFree);
      ReleaseOperation(before);
    }

    method Cancel() returns (o: Outcome<Journal>)
      requires Valid()
      modifies this, journal
      ensures Valid() && Extends(old(steps))
      ensures world.submits == old(world.submits) && world.published == old(world.published)
      ensures o.Done? ==> CancelTold(old(world.journal), world.asked, o.value)
      ensures o.Raised? ==> old(world.op) != OpFree || CannotRecord(requestId, world)
    {
      if world.op != OpFree {
        return Raised;
      }
      var before := world;
      world := Apply(world, Acquire(false, false)).value;
      Record(Acquire(false, false), before);
      o := CancelLocked();
      before := world;
      world := world.(op := OpFree);
      ReleaseOperation(before);
    }

    /** Reopens a sealed request whose last failure is recorded as one before publication. */
    method ResumePrepublication() returns (o: Outcome<Journal>)
      requires Valid()
      modifies this, journal
      ensures Valid() && Extends(old(steps))
      ensures world.submits == old(world.submits) && world.published == old(world.published)
      ensures o.Raised? ==> old(world.op) != OpFree
      ensures o.Done? ==> o.value == world.journal
      ensures o.Done? ==> (o.value.state == Prepared <==>
                             old(world.journal.state) == Prepared || Resumable(old(world.journal)))
    {
      if world.op != OpFree {
        return Raised;
      }
      assert StatesHaveReceipts(world.journal) by {
        ReachableInv(requestId, steps, world);
      }
      var before := world;
      world := Apply(world, Acquire(false, false)).value;
      Record(Acquire(false, false), before);
      OthersRun();
      assert StatesHaveReceipts(world.journal) by {
        ReachableInv(requestId, steps, world);
      }
      before := world;
      var r := journal.ResumePrepublicationFailure();
      world := world.(journal := r.value);
      OpWriteApplies(before, DoResume, r.value);
      Record(OpWrite(DoResume), before);
      var dies: bool := *;
      o := if dies then Died else Done(r.value);
      before := world;
      world := world.(op := OpFree);
      ReleaseOperation(before);
    }

    // ----- Acknowledgement, under its own lock -----

    static method AskAcknowledgement() returns (o: Outcome<bool>)
    {
      o := *;
    }

    static method AnyText() returns (s: string)
    {
      s := *;
    }

    /** The evidence could not be scanned, or it is not what was retained a moment ago. */
    ghost method AckEvidenceFails(before: World)
      requires Reachable(requestId, steps, before) && before.journal.requestId == requestId
      requires world == before.(ackRaised := true) && journal.file == Some(before.journal)
      modifies this`steps
      ensures Valid() && Extends(old(steps))
    {
      Record(AckFails, before);
    }

    method ScanForAck() returns (index: Result<seq<FileEntry>>)
      requires Valid()
      modifies this
      ensures Valid() && Extends(old(steps))
      ensures world == old(world).(ackRaised := world.ackRaised)
      ensures index.Rejected? ==> world.ackRaised
      ensures index.Success? ==> world == old(world)
    {
      index := ScanEvidence();
      if index.Rejected? {
        ghost var before := world;
        world := world.(ackRaised := true);
        AckEvidenceFails(before);
      }
    }

    method AckAcceptTerminal(receipt: Receipt, remote: Status, retained: Retention)
      returns (o: Outcome<Journal>)
      requires Valid() && world.ack == AckHeld
      requires Terminal(world.journal.state) && world.journal.receipt.Some?
      modifies this, journal
      ensures Valid() && Extends(old(steps)) && world.ack == AckHeld
      ensures world.ackCalls == old(world.ackCalls) && world.confirmed == old(world.confirmed)
      ensures o.Done? ==> world.journal.retention.Some?
    {
      OperationsRun();
      var index := ScanForAck();
      var before := world;
      var r := journal.AcceptTerminal(receipt, remote, retained, index);
      if r.Rejected? {
        return Raised;
      }
      AcceptanceApplies(before, receipt, remote, retained, index);
      world := world.(journal := r.value);
      Record(AckAccept(receipt, remote, retained, index), before);
      return Done(r.value);
    }

    /** Makes sure that a local terminal is durably accepted before it can be acknowledged. */
    method AcceptLocalTerminal(eventId: EventId) returns (o: Outcome<Journal>)
      requires Valid() && world.ack == AckHeld
      modifies this, journal
      ensures Valid() && Extends(old(steps)) && world.ack == AckHeld
      ensures world.ackCalls == old(world.ackCalls) && world.confirmed == old(world.confirmed)
      ensures o.Done? ==> world.journal.retention.Some?
      ensures old(world.journal.retention).Some? ==> o.Done? && StableForAck(old(world), world)
    {
      OperationsRun();
      var data := journal.file.value;
      if data.retention.Some? {
        return Done(data);
      }
      var receipt := StoredReceipt(data);
      if receipt.Rejected? || receipt.value.None? || !Terminal(data.state) || data.remote.None? {
        return Raised;
      }
      var remote := data.remote.value;
      var event := WireTerminalEvent(receipt.value.value, remote);
      if event.None? || event.value.Rejected? || event.value.value.id != eventId
         || remote.requestId != receipt.value.value.requestId {
        return Raised;
      }
      var index := ScanForAck();
      if index.Rejected? {
        return Raised;
      }
      o := AckAcceptTerminal(receipt.value.value, remote, Retention(eventId, index.value));
    }

    /** The acceptance of this event is durable and its delivery is not recorded yet. */
    ghost predicate Undelivered(eventId: EventId)
      reads this
    {
      HoldsAcceptance(world.journal, eventId) && !world.journal.ack.value.delivered
    }

    /** Counts the attempt before the transport is asked. */
    method BeginAcknowledgement(eventId: EventId) returns (o: Outcome<Journal>)
      requires Valid() && world.ack == AckChecked(eventId) && Undelivered(eventId)
      modifies this, journal
      ensures Valid() && Extends(old(steps))
      ensures world.ackCalls == old(world.ackCalls)
      ensures !o.Raised? && (o.Done? ==> world.ack == AckBegun(eventId))
      ensures Undelivered(eventId)
      ensures world.journal.ack.value.attempts == old(world.journal.ack.value.attempts) + 1
    {
      OperationsRun();
      AcceptanceHeld(requestId, steps, world);
      var before := world;
      AckIsRecorded(world.journal, eventId, true, false, "");
      var r := journal.RecordTerminalAck(eventId, true, false, "");
      world := world.(journal := r.value, ack := AckBegun(eventId));
      Record(AckBegin, before);
      var dies: bool := *;
      return if dies then Died else Done(r.value);
    }

    /** A call that raises, or answers with something else than a boolean, gives no verdict. */
    method AskTransport(eventId: EventId) returns (o: Outcome<Option<bool>>)
      requires Valid() && world.ack == AckBegun(eventId) && Undelivered(eventId)
      modifies this, journal
      ensures Valid() && Extends(old(steps)) && !o.Raised?
      ensures |world.ackCalls| == |old(world.ackCalls)| + 1 && old(world.ackCalls) <= world.ackCalls
      ensures Undelivered(eventId) && world.journal.ack == old(world.journal.ack)
      ensures var call := world.ackCalls[|old(world.ackCalls)|];
              && call.eventId == eventId && call.journal == world.journal
              && (o.Done? ==> call.verdict == o.value && world.ack == AckAnswered(eventId, o.value))
    {
      OperationsRun();
      AcceptanceHeld(requestId, steps, world);
      var answer := AskAcknowledgement();
      var verdict := if answer.Done? then Some(answer.value) else None;
      var before := world;
      world := Apply(world, AckCallTransport(verdict)).value;
      Record(AckCallTransport(verdict), before);
      return if answer.Died? then Died else Done(verdict);
    }

    /** Delivery is recorded exactly for the answer True; any other answer leaves it to be retried. */
    method RecordAnswer(eventId: EventId, verdict: Option<bool>) returns (o: Outcome<Journal>)
      requires Valid() && world.ack == AckAnswered(eventId, verdict) && Undelivered(eventId)
      modifies this, journal
      ensures Valid() && Extends(old(steps)) && !o.Raised?
      ensures world.ackCalls == old(world.ackCalls) && HoldsAcceptance(world.journal, eventId)
      ensures o.Done? ==> o.value == world.journal
      ensures world.journal.ack.value.delivered <==> verdict == Some(true)
      ensures world.journal.ack.value.attempts == old(world.journal.ack.value.attempts)
    {
      OperationsRun();
      AcceptanceHeld(requestId, steps, world);
      var error := AnyText();
      var before := world;
      AckIsRecorded(world.journal, eventId, false, verdict == Some(true), error);
      var r := journal.RecordTerminalAck(eventId, false, verdict == Some(true), error);
      world := world.(journal := r.value, ack := AckHeld);
      Record(AckRecord(error), before);
      var dies: bool := *;
      return if dies then Died else Done(r.value);
    }

    /** One attempt: counted, asked once about this event, and recorded as it was answered. */
    static predicate Attempted(eventId: EventId, call: AckCall, j: Journal) {
      && call.eventId == eventId && HoldsAcceptance(j, eventId) && HoldsAcceptance(call.journal, eventId)
      && (j.ack.value.delivered <==> call.verdict == Some(true))
      && j.ack.value.attempts == call.journal.ack.value.attempts && !call.journal.ack.value.delivered
    }

    /** Asks the transport once and records its answer for the event that was checked. */
    method DeliverAcknowledgement(eventId: EventId) returns (o: Outcome<Journal>)
      requires Valid() && world.ack == AckChecked(eventId) && Undelivered(eventId)
      modifies this, journal
      ensures Valid() && Extends(old(steps)) && !o.Raised?
      ensures old(world.ackCalls) <= world.ackCalls
      ensures |world.ackCalls| <= |old(world.ackCalls)| + 1
      ensures |world.ackCalls| > |old(world.ackCalls)| ==>
                world.ackCalls[|old(world.ackCalls)|].eventId == eventId
      ensures o.Done? ==> |world.ackCalls| == |old(world.ackCalls)| + 1
                          && o.value == world.journal
                          && Attempted(eventId, world.ackCalls[|old(world.ackCalls)|], o.value)
                          && o.value.ack.value.attempts == old(world.journal.ack.value.attempts) + 1
    {
      var _ :- BeginAcknowledgement(eventId);
      var verdict :- AskTransport(eventId);
      o := RecordAnswer(eventId, verdict);
    }

    method CheckAcceptance(eventId: EventId) returns (o: Outcome<Journal>)
      requires Valid() && world.ack == AckHeld && world.journal.retention.Some?
      modifies this, journal
      ensures Valid() && Extends(old(steps)) && !o.Died?
      ensures world.ackCalls == old(world.ackCalls)
      ensures world.journal.retention == old(world.journal.retention) && world.journal.ack == old(world.journal.ack)
      ensures o.Done? ==> HoldsAcceptance(o.value, eventId) && world.ack == AckChecked(eventId)
                          && world.journal == o.value
      ensures o.Raised? ==> world.ackRaised || old(world.journal.retention).value.eventId != eventId
    {
      OperationsRun();
      assert Coherent(world.journal) by {
        ReachableInv(requestId, steps, world);
      }
      var data := journal.file.value;
      var index := ScanForAck();
      var accepted := RequireTerminalAcceptance(data, eventId, index);
      if accepted.Rejected? {
        AcceptanceReadsBack(data, eventId);
        if data.retention.value.eventId == eventId && index.Success? {
          ghost var before := world;
          world := world.(ackRaised := true);
          AckEvidenceFails(before);
        }
        return Raised;
      }
      var before := world;
      AcceptanceChecked(before, eventId, index);
      world := world.(ack := AckChecked(eventId));
      Record(AckCheck(eventId, index), before);
      return Done(data);
    }

    /** With an acceptance of this event, an acknowledgement raises only if the evidence is not found
        as it was retained.  It asks the transport exactly once unless the delivery is recorded. */
    method AcknowledgeLocked(eventId: EventId) returns (o: Outcome<Journal>)
      requires Valid() && world.ack == AckHeld
      modifies this, journal
      ensures Valid() && Extends(old(steps))
      ensures old(world.ackCalls) <= world.ackCalls
      ensures |world.ackCalls| <= |old(world.ackCalls)| + 1
      ensures |world.ackCalls| > |old(world.ackCalls)| ==>
                world.ackCalls[|old(world.ackCalls)|].eventId == eventId
      ensures o.Done? ==> HoldsAcceptance(o.value, eventId)
      ensures o.Done? && |world.ackCalls| == |old(world.ackCalls)| ==> o.value.ack.value.delivered
      ensures o.Done? && |world.ackCalls| > |old(world.ackCalls)| ==>
                Attempted(eventId, world.ackCalls[|old(world.ackCalls)|], o.value)
      ensures o.Raised? ==> world.ackCalls == old(world.ackCalls)
      ensures o.Raised? && old(world.journal.retention).Some? ==>
                world.ackRaised || old(world.journal.retention).value.eventId != eventId
      ensures o.Done? && old(world.journal.retention).Some? && old(world.journal.ack).Some? ==>
                o.value.ack.value.attempts == old(world.journal.ack.value.attempts)
                                              + |world.ackCalls| - |old(world.ackCalls)|
    {
      var _ :- AcceptLocalTerminal(eventId);
      var data :- CheckAcceptance(eventId);
      if data.ack.value.delivered {
        return Done(data);
      }
      o := DeliverAcknowledgement(eventId);
    }

    /** Acknowledges one exact accepted return.  It never asks the transport more than once, only
        about this event, and not at all when the delivery is already recorded. */
    method Acknowledge(eventId: EventId) returns (o: Outcome<Journal>)
      requires Valid()
      modifies this, journal
      ensures Valid() && Extends(old(steps))
      ensures old(world.ackCalls) <= world.ackCalls
      ensures |world.ackCalls| <= |old(world.ackCalls)| + 1
      ensures |world.ackCalls| > |old(world.ackCalls)| ==>
                world.ackCalls[|old(world.ackCalls)|].eventId == eventId
      ensures o.Done? ==> HoldsAcceptance(o.value, eventId)
      ensures o.Done? && |world.ackCalls| == |old(world.ackCalls)| ==> o.value.ack.value.delivered
      ensures o.Done? && |world.ackCalls| > |old(world.ackCalls)| ==>
                Attempted(eventId, world.ackCalls[|old(world.ackCalls)|], o.value)
      ensures o.Raised? ==> world.ackCalls == old(world.ackCalls)
      ensures o.Raised? && old(world.journal.retention).Some? && old(world.ack) == AckFree ==>
                world.ackRaised || old(world.journal.retention).value.eventId != eventId
      ensures o.Done? && old(world.journal.retention).Some? && old(world.journal.ack).Some? ==>
                o.value.ack.value.attempts == old(world.journal.ack.value.attempts)
                                              + |world.ackCalls| - |old(world.ackCalls)|
    {
      if world.ack != AckFree {
        return Raised;
      }
      var before := world;
      world := world.(ack := AckHeld, ackRaised := false);
      Record(AckAcquire, before);
      o := AcknowledgeLocked(eventId);
      before := world;
      world := world.(ack := AckFree);
      Record(AckRelease, before);
    }

    // ----- Waiting -----

    /** Everybody else takes any number of steps while this caller sleeps or waits for a lock. */
    method EveryoneRuns()
      requires Valid()
      modifies this, journal
      ensures Valid() && Extends(old(steps))
      ensures old(world.journal.receipt).Some? ==> world.journal.receipt.Some?
    {
      var n := AnyCount();
      for i := 0 to n
        invariant Valid() && Extends(old(steps))
        invariant old(world.journal.receipt).Some? ==> world.journal.receipt.Some?
      {
        var step := AnyStep();
        if Apply(world, step).Success? {
          var before := world;
          world := Apply(world, step).value;
          journal.file := Some(world.journal);
          StepHasSkeleton(before, step);
          Record(step, before);
        }
      }
    }

    /** The watchdog writes what it observed without holding the operation lock. */
    method ReportNoProgress(state: TestState, observed: Status) returns (o: Outcome<Journal>)
      requires Valid() && world.journal.receipt.Some? && !Terminal(state) && state != Prepared
      modifies this, journal
      ensures Valid() && Extends(old(steps))
      ensures o.Done? ==> o.value.receipt.Some? && o.value.state == state
                          && o.value.remote == Some(NoProgress(observed, state))
    {
      EveryoneRuns();
      var remote := NoProgress(observed, state);
      var before := world;
      var r := journal.Transition(state, Some(remote));
      if r.Rejected? {
        return Raised;
      }
      world := world.(journal := r.value);
      Record(Watchdog(state, remote), before);
      return Done(r.value);
    }

    /** Polls until the request is terminal or uncertain.  A result of the watchdog says that the
        execution had been seen running and carries the state that was observed. */
    method Wait() returns (o: Outcome<Journal>)
      requires Valid()
      modifies this, journal
      ensures Valid() && Extends(old(steps))
      ensures o.Done? ==> Terminal(o.value.state) || o.value.state == Uncertain
                          || (o.value.receipt.Some? && o.value.remote.Some? && ReportsNoProgress(o.value.remote.value))
    {
      var polls := AnyCount();
      for i := 0 to polls
        invariant Valid() && Extends(old(steps))
      {
        EveryoneRuns();
        assert StatesHaveReceipts(world.journal) by {
          ReachableInv(requestId, steps, world);
        }
        var data :- Status();
        if Terminal(data.state) || data.state == Uncertain {
          return Done(data);
        }
        assert StatesHaveReceipts(world.journal) by {
          ReachableInv(requestId, steps, world);
        }
        var noProgress: bool := *;
        if noProgress && WatchdogApplicable(data) {
          var remote := data.remote.value;
          o := ReportNoProgress(data.state, remote);
          return;
        }
      }
      return Raised;
    }
  }
}

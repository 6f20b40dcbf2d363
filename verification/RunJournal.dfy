/** The durable journal of one gateway request: the dictionary in its file, the operations that
    read, change and atomically replace it, and what no operation can change. */
module RunJournals {
  import opened Wrappers
  import opened GatewayContracts

  datatype EdgeKind = Opened | Moved | CancellationRequested | PrepublicationResumed

  datatype Edge = Edge(from: Option<TestState>, to: TestState, kind: EdgeKind)

  datatype FileEntry = FileEntry(path: string, size: nat, sha256: string)

  /** The immutable index of the terminal evidence kept on local disk. */
  datatype Retention = Retention(eventId: EventId, files: seq<FileEntry>)

  datatype Ack = Ack(eventId: EventId, delivered: bool, priorObservation: bool,
                     attempts: nat, lastError: string)

  datatype Journal = Journal(
    requestId: string,
    state: TestState,
    receipt: Option<Receipt>,
    remote: Option<Status>,
    cancellation: Option<string>,
    events: seq<Edge>,
    ingest: Option<Event>,
    retention: Option<Retention>,
    ack: Option<Ack>,
    lastPrepublicationFailure: Option<Status>)

  const INVALID_REQUEST: string := "invalid-request"
  const ACK_PENDING: string := ":ack-pending"
  const ACKNOWLEDGED: string := ":acknowledged"

  // ----- What each journal operation does to the dictionary -----

  function Fresh(requestId: string): Journal {
    Journal(requestId, Prepared, None, None, None, [Edge(None, Prepared, Opened)],
            None, None, None, None)
  }

  function Initialized(file: Option<Journal>, requestId: string): Result<Journal> {
    if file.None? then Success(Fresh(requestId))
    else if file.value.requestId != requestId then Rejected
    else Success(file.value)
  }

  function StoredReceipt(j: Journal): Result<Option<Receipt>> {
    if j.receipt.None? then Success(None)
    else
      var receipt :- ReceiptFromStored(j.receipt.value);
      Success(Some(receipt))
  }

  function AttachReceipt(j: Journal, receipt: Receipt): Result<Journal> {
    if receipt.requestId != j.requestId then Rejected
    else if j.receipt.Some? && j.receipt.value != receipt then Rejected
    else Success(j.(receipt := Some(receipt)))
  }

  function AttachTerminalIngestEvent(j: Journal, event: Event): Result<Journal> {
    if j.ingest.Some? && !SameEvent(j.ingest.value, event) then Rejected
    else Success(if j.ingest.None? then j.(ingest := Some(event)) else j)
  }

  /** A failure recorded as one that happened before its publication started.  Nothing in it tells
      whether an earlier publication of the request had started. */
  predicate PrepublicationShape(status: Status) {
    status.classification == INVALID_REQUEST && status.metrics.publicationStarted == Some(false)
  }

  predicate Resumable(j: Journal) {
    && j.state.Failed? && j.receipt.None?
    && j.remote.Some? && PrepublicationShape(j.remote.value)
  }

  function ResumePrepublicationFailure(j: Journal): Journal {
    if !Resumable(j) then j
    else
      j.(state := Prepared, lastPrepublicationFailure := j.remote, remote := None,
         events := j.events + [Edge(Some(Failed), Prepared, PrepublicationResumed)])
  }

  /** index is what scanning the evidence on disk yields now; it may fail. */
  function AcceptTerminal(j: Journal, receipt: Receipt, status: Status, retained: Retention,
                          index: Result<seq<FileEntry>>): Result<Journal>
  {
    var event :- TerminalIngestEvent(receipt, status);
    if j.receipt != Some(receipt) then Rejected
    else if j.ingest.Some? && !SameEvent(j.ingest.value, event) then Rejected
    else if j.retention.Some? then
      if j.retention.value != retained || j.state != status.state then Rejected else Success(j)
    else
      var files :- index;
      if retained != Retention(event.id, files) then Rejected
      else if j.state != status.state
              && (Terminal(j.state) || status.state !in AllowedTransitions(j.state)) then Rejected
      else
        var ready := status.metrics.returnPathReady == Some(true);
        Success(j.(
          state := status.state, remote := Some(status), ingest := Some(event),
          retention := Some(retained), ack := Some(Ack(event.id, ready, ready, 0, "")),
          events := if j.state == status.state then j.events
                    else j.events + [Edge(Some(j.state), status.state, Moved)]))
  }

  predicate HoldsAcceptance(j: Journal, eventId: EventId) {
    && j.ingest.Some? && j.ingest.value.id == eventId
    && j.retention.Some? && j.retention.value.eventId == eventId
    && j.ack.Some? && j.ack.value.eventId == eventId
  }

  /** Rebuilds the terminal identity from the stored receipt and status and compares it. */
  function ReadTerminalAcceptance(j: Journal, eventId: EventId): Result<Journal> {
    if !HoldsAcceptance(j, eventId) || j.receipt.None? || j.remote.None? then Rejected
    else
      var receipt :- ReceiptFromStored(j.receipt.value);
      var event :- TerminalIngestEvent(receipt, j.remote.value);
      if j.state != j.remote.value.state || !SameEvent(j.ingest.value, event) then Rejected
      else Success(j)
  }

  function RequireTerminalAcceptance(j: Journal, eventId: EventId,
                                     index: Result<seq<FileEntry>>): Result<Journal>
  {
    var data :- ReadTerminalAcceptance(j, eventId);
    var files :- index;
    if data.retention != Some(Retention(eventId, files)) then Rejected else Success(data)
  }

  function RemoveSuffix(s: string, suffix: string): string {
    if |suffix| <= |s| && s[|s| - |suffix|..] == suffix then s[..|s| - |suffix|] else s
  }

  function Acknowledge(remote: Status): Status {
    remote.(metrics := remote.metrics.(returnPathReady := Some(true), ackDeferred := Some(false)),
            classification := RemoveSuffix(remote.classification, ACK_PENDING) + ACKNOWLEDGED)
  }

  function RecordTerminalAck(j: Journal, eventId: EventId, begin: bool, acknowledged: bool,
                             error: string): Result<Journal>
  {
    if j.ack.None? || j.ack.value.eventId != eventId then Rejected
    else if j.ack.value.delivered then Success(j)
    else if acknowledged && j.remote.None? then Rejected
    else
      var ack := j.ack.value.(
        attempts := j.ack.value.attempts + (if begin then 1 else 0),
        lastError := error[..if |error| <= 2000 then |error| else 2000],
        delivered := acknowledged);
      Success(j.(ack := Some(ack),
                 remote := if acknowledged then Some(Acknowledge(j.remote.value)) else j.remote))
  }

  function RequestCancellation(j: Journal, reason: string): Result<Journal> {
    var normalized := StripRight(StripLeft(reason));
    if Terminal(j.state) then Success(j)
    else if |normalized| == 0 || |normalized| > 1000 then Rejected
    else if j.cancellation.Some? then
      if j.cancellation.value != normalized then Rejected else Success(j)
    else
      Success(j.(cancellation := Some(normalized),
                 events := j.events + [Edge(Some(j.state), j.state, CancellationRequested)]))
  }

  function Transition(j: Journal, target: TestState, remote: Option<Status>): Result<Journal> {
    if j.state == target then
      if remote.Some? && j.remote != remote then
        if j.retention.Some? then Rejected else Success(j.(remote := remote))
      else Success(j)
    else if Terminal(j.state) || target !in AllowedTransitions(j.state) then Rejected
    else
      Success(j.(state := target, remote := if remote.Some? then remote else j.remote,
                 events := j.events + [Edge(Some(j.state), target, Moved)]))
  }

  /** Every way to change the file of an existing journal. */
  datatype JournalOp =
    | DoAttachReceipt(receipt: Receipt)
    | DoAttachEvent(event: Event)
    | DoResume
    | DoAccept(receipt: Receipt, status: Status, retained: Retention, index: Result<seq<FileEntry>>)
    | DoRecordAck(eventId: EventId, begin: bool, acknowledged: bool, error: string)
    | DoRequestCancellation(reason: string)
    | DoTransition(target: TestState, remote: Option<Status>)

  function Perform(j: Journal, op: JournalOp): Result<Journal> {
    match op
    case DoAttachReceipt(receipt) => AttachReceipt(j, receipt)
    case DoAttachEvent(event) => AttachTerminalIngestEvent(j, event)
    case DoResume => Success(ResumePrepublicationFailure(j))
    case DoAccept(receipt, status, retained, index) =>
      AcceptTerminal(j, receipt, status, retained, index)
    case DoRecordAck(eventId, begin, acknowledged, error) =>
      RecordTerminalAck(j, eventId, begin, acknowledged, error)
    case DoRequestCancellation(reason) => RequestCancellation(j, reason)
    case DoTransition(target, remote) => Transition(j, target, remote)
  }

  // ----- The event list is a walk through the state graph -----

  predicate LegalEdge(e: Edge) {
    e.from.Some? &&
    match e.kind
    case Opened => false
    case Moved => e.to in AllowedTransitions(e.from.value)
    case CancellationRequested => e.to == e.from.value && !Terminal(e.to)
    case PrepublicationResumed => e.from.value == Failed && e.to == Prepared
  }

  predicate IsWalk(events: seq<Edge>, state: TestState) {
    && |events| > 0
    && events[0] == Edge(None, Prepared, Opened)
    && (forall i :: 1 <= i < |events| ==>
          LegalEdge(events[i]) && events[i].from == Some(events[i - 1].to))
    && events[|events| - 1].to == state
  }

  lemma WalkExtends(events: seq<Edge>, state: TestState, edge: Edge)
    requires IsWalk(events, state) && LegalEdge(edge) && edge.from == Some(state)
    ensures IsWalk(events + [edge], edge.to)
  {
    var longer := events + [edge];
    forall i | 1 <= i < |longer|
      ensures LegalEdge(longer[i]) && longer[i].from == Some(longer[i - 1].to)
    {
      if i < |events| {
        assert longer[i] == events[i];
      }
    }
  }

  // ----- Accepted terminals -----

  /** What an accepted terminal consists of: one event, computed from the stored receipt and
      status, with the retention and the acknowledgement intent that belong to it. */
  predicate AcceptanceIntact(j: Journal) {
    && j.retention.Some? && j.ingest.Some? && j.ack.Some? && j.receipt.Some? && j.remote.Some?
    && HoldsAcceptance(j, j.ingest.value.id)
    && Terminal(j.state) && j.remote.value.state == j.state
    && TerminalIngestEvent(j.receipt.value, j.remote.value) == Success(j.ingest.value)
  }

  predicate Coherent(j: Journal) {
    && IsWalk(j.events, j.state)
    && AcceptanceCoherent(j)
    && (j.receipt.Some? ==> j.receipt.value.requestId == j.requestId)
  }

  /** The parts of an accepted terminal that later operations may not touch. */
  predicate FrozenSince(before: Journal, after: Journal) {
    && after.state == before.state && after.receipt == before.receipt
    && after.ingest == before.ingest && after.retention == before.retention
    && after.events == before.events
    && before.remote.Some? && after.remote.Some?
    && after.remote.value.result == before.remote.value.result
    && before.ack.Some? && after.ack.Some?
    && after.ack.value.eventId == before.ack.value.eventId
    && after.ack.value.priorObservation == before.ack.value.priorObservation
    && before.ack.value.attempts <= after.ack.value.attempts
    && (before.ack.value.delivered ==> after.ack == before.ack && after.remote == before.remote)
  }

  lemma FreshIsCoherent(requestId: string)
    ensures Coherent(Fresh(requestId))
  {
  }

  lemma PerformKeepsWalk(j: Journal, op: JournalOp)
    requires IsWalk(j.events, j.state) && Perform(j, op).Success?
    ensures IsWalk(Perform(j, op).value.events, Perform(j, op).value.state)
  {
    var j' := Perform(j, op).value;
    if j'.events != j.events {
      WalkExtends(j.events, j.state, j'.events[|j.events|]);
      assert j'.events == j.events + [j'.events[|j.events|]];
    }
  }

  predicate AcceptanceCoherent(j: Journal) {
    && (j.retention.Some? ==> AcceptanceIntact(j))
    && (j.ack.Some? ==> j.retention.Some?)
  }

  lemma PerformKeepsAcceptance(j: Journal, op: JournalOp)
    requires AcceptanceCoherent(j) && Perform(j, op).Success?
    ensures AcceptanceCoherent(Perform(j, op).value)
  {
  }

  lemma PerformKeepsCoherent(j: Journal, op: JournalOp)
    requires Coherent(j) && Perform(j, op).Success?
    ensures Coherent(Perform(j, op).value)
  {
    PerformKeepsWalk(j, op);
    PerformKeepsAcceptance(j, op);
    PerformKeepsIdentity(j, op);
  }

  lemma PerformKeepsIdentity(j: Journal, op: JournalOp)
    requires j.receipt.Some? ==> j.receipt.value.requestId == j.requestId
    requires Perform(j, op).Success?
    ensures var j' := Perform(j, op).value;
            j'.receipt.Some? ==> j'.receipt.value.requestId == j'.requestId
  {
  }

  /** After acceptance no operation, accepted or refused, changes the state, the receipt, the
      event, the retention or the remote result, and a delivered acknowledgement stays. */
  lemma AcceptedIsFrozen(j: Journal, op: JournalOp)
    requires Coherent(j) && j.retention.Some? && Perform(j, op).Success?
    ensures FrozenSince(j, Perform(j, op).value)
  {
  }

  /** The acceptance read by the id of its own event always succeeds, and by any other id never. */
  lemma AcceptanceReadsBack(j: Journal, eventId: EventId)
    requires Coherent(j)
    ensures ReadTerminalAcceptance(j, eventId) ==
            if j.retention.Some? && j.retention.value.eventId == eventId then Success(j) else Rejected
  {
    if j.retention.Some? {
      EventReceiptRoundTrip(j.receipt.value, j.remote.value);
    }
  }

  /** An acknowledgement may start exactly for the event of the retained terminal, while the retained
      files are still what was retained. */
  lemma RequiredExactly(j: Journal, eventId: EventId, index: Result<seq<FileEntry>>)
    requires Coherent(j)
    ensures var required := RequireTerminalAcceptance(j, eventId, index);
            && (required.Success? <==>
                  && j.retention.Some? && j.retention.value.eventId == eventId
                  && index == Success(j.retention.value.files))
            && (required.Success? ==> required.value == j)
  {
    AcceptanceReadsBack(j, eventId);
  }

  // ----- When an operation is accepted, and what it writes -----

  /** The events are the earlier ones and one more. */
  predicate OneMoreEvent(j: Journal, edge: Edge, j': Journal) {
    j'.events == j.events + [edge]
  }

  /** A transition is accepted exactly along the allowed relation, or in place unless it would change
      the status of a retained terminal; it writes the state, the status if one is given, and an event
      if the state changed. */
  lemma MovedExactly(j: Journal, target: TestState, remote: Option<Status>)
    ensures var moved := Perform(j, DoTransition(target, remote));
            && (moved.Success? <==>
                  if j.state == target then remote.None? || remote == j.remote || j.retention.None?
                  else CanEnter(target, j.state))
            && (moved.Success? ==>
                  && moved.value == j.(state := target, remote := if remote.None? then j.remote else remote,
                                       events := moved.value.events)
                  && (if j.state == target then moved.value.events == j.events
                      else OneMoreEvent(j, Edge(Some(j.state), target, Moved), moved.value)))
  {
    TransitionsByTarget(j.state, target);
  }

  /** A receipt and an event are attached exactly if they belong to the request and do not contradict
      the ones that are there; an event that is there stays as it was written. */
  lemma AttachedExactly(j: Journal, receipt: Receipt, event: Event)
    ensures Perform(j, DoAttachReceipt(receipt)) ==
            if receipt.requestId == j.requestId && (j.receipt == None || j.receipt == Some(receipt))
            then Success(j.(receipt := Some(receipt))) else Rejected
    ensures Perform(j, DoAttachEvent(event)) ==
            (match j.ingest
             case None => Success(j.(ingest := Some(event)))
             case Some(earlier) => if OneEvent(earlier, event) then Success(j) else Rejected)
  {
  }

  /** Events that differ at most in how their artifact root is spelled. */
  predicate OneEvent(a: Event, b: Event) {
    && a.id == b.id && a.outcome == b.outcome && a.failureDomain == b.failureDomain
    && CanonicalRoot(a.artifactRoot) == CanonicalRoot(b.artifactRoot)
  }

  /** Only a failure recorded as one before publication is reopened, and its record is kept. */
  lemma ResumedExactly(j: Journal)
    ensures Perform(j, DoResume).Success?
    ensures var j' := Perform(j, DoResume).value;
            if j.state == Failed && j.receipt == None && j.remote.Some?
               && j.remote.value.classification == "invalid-request"
               && j.remote.value.metrics.publicationStarted == Some(false) then
              && j' == j.(state := Prepared, remote := None, lastPrepublicationFailure := j.remote,
                          events := j'.events)
              && OneMoreEvent(j, Edge(Some(Failed), Prepared, PrepublicationResumed), j')
            else j' == j
  {
  }

  /** A terminal is accepted the first time exactly for the receipt that is attached, an event that
      does not contradict an earlier one, the evidence as it is scanned, and a state that can be
      entered; delivery is recorded only if the status saw the return path ready.  Afterwards exactly
      the same acceptance is accepted again, and changes nothing. */
  lemma AcceptedExactly(j: Journal, receipt: Receipt, status: Status, retained: Retention,
                        index: Result<seq<FileEntry>>)
    ensures var event := TerminalIngestEvent(receipt, status);
            var accepted := Perform(j, DoAccept(receipt, status, retained, index));
            && (accepted.Success? <==>
                  && event.Success? && j.receipt == Some(receipt)
                  && (j.ingest.Some? ==> OneEvent(j.ingest.value, event.value))
                  && (j.retention.Some? ==> j.retention == Some(retained) && j.state == status.state)
                  && (j.retention.None? ==>
                        && index == Success(retained.files) && retained.eventId == event.value.id
                        && (j.state == status.state || CanEnter(status.state, j.state))))
            && (accepted.Success? && j.retention.Some? ==> accepted.value == j)
            && (accepted.Success? && j.retention.None? ==>
                  && accepted.value == j.(state := status.state, remote := Some(status), ingest := Some(event.value),
                                          retention := Some(retained), ack := accepted.value.ack,
                                          events := accepted.value.events)
                  && accepted.value.ack.Some?
                  && (var ack, ready := accepted.value.ack.value, status.metrics.returnPathReady == Some(true);
                      && ack.eventId == event.value.id && ack.attempts == 0 && ack.lastError == ""
                      && ack.delivered == ready && ack.priorObservation == ready)
                  && (if j.state == status.state then accepted.value.events == j.events
                      else OneMoreEvent(j, Edge(Some(j.state), status.state, Moved), accepted.value)))
  {
    TransitionsByTarget(j.state, status.state);
  }

  /** An acknowledgement is recorded exactly for the event that is to be acknowledged; a delivered one
      stays, and any other counts the attempt that begins and becomes delivered when confirmed. */
  lemma AckRecordedExactly(j: Journal, eventId: EventId, begin: bool, acknowledged: bool, error: string)
    ensures var recorded := Perform(j, DoRecordAck(eventId, begin, acknowledged, error));
            && (recorded.Success? <==>
                  && j.ack.Some? && j.ack.value.eventId == eventId
                  && (acknowledged && !j.ack.value.delivered ==> j.remote.Some?))
            && (recorded.Success? && j.ack.value.delivered ==> recorded.value == j)
            && (recorded.Success? && !j.ack.value.delivered ==>
                  && recorded.value == j.(ack := recorded.value.ack, remote := recorded.value.remote)
                  && recorded.value.ack.Some?
                  && (var ack, ack' := j.ack.value, recorded.value.ack.value;
                      && ack'.eventId == eventId && ack'.priorObservation == ack.priorObservation
                      && ack'.delivered == acknowledged
                      && ack'.lastError == (if |error| <= 2000 then error else error[..2000])
                      && ack'.attempts == ack.attempts + (if begin then 1 else 0))
                  && (!acknowledged ==> recorded.value.remote == j.remote)
                  && (acknowledged ==>
                        && recorded.value.remote.Some?
                        && recorded.value.remote.value.result == j.remote.value.result
                        && recorded.value.remote.value.state == j.remote.value.state
                        && recorded.value.remote.value.metrics.returnPathReady == Some(true)
                        && recorded.value.remote.value.metrics.ackDeferred == Some(false)))
  {
  }

  /** A cancellation of a request that has not ended is recorded once, with its reason; asking again
      for the same reason changes nothing, and another reason is refused. */
  lemma CancellationRecordedExactly(j: Journal, reason: string)
    ensures var trimmed := StripRight(StripLeft(reason));
            var recorded := Perform(j, DoRequestCancellation(reason));
            && (Terminal(j.state) ==> recorded == Success(j))
            && (!Terminal(j.state) ==>
                  && (recorded.Success? <==>
                        1 <= |trimmed| <= 1000 && (j.cancellation == None || j.cancellation == Some(trimmed)))
                  && (recorded.Success? && j.cancellation.Some? ==> recorded.value == j)
                  && (recorded.Success? && j.cancellation.None? ==>
                        && recorded.value == j.(cancellation := Some(trimmed), events := recorded.value.events)
                        && OneMoreEvent(j, Edge(Some(j.state), j.state, CancellationRequested), recorded.value)))
  {
  }

  /** A journal is created once for its request, prepared and with nothing in it. */
  lemma InitializedExactly(file: Option<Journal>, requestId: string)
    ensures var made := Initialized(file, requestId);
            && (made.Success? <==> file.Some? ==> file.value.requestId == requestId)
            && (made.Success? && file.Some? ==> made.value == file.value)
            && (made.Success? && file.None? ==>
                  && made.value.requestId == requestId && made.value.state == Prepared
                  && made.value.receipt == None && made.value.remote == None && made.value.cancellation == None
                  && made.value.ingest == None && made.value.retention == None && made.value.ack == None
                  && made.value.events == [Edge(None, Prepared, Opened)])
  {
  }

  // ----- The journal object -----

  /** The journal file.  A write replaces the file in one step, so a dying process leaves either
      the old dictionary or the new one; the lock makes each operation below atomic. */
  class RunJournal {
    var file: Option<Journal>

    constructor ()
      ensures file == None
    {
      file := None;
    }

    method Initialize(requestId: string) returns (r: Result<Journal>)
      modifies this
      ensures r == Initialized(old(file), requestId)
      ensures file == if r.Success? then Some(r.value) else old(file)
    {
      if file.Some? {
        if file.value.requestId != requestId {
          return Rejected;
        }
        return Success(file.value);
      }
      var data := Journal(requestId, Prepared, None, None, None,
                          [Edge(None, Prepared, Opened)], None, None, None, None);
      file := Some(data);
      return Success(data);
    }

    method AttachReceipt(receipt: Receipt) returns (r: Result<Journal>)
      requires file.Some?
      modifies this
      ensures r == Perform(old(file.value), DoAttachReceipt(receipt))
      ensures file == if r.Success? then Some(r.value) else old(file)
    {
      var data := file.value;
      if receipt.requestId != data.requestId {
        return Rejected;
      }
      if data.receipt.Some? && data.receipt.value != receipt {
        return Rejected;
      }
      data := data.(receipt := Some(receipt));
      file := Some(data);
      return Success(data);
    }

    method AttachTerminalIngestEvent(event: Event) returns (r: Result<Journal>)
      requires file.Some?
      modifies this
      ensures r == Perform(old(file.value), DoAttachEvent(event))
      ensures file == if r.Success? then Some(r.value) else old(file)
    {
      var data := file.value;
      if data.ingest.Some? && !SameEvent(data.ingest.value, event) {
        return Rejected;
      }
      if data.ingest.None? {
        data := data.(ingest := Some(event));
      }
      file := Some(data);
      return Success(data);
    }

    method ResumePrepublicationFailure() returns (r: Result<Journal>)
      requires file.Some?
      modifies this
      ensures r == Perform(old(file.value), DoResume)
      ensures file == Some(r.value)
    {
      var data := file.value;
      if data.state != Failed {
        return Success(data);
      }
      if data.receipt.Some? || data.remote.None?
         || data.remote.value.classification != INVALID_REQUEST
         || data.remote.value.metrics.publicationStarted != Some(false) {
        return Success(data);
      }
      data := data.(state := Prepared, lastPrepublicationFailure := data.remote, remote := None);
      data := data.(events := data.events + [Edge(Some(Failed), Prepared, PrepublicationResumed)]);
      file := Some(data);
      return Success(data);
    }

    method AcceptTerminal(receipt: Receipt, status: Status, retained: Retention,
                          index: Result<seq<FileEntry>>) returns (r: Result<Journal>)
      requires file.Some?
      modifies this
      ensures r == Perform(old(file.value), DoAccept(receipt, status, retained, index))
      ensures file == if r.Success? then Some(r.value) else old(file)
    {
      var event :- TerminalIngestEvent(receipt, status);
      var data := file.value;
      if data.receipt != Some(receipt) {
        return Rejected;
      }
      if data.ingest.Some? && !SameEvent(data.ingest.value, event) {
        return Rejected;
      }
      if data.retention.Some? {
        if data.retention.value != retained || data.state != status.state {
          return Rejected;
        }
        return Success(data);
      }
      var files :- index;
      if retained != Retention(event.id, files) {
        return Rejected;
      }
      var current := data.state;
      if current != status.state
         && (Terminal(current) || status.state !in AllowedTransitions(current)) {
        return Rejected;
      }
      var priorAck := status.metrics.returnPathReady == Some(true);
      data := data.(state := status.state, remote := Some(status), ingest := Some(event),
                    retention := Some(retained),
                    ack := Some(Ack(event.id, priorAck, priorAck, 0, "")));
      if current != status.state {
        data := data.(events := data.events + [Edge(Some(current), status.state, Moved)]);
      }
      file := Some(data);
      return Success(data);
    }

    method RecordTerminalAck(eventId: EventId, begin: bool, acknowledged: bool, error: string)
      returns (r: Result<Journal>)
      requires file.Some?
      modifies this
      ensures r == Perform(old(file.value), DoRecordAck(eventId, begin, acknowledged, error))
      ensures file == if r.Success? then Some(r.value) else old(file)
    {
      var data := file.value;
      if data.ack.None? || data.ack.value.eventId != eventId {
        return Rejected;
      }
      var ack := data.ack.value;
      if ack.delivered {
        return Success(data);
      }
      if begin {
        ack := ack.(attempts := ack.attempts + 1);
      }
      ack := ack.(lastError := error[..if |error| <= 2000 then |error| else 2000]);
      if acknowledged {
        ack := ack.(delivered := true);
        if data.remote.None? {
          return Rejected;
        }
        var remote := data.remote.value;
        var metrics := remote.metrics;
        metrics := metrics.(returnPathReady := Some(true));
        metrics := metrics.(ackDeferred := Some(false));
        remote := remote.(metrics := metrics);
        remote := remote.(classification := RemoveSuffix(remote.classification, ACK_PENDING) + ACKNOWLEDGED);
        data := data.(remote := Some(remote));
      }
      data := data.(ack := Some(ack));
      file := Some(data);
      return Success(data);
    }

    method RequestCancellation(reason: string) returns (r: Result<Journal>)
      requires file.Some?
      modifies this
      ensures r == Perform(old(file.value), DoRequestCancellation(reason))
      ensures file == if r.Success? then Some(r.value) else old(file)
    {
      var data := file.value;
      if Terminal(data.state) {
        return Success(data);
      }
      var normalized := StripRight(StripLeft(reason));
      if |normalized| == 0 || |normalized| > 1000 {
        return Rejected;
      }
      if data.cancellation.Some? {
        if data.cancellation.value != normalized {
          return Rejected;
        }
        return Success(data);
      }
      data := data.(cancellation := Some(normalized));
      data := data.(events := data.events + [Edge(Some(data.state), data.state, CancellationRequested)]);
      file := Some(data);
      return Success(data);
    }

    method Transition(target: TestState, remote: Option<Status>) returns (r: Result<Journal>)
      requires file.Some?
      modifies this
      ensures r == Perform(old(file.value), DoTransition(target, remote))
      ensures file == if r.Success? then Some(r.value) else old(file)
    {
      var data := file.value;
      var current := data.state;
      if current == target {
        if remote.Some? && data.remote != remote {
          if data.retention.Some? {
            return Rejected;
          }
          data := data.(remote := remote);
          file := Some(data);
        }
        return Success(data);
      }
      if Terminal(current) || target !in AllowedTransitions(current) {
        return Rejected;
      }
      data := data.(state := target);
      if remote.Some? {
        data := data.(remote := remote);
      }
      data := data.(events := data.events + [Edge(Some(current), target, Moved)]);
      file := Some(data);
      return Success(data);
    }
  }
}

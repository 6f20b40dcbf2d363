/** The frozen values of the test gateway: request states, receipts, statuses and the terminal
    ingest event that binds a result to its acknowledgement.  Schema strings are flags and a
    SHA-256 of an identity is the identity itself. */
module GatewayContracts {
  import opened Wrappers

  datatype TestState =
    | Prepared | Publishing | Accepted | Running | Collecting
    | Cancelling | Completed | Failed | Cancelled | Uncertain

  predicate Terminal(s: TestState) {
    s.Completed? || s.Failed? || s.Cancelled?
  }

  /** The constant transition table of the journal. */
  function AllowedTransitions(s: TestState): set<TestState> {
    match s
    case Prepared => {Publishing, Failed, Cancelled}
    case Publishing => {Accepted, Running, Completed, Failed, Uncertain}
    case Accepted => {Running, Collecting, Completed, Failed, Cancelled, Cancelling, Uncertain}
    case Running => {Collecting, Completed, Failed, Cancelled, Cancelling, Uncertain}
    case Collecting => {Completed, Failed, Cancelled, Cancelling, Uncertain}
    case Uncertain =>
      {Publishing, Accepted, Running, Collecting, Completed, Failed, Cancelled, Cancelling}
    case Cancelling => {Completed, Failed, Cancelled, Uncertain}
    case Completed => {}
    case Failed => {}
    case Cancelled => {}
  }

  /** The same relation, seen from the state that is entered. */
  predicate CanEnter(target: TestState, s: TestState) {
    && !Terminal(s) && s != target
    && match target
       case Prepared => false
       case Publishing => s == Prepared || s == Uncertain
       case Accepted => s == Publishing || s == Uncertain
       case Running => s == Publishing || s == Accepted || s == Uncertain
       case Collecting => s == Accepted || s == Running || s == Uncertain
       case Cancelling => s == Accepted || s == Running || s == Collecting || s == Uncertain
       case Completed => s != Prepared
       case Failed => true
       case Cancelled => s != Publishing
       case Uncertain => s != Prepared
  }

  /** Nothing leads back to PREPARED or out of a terminal; every request that has not ended can fail;
      only a started one completes or becomes uncertain; and a publication is never cancelled before
      its outcome is known. */
  lemma TransitionsByTarget(s: TestState, target: TestState)
    ensures target in AllowedTransitions(s) <==> CanEnter(target, s)
  {
  }

  datatype Details = Details(wireV3: bool, envelopeDigest: string, rest: int)

  datatype Receipt = Receipt(requestId: string, attemptId: string, outputSubdir: string,
                             accepted: bool, details: Details)

  datatype TerminalResult = TerminalResult(
    wireV3: bool, requestId: string, attemptId: string, receiptId: string,
    payloadSha: string, revision: Option<int>, outcome: string, failureDomain: string,
    artifactRoot: string)

  /** engineRunning and heartbeatFresh stand for the engine-state and heartbeat entries that the
      no-progress watchdog looks at; progress stands for every other metric. */
  datatype Metrics = Metrics(
    publicationStarted: Option<bool>, returnPathReady: Option<bool>, ackDeferred: Option<bool>,
    engineRunning: bool, heartbeatFresh: bool, progress: int)

  datatype Status = Status(requestId: string, state: TestState, classification: string,
                           result: TerminalResult, metrics: Metrics)

  const NO_RESULT := TerminalResult(false, "", "", "", "", None, "", "", "")

  const NO_METRICS := Metrics(None, None, None, false, false, 0)

  /** The digest of this identity is the event id; distinct identities have distinct ids. */
  datatype EventId = EventId(requestId: string, attemptId: string, receiptId: string,
                             revision: int, payloadSha: string, envelope: string)

  datatype Event = Event(id: EventId, outcome: string, failureDomain: string, artifactRoot: string)

  // ----- Token and digest syntax -----

  predicate IsSpace(c: char) {
    var n := c as int;
    9 <= n <= 13 || 28 <= n <= 32 || n == 0x85 || n == 0xA0 || n == 0x1680
    || 0x2000 <= n <= 0x200A || n == 0x2028 || n == 0x2029 || n == 0x202F || n == 0x205F
    || n == 0x3000
  }

  function StripLeft(s: string): (t: string)
    ensures |t| <= |s|
  {
    if s != "" && IsSpace(s[0]) then StripLeft(s[1..]) else s
  }

  function StripRight(s: string): (t: string)
    ensures |t| <= |s|
  {
    if s != "" && IsSpace(s[|s| - 1]) then StripRight(s[..|s| - 1]) else s
  }

  predicate Alphanumeric(c: char) {
    'a' <= c <= 'z' || 'A' <= c <= 'Z' || '0' <= c <= '9'
  }

  predicate IsSafeToken(s: string) {
    && 1 <= |s| <= 128
    && Alphanumeric(s[0])
    && forall i :: 0 <= i < |s| ==> Alphanumeric(s[i]) || s[i] == '.' || s[i] == '_' || s[i] == '-'
  }

  function SafeToken(s: string): Result<string> {
    var t := StripRight(StripLeft(s));
    if IsSafeToken(t) then Success(t) else Rejected
  }

  function LowerChar(c: char): char {
    if 'A' <= c <= 'Z' then (c as int + 32) as char else c
  }

  function Lower(s: string): string {
    seq(|s|, i requires 0 <= i < |s| => LowerChar(s[i]))
  }

  predicate IsSha256(s: string) {
    |s| == 64 && forall i :: 0 <= i < |s| ==> '0' <= s[i] <= '9' || 'a' <= s[i] <= 'f'
  }

  /** Reading a token back gives the token: a stored identity survives the receipt round trip. */
  lemma SafeTokenStable(s: string)
    requires IsSafeToken(s)
    ensures SafeToken(s) == Success(s)
  {
    assert !IsSpace(s[0]) && !IsSpace(s[|s| - 1]);
  }

  // ----- Receipts, statuses and the terminal event -----

  /** Decoding of a stored receipt dictionary; the writer stores the fields as they are. */
  function ReceiptFromStored(raw: Receipt): Result<Receipt> {
    var requestId :- SafeToken(raw.requestId);
    var attemptId :- SafeToken(raw.attemptId);
    Success(raw.(requestId := requestId, attemptId := attemptId))
  }

  /** Windows long-path aliases collapse to the plain path. */
  function CanonicalRoot(value: string): string {
    if "\\\\?\\UNC\\" <= value then "\\\\" + value[8..]
    else if "\\\\?\\" <= value then value[4..]
    else value
  }

  predicate SameEvent(a: Event, b: Event) {
    a.(artifactRoot := CanonicalRoot(a.artifactRoot)) == b.(artifactRoot := CanonicalRoot(b.artifactRoot))
  }

  function TerminalIngestEvent(receipt: Receipt, status: Status): Result<Event> {
    var result := status.result;
    if !Terminal(status.state) || !result.wireV3 then Rejected else
    var requestId :- SafeToken(result.requestId);
    var attemptId :- SafeToken(result.attemptId);
    var receiptId :- SafeToken(result.receiptId);
    if requestId != receipt.requestId || requestId != status.requestId then Rejected else
    if attemptId != receipt.attemptId then Rejected else
    var payload := Lower(result.payloadSha);
    var envelope := Lower(receipt.details.envelopeDigest);
    if !IsSha256(payload) || !IsSha256(envelope) then Rejected else
    if result.revision.None? || result.revision.value < 0 then Rejected else
    Success(Event(
      EventId(requestId, attemptId, receiptId, result.revision.value, payload, envelope),
      result.outcome, result.failureDomain, CanonicalRoot(result.artifactRoot)))
  }

  /** The token that a text holds between its white space. */
  predicate Holds(text: string, token: string) {
    IsSafeToken(token) && StripRight(StripLeft(text)) == token
  }

  predicate HexDigest(text: string) {
    |text| == 64 && forall i :: 0 <= i < 64 ==> LowerChar(text[i]) in "0123456789abcdef"
  }

  /** An event is computed exactly for a terminal wire status whose result names this request and
      attempt and a receipt, with two digests and a revision; and it says what they say. */
  lemma EventExactly(receipt: Receipt, status: Status, event: Event)
    ensures TerminalIngestEvent(receipt, status).Success? <==>
              && (status.state.Completed? || status.state.Failed? || status.state.Cancelled?) && status.result.wireV3
              && Holds(status.result.requestId, receipt.requestId) && status.requestId == receipt.requestId
              && Holds(status.result.attemptId, receipt.attemptId)
              && SafeToken(status.result.receiptId).Success?
              && HexDigest(status.result.payloadSha) && HexDigest(receipt.details.envelopeDigest)
              && status.result.revision.Some? && status.result.revision.value >= 0
    ensures TerminalIngestEvent(receipt, status) == Success(event) ==>
              && event.id.requestId == receipt.requestId && event.id.attemptId == receipt.attemptId
              && Holds(status.result.receiptId, event.id.receiptId)
              && Some(event.id.revision) == status.result.revision
              && event.id.payloadSha == Lower(status.result.payloadSha)
              && event.id.envelope == Lower(receipt.details.envelopeDigest)
              && event.outcome == status.result.outcome && event.failureDomain == status.result.failureDomain
              && event.artifactRoot == CanonicalRoot(status.result.artifactRoot)
  {
    DigestExactly(status.result.payloadSha);
    DigestExactly(receipt.details.envelopeDigest);
  }

  lemma DigestExactly(text: string)
    ensures IsSha256(Lower(text)) <==> HexDigest(text)
  {
    if |text| == 64 {
      forall i | 0 <= i < 64
        ensures LowerChar(text[i]) in "0123456789abcdef"
                <==> '0' <= Lower(text)[i] <= '9' || 'a' <= Lower(text)[i] <= 'f'
      {
        HexDigits(LowerChar(text[i]));
      }
    }
  }

  lemma HexDigits(c: char)
    ensures c in "0123456789abcdef" <==> '0' <= c <= '9' || 'a' <= c <= 'f'
  {
    var digits := "0123456789abcdef";
    if '0' <= c <= '9' {
      assert digits[c as int - '0' as int] == c;
    } else if 'a' <= c <= 'f' {
      assert digits[10 + (c as int - 'a' as int)] == c;
    }
  }

  /** The event of a receipt that is not a Wire V3 receipt, or of a status that is not terminal,
      is absent; for the others it is computed and may be refused. */
  function WireTerminalEvent(receipt: Receipt, status: Status): Option<Result<Event>> {
    if !Terminal(status.state) || !receipt.details.wireV3 then None
    else Some(TerminalIngestEvent(receipt, status))
  }

  /** A receipt that produced an event is read back from the journal unchanged. */
  lemma EventReceiptRoundTrip(receipt: Receipt, status: Status)
    requires TerminalIngestEvent(receipt, status).Success?
    ensures ReceiptFromStored(receipt) == Success(receipt)
  {
    SafeTokenStable(receipt.requestId);
    SafeTokenStable(receipt.attemptId);
  }
}

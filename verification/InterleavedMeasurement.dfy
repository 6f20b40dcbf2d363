/** Measurement plans that interleave two labels in one session, and the schedule of a session. */
module InterleavedMeasurement {
  import opened Wrappers

  /** A label or session id as text. */
  datatype Token = Token(text: string)

  predicate Safe(t: Token) {
    t.text != "" && forall k :: 0 <= k < |t.text| ==> SafeChar(t.text[k])
  }

  predicate SafeChar(c: char) {
    'A' <= c <= 'Z' || 'a' <= c <= 'z' || '0' <= c <= '9' || c == '.' || c == '_' || c == '-'
  }

  /** A field that should hold an integer; flags and other values are not integers. */
  datatype Number = Int(value: int) | NotInt

  predicate Positive(n: Number) {
    n.Int? && n.value > 0
  }

  /** A malformed list counts as an empty one. */
  datatype RawSession = RawSession(id: Token, order: seq<Token>, blocks: Number, invocations: Number)

  datatype RawPlan = RawPlan(schemaOk: bool, singleArtifact: bool, identityOk: bool, labels: seq<Token>,
                             samples: Number, windowStart: Number, windowEnd: Number,
                             sessions: seq<RawSession>, pairKeyOk: bool)

  datatype Session = Session(id: Token, order: seq<Token>, blocks: int, invocations: int)

  datatype Plan = Plan(labels: seq<Token>, sessions: seq<Session>, samples: int,
                       windowStart: int, windowEnd: int)

  function Count(order: seq<Token>, tag: Token): (n: nat)
    ensures n <= |order|
  {
    if order == [] then 0
    else Count(order[..|order| - 1], tag) + if order[|order| - 1] == tag then 1 else 0
  }

  // ----- Normalization -----

  predicate LabelsOk(labels: seq<Token>) {
    |labels| == 2 && Safe(labels[0]) && Safe(labels[1]) && labels[0] != labels[1]
  }

  predicate HeaderOk(raw: RawPlan) {
    && raw.schemaOk && raw.singleArtifact && raw.identityOk && LabelsOk(raw.labels)
    && Positive(raw.samples) && raw.windowStart.Int? && raw.windowStart.value >= 0 && Positive(raw.windowEnd)
    && raw.windowStart.value < raw.windowEnd.value <= raw.samples.value
    && |raw.sessions| >= 2
  }

  predicate SessionOk(s: RawSession, labels: seq<Token>, samples: int)
    requires |labels| == 2
  {
    && Safe(s.id) && s.order != [] && (forall k :: 0 <= k < |s.order| ==> s.order[k] in labels)
    && Count(s.order, labels[0]) == Count(s.order, labels[1]) > 0
    && Positive(s.blocks) && Positive(s.invocations)
    && s.blocks.value * s.invocations.value * Count(s.order, labels[0]) == samples
  }

  predicate StartsWith(sessions: seq<RawSession>, tag: Token) {
    exists k :: 0 <= k < |sessions| && sessions[k].order != [] && sessions[k].order[0] == tag
  }

  predicate PlanOk(raw: RawPlan) {
    && HeaderOk(raw) && raw.pairKeyOk
    && (forall k {:trigger SessionOk(raw.sessions[k], raw.labels, raw.samples.value)} :: 0 <= k < |raw.sessions| ==>
          SessionOk(raw.sessions[k], raw.labels, raw.samples.value))
    && (forall j, k :: 0 <= j < k < |raw.sessions| ==> raw.sessions[j].id != raw.sessions[k].id)
    && StartsWith(raw.sessions, raw.labels[0]) && StartsWith(raw.sessions, raw.labels[1])
  }

  predicate Mirrors(s: Session, raw: RawSession) {
    && s.id == raw.id && s.order == raw.order
    && raw.blocks == Int(s.blocks) && raw.invocations == Int(s.invocations)
  }

  /** The plan holds exactly what the raw plan said. */
  predicate Normalizes(raw: RawPlan, plan: Plan) {
    && PlanOk(raw)
    && plan.labels == raw.labels && plan.samples == raw.samples.value
    && plan.windowStart == raw.windowStart.value && plan.windowEnd == raw.windowEnd.value
    && |plan.sessions| == |raw.sessions|
    && (forall k :: 0 <= k < |plan.sessions| ==> Mirrors(plan.sessions[k], raw.sessions[k]))
  }

  lemma {:induction false} CountIsMultiplicity(order: seq<Token>, tag: Token)
    ensures Count(order, tag) == multiset(order)[tag]
  {
    if order != [] {
      CountIsMultiplicity(order[..|order| - 1], tag);
      assert order == order[..|order| - 1] + [order[|order| - 1]];
    }
  }

  /** A session that runs both labels equally often, and each as often as the plan has samples. */
  predicate Balanced(s: RawSession, a: Token, b: Token, samples: int) {
    && Safe(s.id) && s.order != [] && (forall t :: t in s.order ==> t == a || t == b)
    && s.blocks.Int? && s.blocks.value >= 1 && s.invocations.Int? && s.invocations.value >= 1
    && multiset(s.order)[a] == multiset(s.order)[b]
    && s.blocks.value * s.invocations.value * multiset(s.order)[a] == samples
  }

  lemma BalancedExactly(s: RawSession, labels: seq<Token>, samples: int)
    requires |labels| == 2 && samples > 0
    ensures SessionOk(s, labels, samples) <==> Balanced(s, labels[0], labels[1], samples)
  {
    CountIsMultiplicity(s.order, labels[0]);
    CountIsMultiplicity(s.order, labels[1]);
    assert forall t :: t in labels <==> t == labels[0] || t == labels[1];
    if forall t :: t in s.order ==> t == labels[0] || t == labels[1] {
      forall k | 0 <= k < |s.order|
        ensures s.order[k] in labels
      {
        assert s.order[k] in s.order;
      }
    }
    var count := Count(s.order, labels[0]);
    if count == 0 && s.blocks.Int? && s.invocations.Int? {
      assert s.blocks.value * s.invocations.value * count == 0;
    }
  }

  lemma SessionsBalancedExactly(sessions: seq<RawSession>, labels: seq<Token>, samples: int)
    requires |labels| == 2 && samples > 0
    ensures (forall k {:trigger SessionOk(sessions[k], labels, samples)} :: 0 <= k < |sessions| ==>
               SessionOk(sessions[k], labels, samples))
            <==> forall s {:trigger Balanced(s, labels[0], labels[1], samples)} :: s in sessions ==>
                   Balanced(s, labels[0], labels[1], samples)
  {
    forall k | 0 <= k < |sessions|
      ensures SessionOk(sessions[k], labels, samples) <==> Balanced(sessions[k], labels[0], labels[1], samples)
    {
      BalancedExactly(sessions[k], labels, samples);
    }
    if forall s :: s in sessions ==> Balanced(s, labels[0], labels[1], samples) {
      forall k | 0 <= k < |sessions|
        ensures SessionOk(sessions[k], labels, samples)
      {
        assert sessions[k] in sessions;
      }
    }
  }

  /** A plan is valid exactly if two labels are interleaved over at least two sessions with distinct
      ids, each of them balanced and each label starting one, around a window within the samples. */
  lemma PlanExactly(raw: RawPlan)
    ensures PlanOk(raw) <==>
              && raw.schemaOk && raw.singleArtifact && raw.identityOk && raw.pairKeyOk
              && |raw.labels| == 2 && Safe(raw.labels[0]) && Safe(raw.labels[1]) && raw.labels[0] != raw.labels[1]
              && raw.samples.Int? && raw.windowStart.Int? && raw.windowEnd.Int?
              && 0 <= raw.windowStart.value < raw.windowEnd.value <= raw.samples.value
              && |raw.sessions| > 1
              && (forall s {:trigger Balanced(s, raw.labels[0], raw.labels[1], raw.samples.value)} ::
                    s in raw.sessions ==> Balanced(s, raw.labels[0], raw.labels[1], raw.samples.value))
              && (forall i, j :: 0 <= i < j < |raw.sessions| ==> raw.sessions[i].id != raw.sessions[j].id)
              && Leads(raw.sessions, raw.labels[0]) && Leads(raw.sessions, raw.labels[1])
  {
    if HeaderOk(raw) {
      SessionsBalancedExactly(raw.sessions, raw.labels, raw.samples.value);
      StartsWithMember(raw.sessions, raw.labels[0]);
      StartsWithMember(raw.sessions, raw.labels[1]);
    }
  }

  /** Some session begins with the label. */
  predicate Leads(sessions: seq<RawSession>, tag: Token) {
    exists s :: s in sessions && s.order != [] && s.order[0] == tag
  }

  lemma StartsWithMember(sessions: seq<RawSession>, tag: Token)
    ensures StartsWith(sessions, tag) <==> Leads(sessions, tag)
  {
    if s :| s in sessions && s.order != [] && s.order[0] == tag {
      var k :| 0 <= k < |sessions| && sessions[k] == s;
    }
    if k :| 0 <= k < |sessions| && sessions[k].order != [] && sessions[k].order[0] == tag {
      assert sessions[k] in sessions;
    }
  }

  method CheckSession(s: RawSession, labels: seq<Token>, samples: int) returns (ok: bool)
    requires |labels| == 2
    ensures ok <==> SessionOk(s, labels, samples)
  {
    if !Safe(s.id) {
      return false;
    }
    if s.order == [] || exists i :: 0 <= i < |s.order| && s.order[i] !in labels {
      return false;
    }
    var count := Count(s.order, labels[0]);
    if count != Count(s.order, labels[1]) || count <= 0 {
      return false;
    }
    if !Positive(s.blocks) || !Positive(s.invocations) {
      return false;
    }
    return s.blocks.value * s.invocations.value * count == samples;
  }

  method NormalizePlan(raw: RawPlan) returns (plan: Result<Plan>)
    ensures plan.Success? <==> PlanOk(raw)
    ensures plan.Success? ==> Normalizes(raw, plan.value)
  {
    if !HeaderOk(raw) {
      return Rejected;
    }
    var labels, samples := raw.labels, raw.samples.value;
    var sessions: seq<Session> := [];
    var ids: set<Token> := {};
    var starting: set<Token> := {};
    for k := 0 to |raw.sessions|
      invariant |sessions| == k
      invariant forall j {:trigger SessionOk(raw.sessions[j], labels, samples)} :: 0 <= j < k ==>
        SessionOk(raw.sessions[j], labels, samples)
      invariant forall j :: 0 <= j < k ==> Mirrors(sessions[j], raw.sessions[j])
      invariant forall j, m :: 0 <= j < m < k ==> raw.sessions[j].id != raw.sessions[m].id
      invariant ids == set j | 0 <= j < k :: raw.sessions[j].id
      invariant starting == Starting(raw.sessions, k)
    {
      var s := raw.sessions[k];
      var ok := CheckSession(s, labels, samples);
      if s.id in ids || !ok {
        return Rejected;
      }
      ids := ids + {s.id};
      starting := starting + {s.order[0]};
      sessions := sessions + [Session(s.id, s.order, s.blocks.value, s.invocations.value)];
    }
    StartingIsStartsWith(raw.sessions, |raw.sessions|, labels[0]);
    StartingIsStartsWith(raw.sessions, |raw.sessions|, labels[1]);
    assert raw.sessions[..|raw.sessions|] == raw.sessions;
    if labels[0] !in starting || labels[1] !in starting {
      return Rejected;
    }
    if !raw.pairKeyOk {
      return Rejected;
    }
    return Success(Plan(labels, sessions, samples, raw.windowStart.value, raw.windowEnd.value));
  }

  function Starting(sessions: seq<RawSession>, k: nat): set<Token>
    requires k <= |sessions|
  {
    if k == 0 then {}
    else Starting(sessions, k - 1) + if sessions[k - 1].order == [] then {} else {sessions[k - 1].order[0]}
  }

  lemma {:induction false} StartingIsStartsWith(sessions: seq<RawSession>, k: nat, t: Token)
    requires k <= |sessions|
    ensures t in Starting(sessions, k) <==> StartsWith(sessions[..k], t)
  {
    if k > 0 {
      StartingIsStartsWith(sessions, k - 1, t);
      var longer, shorter := sessions[..k], sessions[..k - 1];
      if StartsWith(shorter, t) {
        var j :| 0 <= j < |shorter| && shorter[j].order != [] && shorter[j].order[0] == t;
        assert longer[j] == shorter[j];
      }
      if longer[k - 1].order != [] && longer[k - 1].order[0] == t {
        assert StartsWith(longer, t);
      }
      if StartsWith(longer, t) {
        var j :| 0 <= j < |longer| && longer[j].order != [] && longer[j].order[0] == t;
        assert j == k - 1 || shorter[j] == longer[j];
      }
    }
  }

  // ----- The schedule -----

  datatype Entry = Entry(sessionId: Token, caseId: int, block: int, epoch: int, invocation: int,
                         tag: Token, position: int, sequence: int)

  function CountLabel(schedule: seq<Entry>, tag: Token): (n: nat)
    ensures n <= |schedule|
  {
    if schedule == [] then 0
    else CountLabel(schedule[..|schedule| - 1], tag) + if schedule[|schedule| - 1].tag == tag then 1 else 0
  }

  /** What an epoch of the session contributes to each block and label. */
  function PerBlock(plan: Plan, s: Session): int
    requires |plan.labels| == 2
  {
    Count(s.order, plan.labels[0]) * s.invocations
  }

  /** An entry stands where its block, epoch and invocation say, carries the label of its epoch, is
      numbered among the entries of its label, and its position lies in the span of its block. */
  predicate EntryFits(plan: Plan, s: Session, caseId: int, e: Entry, i: nat, earlier: nat)
    requires |plan.labels| == 2
  {
    && e.sessionId == s.id && e.caseId == caseId && e.sequence == i
    && 1 <= e.block <= s.blocks && 0 <= e.epoch < |s.order| && 0 <= e.invocation < s.invocations
    && i == ((e.block - 1) * |s.order| + e.epoch) * s.invocations + e.invocation
    && e.tag == s.order[e.epoch] && e.position == earlier
    && (e.block - 1) * PerBlock(plan, s) <= e.position < e.block * PerBlock(plan, s)
  }

  predicate EntryOk(plan: Plan, s: Session, caseId: int, schedule: seq<Entry>, i: nat)
    requires |plan.labels| == 2 && i < |schedule|
  {
    EntryFits(plan, s, caseId, schedule[i], i, CountLabel(schedule[..i], schedule[i].tag))
  }

  predicate EntriesOk(plan: Plan, s: Session, caseId: int, schedule: seq<Entry>)
    requires |plan.labels| == 2
  {
    forall i {:trigger EntryOk(plan, s, caseId, schedule, i)} :: 0 <= i < |schedule| ==>
      EntryOk(plan, s, caseId, schedule, i)
  }

  predicate IsSchedule(plan: Plan, s: Session, caseId: int, schedule: seq<Entry>) {
    && |plan.labels| == 2 && plan.labels[0] != plan.labels[1]
    && |schedule| == 2 * plan.samples
    && CountLabel(schedule, plan.labels[0]) == CountLabel(schedule, plan.labels[1]) == plan.samples
    && PerBlock(plan, s) > 0
    && (forall i :: 0 <= i < |schedule| ==> schedule[i].tag in plan.labels)
    && EntriesOk(plan, s, caseId, schedule)
  }

  /** A session of a normalized plan. */
  predicate ValidSession(plan: Plan, s: Session) {
    && |plan.labels| == 2 && plan.labels[0] != plan.labels[1]
    && (forall k :: 0 <= k < |s.order| ==> s.order[k] in plan.labels)
    && Count(s.order, plan.labels[0]) == Count(s.order, plan.labels[1]) > 0
    && s.blocks > 0 && s.invocations > 0
    && s.blocks * s.invocations * Count(s.order, plan.labels[0]) == plan.samples
  }

  lemma {:induction false} CountsCover(order: seq<Token>, labels: seq<Token>, n: nat)
    requires |labels| == 2 && labels[0] != labels[1] && n <= |order|
    requires forall k :: 0 <= k < |order| ==> order[k] in labels
    ensures Count(order[..n], labels[0]) + Count(order[..n], labels[1]) == n
  {
    if n > 0 {
      CountsCover(order, labels, n - 1);
      assert order[..n][..n - 1] == order[..n - 1];
    }
  }

  lemma {:induction false} CountPrefix(order: seq<Token>, tag: Token, n: nat)
    requires n <= |order|
    ensures Count(order[..n], tag) <= Count(order, tag)
    decreases |order| - n
  {
    if n == |order| {
      assert order[..n] == order;
    } else {
      CountPrefix(order, tag, n + 1);
      assert order[..n + 1][..n] == order[..n];
    }
  }

  lemma CountExtend(order: seq<Token>, tag: Token, n: nat)
    requires n < |order|
    ensures Count(order[..n + 1], tag) == Count(order[..n], tag) + if order[n] == tag then 1 else 0
    ensures Count(order[..n + 1], tag) <= Count(order, tag)
  {
    assert order[..n + 1][..n] == order[..n];
    CountPrefix(order, tag, n + 1);
  }

  lemma Product(a: int, b: int, c: int)
    ensures (a + 1) * c == a * c + c
    ensures (a + b) * c == a * c + b * c
  {
  }

  lemma ProductMonotone(a: int, b: int, c: int)
    requires a <= b && c >= 0
    ensures a * c <= b * c
  {
  }

  lemma Appended(plan: Plan, s: Session, caseId: int, schedule: seq<Entry>, e: Entry)
    requires |plan.labels| == 2 && EntriesOk(plan, s, caseId, schedule)
    requires EntryOk(plan, s, caseId, schedule + [e], |schedule|)
    ensures EntriesOk(plan, s, caseId, schedule + [e])
    ensures forall l :: CountLabel(schedule + [e], l) == CountLabel(schedule, l) + if e.tag == l then 1 else 0
  {
    var longer := schedule + [e];
    assert longer[..|schedule|] == schedule;
    forall i | 0 <= i < |longer|
      ensures EntryOk(plan, s, caseId, longer, i)
    {
      if i < |schedule| {
        assert EntryOk(plan, s, caseId, schedule, i);
        assert longer[..i] == schedule[..i];
      }
    }
  }

  lemma InSpan(block: int, earlier: int, count: int, invocations: int, k: int)
    requires 0 <= earlier < count && 0 <= k < invocations
    ensures block * (count * invocations) <= block * (count * invocations) + earlier * invocations + k
    ensures block * (count * invocations) + earlier * invocations + k < (block + 1) * (count * invocations)
  {
    ProductMonotone(earlier + 1, count, invocations);
    Product(earlier, 1, invocations);
    ProductMonotone(0, earlier, invocations);
    Product(block, 1, count * invocations);
  }

  lemma EpochSpan(plan: Plan, s: Session, block: nat, epoch: nat)
    requires ValidSession(plan, s) && epoch < |s.order|
    ensures var start := block * PerBlock(plan, s) + Count(s.order[..epoch], s.order[epoch]) * s.invocations;
            block * PerBlock(plan, s) <= start <= (block + 1) * PerBlock(plan, s) - s.invocations
  {
    var tag := s.order[epoch];
    CountExtend(s.order, tag, epoch);
    InSpan(block, Count(s.order[..epoch], tag), Count(s.order, plan.labels[0]), s.invocations, 0);
    InSpan(block, Count(s.order[..epoch], tag), Count(s.order, plan.labels[0]), s.invocations, s.invocations - 1);
  }

  lemma EpochEnds(s: Session, block: nat, epoch: nat)
    requires epoch < |s.order|
    ensures (block * |s.order| + epoch + 1) * s.invocations
            == (block * |s.order| + epoch) * s.invocations + s.invocations
    ensures forall l :: Count(s.order[..epoch + 1], l) * s.invocations
                        == Count(s.order[..epoch], l) * s.invocations
                           + if s.order[epoch] == l then s.invocations else 0
  {
    Product(block * |s.order| + epoch, 1, s.invocations);
    forall l
      ensures Count(s.order[..epoch + 1], l) * s.invocations
              == Count(s.order[..epoch], l) * s.invocations + if s.order[epoch] == l then s.invocations else 0
    {
      CountExtend(s.order, l, epoch);
      Product(Count(s.order[..epoch], l), 1, s.invocations);
    }
  }

  lemma NextEntry(plan: Plan, s: Session, caseId: int, schedule: seq<Entry>, e: Entry)
    requires |plan.labels| == 2 && EntriesOk(plan, s, caseId, schedule)
    requires EntryFits(plan, s, caseId, e, |schedule|, CountLabel(schedule, e.tag))
    ensures EntriesOk(plan, s, caseId, schedule + [e])
    ensures forall l :: CountLabel(schedule + [e], l) == CountLabel(schedule, l) + if e.tag == l then 1 else 0
  {
    assert (schedule + [e])[..|schedule|] == schedule;
    Appended(plan, s, caseId, schedule, e);
  }

  /** Up to the given epoch of the given block, every entry is in place and the positions count the
      entries of each label. */
  predicate Tracks(plan: Plan, s: Session, caseId: int, block: nat, epoch: nat,
                   schedule: seq<Entry>, positions: map<Token, int>)
  {
    && |plan.labels| == 2 && epoch <= |s.order|
    && EntriesOk(plan, s, caseId, schedule)
    && |schedule| == (block * |s.order| + epoch) * s.invocations
    && (forall l :: l in plan.labels ==>
          && l in positions && positions[l] == CountLabel(schedule, l)
          && positions[l] == block * PerBlock(plan, s) + Count(s.order[..epoch], l) * s.invocations)
    && (forall i :: 0 <= i < |schedule| ==> schedule[i].tag in plan.labels)
  }

  /** The same within an epoch, after its first k invocations. */
  predicate Advances(plan: Plan, s: Session, caseId: int, tag: Token, before: seq<Entry>,
                     positions: map<Token, int>, k: nat, schedule: seq<Entry>, after: map<Token, int>)
  {
    && |plan.labels| == 2 && (forall l :: l in plan.labels ==> l in positions)
    && EntriesOk(plan, s, caseId, schedule) && |schedule| == |before| + k
    && (forall l :: l in plan.labels ==>
          && l in after && after[l] == CountLabel(schedule, l)
          && after[l] == positions[l] + if l == tag then k else 0)
    && (forall i :: 0 <= i < |schedule| ==> schedule[i].tag in plan.labels)
  }

  lemma NextInvocation(plan: Plan, s: Session, caseId: int, before: seq<Entry>, positions: map<Token, int>,
                       k: nat, schedule: seq<Entry>, after: map<Token, int>, e: Entry)
    requires Advances(plan, s, caseId, e.tag, before, positions, k, schedule, after) && e.tag in plan.labels
    requires EntryFits(plan, s, caseId, e, |schedule|, after[e.tag])
    ensures Advances(plan, s, caseId, e.tag, before, positions, k + 1, schedule + [e],
                     after[e.tag := after[e.tag] + 1])
  {
    NextEntry(plan, s, caseId, schedule, e);
  }

  lemma NextEpoch(plan: Plan, s: Session, caseId: int, block: nat, epoch: nat, before: seq<Entry>,
                  positions: map<Token, int>, schedule: seq<Entry>, after: map<Token, int>)
    requires s.invocations >= 0 && epoch < |s.order| && Tracks(plan, s, caseId, block, epoch, before, positions)
    requires Advances(plan, s, caseId, s.order[epoch], before, positions, s.invocations, schedule, after)
    ensures Tracks(plan, s, caseId, block, epoch + 1, schedule, after)
  {
    EpochEnds(s, block, epoch);
  }

  /** One epoch: its invocations take the next positions of its label. */
  method ScheduleEpoch(plan: Plan, s: Session, caseId: int, block: nat, epoch: nat,
                       before: seq<Entry>, positions: map<Token, int>)
    returns (schedule: seq<Entry>, after: map<Token, int>)
    requires ValidSession(plan, s) && block < s.blocks && epoch < |s.order|
    requires Tracks(plan, s, caseId, block, epoch, before, positions)
    ensures Tracks(plan, s, caseId, block, epoch + 1, schedule, after)
  {
    schedule, after := before, positions;
    var tag := s.order[epoch];
    EpochSpan(plan, s, block, epoch);
    for k := 0 to s.invocations
      invariant Advances(plan, s, caseId, tag, before, positions, k, schedule, after)
    {
      var position := after[tag];
      var e := Entry(s.id, caseId, block + 1, epoch, k, tag, position, |schedule|);
      NextInvocation(plan, s, caseId, before, positions, k, schedule, after, e);
      after := after[tag := position + 1];
      schedule := schedule + [e];
    }
    NextEpoch(plan, s, caseId, block, epoch, before, positions, schedule, after);
  }

  lemma NextBlock(plan: Plan, s: Session, caseId: int, block: nat, schedule: seq<Entry>, positions: map<Token, int>)
    requires ValidSession(plan, s) && Tracks(plan, s, caseId, block, |s.order|, schedule, positions)
    ensures Tracks(plan, s, caseId, block + 1, 0, schedule, positions)
  {
    assert s.order[..|s.order|] == s.order && s.order[..0] == [];
    Product(block, 1, |s.order|);
    Product(block, 1, PerBlock(plan, s));
  }

  method ScheduleBlocks(plan: Plan, s: Session, caseId: int)
    returns (schedule: seq<Entry>, positions: map<Token, int>)
    requires ValidSession(plan, s)
    ensures IsSchedule(plan, s, caseId, schedule)
    ensures forall l :: l in plan.labels ==> l in positions && positions[l] == plan.samples
  {
    schedule, positions := [], map[plan.labels[0] := 0, plan.labels[1] := 0];
    assert s.order[..0] == [];
    for block := 0 to s.blocks
      invariant Tracks(plan, s, caseId, block, 0, schedule, positions)
    {
      for epoch := 0 to |s.order|
        invariant Tracks(plan, s, caseId, block, epoch, schedule, positions)
      {
        schedule, positions := ScheduleEpoch(plan, s, caseId, block, epoch, schedule, positions);
      }
      NextBlock(plan, s, caseId, block, schedule, positions);
    }
    Completed(plan, s, caseId, schedule, positions);
  }

  lemma Completed(plan: Plan, s: Session, caseId: int, schedule: seq<Entry>, positions: map<Token, int>)
    requires ValidSession(plan, s) && Tracks(plan, s, caseId, s.blocks, 0, schedule, positions)
    ensures IsSchedule(plan, s, caseId, schedule)
    ensures forall l :: l in plan.labels ==> l in positions && positions[l] == plan.samples
  {
    Totals(plan, s);
    assert s.order[..0] == [];
  }

  method ScheduleSession(raw: RawPlan, sessionId: Token, caseId: Number) returns (result: Result<seq<Entry>>)
    ensures result.Success? <==>
              PlanOk(raw) && (exists k :: 0 <= k < |raw.sessions| && raw.sessions[k].id == sessionId)
              && Positive(caseId)
    ensures result.Success? ==>
              exists plan, k ::
                Normalizes(raw, plan) && 0 <= k < |plan.sessions| && plan.sessions[k].id == sessionId
                && IsSchedule(plan, plan.sessions[k], caseId.value, result.value)
  {
    var plan :- NormalizePlan(raw);
    var found := |plan.sessions|;
    for k := 0 to |plan.sessions|
      invariant found == |plan.sessions|
      invariant forall j :: 0 <= j < k ==> raw.sessions[j].id != sessionId
    {
      if plan.sessions[k].id == sessionId {
        found := k;
        break;
      }
    }
    if found == |plan.sessions| {
      return Rejected;
    }
    if !Positive(caseId) {
      return Rejected;
    }
    var s := plan.sessions[found];
    assert Mirrors(s, raw.sessions[found]);
    assert SessionOk(raw.sessions[found], raw.labels, raw.samples.value);
    var schedule, positions := ScheduleBlocks(plan, s, caseId.value);
    if positions[plan.labels[0]] != plan.samples || positions[plan.labels[1]] != plan.samples {
      assert false;
    }
    return Success(schedule);
  }

  lemma Totals(plan: Plan, s: Session)
    requires ValidSession(plan, s)
    ensures s.blocks * PerBlock(plan, s) == plan.samples
    ensures s.blocks * |s.order| * s.invocations == 2 * plan.samples
    ensures PerBlock(plan, s) > 0
  {
    var c := Count(s.order, plan.labels[0]);
    CountsCover(s.order, plan.labels, |s.order|);
    assert s.order[..|s.order|] == s.order;
    assert |s.order| == 2 * c;
    assert s.blocks * (2 * c) * s.invocations == 2 * (s.blocks * s.invocations * c);
    assert s.blocks * (c * s.invocations) == s.blocks * s.invocations * c;
  }

  // ----- What a schedule is good for -----

  lemma {:induction false} CountGrows(schedule: seq<Entry>, tag: Token, i: nat, j: nat)
    requires i <= j <= |schedule|
    ensures CountLabel(schedule[..i], tag) <= CountLabel(schedule[..j], tag)
    ensures i < j && schedule[i].tag == tag
            ==> CountLabel(schedule[..i], tag) < CountLabel(schedule[..j], tag)
    decreases j - i
  {
    if i < j {
      CountGrows(schedule, tag, i + 1, j);
      assert schedule[..i + 1][..i] == schedule[..i];
    }
  }

  /** Each label takes each position once. */
  lemma PositionOnce(plan: Plan, s: Session, caseId: int, schedule: seq<Entry>, i: nat, j: nat)
    requires IsSchedule(plan, s, caseId, schedule) && i < |schedule| && j < |schedule|
    requires schedule[i].tag == schedule[j].tag && schedule[i].position == schedule[j].position
    ensures i == j
  {
    assert EntryOk(plan, s, caseId, schedule, i) && EntryOk(plan, s, caseId, schedule, j);
    if i < j {
      CountGrows(schedule, schedule[i].tag, i, j);
    } else if j < i {
      CountGrows(schedule, schedule[i].tag, j, i);
    }
  }

  lemma {:induction false} PositionTaken(schedule: seq<Entry>, tag: Token, n: nat, q: nat) returns (i: nat)
    requires n <= |schedule| && q < CountLabel(schedule[..n], tag)
    ensures i < n && schedule[i].tag == tag && CountLabel(schedule[..i], tag) == q
  {
    assert schedule[..n][..n - 1] == schedule[..n - 1];
    if q < CountLabel(schedule[..n - 1], tag) {
      i := PositionTaken(schedule, tag, n - 1, q);
    } else {
      i := n - 1;
    }
  }

  /** Each label takes every position from 0 up to the number of samples, and later positions come
      later; so the middle window is covered by both labels. */
  lemma EveryPositionTaken(plan: Plan, s: Session, caseId: int, schedule: seq<Entry>, tag: Token, q: nat)
    returns (i: nat)
    requires IsSchedule(plan, s, caseId, schedule) && tag in plan.labels && q < plan.samples
    ensures i < |schedule| && schedule[i].tag == tag && schedule[i].position == q
  {
    assert schedule[..|schedule|] == schedule;
    i := PositionTaken(schedule, tag, |schedule|, q);
    assert EntryOk(plan, s, caseId, schedule, i);
  }

  lemma WindowCovered(raw: RawPlan, plan: Plan, s: Session, caseId: int, schedule: seq<Entry>, q: int, tag: Token)
    requires Normalizes(raw, plan) && IsSchedule(plan, s, caseId, schedule)
    requires plan.windowStart <= q < plan.windowEnd && tag in plan.labels
    ensures exists i :: 0 <= i < |schedule| && schedule[i].tag == tag && schedule[i].position == q
  {
    var i := EveryPositionTaken(plan, s, caseId, schedule, tag, q);
  }

  datatype PairKey = PairKey(sessionId: Token, caseId: int, block: int, position: int)

  function KeyOf(e: Entry): PairKey {
    PairKey(e.sessionId, e.caseId, e.block, e.position)
  }

  lemma SameBlock(a: int, b: int, per: int, q: int)
    requires (a - 1) * per <= q < a * per && (b - 1) * per <= q < b * per && per > 0
    ensures a == b
  {
    if a < b {
      ProductMonotone(a, b - 1, per);
    } else if b < a {
      ProductMonotone(b, a - 1, per);
    }
  }

  /** Every pair key of the schedule occurs exactly twice, once for each label. */
  lemma PairsExactlyTwice(plan: Plan, s: Session, caseId: int, schedule: seq<Entry>, i: nat) returns (j: nat)
    requires IsSchedule(plan, s, caseId, schedule) && i < |schedule|
    ensures j < |schedule| && schedule[j].tag != schedule[i].tag
    ensures KeyOf(schedule[j]) == KeyOf(schedule[i])
    ensures forall k :: 0 <= k < |schedule| && KeyOf(schedule[k]) == KeyOf(schedule[i]) ==> k == i || k == j
  {
    var e := schedule[i];
    var other := if e.tag == plan.labels[0] then plan.labels[1] else plan.labels[0];
    assert EntryOk(plan, s, caseId, schedule, i);
    PositionBelow(plan, s, caseId, schedule, i);
    j := EveryPositionTaken(plan, s, caseId, schedule, other, e.position);
    assert EntryOk(plan, s, caseId, schedule, j);
    SameBlock(e.block, schedule[j].block, PerBlock(plan, s), e.position);
    forall k | 0 <= k < |schedule| && KeyOf(schedule[k]) == KeyOf(e)
      ensures k == i || k == j
    {
      if schedule[k].tag == e.tag {
        PositionOnce(plan, s, caseId, schedule, k, i);
      } else {
        PositionOnce(plan, s, caseId, schedule, k, j);
      }
    }
  }

  lemma PositionBelow(plan: Plan, s: Session, caseId: int, schedule: seq<Entry>, i: nat)
    requires IsSchedule(plan, s, caseId, schedule) && i < |schedule|
    ensures 0 <= schedule[i].position < plan.samples
  {
    assert EntryOk(plan, s, caseId, schedule, i);
    CountGrows(schedule, schedule[i].tag, i, |schedule|);
    assert schedule[..|schedule|] == schedule;
  }
}

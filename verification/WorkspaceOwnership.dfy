/** Which action may write a workspace: a compare-and-set head for each workspace, kept in step with
    the publications and projections of the outbox. */
module WorkspaceOwnership {
  import opened Wrappers

  type Id = int

  /** A path as it was spelled and as it is compared; a path that is not normalized and relative to
      the repository has no key. */
  datatype Path = Path(spelling: Id, key: Option<Id>)

  /** complete stands for the schema and for the fields that only have to be non-empty text. */
  datatype Binding = Binding(complete: bool, workspace: Path, campaign: Id, operator: Id,
                             action: Id, attempt: Id, revision: int, rest: Id)

  const NO_ACTION: Id := 0

  datatype Payload = Payload(binding: Binding, expectedAction: Id, expectedRevision: int, plan: Id)

  datatype PublicationId = PublicationId(action: Id, attempt: Id)

  /** sequence is the number of the event that the outbox wrote with the intent. */
  datatype Publication = Publication(payload: Payload, sequence: nat)

  datatype Head = Head(campaign: Id, operator: Id, action: Id, revision: int, binding: Binding)

  /** What a projection is derived from: a publication or another intent of the outbox. */
  datatype Source = OfPublication(id: PublicationId) | OfFact(fact: Id)

  datatype Projection = Projection(workspace: Path, required: nat)

  datatype Db = Db(heads: map<Id, Head>, publications: map<PublicationId, Publication>,
                   facts: map<Id, nat>, projections: map<Source, Projection>, sequence: nat)

  const EMPTY := Db(map[], map[], map[], map[], 0)

  predicate BindingOk(b: Binding) {
    b.complete && b.workspace.key.Some? && b.revision >= 1 && b.action != NO_ACTION
  }

  predicate ExpectationOk(b: Binding, expectedAction: Id, expectedRevision: int) {
    && expectedRevision >= 0 && b.revision == expectedRevision + 1
    && (expectedAction != NO_ACTION <==> expectedRevision != 0)
  }

  function SequenceOf(db: Db, source: Source): Option<nat> {
    match source
    case OfPublication(id) => if id in db.publications then Some(db.publications[id].sequence) else None
    case OfFact(fact) => if fact in db.facts then Some(db.facts[fact]) else None
  }

  function Project(db: Db, workspace: Path, source: Source): Result<Db> {
    if workspace.key.None? || SequenceOf(db, source).None? then Rejected
    else
      var projection := Projection(workspace, SequenceOf(db, source).value);
      if source in db.projections then
        (if db.projections[source] != projection then Rejected else Success(db))
      else Success(db.(projections := db.projections[source := projection], sequence := db.sequence + 1))
  }

  function RecordFact(db: Db, fact: Id): Db {
    if fact in db.facts then db
    else db.(facts := db.facts[fact := db.sequence + 1], sequence := db.sequence + 1)
  }

  /** The head as the admission expects it. */
  predicate HeadMatches(db: Db, key: Id, expectedAction: Id, expectedRevision: int) {
    if key !in db.heads then expectedRevision == 0
    else db.heads[key].revision == expectedRevision && db.heads[key].action == expectedAction
  }

  /** busy holds the workspaces that a formal action still writes. */
  function Admit(db: Db, b: Binding, expectedAction: Id, expectedRevision: int, plan: Id, busy: set<Id>): Result<Db> {
    if !BindingOk(b) || !ExpectationOk(b, expectedAction, expectedRevision) then Rejected
    else
      var key := b.workspace.key.value;
      var id := PublicationId(b.action, b.attempt);
      var payload := Payload(b, expectedAction, expectedRevision, plan);
      if id in db.publications then
        (if db.publications[id].payload != payload then Rejected else Success(db))
      else if key in db.heads && (db.heads[key].campaign != b.campaign || db.heads[key].operator != b.operator)
      then Rejected
      else if !HeadMatches(db, key, expectedAction, expectedRevision) || key in busy then Rejected
      else if exists k :: k in db.heads && k != key && db.heads[k].action == b.action then Rejected
      else
        var admitted := db.(
          heads := db.heads[key := Head(b.campaign, b.operator, b.action, b.revision, b)],
          publications := db.publications[id := Publication(payload, db.sequence + 1)],
          sequence := db.sequence + 1);
        Project(admitted, b.workspace, OfPublication(id))
  }

  // ----- Runs -----

  datatype Step =
    | DoAdmit(binding: Binding, expectedAction: Id, expectedRevision: int, plan: Id, busy: set<Id>)
    | DoProject(workspace: Path, source: Source)
    | DoFact(fact: Id)

  function Apply(db: Db, step: Step): Result<Db> {
    match step
    case DoAdmit(b, expectedAction, expectedRevision, plan, busy) =>
      Admit(db, b, expectedAction, expectedRevision, plan, busy)
    case DoProject(workspace, source) => Project(db, workspace, source)
    case DoFact(fact) => Success(RecordFact(db, fact))
  }

  function Next(db: Db, step: Step): Db {
    if Apply(db, step).Success? then Apply(db, step).value else db
  }

  function Exec(db: Db, steps: seq<Step>): Db
    decreases |steps|
  {
    if steps == [] then db else Exec(Next(db, steps[0]), steps[1..])
  }

  // ----- One linear history for each workspace -----

  function HeadRevision(db: Db, key: Id): int {
    if key in db.heads then db.heads[key].revision else 0
  }

  function KeyOf(p: Publication): Option<Id> {
    p.payload.binding.workspace.key
  }

  /** One publication of the history: it carries the next revision, names the action before it, and
      belongs to the same campaign and operator. */
  predicate LinkOk(db: Db, key: Id, chain: seq<PublicationId>, i: nat)
    requires i < |chain| && key in db.heads
  {
    && chain[i] in db.publications
    && (var p := db.publications[chain[i]].payload;
        && p.binding.workspace.key == Some(key)
        && chain[i] == PublicationId(p.binding.action, p.binding.attempt)
        && p.binding.revision == i + 1 && p.expectedRevision == i
        && p.expectedAction == (if i == 0 then NO_ACTION else chain[i - 1].action)
        && p.binding.campaign == db.heads[key].campaign && p.binding.operator == db.heads[key].operator)
  }

  /** The publications of a workspace are exactly the chain, and the head is its last link. */
  predicate IsHistory(db: Db, key: Id, chain: seq<PublicationId>) {
    && |chain| == HeadRevision(db, key)
    && (key in db.heads ==>
          && chain != []
          && (forall i {:trigger LinkOk(db, key, chain, i)} :: 0 <= i < |chain| ==> LinkOk(db, key, chain, i))
          && (chain[|chain| - 1] in db.publications ==>
                db.publications[chain[|chain| - 1]].payload.binding == db.heads[key].binding)
          && db.heads[key].action == chain[|chain| - 1].action)
    && (forall id :: id in db.publications && KeyOf(db.publications[id]) == Some(key) ==> id in chain)
  }

  ghost predicate Linear(db: Db, key: Id) {
    exists chain: seq<PublicationId> :: IsHistory(db, key, chain)
  }

  /** Every publication has its projection, at the sequence of the publication. */
  predicate Projected(db: Db) {
    forall id :: id in db.publications ==>
      && OfPublication(id) in db.projections
      && db.projections[OfPublication(id)]
         == Projection(db.publications[id].payload.binding.workspace, db.publications[id].sequence)
  }

  predicate SourcesKnown(db: Db) {
    forall s :: s in db.projections ==> SequenceOf(db, s).Some?
  }

  predicate ActionsUnique(db: Db) {
    forall k, m :: k in db.heads && m in db.heads && db.heads[k].action == db.heads[m].action ==> k == m
  }

  predicate RowsOk(db: Db) {
    Projected(db) && SourcesKnown(db) && ActionsUnique(db)
  }

  lemma StepKeepsRows(db: Db, step: Step)
    requires RowsOk(db)
    ensures RowsOk(Next(db, step))
  {
    var db' := Next(db, step);
    if step.DoAdmit? && db' != db {
      AdmitKeepsRows(db, step.binding, step.expectedAction, step.expectedRevision, step.plan, step.busy, db');
    } else {
      forall s | s in db'.projections
        ensures SequenceOf(db', s).Some?
      {
      }
    }
  }

  lemma AdmitKeepsRows(db: Db, b: Binding, expectedAction: Id, expectedRevision: int, plan: Id, busy: set<Id>, db': Db)
    requires RowsOk(db) && Admit(db, b, expectedAction, expectedRevision, plan, busy) == Success(db')
    ensures RowsOk(db')
  {
    var id := PublicationId(b.action, b.attempt);
    if id !in db.publications {
      assert OfPublication(id) !in db.projections;
      forall s | s in db'.projections
        ensures SequenceOf(db', s).Some?
      {
        assert s == OfPublication(id) || SequenceOf(db, s).Some?;
      }
    }
  }

  /** A fresh admission adds one link to the history of its workspace and leaves the others alone. */
  lemma AdmitExtends(db: Db, b: Binding, expectedAction: Id, expectedRevision: int, plan: Id, busy: set<Id>, db': Db,
                     key: Id, chain: seq<PublicationId>)
    requires Admit(db, b, expectedAction, expectedRevision, plan, busy) == Success(db') && db' != db
    requires IsHistory(db, key, chain)
    ensures IsHistory(db', key, if b.workspace.key == Some(key) then chain + [PublicationId(b.action, b.attempt)]
                                else chain)
  {
    var id := PublicationId(b.action, b.attempt);
    assert db'.publications == db.publications[id := db'.publications[id]];
    var longer := if b.workspace.key == Some(key) then chain + [id] else chain;
    if key in db'.heads {
      forall i | 0 <= i < |longer|
        ensures LinkOk(db', key, longer, i)
      {
        if i < |chain| {
          assert LinkOk(db, key, chain, i);
        }
      }
    }
    forall p | p in db'.publications && KeyOf(db'.publications[p]) == Some(key)
      ensures p in longer
    {
      if p == id {
        assert longer[|longer| - 1] == id;
      } else {
        assert p in chain;
      }
    }
  }

  lemma OthersKeepHistory(db: Db, step: Step, key: Id, chain: seq<PublicationId>)
    requires !step.DoAdmit? && IsHistory(db, key, chain)
    ensures IsHistory(Next(db, step), key, chain)
  {
    var db' := Next(db, step);
    assert db'.heads == db.heads && db'.publications == db.publications;
    if key in db.heads {
      forall i | 0 <= i < |chain|
        ensures LinkOk(db', key, chain, i)
      {
        assert LinkOk(db, key, chain, i);
      }
    }
  }

  lemma StepKeepsLinear(db: Db, step: Step, key: Id)
    requires Linear(db, key)
    ensures Linear(Next(db, step), key)
  {
    var chain: seq<PublicationId> :| IsHistory(db, key, chain);
    if step.DoAdmit? {
      if Next(db, step) != db {
        AdmitExtends(db, step.binding, step.expectedAction, step.expectedRevision, step.plan, step.busy,
                     Next(db, step), key, chain);
      }
    } else {
      OthersKeepHistory(db, step, key, chain);
    }
  }

  /** Over every run, each workspace has one linear history with its head at the end, and every
      publication has exactly its projection. */
  lemma {:induction false} OwnershipIsLinear(db: Db, steps: seq<Step>, key: Id)
    requires Linear(db, key) && RowsOk(db)
    ensures Linear(Exec(db, steps), key) && RowsOk(Exec(db, steps))
    decreases |steps|
  {
    if steps != [] {
      StepKeepsLinear(db, steps[0], key);
      StepKeepsRows(db, steps[0]);
      OwnershipIsLinear(Next(db, steps[0]), steps[1..], key);
    }
  }

  lemma EmptyIsLinear(key: Id)
    ensures Linear(EMPTY, key) && RowsOk(EMPTY)
  {
    assert IsHistory(EMPTY, key, []);
  }

  lemma LinearFromTheStart(steps: seq<Step>, key: Id)
    ensures Linear(Exec(EMPTY, steps), key) && RowsOk(Exec(EMPTY, steps))
  {
    EmptyIsLinear(key);
    OwnershipIsLinear(EMPTY, steps, key);
  }

  /** In a linear history two publications of one workspace never share a revision. */
  lemma RevisionsDistinct(db: Db, key: Id, p: PublicationId, q: PublicationId)
    requires Linear(db, key) && key in db.heads
    requires p in db.publications && q in db.publications
    requires KeyOf(db.publications[p]) == Some(key) && KeyOf(db.publications[q]) == Some(key)
    requires db.publications[p].payload.binding.revision == db.publications[q].payload.binding.revision
    ensures p == q
  {
    var chain: seq<PublicationId> :| IsHistory(db, key, chain);
    var i :| 0 <= i < |chain| && chain[i] == p;
    var j :| 0 <= j < |chain| && chain[j] == q;
    assert LinkOk(db, key, chain, i) && LinkOk(db, key, chain, j);
  }

  // ----- When an admission is granted -----

  /** The workspace has no owner yet and the first revision is asked for; or its head is the action
      and revision that are expected, of the same campaign and operator. */
  predicate FollowsHead(db: Db, b: Binding, key: Id, expectedAction: Id, expectedRevision: int) {
    && b.revision == expectedRevision + 1
    && (key !in db.heads ==> expectedRevision == 0 && expectedAction == NO_ACTION)
    && (key in db.heads ==>
          && db.heads[key].revision == expectedRevision && db.heads[key].action == expectedAction
          && expectedRevision > 0 && expectedAction != NO_ACTION
          && db.heads[key].campaign == b.campaign && db.heads[key].operator == b.operator)
  }

  /** An admission that was not made before is granted exactly to a complete binding that follows the
      head of a workspace which no formal action still writes, for an action that owns no other one. */
  lemma AdmittedExactly(steps: seq<Step>, b: Binding, expectedAction: Id, expectedRevision: int, plan: Id,
                        busy: set<Id>)
    requires PublicationId(b.action, b.attempt) !in Exec(EMPTY, steps).publications
    ensures var db := Exec(EMPTY, steps);
            var result := Apply(db, DoAdmit(b, expectedAction, expectedRevision, plan, busy));
            && (result.Success? <==>
                  && b.complete && b.action != NO_ACTION && b.workspace.key.Some?
                  && FollowsHead(db, b, b.workspace.key.value, expectedAction, expectedRevision)
                  && b.workspace.key.value !in busy
                  && (forall k :: k in db.heads && db.heads[k].action == b.action ==> k == b.workspace.key.value))
            && (result.Success? ==>
                  Admitted(db, b, Payload(b, expectedAction, expectedRevision, plan), result.value))
  {
    LinearFromTheStart(steps, 0);
    var db := Exec(EMPTY, steps);
    var source := OfPublication(PublicationId(b.action, b.attempt));
    assert source !in db.projections by {
      assert source in db.projections ==> SequenceOf(db, source).Some?;
    }
    if b.workspace.key.Some? && b.workspace.key.value in db.heads {
      HeadIsPositive(steps, b.workspace.key.value);
    }
  }

  /** The head moves to the binding, the publication gets the next event and its projection, which
      asks for that event, the one after. */
  predicate Admitted(db: Db, b: Binding, payload: Payload, db': Db) {
    && b.workspace.key.Some?
    && (var key, id := b.workspace.key.value, PublicationId(b.action, b.attempt);
        && db'.heads == db.heads[key := Head(b.campaign, b.operator, b.action, b.revision, b)]
        && db'.publications == db.publications[id := Publication(payload, db.sequence + 1)]
        && db'.projections == db.projections[OfPublication(id) := Projection(b.workspace, db.sequence + 1)]
        && db'.sequence == db.sequence + 2 && db'.facts == db.facts)
  }

  lemma HeadIsPositive(steps: seq<Step>, key: Id)
    requires key in Exec(EMPTY, steps).heads
    ensures Exec(EMPTY, steps).heads[key].revision > 0 && Exec(EMPTY, steps).heads[key].action != NO_ACTION
  {
    HeadsStayPositive(EMPTY, steps);
  }

  lemma {:induction false} HeadsStayPositive(db: Db, steps: seq<Step>)
    requires forall k :: k in db.heads ==> db.heads[k].revision > 0 && db.heads[k].action != NO_ACTION
    ensures forall k :: k in Exec(db, steps).heads ==>
              Exec(db, steps).heads[k].revision > 0 && Exec(db, steps).heads[k].action != NO_ACTION
    decreases |steps|
  {
    if steps != [] {
      HeadsStayPositive(Next(db, steps[0]), steps[1..]);
    }
  }

  /** A projection is accepted exactly for a keyed workspace and an accepted source, as it was before
      if it was there; it asks for the event of its source. */
  lemma ProjectedExactly(db: Db, workspace: Path, source: Source)
    ensures var result := Apply(db, DoProject(workspace, source));
            var accepted := match source
                            case OfPublication(id) => id in db.publications
                            case OfFact(fact) => fact in db.facts;
            var event := match source
                         case OfPublication(id) => if id in db.publications then db.publications[id].sequence else 0
                         case OfFact(fact) => if fact in db.facts then db.facts[fact] else 0;
            && (result.Success? <==>
                  && workspace.key.Some? && accepted
                  && (source in db.projections ==> db.projections[source] == Projection(workspace, event)))
            && (result.Success? && source in db.projections ==> result.value == db)
            && (result.Success? && source !in db.projections ==>
                  result.value == db.(projections := db.projections[source := Projection(workspace, event)],
                                      sequence := db.sequence + 1))
  {
  }

  /** A fact gets the next event when it is recorded, and keeps it. */
  lemma FactKeepsEvent(db: Db, fact: Id, steps: seq<Step>)
    requires forall f :: f in db.facts ==> db.facts[f] <= db.sequence
    ensures var recorded := Next(db, DoFact(fact)); var db' := Exec(recorded, steps);
            && fact in recorded.facts && fact in db'.facts && db'.facts[fact] == recorded.facts[fact]
            && (fact in db.facts ==> recorded == db)
            && (fact !in db.facts ==>
                  recorded.facts[fact] == recorded.sequence == db.sequence + 1
                  && (forall f :: f in db.facts ==> recorded.facts[f] < recorded.facts[fact]))
  {
    FactsStay(Next(db, DoFact(fact)), steps, fact);
  }

  lemma {:induction false} FactsStay(db: Db, steps: seq<Step>, fact: Id)
    requires fact in db.facts
    ensures fact in Exec(db, steps).facts && Exec(db, steps).facts[fact] == db.facts[fact]
    decreases |steps|
  {
    if steps != [] {
      FactsStay(Next(db, steps[0]), steps[1..], fact);
    }
  }

  // ----- Replays and competing writers -----

  /** What is published stays as it is, and a head is only ever replaced by its direct successor. */
  predicate Advances(db: Db, db': Db) {
    && (forall id :: id in db.publications ==> id in db'.publications && db'.publications[id] == db.publications[id])
    && (forall s :: s in db.projections ==> s in db'.projections && db'.projections[s] == db.projections[s])
    && (forall k :: k in db.heads ==>
          && k in db'.heads && db'.heads[k].revision >= db.heads[k].revision
          && db'.heads[k].campaign == db.heads[k].campaign && db'.heads[k].operator == db.heads[k].operator
          && (db'.heads[k].revision == db.heads[k].revision ==> db'.heads[k] == db.heads[k]))
  }

  lemma StepAdvances(db: Db, step: Step)
    ensures Advances(db, Next(db, step))
  {
  }

  lemma {:induction false} NothingIsRewound(db: Db, steps: seq<Step>)
    ensures Advances(db, Exec(db, steps))
    decreases |steps|
  {
    if steps != [] {
      StepAdvances(db, steps[0]);
      NothingIsRewound(Next(db, steps[0]), steps[1..]);
    }
  }

  /** However far the ownership has moved on, repeating an admission that was granted succeeds and
      changes nothing, and changing anything in it is refused. */
  lemma ReplayKeepsHead(db: Db, b: Binding, expectedAction: Id, expectedRevision: int, plan: Id, busy: set<Id>,
                        steps: seq<Step>, other: Payload, anyBusy: set<Id>)
    requires Admit(db, b, expectedAction, expectedRevision, plan, busy).Success?
    requires other.binding.action == b.action && other.binding.attempt == b.attempt
    ensures var db' := Exec(Admit(db, b, expectedAction, expectedRevision, plan, busy).value, steps);
            && Admit(db', b, expectedAction, expectedRevision, plan, anyBusy) == Success(db')
            && (other != Payload(b, expectedAction, expectedRevision, plan) ==>
                  Admit(db', other.binding, other.expectedAction, other.expectedRevision, other.plan,
                        anyBusy).Rejected?)
  {
    NothingIsRewound(Admit(db, b, expectedAction, expectedRevision, plan, busy).value, steps);
  }

  /** Of all admissions that expect the same head, at most one is granted. */
  lemma OneSuccessor(db: Db, b: Binding, expectedAction: Id, expectedRevision: int, plan: Id, busy: set<Id>, db': Db,
                     steps: seq<Step>, rival: Binding, rivalAction: Id, rivalPlan: Id, rivalBusy: set<Id>)
    requires Admit(db, b, expectedAction, expectedRevision, plan, busy) == Success(db') && db' != db
    requires rival.workspace.key == b.workspace.key
    requires PublicationId(rival.action, rival.attempt) !in Exec(db', steps).publications
    ensures Admit(Exec(db', steps), rival, rivalAction, expectedRevision, rivalPlan, rivalBusy).Rejected?
  {
    NothingIsRewound(db', steps);
  }
}

/** The owner table and the outbox as one transaction rewrites them. */
module WorkspaceRepositories {
  import opened Wrappers
  import opened WorkspaceOwnership

  class WorkspaceOwnerRepository {
    var heads: map<Id, Head>
    var publications: map<PublicationId, Publication>
    var facts: map<Id, nat>
    var projections: map<Source, Projection>
    var sequence: nat

    function Contents(): Db
      reads this
    {
      Db(heads, publications, facts, projections, sequence)
    }

    constructor ()
      ensures Contents() == EMPTY
    {
      heads, publications, facts, projections, sequence := map[], map[], map[], map[], 0;
    }

    method RecordSourceFact(fact: Id)
      modifies this
      ensures Contents() == RecordFact(old(Contents()), fact)
    {
      if fact !in facts {
        sequence := sequence + 1;
        facts := facts[fact := sequence];
      }
    }

    method EnqueueProjection(workspace: Path, source: Source) returns (ok: bool)
      modifies this`projections, this`sequence
      ensures ok <==> Project(old(Contents()), workspace, source).Success?
      ensures Contents() == if ok then Project(old(Contents()), workspace, source).value else old(Contents())
    {
      if workspace.key.None? {
        return false;
      }
      var accepted := SequenceOf(Contents(), source);
      if accepted.None? {
        return false;
      }
      var projection := Projection(workspace, accepted.value);
      if source in projections {
        return projections[source] == projection;
      }
      projections := projections[source := projection];
      sequence := sequence + 1;
      return true;
    }

    method AdmitWorkspaceAction(b: Binding, expectedAction: Id, expectedRevision: int, plan: Id, busy: set<Id>)
      returns (ok: bool)
      modifies this
      ensures ok <==> Admit(old(Contents()), b, expectedAction, expectedRevision, plan, busy).Success?
      ensures Contents() == if ok then Admit(old(Contents()), b, expectedAction, expectedRevision, plan, busy).value
                            else old(Contents())
    {
      if !BindingOk(b) {
        return false;
      }
      if expectedRevision < 0 || b.revision != expectedRevision + 1
         || (expectedAction != NO_ACTION) != (expectedRevision != 0)
      {
        return false;
      }
      var payload := Payload(b, expectedAction, expectedRevision, plan);
      var key := b.workspace.key.value;
      var id := PublicationId(b.action, b.attempt);
      if id in publications {
        return publications[id].payload == payload;
      }
      if key in heads && (heads[key].campaign != b.campaign || heads[key].operator != b.operator) {
        return false;
      }
      if (key !in heads && expectedRevision != 0)
         || (key in heads && (heads[key].revision != expectedRevision || heads[key].action != expectedAction))
      {
        return false;
      }
      if key in busy {
        return false;
      }
      if exists k :: k in heads && k != key && heads[k].action == b.action {
        return false;
      }
      var before := Contents();
      if key in heads {
        heads := heads[key := heads[key].(action := b.action, revision := b.revision, binding := b)];
      } else {
        heads := heads[key := Head(b.campaign, b.operator, b.action, b.revision, b)];
      }
      sequence := sequence + 1;
      publications := publications[id := Publication(payload, sequence)];
      ok := EnqueueProjection(b.workspace, OfPublication(id));
      if !ok {
        heads, publications, facts := before.heads, before.publications, before.facts;
        projections, sequence := before.projections, before.sequence;
      }
    }
  }
}

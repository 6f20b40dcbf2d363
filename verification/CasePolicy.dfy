/** Revisions of case data that must not lose a protected failure.  A dictionary from case ids keeps
    its insertion order and is a sequence of cases with distinct ids. */
module CasePolicy {
  import opened Wrappers
  import opened Collections

  const MAX_CASE_COUNT := 128
  const MAX_ACTIVE_CASES := 30

  /** An id that is missing or not an integer counts as 0. */
  datatype Case = Case(id: int, data: int)

  /** validate returns the exact execution parameters or refuses; key describes an execution and is
      None for anything but a non-empty object; fits is the limit on the size of the input file. */
  datatype Adapter = Adapter(validate: Case -> Option<Case>, key: Option<Case -> Option<int>>,
                             fits: seq<Case> -> bool)

  datatype Replacement = Replacement(original: int, successor: int)

  datatype Change = Change(wellFormed: bool, base: Option<int>, reasonOk: bool, cases: seq<Case>,
                           replacements: seq<Replacement>, retain: seq<int>)

  datatype Diff = Diff(added: set<int>, removed: set<int>, changed: set<int>)

  datatype Revision = Revision(cases: seq<Case>, regressions: seq<Case>, diff: Diff,
                               regressionAdded: set<int>, regressionRemoved: set<int>,
                               protectedIds: set<int>)

  function Ids(cases: seq<Case>): (ids: set<int>)
    ensures forall i :: i in ids <==> exists k :: 0 <= k < |cases| && cases[k].id == i
  {
    set k | 0 <= k < |cases| :: cases[k].id
  }

  predicate UniqueIds(cases: seq<Case>) {
    forall i, j :: 0 <= i < j < |cases| ==> cases[i].id != cases[j].id
  }

  function Lookup(cases: seq<Case>, id: int): (c: Option<Case>)
    ensures c.Some? ==> c.value in cases && c.value.id == id
    ensures c.None? <==> id !in Ids(cases)
  {
    if cases == [] then None
    else if cases[0].id == id then Some(cases[0])
    else
      assert Ids(cases) == {cases[0].id} + Ids(cases[1..]);
      Lookup(cases[1..], id)
  }

  // ----- Inputs and partitions -----

  function NormalizeFirst(cases: seq<Case>, adapter: Adapter, n: nat): Result<seq<Case>>
    requires n <= |cases|
  {
    if n == 0 then Success([])
    else
      var done :- NormalizeFirst(cases, adapter, n - 1);
      var c := cases[n - 1];
      if c.id < 1 || c.id in Ids(done) then Rejected
      else
        var normalized := adapter.validate(c);
        if normalized.None? || normalized.value.id != c.id then Rejected
        else Success(done + [normalized.value])
  }

  function Inputs(cases: seq<Case>, adapter: Adapter, regression: bool): Result<seq<Case>> {
    if regression && |cases| > MAX_CASE_COUNT then Rejected
    else if !regression && !(1 <= |cases| <= MAX_ACTIVE_CASES) then Rejected
    else NormalizeFirst(cases, adapter, |cases|)
  }

  lemma {:induction false} NormalizeStops(cases: seq<Case>, adapter: Adapter, k: nat, n: nat)
    requires k <= n <= |cases| && NormalizeFirst(cases, adapter, k).Rejected?
    ensures NormalizeFirst(cases, adapter, n).Rejected?
  {
    if k < n {
      NormalizeStops(cases, adapter, k, n - 1);
    }
  }

  method ReadInputs(cases: seq<Case>, adapter: Adapter, regression: bool) returns (inputs: Result<seq<Case>>)
    ensures inputs == Inputs(cases, adapter, regression)
  {
    var minimum, maximum := 1, MAX_ACTIVE_CASES;
    if regression {
      minimum, maximum := 0, MAX_CASE_COUNT;
    }
    if !(minimum <= |cases| <= maximum) {
      return Rejected;
    }
    var result: seq<Case> := [];
    for n := 0 to |cases|
      invariant NormalizeFirst(cases, adapter, n) == Success(result)
    {
      var c := cases[n];
      if c.id < 1 || c.id in Ids(result) {
        NormalizeStops(cases, adapter, n + 1, |cases|);
        return Rejected;
      }
      var normalized := adapter.validate(c);
      if normalized.None? || normalized.value.id != c.id {
        NormalizeStops(cases, adapter, n + 1, |cases|);
        return Rejected;
      }
      result := result + [normalized.value];
    }
    return Success(result);
  }

  function Partitions(cases: seq<Case>, regressions: seq<Case>, adapter: Adapter): Result<(seq<Case>, seq<Case>)> {
    var active :- Inputs(cases, adapter, false);
    var regression :- Inputs(regressions, adapter, true);
    if !(Ids(active) !! Ids(regression)) then Rejected
    else if |active| + |regression| > MAX_CASE_COUNT then Rejected
    else Success((active, regression))
  }

  // ----- Replacements and retained regressions -----

  function TargetsFirst(items: seq<Replacement>, guarded: set<int>, n: nat): Result<map<int, int>>
    requires n <= |items|
  {
    if n == 0 then Success(map[])
    else
      var targets :- TargetsFirst(items, guarded, n - 1);
      var r := items[n - 1];
      if r.original !in guarded || r.original in targets || r.successor < 1 then Rejected
      else Success(targets[r.original := r.successor])
  }

  function Targets(items: seq<Replacement>, guarded: set<int>): Result<map<int, int>> {
    if |items| > MAX_CASE_COUNT then Rejected else TargetsFirst(items, guarded, |items|)
  }

  lemma {:induction false} TargetsStop(items: seq<Replacement>, guarded: set<int>, k: nat, n: nat)
    requires k <= n <= |items| && TargetsFirst(items, guarded, k).Rejected?
    ensures TargetsFirst(items, guarded, n).Rejected?
  {
    if k < n {
      TargetsStop(items, guarded, k, n - 1);
    }
  }

  method ReplacementTargets(items: seq<Replacement>, guarded: set<int>) returns (targets: Result<map<int, int>>)
    ensures targets == Targets(items, guarded)
  {
    if |items| > MAX_CASE_COUNT {
      return Rejected;
    }
    var result: map<int, int> := map[];
    for n := 0 to |items|
      invariant TargetsFirst(items, guarded, n) == Success(result)
    {
      var r := items[n];
      if r.original !in guarded || r.original in result || r.successor < 1 {
        TargetsStop(items, guarded, n + 1, |items|);
        return Rejected;
      }
      result := result[r.original := r.successor];
    }
    return Success(result);
  }

  function IdList(cases: seq<Case>): (ids: seq<int>)
    ensures |ids| == |cases| && forall k :: 0 <= k < |ids| ==> ids[k] == cases[k].id
  {
    seq(|cases|, k requires 0 <= k < |cases| => cases[k].id)
  }

  predicate Distinct(ids: seq<int>) {
    forall i, j :: 0 <= i < j < |ids| ==> ids[i] != ids[j]
  }

  /** The first occurrences, in order. */
  function Dedup(ids: seq<int>): (r: seq<int>)
    ensures Distinct(r) && (forall i :: i in r <==> i in ids)
  {
    if ids == [] then []
    else
      var front := Dedup(ids[..|ids| - 1]);
      var last := ids[|ids| - 1];
      assert ids == ids[..|ids| - 1] + [last];
      if last in front then front else front + [last]
  }

  /** The cases of the listed ids that are neither active again nor replaced. */
  function Retain(ids: seq<int>, earlier: seq<Case>, gone: set<int>): seq<Case>
    requires forall i :: i in ids ==> i in Ids(earlier)
  {
    if ids == [] then []
    else (if ids[0] in gone then [] else [Lookup(earlier, ids[0]).value]) + Retain(ids[1..], earlier, gone)
  }

  function RetainedRegressions(change: Change, previous: seq<Case>, previousRegressions: seq<Case>,
                               guarded: set<int>): Result<seq<Case>>
  {
    var selected := change.retain;
    if |selected| > MAX_CASE_COUNT || !(Elements(selected) <= guarded) || !Distinct(selected) then Rejected
    else
      var active := Ids(change.cases);
      var targets :- Targets(change.replacements, guarded);
      var earlier := previous + previousRegressions;
      var ids := Dedup(IdList(previousRegressions) + selected);
      if !(Elements(selected) !! active + targets.Keys) then Rejected
      else if exists i :: i in ids && (i !in guarded || i !in Ids(earlier)) then Rejected
      else Success(Retain(ids, earlier, active + targets.Keys))
  }

  // ----- A revision -----

  function Successor(targets: map<int, int>, id: int): int {
    if id in targets then targets[id] else id
  }

  /** The same case, or two cases with one reviewed execution. */
  predicate SameExecution(adapter: Adapter, c: Case, d: Case) {
    c == d || (adapter.key.Some? && adapter.key.value(c).Some? && adapter.key.value(c) == adapter.key.value(d))
  }

  predicate Keeps(adapter: Adapter, before: seq<Case>, executed: seq<Case>, targets: map<int, int>, id: int)
    requires id in Ids(before)
  {
    var kept := Lookup(executed, Successor(targets, id));
    && kept.Some?
    && (kept.value == Lookup(before, id).value
        || (id in targets && SameExecution(adapter, Lookup(before, id).value, kept.value)))
  }

  function MakeDiff(before: seq<Case>, beforeActive: seq<Case>, after: seq<Case>): Diff {
    Diff(Ids(after) - Ids(beforeActive), Ids(beforeActive) - Ids(after),
         set i | i in Ids(beforeActive) * Ids(after) && Lookup(before, i) != Lookup(after, i))
  }

  datatype Base = Base(version: Option<int>, cases: seq<Case>, regressions: seq<Case>)

  function BeforeOf(base: Base, adapter: Adapter): Result<(seq<Case>, seq<Case>)> {
    if base.cases != [] then Partitions(base.cases, base.regressions, adapter) else Success(([], []))
  }

  function Revise(change: Change, adapter: Adapter, base: Base, guarded: set<int>): Result<Revision> {
    if !change.wellFormed || change.base != base.version || !change.reasonOk then Rejected
    else if (base.version.None? && (base.cases != [] || base.regressions != []))
            || (base.version.Some? && base.cases == []) then Rejected
    else
      var parts :- BeforeOf(base, adapter);
      var before := parts.0 + parts.1;
      var drafted :- Inputs(change.cases, adapter, false);
      if !(guarded <= Ids(before)) then Rejected
      else
        var targets :- Targets(change.replacements, guarded);
        var retained :- RetainedRegressions(change, parts.0, parts.1, guarded);
        var next :- Partitions(drafted, retained, adapter);
        var executed := next.0 + next.1;
        if !(forall id :: id in guarded ==> Keeps(adapter, before, executed, targets, id)) then Rejected
        else if !adapter.fits(executed) then Rejected
        else
          Success(Revision(next.0, next.1, MakeDiff(before, parts.0, next.0),
                           Ids(next.1) - Ids(parts.1), Ids(parts.1) - Ids(next.1),
                           set id | id in guarded :: Successor(targets, id)))
  }

  /** Every protected case is looked up among the executed ones, in any order. */
  method CheckProtected(adapter: Adapter, before: seq<Case>, executed: seq<Case>, targets: map<int, int>,
                        guarded: set<int>) returns (ok: bool)
    requires guarded <= Ids(before)
    ensures ok <==> forall id :: id in guarded ==> Keeps(adapter, before, executed, targets, id)
  {
    var rest := guarded;
    while rest != {}
      invariant rest <= guarded
      invariant forall id :: id in guarded && id !in rest ==> Keeps(adapter, before, executed, targets, id)
      decreases |rest|
    {
      var id := Any(rest);
      rest := rest - {id};
      var successor := if id in targets then targets[id] else id;
      var kept := Lookup(executed, successor);
      if kept.None? {
        assert !Keeps(adapter, before, executed, targets, id);
        return false;
      }
      var original := Lookup(before, id).value;
      if kept.value == original {
        continue;
      }
      if id !in targets || adapter.key.None? {
        assert !Keeps(adapter, before, executed, targets, id);
        return false;
      }
      var originalKey, successorKey := adapter.key.value(original), adapter.key.value(kept.value);
      if originalKey.None? || originalKey != successorKey {
        assert !Keeps(adapter, before, executed, targets, id);
        return false;
      }
    }
    return true;
  }

  method ValidateCaseDataChange(change: Change, adapter: Adapter, base: Base, guarded: set<int>)
    returns (revision: Result<Revision>)
    ensures revision == Revise(change, adapter, base, guarded)
  {
    if !change.wellFormed || change.base != base.version || !change.reasonOk {
      return Rejected;
    }
    if (base.version.None? && (base.cases != [] || base.regressions != []))
       || (base.version.Some? && base.cases == [])
    {
      return Rejected;
    }
    var parts :- BeforeOf(base, adapter);
    var before := parts.0 + parts.1;
    var drafted := ReadInputs(change.cases, adapter, false);
    if drafted.Rejected? || !(guarded <= Ids(before)) {
      return Rejected;
    }
    var targets := ReplacementTargets(change.replacements, guarded);
    if targets.Rejected? {
      return Rejected;
    }
    var retained :- RetainedRegressions(change, parts.0, parts.1, guarded);
    var next :- Partitions(drafted.value, retained, adapter);
    var executed := next.0 + next.1;
    var kept := CheckProtected(adapter, before, executed, targets.value, guarded);
    if !kept || !adapter.fits(executed) {
      return Rejected;
    }
    return Success(Revision(next.0, next.1, MakeDiff(before, parts.0, next.0),
                            Ids(next.1) - Ids(parts.1), Ids(parts.1) - Ids(next.1),
                            set id | id in guarded :: Successor(targets.value, id)));
  }

  // ----- One revision keeps its promises -----

  ghost predicate Idempotent(adapter: Adapter) {
    forall c {:trigger adapter.validate(c)} ::
      adapter.validate(c).Some? ==> adapter.validate(adapter.validate(c).value) == adapter.validate(c)
  }

  lemma {:induction false} NormalizedShape(cases: seq<Case>, adapter: Adapter, n: nat, out: seq<Case>)
    requires n <= |cases| && NormalizeFirst(cases, adapter, n) == Success(out)
    ensures |out| == n && UniqueIds(out)
    ensures forall k :: 0 <= k < n ==>
              out[k].id == cases[k].id && out[k].id >= 1 && adapter.validate(cases[k]) == Some(out[k])
  {
    if n > 0 {
      NormalizedShape(cases, adapter, n - 1, NormalizeFirst(cases, adapter, n - 1).value);
    }
  }

  predicate Settled(cases: seq<Case>, adapter: Adapter) {
    && UniqueIds(cases)
    && (forall k :: 0 <= k < |cases| ==> cases[k].id >= 1 && adapter.validate(cases[k]) == Some(cases[k]))
  }

  lemma {:induction false} SettledIsFixed(cases: seq<Case>, adapter: Adapter, n: nat)
    requires Settled(cases, adapter) && n <= |cases|
    ensures NormalizeFirst(cases, adapter, n) == Success(cases[..n])
  {
    if n > 0 {
      SettledIsFixed(cases, adapter, n - 1);
      assert cases[..n] == cases[..n - 1] + [cases[n - 1]];
      assert cases[n - 1].id !in Ids(cases[..n - 1]);
    }
  }

  lemma NormalizingSettles(cases: seq<Case>, adapter: Adapter, regression: bool, out: seq<Case>)
    requires Idempotent(adapter) && Inputs(cases, adapter, regression) == Success(out)
    ensures Settled(out, adapter) && |out| == |cases| && Ids(out) == Ids(cases)
    ensures Inputs(out, adapter, regression) == Success(out)
  {
    NormalizedShape(cases, adapter, |cases|, out);
    forall k | 0 <= k < |out|
      ensures adapter.validate(out[k]) == Some(out[k])
    {
      assert adapter.validate(cases[k]) == Some(out[k]);
    }
    SettledIsFixed(out, adapter, |out|);
    assert out[..|out|] == out;
    forall i
      ensures i in Ids(out) <==> i in Ids(cases)
    {
      if k :| 0 <= k < |cases| && cases[k].id == i {
        assert out[k].id == i;
      }
      if k :| 0 <= k < |out| && out[k].id == i {
        assert cases[k].id == i;
      }
    }
  }

  lemma PartitionsSettle(cases: seq<Case>, regressions: seq<Case>, adapter: Adapter,
                         parts: (seq<Case>, seq<Case>))
    requires Idempotent(adapter) && Partitions(cases, regressions, adapter) == Success(parts)
    ensures Settled(parts.0, adapter) && Settled(parts.1, adapter)
    ensures Ids(parts.0) == Ids(cases) && Ids(parts.1) == Ids(regressions)
    ensures Partitions(parts.0, parts.1, adapter) == Success(parts)
  {
    NormalizingSettles(cases, adapter, false, parts.0);
    NormalizingSettles(regressions, adapter, true, parts.1);
  }

  lemma IdsCons(c: Case, rest: seq<Case>)
    ensures Ids([c] + rest) == {c.id} + Ids(rest)
  {
    var all := [c] + rest;
    forall i
      ensures i in Ids(all) <==> i == c.id || i in Ids(rest)
    {
      if k :| 0 <= k < |all| && all[k].id == i {
        assert k == 0 || rest[k - 1].id == i;
      }
      if i == c.id {
        assert all[0].id == i;
      }
      if k :| 0 <= k < |rest| && rest[k].id == i {
        assert all[k + 1].id == i;
      }
    }
  }

  lemma {:induction false} RetainShape(ids: seq<int>, earlier: seq<Case>, gone: set<int>)
    requires forall i :: i in ids ==> i in Ids(earlier)
    ensures forall i :: i in Ids(Retain(ids, earlier, gone)) <==> i in ids && i !in gone
  {
    if ids != [] {
      RetainShape(ids[1..], earlier, gone);
      var rest := Retain(ids[1..], earlier, gone);
      IdsCons(Lookup(earlier, ids[0]).value, rest);
      assert [] + rest == rest;
    }
  }

  lemma RetainedAreProtected(change: Change, previous: seq<Case>, previousRegressions: seq<Case>,
                             guarded: set<int>, retained: seq<Case>, targets: map<int, int>)
    requires RetainedRegressions(change, previous, previousRegressions, guarded) == Success(retained)
    requires Targets(change.replacements, guarded) == Success(targets)
    ensures forall i :: i in Ids(retained) ==> i in guarded && i !in targets && i !in Ids(change.cases)
    ensures forall i :: i in Ids(previousRegressions) && i !in targets && i !in Ids(change.cases) ==> i in Ids(retained)
  {
    var ids := Dedup(IdList(previousRegressions) + change.retain);
    RetainShape(ids, previous + previousRegressions, Ids(change.cases) + targets.Keys);
    forall i | i in Ids(previousRegressions)
      ensures i in ids
    {
      var k :| 0 <= k < |previousRegressions| && previousRegressions[k].id == i;
      assert IdList(previousRegressions)[k] == i;
      assert i in IdList(previousRegressions) + change.retain;
    }
  }

  /** What the next revision is fed: the accepted data under the version it was given. */
  function NextBase(revision: Revision, version: int): Base {
    Base(Some(version), revision.cases, revision.regressions)
  }

  /** A base as a revision leaves it, or nothing at all. */
  predicate SettledBase(base: Base, adapter: Adapter) {
    if base.version.None? then base.cases == [] && base.regressions == []
    else
      && base.cases != []
      && Partitions(base.cases, base.regressions, adapter) == Success((base.cases, base.regressions))
  }

  /** The result of a revision meets the guards of the next one: its regressions are protected, its
      protected cases are executed, and both partitions are read back as they are. */
  lemma RevisionMeetsNextGuards(change: Change, adapter: Adapter, base: Base, guarded: set<int>,
                                revision: Revision, version: int)
    requires Idempotent(adapter) && Revise(change, adapter, base, guarded) == Success(revision)
    ensures Ids(revision.regressions) <= revision.protectedIds
    ensures revision.protectedIds <= Ids(revision.cases + revision.regressions)
    ensures Ids(revision.cases) !! Ids(revision.regressions)
    ensures SettledBase(NextBase(revision, version), adapter)
  {
    var parts := BeforeOf(base, adapter).value;
    var drafted := Inputs(change.cases, adapter, false).value;
    var targets := Targets(change.replacements, guarded).value;
    var retained := RetainedRegressions(change, parts.0, parts.1, guarded).value;
    var next := (revision.cases, revision.regressions);
    assert Partitions(drafted, retained, adapter) == Success(next);
    PartitionsSettle(drafted, retained, adapter, next);
    RetainedAreProtected(change, parts.0, parts.1, guarded, retained, targets);
    forall i | i in Ids(revision.regressions)
      ensures i in revision.protectedIds
    {
      assert i in guarded && Successor(targets, i) == i;
    }
    forall i | i in revision.protectedIds
      ensures i in Ids(revision.cases + revision.regressions)
    {
      var id :| id in guarded && Successor(targets, id) == i;
      assert Keeps(adapter, parts.0 + parts.1, next.0 + next.1, targets, id);
    }
  }

  /** One accepted revision of a settled base: every protected case keeps a successor. */
  lemma RevisionKeepsProtected(change: Change, adapter: Adapter, base: Base, guarded: set<int>,
                               revision: Revision, id: int)
    requires SettledBase(base, adapter) && Revise(change, adapter, base, guarded) == Success(revision)
    requires id in guarded
    ensures Targets(change.replacements, guarded).Success?
    ensures var successor := Successor(Targets(change.replacements, guarded).value, id);
            var original := Lookup(base.cases + base.regressions, id);
            var kept := Lookup(revision.cases + revision.regressions, successor);
            && original.Some? && kept.Some? && SameExecution(adapter, original.value, kept.value)
            && successor in revision.protectedIds
  {
    var parts := BeforeOf(base, adapter).value;
    assert parts == (base.cases, base.regressions);
    var targets := Targets(change.replacements, guarded).value;
    assert Keeps(adapter, parts.0 + parts.1, revision.cases + revision.regressions, targets, id);
  }

  // ----- Chains of revisions -----

  /** One accepted change: what it protects, and the version that its result is given. */
  datatype Link = Link(change: Change, guarded: set<int>, version: int)

  function RunChain(base: Base, adapter: Adapter, links: seq<Link>): Result<Base>
    decreases |links|
  {
    if links == [] then Success(base)
    else
      var revision :- Revise(links[0].change, adapter, base, links[0].guarded);
      RunChain(NextBase(revision, links[0].version), adapter, links[1..])
  }

  /** No link forgets a case that the previous one reported as protected. */
  predicate NeverForgets(base: Base, adapter: Adapter, links: seq<Link>)
    decreases |links|
  {
    links == [] || Revise(links[0].change, adapter, base, links[0].guarded).Rejected?
    || (var revision := Revise(links[0].change, adapter, base, links[0].guarded).value;
        && (|links| > 1 ==> revision.protectedIds <= links[1].guarded)
        && NeverForgets(NextBase(revision, links[0].version), adapter, links[1..]))
  }

  /** The id under which a case is carried through the replacements of all links. */
  function CarriedTo(links: seq<Link>, id: int): int
    decreases |links|
  {
    if links == [] then id
    else
      var targets := Targets(links[0].change.replacements, links[0].guarded);
      CarriedTo(links[1..], if targets.Success? then Successor(targets.value, id) else id)
  }

  /** Over any chain of accepted revisions a case that was protected at its start is still executed
      under the composed replacements, as it was or with the same reviewed execution. */
  lemma {:induction false} ProtectedSurvive(base: Base, adapter: Adapter, links: seq<Link>, id: int)
    requires Idempotent(adapter) && SettledBase(base, adapter) && links != [] && id in links[0].guarded
    requires RunChain(base, adapter, links).Success? && NeverForgets(base, adapter, links)
    ensures var end := RunChain(base, adapter, links).value;
            var original := Lookup(base.cases + base.regressions, id);
            var kept := Lookup(end.cases + end.regressions, CarriedTo(links, id));
            original.Some? && kept.Some? && SameExecution(adapter, original.value, kept.value)
    decreases |links|
  {
    var revision := Revise(links[0].change, adapter, base, links[0].guarded).value;
    RevisionKeepsProtected(links[0].change, adapter, base, links[0].guarded, revision, id);
    RevisionMeetsNextGuards(links[0].change, adapter, base, links[0].guarded, revision, links[0].version);
    var successor := Successor(Targets(links[0].change.replacements, links[0].guarded).value, id);
    if |links| > 1 {
      ProtectedSurvive(NextBase(revision, links[0].version), adapter, links[1..], successor);
    } else {
      assert RunChain(NextBase(revision, links[0].version), adapter, links[1..])
          == Success(NextBase(revision, links[0].version));
      assert CarriedTo(links[1..], successor) == successor;
    }
  }

  // ----- The policy is not too strict -----

  /** Proposing the active cases again, without replacements, is accepted and changes nothing. */
  lemma SameCasesAccepted(adapter: Adapter, base: Base, guarded: set<int>)
    requires SettledBase(base, adapter) && base.version.Some?
    requires Ids(base.regressions) <= guarded <= Ids(base.cases + base.regressions)
    requires adapter.fits(base.cases + base.regressions)
    ensures Revise(Change(true, base.version, true, base.cases, [], []), adapter, base, guarded)
            == Success(Revision(base.cases, base.regressions, Diff({}, {}, {}), {}, {}, guarded))
  {
    var change := Change(true, base.version, true, base.cases, [], []);
    SameRetained(change, adapter, base, guarded);
    SameKept(adapter, base.cases + base.regressions, guarded);
    SameDiff(base);
    SameProtected(guarded);
    SettledFacts(base, adapter);
    assert Ids(base.regressions) - Ids(base.regressions) == {};
    AcceptedWhen(change, adapter, base, guarded, (base.cases, base.regressions), base.cases, map[],
                 base.regressions, (base.cases, base.regressions));
  }

  lemma SameProtected(guarded: set<int>)
    ensures (set id | id in guarded :: Successor(map[], id)) == guarded
  {
    var all := set id | id in guarded :: Successor(map[], id);
    forall i
      ensures i in all <==> i in guarded
    {
      assert Successor(map[], i) == i;
    }
  }

  lemma SettledFacts(base: Base, adapter: Adapter)
    requires SettledBase(base, adapter) && base.version.Some?
    ensures BeforeOf(base, adapter) == Success((base.cases, base.regressions)) && base.cases != []
    ensures Inputs(base.cases, adapter, false) == Success(base.cases)
    ensures Partitions(base.cases, base.regressions, adapter) == Success((base.cases, base.regressions))
  {
  }

  lemma AcceptedWhen(change: Change, adapter: Adapter, base: Base, guarded: set<int>,
                     parts: (seq<Case>, seq<Case>), drafted: seq<Case>, targets: map<int, int>,
                     retained: seq<Case>, next: (seq<Case>, seq<Case>))
    requires change.wellFormed && change.base == base.version && change.reasonOk
    requires base.version.Some? && BeforeOf(base, adapter) == Success(parts) && base.cases != []
    requires Inputs(change.cases, adapter, false) == Success(drafted) && guarded <= Ids(parts.0 + parts.1)
    requires Targets(change.replacements, guarded) == Success(targets)
    requires RetainedRegressions(change, parts.0, parts.1, guarded) == Success(retained)
    requires Partitions(drafted, retained, adapter) == Success(next)
    requires forall id :: id in guarded ==> Keeps(adapter, parts.0 + parts.1, next.0 + next.1, targets, id)
    requires adapter.fits(next.0 + next.1)
    ensures Revise(change, adapter, base, guarded)
            == Success(Revision(next.0, next.1, MakeDiff(parts.0 + parts.1, parts.0, next.0),
                                Ids(next.1) - Ids(parts.1), Ids(parts.1) - Ids(next.1),
                                set id | id in guarded :: Successor(targets, id)))
  {
  }

  lemma SameRetained(change: Change, adapter: Adapter, base: Base, guarded: set<int>)
    requires SettledBase(base, adapter) && base.version.Some?
    requires Ids(base.regressions) <= guarded
    requires change.cases == base.cases && change.replacements == [] && change.retain == []
    ensures Targets(change.replacements, guarded) == Success(map[])
    ensures RetainedRegressions(change, base.cases, base.regressions, guarded) == Success(base.regressions)
  {
    NormalizedShape(base.cases, adapter, |base.cases|, base.cases);
    NormalizedShape(base.regressions, adapter, |base.regressions|, base.regressions);
    NothingSelected(change, base.cases, base.regressions, guarded);
  }

  lemma NothingSelected(change: Change, cases: seq<Case>, regressions: seq<Case>, guarded: set<int>)
    requires UniqueIds(cases) && UniqueIds(regressions) && Ids(cases) !! Ids(regressions)
    requires Ids(regressions) <= guarded
    requires change.cases == cases && change.replacements == [] && change.retain == []
    ensures RetainedRegressions(change, cases, regressions, guarded) == Success(regressions)
  {
    RetainsAll(cases, regressions);
    var ids := IdList(regressions);
    var targets: map<int, int> := map[];
    assert ids + change.retain == ids;
    assert Elements(change.retain) == {};
    assert Ids(cases) + targets.Keys == Ids(cases);
    forall i | i in ids
      ensures i in guarded
    {
      var k :| 0 <= k < |ids| && ids[k] == i;
      assert regressions[k].id in Ids(regressions);
    }
  }

  lemma SameKept(adapter: Adapter, all: seq<Case>, guarded: set<int>)
    requires guarded <= Ids(all)
    ensures forall id :: id in guarded ==> Keeps(adapter, all, all, map[], id)
  {
  }

  lemma SameDiff(base: Base)
    ensures MakeDiff(base.cases + base.regressions, base.cases, base.cases) == Diff({}, {}, {})
  {
    forall i | i in Ids(base.cases)
      ensures Lookup(base.cases + base.regressions, i) == Lookup(base.cases, i)
    {
      LookupFirst(base.cases, base.regressions, i);
    }
  }

  lemma {:induction false} LookupFirst(cases: seq<Case>, more: seq<Case>, id: int)
    requires id in Ids(cases)
    ensures Lookup(cases + more, id) == Lookup(cases, id)
  {
    if cases[0].id != id {
      assert (cases + more)[1..] == cases[1..] + more;
      assert Ids(cases) == {cases[0].id} + Ids(cases[1..]);
      LookupFirst(cases[1..], more, id);
    }
  }

  lemma {:induction false} LookupLater(cases: seq<Case>, k: nat)
    requires UniqueIds(cases) && k < |cases|
    ensures Lookup(cases, cases[k].id) == Some(cases[k])
  {
    if k > 0 {
      LookupLater(cases[1..], k - 1);
    }
  }

  lemma {:induction false} DedupDistinct(ids: seq<int>)
    requires Distinct(ids)
    ensures Dedup(ids) == ids
  {
    if ids != [] {
      DedupDistinct(ids[..|ids| - 1]);
      assert ids == ids[..|ids| - 1] + [ids[|ids| - 1]];
    }
  }

  lemma {:induction false} RetainKept(earlier: seq<Case>, kept: seq<Case>, gone: set<int>)
    requires forall k :: 0 <= k < |kept| ==> kept[k].id !in gone && Lookup(earlier, kept[k].id) == Some(kept[k])
    requires forall i :: i in IdList(kept) ==> i in Ids(earlier)
    ensures Retain(IdList(kept), earlier, gone) == kept
  {
    if kept != [] {
      assert IdList(kept)[1..] == IdList(kept[1..]);
      RetainKept(earlier, kept[1..], gone);
    }
  }

  lemma RetainsAll(cases: seq<Case>, regressions: seq<Case>)
    requires UniqueIds(cases) && UniqueIds(regressions) && Ids(cases) !! Ids(regressions)
    ensures Dedup(IdList(regressions)) == IdList(regressions)
    ensures forall i :: i in IdList(regressions) ==> i in Ids(cases + regressions)
    ensures Retain(IdList(regressions), cases + regressions, Ids(cases)) == regressions
  {
    DedupDistinct(IdList(regressions));
    var earlier := cases + regressions;
    forall i, j | 0 <= i < j < |earlier|
      ensures earlier[i].id != earlier[j].id
    {
      if i < |cases| <= j {
        assert earlier[i].id in Ids(cases) && earlier[j].id in Ids(regressions);
      }
    }
    forall k | 0 <= k < |regressions|
      ensures regressions[k].id !in Ids(cases) && Lookup(earlier, regressions[k].id) == Some(regressions[k])
    {
      assert earlier[|cases| + k] == regressions[k];
      LookupLater(earlier, |cases| + k);
      assert regressions[k].id in Ids(regressions);
    }
    forall i | i in IdList(regressions)
      ensures i in Ids(earlier)
    {
      var k :| 0 <= k < |regressions| && IdList(regressions)[k] == i;
      assert earlier[|cases| + k].id == i;
    }
    RetainKept(earlier, regressions, Ids(cases));
  }

  // ----- When each part of a revision is accepted -----

  /** A case that the adapter accepts under its own positive id. */
  predicate Readable(adapter: Adapter, c: Case) {
    c.id > 0 && adapter.validate(c).Some? && adapter.validate(c).value.id == c.id
  }

  lemma {:induction false} NormalizedExactly(cases: seq<Case>, adapter: Adapter, n: nat)
    requires n <= |cases|
    ensures NormalizeFirst(cases, adapter, n).Success? <==>
              && (forall k :: 0 <= k < n ==> Readable(adapter, cases[k]))
              && (forall i, j :: 0 <= i < j < n ==> cases[i].id != cases[j].id)
  {
    if n > 0 {
      NormalizedExactly(cases, adapter, n - 1);
      if NormalizeFirst(cases, adapter, n - 1).Success? {
        NormalizedShape(cases, adapter, n - 1, NormalizeFirst(cases, adapter, n - 1).value);
      }
    }
  }

  /** Inputs are read exactly if there are as many as their partition allows, each is accepted by the
      adapter and no id repeats; what is read is what the adapter makes of each, in order. */
  lemma ReadExactly(cases: seq<Case>, adapter: Adapter, regression: bool)
    ensures var inputs := Inputs(cases, adapter, regression);
            && (inputs.Success? <==>
                  && (if regression then |cases| <= 128 else 1 <= |cases| <= 30)
                  && (forall k :: 0 <= k < |cases| ==> Readable(adapter, cases[k])) && UniqueIds(cases))
            && (inputs.Success? ==>
                  && |inputs.value| == |cases| && UniqueIds(inputs.value)
                  && (forall k :: 0 <= k < |cases| ==> Some(inputs.value[k]) == adapter.validate(cases[k])))
  {
    NormalizedExactly(cases, adapter, |cases|);
    if Inputs(cases, adapter, regression).Success? {
      NormalizedShape(cases, adapter, |cases|, Inputs(cases, adapter, regression).value);
    }
  }

  lemma {:induction false} TargetsFirstExactly(items: seq<Replacement>, guarded: set<int>, n: nat)
    requires n <= |items|
    ensures var targets := TargetsFirst(items, guarded, n);
            && (targets.Success? <==>
                  && (forall k :: 0 <= k < n ==> items[k].original in guarded && items[k].successor > 0)
                  && (forall i, j :: 0 <= i < j < n ==> items[i].original != items[j].original))
            && (targets.Success? ==>
                  && (forall k :: 0 <= k < n ==>
                        items[k].original in targets.value && targets.value[items[k].original] == items[k].successor)
                  && (forall i :: i in targets.value ==> exists k :: 0 <= k < n && items[k].original == i))
  {
    if n > 0 {
      TargetsFirstExactly(items, guarded, n - 1);
      var shorter := TargetsFirst(items, guarded, n - 1);
      if shorter.Success? && items[n - 1].original in shorter.value {
        var k :| 0 <= k < n - 1 && items[k].original == items[n - 1].original;
      }
    }
  }

  /** Replacements are accepted exactly if they are at most 128, each names another protected case and
      a positive id; each case is then carried to the id it names. */
  lemma TargetsExactly(items: seq<Replacement>, guarded: set<int>)
    ensures var targets := Targets(items, guarded);
            && (targets.Success? <==>
                  && |items| <= 128
                  && (forall k :: 0 <= k < |items| ==> items[k].original in guarded && items[k].successor > 0)
                  && (forall i, j :: 0 <= i < j < |items| ==> items[i].original != items[j].original))
            && (targets.Success? ==>
                  && (forall k :: 0 <= k < |items| ==>
                        Successor(targets.value, items[k].original) == items[k].successor)
                  && (forall i :: (forall k :: 0 <= k < |items| ==> items[k].original != i) ==>
                        i !in targets.value && Successor(targets.value, i) == i))
  {
    TargetsFirstExactly(items, guarded, |items|);
  }

  /** Two partitions are accepted together exactly if both are read, share no id and are at most 128
      cases. */
  lemma PartitionsExactly(cases: seq<Case>, regressions: seq<Case>, adapter: Adapter)
    ensures var parts := Partitions(cases, regressions, adapter);
            var active, regression := Inputs(cases, adapter, false), Inputs(regressions, adapter, true);
            && (parts.Success? <==>
                  && active.Success? && regression.Success? && |cases| + |regressions| <= 128
                  && (forall c, d :: c in active.value && d in regression.value ==> c.id != d.id))
            && (parts.Success? ==> parts.value == (active.value, regression.value))
  {
    ReadExactly(cases, adapter, false);
    ReadExactly(regressions, adapter, true);
    var active, regression := Inputs(cases, adapter, false), Inputs(regressions, adapter, true);
    if active.Success? && regression.Success? {
      DisjointIds(active.value, regression.value);
    }
  }

  lemma DisjointIds(cases: seq<Case>, others: seq<Case>)
    ensures Ids(cases) !! Ids(others) <==> forall c, d :: c in cases && d in others ==> c.id != d.id
  {
    if i :| i in Ids(cases) && i in Ids(others) {
      var j :| 0 <= j < |cases| && cases[j].id == i;
      var k :| 0 <= k < |others| && others[k].id == i;
      var c, d := cases[j], others[k];
      assert c in cases && d in others && c.id == d.id;
    }
    if c, d :| c in cases && d in others && c.id == d.id {
      assert c.id in Ids(cases) && d.id in Ids(others);
    }
  }

  /** Among cases with distinct ids, the case of an id is the only one. */
  lemma {:induction false} LookupExactly(cases: seq<Case>, c: Case)
    requires UniqueIds(cases)
    ensures Lookup(cases, c.id) == Some(c) <==> c in cases
  {
    if cases != [] && cases[0].id == c.id && c in cases {
      var k :| 0 <= k < |cases| && cases[k] == c;
      assert k == 0;
    } else if cases != [] && cases[0].id != c.id {
      LookupExactly(cases[1..], c);
      assert Ids(cases) == {cases[0].id} + Ids(cases[1..]);
    }
  }

  /** Cases can be retained exactly if they are at most 128 distinct protected ones, neither proposed
      again nor replaced, and every earlier regression is protected and known.  What is retained are
      these and the earlier regressions that were neither proposed again nor replaced. */
  lemma RetainedExactly(change: Change, previous: seq<Case>, previousRegressions: seq<Case>, guarded: set<int>,
                        targets: map<int, int>)
    requires Targets(change.replacements, guarded) == Success(targets)
    requires UniqueIds(previous + previousRegressions)
    ensures var retained := RetainedRegressions(change, previous, previousRegressions, guarded);
            var earlier := previous + previousRegressions;
            && (retained.Success? <==>
                  && |change.retain| <= 128 && Distinct(change.retain)
                  && (forall i :: i in change.retain ==>
                        i in guarded && i in Ids(earlier) && i !in Ids(change.cases) && i !in targets)
                  && Ids(previousRegressions) <= guarded)
            && (retained.Success? ==>
                  forall c {:trigger c in retained.value} :: c in retained.value <==>
                    && c in earlier && (c.id in change.retain || c.id in Ids(previousRegressions))
                    && c.id !in Ids(change.cases) && c.id !in targets)
  {
    var earlier := previous + previousRegressions;
    var ids := Dedup(IdList(previousRegressions) + change.retain);
    RegressionsKnown(previous, previousRegressions);
    assert forall i :: i in ids <==> i in Ids(previousRegressions) || i in change.retain;
    assert forall i :: i in Elements(change.retain) <==> i in change.retain;
    if RetainedRegressions(change, previous, previousRegressions, guarded).Success? {
      var gone := Ids(change.cases) + targets.Keys;
      forall c
        ensures c in Retain(ids, earlier, gone) <==> c in earlier && c.id in ids && c.id !in gone
      {
        RetainHolds(ids, earlier, gone, c);
      }
    }
  }

  lemma RegressionsKnown(previous: seq<Case>, previousRegressions: seq<Case>)
    ensures Ids(previousRegressions) <= Ids(previous + previousRegressions)
    ensures forall i :: i in IdList(previousRegressions) <==> i in Ids(previousRegressions)
  {
    var earlier := previous + previousRegressions;
    forall i | i in Ids(previousRegressions)
      ensures i in Ids(earlier) && i in IdList(previousRegressions)
    {
      var k :| 0 <= k < |previousRegressions| && previousRegressions[k].id == i;
      assert earlier[|previous| + k].id == i && IdList(previousRegressions)[k] == i;
    }
    forall i | i in IdList(previousRegressions)
      ensures i in Ids(previousRegressions)
    {
      var k :| 0 <= k < |previousRegressions| && IdList(previousRegressions)[k] == i;
      assert previousRegressions[k].id == i;
    }
  }

  lemma {:induction false} RetainHolds(ids: seq<int>, earlier: seq<Case>, gone: set<int>, c: Case)
    requires UniqueIds(earlier) && forall i :: i in ids ==> i in Ids(earlier)
    ensures c in Retain(ids, earlier, gone) <==> c in earlier && c.id in ids && c.id !in gone
  {
    if ids != [] {
      RetainHolds(ids[1..], earlier, gone, c);
      LookupExactly(earlier, c);
      assert Lookup(earlier, ids[0]).value.id == ids[0];
      assert ids == [ids[0]] + ids[1..];
    }
  }

  /** A case of the base has a successor among the executed cases: itself, unchanged, under the id
      that it is carried to; or, if it is replaced, one whose reviewed execution key is the same. */
  predicate Survives(adapter: Adapter, before: seq<Case>, executed: seq<Case>, targets: map<int, int>, id: int) {
    exists c, d ::
      c in before && d in executed && c.id == id && d.id == (if id in targets then targets[id] else id)
      && (c == d || (id in targets && HaveOneKey(adapter, c, d)))
  }

  predicate HaveOneKey(adapter: Adapter, c: Case, d: Case) {
    adapter.key.Some? && adapter.key.value(c).Some? && adapter.key.value(d) == adapter.key.value(c)
  }

  lemma KeptExactly(adapter: Adapter, before: seq<Case>, executed: seq<Case>, targets: map<int, int>, id: int)
    requires UniqueIds(before) && UniqueIds(executed) && id in Ids(before)
    ensures Keeps(adapter, before, executed, targets, id) <==> Survives(adapter, before, executed, targets, id)
  {
    var original, kept := Lookup(before, id), Lookup(executed, Successor(targets, id));
    if Survives(adapter, before, executed, targets, id) {
      var c, d :| c in before && d in executed && c.id == id && d.id == (if id in targets then targets[id] else id)
                  && (c == d || (id in targets && HaveOneKey(adapter, c, d)));
      LookupExactly(before, c);
      LookupExactly(executed, d);
      assert original == Some(c) && kept == Some(d);
    } else if kept.Some? {
      assert original.value in before && kept.value in executed;
    }
  }

  lemma PartsUnique(parts: (seq<Case>, seq<Case>))
    requires UniqueIds(parts.0) && UniqueIds(parts.1) && Ids(parts.0) !! Ids(parts.1)
    ensures UniqueIds(parts.0 + parts.1)
  {
    var all := parts.0 + parts.1;
    forall i, j | 0 <= i < j < |all|
      ensures all[i].id != all[j].id
    {
      if i < |parts.0| <= j {
        assert all[i].id in Ids(parts.0) && all[j].id in Ids(parts.1);
      }
    }
  }

  lemma AcceptedPartsUnique(cases: seq<Case>, regressions: seq<Case>, adapter: Adapter, parts: (seq<Case>, seq<Case>))
    requires Partitions(cases, regressions, adapter) == Success(parts)
    ensures UniqueIds(parts.0 + parts.1)
  {
    NormalizedShape(cases, adapter, |cases|, parts.0);
    NormalizedShape(regressions, adapter, |regressions|, parts.1);
    PartsUnique(parts);
  }

  /** The parts of a change that a revision reads before it looks at the protected cases. */
  ghost predicate WellFormed(change: Change, adapter: Adapter, base: Base, guarded: set<int>,
                             parts: (seq<Case>, seq<Case>), targets: map<int, int>, next: (seq<Case>, seq<Case>))
  {
    && change.wellFormed && change.base == base.version && change.reasonOk
    && (if base.version.Some? then base.cases != [] else base.cases == [] && base.regressions == [])
    && BeforeOf(base, adapter) == Success(parts) && guarded <= Ids(parts.0 + parts.1)
    && Targets(change.replacements, guarded) == Success(targets)
    && (var drafted := Inputs(change.cases, adapter, false);
        var retained := RetainedRegressions(change, parts.0, parts.1, guarded);
        drafted.Success? && retained.Success?
        && Partitions(drafted.value, retained.value, adapter) == Success(next))
  }

  /** A change that is read without complaint is accepted exactly if every protected case survives and
      the result fits; the protected cases of the result are the ids they are carried to. */
  lemma RevisedExactly(change: Change, adapter: Adapter, base: Base, guarded: set<int>,
                       parts: (seq<Case>, seq<Case>), targets: map<int, int>, next: (seq<Case>, seq<Case>))
    requires WellFormed(change, adapter, base, guarded, parts, targets, next)
    ensures var before, executed := parts.0 + parts.1, next.0 + next.1;
            var revision := Revise(change, adapter, base, guarded);
            && (revision.Success? <==>
                  && (forall id :: id in guarded ==> Survives(adapter, before, executed, targets, id))
                  && adapter.fits(executed))
            && (revision.Success? ==>
                  && revision.value.cases == next.0 && revision.value.regressions == next.1
                  && revision.value.diff == MakeDiff(before, parts.0, next.0)
                  && (forall i :: i in revision.value.protectedIds <==>
                        exists id :: id in guarded && i == if id in targets then targets[id] else id)
                  && revision.value.regressionAdded == Ids(next.1) - Ids(parts.1)
                  && revision.value.regressionRemoved == Ids(parts.1) - Ids(next.1))
  {
    var before, executed := parts.0 + parts.1, next.0 + next.1;
    if base.cases != [] {
      AcceptedPartsUnique(base.cases, base.regressions, adapter, parts);
    }
    AcceptedPartsUnique(Inputs(change.cases, adapter, false).value,
                        RetainedRegressions(change, parts.0, parts.1, guarded).value, adapter, next);
    forall id | id in guarded
      ensures Keeps(adapter, before, executed, targets, id) <==> Survives(adapter, before, executed, targets, id)
    {
      KeptExactly(adapter, before, executed, targets, id);
    }
  }

  /** Anything that is not read without complaint is refused. */
  lemma OnlyWellFormedRevised(change: Change, adapter: Adapter, base: Base, guarded: set<int>, revision: Revision)
    requires Revise(change, adapter, base, guarded) == Success(revision)
    ensures exists parts, targets, next :: WellFormed(change, adapter, base, guarded, parts, targets, next)
  {
    var parts := BeforeOf(base, adapter).value;
    var targets := Targets(change.replacements, guarded).value;
    assert WellFormed(change, adapter, base, guarded, parts, targets, (revision.cases, revision.regressions));
  }

  /** The differences that a revision reports, case by case. */
  lemma DifferencesExactly(change: Change, adapter: Adapter, base: Base, guarded: set<int>, revision: Revision, i: int)
    requires SettledBase(base, adapter) && Revise(change, adapter, base, guarded) == Success(revision)
    ensures i in revision.diff.added <==> i in Ids(revision.cases) && i !in Ids(base.cases)
    ensures i in revision.diff.removed <==> i in Ids(base.cases) && i !in Ids(revision.cases)
    ensures i in revision.diff.changed <==>
              exists c, d :: c in base.cases && d in revision.cases && c.id == i && d.id == i && c != d
  {
    DiffOfRevision(change, adapter, base, guarded, revision);
    DiffersExactly(base.cases, base.regressions, revision.cases, i);
  }

  lemma DiffOfRevision(change: Change, adapter: Adapter, base: Base, guarded: set<int>, revision: Revision)
    requires SettledBase(base, adapter) && Revise(change, adapter, base, guarded) == Success(revision)
    ensures revision.diff == MakeDiff(base.cases + base.regressions, base.cases, revision.cases)
    ensures UniqueIds(base.cases) && UniqueIds(revision.cases)
  {
    var drafted := Inputs(change.cases, adapter, false).value;
    SettledParts(base, adapter);
    RevisionParts(change, adapter, base, guarded, revision);
    NormalizedShape(drafted, adapter, |drafted|, revision.cases);
  }

  lemma SettledParts(base: Base, adapter: Adapter)
    requires SettledBase(base, adapter)
    ensures BeforeOf(base, adapter) == Success((base.cases, base.regressions)) && UniqueIds(base.cases)
  {
    if base.cases != [] {
      NormalizedShape(base.cases, adapter, |base.cases|, base.cases);
    }
  }

  lemma RevisionParts(change: Change, adapter: Adapter, base: Base, guarded: set<int>, revision: Revision)
    requires Revise(change, adapter, base, guarded) == Success(revision)
    ensures BeforeOf(base, adapter).Success? && Inputs(change.cases, adapter, false).Success?
    ensures var parts := BeforeOf(base, adapter).value;
            revision.diff == MakeDiff(parts.0 + parts.1, parts.0, revision.cases)
    ensures Inputs(Inputs(change.cases, adapter, false).value, adapter, false) == Success(revision.cases)
  {
    var parts := BeforeOf(base, adapter).value;
    var drafted := Inputs(change.cases, adapter, false).value;
    var retained := RetainedRegressions(change, parts.0, parts.1, guarded).value;
    assert Partitions(drafted, retained, adapter) == Success((revision.cases, revision.regressions));
    PartitionsRead(drafted, retained, adapter, (revision.cases, revision.regressions));
  }

  lemma PartitionsRead(cases: seq<Case>, regressions: seq<Case>, adapter: Adapter, parts: (seq<Case>, seq<Case>))
    requires Partitions(cases, regressions, adapter) == Success(parts)
    ensures Inputs(cases, adapter, false) == Success(parts.0) && Inputs(regressions, adapter, true) == Success(parts.1)
  {
  }

  lemma DiffersExactly(cases: seq<Case>, regressions: seq<Case>, after: seq<Case>, i: int)
    requires UniqueIds(cases) && UniqueIds(after)
    ensures i in MakeDiff(cases + regressions, cases, after).changed <==>
              exists c, d :: c in cases && d in after && c.id == i && d.id == i && c != d
  {
    if i in Ids(cases) && i in Ids(after) {
      LookupFirst(cases, regressions, i);
      var c, d := Lookup(cases, i).value, Lookup(after, i).value;
      assert c in cases && d in after;
      forall c', d' | c' in cases && d' in after && c'.id == i && d'.id == i
        ensures c' == c && d' == d
      {
        LookupExactly(cases, c');
        LookupExactly(after, d');
      }
    } else {
      forall c, d | c in cases && d in after && c.id == i
        ensures d.id != i
      {
        var j :| 0 <= j < |cases| && cases[j] == c;
        var k :| 0 <= k < |after| && after[k] == d;
      }
    }
  }

  /** Replacing one protected case by another is accepted exactly if both have one reviewed execution;
      the successor is protected from then on. */
  lemma ReplacementAcceptedExactly(adapter: Adapter, version: int, c: Case, d: Case)
    requires 0 < c.id && 0 < d.id && c.id != d.id
    requires adapter.validate(c) == Some(c) && adapter.validate(d) == Some(d) && adapter.fits([d])
    ensures var change := Change(true, Some(version), true, [d], [Replacement(c.id, d.id)], []);
            Revise(change, adapter, Base(Some(version), [c], []), {c.id}) ==
            if HaveOneKey(adapter, c, d) then Success(Revision([d], [], Diff({d.id}, {c.id}, {}), {}, {}, {d.id}))
            else Rejected
  {
    var change := Change(true, Some(version), true, [d], [Replacement(c.id, d.id)], []);
    var base := Base(Some(version), [c], []);
    var targets := map[c.id := d.id];
    var parts, next: (seq<Case>, seq<Case>) := ([c], []), ([d], []);
    OneReplacement(adapter, version, c, d);
    RevisedExactly(change, adapter, base, {c.id}, parts, targets, next);
    assert [c] + [] == [c] && [d] + [] == [d];
    assert c in [c] && d in [d];
    assert Survives(adapter, [c], [d], targets, c.id) <==> HaveOneKey(adapter, c, d);
    if HaveOneKey(adapter, c, d) {
      OneForOne(c, d);
      var revision := Revise(change, adapter, base, {c.id}).value;
      assert revision.protectedIds == {d.id};
      assert Ids(next.1) - Ids(parts.1) == {};
    }
  }

  lemma OneReplacement(adapter: Adapter, version: int, c: Case, d: Case)
    requires 0 < c.id && 0 < d.id && c.id != d.id
    requires adapter.validate(c) == Some(c) && adapter.validate(d) == Some(d)
    ensures WellFormed(Change(true, Some(version), true, [d], [Replacement(c.id, d.id)], []), adapter,
                       Base(Some(version), [c], []), {c.id}, ([c], []), map[c.id := d.id], ([d], []))
  {
    var change := Change(true, Some(version), true, [d], [Replacement(c.id, d.id)], []);
    SinglePartition(adapter, c);
    SinglePartition(adapter, d);
    assert Targets(change.replacements, {c.id}) == Success(map[c.id := d.id]) by {
      assert TargetsFirst(change.replacements, {c.id}, 0) == Success(map[]);
      assert TargetsFirst(change.replacements, {c.id}, 1) == Success(map[][c.id := d.id]);
    }
    assert RetainedRegressions(change, [c], [], {c.id}) == Success([]) by {
      assert IdList([]) + change.retain == [];
      assert Elements(change.retain) == {};
    }
    assert [c] + [] == [c] && [c][0].id == c.id;
  }

  lemma OneForOne(c: Case, d: Case)
    requires c.id != d.id
    ensures MakeDiff([c], [c], [d]) == Diff({d.id}, {c.id}, {})
    ensures (set id | id in {c.id} :: Successor(map[c.id := d.id], id)) == {d.id}
  {
    assert forall i :: i in Ids([c]) <==> i == c.id by {
      assert [c][0].id == c.id;
    }
    assert forall i :: i in Ids([d]) <==> i == d.id by {
      assert [d][0].id == d.id;
    }
    assert Ids([c]) == {c.id} && Ids([d]) == {d.id};
    assert Successor(map[c.id := d.id], c.id) == d.id;
  }

  lemma SinglePartition(adapter: Adapter, c: Case)
    requires 0 < c.id && adapter.validate(c) == Some(c)
    ensures Inputs([c], adapter, false) == Success([c])
    ensures Partitions([c], [], adapter) == Success(([c], []))
  {
    assert NormalizeFirst([c], adapter, 0) == Success([]);
    assert [] + [c] == [c];
  }
}

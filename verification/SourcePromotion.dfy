/** Staging, sealing and promoting the edits of an agent.  A file tree maps paths to contents, and a
    digest stands for the content or the tree it was taken of. */
module SourcePromotion {
  import opened Wrappers
  import opened Collections

  type Path = int
  type Content = int
  type Tree = map<Path, Content>

  function At(t: Tree, p: Path): Option<Content> {
    if p in t then Some(t[p]) else None
  }

  function Changed(before: Tree, after: Tree): set<Path> {
    set p | p in before.Keys + after.Keys && At(before, p) != At(after, p)
  }

  datatype Seal = Seal(before: Tree, after: Tree, changed: seq<Path>, scope: set<Path>,
                       files: Tree, deleted: set<Path>)

  datatype Receipt = Receipt(before: Tree, after: Tree, changed: seq<Path>)

  function MakeSeal(before: Tree, after: Tree, scope: set<Path>): Seal {
    var changed := Changed(before, after);
    Seal(before, after, Sorted(changed), scope,
         map p | p in changed && p in after :: after[p],
         set p | p in changed && p !in after)
  }

  /** The checks of a promotion that only look at the seal. */
  predicate ManifestOk(s: Seal) {
    && Elements(s.changed) <= s.scope
    && s.files.Keys !! s.deleted
    && s.files.Keys + s.deleted == Elements(s.changed)
  }

  predicate PathResumable(before: Tree, current: Tree, files: Tree, deleted: set<Path>,
                          changed: set<Path>, p: Path)
  {
    if p !in changed then At(current, p) == At(before, p)
    else At(current, p) == At(before, p) || At(current, p) == (if p in deleted then None else At(files, p))
  }

  predicate Resumable(before: Tree, current: Tree, files: Tree, deleted: set<Path>, changed: set<Path>) {
    forall p :: p in before.Keys + current.Keys + changed ==>
      PathResumable(before, current, files, deleted, changed, p)
  }

  /** The tree that an interruption leaves: the paths done hold their new value, all others the old. */
  ghost predicate Mixed(before: Tree, after: Tree, done: set<Path>, t: Tree) {
    forall p :: At(t, p) == if p in done then At(after, p) else At(before, p)
  }

  ghost predicate Partial(before: Tree, after: Tree, t: Tree) {
    exists done :: done <= Changed(before, after) && Mixed(before, after, done, t)
  }

  function Write(t: Tree, after: Tree, p: Path): Tree {
    if p in after then t[p := after[p]] else t - {p}
  }

  function WriteFirst(t: Tree, after: Tree, changed: seq<Path>, n: nat): Tree
    requires n <= |changed|
  {
    if n == 0 then t else Write(WriteFirst(t, after, changed, n - 1), after, changed[n - 1])
  }

  /** The change lists of a seal say what the sealed tree holds. */
  predicate Truthful(s: Seal) {
    forall k :: 0 <= k < |s.changed| ==>
      var p := s.changed[k];
      if p in s.deleted then p !in s.after else p in s.after && At(s.files, p) == Some(s.after[p])
  }

  // ----- Properties -----

  lemma MadeIsTruthful(before: Tree, after: Tree, scope: set<Path>)
    ensures Truthful(MakeSeal(before, after, scope))
  {
    var s := MakeSeal(before, after, scope);
    forall k | 0 <= k < |s.changed|
      ensures s.changed[k] in Changed(before, after)
    {
      assert s.changed[k] in Elements(s.changed);
    }
  }

  /** A seal lists exactly the paths that differ, in ascending order, those that are there with their
      content and the others as deleted. */
  lemma SealSaysExactly(before: Tree, after: Tree, scope: set<Path>, p: Path)
    ensures var s := MakeSeal(before, after, scope);
            && s.before == before && s.after == after && s.scope == scope && Ascending(s.changed)
            && (p in s.changed <==> At(before, p) != At(after, p))
            && (p in s.files <==> p in after && At(before, p) != Some(after[p]))
            && (p in s.files ==> s.files[p] == after[p])
            && (p in s.deleted <==> p in before && p !in after)
  {
    var s := MakeSeal(before, after, scope);
    assert p in s.changed <==> p in Elements(s.changed);
  }

  /** A seal is promoted only if its change list stays in its scope and splits into files and
      deletions. */
  lemma ManifestExactly(s: Seal)
    ensures ManifestOk(s) <==>
              && (forall p :: p in s.changed ==> p in s.scope && (p in s.files <==> p !in s.deleted))
              && (forall p :: p in s.files ==> p in s.changed)
              && (forall p :: p in s.deleted ==> p in s.changed)
  {
    assert forall p :: p in Elements(s.changed) <==> p in s.changed;
    if forall p :: p in s.changed ==> p in s.scope && (p in s.files <==> p !in s.deleted) {
      assert (forall p :: p in s.files ==> p in s.changed) && (forall p :: p in s.deleted ==> p in s.changed) ==>
          s.files.Keys + s.deleted == Elements(s.changed);
    }
  }

  /** A seal that seal() makes within the write scope passes the manifest check of promote(). */
  lemma SealPassesManifest(before: Tree, after: Tree, scope: set<Path>)
    requires Changed(before, after) <= scope
    ensures ManifestOk(MakeSeal(before, after, scope))
  {
    var s := MakeSeal(before, after, scope);
    assert s.files.Keys + s.deleted == Changed(before, after);
  }

  /** An origin is accepted exactly when it is the staged tree with some of the sealed changes made. */
  lemma ResumableExactlyPartial(before: Tree, after: Tree, scope: set<Path>, t: Tree)
    ensures var s := MakeSeal(before, after, scope);
            Resumable(before, t, s.files, s.deleted, Elements(s.changed)) <==> Partial(before, after, t)
  {
    var s := MakeSeal(before, after, scope);
    var changed := Changed(before, after);
    assert Elements(s.changed) == changed;
    assert forall p :: p in changed ==> (if p in s.deleted then None else At(s.files, p)) == At(after, p);
    if Resumable(before, t, s.files, s.deleted, changed) {
      var done := set p | p in changed && At(t, p) == At(after, p);
      forall p
        ensures At(t, p) == if p in done then At(after, p) else At(before, p)
      {
        if p in before.Keys + t.Keys + changed {
          assert PathResumable(before, t, s.files, s.deleted, changed, p);
        }
      }
      assert Mixed(before, after, done, t);
    }
    if Partial(before, after, t) {
      var done :| done <= changed && Mixed(before, after, done, t);
      forall p | p in before.Keys + t.Keys + changed
        ensures PathResumable(before, t, s.files, s.deleted, changed, p)
      {
      }
    }
  }

  lemma {:induction false} WritesMix(before: Tree, after: Tree, t: Tree, done: set<Path>,
                                     changed: seq<Path>, n: nat)
    requires n <= |changed| && Mixed(before, after, done, t)
    ensures Mixed(before, after, done + Elements(changed[..n]), WriteFirst(t, after, changed, n))
  {
    if n == 0 {
      assert Elements(changed[..0]) == {};
      assert done + {} == done;
    } else {
      WritesMix(before, after, t, done, changed, n - 1);
      assert changed[..n] == changed[..n - 1] + [changed[n - 1]];
      assert Elements(changed[..n]) == Elements(changed[..n - 1]) + {changed[n - 1]};
    }
  }

  /** Wherever a promotion stops, the origin can be resumed. */
  lemma PrefixStaysPartial(before: Tree, after: Tree, t: Tree, n: nat)
    requires Partial(before, after, t) && n <= |Sorted(Changed(before, after))|
    ensures Partial(before, after, WriteFirst(t, after, Sorted(Changed(before, after)), n))
  {
    var changed := Sorted(Changed(before, after));
    var done :| done <= Changed(before, after) && Mixed(before, after, done, t);
    WritesMix(before, after, t, done, changed, n);
    assert forall p :: p in Elements(changed[..n]) ==> p in Elements(changed);
    assert done + Elements(changed[..n]) <= Changed(before, after);
  }

  /** A promotion that runs to its end leaves exactly the sealed workspace. */
  lemma FullRunReachesSeal(before: Tree, after: Tree, t: Tree)
    requires Partial(before, after, t)
    ensures var changed := Sorted(Changed(before, after));
            WriteFirst(t, after, changed, |changed|) == after
  {
    var changed := Sorted(Changed(before, after));
    var done :| done <= Changed(before, after) && Mixed(before, after, done, t);
    WritesMix(before, after, t, done, changed, |changed|);
    assert changed[..|changed|] == changed;
    var t' := WriteFirst(t, after, changed, |changed|);
    assert done + Elements(changed) == Changed(before, after);
    SameTree(t', after, before);
  }

  lemma SameTree(t: Tree, after: Tree, before: Tree)
    requires Mixed(before, after, Changed(before, after), t)
    ensures t == after
  {
    forall p
      ensures At(t, p) == At(after, p)
    {
    }
    forall p
      ensures p in t.Keys <==> p in after.Keys
    {
      assert At(t, p) == At(after, p);
    }
    forall p | p in t
      ensures t[p] == after[p]
    {
      assert At(t, p) == At(after, p);
    }
  }

  // ----- Interruptions -----

  /** Where a promotion dies: after some writes, or inside the replacement of the next file, whose
      temporary copy, complete or not, then stays in the origin under a generated name. */
  datatype Cut = After(n: nat) | Inside(n: nat, name: Path, partial: Content)

  /** Only files that are written, not deleted, have a temporary copy, and a generated name is no
      path of the project. */
  predicate CutOk(s: Seal, cut: Cut) {
    && cut.n <= |s.changed|
    && (cut.Inside? ==>
          && cut.n < |s.changed| && s.changed[cut.n] in s.after
          && cut.name !in s.before && cut.name !in s.after)
  }

  predicate CutsOk(s: Seal, cuts: seq<Cut>) {
    forall k :: 0 <= k < |cuts| ==> CutOk(s, cuts[k])
  }

  function WriteUntil(t: Tree, after: Tree, changed: seq<Path>, cut: Cut): Tree
    requires cut.n <= |changed|
  {
    match cut
    case After(n) => WriteFirst(t, after, changed, n)
    case Inside(n, name, partial) => WriteFirst(t, after, changed, n)[name := partial]
  }

  predicate Accepts(s: Seal, t: Tree) {
    Resumable(s.before, t, s.files, s.deleted, Elements(s.changed))
  }

  /** One promotion that dies: it is refused and writes nothing, or it writes until its cut. */
  function Attempt(s: Seal, t: Tree, cut: Cut): Tree
    requires CutOk(s, cut)
  {
    if Accepts(s, t) then WriteUntil(t, s.after, s.changed, cut) else t
  }

  function Interrupted(s: Seal, t: Tree, cuts: seq<Cut>): Tree
    requires CutsOk(s, cuts)
    decreases |cuts|
  {
    if cuts == [] then t else Interrupted(s, Attempt(s, t, cuts[0]), cuts[1..])
  }

  lemma {:induction false} RefusedStaysRefused(s: Seal, t: Tree, cuts: seq<Cut>)
    requires !Accepts(s, t) && CutsOk(s, cuts)
    ensures Interrupted(s, t, cuts) == t
    decreases |cuts|
  {
    if cuts != [] {
      RefusedStaysRefused(s, t, cuts[1..]);
    }
  }

  /** A file that neither tree has makes the promotion refuse, and nothing else about it matters. */
  lemma LeftoverIsRefused(before: Tree, after: Tree, scope: set<Path>, t: Tree, name: Path)
    requires name in t && name !in before && name !in after
    ensures !Accepts(MakeSeal(before, after, scope), t)
  {
    var s := MakeSeal(before, after, scope);
    assert name !in Changed(before, after);
    assert !PathResumable(before, t, s.files, s.deleted, Elements(s.changed), name);
  }

  /** After any interruptions the next promotion is accepted exactly when none of them fell inside
      the replacement of a file; and when it is accepted and runs to its end, the origin is the
      sealed workspace, so that its final digest check cannot fail. */
  lemma {:induction false} PromotionIsResumable(before: Tree, after: Tree, scope: set<Path>,
                                                t: Tree, cuts: seq<Cut>)
    requires Partial(before, after, t) && CutsOk(MakeSeal(before, after, scope), cuts)
    ensures var s := MakeSeal(before, after, scope);
            var t' := Interrupted(s, t, cuts);
            && (Accepts(s, t') <==> forall k :: 0 <= k < |cuts| ==> cuts[k].After?)
            && (Accepts(s, t') ==> WriteFirst(t', after, s.changed, |s.changed|) == after)
    decreases |cuts|
  {
    var s := MakeSeal(before, after, scope);
    if cuts == [] {
      ResumableExactlyPartial(before, after, scope, t);
      FullRunReachesSeal(before, after, t);
    } else {
      var t1, rest := Attempt(s, t, cuts[0]), cuts[1..];
      OneAttempt(before, after, scope, t, cuts[0]);
      assert forall k :: 1 <= k < |cuts| ==> cuts[k] == rest[k - 1];
      if cuts[0].After? {
        PromotionIsResumable(before, after, scope, t1, rest);
      } else {
        RefusedStaysRefused(s, t1, rest);
      }
    }
  }

  lemma OneAttempt(before: Tree, after: Tree, scope: set<Path>, t: Tree, cut: Cut)
    requires Partial(before, after, t) && CutOk(MakeSeal(before, after, scope), cut)
    ensures var s := MakeSeal(before, after, scope);
            if cut.After? then Partial(before, after, Attempt(s, t, cut)) else !Accepts(s, Attempt(s, t, cut))
  {
    var s := MakeSeal(before, after, scope);
    ResumableExactlyPartial(before, after, scope, t);
    if cut.After? {
      PrefixStaysPartial(before, after, t, cut.n);
    } else {
      LeftoverIsRefused(before, after, scope, Attempt(s, t, cut), cut.name);
    }
  }

  /** What has to be done by hand: without the leftover the promotion can go on where it died. */
  lemma RemovingLeftoverUnblocks(before: Tree, after: Tree, scope: set<Path>, t: Tree, cut: Cut)
    requires Partial(before, after, t) && cut.Inside? && CutOk(MakeSeal(before, after, scope), cut)
    ensures var s := MakeSeal(before, after, scope);
            var repaired := WriteUntil(t, after, s.changed, cut) - {cut.name};
            && Accepts(s, repaired)
            && WriteFirst(repaired, after, s.changed, |s.changed|) == after
  {
    var s := MakeSeal(before, after, scope);
    var u := WriteFirst(t, after, s.changed, cut.n);
    PrefixStaysPartial(before, after, t, cut.n);
    assert cut.name !in u by {
      var done :| done <= Changed(before, after) && Mixed(before, after, done, u);
      assert At(u, cut.name) == None;
    }
    assert u[cut.name := cut.partial] - {cut.name} == u;
    ResumableExactlyPartial(before, after, scope, u);
    FullRunReachesSeal(before, after, u);
  }

  /** Such a death: a promotion that adds one file dies while it copies it, and every later one is
      refused. */
  lemma DeathInsideReplacementBlocks(scope: set<Path>, cuts: seq<Cut>)
    requires CutsOk(MakeSeal(map[], map[1 := 10], scope), cuts)
    ensures var s := MakeSeal(map[], map[1 := 10], scope);
            && CutOk(s, Inside(0, 2, 5)) && Accepts(s, map[])
            && CutsOk(s, [Inside(0, 2, 5)] + cuts)
            && !Accepts(s, Interrupted(s, map[], [Inside(0, 2, 5)] + cuts))
  {
    var before: Tree, after: Tree := map[], map[1 := 10];
    var s := MakeSeal(before, after, scope);
    assert Changed(before, after) == {1};
    AllDistinct(s.changed);
    assert Elements(s.changed) == {1};
    assert s.changed[0] in Elements(s.changed);
    StagedIsPartial(before, after);
    ResumableExactlyPartial(before, after, scope, before);
    var t1 := Attempt(s, before, Inside(0, 2, 5));
    LeftoverIsRefused(before, after, scope, t1, 2);
    RefusedStaysRefused(s, t1, cuts);
    assert ([Inside(0, 2, 5)] + cuts)[1..] == cuts;
  }

  lemma StagedIsPartial(before: Tree, after: Tree)
    ensures Partial(before, after, before)
  {
    assert Mixed(before, after, {}, before);
  }

  // ----- The workspace of one action -----

  method MayDie() returns (dies: bool)
  {
    dies := *;
  }

  method AnyContent() returns (c: Content)
  {
    c := *;
  }

  class AgentWorkspace {
    const scope: set<Path>
    var origin: Tree
    var workspace: Tree
    var stage: Option<Tree>
    var seal: Option<Seal>
    var receipt: Option<Receipt>

    constructor (scope: set<Path>, origin: Tree)
      ensures this.scope == scope && this.origin == origin
      ensures stage == None && seal == None && receipt == None
    {
      this.scope, this.origin, this.workspace := scope, origin, map[];
      stage, seal, receipt := None, None, None;
    }

    /** The first staging copies the origin and records its snapshot; a later one only reads the
        snapshot back.  The process can die after the copy. */
    method Stage(expected: Option<Tree>) returns (before: Outcome<Tree>)
      modifies this`workspace, this`stage
      ensures old(stage).Some? ==> stage == old(stage) && workspace == old(workspace)
      ensures before.Done? ==> stage == Some(before.value)
      ensures before.Done? && old(stage).None? ==> before.value == origin && workspace == origin
      ensures !before.Done? ==> stage == old(stage)
      ensures expected.Some? && expected.value != (if old(stage).Some? then old(stage).value else origin)
              ==> !before.Done?
      ensures before.Raised? ==>
                expected.Some? && expected.value != (if old(stage).Some? then old(stage).value else origin)
    {
      if stage.Some? {
        return if expected.Some? && expected.value != stage.value then Raised else Done(stage.value);
      }
      workspace := origin;
      var dies := MayDie();
      if dies {
        return Died;
      }
      if expected.Some? && expected.value != workspace {
        return Raised;
      }
      stage := Some(workspace);
      return Done(workspace);
    }

    /** The seal is written once; sealing again must find the same one. */
    method SealSource() returns (result: Outcome<Seal>)
      modifies this`seal
      ensures result.Done? <==>
                && old(stage).Some? && Changed(old(stage).value, workspace) <= scope
                && (old(seal).Some? ==> old(seal).value == MakeSeal(old(stage).value, workspace, scope))
      ensures result.Done? ==>
                result.value == MakeSeal(old(stage).value, workspace, scope) && seal == Some(result.value)
      ensures !result.Done? ==> seal == old(seal) && result.Raised?
    {
      if stage.None? {
        return Raised;
      }
      if !(Changed(stage.value, workspace) <= scope) {
        return Raised;
      }
      var made := MakeSeal(stage.value, workspace, scope);
      if seal.Some? {
        return if seal.value != made then Raised else Done(seal.value);
      }
      seal := Some(made);
      return Done(made);
    }

    method ValidateResumableOrigin(before: Tree, current: Tree, files: Tree, deleted: set<Path>,
                                   changed: set<Path>) returns (ok: bool)
      ensures ok <==> Resumable(before, current, files, deleted, changed)
    {
      var paths := before.Keys + current.Keys + changed;
      while paths != {}
        invariant paths <= before.Keys + current.Keys + changed
        invariant forall p :: p in before.Keys + current.Keys + changed && p !in paths ==>
          PathResumable(before, current, files, deleted, changed, p)
        decreases |paths|
      {
        var p := Any(paths);
        if p !in changed {
          if At(current, p) != At(before, p) {
            return false;
          }
        } else {
          var after := if p in deleted then None else At(files, p);
          if At(current, p) != At(before, p) && At(current, p) != after {
            return false;
          }
        }
        paths := paths - {p};
      }
      return true;
    }

    /** What promote() checks before it looks at the origin. */
    predicate SealUsable()
      reads this
    {
      && seal.Some? && workspace == seal.value.after && ManifestOk(seal.value)
      && stage.Some? && stage.value == seal.value.before
    }

    predicate OriginResumable()
      reads this
      requires SealUsable()
    {
      var s := seal.value;
      Resumable(s.before, origin, s.files, s.deleted, Elements(s.changed))
    }

    /** A file is copied beside its target under a generated name and then moved over it.  When the
        process dies in between, the copy stays where it is. */
    method ReplaceFile(p: Path, content: Content, avoid: set<Path>)
      returns (result: Outcome<()>, name: Path, partial: Content)
      modifies this`origin
      ensures !result.Raised?
      ensures result.Done? ==> origin == old(origin)[p := content]
      ensures name !in avoid && name !in old(origin)
      ensures result.Died? ==> origin == old(origin)[name := partial]
    {
      name := Unused(avoid + origin.Keys + {p});
      partial := AnyContent();
      origin := origin[name := partial];
      var dies := MayDie();
      if dies {
        return Died, name, partial;
      }
      origin := (origin - {name})[p := content];
      return Done(()), name, partial;
    }

    /** The sealed changes are written one by one, and the process can die before each of them or
        while it replaces a file. */
    method WriteChanges(s: Seal) returns (result: Outcome<()>)
      requires workspace == s.after
      modifies this`origin
      ensures Truthful(s) ==>
                && !result.Raised?
                && (exists cut :: CutOk(s, cut)
                      && origin == WriteUntil(old(origin), s.after, s.changed, cut))
                && (result.Done? ==> origin == WriteFirst(old(origin), s.after, s.changed, |s.changed|))
    {
      for n := 0 to |s.changed|
        invariant Truthful(s) ==>
          origin == WriteFirst(old(origin), s.after, s.changed, n)
      {
        var p := s.changed[n];
        assert Truthful(s) ==> origin == WriteUntil(old(origin), s.after, s.changed, After(n));
        var dies := MayDie();
        if dies {
          return Died;
        }
        if p in s.deleted {
          origin := origin - {p};
        } else {
          if p !in workspace || At(s.files, p) != Some(workspace[p]) {
            return Raised;
          }
          var replaced, name, partial := ReplaceFile(p, workspace[p], s.before.Keys + s.after.Keys);
          if replaced.Died? {
            assert Truthful(s) ==> CutOk(s, Inside(n, name, partial))
                                   && origin == WriteUntil(old(origin), s.after, s.changed, Inside(n, name, partial));
            return Died;
          }
        }
      }
      assert Truthful(s) ==> origin == WriteUntil(old(origin), s.after, s.changed, After(|s.changed|));
      return Done(());
    }

    /** What a promotion relies on: the sealed workspace, staged from the tree that it was sealed
        against, and a change list in scope. */
    predicate Intact(s: Seal)
      reads this
    {
      && workspace == s.after && stage == Some(s.before)
      && (forall p :: p in s.changed ==> p in s.scope && (p in s.files <==> p !in s.deleted))
    }

    /** A promotion that is refused writes nothing.  One that starts on a seal that seal() made
        applies the sealed changes until it dies, never raises, and finishes at the sealed tree. */
    method Promote() returns (result: Outcome<Receipt>)
      modifies this`origin, this`receipt
      ensures !old(SealUsable()) ==> result.Raised? && origin == old(origin) && receipt == old(receipt)
      ensures old(SealUsable()) && old(receipt).Some? ==>
                && origin == old(origin) && receipt == old(receipt)
                && (result.Done? <==>
                      && old(receipt).value == Receipt(seal.value.before, seal.value.after, seal.value.changed)
                      && origin == seal.value.after)
      ensures result.Done? ==> seal.Some? && Intact(seal.value)
      ensures stage.Some? && seal == Some(MakeSeal(stage.value, workspace, scope))
              && Changed(stage.value, workspace) <= scope
              && old(receipt).None? && Partial(stage.value, workspace, old(origin)) ==>
                !result.Raised?
      ensures old(SealUsable()) && old(receipt).None? && !old(OriginResumable()) ==>
                result.Raised? && origin == old(origin) && receipt == old(receipt)
      ensures old(SealUsable()) && old(receipt).None? && old(OriginResumable())
              && seal.value == MakeSeal(seal.value.before, seal.value.after, seal.value.scope) ==>
                && !result.Raised?
                && (exists cut :: CutOk(seal.value, cut)
                      && origin == WriteUntil(old(origin), seal.value.after, seal.value.changed, cut))
                && (result.Done? ==>
                      && origin == seal.value.after && receipt == Some(result.value)
                      && result.value == Receipt(seal.value.before, seal.value.after, seal.value.changed))
                && (result.Died? ==> receipt == old(receipt) || origin == seal.value.after)
    {
      if stage.Some? && Changed(stage.value, workspace) <= scope {
        SealPassesManifest(stage.value, workspace, scope);
        ResumableExactlyPartial(stage.value, workspace, scope, origin);
      }
      if seal.None? || workspace != seal.value.after {
        return Raised;
      }
      var s := seal.value;
      ManifestExactly(s);
      if !(Elements(s.changed) <= s.scope) {
        return Raised;
      }
      if !(s.files.Keys !! s.deleted) || s.files.Keys + s.deleted != Elements(s.changed) {
        return Raised;
      }
      if stage.None? || stage.value != s.before {
        return Raised;
      }
      var done := Receipt(s.before, s.after, s.changed);
      if receipt.Some? {
        return if receipt.value == done && origin == s.after then Done(done) else Raised;
      }
      var resumable := ValidateResumableOrigin(s.before, origin, s.files, s.deleted, Elements(s.changed));
      if !resumable {
        return Raised;
      }
      ghost var start := origin;
      if s == MakeSeal(s.before, s.after, s.scope) {
        MadeIsTruthful(s.before, s.after, s.scope);
      }
      var written := WriteChanges(s);
      if !written.Done? {
        return if written.Raised? then Raised else Died;
      }
      if s == MakeSeal(s.before, s.after, s.scope) {
        ResumableExactlyPartial(s.before, s.after, s.scope, start);
        FullRunReachesSeal(s.before, s.after, start);
      }
      var dies := MayDie();
      if dies {
        return Died;
      }
      if origin != s.after {
        return Raised;
      }
      receipt := Some(done);
      return Done(done);
    }
  }
}

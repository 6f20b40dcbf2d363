/** Sealing, promoting and recovering the non-source outputs of agents.  Targets map canonical paths
    to contents; a digest stands for the content it was taken of. */
module OutputPromotion {
  import opened Wrappers

  type Id = int
  type Path = int
  type Content = int
  type Targets = map<Path, Content>

  /** seeded marks the kinds whose isolated file starts as a copy of the target. */
  datatype Contract = Contract(id: Id, canonical: Path, before: Option<Content>,
                               required: bool, mustChange: bool, seeded: bool)

  datatype Output = Output(id: Id, canonical: Path, digest: Content)

  datatype Restore = Restore(target: Path, stale: Content, restored: Content)

  /** The files of one action: its contracts, the isolated outputs, the seal and the receipts. */
  datatype Run = Run(contracts: seq<Contract>, isolated: map<Id, Content>, sealed: Option<seq<Output>>,
                     promoted: Option<seq<Output>>, recovered: Option<(Id, seq<Restore>)>)

  type Validator = (Contract, Content) -> bool

  function At(t: Targets, p: Path): Option<Content> {
    if p in t then Some(t[p]) else None
  }

  /** Later rows win, as when a dictionary is built from them. */
  function ContractOf(contracts: seq<Contract>, id: Id): (c: Option<Contract>)
    ensures c.Some? ==> c.value in contracts && c.value.id == id
    ensures c.None? ==> forall d :: d in contracts ==> d.id != id
  {
    if contracts == [] then None
    else if contracts[|contracts| - 1].id == id then Some(contracts[|contracts| - 1])
    else ContractOf(contracts[..|contracts| - 1], id)
  }

  function OutputOf(outputs: seq<Output>, path: Path, digest: Content): (o: Option<Output>)
    ensures o.Some? ==> o.value in outputs && o.value.canonical == path && o.value.digest == digest
    ensures o.None? ==> forall r :: r in outputs ==> r.canonical != path || r.digest != digest
  {
    if outputs == [] then None
    else
      var last := outputs[|outputs| - 1];
      if last.canonical == path && last.digest == digest then Some(last)
      else OutputOf(outputs[..|outputs| - 1], path, digest)
  }

  // ----- Sealing -----

  /** One contract contributes an output when its isolated file is there, valid and new. */
  function SealItem(c: Contract, isolated: map<Id, Content>, accepts: Validator): Result<seq<Output>> {
    if c.id !in isolated then (if c.required then Rejected else Success([]))
    else if !accepts(c, isolated[c.id]) then Rejected
    else if c.before == Some(isolated[c.id]) then (if c.mustChange then Rejected else Success([]))
    else Success([Output(c.id, c.canonical, isolated[c.id])])
  }

  function SealFirst(contracts: seq<Contract>, isolated: map<Id, Content>, accepts: Validator, n: nat):
    Result<seq<Output>>
    requires n <= |contracts|
  {
    if n == 0 then Success([])
    else
      var outputs :- SealFirst(contracts, isolated, accepts, n - 1);
      var more :- SealItem(contracts[n - 1], isolated, accepts);
      Success(outputs + more)
  }

  // ----- Promotion -----

  function PromoteItem(t: Targets, run: Run, o: Output, accepts: Validator): Result<Targets> {
    var contract := ContractOf(run.contracts, o.id);
    if contract.None? || At(run.isolated, o.id) != Some(o.digest) || !accepts(contract.value, o.digest)
    then Rejected
    else
      var target := contract.value.canonical;
      if At(t, target) != contract.value.before && At(t, target) != Some(o.digest) then Rejected
      else Success(if At(t, target) == Some(o.digest) then t else t[target := o.digest])
  }

  function PromoteFirst(t: Targets, run: Run, outputs: seq<Output>, accepts: Validator, n: nat): Result<Targets>
    requires n <= |outputs|
  {
    if n == 0 then Success(t)
    else
      var u :- PromoteFirst(t, run, outputs, accepts, n - 1);
      PromoteItem(u, run, outputs[n - 1], accepts)
  }

  // ----- Recovery -----

  function PlanItem(t: Targets, stale: Run, prior: Run, priors: seq<Output>, o: Output): Result<Restore> {
    var contract := ContractOf(stale.contracts, o.id);
    if contract.None? || contract.value.before.None? then Rejected
    else
      var restored := contract.value.before.value;
      var source := OutputOf(priors, o.canonical, restored);
      if source.None? then Rejected
      else
        var priorContract := ContractOf(prior.contracts, source.value.id);
        if priorContract.None? || priorContract.value.canonical != o.canonical
           || At(prior.isolated, source.value.id) != Some(restored) then Rejected
        else if At(t, o.canonical) != Some(o.digest) && At(t, o.canonical) != Some(restored) then Rejected
        else Success(Restore(o.canonical, o.digest, restored))
  }

  function Plan(t: Targets, stale: Run, prior: Run, priors: seq<Output>, outputs: seq<Output>, n: nat):
    (plan: Result<seq<Restore>>)
    requires n <= |outputs|
    ensures plan.Success? ==> |plan.value| == n
  {
    if n == 0 then Success([])
    else
      var plan :- Plan(t, stale, prior, priors, outputs, n - 1);
      var item :- PlanItem(t, stale, prior, priors, outputs[n - 1]);
      Success(plan + [item])
  }

  function RestoreFirst(t: Targets, plan: seq<Restore>, n: nat): Targets
    requires n <= |plan|
  {
    if n == 0 then t else RestoreFirst(t, plan, n - 1)[plan[n - 1].target := plan[n - 1].restored]
  }

  // ----- What a seal promises -----

  predicate DistinctIds(contracts: seq<Contract>) {
    forall i, j :: 0 <= i < j < |contracts| ==> contracts[i].id != contracts[j].id
  }

  /** Every sealed output is a changed file of its contract. */
  predicate SealedFrom(run: Run, outputs: seq<Output>) {
    forall k {:trigger SealedOne(run, outputs[k])} :: 0 <= k < |outputs| ==> SealedOne(run, outputs[k])
  }

  predicate SealedOne(run: Run, o: Output) {
    var contract := ContractOf(run.contracts, o.id);
    && contract.Some? && contract.value.canonical == o.canonical
    && At(run.isolated, o.id) == Some(o.digest) && contract.value.before != Some(o.digest)
  }

  /** The targets as they were when the contracts were staged. */
  predicate Staged(t: Targets, contracts: seq<Contract>) {
    forall c :: c in contracts ==> At(t, c.canonical) == c.before
  }

  /** Isolated files stay as they were; a new one is a copy of the target that an output of its id
      starts from. */
  predicate Seeded(t: Targets, before: map<Id, Content>, contracts: seq<Contract>, after: map<Id, Content>) {
    && (forall i :: i in before ==> i in after && after[i] == before[i])
    && (forall i :: i in after && i !in before ==> SeededFrom(t, contracts, i, after[i]))
  }

  predicate SeededFrom(t: Targets, contracts: seq<Contract>, id: Id, content: Content) {
    exists c :: c in contracts && c.id == id && c.seeded && At(t, c.canonical) == Some(content)
  }

  predicate Unpromoted(t: Targets, o: Output, run: Run) {
    var contract := ContractOf(run.contracts, o.id);
    contract.Some? && At(t, o.canonical) == contract.value.before
  }

  lemma OnlyContract(contracts: seq<Contract>, i: nat)
    requires DistinctIds(contracts) && i < |contracts|
    ensures ContractOf(contracts, contracts[i].id) == Some(contracts[i])
  {
    var c := ContractOf(contracts, contracts[i].id);
    assert contracts[i] in contracts;
    var j :| 0 <= j < |contracts| && contracts[j] == c.value;
  }

  lemma {:induction false} SealIsFaithful(run: Run, accepts: Validator, n: nat, outputs: seq<Output>)
    requires DistinctIds(run.contracts) && n <= |run.contracts|
    requires SealFirst(run.contracts, run.isolated, accepts, n) == Success(outputs)
    ensures SealedFrom(run, outputs)
  {
    if n > 0 {
      var front := SealFirst(run.contracts, run.isolated, accepts, n - 1).value;
      SealIsFaithful(run, accepts, n - 1, front);
      OnlyContract(run.contracts, n - 1);
      forall k | 0 <= k < |outputs|
        ensures SealedOne(run, outputs[k])
      {
        if k < |front| {
          assert outputs[k] == front[k];
        }
      }
    }
  }

  // ----- A seal drops nothing -----

  /** A contract whose isolated file is there and is not what its target held. */
  predicate Contributes(c: Contract, isolated: map<Id, Content>) {
    c.id in isolated && c.before != Some(isolated[c.id])
  }

  /** No file is missing that has to be there, unacceptable, or unchanged although it must change. */
  predicate Sealable(c: Contract, isolated: map<Id, Content>, accepts: Validator) {
    && (c.id !in isolated ==> !c.required)
    && (c.id in isolated ==> accepts(c, isolated[c.id]))
    && (c.id in isolated && c.mustChange ==> Contributes(c, isolated))
  }

  /** The outputs are the files of the first n contracts at these positions, which are in order and
      are all that contribute. */
  predicate IsSelection(contracts: seq<Contract>, n: nat, isolated: map<Id, Content>, outputs: seq<Output>,
                        from: seq<nat>)
    requires n <= |contracts|
  {
    && |from| == |outputs| && (forall i, j :: 0 <= i < j < |from| ==> from[i] < from[j])
    && (forall k :: 0 <= k < |from| ==> from[k] < n)
    && (forall k {:trigger outputs[k]} :: 0 <= k < |from| ==> IsOutputOf(contracts[from[k]], isolated, outputs[k]))
    && (forall i {:trigger Picked(from, i)} :: 0 <= i < n && Contributes(contracts[i], isolated) ==> Picked(from, i))
  }

  predicate Picked(from: seq<nat>, i: nat) {
    exists k :: 0 <= k < |from| && from[k] == i
  }

  predicate IsOutputOf(c: Contract, isolated: map<Id, Content>, o: Output) {
    Contributes(c, isolated) && o.id == c.id && o.canonical == c.canonical && o.digest == isolated[c.id]
  }

  ghost predicate IsSealOf(contracts: seq<Contract>, isolated: map<Id, Content>, outputs: seq<Output>) {
    exists from: seq<nat> :: IsSelection(contracts, |contracts|, isolated, outputs, from)
  }

  lemma SelectionGrows(contracts: seq<Contract>, isolated: map<Id, Content>, outputs: seq<Output>, from: seq<nat>,
                       n: nat)
    requires n < |contracts| && IsSelection(contracts, n, isolated, outputs, from)
    ensures !Contributes(contracts[n], isolated) ==> IsSelection(contracts, n + 1, isolated, outputs, from)
    ensures Contributes(contracts[n], isolated) ==>
              var c := contracts[n];
              IsSelection(contracts, n + 1, isolated, outputs + [Output(c.id, c.canonical, isolated[c.id])], from + [n])
  {
    if Contributes(contracts[n], isolated) {
      var longer := from + [n];
      assert longer[|from|] == n;
      forall i | 0 <= i < n && Contributes(contracts[i], isolated)
        ensures Picked(longer, i)
      {
        assert Picked(from, i);
        var k :| 0 <= k < |from| && from[k] == i;
        assert longer[k] == i;
      }
    }
  }

  lemma SelectionShrinks(contracts: seq<Contract>, isolated: map<Id, Content>, outputs: seq<Output>, from: seq<nat>,
                         n: nat)
    requires n < |contracts| && IsSelection(contracts, n + 1, isolated, outputs, from)
    ensures !Contributes(contracts[n], isolated) ==> IsSelection(contracts, n, isolated, outputs, from)
    ensures Contributes(contracts[n], isolated) ==>
              && from != [] && IsOutputOf(contracts[n], isolated, outputs[|outputs| - 1])
              && IsSelection(contracts, n, isolated, outputs[..|outputs| - 1], from[..|from| - 1])
  {
    if Contributes(contracts[n], isolated) {
      assert Picked(from, n);
      var k :| 0 <= k < |from| && from[k] == n;
      assert from[|from| - 1] == n;
      assert IsOutputOf(contracts[n], isolated, outputs[|outputs| - 1]);
      forall i | 0 <= i < n && Contributes(contracts[i], isolated)
        ensures Picked(from[..|from| - 1], i)
      {
        assert Picked(from, i);
        var j :| 0 <= j < |from| && from[j] == i;
        assert from[..|from| - 1][j] == i;
      }
    } else {
      forall k | 0 <= k < |from|
        ensures from[k] < n
      {
        assert outputs[k].id == contracts[from[k]].id;
      }
      forall i | 0 <= i < n && Contributes(contracts[i], isolated)
        ensures Picked(from, i)
      {
      }
    }
  }

  lemma {:induction false} SealIsSelection(contracts: seq<Contract>, isolated: map<Id, Content>, accepts: Validator,
                                           n: nat, outputs: seq<Output>)
    returns (from: seq<nat>)
    requires n <= |contracts| && SealFirst(contracts, isolated, accepts, n) == Success(outputs)
    ensures forall i :: 0 <= i < n ==> Sealable(contracts[i], isolated, accepts)
    ensures IsSelection(contracts, n, isolated, outputs, from)
  {
    from := [];
    if n > 0 {
      var front := SealFirst(contracts, isolated, accepts, n - 1).value;
      from := SealIsSelection(contracts, isolated, accepts, n - 1, front);
      SelectionGrows(contracts, isolated, front, from, n - 1);
      if Contributes(contracts[n - 1], isolated) {
        from := from + [n - 1];
      } else {
        assert front + [] == front;
      }
    }
  }

  lemma {:induction false} SelectionIsSeal(contracts: seq<Contract>, isolated: map<Id, Content>, accepts: Validator,
                                           n: nat, outputs: seq<Output>, from: seq<nat>)
    requires n <= |contracts| && IsSelection(contracts, n, isolated, outputs, from)
    requires forall i :: 0 <= i < n ==> Sealable(contracts[i], isolated, accepts)
    ensures SealFirst(contracts, isolated, accepts, n) == Success(outputs)
  {
    if n == 0 {
      assert from == [];
    } else {
      SelectionShrinks(contracts, isolated, outputs, from, n - 1);
      if Contributes(contracts[n - 1], isolated) {
        SelectionIsSeal(contracts, isolated, accepts, n - 1, outputs[..|outputs| - 1], from[..|from| - 1]);
        assert outputs == outputs[..|outputs| - 1] + [outputs[|outputs| - 1]];
      } else {
        SelectionIsSeal(contracts, isolated, accepts, n - 1, outputs, from);
        assert outputs + [] == outputs;
      }
    }
  }

  /** Sealing succeeds exactly when every contract is sealable, and yields exactly the changed files
      of the contracts, in their order. */
  lemma SealedExactly(contracts: seq<Contract>, isolated: map<Id, Content>, accepts: Validator, outputs: seq<Output>)
    ensures SealFirst(contracts, isolated, accepts, |contracts|) == Success(outputs) <==>
              && (forall c :: c in contracts ==> Sealable(c, isolated, accepts))
              && IsSealOf(contracts, isolated, outputs)
  {
    if SealFirst(contracts, isolated, accepts, |contracts|) == Success(outputs) {
      var from := SealIsSelection(contracts, isolated, accepts, |contracts|, outputs);
    }
    if IsSealOf(contracts, isolated, outputs) && forall c :: c in contracts ==> Sealable(c, isolated, accepts) {
      var from: seq<nat> :| IsSelection(contracts, |contracts|, isolated, outputs, from);
      SelectionIsSeal(contracts, isolated, accepts, |contracts|, outputs, from);
    }
  }

  /** A changed file is among the outputs of a seal, and nothing else is. */
  lemma SealHoldsExactly(contracts: seq<Contract>, isolated: map<Id, Content>, outputs: seq<Output>, o: Output)
    requires IsSealOf(contracts, isolated, outputs)
    ensures o in outputs <==>
              exists c :: c in contracts && c.id in isolated && c.before != Some(isolated[c.id])
                          && o == Output(c.id, c.canonical, isolated[c.id])
  {
    var from: seq<nat> :| IsSelection(contracts, |contracts|, isolated, outputs, from);
    if o in outputs {
      var k :| 0 <= k < |outputs| && outputs[k] == o;
      assert contracts[from[k]] in contracts;
    }
    if c :| c in contracts && Contributes(c, isolated) && o == Output(c.id, c.canonical, isolated[c.id]) {
      var i :| 0 <= i < |contracts| && contracts[i] == c;
      assert Picked(from, i);
      var k :| 0 <= k < |from| && from[k] == i;
      assert outputs[k] == o;
    }
  }

  // ----- What a promotion and a recovery accept -----

  /** An item is promoted exactly when it still is the file that was sealed and its target holds what
      its contract found there, or the item already; then the target holds the item, and no other
      target changes. */
  lemma ItemPromotedExactly(t: Targets, run: Run, o: Output, accepts: Validator)
    ensures var c := ContractOf(run.contracts, o.id); var result := PromoteItem(t, run, o, accepts);
            && (result.Success? <==>
                  && c.Some? && o.id in run.isolated && run.isolated[o.id] == o.digest && accepts(c.value, o.digest)
                  && (At(t, c.value.canonical) == c.value.before || At(t, c.value.canonical) == Some(o.digest)))
            && (result.Success? ==>
                  forall p {:trigger At(result.value, p)} ::
                    At(result.value, p) == if p == c.value.canonical then Some(o.digest) else At(t, p))
  {
  }

  predicate WritesTo(run: Run, o: Output, p: Path) {
    var c := ContractOf(run.contracts, o.id);
    c.Some? && c.value.canonical == p
  }

  lemma {:induction false} UntouchedSoFar(t: Targets, run: Run, outputs: seq<Output>, accepts: Validator, n: nat,
                                          u: Targets, p: Path)
    requires n <= |outputs| && PromoteFirst(t, run, outputs, accepts, n) == Success(u)
    requires forall k :: 0 <= k < n ==> !WritesTo(run, outputs[k], p)
    ensures At(u, p) == At(t, p)
  {
    if n > 0 {
      var v := PromoteFirst(t, run, outputs, accepts, n - 1).value;
      UntouchedSoFar(t, run, outputs, accepts, n - 1, v, p);
      ItemPromotedExactly(v, run, outputs[n - 1], accepts);
      assert At(u, p) == At(v, p);
    }
  }

  /** A target that somebody else changed stops the promotion at its item. */
  lemma {:induction false} ForeignTargetStops(t: Targets, run: Run, outputs: seq<Output>, accepts: Validator,
                                              k: nat, n: nat)
    requires k < n <= |outputs| && ContractOf(run.contracts, outputs[k].id).Some?
    requires var c := ContractOf(run.contracts, outputs[k].id).value;
             && At(t, c.canonical) != c.before && At(t, c.canonical) != Some(outputs[k].digest)
             && (forall j :: 0 <= j < k ==> !WritesTo(run, outputs[j], c.canonical))
    ensures PromoteFirst(t, run, outputs, accepts, n).Rejected?
  {
    if k < n - 1 {
      ForeignTargetStops(t, run, outputs, accepts, k, n - 1);
    } else if PromoteFirst(t, run, outputs, accepts, k).Success? {
      var u := PromoteFirst(t, run, outputs, accepts, k).value;
      UntouchedSoFar(t, run, outputs, accepts, k, u, ContractOf(run.contracts, outputs[k].id).value.canonical);
      ItemPromotedExactly(u, run, outputs[k], accepts);
    }
  }

  /** A stale item can be undone exactly when its contract found content there, the prior promotion
      wrote that content to the same target, and the target holds one of the two. */
  lemma RestorePlannedExactly(t: Targets, stale: Run, prior: Run, priors: seq<Output>, o: Output)
    requires SealedFrom(prior, priors)
    ensures var c := ContractOf(stale.contracts, o.id); var result := PlanItem(t, stale, prior, priors, o);
            && (result.Success? <==>
                  && c.Some? && c.value.before.Some?
                  && (exists j :: 0 <= j < |priors| && priors[j].canonical == o.canonical
                                  && Some(priors[j].digest) == c.value.before)
                  && (At(t, o.canonical) == Some(o.digest) || At(t, o.canonical) == c.value.before))
            && (result.Success? ==>
                  && result.value.target == o.canonical && result.value.stale == o.digest
                  && Some(result.value.restored) == c.value.before)
  {
    var c := ContractOf(stale.contracts, o.id);
    if c.Some? && c.value.before.Some? {
      var source := OutputOf(priors, o.canonical, c.value.before.value);
      if source.Some? {
        var j :| 0 <= j < |priors| && priors[j] == source.value;
        assert SealedOne(prior, priors[j]);
      }
    }
  }

  // ----- Promotion leaves each target old or new -----

  predicate Agree(outputs: seq<Output>, n: nat) {
    forall i, j :: 0 <= i < j < n <= |outputs| && outputs[i].canonical == outputs[j].canonical ==>
      outputs[i].digest == outputs[j].digest
  }

  /** Targets outside the outputs are as before, the others are as before or hold their output. */
  ghost predicate Between(t0: Targets, outputs: seq<Output>, u: Targets) {
    forall p {:trigger At(u, p)} :: At(u, p) == At(t0, p) || Held(outputs, p, At(u, p))
  }

  predicate Held(outputs: seq<Output>, p: Path, value: Option<Content>) {
    exists k :: 0 <= k < |outputs| && outputs[k].canonical == p && value == Some(outputs[k].digest)
  }

  predicate AllHold(outputs: seq<Output>, n: nat, u: Targets) {
    forall k :: 0 <= k < n <= |outputs| ==> At(u, outputs[k].canonical) == Some(outputs[k].digest)
  }

  /** What a promotion did that started between the staged and the promoted targets: the items so
      far are in place, so outputs of one path must agree. */
  lemma {:induction false} PromotedSoFar(t0: Targets, run: Run, outputs: seq<Output>, accepts: Validator,
                                         start: Targets, n: nat, u: Targets)
    requires SealedFrom(run, outputs) && Staged(t0, run.contracts) && n <= |outputs|
    requires Between(t0, outputs, start)
    requires PromoteFirst(start, run, outputs, accepts, n) == Success(u)
    ensures Between(t0, outputs, u) && AllHold(outputs, n, u) && Agree(outputs, n)
  {
    if n > 0 {
      var v := PromoteFirst(start, run, outputs, accepts, n - 1).value;
      PromotedSoFar(t0, run, outputs, accepts, start, n - 1, v);
      PromotedOneMore(t0, run, outputs, accepts, n, v, u);
    }
  }

  lemma PromotedOneMore(t0: Targets, run: Run, outputs: seq<Output>, accepts: Validator, n: nat,
                        v: Targets, u: Targets)
    requires SealedFrom(run, outputs) && Staged(t0, run.contracts) && 0 < n <= |outputs|
    requires Between(t0, outputs, v) && AllHold(outputs, n - 1, v) && Agree(outputs, n - 1)
    requires PromoteItem(v, run, outputs[n - 1], accepts) == Success(u)
    ensures Between(t0, outputs, u) && AllHold(outputs, n, u) && Agree(outputs, n)
  {
    var o := outputs[n - 1];
    assert SealedOne(run, o);
    assert At(u, o.canonical) == Some(o.digest);
    forall i | 0 <= i < n - 1 && outputs[i].canonical == o.canonical
      ensures outputs[i].digest == o.digest
    {
      assert SealedOne(run, outputs[i]);
      assert At(v, o.canonical) == Some(outputs[i].digest);
      assert At(t0, o.canonical) == ContractOf(run.contracts, outputs[i].id).value.before;
    }
    forall p
      ensures At(u, p) == At(t0, p) || Held(outputs, p, At(u, p))
    {
      if p != o.canonical {
        assert At(u, p) == At(v, p);
      } else {
        assert Held(outputs, p, Some(o.digest));
      }
    }
  }

  /** A target that is as before, or holds an output of its path, is accepted again. */
  lemma PromotesFromBetween(t0: Targets, run: Run, outputs: seq<Output>, accepts: Validator,
                            u: Targets, k: nat)
    requires SealedFrom(run, outputs) && Staged(t0, run.contracts)
    requires Agree(outputs, |outputs|) && Between(t0, outputs, u) && k < |outputs|
    requires ContractOf(run.contracts, outputs[k].id).Some?
    requires accepts(ContractOf(run.contracts, outputs[k].id).value, outputs[k].digest)
    ensures PromoteItem(u, run, outputs[k], accepts).Success?
    ensures Between(t0, outputs, PromoteItem(u, run, outputs[k], accepts).value)
  {
    var o := outputs[k];
    assert SealedOne(run, o);
    var u' := u[o.canonical := o.digest];
    if At(u, o.canonical) != At(t0, o.canonical) {
      assert Held(outputs, o.canonical, At(u, o.canonical));
      var j :| 0 <= j < |outputs| && outputs[j].canonical == o.canonical
               && At(u, o.canonical) == Some(outputs[j].digest);
      assert j == k || outputs[if j < k then j else k].digest == outputs[if j < k then k else j].digest;
    }
    forall p
      ensures At(u', p) == At(t0, p) || Held(outputs, p, At(u', p))
    {
      if p != o.canonical {
        assert At(u', p) == At(u, p);
      } else {
        assert Held(outputs, p, Some(o.digest));
      }
    }
  }

  /** Every output still is the valid file that was sealed. */
  predicate Accepted(run: Run, outputs: seq<Output>, accepts: Validator, n: nat) {
    forall k {:trigger ItemAccepted(run, outputs[k], accepts)} :: 0 <= k < n <= |outputs| ==>
      ItemAccepted(run, outputs[k], accepts)
  }

  predicate ItemAccepted(run: Run, o: Output, accepts: Validator) {
    var contract := ContractOf(run.contracts, o.id);
    contract.Some? && accepts(contract.value, o.digest)
  }

  lemma {:induction false} ItemsAccepted(t: Targets, run: Run, outputs: seq<Output>, accepts: Validator, n: nat)
    requires n <= |outputs| && PromoteFirst(t, run, outputs, accepts, n).Success?
    ensures Accepted(run, outputs, accepts, n)
  {
    if n > 0 {
      ItemsAccepted(t, run, outputs, accepts, n - 1);
      assert ItemAccepted(run, outputs[n - 1], accepts);
    }
  }

  lemma {:induction false} PromotesAgain(t0: Targets, run: Run, outputs: seq<Output>, accepts: Validator,
                                         u: Targets, n: nat)
    returns (v: Targets)
    requires SealedFrom(run, outputs) && Staged(t0, run.contracts) && n <= |outputs|
    requires Accepted(run, outputs, accepts, |outputs|)
    requires Agree(outputs, |outputs|) && Between(t0, outputs, u)
    ensures PromoteFirst(u, run, outputs, accepts, n) == Success(v)
    ensures Between(t0, outputs, v) && AllHold(outputs, n, v)
  {
    v := u;
    if n > 0 {
      var w := PromotesAgain(t0, run, outputs, accepts, u, n - 1);
      assert ItemAccepted(run, outputs[n - 1], accepts);
      PromotesOneMore(t0, run, outputs, accepts, w, n);
      v := PromoteItem(w, run, outputs[n - 1], accepts).value;
    }
  }

  lemma PromotesOneMore(t0: Targets, run: Run, outputs: seq<Output>, accepts: Validator, v: Targets, n: nat)
    requires SealedFrom(run, outputs) && Staged(t0, run.contracts) && 0 < n <= |outputs|
    requires Agree(outputs, |outputs|) && Between(t0, outputs, v) && AllHold(outputs, n - 1, v)
    requires ContractOf(run.contracts, outputs[n - 1].id).Some?
    requires accepts(ContractOf(run.contracts, outputs[n - 1].id).value, outputs[n - 1].digest)
    ensures PromoteItem(v, run, outputs[n - 1], accepts).Success?
    ensures var w := PromoteItem(v, run, outputs[n - 1], accepts).value;
            Between(t0, outputs, w) && AllHold(outputs, n, w)
  {
    PromotesFromBetween(t0, run, outputs, accepts, v, n - 1);
    var w := PromoteItem(v, run, outputs[n - 1], accepts).value;
    assert SealedOne(run, outputs[n - 1]);
    forall k | 0 <= k < n
      ensures At(w, outputs[k].canonical) == Some(outputs[k].digest)
    {
      if k < n - 1 && outputs[k].canonical == outputs[n - 1].canonical {
        assert outputs[k].digest == outputs[n - 1].digest;
      }
    }
  }

  lemma SameTargets(t: Targets, u: Targets)
    requires forall p {:trigger At(t, p)} :: At(t, p) == At(u, p)
    ensures t == u
  {
    forall p
      ensures p in t.Keys <==> p in u.Keys
      ensures p in t && p in u ==> t[p] == u[p]
    {
      assert At(t, p) == At(u, p);
    }
    assert t.Keys == u.Keys;
  }

  lemma FullyPromotedIsUnique(t0: Targets, outputs: seq<Output>, u: Targets, v: Targets)
    requires Between(t0, outputs, u) && AllHold(outputs, |outputs|, u)
    requires Between(t0, outputs, v) && AllHold(outputs, |outputs|, v)
    ensures u == v
  {
    forall p
      ensures At(u, p) == At(v, p)
    {
      if k :| 0 <= k < |outputs| && outputs[k].canonical == p {
        assert At(u, p) == Some(outputs[k].digest);
      } else {
        assert !Held(outputs, p, At(u, p)) && !Held(outputs, p, At(v, p));
      }
    }
    SameTargets(u, v);
  }

  lemma StagedIsBetween(t0: Targets, outputs: seq<Output>)
    ensures Between(t0, outputs, t0)
  {
  }

  /** A promotion of staged targets can run to its end exactly when its files are still valid and
      outputs of one path agree. */
  lemma PromotionAcceptedExactly(t0: Targets, run: Run, outputs: seq<Output>, accepts: Validator)
    requires SealedFrom(run, outputs) && Staged(t0, run.contracts)
    ensures PromoteFirst(t0, run, outputs, accepts, |outputs|).Success?
            <==> Accepted(run, outputs, accepts, |outputs|) && Agree(outputs, |outputs|)
  {
    StagedIsBetween(t0, outputs);
    if PromoteFirst(t0, run, outputs, accepts, |outputs|).Success? {
      ItemsAccepted(t0, run, outputs, accepts, |outputs|);
      PromotedSoFar(t0, run, outputs, accepts, t0, |outputs|,
                    PromoteFirst(t0, run, outputs, accepts, |outputs|).value);
    } else if Accepted(run, outputs, accepts, |outputs|) && Agree(outputs, |outputs|) {
      var v := PromotesAgain(t0, run, outputs, accepts, t0, |outputs|);
    }
  }

  /** The targets after promotions that were interrupted after the given numbers of items. */
  function PromoteRepeatedly(u: Targets, run: Run, outputs: seq<Output>, accepts: Validator, cuts: seq<nat>):
    Result<Targets>
    decreases |cuts|
  {
    if cuts == [] then Success(u)
    else
      var v :- PromoteFirst(u, run, outputs, accepts, if cuts[0] < |outputs| then cuts[0] else |outputs|);
      PromoteRepeatedly(v, run, outputs, accepts, cuts[1..])
  }

  lemma {:induction false} InterruptedIsBetween(t0: Targets, run: Run, outputs: seq<Output>, accepts: Validator,
                                                u: Targets, cuts: seq<nat>, w: Targets)
    requires SealedFrom(run, outputs) && Staged(t0, run.contracts) && Between(t0, outputs, u)
    requires PromoteRepeatedly(u, run, outputs, accepts, cuts) == Success(w)
    ensures Between(t0, outputs, w)
    decreases |cuts|
  {
    if cuts != [] {
      var n := if cuts[0] < |outputs| then cuts[0] else |outputs|;
      var v := PromoteFirst(u, run, outputs, accepts, n).value;
      PromotedSoFar(t0, run, outputs, accepts, u, n, v);
      InterruptedIsBetween(t0, run, outputs, accepts, v, cuts[1..], w);
    }
  }

  lemma {:induction false} InterruptedGoesOn(t0: Targets, run: Run, outputs: seq<Output>, accepts: Validator,
                                             u: Targets, cuts: seq<nat>)
    returns (w: Targets)
    requires SealedFrom(run, outputs) && Staged(t0, run.contracts) && Between(t0, outputs, u)
    requires Accepted(run, outputs, accepts, |outputs|) && Agree(outputs, |outputs|)
    ensures PromoteRepeatedly(u, run, outputs, accepts, cuts) == Success(w)
    ensures Between(t0, outputs, w)
    decreases |cuts|
  {
    w := u;
    if cuts != [] {
      var n := if cuts[0] < |outputs| then cuts[0] else |outputs|;
      var v := PromotesAgain(t0, run, outputs, accepts, u, n);
      w := InterruptedGoesOn(t0, run, outputs, accepts, v, cuts[1..]);
    }
  }

  /** A promotion that could run to its end can be interrupted any number of times, after any
      items: every repetition is accepted, and one that runs to its end leaves the same targets. */
  lemma PromotionResumes(t0: Targets, run: Run, outputs: seq<Output>, accepts: Validator, cuts: seq<nat>)
    requires SealedFrom(run, outputs) && Staged(t0, run.contracts)
    requires PromoteFirst(t0, run, outputs, accepts, |outputs|).Success?
    ensures PromoteRepeatedly(t0, run, outputs, accepts, cuts).Success?
    ensures PromoteFirst(PromoteRepeatedly(t0, run, outputs, accepts, cuts).value, run, outputs, accepts, |outputs|)
            == PromoteFirst(t0, run, outputs, accepts, |outputs|)
  {
    StagedIsBetween(t0, outputs);
    PromotionAcceptedExactly(t0, run, outputs, accepts);
    var w := InterruptedGoesOn(t0, run, outputs, accepts, t0, cuts);
    SameEnd(t0, run, outputs, accepts, w);
  }

  lemma SameEnd(t0: Targets, run: Run, outputs: seq<Output>, accepts: Validator, w: Targets)
    requires SealedFrom(run, outputs) && Staged(t0, run.contracts) && Between(t0, outputs, w)
    requires Accepted(run, outputs, accepts, |outputs|) && Agree(outputs, |outputs|)
    ensures PromoteFirst(w, run, outputs, accepts, |outputs|) == PromoteFirst(t0, run, outputs, accepts, |outputs|)
  {
    StagedIsBetween(t0, outputs);
    var u := PromotesAgain(t0, run, outputs, accepts, t0, |outputs|);
    var v := PromotesAgain(t0, run, outputs, accepts, w, |outputs|);
    FullyPromotedIsUnique(t0, outputs, u, v);
  }

  /** A promotion that ran to its end in spite of interruptions. */
  predicate PromotedAfter(t0: Targets, run: Run, outputs: seq<Output>, accepts: Validator,
                          crashes: seq<nat>, u: Targets)
  {
    var interrupted := PromoteRepeatedly(t0, run, outputs, accepts, crashes);
    interrupted.Success? && PromoteFirst(interrupted.value, run, outputs, accepts, |outputs|) == Success(u)
  }

  lemma PromotedAfterIsBetween(t0: Targets, run: Run, outputs: seq<Output>, accepts: Validator,
                               crashes: seq<nat>, u: Targets)
    requires SealedFrom(run, outputs) && Staged(t0, run.contracts)
    requires PromotedAfter(t0, run, outputs, accepts, crashes, u)
    ensures Between(t0, outputs, u) && AllHold(outputs, |outputs|, u) && Agree(outputs, |outputs|)
  {
    StagedIsBetween(t0, outputs);
    var w := PromoteRepeatedly(t0, run, outputs, accepts, crashes).value;
    InterruptedIsBetween(t0, run, outputs, accepts, t0, crashes, w);
    PromotedSoFar(t0, run, outputs, accepts, w, |outputs|, u);
  }

  /** Whatever ran to its end after interruptions would have done so without them, and as well. */
  lemma InterruptionsDoNotShow(t0: Targets, run: Run, outputs: seq<Output>, accepts: Validator,
                               crashes: seq<nat>, u: Targets)
    requires SealedFrom(run, outputs) && Staged(t0, run.contracts)
    requires PromotedAfter(t0, run, outputs, accepts, crashes, u)
    ensures PromoteFirst(t0, run, outputs, accepts, |outputs|) == Success(u)
  {
    PromotedAfterIsBetween(t0, run, outputs, accepts, crashes, u);
    var w := PromoteRepeatedly(t0, run, outputs, accepts, crashes).value;
    StagedIsBetween(t0, outputs);
    InterruptedIsBetween(t0, run, outputs, accepts, t0, crashes, w);
    ItemsAccepted(w, run, outputs, accepts, |outputs|);
    SameEnd(t0, run, outputs, accepts, w);
  }

  // ----- Recovery restores what was there before -----

  lemma PlanItemIgnoresProgress(t0: Targets, stale: Run, prior: Run, priors: seq<Output>,
                                outputs: seq<Output>, u: Targets, k: nat)
    requires SealedFrom(stale, outputs) && Staged(t0, stale.contracts) && Agree(outputs, |outputs|)
    requires Between(t0, outputs, u) && k < |outputs|
    ensures PlanItem(u, stale, prior, priors, outputs[k]) == PlanItem(t0, stale, prior, priors, outputs[k])
    ensures PlanItem(u, stale, prior, priors, outputs[k]).Success? ==>
              var r := PlanItem(u, stale, prior, priors, outputs[k]).value;
              r.target == outputs[k].canonical && Some(r.restored) == At(t0, r.target)
  {
    var o := outputs[k];
    assert SealedOne(stale, o);
    if At(u, o.canonical) != At(t0, o.canonical) {
      assert Held(outputs, o.canonical, At(u, o.canonical));
      var j :| 0 <= j < |outputs| && outputs[j].canonical == o.canonical
               && At(u, o.canonical) == Some(outputs[j].digest);
      assert j == k || outputs[if j < k then j else k].digest == outputs[if j < k then k else j].digest;
    }
  }

  lemma {:induction false} PlanIgnoresProgress(t0: Targets, stale: Run, prior: Run, priors: seq<Output>,
                                               outputs: seq<Output>, u: Targets, n: nat)
    requires SealedFrom(stale, outputs) && Staged(t0, stale.contracts) && Agree(outputs, |outputs|)
    requires Between(t0, outputs, u) && n <= |outputs|
    ensures Plan(u, stale, prior, priors, outputs, n) == Plan(t0, stale, prior, priors, outputs, n)
    ensures Plan(u, stale, prior, priors, outputs, n).Success? ==>
              IsPlan(t0, outputs, Plan(u, stale, prior, priors, outputs, n).value)
  {
    if n > 0 {
      PlanIgnoresProgress(t0, stale, prior, priors, outputs, u, n - 1);
      PlanItemIgnoresProgress(t0, stale, prior, priors, outputs, u, n - 1);
      if Plan(u, stale, prior, priors, outputs, n).Success? {
        LongerPlan(t0, outputs, Plan(u, stale, prior, priors, outputs, n - 1).value,
                   PlanItem(u, stale, prior, priors, outputs[n - 1]).value);
      }
    }
  }

  lemma LongerPlan(t0: Targets, outputs: seq<Output>, plan: seq<Restore>, r: Restore)
    requires IsPlan(t0, outputs, plan) && |plan| < |outputs|
    requires r.target == outputs[|plan|].canonical && Some(r.restored) == At(t0, r.target)
    ensures IsPlan(t0, outputs, plan + [r])
  {
  }

  predicate IsPlan(t0: Targets, outputs: seq<Output>, plan: seq<Restore>) {
    && |plan| <= |outputs|
    && (forall k :: 0 <= k < |plan| ==>
          plan[k].target == outputs[k].canonical && Some(plan[k].restored) == At(t0, plan[k].target))
  }

  lemma {:induction false} RestoredSoFar(t0: Targets, outputs: seq<Output>, u: Targets, plan: seq<Restore>, n: nat)
    requires Between(t0, outputs, u) && IsPlan(t0, outputs, plan) && n <= |plan|
    ensures Between(t0, outputs, RestoreFirst(u, plan, n))
    ensures forall k :: 0 <= k < n ==>
              At(RestoreFirst(u, plan, n), plan[k].target) == At(t0, plan[k].target)
  {
    if n > 0 {
      RestoredSoFar(t0, outputs, u, plan, n - 1);
      var v, w := RestoreFirst(u, plan, n - 1), RestoreFirst(u, plan, n);
      forall p
        ensures At(w, p) == At(t0, p) || (p != plan[n - 1].target && At(w, p) == At(v, p))
      {
      }
      forall p
        ensures At(w, p) == At(t0, p) || Held(outputs, p, At(w, p))
      {
        assert At(v, p) == At(t0, p) || Held(outputs, p, At(v, p));
      }
    }
  }

  lemma FullyRestored(t0: Targets, outputs: seq<Output>, u: Targets, plan: seq<Restore>)
    requires Between(t0, outputs, u) && IsPlan(t0, outputs, plan) && |plan| == |outputs|
    ensures RestoreFirst(u, plan, |plan|) == t0
  {
    RestoredSoFar(t0, outputs, u, plan, |plan|);
    var w := RestoreFirst(u, plan, |plan|);
    forall p
      ensures At(w, p) == At(t0, p)
    {
      if Held(outputs, p, At(w, p)) {
        var k :| 0 <= k < |outputs| && outputs[k].canonical == p;
        assert plan[k].target == p;
      }
    }
    SameTargets(w, t0);
  }

  /** One recovery that plans from what it finds and stops after a number of writes. */
  function RecoverUntil(u: Targets, stale: Run, prior: Run, priors: seq<Output>, outputs: seq<Output>,
                        cut: nat): Targets
  {
    match Plan(u, stale, prior, priors, outputs, |outputs|)
    case Rejected => u
    case Success(plan) => RestoreFirst(u, plan, if cut < |plan| then cut else |plan|)
  }

  function RecoverRepeatedly(u: Targets, stale: Run, prior: Run, priors: seq<Output>, outputs: seq<Output>,
                             cuts: seq<nat>): Targets
    decreases |cuts|
  {
    if cuts == [] then u
    else RecoverRepeatedly(RecoverUntil(u, stale, prior, priors, outputs, cuts[0]),
                           stale, prior, priors, outputs, cuts[1..])
  }

  lemma {:induction false} RecoveryFromBetween(t0: Targets, stale: Run, prior: Run, priors: seq<Output>,
                                               outputs: seq<Output>, u: Targets, cuts: seq<nat>)
    requires SealedFrom(stale, outputs) && Staged(t0, stale.contracts) && Agree(outputs, |outputs|)
    requires Between(t0, outputs, u)
    requires Plan(u, stale, prior, priors, outputs, |outputs|).Success?
    ensures var w := RecoverRepeatedly(u, stale, prior, priors, outputs, cuts);
            && Plan(w, stale, prior, priors, outputs, |outputs|).Success?
            && RecoverUntil(w, stale, prior, priors, outputs, |outputs|) == t0
    decreases |cuts|
  {
    PlanIgnoresProgress(t0, stale, prior, priors, outputs, u, |outputs|);
    var plan := Plan(u, stale, prior, priors, outputs, |outputs|).value;
    if cuts == [] {
      FullyRestored(t0, outputs, u, plan);
    } else {
      var v := RecoverUntil(u, stale, prior, priors, outputs, cuts[0]);
      RestoredSoFar(t0, outputs, u, plan, if cuts[0] < |plan| then cuts[0] else |plan|);
      PlanIgnoresProgress(t0, stale, prior, priors, outputs, v, |outputs|);
      RecoveryFromBetween(t0, stale, prior, priors, outputs, v, cuts[1..]);
    }
  }

  /** Promotion and recovery undo each other: once a stale promotion ran to its end, through any
      interruptions, a recovery that is accepted brings back exactly the targets of the staging,
      through any interruptions of its own. */
  lemma RecoveryUndoesPromotion(t0: Targets, stale: Run, prior: Run, priors: seq<Output>, outputs: seq<Output>,
                                accepts: Validator, crashes: seq<nat>, u: Targets, cuts: seq<nat>)
    requires SealedFrom(stale, outputs) && Staged(t0, stale.contracts)
    requires PromotedAfter(t0, stale, outputs, accepts, crashes, u)
    requires Plan(u, stale, prior, priors, outputs, |outputs|).Success?
    ensures var w := RecoverRepeatedly(u, stale, prior, priors, outputs, cuts);
            && Plan(w, stale, prior, priors, outputs, |outputs|).Success?
            && RecoverUntil(w, stale, prior, priors, outputs, |outputs|) == t0
  {
    PromotedAfterIsBetween(t0, stale, outputs, accepts, crashes, u);
    RecoveryFromBetween(t0, stale, prior, priors, outputs, u, cuts);
  }

  predicate Covered(priors: seq<Output>, p: Path) {
    exists j :: 0 <= j < |priors| && priors[j].canonical == p
  }

  lemma PlanItemExactly(t0: Targets, stale: Run, prior: Run, priors: seq<Output>, o: Output)
    requires SealedOne(stale, o) && Staged(t0, stale.contracts)
    requires SealedFrom(prior, priors) && AllHold(priors, |priors|, t0)
    ensures PlanItem(t0, stale, prior, priors, o).Success? <==> Covered(priors, o.canonical)
  {
    var c := ContractOf(stale.contracts, o.id).value;
    assert c.before == At(t0, o.canonical);
    if Covered(priors, o.canonical) {
      var j :| 0 <= j < |priors| && priors[j].canonical == o.canonical;
      assert At(t0, o.canonical) == Some(priors[j].digest);
      assert priors[j] in priors;
      var source := OutputOf(priors, o.canonical, priors[j].digest).value;
      var i :| 0 <= i < |priors| && priors[i] == source;
      assert SealedOne(prior, priors[i]);
    }
  }

  lemma {:induction false} PlanExactly(t0: Targets, stale: Run, prior: Run, priors: seq<Output>,
                                       outputs: seq<Output>, n: nat)
    requires SealedFrom(stale, outputs) && Staged(t0, stale.contracts) && n <= |outputs|
    requires SealedFrom(prior, priors) && AllHold(priors, |priors|, t0)
    ensures Plan(t0, stale, prior, priors, outputs, n).Success?
            <==> forall k :: 0 <= k < n ==> Covered(priors, outputs[k].canonical)
  {
    if n > 0 {
      PlanExactly(t0, stale, prior, priors, outputs, n - 1);
      PlanItemExactly(t0, stale, prior, priors, outputs[n - 1]);
    }
  }

  /** A recovery after the stale promotion is accepted exactly when the prior promotion, still in
      place when the stale one was staged, wrote every stale target. */
  lemma RecoveryAcceptedExactly(t0: Targets, stale: Run, prior: Run, priors: seq<Output>,
                                outputs: seq<Output>, accepts: Validator, crashes: seq<nat>, u: Targets)
    requires SealedFrom(stale, outputs) && Staged(t0, stale.contracts)
    requires SealedFrom(prior, priors) && AllHold(priors, |priors|, t0)
    requires PromotedAfter(t0, stale, outputs, accepts, crashes, u)
    ensures Plan(u, stale, prior, priors, outputs, |outputs|).Success?
            <==> forall k :: 0 <= k < |outputs| ==> Covered(priors, outputs[k].canonical)
  {
    PromotedAfterIsBetween(t0, stale, outputs, accepts, crashes, u);
    PlanIgnoresProgress(t0, stale, prior, priors, outputs, u, |outputs|);
    PlanExactly(t0, stale, prior, priors, outputs, |outputs|);
  }

  /** A target that holds neither its stale nor its restored content stops the recovery. */
  lemma {:induction false} UnknownValueRefused(t: Targets, stale: Run, prior: Run, priors: seq<Output>,
                                               outputs: seq<Output>, n: nat, k: nat)
    requires k < n <= |outputs|
    requires At(t, outputs[k].canonical) != Some(outputs[k].digest)
    requires !Unpromoted(t, outputs[k], stale)
    ensures Plan(t, stale, prior, priors, outputs, n).Rejected?
  {
    if k < n - 1 {
      UnknownValueRefused(t, stale, prior, priors, outputs, n - 1, k);
    }
  }

  // ----- The broker -----

  method MayDie() returns (dies: bool)
  {
    dies := *;
  }

  class AgentOutputBroker {
    const accepts: Validator
    var targets: Targets
    var runs: map<Id, Run>

    constructor (accepts: Validator, targets: Targets)
      ensures this.accepts == accepts && this.targets == targets && runs == map[]
    {
      this.accepts, this.targets, this.runs := accepts, targets, map[];
    }

    /** The contracts are written once.  Delivery needs every target as its contract found it, and
        copies the targets that an output starts from. */
    method Stage(a: Id, contracts: seq<Contract>) returns (result: Outcome<()>)
      modifies this`runs
      ensures forall b :: b in old(runs) && b != a ==> b in runs && runs[b] == old(runs)[b]
      ensures a in old(runs) && old(runs)[a].contracts != contracts ==> result.Raised? && runs == old(runs)
      ensures result.Done? ==> a in runs && runs[a].contracts == contracts && Staged(targets, contracts)
      ensures result.Done? ==> forall c :: c in contracts && c.seeded ==> c.id in runs[a].isolated
      ensures !result.Died?
      ensures result.Raised? ==>
                || (a in old(runs) && old(runs)[a].contracts != contracts)
                || (exists c :: c in contracts && (At(targets, c.canonical) != c.before
                                                   || (c.seeded && c.canonical !in targets)))
      ensures a in runs ==> Seeded(targets, if a in old(runs) then old(runs)[a].isolated else map[],
                                   contracts, runs[a].isolated)
      ensures a in old(runs) ==>
                a in runs && runs[a] == old(runs)[a].(isolated := runs[a].isolated)
      ensures a !in old(runs) && a in runs ==> runs[a] == Run(contracts, runs[a].isolated, None, None, None)
    {
      if a in runs && runs[a].contracts != contracts {
        return Raised;
      }
      if a !in runs {
        runs := runs[a := Run(contracts, map[], None, None, None)];
      }
      for k := 0 to |contracts|
        invariant a in runs && runs[a].contracts == contracts
        invariant forall b :: b in old(runs) && b != a ==> b in runs && runs[b] == old(runs)[b]
        invariant Staged(targets, contracts[..k])
        invariant forall c :: c in contracts[..k] && c.seeded ==> c.id in runs[a].isolated
        invariant Seeded(targets, if a in old(runs) then old(runs)[a].isolated else map[], contracts, runs[a].isolated)
        invariant a in old(runs) ==> runs[a] == old(runs)[a].(isolated := runs[a].isolated)
        invariant a !in old(runs) ==> runs[a] == Run(contracts, runs[a].isolated, None, None, None)
      {
        assert contracts[..k + 1] == contracts[..k] + [contracts[k]];
        var c := contracts[k];
        assert c in contracts;
        if At(targets, c.canonical) != c.before {
          return Raised;
        }
        if c.seeded && c.id !in runs[a].isolated {
          if c.canonical !in targets {
            return Raised;
          }
          runs := runs[a := runs[a].(isolated := runs[a].isolated[c.id := targets[c.canonical]])];
        }
      }
      assert contracts[..|contracts|] == contracts;
      return Done(());
    }

    method SealOutputs(a: Id) returns (result: Outcome<seq<Output>>)
      modifies this`runs
      ensures a !in old(runs) ==> result.Raised?
      ensures a in old(runs) ==>
                var run := old(runs)[a];
                && (result.Done? <==>
                      && (forall c :: c in run.contracts ==> Sealable(c, run.isolated, accepts))
                      && (run.sealed.Some? ==> IsSealOf(run.contracts, run.isolated, run.sealed.value)))
                && (result.Done? ==>
                      && IsSealOf(run.contracts, run.isolated, result.value)
                      && SealFirst(run.contracts, run.isolated, accepts, |run.contracts|) == Success(result.value)
                      && runs == old(runs)[a := run.(sealed := Some(result.value))])
      ensures !result.Died?
      ensures !result.Done? ==> runs == old(runs)
    {
      if a !in runs {
        return Raised;
      }
      var run := runs[a];
      var outputs: seq<Output> := [];
      for k := 0 to |run.contracts|
        invariant SealFirst(run.contracts, run.isolated, accepts, k) == Success(outputs)
      {
        var c := run.contracts[k];
        assert c in run.contracts;
        if c.id !in run.isolated {
          if c.required {
            return Raised;
          }
          assert outputs + [] == outputs;
          continue;
        }
        var payload := run.isolated[c.id];
        if !accepts(c, payload) || (c.mustChange && c.before == Some(payload)) {
          return Raised;
        }
        assert outputs + [] == outputs;
        if c.before != Some(payload) {
          outputs := outputs + [Output(c.id, c.canonical, payload)];
        }
      }
      SealedExactly(run.contracts, run.isolated, accepts, outputs);
      if run.sealed.Some? {
        SealedExactly(run.contracts, run.isolated, accepts, run.sealed.value);
        if run.sealed.value != outputs {
          return Raised;
        }
        assert runs == runs[a := run.(sealed := Some(outputs))];
        return Done(outputs);
      }
      runs := runs[a := run.(sealed := Some(outputs))];
      return Done(outputs);
    }

    /** Items are checked and written one by one: a refused item leaves the earlier ones written. */
    method Promote(a: Id) returns (result: Outcome<seq<Output>>)
      modifies this`targets, this`runs
      ensures a !in old(runs) || old(runs)[a].sealed.None? ==>
                result.Raised? && targets == old(targets) && runs == old(runs)
      ensures a in old(runs) && old(runs)[a].sealed.Some? ==>
                var run := old(runs)[a];
                var outputs := run.sealed.value;
                && (!Unique(outputs) ==> result.Raised? && targets == old(targets))
                && (run.promoted.Some? ==>
                      && targets == old(targets) && runs == old(runs) && !result.Died?
                      && (result.Done? <==>
                            run.promoted == run.sealed && Unique(outputs) && AllAtContracts(run, outputs)))
                && (result.Done? ==> result.value == outputs)
                && (exists n: nat ::
                      n <= |outputs| && PromoteFirst(old(targets), run, outputs, accepts, n) == Success(targets))
                && (result.Done? && run.promoted.None? ==>
                      && PromoteFirst(old(targets), run, outputs, accepts, |outputs|) == Success(targets)
                      && runs == old(runs)[a := run.(promoted := run.sealed)])
                && (PromoteFirst(old(targets), run, outputs, accepts, |outputs|).Success?
                    && run.promoted.None? && Unique(outputs)
                    ==> !result.Raised?)
    {
      if a !in runs || runs[a].sealed.None? {
        return Raised;
      }
      var run := runs[a];
      var outputs := run.sealed.value;
      assert PromoteFirst(targets, run, outputs, accepts, 0) == Success(targets);
      if !Unique(outputs) {
        return Raised;
      }
      if run.promoted.Some? {
        var same := ValidateReceipt(run, outputs);
        return if same then Done(outputs) else Raised;
      }
      for k := 0 to |outputs|
        invariant runs == old(runs)
        invariant PromoteFirst(old(targets), run, outputs, accepts, k) == Success(targets)
      {
        var o := outputs[k];
        var dies := MayDie();
        if dies {
          return Died;
        }
        if PromoteItem(targets, run, o, accepts).Rejected? {
          PromoteStops(old(targets), run, outputs, accepts, k, |outputs|);
        }
        var contract := ContractOf(run.contracts, o.id);
        if contract.None? || o.id !in run.isolated || run.isolated[o.id] != o.digest
           || !accepts(contract.value, o.digest)
        {
          return Raised;
        }
        var target := contract.value.canonical;
        var current := At(targets, target);
        if current != contract.value.before && current != Some(o.digest) {
          return Raised;
        }
        if current != Some(o.digest) {
          targets := targets[target := o.digest];
        }
      }
      var dies := MayDie();
      if dies {
        return Died;
      }
      runs := runs[a := run.(promoted := Some(outputs))];
      return Done(outputs);
    }

    method ValidateReceipt(run: Run, outputs: seq<Output>) returns (ok: bool)
      requires run.promoted.Some?
      ensures ok ==> run.promoted.value == outputs && AllAtContracts(run, outputs)
      ensures !ok ==> run.promoted.value != outputs || !AllAtContracts(run, outputs)
    {
      if run.promoted.value != outputs {
        return false;
      }
      for k := 0 to |outputs|
        invariant forall j :: 0 <= j < k ==> AtContract(run, outputs[j])
      {
        var contract := ContractOf(run.contracts, outputs[k].id);
        if contract.None? || At(targets, contract.value.canonical) != Some(outputs[k].digest) {
          assert !AtContract(run, outputs[k]);
          return false;
        }
      }
      return true;
    }

    predicate AtContract(run: Run, o: Output)
      reads this
    {
      var contract := ContractOf(run.contracts, o.id);
      contract.Some? && At(targets, contract.value.canonical) == Some(o.digest)
    }

    predicate AllAtContracts(run: Run, outputs: seq<Output>)
      reads this
    {
      forall k :: 0 <= k < |outputs| ==> AtContract(run, outputs[k])
    }

    /** The receipts that prove that both promotions ran to their end. */
    predicate Evidence(a: Id)
      reads this
    {
      a in runs && runs[a].sealed.Some? && runs[a].sealed.value != [] && runs[a].promoted == runs[a].sealed
    }

    /** Everything is checked before the first write: a recovery that is refused writes nothing. */
    method RecoverObsolete(staleId: Id, priorId: Id) returns (result: Outcome<seq<Restore>>)
      modifies this`targets, this`runs
      ensures !old(Evidence(staleId)) || !old(Evidence(priorId)) || staleId == priorId ==>
                result.Raised? && targets == old(targets) && runs == old(runs)
      ensures result.Done? ==>
                && staleId != priorId && staleId in old(runs) && priorId in old(runs)
                && Promoted(old(runs)[staleId]) && Promoted(old(runs)[priorId])
      ensures old(Evidence(staleId)) && old(Evidence(priorId)) && staleId != priorId
              && old(runs)[staleId].recovered.Some? ==>
                var receipt := old(runs)[staleId].recovered.value;
                && targets == old(targets) && runs == old(runs) && !result.Died?
                && (result.Done? <==> receipt.0 == priorId && receipt.1 != [] && AllRestored(targets, receipt.1))
                && (result.Done? ==> result.value == receipt.1)
      ensures old(Evidence(staleId)) && old(Evidence(priorId)) && staleId != priorId
              && old(runs)[staleId].recovered.None? ==>
                var stale, prior := old(runs)[staleId], old(runs)[priorId];
                var plan := Plan(old(targets), stale, prior, prior.sealed.value, stale.sealed.value,
                                 |stale.sealed.value|);
                && (plan.Rejected? ==> result.Raised? && targets == old(targets) && runs == old(runs))
                && (plan.Success? ==>
                      && !result.Raised?
                      && (exists n: nat :: n <= |plan.value| && targets == RestoreFirst(old(targets), plan.value, n))
                      && (result.Done? ==>
                            && result.value == plan.value
                            && targets == RestoreFirst(old(targets), plan.value, |plan.value|)
                            && runs == old(runs)[staleId := stale.(recovered := Some((priorId, plan.value)))]))
    {
      if !Evidence(staleId) || !Evidence(priorId) || staleId == priorId {
        return Raised;
      }
      var stale, prior := runs[staleId], runs[priorId];
      if stale.recovered.Some? {
        var receipt := stale.recovered.value;
        var same := ValidateRecoveryReceipt(receipt, priorId);
        return if same then Done(receipt.1) else Raised;
      }
      var outputs := stale.sealed.value;
      var priors := prior.sealed.value;
      var staged: seq<Restore> := [];
      for k := 0 to |outputs|
        invariant Plan(targets, stale, prior, priors, outputs, k) == Success(staged)
      {
        var item := PlanItem(targets, stale, prior, priors, outputs[k]);
        if item.Rejected? {
          PlanStops(targets, stale, prior, priors, outputs, k, |outputs|);
          return Raised;
        }
        staged := staged + [item.value];
      }
      for k := 0 to |staged|
        invariant runs == old(runs)
        invariant targets == RestoreFirst(old(targets), staged, k)
      {
        var dies := MayDie();
        if dies {
          return Died;
        }
        var item := staged[k];
        if At(targets, item.target) != Some(item.restored) {
          targets := targets[item.target := item.restored];
        } else {
          assert targets == targets[item.target := item.restored];
        }
      }
      var dies := MayDie();
      if dies {
        return Died;
      }
      runs := runs[staleId := stale.(recovered := Some((priorId, staged)))];
      return Done(staged);
    }

    method ValidateRecoveryReceipt(receipt: (Id, seq<Restore>), priorId: Id) returns (ok: bool)
      ensures ok <==>
                receipt.0 == priorId && receipt.1 != [] && AllRestored(targets, receipt.1)
    {
      if receipt.0 != priorId || receipt.1 == [] {
        return false;
      }
      for k := 0 to |receipt.1|
        invariant forall j :: 0 <= j < k ==> At(targets, receipt.1[j].target) == Some(receipt.1[j].restored)
      {
        if At(targets, receipt.1[k].target) != Some(receipt.1[k].restored) {
          return false;
        }
      }
      return true;
    }
  }

  /** The run was sealed with something in it, and all of it was promoted. */
  predicate Promoted(run: Run) {
    run.sealed.Some? && run.promoted == run.sealed && |run.sealed.value| > 0
  }

  predicate AllRestored(t: Targets, items: seq<Restore>) {
    forall k :: 0 <= k < |items| ==> At(t, items[k].target) == Some(items[k].restored)
  }

  predicate Unique(outputs: seq<Output>) {
    forall i, j :: 0 <= i < j < |outputs| ==> outputs[i].id != outputs[j].id
  }

  lemma {:induction false} PromoteStops(t: Targets, run: Run, outputs: seq<Output>, accepts: Validator,
                                        k: nat, n: nat)
    requires k < n <= |outputs| && PromoteFirst(t, run, outputs, accepts, k).Success?
    requires PromoteItem(PromoteFirst(t, run, outputs, accepts, k).value, run, outputs[k], accepts).Rejected?
    ensures PromoteFirst(t, run, outputs, accepts, n).Rejected?
  {
    if k < n - 1 {
      PromoteStops(t, run, outputs, accepts, k, n - 1);
    }
  }

  lemma {:induction false} PlanStops(t: Targets, stale: Run, prior: Run, priors: seq<Output>,
                                     outputs: seq<Output>, k: nat, n: nat)
    requires k < n <= |outputs| && PlanItem(t, stale, prior, priors, outputs[k]).Rejected?
    ensures Plan(t, stale, prior, priors, outputs, n).Rejected?
  {
    if k < n - 1 {
      PlanStops(t, stale, prior, priors, outputs, k, n - 1);
    }
  }
}

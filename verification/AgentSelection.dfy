/** How a managed agent is chosen for a queued action, and why the choice is a fair round robin. */
module AgentSelection {
  import opened Wrappers
  import opened Collections

  type Id = int

  /** A capability value.  Values other than flags and null are separate objects once they are
      decoded, so an identity comparison never holds between them. */
  datatype Value = Null | Flag(on: bool) | Other(text: Id)

  datatype Registration = Registration(id: Id, ready: bool, leaseExpires: int, driver: Id,
                                       capabilities: map<Id, Value>)

  datatype Pool = Pool(enabled: bool, sourcePresent: bool, roles: set<Id>, drivers: seq<Id>,
                       required: map<Id, Value>, priority: int)

  datatype Binding = Binding(enabled: bool, priority: int)

  /** What a selection reads besides the registrations: the pool of the action, the bindings of its
      operator and role, and the agent it is tied to, if any. */
  datatype Request = Request(pool: Option<Pool>, role: Id, bindings: map<Id, Binding>,
                             preferred: Option<Id>)

  /** The ordering key, compared component by component. */
  datatype Key = Key(priority: int, used: bool, last: int, id: Id)

  predicate Less(k: Key, m: Key) {
    if k.priority != m.priority then k.priority < m.priority
    else if k.used != m.used then m.used
    else if k.last != m.last then k.last < m.last
    else k.id < m.id
  }

  function Capability(r: Registration, c: Id): Value {
    if c in r.capabilities then r.capabilities[c] else Null
  }

  predicate PoolServes(q: Request) {
    && q.pool.Some? && q.pool.value.enabled && q.pool.value.sourcePresent
    && q.role in q.pool.value.roles
  }

  predicate Explicit(q: Request, a: Id) {
    a in q.bindings && q.bindings[a].enabled
  }

  predicate Eligible(q: Request, r: Registration, now: int) {
    && PoolServes(q)
    && r.ready && now < r.leaseExpires
    && r.driver in q.pool.value.drivers
    && (q.preferred.Some? ==> r.id == q.preferred.value)
    && (q.bindings != map[] ==> Explicit(q, r.id))
    && (forall c :: c in q.pool.value.required ==>
          Capability(r, c) == q.pool.value.required[c] && !q.pool.value.required[c].Other?)
  }

  function KeyOf(q: Request, r: Registration, selected: map<Id, int>): Key
    requires PoolServes(q)
  {
    Key(if Explicit(q, r.id) then q.bindings[r.id].priority else q.pool.value.priority,
        r.id in selected, if r.id in selected then selected[r.id] else 0, r.id)
  }

  predicate Distinct(rows: seq<Registration>) {
    forall i, j :: 0 <= i < j < |rows| ==> rows[i].id != rows[j].id
  }

  /** The agent is eligible and its key comes before the key of every other eligible agent. */
  predicate IsSelected(q: Request, rows: seq<Registration>, selected: map<Id, int>, now: int, r: Registration) {
    && r in rows && Eligible(q, r, now)
    && (forall s :: s in rows && Eligible(q, s, now) && s != r ==>
          Less(KeyOf(q, r, selected), KeyOf(q, s, selected)))
  }

  /** An agent can take the action if the pool serves its role, the agent is ready under a live lease
      and on a driver of the pool, nobody else is preferred, the bindings, if there are any, name and
      enable it, and it has every required capability, as a flag or as nothing. */
  lemma EligibleExactly(q: Request, r: Registration, now: int)
    ensures Eligible(q, r, now) <==>
              && q.pool.Some? && q.pool.value.enabled && q.pool.value.sourcePresent && q.role in q.pool.value.roles
              && r.ready && r.leaseExpires > now && r.driver in q.pool.value.drivers
              && (q.preferred == None || q.preferred == Some(r.id))
              && (|q.bindings| == 0 || (r.id in q.bindings && q.bindings[r.id].enabled))
              && (forall c :: c in q.pool.value.required ==>
                    match q.pool.value.required[c]
                    case Null => c in r.capabilities ==> r.capabilities[c] == Null
                    case Flag(on) => c in r.capabilities && r.capabilities[c] == Flag(on)
                    case Other(_) => false)
  {
    assert |q.bindings| == 0 <==> q.bindings == map[];
  }

  /** Of two agents the one of the smaller priority number comes first; then one that was never
      selected, the one selected longer ago, and the smaller id.  An enabled binding sets the priority
      of its agent, the pool that of the others. */
  lemma OrderExactly(q: Request, r: Registration, s: Registration, selected: map<Id, int>)
    requires PoolServes(q)
    ensures var p := if Explicit(q, r.id) then q.bindings[r.id].priority else q.pool.value.priority;
            var o := if Explicit(q, s.id) then q.bindings[s.id].priority else q.pool.value.priority;
            Less(KeyOf(q, r, selected), KeyOf(q, s, selected)) <==>
              || p < o
              || (p == o && r.id !in selected && (s.id in selected || r.id < s.id))
              || (p == o && r.id in selected && s.id in selected
                  && (selected[r.id] < selected[s.id] || (selected[r.id] == selected[s.id] && r.id < s.id)))
  {
  }

  /** All required capabilities are looked at in turn; any that differs disqualifies the agent. */
  method HasCapabilities(r: Registration, required: map<Id, Value>) returns (ok: bool)
    ensures ok <==> forall c :: c in required ==> Capability(r, c) == required[c] && !required[c].Other?
  {
    var rest := required.Keys;
    while rest != {}
      invariant rest <= required.Keys
      invariant forall c :: c in required && c !in rest ==>
        Capability(r, c) == required[c] && !required[c].Other?
      decreases |rest|
    {
      var c := Any(rest);
      if Capability(r, c) != required[c] || required[c].Other? {
        return false;
      }
      rest := rest - {c};
    }
    return true;
  }

  method SelectAgent(q: Request, rows: seq<Registration>, selected: map<Id, int>, now: int)
    returns (agent: Option<Registration>)
    requires Distinct(rows)
    ensures agent.Some? ==> IsSelected(q, rows, selected, now, agent.value)
    ensures agent.None? ==> forall r :: r in rows ==> !Eligible(q, r, now)
  {
    if q.pool.None? || !q.pool.value.enabled || !q.pool.value.sourcePresent {
      return None;
    }
    var pool := q.pool.value;
    if q.role !in pool.roles {
      return None;
    }
    var restricted := q.bindings != map[];
    var candidates: seq<(Key, Registration)> := [];
    for i := 0 to |rows|
      invariant forall c :: c in candidates ==>
        c.1 in rows[..i] && Eligible(q, c.1, now) && c.0 == KeyOf(q, c.1, selected)
      invariant forall r :: r in rows[..i] && Eligible(q, r, now) ==> (KeyOf(q, r, selected), r) in candidates
    {
      assert rows[..i + 1] == rows[..i] + [rows[i]];
      var r := rows[i];
      if !r.ready || r.leaseExpires <= now || r.driver !in pool.drivers {
        continue;
      }
      if q.preferred.Some? && r.id != q.preferred.value {
        continue;
      }
      if restricted && !Explicit(q, r.id) {
        continue;
      }
      var capable := HasCapabilities(r, pool.required);
      if !capable {
        continue;
      }
      var used := r.id in selected;
      var key := Key(if Explicit(q, r.id) then q.bindings[r.id].priority else pool.priority,
                     used, if used then selected[r.id] else 0, r.id);
      candidates := candidates + [(key, r)];
    }
    assert rows[..|rows|] == rows;
    if candidates == [] {
      forall r | r in rows
        ensures !Eligible(q, r, now)
      {
      }
      return None;
    }
    var least := candidates[0];
    for i := 1 to |candidates|
      invariant least in candidates
      invariant forall j :: 0 <= j < i ==> !Less(candidates[j].0, least.0)
    {
      if Less(candidates[i].0, least.0) {
        least := candidates[i];
      }
    }
    agent := Some(least.1);
    forall s | s in rows && Eligible(q, s, now) && s != least.1
      ensures Less(KeyOf(q, least.1, selected), KeyOf(q, s, selected))
    {
      var j :| 0 <= j < |candidates| && candidates[j] == (KeyOf(q, s, selected), s);
      SameIdSameRow(rows, s, least.1);
    }
  }

  lemma SameIdSameRow(rows: seq<Registration>, r: Registration, s: Registration)
    requires Distinct(rows) && r in rows && s in rows
    ensures r.id == s.id ==> r == s
  {
    var i :| 0 <= i < |rows| && rows[i] == r;
    var j :| 0 <= j < |rows| && rows[j] == s;
    if i != j {
      assert rows[if i < j then i else j].id != rows[if i < j then j else i].id;
    }
  }

  // ----- Round robin -----

  /** The table of last selections after the first k picks were recorded. */
  function Recorded(start: map<Id, int>, picks: seq<Id>, times: seq<int>, k: nat): map<Id, int>
    requires k <= |picks| && k <= |times|
  {
    if k == 0 then start else Recorded(start, picks, times, k - 1)[picks[k - 1] := times[k - 1]]
  }

  /** Times grow strictly and are later than every selection recorded before the run. */
  predicate Increasing(start: map<Id, int>, times: seq<int>) {
    && (forall i, j :: 0 <= i < j < |times| ==> times[i] < times[j])
    && (forall a, i :: a in start && 0 <= i < |times| ==> start[a] < times[i])
  }

  /** Exactly the agents of team are eligible at every selection, with one priority. */
  predicate FixedTeam(q: Request, rows: seq<Registration>, times: seq<int>, team: set<Id>, priority: int) {
    && Distinct(rows)
    && (forall k, r :: 0 <= k < |times| && r in rows && Eligible(q, r, times[k]) ==>
          r.id in team && KeyOf(q, r, map[]).priority == priority)
    && (forall k, a :: 0 <= k < |times| && a in team ==> Stands(q, rows, times[k], a))
  }

  predicate Stands(q: Request, rows: seq<Registration>, now: int, a: Id) {
    exists r :: r in rows && r.id == a && Eligible(q, r, now)
  }

  predicate IsChoice(q: Request, rows: seq<Registration>, selected: map<Id, int>, now: int, a: Id) {
    exists r :: r in rows && r.id == a && IsSelected(q, rows, selected, now, r)
  }

  /** Each pick is the agent selected from what the earlier picks recorded. */
  ghost predicate IsRun(q: Request, rows: seq<Registration>, start: map<Id, int>, picks: seq<Id>, times: seq<int>) {
    && |picks| == |times| && Increasing(start, times)
    && (forall k :: 0 <= k < |picks| ==> ChoiceAt(q, rows, start, picks, times, k))
  }

  ghost predicate ChoiceAt(q: Request, rows: seq<Registration>, start: map<Id, int>,
                           picks: seq<Id>, times: seq<int>, k: nat)
    requires k < |picks| == |times|
  {
    IsChoice(q, rows, Recorded(start, picks, times, k), times[k], picks[k])
  }

  lemma {:induction false} RecordedBefore(start: map<Id, int>, picks: seq<Id>, times: seq<int>, k: nat, a: Id)
    requires |picks| == |times| && k < |times| && Increasing(start, times)
    ensures a in Recorded(start, picks, times, k) ==> Recorded(start, picks, times, k)[a] < times[k]
  {
    if k > 0 {
      RecordedBefore(start, picks, times, k - 1, a);
    }
  }

  lemma {:induction false} RecordedSince(start: map<Id, int>, picks: seq<Id>, times: seq<int>, i: nat, k: nat)
    requires |picks| == |times| && i < k < |times| && Increasing(start, times)
    ensures picks[i] in Recorded(start, picks, times, k)
    ensures Recorded(start, picks, times, k)[picks[i]] >= times[i]
  {
    if i < k - 1 {
      RecordedSince(start, picks, times, i, k - 1);
    }
  }

  /** An agent recorded since pick i was picked since then. */
  lemma {:induction false} PickedSince(start: map<Id, int>, picks: seq<Id>, times: seq<int>,
                                       i: nat, k: nat, a: Id)
    requires |picks| == |times| && i < k < |times| && Increasing(start, times)
    requires a in Recorded(start, picks, times, k) && Recorded(start, picks, times, k)[a] >= times[i]
    ensures a in picks[i..k]
  {
    if picks[k - 1] == a {
      assert picks[i..k][k - 1 - i] == a;
    } else if i < k - 1 {
      PickedSince(start, picks, times, i, k - 1, a);
      assert picks[i..k] == picks[i..k - 1] + [picks[k - 1]];
    } else {
      RecordedBefore(start, picks, times, i, a);
    }
  }

  lemma PickIsFirst(q: Request, rows: seq<Registration>, times: seq<int>, team: set<Id>, priority: int,
                    selected: map<Id, int>, k: nat, pick: Id, a: Id)
    requires FixedTeam(q, rows, times, team, priority) && k < |times|
    requires IsChoice(q, rows, selected, times[k], pick) && a in team
    ensures pick in selected && a != pick ==> a in selected && selected[pick] <= selected[a]
  {
    var r :| r in rows && r.id == pick && IsSelected(q, rows, selected, times[k], r);
    assert Stands(q, rows, times[k], a);
    var s :| s in rows && s.id == a && Eligible(q, s, times[k]);
    assert KeyOf(q, r, selected).priority == KeyOf(q, r, map[]).priority == priority;
    assert KeyOf(q, s, selected).priority == KeyOf(q, s, map[]).priority == priority;
  }

  lemma PickInTeam(q: Request, rows: seq<Registration>, times: seq<int>, team: set<Id>, priority: int,
                   selected: map<Id, int>, k: nat, pick: Id)
    requires FixedTeam(q, rows, times, team, priority) && k < |times|
    requires IsChoice(q, rows, selected, times[k], pick)
    ensures pick in team
  {
  }

  /** Between two picks of the same agent, every other agent of the team is picked. */
  lemma OthersPickedBetween(q: Request, rows: seq<Registration>, start: map<Id, int>, picks: seq<Id>,
                            times: seq<int>, team: set<Id>, priority: int, i: nat, j: nat)
    requires IsRun(q, rows, start, picks, times) && FixedTeam(q, rows, times, team, priority)
    requires i < j < |picks| && picks[i] == picks[j]
    ensures team - {picks[j]} <= Elements(picks[i + 1..j])
    ensures |team| <= j - i
  {
    var selected := Recorded(start, picks, times, j);
    RecordedSince(start, picks, times, i, j);
    assert ChoiceAt(q, rows, start, picks, times, j);
    PickInTeam(q, rows, times, team, priority, selected, j, picks[j]);
    forall a | a in team && a != picks[j]
      ensures a in picks[i + 1..j]
    {
      PickIsFirst(q, rows, times, team, priority, selected, j, picks[j], a);
      PickedSince(start, picks, times, i, j, a);
      assert picks[i..j] == [picks[i]] + picks[i + 1..j];
    }
    FewElements(picks[i + 1..j]);
    Included(team - {picks[j]}, Elements(picks[i + 1..j]));
  }

  /** Any |team| consecutive selections pick every agent of the team exactly once. */
  lemma RoundRobin(q: Request, rows: seq<Registration>, start: map<Id, int>, picks: seq<Id>,
                   times: seq<int>, team: set<Id>, priority: int, from: nat)
    requires IsRun(q, rows, start, picks, times) && FixedTeam(q, rows, times, team, priority)
    requires from + |team| <= |picks|
    ensures var window := picks[from..from + |team|];
            && Elements(window) == team
            && (forall i, j :: 0 <= i < j < |window| ==> window[i] != window[j])
  {
    var window := picks[from..from + |team|];
    forall i, j | 0 <= i < j < |window|
      ensures window[i] != window[j]
    {
      if window[i] == window[j] {
        OthersPickedBetween(q, rows, start, picks, times, team, priority, from + i, from + j);
      }
    }
    forall i | 0 <= i < |window|
      ensures window[i] in team
    {
      var k := from + i;
      assert ChoiceAt(q, rows, start, picks, times, k);
      PickInTeam(q, rows, times, team, priority, Recorded(start, picks, times, k), k, picks[k]);
    }
    AllDistinct(window);
    SameSize(Elements(window), team);
  }
}

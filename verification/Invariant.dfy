/** What holds of the scheduler's state between and inside its operations.
    `g` is the validated graph the run started from, `w` the stages waiting
    to be emitted, `l` those whose result is known but not yet settled. */
module Invariant {
  import opened Wrappers
  import opened Ids
  import opened Reach
  import opened Workflow
  import Graphs
  import Template
  import Text

  /** What validation establishes about a graph. */
  ghost predicate Plan(g: Graph) {
    && (forall id :: id in g ==> g[id].id == id && Graphs.ValidId(id))
    && Acyclic(g)
    && (forall id, x :: id in g && x in g[id].needs ==> x in g)
    && (forall id :: id in g ==> (g[id].kind.Map? <==> g[id].over.Some?))
    && (forall id :: id in g && g[id].over.Some? ==> g[id].over.value in g[id].needs)
    && (forall id :: id in g ==> Graphs.TemplateOk(g, id))
  }

  lemma AcceptedIsPlan(stages: seq<Stage>, cap: nat)
    requires Graphs.Acceptable(stages, cap)
    ensures Plan(Graphs.Stored(stages)) && |Graphs.Stored(stages)| <= cap
    ensures forall id :: id in Graphs.Stored(stages) ==> Ordered(Graphs.Stored(stages)[id].needs)
  {
    var g := Graphs.Stored(stages);
    Graphs.StoredContent(stages);
    Graphs.MapsNeedTheirSource(stages);
    forall id | id in g
      ensures g[id].id == id && Graphs.ValidId(id) && (g[id].kind.Map? <==> g[id].over.Some?)
      ensures Ordered(g[id].needs)
      ensures forall x :: x in g[id].needs ==> x in g
    {
      var k :| 0 <= k < |stages| && stages[k].id == id;
      assert Graphs.LocallyValid(stages[k]);
      Graphs.NormalNeeds(stages[k]);
      assert Graphs.Resolved(g, g[id]);
    }
    StoredSize(stages);
  }

  lemma {:induction false} StoredSize(stages: seq<Stage>)
    ensures |Graphs.Stored(stages)| <= |stages|
  {
    if stages != [] {
      var front, s := stages[..|stages| - 1], stages[|stages| - 1];
      StoredSize(front);
      assert Graphs.Stored(stages).Keys == Graphs.Stored(front).Keys + {s.id};
    }
  }

  ghost function Elements(s: seq<StageId>): set<StageId> {
    set x | x in s
  }

  /** Needs without a result. */
  ghost function Unmet(g: Graph, output: map<StageId, string>, id: StageId): set<StageId>
    requires id in g
  {
    set x | x in g[id].needs && x !in output
  }

  ghost function Open(ids: seq<StageId>, output: map<StageId, string>): set<StageId> {
    set x | x in ids && x !in output
  }

  ghost predicate GraphPart(g: Graph, graph: Graph, children: map<StageId, StageId>) {
    && g.Keys !! children.Keys
    && graph.Keys == g.Keys + children.Keys
    && (forall id :: id in g ==> graph[id] == g[id])
    && (forall ch :: ch in children ==> graph[ch].id == ch && graph[ch].kind.Agent?)
  }

  ghost predicate EdgesPart(g: Graph, edges: map<StageId, seq<StageId>>) {
    && edges.Keys == g.Keys
    && (forall a :: a in edges ==> Distinct(edges[a]))
    && (forall a, b :: a in edges ==> (b in edges[a] <==> b in g && a in g[b].needs))
  }

  ghost predicate Distinct(s: seq<StageId>) {
    forall i, j :: 0 <= i < j < |s| ==> s[i] != s[j]
  }

  ghost predicate CountPart(g: Graph, output: map<StageId, string>, pending: map<StageId, nat>) {
    && (forall id :: id in pending <==> id in g && id !in output)
    && (forall id :: id in pending ==> pending[id] == |Unmet(g, output, id)|)
    && (forall id, x :: id in g && id in output && x in g[id].needs ==> x in output)
  }

  ghost predicate PhasePart(g: Graph, pending: map<StageId, nat>, inFlight: set<StageId>, expanded: set<StageId>,
                            w: set<StageId>, l: set<StageId>)
  {
    && (forall id :: id in pending ==>
          (pending[id] == 0 <==> id in w || id in inFlight || id in expanded || id in l))
    && w <= pending.Keys
    && l <= pending.Keys
    && expanded <= pending.Keys
    && w !! inFlight
    && w !! expanded
    && w !! l
    && l !! inFlight
    && l !! expanded
    && (forall id :: id in expanded ==> id in g && g[id].kind.Map?)
    && (forall id :: id in inFlight && id in g ==> id in pending && g[id].kind.Agent?)
  }

  ghost predicate ChildPart(g: Graph, children: map<StageId, StageId>, maps: map<StageId, seq<StageId>>,
                            output: map<StageId, string>, inFlight: set<StageId>)
  {
    && (forall m :: m in maps ==> m in g && g[m].kind.Map? && maps[m] == ChildIds(m, |maps[m]|))
    && (forall m, ch :: m in maps && ch in maps[m] ==> ch in children && children[ch] == m)
    && (forall ch :: ch in children ==> children[ch] in maps && ch in maps[children[ch]])
    && (forall ch :: ch in children ==> (ch in output <==> ch !in inFlight))
    && (forall id :: id in inFlight ==> id in g || id in children)
    && (forall id :: id in output ==> id in g || id in children)
  }

  ghost predicate MapPart(g: Graph, maps: map<StageId, seq<StageId>>, mapRemaining: map<StageId, nat>,
                          output: map<StageId, string>, l: set<StageId>)
  {
    && (forall m :: m in mapRemaining ==>
          m in maps && mapRemaining[m] == |Open(maps[m], output)| && mapRemaining[m] > 0)
    && (forall m :: m in maps && m !in mapRemaining ==> Open(maps[m], output) == {})
    && (forall m :: m in g && g[m].kind.Map? ==>
          (m in maps <==> m in mapRemaining || m in output || m in l))
  }

  /** The status shown for a stage follows from where it is. */
  ghost predicate StatusPart(status: map<StageId, StageStatus>, graph: Graph, output: map<StageId, string>,
                             inFlight: set<StageId>, maps: map<StageId, seq<StageId>>, l: set<StageId>)
  {
    && status.Keys == graph.Keys
    && forall id :: id in graph && id !in l ==>
         status[id] == if id in output then StageStatus.Complete
                       else if id in inFlight || id in maps then InProgress
                       else StageStatus.Pending
  }

  ghost predicate ReadyPart(ready: seq<StageId>, w: set<StageId>) {
    Ordered(ready) && forall id :: id in ready ==> id in w
  }

  ghost predicate Inv(g: Graph, d: Snapshot, w: set<StageId>, l: set<StageId>) {
    && GraphPart(g, d.graph, d.children)
    && |d.graph| <= d.cap
    && EdgesPart(g, d.edges)
    && CountPart(g, d.output, d.pending)
    && PhasePart(g, d.pending, d.inFlight, d.mapRemaining.Keys, w, l)
    && ChildPart(g, d.children, d.maps, d.output, d.inFlight)
    && MapPart(g, d.maps, d.mapRemaining, d.output, l)
    && StatusPart(d.status, d.graph, d.output, d.inFlight, d.maps, l)
    && ReadyPart(d.ready, w)
  }

  lemma InvParts(g: Graph, d: Snapshot, w: set<StageId>, l: set<StageId>)
    requires Inv(g, d, w, l)
    ensures GraphPart(g, d.graph, d.children)
    ensures EdgesPart(g, d.edges)
    ensures CountPart(g, d.output, d.pending)
    ensures PhasePart(g, d.pending, d.inFlight, d.mapRemaining.Keys, w, l)
    ensures ChildPart(g, d.children, d.maps, d.output, d.inFlight)
    ensures MapPart(g, d.maps, d.mapRemaining, d.output, l)
    ensures StatusPart(d.status, d.graph, d.output, d.inFlight, d.maps, l)
    ensures ReadyPart(d.ready, w)
  {
    hide GraphPart, EdgesPart, CountPart, PhasePart, ChildPart, MapPart, StatusPart, ReadyPart;
  }

  // ----- names of map children -----

  /** The bracket of a child id tells where the parent's name ends. */
  lemma BracketPosition(m: StageId, i: nat, m': StageId, i': nat)
    requires Graphs.ValidId(m') && |m| < |m'|
    ensures ChildId(m, i) != ChildId(m', i')
  {
    assert ChildId(m, i)[|m|] == '[';
    assert ChildId(m', i')[|m|] == m'[|m|];
    assert Graphs.IdChar(m'[|m|]);
  }

  lemma ChildIdInjective(m: StageId, i: nat, m': StageId, i': nat)
    requires Graphs.ValidId(m) && Graphs.ValidId(m')
    requires ChildId(m, i) == ChildId(m', i')
    ensures m == m' && i == i'
  {
    if |m| < |m'| {
      BracketPosition(m, i, m', i');
    } else if |m'| < |m| {
      BracketPosition(m', i', m, i);
    }
    var s, s' := ChildId(m, i), ChildId(m', i');
    assert s[..|m|] == m && s'[..|m'|] == m';
    var t, t' := Text.Decimal(i), Text.Decimal(i');
    assert s[|m| + 1..|s| - 1] == t && s'[|m'| + 1..|s'| - 1] == t';
    Text.DecimalInjective(i, i');
  }

  lemma ChildIdIsNew(g: Graph, m: StageId, i: nat)
    requires Plan(g)
    ensures ChildId(m, i) !in g
  {
    var s := ChildId(m, i);
    assert s[|m|] == '[' && !Graphs.IdChar('[');
    assert !Graphs.ValidId(s);
  }

  lemma ChildIdsDistinct(m: StageId, n: nat)
    requires Graphs.ValidId(m)
    ensures Distinct(ChildIds(m, n))
  {
    var ids := ChildIds(m, n);
    forall i, j | 0 <= i < j < n
      ensures ids[i] != ids[j]
    {
      if ids[i] == ids[j] {
        ChildIdInjective(m, i, m, j);
      }
    }
  }

  // ----- counting dependants down -----

  /** What `Release` does when nobody is listed twice. */
  lemma {:induction false} ReleaseMeaning(c: Counters, dependants: seq<StageId>, n: nat)
    requires n <= |dependants| && Distinct(dependants)
    ensures var r := Release(c, dependants, n);
            && r.pending.Keys == c.pending.Keys
            && (forall x :: x in c.pending ==>
                  r.pending[x] == if x in dependants[..n] && c.pending[x] > 0 then c.pending[x] - 1 else c.pending[x])
            && (forall x :: x in r.ready <==>
                  x in c.ready || (x in dependants[..n] && x in c.pending && c.pending[x] <= 1))
            && (Ordered(c.ready) ==> Ordered(r.ready))
  {
    hide Insert;
    if n > 0 {
      ReleaseMeaning(c, dependants, n - 1);
      var before := Release(c, dependants, n - 1);
      var next := dependants[n - 1];
      OneMoreDependant(dependants, n);
      InsertMember(before.ready, next);
      if Ordered(before.ready) {
        InsertOrdered(before.ready, next);
      }
    }
  }

  lemma OneMoreDependant(dependants: seq<StageId>, n: nat)
    requires 0 < n <= |dependants| && Distinct(dependants)
    ensures dependants[n - 1] !in dependants[..n - 1]
    ensures forall x :: x in dependants[..n] <==> x in dependants[..n - 1] || x == dependants[n - 1]
  {
    assert dependants[..n] == dependants[..n - 1] + [dependants[n - 1]];
  }

  lemma RemoveOne<T>(s: set<T>, x: T)
    requires x in s
    ensures |s - {x}| == |s| - 1
  {
  }

  /** Dependants whose last unmet need is `id`. */
  ghost function Freed(d: Snapshot, id: StageId): set<StageId> {
    set x | x in Dependants(d, id) && x in d.pending && d.pending[x] == 1
  }

  lemma UnmetAfter(g: Graph, output: map<StageId, string>, id: StageId, answer: string, x: StageId)
    requires x in g && id !in output
    ensures Unmet(g, output[id := answer], x) == Unmet(g, output, x) - {id}
    ensures |Unmet(g, output[id := answer], x)|
            == if id in g[x].needs then |Unmet(g, output, x)| - 1 else |Unmet(g, output, x)|
  {
    if id in g[x].needs {
      RemoveOne(Unmet(g, output, x), id);
    } else {
      assert Unmet(g, output, x) - {id} == Unmet(g, output, x);
    }
  }

  lemma SettleCounters(g: Graph, d: Snapshot, id: StageId, answer: string)
    requires EdgesPart(g, d.edges) && CountPart(g, d.output, d.pending)
    requires id in d.pending
    ensures var d' := Settle(d, id, answer);
            && d'.pending.Keys == d.pending.Keys - {id}
            && (forall x :: x in d'.pending && x in Dependants(d, id) ==> d'.pending[x] + 1 == d.pending[x])
            && (forall x :: x in d'.pending && x !in Dependants(d, id) ==> d'.pending[x] == d.pending[x])
            && (forall x :: x in d'.ready <==> x in d.ready || (x != id && x in Freed(d, id)))
            && (Ordered(d.ready) ==> Ordered(d'.ready))
    ensures forall x :: x in Dependants(d, id) && x in d.pending ==> d.pending[x] > 0
  {
    hide EdgesPart, CountPart, Release, Distinct, Ordered;
    DependantsDistinct(g, d, id);
    DependantsUnmet(g, d, id);
    var next := Dependants(d, id);
    var c := Counters(d.pending - {id}, d.ready);
    ReleaseMeaning(c, next, |next|);
    assert next[..|next|] == next;
  }

  lemma DependantsDistinct(g: Graph, d: Snapshot, id: StageId)
    requires EdgesPart(g, d.edges)
    ensures Distinct(Dependants(d, id))
  {
  }

  lemma DependantsUnmet(g: Graph, d: Snapshot, id: StageId)
    requires EdgesPart(g, d.edges) && CountPart(g, d.output, d.pending) && id in d.pending
    ensures forall x :: x in Dependants(d, id) && x in d.pending ==> d.pending[x] > 0
  {
    forall x | x in Dependants(d, id) && x in d.pending
      ensures d.pending[x] > 0
    {
      assert id in Unmet(g, d.output, x);
    }
  }

  lemma NotOwnDependant(g: Graph, d: Snapshot, id: StageId)
    requires Plan(g) && EdgesPart(g, d.edges)
    ensures id !in Dependants(d, id)
  {
    if id in Dependants(d, id) {
      ReachEdge(g, id, id);
    }
  }

  lemma SettleCounts(g: Graph, d: Snapshot, id: StageId, answer: string)
    requires EdgesPart(g, d.edges) && CountPart(g, d.output, d.pending)
    requires id in d.pending && d.pending[id] == 0
    ensures var d' := Settle(d, id, answer); CountPart(g, d'.output, d'.pending)
  {
    var d' := Settle(d, id, answer);
    SettleCounters(g, d, id, answer);
    forall x | x in d'.pending
      ensures d'.pending[x] == |Unmet(g, d'.output, x)|
    {
      UnmetAfter(g, d.output, id, answer, x);
    }
    forall x | x in g[id].needs
      ensures x in d'.output
    {
      assert Unmet(g, d.output, id) == {};
      assert x !in Unmet(g, d.output, id);
    }
  }

  // ----- settling a static stage keeps the invariant -----

  lemma PhaseAfterSettle(g: Graph, pending: map<StageId, nat>, pending': map<StageId, nat>, inFlight: set<StageId>,
                         expanded: set<StageId>, w: set<StageId>, l: set<StageId>, id: StageId, freed: set<StageId>)
    requires PhasePart(g, pending, inFlight, expanded, w, l) && id in l
    requires pending'.Keys == pending.Keys - {id}
    requires forall x :: x in freed ==> x in pending' && pending[x] == 1
    requires forall x :: x in pending' ==> (pending'[x] == 0 <==> pending[x] == 0 || x in freed)
    ensures PhasePart(g, pending', inFlight, expanded, w + freed, l - {id})
  {
  }

  lemma FreedAreCounted(g: Graph, d: Snapshot, id: StageId, answer: string)
    requires Plan(g) && EdgesPart(g, d.edges) && CountPart(g, d.output, d.pending) && id in d.pending
    ensures var d' := Settle(d, id, answer);
            && (forall x :: x in Freed(d, id) ==> x in d'.pending && d.pending[x] == 1)
            && (forall x :: x in d'.pending ==>
                  x in d.pending && (d'.pending[x] == 0 <==> d.pending[x] == 0 || x in Freed(d, id)))
  {
    hide Plan, EdgesPart, CountPart, Settle;
    SettleCounters(g, d, id, answer);
    NotOwnDependant(g, d, id);
  }

  /** What settling leaves alone. */
  lemma SettleFrame(d: Snapshot, id: StageId, answer: string)
    ensures var d' := Settle(d, id, answer);
            && d'.graph == d.graph && d'.edges == d.edges && d'.maps == d.maps && d'.children == d.children
            && d'.mapRemaining == d.mapRemaining && d'.inFlight == d.inFlight && d'.prompts == d.prompts
            && d'.retries == d.retries && d'.cap == d.cap
            && d'.output == d.output[id := answer] && d'.status == d.status[id := StageStatus.Complete]
  {
    hide Release;
  }

  lemma SettlePhases(g: Graph, d: Snapshot, w: set<StageId>, l: set<StageId>, id: StageId, answer: string)
    requires Plan(g) && EdgesPart(g, d.edges) && CountPart(g, d.output, d.pending)
    requires PhasePart(g, d.pending, d.inFlight, d.mapRemaining.Keys, w, l) && ReadyPart(d.ready, w)
    requires id in l && id in d.pending
    ensures var d' := Settle(d, id, answer);
            && PhasePart(g, d'.pending, d'.inFlight, d'.mapRemaining.Keys, w + Freed(d, id), l - {id})
            && ReadyPart(d'.ready, w + Freed(d, id))
  {
    hide Plan, EdgesPart, CountPart, PhasePart, Settle, Freed, Ordered;
    SettleCounters(g, d, id, answer);
    FreedAreCounted(g, d, id, answer);
    SettleFrame(d, id, answer);
    PhaseAfterSettle(g, d.pending, Settle(d, id, answer).pending, d.inFlight, d.mapRemaining.Keys, w, l, id,
                     Freed(d, id));
  }

  lemma ChildrenAfterSettle(g: Graph, children: map<StageId, StageId>, maps: map<StageId, seq<StageId>>,
                            output: map<StageId, string>, inFlight: set<StageId>, id: StageId, answer: string)
    requires ChildPart(g, children, maps, output, inFlight) && id in g && id !in children
    ensures ChildPart(g, children, maps, output[id := answer], inFlight)
    ensures forall m :: m in maps ==> id !in maps[m]
  {
    forall m | m in maps
      ensures id !in maps[m]
    {
      assert forall ch :: ch in maps[m] ==> ch in children;
    }
  }

  lemma MapsAfterSettle(g: Graph, maps: map<StageId, seq<StageId>>, mapRemaining: map<StageId, nat>,
                        output: map<StageId, string>, l: set<StageId>, id: StageId, answer: string)
    requires MapPart(g, maps, mapRemaining, output, l)
    requires id in l && id !in mapRemaining && forall m :: m in maps ==> id !in maps[m]
    ensures MapPart(g, maps, mapRemaining, output[id := answer], l - {id})
  {
    forall m | m in maps
      ensures Open(maps[m], output[id := answer]) == Open(maps[m], output)
    {
    }
  }

  lemma SettleChildren(g: Graph, d: Snapshot, l: set<StageId>, id: StageId, answer: string)
    requires ChildPart(g, d.children, d.maps, d.output, d.inFlight)
    requires MapPart(g, d.maps, d.mapRemaining, d.output, l)
    requires id in g && id !in d.children && id in l && id !in d.mapRemaining
    ensures var d' := Settle(d, id, answer);
            && ChildPart(g, d'.children, d'.maps, d'.output, d'.inFlight)
            && MapPart(g, d'.maps, d'.mapRemaining, d'.output, l - {id})
  {
    hide ChildPart, MapPart, Settle;
    SettleFrame(d, id, answer);
    ChildrenAfterSettle(g, d.children, d.maps, d.output, d.inFlight, id, answer);
    MapsAfterSettle(g, d.maps, d.mapRemaining, d.output, l, id, answer);
  }

  lemma SettleStatus(g: Graph, d: Snapshot, l: set<StageId>, id: StageId, answer: string)
    requires StatusPart(d.status, d.graph, d.output, d.inFlight, d.maps, l) && id in d.graph
    ensures var d' := Settle(d, id, answer);
            StatusPart(d'.status, d'.graph, d'.output, d'.inFlight, d'.maps, l - {id})
  {
    var d' := Settle(d, id, answer);
    assert d'.status == d.status[id := StageStatus.Complete];
    assert d'.output == d.output[id := answer];
  }

  lemma SettleKeepsInv(g: Graph, d: Snapshot, w: set<StageId>, l: set<StageId>, id: StageId, answer: string)
    requires Plan(g) && Inv(g, d, w, l) && id in l
    ensures Inv(g, Settle(d, id, answer), w + Freed(d, id), l - {id})
    ensures Settle(d, id, answer).pending.Keys == d.pending.Keys - {id}
    ensures forall x :: x in Settle(d, id, answer).ready <==> x in d.ready || x in Freed(d, id)
  {
    SettleCounters(g, d, id, answer);
    NotOwnDependant(g, d, id);
    SettleCounts(g, d, id, answer);
    SettlePhases(g, d, w, l, id, answer);
    SettleStatus(g, d, l, id, answer);
    SettleChildren(g, d, l, id, answer);
  }

  // ----- settling a map child -----

  ghost function Countdown(mapRemaining: map<StageId, nat>, m: StageId): map<StageId, nat>
    requires m in mapRemaining && mapRemaining[m] > 0
  {
    if mapRemaining[m] == 1 then mapRemaining - {m} else mapRemaining[m := mapRemaining[m] - 1]
  }

  lemma CountdownKeys(mapRemaining: map<StageId, nat>, m: StageId)
    requires m in mapRemaining && mapRemaining[m] > 0
    ensures Countdown(mapRemaining, m).Keys
            == if mapRemaining[m] == 1 then mapRemaining.Keys - {m} else mapRemaining.Keys
  {
  }

  /** The state after child `ch` delivered, before its parent is settled. */
  ghost function ChildDone(d: Snapshot, ch: StageId, answer: string): Snapshot
    requires ch in d.children && d.children[ch] in d.mapRemaining && d.mapRemaining[d.children[ch]] > 0
  {
    d.(inFlight := d.inFlight - {ch},
       output := d.output[ch := answer],
       status := d.status[ch := StageStatus.Complete],
       mapRemaining := Countdown(d.mapRemaining, d.children[ch]))
  }

  /** Maps whose last child has just delivered. */
  ghost function Drained(d: Snapshot, ch: StageId): set<StageId>
    requires ch in d.children && d.children[ch] in d.mapRemaining
  {
    if d.mapRemaining[d.children[ch]] == 1 then {d.children[ch]} else {}
  }

  lemma OpenChildWaits(g: Graph, d: Snapshot, w: set<StageId>, ch: StageId)
    requires Inv(g, d, w, {}) && ch in d.children && ch in d.inFlight
    ensures var m := d.children[ch];
            && m in d.maps && ch in d.maps[m] && ch !in d.output
            && m in d.mapRemaining && d.mapRemaining[m] == |Open(d.maps[m], d.output)| > 0
            && ch !in g && ch in d.graph
  {
    hide Plan, EdgesPart, CountPart, PhasePart, StatusPart, ReadyPart;
    var m := d.children[ch];
    assert m in d.maps && ch in d.maps[m];
    assert ch in Open(d.maps[m], d.output);
  }

  lemma OpenAfter(ids: seq<StageId>, output: map<StageId, string>, ch: StageId, answer: string)
    requires ch !in output
    ensures |Open(ids, output[ch := answer])|
            == if ch in ids then |Open(ids, output)| - 1 else |Open(ids, output)|
  {
    if ch in ids {
      RemoveOne(Open(ids, output), ch);
      assert Open(ids, output[ch := answer]) == Open(ids, output) - {ch};
    } else {
      assert Open(ids, output[ch := answer]) == Open(ids, output);
    }
  }

  lemma ChildMaps(g: Graph, maps: map<StageId, seq<StageId>>, before: map<StageId, nat>,
                  output: map<StageId, string>, m: StageId, ch: StageId, answer: string)
    requires MapPart(g, maps, before, output, {})
    requires m in maps && ch in maps[m] && ch !in output && ch !in g && m in before
    requires forall x :: x in maps && ch in maps[x] ==> x == m
    requires before[m] > 0
    ensures MapPart(g, maps, Countdown(before, m), output[ch := answer], if before[m] == 1 then {m} else {})
  {
    hide Open, Countdown;
    var after, left := output[ch := answer], Countdown(before, m);
    CountdownKeys(before, m);
    forall x | x in maps
      ensures MapAfter(maps[x], after, left, x)
    {
      ChildMap(g, maps, before, output, m, ch, answer, x);
    }
    MapsAfter(g, maps, before, output, m, ch, left, after);
  }

  lemma MapsAfter(g: Graph, maps: map<StageId, seq<StageId>>, before: map<StageId, nat>, output: map<StageId, string>,
                  m: StageId, ch: StageId, left: map<StageId, nat>, after: map<StageId, string>)
    requires MapPart(g, maps, before, output, {}) && m in maps && m in before && ch !in g
    requires after.Keys == output.Keys + {ch}
    requires left.Keys == before.Keys || left.Keys == before.Keys - {m}
    requires forall x :: x in maps ==> MapAfter(maps[x], after, left, x)
    ensures MapPart(g, maps, left, after, if m in left then {} else {m})
  {
    hide Open;
  }

  /** The counter of a map tells its open children. */
  ghost predicate MapAfter(ids: seq<StageId>, output: map<StageId, string>, mapRemaining: map<StageId, nat>,
                           m: StageId) {
    if m in mapRemaining then mapRemaining[m] == |Open(ids, output)| > 0 else Open(ids, output) == {}
  }

  lemma ChildMap(g: Graph, maps: map<StageId, seq<StageId>>, before: map<StageId, nat>,
                 output: map<StageId, string>, m: StageId, ch: StageId, answer: string, x: StageId)
    requires MapPart(g, maps, before, output, {}) && x in maps
    requires m in maps && ch in maps[m] && ch !in output && m in before
    requires ch in maps[x] ==> x == m
    requires before[m] > 0
    ensures MapAfter(maps[x], output[ch := answer], Countdown(before, m), x)
  {
    hide Open;
    OpenAfter(maps[x], output, ch, answer);
  }

  lemma ChildCounts(g: Graph, output: map<StageId, string>, pending: map<StageId, nat>, ch: StageId, answer: string)
    requires Plan(g) && CountPart(g, output, pending) && ch !in g
    ensures CountPart(g, output[ch := answer], pending)
  {
    forall id | id in pending
      ensures Unmet(g, output[ch := answer], id) == Unmet(g, output, id)
    {
    }
  }

  lemma ChildPhases(g: Graph, pending: map<StageId, nat>, inFlight: set<StageId>, expanded: set<StageId>,
                    w: set<StageId>, m: StageId, ch: StageId)
    requires PhasePart(g, pending, inFlight, expanded, w, {}) && ch !in g && m in expanded
    requires forall id :: id in pending ==> id in g
    ensures PhasePart(g, pending, inFlight - {ch}, expanded, w, {})
    ensures PhasePart(g, pending, inFlight - {ch}, expanded - {m}, w, {m})
  {
  }

  lemma ChildChildren(g: Graph, children: map<StageId, StageId>, maps: map<StageId, seq<StageId>>,
                      output: map<StageId, string>, inFlight: set<StageId>, ch: StageId, answer: string)
    requires ChildPart(g, children, maps, output, inFlight) && ch in children
    ensures ChildPart(g, children, maps, output[ch := answer], inFlight - {ch})
  {
  }

  lemma ChildStatus(status: map<StageId, StageStatus>, graph: Graph, output: map<StageId, string>,
                    inFlight: set<StageId>, maps: map<StageId, seq<StageId>>, l: set<StageId>, ch: StageId,
                    answer: string)
    requires StatusPart(status, graph, output, inFlight, maps, {}) && ch in graph
    ensures StatusPart(status[ch := StageStatus.Complete], graph, output[ch := answer], inFlight - {ch}, maps, l)
  {
  }

  lemma ChildDoneKeepsInv(g: Graph, d: Snapshot, w: set<StageId>, ch: StageId, answer: string)
    requires Plan(g) && Inv(g, d, w, {}) && ch in d.children && ch in d.inFlight
    ensures d.children[ch] in d.mapRemaining && d.mapRemaining[d.children[ch]] > 0
    ensures Inv(g, ChildDone(d, ch, answer), w, Drained(d, ch))
  {
    hide Plan, GraphPart, EdgesPart, CountPart, PhasePart, ChildPart, MapPart, StatusPart, ReadyPart, Countdown, Open;
    InvParts(g, d, w, {});
    KnownPending(g, d.output, d.pending);
    OpenChildWaits(g, d, w, ch);
    var m := d.children[ch];
    OnlyParent(g, d.children, d.maps, d.output, d.inFlight, ch);
    ChildMaps(g, d.maps, d.mapRemaining, d.output, m, ch, answer);
    ChildCounts(g, d.output, d.pending, ch, answer);
    ChildPhases(g, d.pending, d.inFlight, d.mapRemaining.Keys, w, m, ch);
    ChildChildren(g, d.children, d.maps, d.output, d.inFlight, ch, answer);
    ChildStatus(d.status, d.graph, d.output, d.inFlight, d.maps, Drained(d, ch), ch, answer);
    CountdownKeys(d.mapRemaining, m);
  }

  lemma OnlyParent(g: Graph, children: map<StageId, StageId>, maps: map<StageId, seq<StageId>>,
                   output: map<StageId, string>, inFlight: set<StageId>, ch: StageId)
    requires ChildPart(g, children, maps, output, inFlight) && ch in children
    ensures forall x :: x in maps && ch in maps[x] ==> x == children[ch]
  {
  }

  // ----- emitting -----

  /** All transitive needs of a stage with no unmet need have results. */
  lemma AncestorsSettled(g: Graph, output: map<StageId, string>, pending: map<StageId, nat>, id: StageId, x: StageId)
    requires CountPart(g, output, pending) && id in pending && pending[id] == 0
    requires Plan(g) && Reaches(g, id, x)
    ensures x in output
  {
    var settled := set y | y in g && y in output;
    assert Unmet(g, output, id) == {};
    var d := ReachFirst(g, id, x);
    assert d !in Unmet(g, output, id);
    if d != x {
      var p :| IsPath(g, d, x, p);
      ClosedUnderPaths(g, settled, d, x, p);
    }
  }

  /** The prompt of a stage with no unmet need can be filled in. */
  lemma ReadyPromptRenders(g: Graph, output: map<StageId, string>, pending: map<StageId, nat>, id: StageId,
                           item: Option<string>)
    requires CountPart(g, output, pending) && id in pending && pending[id] == 0
    requires Plan(g) && (g[id].kind.Map? ==> item.Some?)
    ensures Template.Render(g[id].prompt, output, item).Ok?
  {
    forall x | Graphs.Upstream(g, id)(x)
      ensures x in output
    {
      AncestorsSettled(g, output, pending, id, x);
    }
    assert Graphs.TemplateOk(g, id);
    Template.CheckedPromptRenders(g[id].prompt, Graphs.Upstream(g, id), g[id].kind.Map?, output, item);
  }

  lemma AgentPhase(g: Graph, pending: map<StageId, nat>, inFlight: set<StageId>, expanded: set<StageId>,
                   w: set<StageId>, l: set<StageId>, id: StageId)
    requires PhasePart(g, pending, inFlight, expanded, w, l)
    requires id in w && id in g && g[id].kind.Agent?
    ensures PhasePart(g, pending, inFlight + {id}, expanded, w - {id}, l)
  {
  }

  lemma AgentChildren(g: Graph, children: map<StageId, StageId>, maps: map<StageId, seq<StageId>>,
                      output: map<StageId, string>, inFlight: set<StageId>, id: StageId)
    requires ChildPart(g, children, maps, output, inFlight) && id in g && id !in children
    ensures ChildPart(g, children, maps, output, inFlight + {id})
  {
  }

  lemma AgentStatus(status: map<StageId, StageStatus>, graph: Graph, output: map<StageId, string>,
                    inFlight: set<StageId>, maps: map<StageId, seq<StageId>>, l: set<StageId>, id: StageId)
    requires StatusPart(status, graph, output, inFlight, maps, l) && id in graph && id !in output
    ensures StatusPart(status[id := InProgress], graph, output, inFlight + {id}, maps, l)
  {
  }

  lemma AgentWaits(g: Graph, d: Snapshot, w: set<StageId>, l: set<StageId>, id: StageId)
    requires Inv(g, d, w, l) && id in w && id in g
    ensures id in d.pending && d.pending[id] == 0 && id !in d.output && id !in d.children && id in d.graph
  {
  }

  lemma EmitAgentKeepsInv(g: Graph, d: Snapshot, w: set<StageId>, l: set<StageId>, id: StageId)
    requires Plan(g) && Inv(g, d, w, l) && id in w && id !in d.ready && id in g && g[id].kind.Agent?
    ensures var e := EmitAgent(d, id, g[id]);
            && e.failure.None?
            && e.empty == []
            && Inv(g, e.dag, w - {id}, l)
            && e.dag.ready == d.ready && e.dag.pending == d.pending && e.dag.output == d.output
  {
    hide Plan, GraphPart, EdgesPart, CountPart, PhasePart, ChildPart, MapPart, StatusPart, ReadyPart, Template.Render;
    InvParts(g, d, w, l);
    AgentWaits(g, d, w, l, id);
    ReadyRemains(d.ready, w, id);
    ReadyPromptRenders(g, d.output, d.pending, id, None);
    AgentPhase(g, d.pending, d.inFlight, d.mapRemaining.Keys, w, l, id);
    AgentChildren(g, d.children, d.maps, d.output, d.inFlight, id);
    AgentStatus(d.status, d.graph, d.output, d.inFlight, d.maps, l, id);
  }

  // ----- expanding a map -----

  ghost predicate ItemsRender(prompt: string, output: map<string, string>, items: seq<string>) {
    forall i :: 0 <= i < |items| ==> Template.Render(prompt, output, Some(items[i])).Ok?
  }

  ghost function ItemPrompt(prompt: string, output: map<string, string>, item: string): string
    requires Template.Render(prompt, output, Some(item)).Ok?
  {
    Template.Render(prompt, output, Some(item)).value
  }

  lemma ChildIdsStep(m: StageId, n: nat)
    requires n > 0
    ensures ChildIds(m, n) == ChildIds(m, n - 1) + [ChildId(m, n - 1)]
    ensures Elements(ChildIds(m, n)) == Elements(ChildIds(m, n - 1)) + {ChildId(m, n - 1)}
  {
    assert ChildIds(m, n) == ChildIds(m, n - 1) + [ChildId(m, n - 1)];
  }

  lemma {:induction false} AddChildrenFrame(d: Snapshot, parent: Stage, items: seq<string>, n: nat)
    requires n <= |items| && ItemsRender(parent.prompt, d.output, items)
    ensures var e := AddChildren(d, parent, items, n);
            && e.failure.None? && e.empty == [] && |e.spawned| == n
            && e.dag == d.(children := e.dag.children, graph := e.dag.graph, status := e.dag.status,
                           inFlight := e.dag.inFlight, prompts := e.dag.prompts)
  {
    if n > 0 {
      AddChildrenFrame(d, parent, items, n - 1);
    }
  }

  /** One more child, if the previous ones went in. */
  lemma AddChildrenStep(d: Snapshot, parent: Stage, items: seq<string>, n: nat)
    requires 0 < n <= |items| && ItemsRender(parent.prompt, d.output, items)
    ensures var e := AddChildren(d, parent, items, n - 1);
            var child := ChildStage(parent, n - 1, ItemPrompt(parent.prompt, d.output, items[n - 1]));
            AddChildren(d, parent, items, n)
            == Emission(AddChild(e.dag, parent.id, child), e.spawned + [child], [], None)
  {
    AddChildrenFrame(d, parent, items, n - 1);
  }

  lemma UnionStep(a: set<StageId>, b: set<StageId>, x: StageId)
    ensures a + b + {x} == a + (b + {x})
  {
  }

  lemma AddChildFields(d: Snapshot, parent: StageId, child: Stage)
    ensures var d' := AddChild(d, parent, child);
            && d'.graph.Keys == d.graph.Keys + {child.id}
            && d'.status.Keys == d.status.Keys + {child.id}
            && d'.children.Keys == d.children.Keys + {child.id}
            && d'.inFlight == d.inFlight + {child.id}
  {
  }

  lemma NoNewKeys(d: Snapshot, parent: Stage, items: seq<string>)
    ensures AddChildren(d, parent, items, 0).dag == d && Elements(ChildIds(parent.id, 0)) == {}
  {
  }

  lemma {:induction false} AddChildrenKeys(d: Snapshot, parent: Stage, items: seq<string>, n: nat)
    requires n <= |items| && ItemsRender(parent.prompt, d.output, items)
    ensures var e := AddChildren(d, parent, items, n);
            var new_ := Elements(ChildIds(parent.id, n));
            && e.dag.graph.Keys == d.graph.Keys + new_
            && e.dag.status.Keys == d.status.Keys + new_
  {
    if n == 0 {
      NoNewKeys(d, parent, items);
    } else {
      hide AddChild, AddChildren, ItemsRender, ItemPrompt, Elements, ChildIds;
      AddChildrenStep(d, parent, items, n);
      AddChildrenKeys(d, parent, items, n - 1);
      UnionStep(d.graph.Keys, Elements(ChildIds(parent.id, n - 1)), ChildId(parent.id, n - 1));
      UnionStep(d.status.Keys, Elements(ChildIds(parent.id, n - 1)), ChildId(parent.id, n - 1));
      AddChildFields(AddChildren(d, parent, items, n - 1).dag, parent.id,
                     ChildStage(parent, n - 1, ItemPrompt(parent.prompt, d.output, items[n - 1])));
      ChildIdsStep(parent.id, n);
    }
  }

  lemma {:induction false} AddChildrenFlights(d: Snapshot, parent: Stage, items: seq<string>, n: nat)
    requires n <= |items| && ItemsRender(parent.prompt, d.output, items)
    ensures var e := AddChildren(d, parent, items, n);
            var new_ := Elements(ChildIds(parent.id, n));
            && e.dag.children.Keys == d.children.Keys + new_
            && e.dag.inFlight == d.inFlight + new_
  {
    if n == 0 {
      NoNewKeys(d, parent, items);
    } else {
      hide AddChild, AddChildren, ItemsRender, ItemPrompt, Elements, ChildIds;
      AddChildrenStep(d, parent, items, n);
      AddChildrenFlights(d, parent, items, n - 1);
      UnionStep(d.children.Keys, Elements(ChildIds(parent.id, n - 1)), ChildId(parent.id, n - 1));
      UnionStep(d.inFlight, Elements(ChildIds(parent.id, n - 1)), ChildId(parent.id, n - 1));
      AddChildFields(AddChildren(d, parent, items, n - 1).dag, parent.id,
                     ChildStage(parent, n - 1, ItemPrompt(parent.prompt, d.output, items[n - 1])));
      ChildIdsStep(parent.id, n);
    }
  }

  lemma {:induction false} AddChildrenValues(d: Snapshot, parent: Stage, items: seq<string>, n: nat)
    requires n <= |items| && ItemsRender(parent.prompt, d.output, items)
    requires Elements(ChildIds(parent.id, |items|)) !! d.children.Keys
    requires Elements(ChildIds(parent.id, |items|)) !! d.graph.Keys
    ensures var e := AddChildren(d, parent, items, n);
            && (forall x :: x in e.dag.children ==>
                  e.dag.children[x] == if x in d.children then d.children[x] else parent.id)
            && (forall x :: x in d.graph ==> x in e.dag.graph && e.dag.graph[x] == d.graph[x])
            && (forall x :: x in e.dag.status ==>
                  e.dag.status[x] == if x in d.status && x !in ChildIds(parent.id, n) then d.status[x] else InProgress)
  {
    if n == 0 {
      NoNewKeys(d, parent, items);
    } else {
      hide AddChildren, AddChild, ChildIds, Elements, ItemsRender, ItemPrompt;
      AddChildrenStep(d, parent, items, n);
      AddChildrenValues(d, parent, items, n - 1);
      ChildIdListed(parent.id, n, |items|);
      AddChildValues(AddChildren(d, parent, items, n - 1).dag, parent.id,
                     ChildStage(parent, n - 1, ItemPrompt(parent.prompt, d.output, items[n - 1])));
    }
  }

  lemma ChildIdListed(m: StageId, n: nat, all: nat)
    requires 0 < n <= all
    ensures ChildId(m, n - 1) in Elements(ChildIds(m, all))
    ensures forall x :: x in ChildIds(m, n) <==> x in ChildIds(m, n - 1) || x == ChildId(m, n - 1)
  {
    ChildIdsStep(m, n);
    assert ChildIds(m, all)[n - 1] == ChildId(m, n - 1);
  }

  lemma AddChildValues(d: Snapshot, parent: StageId, child: Stage)
    ensures var d' := AddChild(d, parent, child);
            && d'.children == d.children[child.id := parent]
            && d'.graph == d.graph[child.id := child]
            && d'.status == d.status[child.id := InProgress]
  {
  }

  /** Each child is entered, and spawned, with its own item filled in. */
  lemma {:induction false} AddChildrenStages(d: Snapshot, parent: Stage, items: seq<string>, n: nat)
    requires n <= |items| && ItemsRender(parent.prompt, d.output, items)
    requires Graphs.ValidId(parent.id)
    ensures var e := AddChildren(d, parent, items, n);
            && |e.spawned| == n
            && forall i :: 0 <= i < n ==>
                 && ChildId(parent.id, i) in e.dag.graph
                 && e.spawned[i] == e.dag.graph[ChildId(parent.id, i)]
                    == ChildStage(parent, i, ItemPrompt(parent.prompt, d.output, items[i]))
  {
    hide Template.Render, ItemPrompt;
    if n > 0 {
      AddChildrenStep(d, parent, items, n);
      AddChildrenStages(d, parent, items, n - 1);
      forall i | 0 <= i < n - 1
        ensures ChildId(parent.id, i) != ChildId(parent.id, n - 1)
      {
        if ChildId(parent.id, i) == ChildId(parent.id, n - 1) {
          ChildIdInjective(parent.id, i, parent.id, n - 1);
        }
      }
    }
  }

  lemma {:induction false} DistinctCount(s: seq<StageId>)
    requires Distinct(s)
    ensures |Elements(s)| == |s|
  {
    if s != [] {
      var front, last := s[..|s| - 1], s[|s| - 1];
      DistinctCount(front);
      assert Elements(s) == Elements(front) + {last};
    }
  }

  /** The ids of new children are unused. */
  lemma ChildIdsFresh(g: Graph, children: map<StageId, StageId>, maps: map<StageId, seq<StageId>>,
                      output: map<StageId, string>, inFlight: set<StageId>, m: StageId, n: nat)
    requires Plan(g) && ChildPart(g, children, maps, output, inFlight)
    requires m in g && m !in maps
    ensures forall x :: x in Elements(ChildIds(m, n)) ==>
              x !in g && x !in children && x !in output && x !in inFlight
    ensures forall x, k :: x in Elements(ChildIds(m, n)) && k in maps ==> x !in maps[k]
  {
    forall x | x in Elements(ChildIds(m, n))
      ensures x !in g && x !in children
    {
      var i :| 0 <= i < n && x == ChildId(m, i);
      ChildIdIsNew(g, m, i);
      if x in children {
        var k := children[x];
        var j :| 0 <= j < |maps[k]| && maps[k][j] == x;
        assert x == ChildId(k, j);
        ChildIdInjective(m, i, k, j);
      }
    }
  }

  lemma MapGraph(g: Graph, graph: Graph, graph': Graph, children: map<StageId, StageId>,
                 children': map<StageId, StageId>, new_: set<StageId>)
    requires GraphPart(g, graph, children)
    requires children'.Keys == children.Keys + new_ && graph'.Keys == graph.Keys + new_
    requires new_ !! graph.Keys
    requires forall x :: x in graph ==> graph'[x] == graph[x]
    requires forall x :: x in new_ ==> graph'[x].id == x && graph'[x].kind.Agent?
    ensures GraphPart(g, graph', children')
  {
  }

  lemma UnionSize(graph: Graph, graph': Graph, new_: set<StageId>)
    requires graph'.Keys == graph.Keys + new_ && new_ !! graph.Keys
    ensures |graph'| == |graph| + |new_|
  {
    assert |graph'.Keys| == |graph.Keys| + |new_|;
  }

  lemma MapPhase(g: Graph, pending: map<StageId, nat>, inFlight: set<StageId>, expanded: set<StageId>,
                 w: set<StageId>, l: set<StageId>, id: StageId, new_: set<StageId>)
    requires PhasePart(g, pending, inFlight, expanded, w, l)
    requires forall x :: x in pending ==> x in g
    requires id in w && id in g && g[id].kind.Map? && new_ !! g.Keys
    ensures PhasePart(g, pending, inFlight + new_, expanded + {id}, w - {id}, l)
    ensures PhasePart(g, pending, inFlight + new_, expanded, w - {id}, l + {id})
  {
  }

  lemma MapChildren(g: Graph, children: map<StageId, StageId>, children': map<StageId, StageId>,
                    maps: map<StageId, seq<StageId>>, output: map<StageId, string>, inFlight: set<StageId>,
                    id: StageId, n: nat)
    requires ChildPart(g, children, maps, output, inFlight)
    requires id in g && g[id].kind.Map? && id !in maps
    requires var new_ := Elements(ChildIds(id, n));
             && children'.Keys == children.Keys + new_
             && (forall x :: x in children' ==> children'[x] == if x in children then children[x] else id)
             && (forall x :: x in new_ ==> x !in children && x !in output && x !in inFlight)
    ensures ChildPart(g, children', maps[id := ChildIds(id, n)], output, inFlight + Elements(ChildIds(id, n)))
  {
    var ids := ChildIds(id, n);
    assert forall x :: x in Elements(ids) <==> x in ids;
    MoreChildren(g, children, children', maps, output, inFlight, id, ids);
  }

  lemma MoreChildren(g: Graph, children: map<StageId, StageId>, children': map<StageId, StageId>,
                     maps: map<StageId, seq<StageId>>, output: map<StageId, string>, inFlight: set<StageId>,
                     id: StageId, ids: seq<StageId>)
    requires ChildPart(g, children, maps, output, inFlight)
    requires id in g && g[id].kind.Map? && id !in maps && ids == ChildIds(id, |ids|)
    requires forall x :: x in children' <==> x in children || x in ids
    requires forall x :: x in children' ==> children'[x] == if x in children then children[x] else id
    requires forall x :: x in ids ==> x !in children && x !in output && x !in inFlight
    ensures ChildPart(g, children', maps[id := ids], output, inFlight + Elements(ids))
  {
    hide ChildIds;
  }

  lemma MapMaps(g: Graph, maps: map<StageId, seq<StageId>>, mapRemaining: map<StageId, nat>,
                output: map<StageId, string>, l: set<StageId>, id: StageId, n: nat)
    requires MapPart(g, maps, mapRemaining, output, l)
    requires id in g && g[id].kind.Map? && id !in maps && Graphs.ValidId(id)
    requires forall x :: x in Elements(ChildIds(id, n)) ==> x !in output
    ensures n > 0 ==> MapPart(g, maps[id := ChildIds(id, n)], mapRemaining[id := n], output, l)
    ensures n == 0 ==> MapPart(g, maps[id := ChildIds(id, n)], mapRemaining, output, l + {id})
  {
    ChildIdsDistinct(id, n);
    DistinctCount(ChildIds(id, n));
    assert Open(ChildIds(id, n), output) == Elements(ChildIds(id, n));
  }

  lemma MapStatus(status: map<StageId, StageStatus>, status': map<StageId, StageStatus>, graph: Graph, graph': Graph,
                  output: map<StageId, string>, inFlight: set<StageId>, maps: map<StageId, seq<StageId>>,
                  l: set<StageId>, l': set<StageId>, id: StageId, ids: seq<StageId>)
    requires StatusPart(status, graph, output, inFlight, maps, l)
    requires id in graph && id !in output && l <= l'
    requires graph'.Keys == graph.Keys + Elements(ids) && status'.Keys == status.Keys + Elements(ids)
    requires forall x :: x in status' ==>
               status'[x] == if x in status && x !in ids then status[x] else InProgress
    requires forall x :: x in Elements(ids) ==> x !in output
    ensures StatusPart(status'[id := InProgress], graph', output, inFlight + Elements(ids), maps[id := ids], l')
  {
  }

  /** A waiting map has its source's output at hand. */
  lemma SourceAvailable(g: Graph, d: Snapshot, w: set<StageId>, l: set<StageId>, id: StageId)
    requires Plan(g) && Inv(g, d, w, l) && id in w && g[id].kind.Map?
    ensures g[id].over.Some? && g[id].over.value in g && g[id].over.value in d.graph && g[id].over.value in d.output
    ensures id in g && d.graph[id] == g[id] && id !in d.maps && id !in d.output
  {
    hide EdgesPart, ChildPart, StatusPart, ReadyPart;
    AgentWaits(g, d, w, l, id);
    assert Unmet(g, d.output, id) == {};
    var source := g[id].over.value;
    assert source in g[id].needs;
    assert source !in Unmet(g, d.output, id);
  }

  lemma ItemsCanRender(g: Graph, output: map<StageId, string>, pending: map<StageId, nat>, id: StageId,
                       items: seq<string>)
    requires CountPart(g, output, pending) && id in pending && pending[id] == 0
    requires Plan(g)
    ensures ItemsRender(g[id].prompt, output, items)
  {
    forall i | 0 <= i < |items|
      ensures Template.Render(g[id].prompt, output, Some(items[i])).Ok?
    {
      ReadyPromptRenders(g, output, pending, id, Some(items[i]));
    }
  }

  /** The items of a map and whether there is room for them. */
  ghost function MapItems(c: Codec, d: Snapshot, stage: Stage): Result<seq<string>, string>
    requires stage.over.Some? && stage.over.value in d.graph && stage.over.value in d.output
  {
    c.parse(d.output[stage.over.value], SourceSchema(d.graph, stage.over.value))
  }

  lemma PlanIds(g: Graph, id: StageId)
    requires Plan(g) && id in g
    ensures g[id].id == id && Graphs.ValidId(id)
  {
  }

  lemma GraphKnows(g: Graph, graph: Graph, children: map<StageId, StageId>)
    requires GraphPart(g, graph, children)
    ensures graph.Keys == g.Keys + children.Keys
  {
  }

  lemma ChildrenAreAgents(d: Snapshot, parent: Stage, items: seq<string>)
    requires ItemsRender(parent.prompt, d.output, items) && Graphs.ValidId(parent.id)
    ensures var d' := AddChildren(d, parent, items, |items|).dag;
            forall x :: x in Elements(ChildIds(parent.id, |items|)) ==>
              x in d'.graph && d'.graph[x].id == x && d'.graph[x].kind.Agent?
  {
    AddChildrenStages(d, parent, items, |items|);
  }

  lemma ExpandGraph(g: Graph, d: Snapshot, parent: Stage, items: seq<string>)
    requires Plan(g) && GraphPart(g, d.graph, d.children)
    requires ChildPart(g, d.children, d.maps, d.output, d.inFlight)
    requires parent.id in g && parent.id !in d.maps
    requires ItemsRender(parent.prompt, d.output, items)
    ensures var d' := AddChildren(d, parent, items, |items|).dag; GraphPart(g, d'.graph, d'.children)
  {
    hide Plan, GraphPart, ChildPart, AddChildren, ItemsRender;
    PlanIds(g, parent.id);
    GraphKnows(g, d.graph, d.children);
    var id, n := parent.id, |items|;
    var new_ := Elements(ChildIds(id, n));
    var d' := AddChildren(d, parent, items, n).dag;
    ChildIdsFresh(g, d.children, d.maps, d.output, d.inFlight, id, n);
    AddChildrenFlights(d, parent, items, n);
    AddChildrenKeys(d, parent, items, n);
    AddChildrenValues(d, parent, items, n);
    ChildrenAreAgents(d, parent, items);
    MapGraph(g, d.graph, d'.graph, d.children, d'.children, new_);
  }

  lemma ExpandSize(g: Graph, d: Snapshot, parent: Stage, items: seq<string>)
    requires Plan(g) && GraphPart(g, d.graph, d.children)
    requires ChildPart(g, d.children, d.maps, d.output, d.inFlight)
    requires parent.id in g && parent.id !in d.maps
    requires ItemsRender(parent.prompt, d.output, items)
    ensures |AddChildren(d, parent, items, |items|).dag.graph| == |d.graph| + |items|
  {
    var id, n := parent.id, |items|;
    ChildIdsFresh(g, d.children, d.maps, d.output, d.inFlight, id, n);
    ChildIdsDistinct(id, n);
    DistinctCount(ChildIds(id, n));
    AddChildrenKeys(d, parent, items, n);
    UnionSize(d.graph, AddChildren(d, parent, items, n).dag.graph, Elements(ChildIds(id, n)));
  }

  lemma ExpandChildren(g: Graph, d: Snapshot, parent: Stage, items: seq<string>)
    requires Plan(g) && GraphPart(g, d.graph, d.children)
    requires ChildPart(g, d.children, d.maps, d.output, d.inFlight)
    requires parent.id in g && parent.id !in d.maps && parent.kind.Map? && g[parent.id] == parent
    requires ItemsRender(parent.prompt, d.output, items)
    ensures var d' := AddChildren(d, parent, items, |items|).dag;
            ChildPart(g, d'.children, d.maps[parent.id := ChildIds(parent.id, |items|)], d.output, d'.inFlight)
  {
    hide Plan, GraphPart, ChildPart, AddChildren, ItemsRender;
    GraphKnows(g, d.graph, d.children);
    var n := |items|;
    ChildIdsFresh(g, d.children, d.maps, d.output, d.inFlight, parent.id, n);
    AddChildrenFlights(d, parent, items, n);
    AddChildrenValues(d, parent, items, n);
    MapChildren(g, d.children, AddChildren(d, parent, items, n).dag.children, d.maps, d.output, d.inFlight, parent.id,
                n);
  }

  lemma ExpandStatus(g: Graph, d: Snapshot, parent: Stage, items: seq<string>, l: set<StageId>, l': set<StageId>)
    requires Plan(g) && GraphPart(g, d.graph, d.children)
    requires ChildPart(g, d.children, d.maps, d.output, d.inFlight)
    requires StatusPart(d.status, d.graph, d.output, d.inFlight, d.maps, l) && l <= l'
    requires parent.id in g && parent.id !in d.maps && parent.id !in d.output
    requires ItemsRender(parent.prompt, d.output, items)
    ensures var ids := ChildIds(parent.id, |items|);
            var d' := AddChildren(d, parent, items, |items|).dag;
            StatusPart(d'.status[parent.id := InProgress], d'.graph, d.output, d'.inFlight,
                       d.maps[parent.id := ids], l')
  {
    hide Plan, GraphPart, ChildPart, StatusPart, AddChildren, ItemsRender;
    GraphKnows(g, d.graph, d.children);
    var n := |items|;
    var d' := AddChildren(d, parent, items, n).dag;
    ChildIdsFresh(g, d.children, d.maps, d.output, d.inFlight, parent.id, n);
    AddChildrenFlights(d, parent, items, n);
    AddChildrenKeys(d, parent, items, n);
    AddChildrenValues(d, parent, items, n);
    MapStatus(d.status, d'.status, d.graph, d'.graph, d.output, d.inFlight, d.maps,
              l, l', parent.id, ChildIds(parent.id, n));
  }

  lemma ExpandPhase(g: Graph, d: Snapshot, w: set<StageId>, l: set<StageId>, parent: Stage, items: seq<string>)
    requires Plan(g) && forall id :: id in d.pending ==> id in g
    requires ChildPart(g, d.children, d.maps, d.output, d.inFlight)
    requires PhasePart(g, d.pending, d.inFlight, d.mapRemaining.Keys, w, l)
    requires parent.id in g && parent.id in w && parent.id !in d.maps && g[parent.id] == parent && parent.kind.Map?
    requires ItemsRender(parent.prompt, d.output, items)
    ensures var d' := Register(AddChildren(d, parent, items, |items|).dag, parent.id, |items|);
            PhasePart(g, d'.pending, d'.inFlight, d'.mapRemaining.Keys, w - {parent.id},
                      if items == [] then l + {parent.id} else l)
  {
    hide Plan, ChildPart, CountPart, PhasePart, AddChildren, ItemsRender;
    var id, n := parent.id, |items|;
    var d' := Register(AddChildren(d, parent, items, n).dag, id, n);
    AddChildrenFrame(d, parent, items, n);
    AddChildrenFlights(d, parent, items, n);
    ChildIdsFresh(g, d.children, d.maps, d.output, d.inFlight, id, n);
    MapPhase(g, d.pending, d.inFlight, d.mapRemaining.Keys, w, l, id, Elements(ChildIds(id, n)));
    assert n != 0 ==> d'.mapRemaining.Keys == d.mapRemaining.Keys + {id};
  }

  lemma ExpandMaps(g: Graph, d: Snapshot, l: set<StageId>, parent: Stage, items: seq<string>)
    requires Plan(g)
    requires ChildPart(g, d.children, d.maps, d.output, d.inFlight)
    requires MapPart(g, d.maps, d.mapRemaining, d.output, l)
    requires parent.id in g && parent.id !in d.maps && g[parent.id] == parent && parent.kind.Map?
    requires ItemsRender(parent.prompt, d.output, items)
    ensures var d' := Register(AddChildren(d, parent, items, |items|).dag, parent.id, |items|);
            MapPart(g, d'.maps, d'.mapRemaining, d'.output, if items == [] then l + {parent.id} else l)
  {
    AddChildrenFrame(d, parent, items, |items|);
    ChildIdsFresh(g, d.children, d.maps, d.output, d.inFlight, parent.id, |items|);
    MapMaps(g, d.maps, d.mapRemaining, d.output, l, parent.id, |items|);
  }

  lemma KnownPending(g: Graph, output: map<StageId, string>, pending: map<StageId, nat>)
    requires CountPart(g, output, pending)
    ensures forall x :: x in pending ==> x in g
  {
  }

  lemma ReadyRemains(ready: seq<StageId>, w: set<StageId>, id: StageId)
    requires ReadyPart(ready, w) && id !in ready
    ensures ReadyPart(ready, w - {id})
  {
  }

  lemma ExpandKeepsInv(g: Graph, d: Snapshot, w: set<StageId>, l: set<StageId>, id: StageId, items: seq<string>)
    requires Plan(g) && Inv(g, d, w, l) && id in w && id !in d.ready && id in g && g[id].kind.Map?
    requires |d.graph| + |items| <= d.cap
    requires ItemsRender(g[id].prompt, d.output, items) && id !in d.maps && id !in d.output
    ensures var e := AddChildren(d, g[id], items, |items|);
            var d' := Register(e.dag, id, |items|);
            && e.failure.None?
            && Inv(g, d', w - {id}, if items == [] then l + {id} else l)
            && d'.ready == d.ready && d'.pending == d.pending && d'.output == d.output
  {
    hide Plan, GraphPart, EdgesPart, CountPart, PhasePart, ChildPart, MapPart, StatusPart, ReadyPart, AddChildren,
         ItemsRender;
    var l' := if items == [] then l + {id} else l;
    PlanIds(g, id);
    KnownPending(g, d.output, d.pending);
    ReadyRemains(d.ready, w, id);
    AddChildrenFrame(d, g[id], items, |items|);
    ExpandGraph(g, d, g[id], items);
    ExpandSize(g, d, g[id], items);
    ExpandPhase(g, d, w, l, g[id], items);
    ExpandChildren(g, d, g[id], items);
    ExpandMaps(g, d, l, g[id], items);
    ExpandStatus(g, d, g[id], items, l, l');
  }

  lemma DegradedIrrelevant(g: Graph, d: Snapshot, w: set<StageId>, l: set<StageId>, degraded: bool)
    requires Inv(g, d, w, l)
    ensures Inv(g, d.(degraded := degraded), w, l)
  {
  }

  /** What emitting one waiting stage must leave behind. */
  ghost predicate Emitted(g: Graph, d: Snapshot, w: set<StageId>, l: set<StageId>, id: StageId, e: Emission) {
    match e.failure
    case Some(reason) => reason != Panic
    case None =>
      && (e.empty == [] || e.empty == [id])
      && Inv(g, e.dag, w - {id}, l + Elements(e.empty))
      && e.dag.ready == d.ready && e.dag.pending == d.pending && e.dag.output == d.output
  }

  lemma NothingAdded(l: set<StageId>)
    ensures l + Elements([]) == l
  {
  }

  lemma OneAdded(id: StageId)
    ensures Elements([id]) == {id}
  {
  }

  lemma EmitMapEmitted(g: Graph, c: Codec, d: Snapshot, w: set<StageId>, l: set<StageId>, id: StageId)
    requires Plan(g) && Inv(g, d, w, l) && id in w && id !in d.ready && id in g && g[id].kind.Map?
    ensures Emitted(g, d, w, l, id, EmitMap(c, d, g[id]))
  {
    hide Plan, Inv;
    SourceAvailable(g, d, w, l, id);
    var items := MapItems(c, d, g[id]);
    if items.Ok? && |d.graph| + |items.value| <= d.cap {
      var d1 := d.(degraded := d.degraded || items.value == []);
      WaitingItemsRender(g, d, w, l, id, items.value);
      DegradedIrrelevant(g, d, w, l, d1.degraded);
      PlanIds(g, id);
      ExpandKeepsInv(g, d1, w, l, id, items.value);
      NothingAdded(l);
      OneAdded(id);
    }
  }

  lemma WaitingItemsRender(g: Graph, d: Snapshot, w: set<StageId>, l: set<StageId>, id: StageId, items: seq<string>)
    requires Plan(g) && Inv(g, d, w, l) && id in w
    ensures id in g && ItemsRender(g[id].prompt, d.output, items)
  {
    ItemsCanRender(g, d.output, d.pending, id, items);
  }

  lemma WaitingIsKnown(g: Graph, d: Snapshot, w: set<StageId>, l: set<StageId>, id: StageId)
    requires Inv(g, d, w, l) && id in w
    ensures id in d.pending && id in g && id in d.graph && d.graph[id] == g[id]
  {
  }

  lemma EmitOneEmitted(g: Graph, c: Codec, d: Snapshot, w: set<StageId>, l: set<StageId>, id: StageId)
    requires Plan(g) && Inv(g, d, w, l) && id in w && id !in d.ready
    ensures Emitted(g, d, w, l, id, EmitOne(c, d, id))
  {
    hide Plan, Inv;
    WaitingIsKnown(g, d, w, l, id);
    if g[id].kind.Map? {
      EmitMapEmitted(g, c, d, w, l, id);
    } else {
      EmitAgentKeepsInv(g, d, w, l, id);
      NothingAdded(l);
    }
  }

  // ----- a whole wave -----

  /** What emitting the first `n` of the stages `ids` must leave behind. */
  ghost predicate EmittedMany(g: Graph, d: Snapshot, ids: seq<StageId>, n: nat, e: Emission)
    requires n <= |ids|
  {
    match e.failure
    case Some(reason) => reason != Panic
    case None =>
      && Inv(g, e.dag, Elements(ids[n..]), Elements(e.empty))
      && e.dag.ready == [] && e.dag.pending == d.pending && e.dag.output == d.output
      && Distinct(e.empty)
      && (forall x :: x in e.empty ==> x in ids[..n])
  }

  lemma TakeNext(ids: seq<StageId>, n: nat)
    requires 0 < n <= |ids| && Distinct(ids)
    ensures ids[n - 1] in Elements(ids[n - 1..])
    ensures Elements(ids[n - 1..]) - {ids[n - 1]} == Elements(ids[n..])
    ensures forall x :: x in ids[..n] <==> x in ids[..n - 1] || x == ids[n - 1]
    ensures ids[n - 1] !in ids[..n - 1]
  {
  }

  lemma AppendElements(a: seq<StageId>, b: seq<StageId>)
    ensures Elements(a + b) == Elements(a) + Elements(b)
  {
  }

  lemma {:induction false} EmitIdsEmitted(g: Graph, c: Codec, d: Snapshot, ids: seq<StageId>, n: nat)
    requires Plan(g) && n <= |ids| && Distinct(ids)
    requires Inv(g, d, Elements(ids), {}) && d.ready == []
    ensures EmittedMany(g, d, ids, n, EmitIds(c, d, ids, n))
    decreases n
  {
    hide Plan, Inv, EmitOne;
    if n == 0 {
      assert ids[0..] == ids;
      assert Elements([]) == {};
    } else {
      EmitIdsEmitted(g, c, d, ids, n - 1);
      var e := EmitIds(c, d, ids, n - 1);
      if e.failure.None? {
        TakeNext(ids, n);
        var id := ids[n - 1];
        EmitOneEmitted(g, c, e.dag, Elements(ids[n - 1..]), Elements(e.empty), id);
        AppendElements(e.empty, EmitOne(c, e.dag, id).empty);
      }
    }
  }

  ghost predicate SettledMany(g: Graph, d: Snapshot, ids: seq<StageId>, n: nat, d': Snapshot)
    requires n <= |ids|
  {
    && Inv(g, d', Elements(d'.ready), Elements(ids[n..]))
    && d'.pending.Keys == d.pending.Keys - Elements(ids[..n])
  }

  lemma ReadyAfterSettle(g: Graph, d: Snapshot, w: set<StageId>, l: set<StageId>, id: StageId, answer: string)
    requires Plan(g) && Inv(g, d, w, l) && id in l && w == Elements(d.ready)
    ensures var d' := Settle(d, id, answer);
            && Inv(g, d', Elements(d'.ready), l - {id})
            && d'.pending.Keys == d.pending.Keys - {id}
  {
    hide Plan, Inv;
    SettleKeepsInv(g, d, w, l, id, answer);
    var d' := Settle(d, id, answer);
    assert Elements(d'.ready) == w + Freed(d, id);
  }

  lemma {:induction false} SettleEmptySettled(g: Graph, d: Snapshot, ids: seq<StageId>, n: nat)
    requires Plan(g) && n <= |ids| && Distinct(ids)
    requires Inv(g, d, {}, Elements(ids)) && d.ready == []
    ensures SettledMany(g, d, ids, n, SettleEmpty(d, ids, n))
    decreases n
  {
    hide Plan, Inv;
    if n == 0 {
      assert ids[0..] == ids;
      assert Elements(d.ready) == {};
    } else {
      SettleEmptySettled(g, d, ids, n - 1);
      TakeNext(ids, n);
      var before := SettleEmpty(d, ids, n - 1);
      ReadyAfterSettle(g, before, Elements(before.ready), Elements(ids[n - 1..]), ids[n - 1], "[]");
      assert Elements(ids[..n]) == Elements(ids[..n - 1]) + {ids[n - 1]};
    }
  }

  /** What a wave must leave behind. */
  ghost predicate WaveDone(g: Graph, d: Snapshot, e: Emission) {
    match e.failure
    case Some(reason) => reason != Panic
    case None =>
      && Inv(g, e.dag, Elements(e.dag.ready), {})
      && (e.dag.ready == [] || |e.dag.pending| < |d.pending|)
  }

  lemma TakeReady(g: Graph, d: Snapshot)
    requires Inv(g, d, Elements(d.ready), {})
    ensures Inv(g, d.(ready := []), Elements(d.ready), {})
    ensures Distinct(d.ready)
    ensures forall x :: x in d.ready ==> x in d.pending
  {
    OrderedDistinct(d.ready);
  }

  lemma FewerPending(p: map<StageId, nat>, p': map<StageId, nat>, gone: set<StageId>)
    requires p'.Keys == p.Keys - gone && gone <= p.Keys && gone != {}
    ensures |p'| < |p|
  {
    assert p'.Keys < p.Keys;
    SmallerSet(p'.Keys, p.Keys);
  }

  lemma SmallerSet(a: set<StageId>, b: set<StageId>)
    requires a < b
    ensures |a| < |b|
  {
    assert |b| == |a| + |b - a| by {
      assert b == a + (b - a);
    }
  }

  lemma WholeSlice(ids: seq<StageId>)
    ensures ids[..|ids|] == ids && ids[|ids|..] == [] && Elements(ids[|ids|..]) == {}
    ensures ids != [] ==> Elements(ids) != {}
  {
    if ids != [] {
      assert ids[0] in Elements(ids);
    }
  }

  lemma EmptyMapsSettled(g: Graph, d: Snapshot, e: Emission)
    requires Plan(g) && (forall x :: x in d.ready ==> x in d.pending)
    requires e.failure.None? && EmittedMany(g, d, d.ready, |d.ready|, e)
    ensures WaveDone(g, d, e.(dag := SettleEmpty(e.dag, e.empty, |e.empty|)))
  {
    hide Plan, Inv, SettleEmpty;
    WholeSlice(d.ready);
    SettleEmptySettled(g, e.dag, e.empty, |e.empty|);
    var d' := SettleEmpty(e.dag, e.empty, |e.empty|);
    WholeSlice(e.empty);
    if e.empty != [] {
      FewerPending(d.pending, d'.pending, Elements(e.empty));
    } else {
      assert SettleEmpty(e.dag, e.empty, 0) == e.dag by { SettleNothing(e.dag, e.empty); }
    }
  }

  lemma SettleNothing(d: Snapshot, ids: seq<StageId>)
    ensures SettleEmpty(d, ids, 0) == d
  {
  }

  lemma WaveKeepsInv(g: Graph, c: Codec, d: Snapshot)
    requires Plan(g) && Inv(g, d, Elements(d.ready), {})
    ensures WaveDone(g, d, EmitWave(c, d))
  {
    hide Plan, Inv, EmitIds, SettleEmpty;
    TakeReady(g, d);
    var d1 := d.(ready := []);
    EmitIdsEmitted(g, c, d1, d.ready, |d.ready|);
    var e := EmitIds(c, d1, d.ready, |d.ready|);
    if e.failure.None? {
      EmptyMapsSettled(g, d, e);
    }
  }

  /** Emission ends with nothing ready, or with a genuine failure. */
  lemma {:induction false} WavesKeepInv(g: Graph, c: Codec, d: Snapshot, spawned: seq<Stage>)
    requires Plan(g) && Inv(g, d, Elements(d.ready), {})
    ensures var e := EmitWaves(c, d, spawned);
            if e.failure.Some? then e.failure.value != Panic else Inv(g, e.dag, {}, {}) && e.dag.ready == []
    decreases |d.pending|
  {
    hide Plan, Inv, EmitWave;
    assert Elements([]) == {};
    if d.ready != [] {
      WaveKeepsInv(g, c, d);
      var e := EmitWave(c, d);
      if e.failure.None? && e.dag.ready != [] {
        WavesKeepInv(g, c, e.dag, spawned + e.spawned);
      }
    }
  }
}

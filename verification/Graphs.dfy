/** Structural validation of a stage graph before anything runs. */
module Graphs {
  import opened Wrappers
  import opened Ids
  import opened Reach
  import Bits
  import Text
  import Template

  datatype GraphError =
    | BadSize(cap: nat)
    | BadId(id: StageId)
    | EmptyPrompt(id: StageId)
    | BadSchema(id: StageId, schema: string)
    | MapRequiresOver(id: StageId)
    | OverRequiresMap(id: StageId)
    | Duplicate(id: StageId)
    | UnknownDependency(id: StageId, dep: StageId)
    | SourceRequiresSchema(source: StageId)
    | BadTemplate(reason: Template.TemplateError)
    | Cycle(involving: seq<StageId>)

  /** A sorted map of stages: its keys in iteration order, and its content. */
  datatype StageMap = StageMap(ids: seq<StageId>, stage: Graph)

  predicate IdChar(c: char) {
    || 'a' <= c <= 'z'
    || 'A' <= c <= 'Z'
    || '0' <= c <= '9'
    || c == '_'
    || c == '-'
  }

  predicate ValidId(id: StageId) {
    id != [] && forall k :: 0 <= k < |id| ==> IdChar(id[k])
  }

  predicate KnownSchema(schema: string) {
    schema == "string[]" || schema == "json[]"
  }

  /** What a stage must satisfy on its own. */
  predicate LocallyValid(s: Stage) {
    && ValidId(s.id)
    && Text.Trim(s.prompt) != []
    && (s.schema.Some? ==> KnownSchema(s.schema.value))
    && (s.kind.Map? <==> s.over.Some?)
  }

  /** The stage as stored: a map also needs its source, and needs are sorted
      without repetition. */
  function Normal(s: Stage): Stage {
    var needs :=
      if s.kind.Map? && s.over.Some? && s.over.value !in s.needs then s.needs + [s.over.value] else s.needs;
    s.(needs := SortDedup(needs))
  }

  lemma NormalNeeds(s: Stage)
    ensures Ordered(Normal(s).needs)
    ensures forall d :: d in Normal(s).needs <==> d in s.needs || (s.kind.Map? && s.over == Some(d))
  {
    var needs :=
      if s.kind.Map? && s.over.Some? && s.over.value !in s.needs then s.needs + [s.over.value] else s.needs;
    SortDedupMeaning(needs);
  }

  ghost predicate DistinctIds(stages: seq<Stage>) {
    forall i, j :: 0 <= i < j < |stages| ==> stages[i].id != stages[j].id
  }

  ghost predicate AllLocallyValid(stages: seq<Stage>) {
    forall k :: 0 <= k < |stages| ==> LocallyValid(stages[k])
  }

  /** The stored form of a list of stages. */
  function Stored(stages: seq<Stage>): Graph {
    if stages == [] then map[]
    else
      var s := stages[|stages| - 1];
      Stored(stages[..|stages| - 1])[s.id := Normal(s)]
  }

  lemma {:induction false} StoredContent(stages: seq<Stage>)
    requires DistinctIds(stages)
    ensures forall k :: 0 <= k < |stages| ==>
              stages[k].id in Stored(stages) && Stored(stages)[stages[k].id] == Normal(stages[k])
    ensures forall id :: id in Stored(stages) ==> exists k :: 0 <= k < |stages| && stages[k].id == id
  {
    if stages != [] {
      var front := stages[..|stages| - 1];
      StoredContent(front);
      assert forall k :: 0 <= k < |front| ==> stages[k] == front[k];
    }
  }

  /** Stage `a` may refer to `b` in its prompt. */
  ghost function Upstream(g: Graph, a: StageId): string -> bool {
    b => Reaches(g, a, b)
  }

  predicate SourceOk(g: Graph, s: Stage) {
    s.over.Some? ==>
      s.over.value in g && (g[s.over.value].schema.Some? || g[s.over.value].kind.Map?)
  }

  predicate Resolved(g: Graph, s: Stage) {
    && (forall k :: 0 <= k < |s.needs| ==> s.needs[k] in g)
    && SourceOk(g, s)
  }

  ghost predicate TemplateOk(g: Graph, a: StageId)
    requires a in g
  {
    Template.ValidTemplate(g[a].prompt, Upstream(g, a), g[a].kind.Map?)
  }

  /** The acceptance condition, without waves or bit sets. */
  ghost predicate Acceptable(stages: seq<Stage>, cap: nat) {
    && 1 <= |stages| <= cap
    && AllLocallyValid(stages)
    && DistinctIds(stages)
    && var g := Stored(stages);
       && (forall id :: id in g ==> Resolved(g, g[id]))
       && Acyclic(g)
       && (forall id :: id in g ==> TemplateOk(g, id))
  }

  /** An ASCII letter or digit, an underscore or a hyphen, by code point. */
  ghost predicate GoodChar(c: char) {
    var n := c as int;
    97 <= n <= 122 || 65 <= n <= 90 || 48 <= n <= 57 || n == 95 || n == 45
  }

  ghost predicate BadName(id: StageId) {
    id == "" || exists k :: 0 <= k < |id| && !GoodChar(id[k])
  }

  /** What the first local check that fails says of the stage. */
  ghost predicate Faulty(s: Stage, error: GraphError) {
    match error
    case BadId(id) => id == s.id && BadName(s.id)
    case EmptyPrompt(id) => id == s.id && !BadName(s.id) && Text.AllWhitespace(s.prompt)
    case BadSchema(id, schema) => id == s.id && s.schema == Some(schema) && schema != "string[]" && schema != "json[]"
    case MapRequiresOver(id) => id == s.id && s.kind.Map? && s.over.None?
    case OverRequiresMap(id) => id == s.id && s.kind.Agent? && s.over.Some?
    case _ => false
  }

  ghost predicate Faultless(s: Stage) {
    && !BadName(s.id)
    && !Text.AllWhitespace(s.prompt)
    && (s.schema == None || s.schema == Some("string[]") || s.schema == Some("json[]"))
    && (if s.kind.Map? then s.over.Some? else s.over.None?)
  }

  lemma NamesMeaning(id: StageId)
    ensures ValidId(id) <==> !BadName(id)
  {
  }

  lemma EmptyMeaning(prompt: string)
    ensures Text.Trim(prompt) == "" <==> Text.AllWhitespace(prompt)
  {
    hide Text.IsWhitespace, Text.Trim;
    var front, back := Text.TrimMeaning(prompt);
    if Text.Trim(prompt) == "" {
      assert prompt == front + back;
    } else {
      assert prompt[|front|] == Text.Trim(prompt)[0];
    }
  }

  lemma LocalMeaning(s: Stage)
    ensures LocallyValid(s) <==> Faultless(s)
  {
    hide ValidId, BadName, Text.Trim;
    NamesMeaning(s.id);
    EmptyMeaning(s.prompt);
  }

  /** Local checks on one stage, in the order they are made. */
  method CheckStage(s: Stage) returns (r: Result<Stage, GraphError>)
    ensures r.Ok? <==> Faultless(s)
    ensures r.Err? ==> Faulty(s, r.error)
    ensures r.Ok? <==> LocallyValid(s)
    ensures r.Ok? ==> r.value == Normal(s)
    ensures r.Err? ==> !r.error.Cycle? && !r.error.BadTemplate?
  {
    hide ValidId, BadName, Text.Trim;
    LocalMeaning(s);
    NamesMeaning(s.id);
    EmptyMeaning(s.prompt);
    if !ValidId(s.id) {
      return Err(BadId(s.id));
    }
    if Text.Trim(s.prompt) == [] {
      return Err(EmptyPrompt(s.id));
    }
    if s.schema.Some? && !KnownSchema(s.schema.value) {
      return Err(BadSchema(s.id, s.schema.value));
    }
    var needs := s.needs;
    match (s.kind, s.over) {
      case (Map, Some(over)) =>
        if over !in needs {
          needs := needs + [over];
        }
      case (Map, None) =>
        return Err(MapRequiresOver(s.id));
      case (Agent, Some(_)) =>
        return Err(OverRequiresMap(s.id));
      case (Agent, None) =>
    }
    r := Ok(s.(needs := SortDedup(needs)));
  }

  ghost predicate Keyed(m: StageMap) {
    && (forall id :: id in m.ids <==> id in m.stage)
    && (forall id :: id in m.stage ==> m.stage[id].id == id)
  }

  /** Checks one stage and enters it into the sorted map. */
  method Enter(m: StageMap, s: Stage) returns (r: Result<StageMap, GraphError>)
    requires Keyed(m) && Ordered(m.ids)
    ensures r.Ok? <==> LocallyValid(s) && s.id !in m.stage
    ensures r.Ok? ==> r.value.stage == m.stage[s.id := Normal(s)] && Keyed(r.value) && Ordered(r.value.ids)
    ensures r.Err? ==> Faulty(s, r.error) || (r.error == Duplicate(s.id) && s.id in m.stage)
  {
    var checked := CheckStage(s);
    if checked.Err? {
      return Err(checked.error);
    }
    if s.id in m.stage {
      return Err(Duplicate(s.id));
    }
    InsertMember(m.ids, s.id);
    InsertOrdered(m.ids, s.id);
    r := Ok(StageMap(Insert(m.ids, s.id), m.stage[s.id := checked.value]));
  }

  /** One more stage can be entered exactly when it is valid and new. */
  lemma EnterNext(stages: seq<Stage>, k: nat)
    requires k < |stages| && AllLocallyValid(stages[..k]) && DistinctIds(stages[..k])
    ensures LocallyValid(stages[k]) && stages[k].id !in Stored(stages[..k]) ==>
              AllLocallyValid(stages[..k + 1]) && DistinctIds(stages[..k + 1])
    ensures AllLocallyValid(stages) && DistinctIds(stages) ==>
              LocallyValid(stages[k]) && stages[k].id !in Stored(stages[..k])
    ensures Stored(stages[..k + 1]) == Stored(stages[..k])[stages[k].id := Normal(stages[k])]
  {
    StoredContent(stages[..k]);
    assert stages[..k + 1][..k] == stages[..k];
    assert stages[..k + 1] == stages[..k] + [stages[k]];
  }

  /** A stage that is faulty on its own, or the second of its id. */
  ghost predicate LocalFault(stages: seq<Stage>, error: GraphError) {
    || (exists k :: 0 <= k < |stages| && Faulty(stages[k], error))
    || (error.Duplicate? && exists j, k :: 0 <= j < k < |stages| && stages[j].id == stages[k].id == error.id)
  }

  lemma EnterFails(stages: seq<Stage>, k: nat, error: GraphError)
    requires k < |stages| && DistinctIds(stages[..k])
    requires Faulty(stages[k], error) || (error == Duplicate(stages[k].id) && stages[k].id in Stored(stages[..k]))
    ensures LocalFault(stages, error)
  {
    hide Faulty;
    if !Faulty(stages[k], error) {
      StoredContent(stages[..k]);
      var j :| 0 <= j < |stages[..k]| && stages[..k][j].id == stages[k].id;
      assert stages[j].id == stages[k].id;
    }
  }

  /** Collects the stages into the sorted map. */
  method Collect(stages: seq<Stage>) returns (r: Result<StageMap, GraphError>)
    ensures r.Ok? <==> AllLocallyValid(stages) && DistinctIds(stages)
    ensures r.Ok? ==> r.value.stage == Stored(stages) && Keyed(r.value) && Ordered(r.value.ids)
    ensures r.Err? ==> LocalFault(stages, r.error)
  {
    var m := StageMap([], map[]);
    for k := 0 to |stages|
      invariant AllLocallyValid(stages[..k]) && DistinctIds(stages[..k])
      invariant m.stage == Stored(stages[..k]) && Keyed(m) && Ordered(m.ids)
    {
      EnterNext(stages, k);
      r := Enter(m, stages[k]);
      if r.Err? {
        EnterFails(stages, k, r.error);
        return;
      }
      m := r.value;
    }
    assert stages[..|stages|] == stages;
    r := Ok(m);
  }

  /** A need that is no stage, or a map over an agent without a schema. */
  ghost predicate Dangling(g: Graph, error: GraphError) {
    match error
    case UnknownDependency(id, dep) => id in g && dep in g[id].needs && dep !in g
    case SourceRequiresSchema(source) =>
      source in g && g[source].schema.None? && g[source].kind.Agent? && IsSource(g, source)
    case _ => false
  }

  ghost predicate IsSource(g: Graph, source: StageId) {
    exists id :: id in g && g[id].over == Some(source)
  }

  /** Every dependency exists and every map source yields a list. */
  method CheckReferences(m: StageMap) returns (r: Result<(), GraphError>)
    requires Keyed(m)
    requires forall id :: id in m.stage && m.stage[id].over.Some? ==> m.stage[id].over.value in m.stage[id].needs
    ensures r.Ok? <==> forall id :: id in m.stage ==> Resolved(m.stage, m.stage[id])
    ensures r.Err? ==> Dangling(m.stage, r.error)
  {
    hide Keyed, Resolved;
    for k := 0 to |m.ids|
      invariant forall i :: 0 <= i < k ==> m.ids[i] in m.stage && Resolved(m.stage, m.stage[m.ids[i]])
    {
      KeyedAt(m, k);
      var s := m.stage[m.ids[k]];
      assert s.id == m.ids[k] by { KeyedId(m, m.ids[k]); }
      ResolvedMeaning(m.stage, s);
      for d := 0 to |s.needs|
        invariant forall i :: 0 <= i < d ==> s.needs[i] in m.stage
      {
        if s.needs[d] !in m.stage {
          return Err(UnknownDependency(s.id, s.needs[d]));
        }
      }
      if s.over.Some? {
        var source := m.stage[s.over.value];
        if source.schema.None? && source.kind != Map {
          return Err(SourceRequiresSchema(s.over.value));
        }
      }
    }
    AllListed(m);
    r := Ok(());
  }

  lemma KeyedId(m: StageMap, id: StageId)
    requires Keyed(m) && id in m.stage
    ensures m.stage[id].id == id
  {
  }

  lemma KeyedAt(m: StageMap, k: nat)
    requires Keyed(m) && k < |m.ids|
    ensures m.ids[k] in m.stage
  {
  }

  lemma ResolvedMeaning(g: Graph, s: Stage)
    ensures Resolved(g, s) <==>
              && (forall i :: 0 <= i < |s.needs| ==> s.needs[i] in g)
              && (s.over.Some? ==>
                    s.over.value in g && (g[s.over.value].schema.Some? || g[s.over.value].kind.Map?))
  {
  }

  lemma AllListed(m: StageMap)
    requires Keyed(m)
    ensures forall id :: id in m.stage ==> id in m.ids
  {
  }

  // ---------------------------------------------------------------------
  // Ancestor waves
  // ---------------------------------------------------------------------

  /** Ancestor bits of the stages finished so far, by position. */
  type Ancestors = seq<Option<Bits.Words>>

  ghost predicate Indexed(m: StageMap, indices: map<StageId, nat>) {
    && Keyed(m)
    && (forall k :: 0 <= k < |m.ids| ==> m.ids[k] in indices && indices[m.ids[k]] == k)
    && (forall id :: id in indices ==> indices[id] < |m.ids| && m.ids[indices[id]] == id)
    && (forall id :: id in m.stage ==> Resolved(m.stage, m.stage[id]))
  }

  /** The bits are exactly the transitive needs of stage `a`. */
  ghost predicate Exact(m: StageMap, a: StageId, words: Bits.Words) {
    && |words| == Bits.WordCount(|m.ids|)
    && forall j :: 0 <= j < |m.ids| ==> (Bits.Test(words, j) <==> Reaches(m.stage, a, m.ids[j]))
  }

  ghost predicate Finished(m: StageMap, indices: map<StageId, nat>, anc: Ancestors, k: nat)
    requires Indexed(m, indices) && |anc| == |m.ids| && k < |anc|
  {
    var a := m.ids[k];
    && anc[k].Some?
    && (forall d :: d in m.stage[a].needs ==> anc[indices[d]].Some?)
    && Exact(m, a, anc[k].value)
    && !Reaches(m.stage, a, a)
    && TemplateOk(m.stage, a)
  }

  ghost predicate WaveInv(m: StageMap, indices: map<StageId, nat>, anc: Ancestors) {
    && Indexed(m, indices)
    && |anc| == |m.ids|
    && forall k :: 0 <= k < |anc| && anc[k].Some? ==> Finished(m, indices, anc, k)
  }

  /** `j` is one of the first `n` needs of the stage or an ancestor of one. */
  ghost predicate Inherited(g: Graph, needs: seq<StageId>, n: nat, b: StageId)
    requires n <= |needs|
  {
    exists e :: 0 <= e < n && (needs[e] == b || Reaches(g, needs[e], b))
  }

  lemma InheritedIsReach(g: Graph, a: StageId, b: StageId)
    requires a in g
    ensures Inherited(g, g[a].needs, |g[a].needs|, b) <==> Reaches(g, a, b)
  {
    var needs := g[a].needs;
    if e :| 0 <= e < |needs| && (needs[e] == b || Reaches(g, needs[e], b)) {
      ReachEdge(g, a, needs[e]);
      if needs[e] != b {
        ReachTransitive(g, a, needs[e], b);
      }
    }
    if Reaches(g, a, b) {
      var d := ReachFirst(g, a, b);
      var e :| 0 <= e < |needs| && needs[e] == d;
    }
  }

  /** Adds one need and everything it inherits. */
  method Inherit(words: Bits.Words, dep: nat, inherited: Bits.Words, n: nat) returns (r: Bits.Words)
    requires |words| == |inherited| == Bits.WordCount(n) && dep < n
    ensures |r| == |words|
    ensures forall j :: 0 <= j < n ==>
              (Bits.Test(r, j) <==> j == dep || Bits.Test(words, j) || Bits.Test(inherited, j))
  {
    var marked := Bits.Set(words, dep);
    r := Bits.Merge(marked, inherited);
    forall j | 0 <= j < n
      ensures Bits.Test(marked, j) <==> j == dep || Bits.Test(words, j)
    {
      Bits.SetTest(words, dep, j);
    }
  }

  /** The bits collected from the first `n` needs. */
  ghost predicate Gathered(m: StageMap, needs: seq<StageId>, n: nat, words: Bits.Words)
    requires n <= |needs|
  {
    && |words| == Bits.WordCount(|m.ids|)
    && forall j :: 0 <= j < |m.ids| ==> (Bits.Test(words, j) <==> Inherited(m.stage, needs, n, m.ids[j]))
  }

  lemma GatherOne(m: StageMap, needs: seq<StageId>, e: nat, words: Bits.Words, dep: nat, inherited: Bits.Words,
                  r: Bits.Words)
    requires e < |needs| && Gathered(m, needs, e, words)
    requires dep < |m.ids| && m.ids[dep] == needs[e] && Exact(m, needs[e], inherited)
    requires forall j :: 0 <= j < |m.ids| && j != dep ==> m.ids[j] != m.ids[dep]
    requires |r| == |words|
    requires forall j :: 0 <= j < |m.ids| ==>
               (Bits.Test(r, j) <==> j == dep || Bits.Test(words, j) || Bits.Test(inherited, j))
    ensures Gathered(m, needs, e + 1, r)
  {
    forall j | 0 <= j < |m.ids|
      ensures Bits.Test(r, j) <==> Inherited(m.stage, needs, e + 1, m.ids[j])
    {
      OneMoreNeed(m.stage, needs, e, m.ids[j]);
    }
  }

  /** The ancestors of `d` are known. */
  ghost predicate Known(m: StageMap, indices: map<StageId, nat>, anc: Ancestors, d: StageId) {
    && d in indices
    && indices[d] < |anc| == |m.ids|
    && m.ids[indices[d]] == d
    && anc[indices[d]].Some?
    && Exact(m, d, anc[indices[d]].value)
  }

  /** The union of the needs' ancestors and the needs themselves. */
  method UpstreamBits(m: StageMap, indices: map<StageId, nat>, anc: Ancestors, needs: seq<StageId>)
    returns (words: Bits.Words)
    requires forall i, j :: 0 <= i < j < |m.ids| ==> m.ids[i] != m.ids[j]
    requires forall e :: 0 <= e < |needs| ==> Known(m, indices, anc, needs[e])
    ensures Gathered(m, needs, |needs|, words)
  {
    words := Bits.Zero(Bits.WordCount(|m.ids|));
    forall j | 0 <= j < |m.ids|
      ensures !Bits.Test(words, j)
    {
      Bits.ZeroTest(Bits.WordCount(|m.ids|), j);
    }
    for e := 0 to |needs|
      invariant Gathered(m, needs, e, words)
    {
      assert Known(m, indices, anc, needs[e]);
      var dep := indices[needs[e]];
      ghost var before := words;
      words := Inherit(words, dep, anc[dep].value, |m.ids|);
      GatherOne(m, needs, e, before, dep, anc[dep].value, words);
    }
  }

  lemma GatheredIsExact(m: StageMap, a: StageId, words: Bits.Words)
    requires a in m.stage && Gathered(m, m.stage[a].needs, |m.stage[a].needs|, words)
    ensures Exact(m, a, words)
  {
    forall j | 0 <= j < |m.ids|
      ensures Bits.Test(words, j) <==> Reaches(m.stage, a, m.ids[j])
    {
      InheritedIsReach(m.stage, a, m.ids[j]);
    }
  }

  lemma OneMoreNeed(g: Graph, needs: seq<StageId>, e: nat, b: StageId)
    requires e < |needs|
    ensures Inherited(g, needs, e + 1, b) <==>
            Inherited(g, needs, e, b) || needs[e] == b || Reaches(g, needs[e], b)
  {
  }

  /** Stages whose ancestors are known. */
  ghost function FinishedIds(m: StageMap, anc: Ancestors): set<StageId>
    requires |anc| == |m.ids|
  {
    set k | 0 <= k < |anc| && anc[k].Some? :: m.ids[k]
  }

  lemma FinishedClosed(m: StageMap, indices: map<StageId, nat>, anc: Ancestors, a: StageId, b: StageId)
    requires WaveInv(m, indices, anc)
    requires a in FinishedIds(m, anc) && Reaches(m.stage, a, b)
    ensures b in FinishedIds(m, anc)
  {
    var s := FinishedIds(m, anc);
    forall x, y | x in s && Edge(m.stage, x, y)
      ensures y in s
    {
      assert Finished(m, indices, anc, indices[x]);
      assert Resolved(m.stage, m.stage[x]);
      assert y in m.ids;
      assert m.ids[indices[y]] == y;
    }
    var p :| IsPath(m.stage, a, b, p);
    ClosedUnderPaths(m.stage, s, a, b, p);
  }

  /** A stage all of whose needs are finished is not on a cycle. */
  lemma NextNotOnCycle(m: StageMap, indices: map<StageId, nat>, anc: Ancestors, k: nat)
    requires WaveInv(m, indices, anc) && k < |anc| && anc[k].None?
    requires forall d :: d in m.stage[m.ids[k]].needs ==> anc[indices[d]].Some?
    ensures !Reaches(m.stage, m.ids[k], m.ids[k])
  {
    hide Reaches, Finished;
    var a := m.ids[k];
    if Reaches(m.stage, a, a) {
      var d := ReachFirst(m.stage, a, a);
      assert m.ids[indices[d]] == d;
      assert d in FinishedIds(m, anc);
      if d != a {
        FinishedClosed(m, indices, anc, d, a);
      }
    }
  }

  lemma ReachedIsStage(m: StageMap, indices: map<StageId, nat>, a: StageId, b: StageId)
    requires Indexed(m, indices) && Reaches(m.stage, a, b)
    ensures b in indices
  {
    var p :| IsPath(m.stage, a, b, p);
    var x := p[|p| - 2];
    assert Edge(m.stage, p[|p| - 2], p[|p| - 1]);
    assert Resolved(m.stage, m.stage[x]);
    assert b in m.ids;
  }

  lemma SameCheck(prompt: string, f: string -> bool, h: string -> bool, item: bool)
    requires forall id :: f(id) == h(id)
    ensures Template.ValidTemplate(prompt, f, item) == Template.ValidTemplate(prompt, h, item)
  {
  }

  function BitTest(indices: map<StageId, nat>, words: Bits.Words): StageId -> bool {
    id => id in indices && indices[id] < |words| * Bits.WORD && Bits.Test(words, indices[id])
  }

  lemma BitTestIsUpstream(m: StageMap, indices: map<StageId, nat>, a: StageId, words: Bits.Words, item: bool,
                          prompt: string)
    requires Indexed(m, indices) && Exact(m, a, words)
    ensures Template.ValidTemplate(prompt, BitTest(indices, words), item)
            == Template.ValidTemplate(prompt, Upstream(m.stage, a), item)
  {
    forall id
      ensures BitTest(indices, words)(id) == Upstream(m.stage, a)(id)
    {
      if Reaches(m.stage, a, id) {
        ReachedIsStage(m, indices, a, id);
      }
      if id in indices {
        assert m.ids[indices[id]] == id;
      }
    }
    SameCheck(prompt, BitTest(indices, words), Upstream(m.stage, a), item);
  }

  lemma FinishedGrows(m: StageMap, indices: map<StageId, nat>, anc: Ancestors, k: nat, words: Bits.Words)
    requires WaveInv(m, indices, anc) && k < |anc| && anc[k].None?
    requires forall d :: d in m.stage[m.ids[k]].needs ==> anc[indices[d]].Some?
    requires Exact(m, m.ids[k], words) && TemplateOk(m.stage, m.ids[k])
    ensures WaveInv(m, indices, anc[k := Some(words)])
  {
    hide Finished, Indexed, Exact, TemplateOk;
    var next := anc[k := Some(words)];
    NextNotOnCycle(m, indices, anc, k);
    forall j | 0 <= j < |next| && next[j].Some?
      ensures Finished(m, indices, next, j)
    {
      if j != k {
        FinishedKept(m, indices, anc, next, j);
      } else {
        FinishedNew(m, indices, anc, k, words);
      }
    }
  }

  lemma FinishedKept(m: StageMap, indices: map<StageId, nat>, anc: Ancestors, next: Ancestors, j: nat)
    requires Indexed(m, indices) && |anc| == |next| == |m.ids| && j < |anc| && anc[j].Some? && next[j] == anc[j]
    requires forall i :: 0 <= i < |anc| && anc[i].Some? ==> next[i].Some?
    requires Finished(m, indices, anc, j)
    ensures Finished(m, indices, next, j)
  {
    hide Exact, TemplateOk;
  }

  lemma FinishedNew(m: StageMap, indices: map<StageId, nat>, anc: Ancestors, k: nat, words: Bits.Words)
    requires Indexed(m, indices) && |anc| == |m.ids| && k < |anc| && anc[k].None?
    requires forall d :: d in m.stage[m.ids[k]].needs ==> anc[indices[d]].Some?
    requires Exact(m, m.ids[k], words) && TemplateOk(m.stage, m.ids[k]) && !Reaches(m.stage, m.ids[k], m.ids[k])
    ensures Finished(m, indices, anc[k := Some(words)], k)
  {
    hide Exact, TemplateOk;
  }

  lemma NeedsKnown(m: StageMap, indices: map<StageId, nat>, anc: Ancestors, k: nat)
    requires WaveInv(m, indices, anc) && k < |anc|
    requires forall d :: d in m.stage[m.ids[k]].needs ==> anc[indices[d]].Some?
    ensures forall i, j :: 0 <= i < j < |m.ids| ==> m.ids[i] != m.ids[j]
    ensures var needs := m.stage[m.ids[k]].needs;
            forall e :: 0 <= e < |needs| ==> Known(m, indices, anc, needs[e])
  {
    var s := m.stage[m.ids[k]];
    assert Resolved(m.stage, s);
    forall e | 0 <= e < |s.needs|
      ensures Known(m, indices, anc, s.needs[e])
    {
      var d := s.needs[e];
      assert d in s.needs && d in m.ids;
      assert Finished(m, indices, anc, indices[d]);
    }
  }

  function Count(anc: Ancestors): (n: nat)
    ensures n <= |anc|
  {
    if anc == [] then 0
    else Count(anc[..|anc| - 1]) + if anc[|anc| - 1].Some? then 1 else 0
  }

  lemma {:induction false} CountOneMore(anc: Ancestors, k: nat, words: Bits.Words)
    requires k < |anc| && anc[k].None?
    ensures Count(anc[k := Some(words)]) == Count(anc) + 1
  {
    var next := anc[k := Some(words)];
    if k == |anc| - 1 {
      assert next[..|anc| - 1] == anc[..|anc| - 1];
    } else {
      CountOneMore(anc[..|anc| - 1], k, words);
      assert next[..|anc| - 1] == anc[..|anc| - 1][k := Some(words)];
    }
  }

  lemma {:induction false} CountAll(anc: Ancestors)
    ensures Count(anc) == |anc| <==> forall k :: 0 <= k < |anc| ==> anc[k].Some?
  {
    if anc != [] {
      var front := anc[..|anc| - 1];
      CountAll(front);
      assert forall k :: 0 <= k < |front| ==> front[k] == anc[k];
    }
  }

  lemma {:induction false} CountNone(anc: Ancestors)
    requires forall k :: 0 <= k < |anc| ==> anc[k].None?
    ensures Count(anc) == 0
  {
    if anc != [] {
      CountNone(anc[..|anc| - 1]);
    }
  }

  /** All needs of the stage at `k` are finished. */
  predicate NeedsMet(m: StageMap, indices: map<StageId, nat>, anc: Ancestors, k: nat)
    requires k < |m.ids| && m.ids[k] in m.stage
  {
    forall d :: d in m.stage[m.ids[k]].needs ==> d in indices && indices[d] < |anc| && anc[indices[d]].Some?
  }

  /** No further stage can be finished. */
  ghost predicate NoProgress(m: StageMap, indices: map<StageId, nat>, anc: Ancestors, n: nat)
    requires Indexed(m, indices) && n <= |anc| == |m.ids|
  {
    forall k :: 0 <= k < n && anc[k].None? ==> !NeedsMet(m, indices, anc, k)
  }

  lemma NoProgressNext(m: StageMap, indices: map<StageId, nat>, anc: Ancestors, n: nat)
    requires Indexed(m, indices) && n < |anc| == |m.ids| && NoProgress(m, indices, anc, n)
    requires anc[n].None? ==> !NeedsMet(m, indices, anc, n)
    ensures NoProgress(m, indices, anc, n + 1)
  {
  }

  /** Handles one stage: finishes it if all its needs are finished. */
  method Visit(m: StageMap, indices: map<StageId, nat>, anc: Ancestors, k: nat)
    returns (r: Result<Ancestors, GraphError>)
    requires WaveInv(m, indices, anc) && k < |anc|
    ensures r.Ok? ==> WaveInv(m, indices, r.value)
    ensures r.Ok? ==> if anc[k].None? && NeedsMet(m, indices, anc, k)
                      then Count(r.value) == Count(anc) + 1
                      else r.value == anc
    ensures r.Err? ==> r.error.BadTemplate? && !TemplateOk(m.stage, m.ids[k])
  {
    if anc[k].Some? || !NeedsMet(m, indices, anc, k) {
      return Ok(anc);
    }
    var s := m.stage[m.ids[k]];
    NeedsKnown(m, indices, anc, k);
    var words := UpstreamBits(m, indices, anc, s.needs);
    GatheredIsExact(m, m.ids[k], words);
    var checked := Template.Validate(s.prompt, BitTest(indices, words), s.kind.Map?);
    BitTestIsUpstream(m, indices, m.ids[k], words, s.kind.Map?, s.prompt);
    if checked.Err? {
      return Err(BadTemplate(checked.error));
    }
    FinishedGrows(m, indices, anc, k, words);
    CountOneMore(anc, k, words);
    r := Ok(anc[k := Some(words)]);
  }

  /** One wave over the stages in key order. */
  method Sweep(m: StageMap, indices: map<StageId, nat>, before: Ancestors)
    returns (r: Result<Ancestors, GraphError>)
    requires WaveInv(m, indices, before)
    ensures r.Ok? ==> WaveInv(m, indices, r.value) && Count(r.value) >= Count(before)
    ensures r.Ok? && Count(r.value) == Count(before) ==>
              r.value == before && NoProgress(m, indices, before, |before|)
    ensures r.Err? ==> r.error.BadTemplate? && exists id :: id in m.stage && !TemplateOk(m.stage, id)
  {
    var ancestors := before;
    for k := 0 to |m.ids|
      invariant WaveInv(m, indices, ancestors)
      invariant Count(ancestors) >= Count(before)
      invariant Count(ancestors) == Count(before) ==> ancestors == before && NoProgress(m, indices, before, k)
    {
      r := Visit(m, indices, ancestors, k);
      if r.Err? {
        assert m.ids[k] in m.stage && !TemplateOk(m.stage, m.ids[k]);
        return;
      }
      if Count(r.value) == Count(before) {
        NoProgressNext(m, indices, before, k);
      }
      ancestors := r.value;
    }
    r := Ok(ancestors);
  }

  /** A stage that no wave can finish depends on a cycle. */
  lemma UnfinishedIsCyclic(m: StageMap, indices: map<StageId, nat>, anc: Ancestors, k: nat)
    requires WaveInv(m, indices, anc) && NoProgress(m, indices, anc, |anc|)
    requires k < |anc| && anc[k].None?
    ensures LeadsToCycle(m.stage, m.ids[k])
  {
    var rest := set j | 0 <= j < |anc| && anc[j].None? :: m.ids[j];
    forall x | x in rest
      ensures NeedsOneOf(m.stage, rest, x)
    {
      var j := indices[x];
      assert !NeedsMet(m, indices, anc, j);
      var d :| d in m.stage[x].needs && !(d in indices && indices[d] < |anc| && anc[indices[d]].Some?);
      assert Resolved(m.stage, m.stage[x]);
      assert d in m.ids;
      assert m.ids[indices[d]] == d;
      assert d in rest && Edge(m.stage, x, d);
    }
    StuckLeadsToCycle(m.stage, rest, m.ids[k]);
  }

  lemma FinishedIsNotCyclic(m: StageMap, indices: map<StageId, nat>, anc: Ancestors, k: nat)
    requires WaveInv(m, indices, anc)
    requires k < |anc| && anc[k].Some?
    ensures !LeadsToCycle(m.stage, m.ids[k])
  {
    var a := m.ids[k];
    assert a in FinishedIds(m, anc);
    forall c | a == c || Reaches(m.stage, a, c)
      ensures !Reaches(m.stage, c, c)
    {
      if a != c {
        FinishedClosed(m, indices, anc, a, c);
      }
      assert Finished(m, indices, anc, indices[c]);
    }
  }

  /** When the waves stop early, what is left is exactly what a cycle
      blocks. */
  lemma LeftIsCyclic(m: StageMap, indices: map<StageId, nat>, anc: Ancestors, left: seq<StageId>)
    requires WaveInv(m, indices, anc) && NoProgress(m, indices, anc, |anc|)
    requires forall id :: id in left <==> exists k :: 0 <= k < |anc| && anc[k].None? && m.ids[k] == id
    ensures forall id :: id in left <==> id in m.stage && LeadsToCycle(m.stage, id)
    ensures Count(anc) < |anc| ==> !Acyclic(m.stage)
  {
    forall id
      ensures id in left <==> id in m.stage && LeadsToCycle(m.stage, id)
    {
      if id in m.stage {
        assert id in m.ids;
        var k := indices[id];
        if anc[k].None? {
          UnfinishedIsCyclic(m, indices, anc, k);
        } else {
          FinishedIsNotCyclic(m, indices, anc, k);
        }
      }
    }
    CountAll(anc);
    if Count(anc) < |anc| {
      var k :| 0 <= k < |anc| && anc[k].None?;
      UnfinishedIsCyclic(m, indices, anc, k);
    }
  }

  /** Runs waves until every stage is finished or none can be. */
  method RunWaves(m: StageMap, indices: map<StageId, nat>) returns (r: Result<Ancestors, GraphError>)
    requires Indexed(m, indices)
    ensures r.Ok? <==> Acyclic(m.stage) && forall id :: id in m.stage ==> TemplateOk(m.stage, id)
    ensures r.Ok? ==> |r.value| == |m.ids|
    ensures r.Ok? ==> forall k :: 0 <= k < |m.ids| ==> r.value[k].Some? && Exact(m, m.ids[k], r.value[k].value)
    ensures r.Err? ==> r.error.BadTemplate? || r.error.Cycle?
    ensures r.Err? && r.error.BadTemplate? ==> exists id :: id in m.stage && !TemplateOk(m.stage, id)
    ensures r.Err? && r.error.Cycle? ==>
              (forall id :: id in r.error.involving <==> id in m.stage && LeadsToCycle(m.stage, id))
  {
    var ancestors: Ancestors := seq(|m.ids|, _ => None);
    CountNone(ancestors);
    var validated := 0;
    while validated < |m.ids|
      invariant WaveInv(m, indices, ancestors)
      invariant validated == Count(ancestors)
      decreases |m.ids| - validated
    {
      var before := validated;
      var swept := Sweep(m, indices, ancestors);
      if swept.Err? {
        return Err(swept.error);
      }
      ancestors := swept.value;
      validated := Count(ancestors);
      if before == validated {
        var left := Unfinished(m, ancestors);
        LeftIsCyclic(m, indices, ancestors, left);
        return Err(Cycle(left));
      }
    }
    CountAll(ancestors);
    AllFinished(m, indices, ancestors);
    r := Ok(ancestors);
  }

  method Unfinished(m: StageMap, anc: Ancestors) returns (left: seq<StageId>)
    requires |anc| == |m.ids|
    ensures forall id :: id in left <==> exists k :: 0 <= k < |anc| && anc[k].None? && m.ids[k] == id
  {
    left := [];
    for k := 0 to |m.ids|
      invariant forall id :: id in left <==> exists j :: 0 <= j < k && anc[j].None? && m.ids[j] == id
    {
      if anc[k].None? {
        left := left + [m.ids[k]];
      }
    }
  }

  lemma AllFinished(m: StageMap, indices: map<StageId, nat>, anc: Ancestors)
    requires WaveInv(m, indices, anc)
    requires forall k :: 0 <= k < |anc| ==> anc[k].Some?
    ensures Acyclic(m.stage)
    ensures forall id :: id in m.stage ==> TemplateOk(m.stage, id)
    ensures forall k :: 0 <= k < |m.ids| ==> Exact(m, m.ids[k], anc[k].value)
  {
    forall k | 0 <= k < |m.ids|
      ensures Exact(m, m.ids[k], anc[k].value)
    {
      assert Finished(m, indices, anc, k);
    }
    forall id | id in m.stage
      ensures !Reaches(m.stage, id, id) && TemplateOk(m.stage, id)
    {
      assert id in m.ids;
      assert Finished(m, indices, anc, indices[id]);
    }
    forall id
      ensures !Reaches(m.stage, id, id)
    {
      if Reaches(m.stage, id, id) {
        var d := ReachFirst(m.stage, id, id);
      }
    }
  }

  /** Why a graph is rejected. */
  ghost predicate Rejects(stages: seq<Stage>, cap: nat, error: GraphError) {
    var g := Stored(stages);
    match error
    case BadSize(allowed) => allowed == cap && (stages == [] || |stages| > cap)
    case UnknownDependency(_, _) => Dangling(g, error)
    case SourceRequiresSchema(_) => Dangling(g, error)
    case BadTemplate(_) => exists id :: id in g && !TemplateOk(g, id)
    case Cycle(involving) => forall id :: id in involving <==> id in g && LeadsToCycle(g, id)
    case _ => LocalFault(stages, error)
  }

  lemma LocalRejects(stages: seq<Stage>, cap: nat, error: GraphError)
    requires LocalFault(stages, error)
    ensures Rejects(stages, cap, error)
  {
    hide BadName;
  }

  lemma DanglingRejects(stages: seq<Stage>, cap: nat, error: GraphError)
    requires Dangling(Stored(stages), error)
    ensures Rejects(stages, cap, error)
  {
    hide BadName;
  }

  /** Validates a list of stages: accepts exactly the acceptable ones and
      returns their stored form. A reported cycle names exactly the stages
      that lie on a cycle or depend on one. */
  method Validate(stages: seq<Stage>, cap: nat) returns (r: Result<StageMap, GraphError>)
    ensures r.Ok? <==> Acceptable(stages, cap)
    ensures r.Ok? ==> r.value.stage == Stored(stages) && Keyed(r.value) && Ordered(r.value.ids)
    ensures r.Err? ==> Rejects(stages, cap, r.error)
  {
    hide Faulty, LocalFault, Dangling, LeadsToCycle, TemplateOk;
    if stages == [] || |stages| > cap {
      return Err(BadSize(cap));
    }
    r := Collect(stages);
    if r.Err? {
      LocalRejects(stages, cap, r.error);
      return;
    }
    var m := r.value;
    MapsNeedTheirSource(stages);
    var referenced := CheckReferences(m);
    if referenced.Err? {
      DanglingRejects(stages, cap, referenced.error);
      return Err(referenced.error);
    }
    var indices := IndexIds(m);
    var ancestors := RunWaves(m, indices);
    if ancestors.Err? {
      return Err(ancestors.error);
    }
  }

  lemma MapsNeedTheirSource(stages: seq<Stage>)
    requires AllLocallyValid(stages) && DistinctIds(stages)
    ensures var g := Stored(stages);
            forall id :: id in g && g[id].over.Some? ==> g[id].over.value in g[id].needs
  {
    var g := Stored(stages);
    StoredContent(stages);
    forall id | id in g && g[id].over.Some?
      ensures g[id].over.value in g[id].needs
    {
      var k :| 0 <= k < |stages| && stages[k].id == id;
      assert LocallyValid(stages[k]);
      NormalNeeds(stages[k]);
    }
  }

  method IndexIds(m: StageMap) returns (indices: map<StageId, nat>)
    requires Keyed(m) && Ordered(m.ids)
    requires forall id :: id in m.stage ==> Resolved(m.stage, m.stage[id])
    ensures Indexed(m, indices)
  {
    OrderedDistinct(m.ids);
    indices := map[];
    for k := 0 to |m.ids|
      invariant forall j :: 0 <= j < k ==> m.ids[j] in indices && indices[m.ids[j]] == j
      invariant forall id :: id in indices ==> indices[id] < k && m.ids[indices[id]] == id
    {
      indices := indices[m.ids[k] := k];
    }
  }
}

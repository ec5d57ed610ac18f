/** The dependency relation of a stage graph and its transitive closure. */
module Reach {
  import opened Wrappers
  import opened Ids

  datatype Kind = Agent | Map

  datatype Stage = Stage(
    id: StageId,
    prompt: string,
    needs: seq<StageId>,
    kind: Kind,
    over: Option<StageId>,
    schema: Option<string>,
    model: Option<string>)

  type Graph = map<StageId, Stage>

  /** `a` needs `b` directly. */
  predicate Edge(g: Graph, a: StageId, b: StageId) {
    a in g && b in g[a].needs
  }

  ghost predicate IsPath(g: Graph, a: StageId, b: StageId, p: seq<StageId>) {
    && |p| >= 2
    && p[0] == a
    && p[|p| - 1] == b
    && forall i :: 0 <= i < |p| - 1 ==> Edge(g, p[i], p[i + 1])
  }

  /** A non-empty chain of needs leads from `a` to `b`. */
  ghost predicate Reaches(g: Graph, a: StageId, b: StageId) {
    exists p :: IsPath(g, a, b, p)
  }

  ghost predicate Acyclic(g: Graph) {
    forall a :: !Reaches(g, a, a)
  }

  lemma ReachEdge(g: Graph, a: StageId, b: StageId)
    requires Edge(g, a, b)
    ensures Reaches(g, a, b)
  {
    assert IsPath(g, a, b, [a, b]);
  }

  lemma ReachTransitive(g: Graph, a: StageId, b: StageId, c: StageId)
    requires Reaches(g, a, b) && Reaches(g, b, c)
    ensures Reaches(g, a, c)
  {
    var p :| IsPath(g, a, b, p);
    var q :| IsPath(g, b, c, q);
    var r := p + q[1..];
    forall i | 0 <= i < |r| - 1
      ensures Edge(g, r[i], r[i + 1])
    {
      if i >= |p| - 1 {
        assert r[i] == q[i - (|p| - 1)];
        assert r[i + 1] == q[i + 1 - (|p| - 1)];
      }
    }
    assert IsPath(g, a, c, r);
  }

  /** Every path starts with one need. */
  lemma ReachFirst(g: Graph, a: StageId, c: StageId) returns (d: StageId)
    requires Reaches(g, a, c)
    ensures Edge(g, a, d) && (d == c || Reaches(g, d, c))
  {
    var p :| IsPath(g, a, c, p);
    d := p[1];
    assert Edge(g, p[0], p[1]);
    if |p| > 2 {
      var q := p[1..];
      forall i | 0 <= i < |q| - 1
        ensures Edge(g, q[i], q[i + 1])
      {
        assert Edge(g, p[i + 1], p[i + 2]);
      }
      assert IsPath(g, d, c, q);
    }
  }

  /** A set closed under needs is closed under paths. */
  lemma {:induction false} ClosedUnderPaths(g: Graph, s: set<StageId>, a: StageId, b: StageId, p: seq<StageId>)
    requires forall x, y :: x in s && Edge(g, x, y) ==> y in s
    requires a in s && IsPath(g, a, b, p)
    ensures b in s
    decreases |p|
  {
    assert Edge(g, p[0], p[1]);
    if |p| > 2 {
      var q := p[1..];
      forall i | 0 <= i < |q| - 1
        ensures Edge(g, q[i], q[i + 1])
      {
        assert Edge(g, p[i + 1], p[i + 2]);
      }
      ClosedUnderPaths(g, s, p[1], b, q);
    }
  }

  /** The stage lies on a cycle or depends on one. */
  ghost predicate LeadsToCycle(g: Graph, a: StageId) {
    exists c :: (a == c || Reaches(g, a, c)) && Reaches(g, c, c)
  }

  ghost predicate NeedsOneOf(g: Graph, s: set<StageId>, x: StageId) {
    exists y :: y in s && Edge(g, x, y)
  }

  /** Everybody in `s` needs somebody in `s`. */
  ghost predicate Stuck(g: Graph, s: set<StageId>) {
    forall x {:trigger NeedsOneOf(g, s, x)} :: x in s ==> NeedsOneOf(g, s, x)
  }

  /** A walk that never leaves `s`, of any requested length. */
  lemma {:induction false} LongWalk(g: Graph, s: set<StageId>, a: StageId, n: nat) returns (p: seq<StageId>)
    requires a in s && Stuck(g, s)
    ensures |p| == n + 1 && p[0] == a
    ensures forall i :: 0 <= i <= n ==> p[i] in s
    ensures forall i :: 0 <= i < n ==> Edge(g, p[i], p[i + 1])
    decreases n
  {
    if n == 0 {
      p := [a];
    } else {
      assert NeedsOneOf(g, s, a);
      var b :| b in s && Edge(g, a, b);
      var q := LongWalk(g, s, b, n - 1);
      p := [a] + q;
    }
  }

  lemma {:induction false} Pigeonhole(p: seq<StageId>, s: set<StageId>) returns (i: nat, j: nat)
    requires forall k :: 0 <= k < |p| ==> p[k] in s
    requires |p| > |s|
    ensures i < j < |p| && p[i] == p[j]
    decreases |p|
  {
    var last := p[|p| - 1];
    if k :| 0 <= k < |p| - 1 && p[k] == last {
      i, j := k, |p| - 1;
    } else {
      i, j := Pigeonhole(p[..|p| - 1], s - {last});
    }
  }

  lemma SubPath(g: Graph, p: seq<StageId>, i: nat, j: nat)
    requires i < j < |p|
    requires forall k :: 0 <= k < |p| - 1 ==> Edge(g, p[k], p[k + 1])
    ensures Reaches(g, p[i], p[j])
  {
    var q := p[i..j + 1];
    forall k | 0 <= k < |q| - 1
      ensures Edge(g, q[k], q[k + 1])
    {
      assert Edge(g, p[i + k], p[i + k + 1]);
    }
    assert IsPath(g, p[i], p[j], q);
  }

  /** In a finite set where everybody needs somebody, everybody depends on
      a cycle. */
  lemma StuckLeadsToCycle(g: Graph, s: set<StageId>, a: StageId)
    requires a in s && Stuck(g, s)
    ensures LeadsToCycle(g, a)
  {
    var p := LongWalk(g, s, a, |s|);
    var i, j := Pigeonhole(p, s);
    SubPath(g, p, i, j);
    if i > 0 {
      SubPath(g, p, 0, i);
    }
  }
}

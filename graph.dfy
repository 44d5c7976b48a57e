/**
 * A DAG of tasks with the dependency edges the `>>` and `<<` operators
 * add, and the graph properties stated over it.  Tasks are of any type
 * with equality: the operators of a pipeline.
 */
module Graph {

  /** A dependency edge `(upstream, downstream)`. */
  type Edge<T> = (T, T)

  predicate Distinct<T(==)>(s: seq<T>) {
    forall i, j :: 0 <= i < j < |s| ==> s[i] != s[j]
  }

  /** The tasks `t` directly depends on. */
  function Upstream<T(==)>(edges: set<Edge<T>>, t: T): set<T> {
    set e | e in edges && e.1 == t :: e.0
  }

  /** The tasks that directly depend on `t`. */
  function Downstream<T(==)>(edges: set<Edge<T>>, t: T): set<T> {
    set e | e in edges && e.0 == t :: e.1
  }

  /** The tasks with no upstream task. */
  function Roots<T(==)>(tasks: seq<T>, edges: set<Edge<T>>): set<T> {
    set t | t in tasks && Upstream(edges, t) == {}
  }

  /** The tasks with no downstream task. */
  function Leaves<T(==)>(tasks: seq<T>, edges: set<Edge<T>>): set<T> {
    set t | t in tasks && Downstream(edges, t) == {}
  }

  /** `p` follows edges from its first task to its last. */
  ghost predicate IsPath<T>(edges: set<Edge<T>>, p: seq<T>) {
    |p| >= 1 && forall i :: 0 <= i < |p| - 1 ==> (p[i], p[i + 1]) in edges
  }

  /** `v` is `u` or transitively depends on `u`. */
  ghost predicate Reaches<T(!new)>(edges: set<Edge<T>>, u: T, v: T) {
    exists p :: IsPath(edges, p) && p[0] == u && p[|p| - 1] == v
  }

  /** No path of one or more edges leads back to where it started. */
  ghost predicate Acyclic<T(!new)>(edges: set<Edge<T>>) {
    forall p :: IsPath(edges, p) && |p| >= 2 ==> p[0] != p[|p| - 1]
  }

  /** `rank` strictly increases along every edge: the tasks can be run in order of rank. */
  ghost predicate RankedBy<T(!new)>(edges: set<Edge<T>>, rank: T -> nat) {
    forall e :: e in edges ==> rank(e.0) < rank(e.1)
  }

  /** Along a path of one or more edges, the rank strictly increases. */
  lemma {:induction false} PathRises<T(!new)>(edges: set<Edge<T>>, rank: T -> nat, p: seq<T>)
    requires RankedBy(edges, rank) && IsPath(edges, p) && |p| >= 2
    ensures rank(p[0]) < rank(p[|p| - 1])
    decreases |p|
  {
    assert (p[0], p[1]) in edges;
    if |p| > 2 {
      var q := p[1..];
      assert IsPath(edges, q) by {
        forall i | 0 <= i < |q| - 1 ensures (q[i], q[i + 1]) in edges {
          assert (p[i + 1], p[i + 2]) in edges;
        }
      }
      PathRises(edges, rank, q);
    }
  }

  /** A graph whose edges all increase some rank has no cycle. */
  lemma RankedAcyclic<T(!new)>(edges: set<Edge<T>>, rank: T -> nat)
    requires RankedBy(edges, rank)
    ensures Acyclic(edges)
  {
    forall p | IsPath(edges, p) && |p| >= 2
      ensures p[0] != p[|p| - 1]
    {
      PathRises(edges, rank, p);
    }
  }

  /** The edges `task >> others` adds. */
  function DownstreamEdges<T(==)>(task: T, others: seq<T>): set<Edge<T>> {
    set o | o in others :: (task, o)
  }

  /** The edges `task << others` adds. */
  function UpstreamEdges<T(==)>(task: T, others: seq<T>): set<Edge<T>> {
    set o | o in others :: (o, task)
  }

  /** The task set of a DAG and the dependency edges between its tasks. */
  class Dag<T(==)> {
    const dagId: string
    var tasks: seq<T>
    var edges: set<Edge<T>>

    ghost predicate Valid()
      reads this
    {
      Distinct(tasks) && forall e :: e in edges ==> e.0 in tasks && e.1 in tasks
    }

    constructor (dagId: string)
      ensures Valid() && this.dagId == dagId && tasks == [] && edges == {}
    {
      this.dagId := dagId;
      tasks := [];
      edges := {};
    }

    /** Registers an operator; one already in the DAG is refused. */
    method AddTask(task: T) returns (added: bool)
      requires Valid()
      modifies this
      ensures Valid() && edges == old(edges)
      ensures added == (task !in old(tasks))
      ensures tasks == if added then old(tasks) + [task] else old(tasks)
    {
      added := task !in tasks;
      if added {
        tasks := tasks + [task];
      }
    }

    /** Makes `downstream` depend on `upstream`. */
    method AddEdge(upstream: T, downstream: T)
      requires Valid() && upstream in tasks && downstream in tasks
      modifies this
      ensures Valid() && tasks == old(tasks)
      ensures edges == old(edges) + {(upstream, downstream)}
    {
      edges := edges + {(upstream, downstream)};
    }

    /** `task >> others`: every task of the list depends on `task`. */
    method SetDownstream(task: T, others: seq<T>)
      requires Valid() && task in tasks && forall o :: o in others ==> o in tasks
      modifies this
      ensures Valid() && tasks == old(tasks)
      ensures edges == old(edges) + DownstreamEdges(task, others)
    {
      var i := 0;
      while i < |others|
        invariant 0 <= i <= |others|
        invariant Valid() && tasks == old(tasks)
        invariant edges == old(edges) + DownstreamEdges(task, others[..i])
      {
        assert others[..i + 1] == others[..i] + [others[i]];
        assert DownstreamEdges(task, others[..i + 1]) == DownstreamEdges(task, others[..i]) + {(task, others[i])};
        AddEdge(task, others[i]);
        i := i + 1;
      }
      assert others[..i] == others;
    }

    /** `task << others`: `task` depends on every task of the list. */
    method SetUpstream(task: T, others: seq<T>)
      requires Valid() && task in tasks && forall o :: o in others ==> o in tasks
      modifies this
      ensures Valid() && tasks == old(tasks)
      ensures edges == old(edges) + UpstreamEdges(task, others)
    {
      var i := 0;
      while i < |others|
        invariant 0 <= i <= |others|
        invariant Valid() && tasks == old(tasks)
        invariant edges == old(edges) + UpstreamEdges(task, others[..i])
      {
        assert others[..i + 1] == others[..i] + [others[i]];
        assert UpstreamEdges(task, others[..i + 1]) == UpstreamEdges(task, others[..i]) + {(others[i], task)};
        AddEdge(others[i], task);
        i := i + 1;
      }
      assert others[..i] == others;
    }
  }
}

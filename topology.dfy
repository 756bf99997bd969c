/** The muscle graph of an organism, seen as an undirected multigraph over the
    anchor numbers 1..n. An edge is the pair of anchor numbers a muscle joins;
    the same pair may occur several times, and either orientation joins both ends. */
module Topology {

  type Edge = (int, int)

  /** Some edge joins `u` and `v`, in either orientation. */
  ghost predicate Adjacent(edges: seq<Edge>, u: int, v: int)
  {
    exists k :: 0 <= k < |edges| && (edges[k] == (u, v) || edges[k] == (v, u))
  }

  /** `p` is a walk over the anchors 1..n: a non-empty list of them, each
      adjacent to the next. */
  ghost predicate IsWalk(n: int, edges: seq<Edge>, p: seq<int>)
  {
    |p| >= 1
    && (forall i :: 0 <= i < |p| ==> 1 <= p[i] <= n)
    && (forall i :: 0 <= i < |p| - 1 ==> Adjacent(edges, p[i], p[i + 1]))
  }

  /** A walk over 1..n leads from `u` to `v`. */
  ghost predicate Reachable(n: int, edges: seq<Edge>, u: int, v: int)
  {
    exists p :: IsWalk(n, edges, p) && p[0] == u && p[|p| - 1] == v
  }

  /** Every anchor of 1..n can be reached from every other one. */
  ghost predicate Connected(n: int, edges: seq<Edge>)
  {
    forall u, v :: 1 <= u <= n && 1 <= v <= n ==> Reachable(n, edges, u, v)
  }

  /** Anchor `i` is adjacent to anchor `i + 1`. */
  ghost predicate Linked(edges: seq<Edge>, i: int)
  {
    Adjacent(edges, i, i + 1)
  }

  /** The chain 1-2-...-n: consecutive anchors are adjacent. */
  ghost predicate HasChain(n: int, edges: seq<Edge>)
  {
    forall i :: 1 <= i < n ==> Linked(edges, i)
  }

  /** The anchors from `u` up to `v`, in order. */
  function Ascending(u: int, v: int): (p: seq<int>)
    requires u <= v
  {
    seq(v - u + 1, i => u + i)
  }

  /** The anchors from `u` down to `v`, in order. */
  function Descending(u: int, v: int): (p: seq<int>)
    requires v <= u
  {
    seq(u - v + 1, i => u - i)
  }

  /** A chain over 1..n connects all of 1..n: walk along it, up or down. */
  lemma ChainConnects(n: int, edges: seq<Edge>)
    requires HasChain(n, edges)
    ensures Connected(n, edges)
  {
    forall u, v | 1 <= u <= n && 1 <= v <= n
      ensures Reachable(n, edges, u, v)
    {
      if u <= v {
        var p := Ascending(u, v);
        forall i | 0 <= i < |p| - 1
          ensures Adjacent(edges, p[i], p[i + 1])
        {
          assert Linked(edges, u + i);
        }
        assert IsWalk(n, edges, p);
      } else {
        var p := Descending(u, v);
        forall i | 0 <= i < |p| - 1
          ensures Adjacent(edges, p[i], p[i + 1])
        {
          var lo := u - i - 1;
          assert 1 <= lo < n;
          assert Linked(edges, lo);
          var k :| 0 <= k < |edges| && (edges[k] == (lo, lo + 1) || edges[k] == (lo + 1, lo));
          assert edges[k] == (p[i], p[i + 1]) || edges[k] == (p[i + 1], p[i]);
        }
        assert IsWalk(n, edges, p);
      }
    }
  }

  /** Connectivity is not free: once there are two anchors, every anchor is
      an end of some edge. An anchor that no muscle touches breaks it. */
  lemma ConnectedTouchesEveryAnchor(n: int, edges: seq<Edge>, v: int)
    requires Connected(n, edges)
    requires n >= 2 && 1 <= v <= n
    ensures exists k :: 0 <= k < |edges| && (edges[k].0 == v || edges[k].1 == v)
  {
    var u := if v == 1 then 2 else 1;
    assert Reachable(n, edges, v, u);
    var p :| IsWalk(n, edges, p) && p[0] == v && p[|p| - 1] == u;
    assert |p| >= 2;
    assert Adjacent(edges, p[0], p[1]);
    var k :| 0 <= k < |edges| && (edges[k] == (p[0], p[1]) || edges[k] == (p[1], p[0]));
    assert edges[k].0 == v || edges[k].1 == v;
  }
}

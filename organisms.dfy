/** Organisms: anchors joined by muscles. An organism numbers its anchors 1..n,
    lays a chain of muscles 1-2, 2-3, ..., (n-1)-n so that no anchor is left
    loose, and then adds muscles between randomly chosen pairs of anchors until
    the requested muscle count is reached. A muscle refers to its anchors by
    their numbers, never by reference. */
module Organisms {
  import opened Runtime
  import opened Topology

  /** An anchor: a point mass known by its 1-based number. */
  datatype Anchor = Anchor(nr: int)

  /** A muscle: its 1-based number and the numbers of the two anchors it joins. */
  datatype Muscle = Muscle(nr: int, connection: Edge)

  /** `c` joins two different anchors, both of 1..n. */
  predicate Joins(c: Edge, n: int)
  {
    1 <= c.0 <= n && 1 <= c.1 <= n && c.0 != c.1
  }

  /** `Muscle(nr, anchor_A, anchor_B, anchors_nr)`. A missing end is chosen among
      1..anchorsNr, leaving out the other end; ends that are both given are
      stored as they are, unchecked. */
  method NewMuscle(nr: int, anchorA: Option<int> := None, anchorB: Option<int> := None, anchorsNr: int := 2)
    returns (r: Result<Muscle>)
    ensures r.Ok? ==> r.value.nr == nr
    ensures anchorA.Some? && anchorB.Some? ==> r == Ok(Muscle(nr, (anchorA.value, anchorB.value)))
    ensures anchorA.None? && anchorB.None? ==>
      if anchorsNr < 2 then r == Err(ChoiceFromEmpty)
      else r.Ok? && Joins(r.value.connection, anchorsNr)
    ensures anchorA.None? && anchorB.Some? ==>
      if !(1 <= anchorB.value <= anchorsNr) then r == Err(RemoveMissing)
      else if anchorsNr == 1 then r == Err(ChoiceFromEmpty)
      else r.Ok? && r.value.connection.1 == anchorB.value && Joins(r.value.connection, anchorsNr)
    ensures anchorA.Some? && anchorB.None? ==>
      if !(1 <= anchorA.value <= anchorsNr) then r == Err(RemoveMissing)
      else if anchorsNr == 1 then r == Err(ChoiceFromEmpty)
      else r.Ok? && r.value.connection.0 == anchorA.value && Joins(r.value.connection, anchorsNr)
  {
    var a, b := anchorA, anchorB;
    if a.None? {
      if b.None? {
        var anchors := Interval(1, anchorsNr + 1);
        var chosen := Choice(anchors);
        if chosen.Err? {
          return Err(chosen.error);
        }
        a := Some(chosen.value);
      } else {
        var anchors := Interval(1, anchorsNr + 1);
        var removed := ListRemove(anchors, b.value);
        if removed.Err? {
          return Err(removed.error);
        }
        anchors := removed.value;
        var chosen := Choice(anchors);
        if chosen.Err? {
          return Err(chosen.error);
        }
        a := Some(chosen.value);
      }
    }
    if b.None? {
      var anchors := Interval(1, anchorsNr + 1);
      var removed := ListRemove(anchors, a.value);
      if removed.Err? {
        return Err(removed.error);
      }
      anchors := removed.value;
      var chosen := Choice(anchors);
      if chosen.Err? {
        return Err(chosen.error);
      }
      b := Some(chosen.value);
    }
    r := Ok(Muscle(nr, (a.value, b.value)));
  }

  ghost predicate NumberedAnchors(anchors: seq<Anchor>)
  {
    forall i :: 0 <= i < |anchors| ==> anchors[i].nr == i + 1
  }

  ghost predicate NumberedMuscles(muscles: seq<Muscle>)
  {
    forall k :: 0 <= k < |muscles| ==> muscles[k].nr == k + 1
  }

  /** The first n - 1 muscles (as many as there are) form the chain: muscle k + 1
      joins anchors k + 1 and k + 2. */
  ghost predicate HasBackbone(muscles: seq<Muscle>, n: int)
  {
    forall k :: 0 <= k < |muscles| && k < n - 1 ==> muscles[k].connection == (k + 1, k + 2)
  }

  /** Every muscle joins two different anchors of 1..n. */
  ghost predicate AllJoin(muscles: seq<Muscle>, n: int)
  {
    forall k :: 0 <= k < |muscles| ==> Joins(muscles[k].connection, n)
  }

  /** How many muscles the builder makes for n anchors and a requested count m:
      the chain, then the muscles numbered n..m. */
  function BuiltCount(n: int, m: int): (c: nat)
    ensures c >= n - 1
    ensures c >= m || m < n
    ensures n >= 1 ==> c == Max(n - 1, m)
  {
    Max(0, n - 1) + Max(0, m - n + 1)
  }

  /** The muscle lists the builder can produce for n anchors and a requested
      count m: the chain first, then further muscles between any two different
      anchors, all numbered 1, 2, ... in list order. */
  ghost predicate BuiltMuscles(n: int, m: int, muscles: seq<Muscle>)
  {
    |muscles| == BuiltCount(n, m) && NumberedMuscles(muscles)
    && HasBackbone(muscles, n) && AllJoin(muscles, n)
  }

  /** The muscle builder raises exactly when it must pick a random muscle
      among fewer than two anchors. */
  predicate MusclesBuildable(n: int, m: int)
  {
    n >= 2 || m < n
  }

  /** The chain of n anchors on its own, as muscles. */
  function Chain(n: int): (muscles: seq<Muscle>)
    requires n >= 1
  {
    seq(n - 1, k => Muscle(k + 1, (k + 1, k + 2)))
  }

  /** The pairs of anchors the muscles join, in list order. */
  function Edges(muscles: seq<Muscle>): (edges: seq<Edge>)
  {
    seq(|muscles|, k requires 0 <= k < |muscles| => muscles[k].connection)
  }

  /** A muscle list that starts with the whole chain connects all n anchors,
      whatever the muscles after the chain join. */
  lemma BackboneConnects(muscles: seq<Muscle>, n: int)
    requires |muscles| >= n - 1 && HasBackbone(muscles, n)
    ensures Connected(n, Edges(muscles))
  {
    var edges := Edges(muscles);
    forall i | 1 <= i < n
      ensures Linked(edges, i)
    {
      assert edges[i - 1] == (i, i + 1);
    }
    ChainConnects(n, edges);
  }

  /** Every muscle list the builder can produce connects all n anchors. */
  lemma BuiltMusclesConnect(n: int, m: int, muscles: seq<Muscle>)
    requires BuiltMuscles(n, m, muscles)
    ensures Connected(n, Edges(muscles))
  {
    BackboneConnects(muscles, n);
  }

  /** A request for no more muscles than the chain needs gives exactly the chain. */
  lemma SmallRequestGivesChain(n: int, m: int, muscles: seq<Muscle>)
    requires n >= 1 && m <= n - 1
    requires BuiltMuscles(n, m, muscles)
    ensures muscles == Chain(n)
  {
  }

  /** Four anchors and a request for two muscles: the three chain muscles, no more. */
  lemma FourAnchorsTwoMuscles(muscles: seq<Muscle>)
    requires BuiltMuscles(4, 2, muscles)
    ensures muscles == [Muscle(1, (1, 2)), Muscle(2, (2, 3)), Muscle(3, (3, 4))]
  {
  }

  /** An organism: its anchors and its muscles, which the constructor builds. */
  class Organism {
    var anchorsNr: int
    var musclesNr: int
    var anchors: seq<Anchor>
    var muscles: seq<Muscle>

    /** The anchors are numbered 1..anchorsNr; the muscles start with the
        chain, join different anchors of 1..anchorsNr, are numbered 1, 2, ...,
        and musclesNr is how many there are. */
    ghost predicate Valid()
      reads this
    {
      |anchors| == Max(0, anchorsNr) && NumberedAnchors(anchors)
      && musclesNr == |muscles| && |muscles| >= anchorsNr - 1
      && NumberedMuscles(muscles) && HasBackbone(muscles, anchorsNr) && AllJoin(muscles, anchorsNr)
    }

    constructor (anchorsNr: int, musclesNr: int)
      requires MusclesBuildable(anchorsNr, musclesNr)
      ensures Valid()
      ensures this.anchorsNr == anchorsNr
      ensures this.musclesNr == BuiltCount(anchorsNr, musclesNr)
      ensures BuiltMuscles(anchorsNr, musclesNr, muscles)
    {
      this.anchorsNr := anchorsNr;
      this.musclesNr := musclesNr;
      anchors := [];
      muscles := [];
      new;
      anchors := InitializeAnchors();
      var built := InitializeMuscles();
      muscles := built.value;
    }

    /** `initializeAnchors`: one anchor per number 1..anchorsNr, in order. */
    method InitializeAnchors() returns (built: seq<Anchor>)
      ensures |built| == Max(0, anchorsNr)
      ensures forall i :: 0 <= i < |built| ==> built[i].nr == i + 1
    {
      built := [];
      var nr := 1;
      while nr < anchorsNr + 1
        invariant 1 <= nr <= Max(1, anchorsNr + 1)
        invariant |built| == nr - 1
        invariant forall i :: 0 <= i < |built| ==> built[i].nr == i + 1
      {
        built := built + [Anchor(nr)];
        nr := nr + 1;
      }
    }

    /** `initializeMuscles`: the chain, then random muscles numbered
        anchorsNr..musclesNr; musclesNr then becomes the number of muscles made.
        It raises (leaving musclesNr alone) when a random muscle is due and
        there are fewer than two anchors to choose from. */
    method InitializeMuscles() returns (r: Result<seq<Muscle>>)
      modifies this`musclesNr
      ensures r.Err? <==> !MusclesBuildable(anchorsNr, old(musclesNr))
      ensures r.Err? ==> r.error == ChoiceFromEmpty && musclesNr == old(musclesNr)
      ensures r.Ok? ==> BuiltMuscles(anchorsNr, old(musclesNr), r.value) && musclesNr == |r.value|
    {
      var built: seq<Muscle> := [];
      var nr := 1;
      while nr < anchorsNr
        invariant 1 <= nr <= Max(1, anchorsNr)
        invariant |built| == nr - 1
        invariant NumberedMuscles(built) && HasBackbone(built, anchorsNr) && AllJoin(built, anchorsNr)
        invariant musclesNr == old(musclesNr)
      {
        var muscle := NewMuscle(nr, anchorA := Some(nr), anchorB := Some(nr + 1));
        built := built + [muscle.value];
        nr := nr + 1;
      }
      nr := anchorsNr;
      while nr < musclesNr + 1
        invariant anchorsNr <= nr <= Max(anchorsNr, musclesNr + 1)
        invariant nr > anchorsNr ==> anchorsNr >= 2
        invariant |built| == Max(0, anchorsNr - 1) + (nr - anchorsNr)
        invariant NumberedMuscles(built) && HasBackbone(built, anchorsNr) && AllJoin(built, anchorsNr)
        invariant musclesNr == old(musclesNr)
      {
        var muscle := NewMuscle(nr, anchorsNr := anchorsNr);
        if muscle.Err? {
          return Err(muscle.error);
        }
        built := built + [muscle.value];
        nr := nr + 1;
      }
      musclesNr := |built|;
      r := Ok(built);
    }

    /** `describe`: the anchor and muscle counts; after construction the
        muscle count is never below the chain's. */
    method Describe() returns (counts: (int, int))
      requires Valid()
      ensures counts == (anchorsNr, musclesNr)
      ensures counts.1 == |muscles| && counts.1 >= counts.0 - 1
      ensures counts.0 >= 0 ==> counts.0 == |anchors|
    {
      counts := (anchorsNr, musclesNr);
    }

    /** The two anchors muscle k is drawn between, looked up as
        `anchors[connection[0] - 1]` and `anchors[connection[1] - 1]`:
        both lookups are in range and find the anchors the muscle names. */
    function EndAnchors(k: int): (ends: (Anchor, Anchor))
      reads this
      requires Valid() && 0 <= k < |muscles|
      ensures ends.0.nr == muscles[k].connection.0 && ends.1.nr == muscles[k].connection.1
      ensures ends.0 != ends.1
    {
      (anchors[muscles[k].connection.0 - 1], anchors[muscles[k].connection.1 - 1])
    }
  }

  /** A constructed organism is one connected structure: every anchor can be
      reached from every other one through its muscles. */
  lemma OrganismConnected(o: Organism)
    requires o.Valid()
    ensures Connected(o.anchorsNr, Edges(o.muscles))
  {
    BackboneConnects(o.muscles, o.anchorsNr);
  }
}

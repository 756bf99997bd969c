/** A population: organisms built from independently sampled anchor and
    muscle counts, each within the population's limits. */
module Populations {
  import opened Runtime
  import opened Topology
  import opened Organisms

  /** What sampling within the limits leaves behind in one organism: a valid
      organism with 2..anchorsNrLimit anchors, whose muscle count is the
      chain's or a request from 1..musclesNrLimit, whichever is larger. */
  ghost predicate Sampled(o: Organism, anchorsNrLimit: int, musclesNrLimit: int)
    reads o
  {
    o.Valid() && 2 <= o.anchorsNr <= anchorsNrLimit
    && Max(1, o.anchorsNr - 1) <= o.musclesNr <= Max(o.anchorsNr - 1, musclesNrLimit)
  }

  class Population {
    var organismsNr: int
    var anchorsNrLimit: int
    var musclesNrLimit: int
    var organisms: seq<Organism>

    /** Every organism was sampled within the limits, and no organism is
        listed twice. */
    ghost predicate Valid()
      reads this, organisms
    {
      (forall i :: 0 <= i < |organisms| ==> Sampled(organisms[i], anchorsNrLimit, musclesNrLimit))
      && (forall i, j :: 0 <= i < j < |organisms| ==> organisms[i] != organisms[j])
    }

    /** `Population(organisms_nr, anchors_nr_limit, muscles_nr_limit)`: one
        organism for each of 1..organismsNr - 1, each from
        `randint(2, anchors_nr_limit)` anchors and `randint(1, muscles_nr_limit)`
        requested muscles. Those draws raise on an empty range, so the limits
        matter only once there is an organism to build. */
    constructor (organismsNr: int := 2, anchorsNrLimit: int := 2, musclesNrLimit: int := 1)
      requires organismsNr <= 1 || (anchorsNrLimit >= 2 && musclesNrLimit >= 1)
      ensures this.organismsNr == organismsNr
      ensures this.anchorsNrLimit == anchorsNrLimit && this.musclesNrLimit == musclesNrLimit
      ensures |organisms| == Max(0, organismsNr - 1)
      ensures forall i :: 0 <= i < |organisms| ==> fresh(organisms[i])
      ensures Valid()
    {
      this.organismsNr := organismsNr;
      this.anchorsNrLimit := anchorsNrLimit;
      this.musclesNrLimit := musclesNrLimit;
      var built: seq<Organism> := [];
      var organismNr := 1;
      while organismNr < organismsNr
        invariant 1 <= organismNr <= Max(1, organismsNr)
        invariant |built| == organismNr - 1
        invariant forall i :: 0 <= i < |built| ==> fresh(built[i])
        invariant forall i :: 0 <= i < |built| ==> Sampled(built[i], anchorsNrLimit, musclesNrLimit)
        invariant forall i, j :: 0 <= i < j < |built| ==> built[i] != built[j]
      {
        var anchorsNr := RandInt(2, anchorsNrLimit);
        var musclesNr := RandInt(1, musclesNrLimit);
        var organism := new Organism(anchorsNr.value, musclesNr.value);
        built := built + [organism];
        organismNr := organismNr + 1;
      }
      organisms := built;
    }
  }

  /** Every organism of a population is one connected structure. */
  lemma PopulationConnected(p: Population)
    requires p.Valid()
    ensures forall i :: 0 <= i < |p.organisms| ==>
      Connected(p.organisms[i].anchorsNr, Edges(p.organisms[i].muscles))
  {
    forall i | 0 <= i < |p.organisms|
      ensures Connected(p.organisms[i].anchorsNr, Edges(p.organisms[i].muscles))
    {
      OrganismConnected(p.organisms[i]);
    }
  }
}

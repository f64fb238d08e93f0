/**
  The Arc of the fiducial map: the graph edge between two tags that were seen
  together in a camera frame. An arc stores the measured geometry between its
  two tags, keeps the tag with the lower id as its `fromTag`, is registered
  with both tags and with the map, takes part in two orderings (identity and
  growth), and accepts a newer observation only when its goodness is better.
 */
module Arcs {
  import opened Merging

  /** The goodness of an arc that has no observation yet. */
  const UnsetGoodness: real := 123456789.0

  /** The distance of an arc that has no observation yet. */
  const UnsetDistance: real := -1.0

  /** The map that owns all tags and arcs. Only its flat list of arcs is
      modelled; its lookups and its announcement hook are not. */
  class Map {
    var arcs: seq<Arc>

    constructor ()
      ensures arcs == []
    {
      arcs := [];
    }

    /** Map__arc_append, taken to append `arc` to the map's list. */
    method AppendArc(arc: Arc)
      modifies this`arcs
      ensures arcs == old(arcs) + [arc]
    {
      arcs := arcs + [arc];
    }
  }

  /** A fiducial tag, as far as an arc uses it: its identity, the map it
      belongs to, its hop count from the spanning-tree root and the list of
      arcs that touch it. */
  class Tag {
    const id: nat
    const owner: Map  // the tag's `map` field
    var hopCount: nat
    var arcs: seq<Arc>

    constructor (id: nat, owner: Map)
      ensures this.id == id && this.owner == owner
      ensures hopCount == 0 && arcs == []
    {
      this.id := id;
      this.owner := owner;
      hopCount := 0;
      arcs := [];
    }

    /** Tag__arc_append, taken to append `arc` to the tag's list. */
    method AppendArc(arc: Arc)
      modifies this`arcs
      ensures arcs == old(arcs) + [arc]
    {
      arcs := arcs + [arc];
    }
  }

  /** Tag__equal and Tag__less, taken to compare tag ids. */
  predicate TagEqual(t1: Tag, t2: Tag) {
    t1.id == t2.id
  }

  predicate TagLess(t1: Tag, t2: Tag) {
    t1.id < t2.id
  }

  /** One end of an arc as given to Arc__create: a tag and its twist. */
  datatype End = End(tag: Tag, twist: real)

  /** The canonical orientation of a pair of ends: the end whose tag has the
      lower id comes first, each twist stays with its own tag, and ends whose
      ids tie keep the order they were given in. */
  function Canonical(a: End, b: End): (r: (End, End))
    ensures r == (a, b) || r == (b, a)
    ensures r.0.tag.id <= r.1.tag.id
    ensures a.tag.id != b.tag.id ==> r.0.tag.id < r.1.tag.id
    ensures a.tag.id == b.tag.id ==> r == (a, b)
  {
    if a.tag.id > b.tag.id then (b, a) else (a, b)
  }

  /** Discovery order does not matter: the two argument orders of a pair of
      tags with different ids give the same canonical pair. */
  lemma CanonicalSymmetric(a: End, b: End)
    requires a.tag.id != b.tag.id
    ensures Canonical(a, b) == Canonical(b, a)
  {
  }

  class Arc {
    var distance: real
    var fromTag: Tag?
    var fromTwist: real
    var goodness: real
    var inTree: bool
    var toTag: Tag?
    var toTwist: real
    var visit: nat

    /** Arc__new: an arc with no tags and no observation. */
    constructor ()
      ensures distance == UnsetDistance && goodness == UnsetGoodness
      ensures fromTag == null && toTag == null
      ensures fromTwist == 0.0 && toTwist == 0.0
      ensures !inTree && visit == 0
    {
      distance := UnsetDistance;
      fromTag := null;
      fromTwist := 0.0;
      goodness := UnsetGoodness;
      inTree := false;
      toTag := null;
      toTwist := 0.0;
      visit := 0;
    }

    /** Both ends are set. */
    predicate Linked()
      reads this
    {
      fromTag != null && toTag != null
    }

    /** Both ends are set and in canonical orientation. */
    predicate Oriented()
      reads this
    {
      Linked() && fromTag.id < toTag.id
    }

    /** The measured values of this arc. */
    function Measured(): Measurement
      reads this
    {
      Measurement(fromTwist, distance, toTwist, goodness, inTree)
    }

    /** Arc__update: overwrites the two twists, the distance and the
        goodness. The arc must be in canonical orientation and the new
        distance positive; both are checked by assertions in the source. */
    method Update(fromTwist: real, distance: real, toTwist: real, goodness: real)
      requires Oriented()
      requires distance > 0.0
      modifies this`fromTwist, this`distance, this`goodness, this`toTwist
      ensures this.fromTwist == fromTwist && this.distance == distance
      ensures this.toTwist == toTwist && this.goodness == goodness
      ensures fromTag == old(fromTag) && toTag == old(toTag)
      ensures inTree == old(inTree) && visit == old(visit)
      ensures Oriented()
    {
      this.fromTwist := fromTwist;
      this.distance := distance;
      this.goodness := goodness;
      this.toTwist := toTwist;
    }

    /** The decision part of Arc__read, given the already parsed and
        converted record: when the record's goodness is strictly better, the
        arc takes all its values, tree flag included, and the map is told
        (`announced`); otherwise nothing changes. The assertions of
        Arc__update apply only on the path that calls it. */
    method Merge(incoming: Measurement) returns (announced: bool)
      requires Supersedes(incoming, Measured()) ==> Oriented() && incoming.distance > 0.0
      modifies this`fromTwist, this`distance, this`goodness, this`toTwist, this`inTree
      ensures announced == Supersedes(incoming, old(Measured()))
      ensures Measured() == Merged(old(Measured()), incoming)
      ensures fromTag == old(fromTag) && toTag == old(toTag) && visit == old(visit)
    {
      announced := false;
      if goodness > incoming.goodness {
        Update(incoming.fromTwist, incoming.distance, incoming.toTwist, incoming.goodness);
        inTree := incoming.inTree;
        announced := true;
      }
    }
  }

  /** Arc__create: orients the pair so that the lower id comes first
      (swapping each tag together with its twist), fills a new arc and
      appends it to both tags and to the map of the lower-id tag. */
  method Create(fromTag: Tag, fromTwist: real, distance: real, toTag: Tag, toTwist: real, goodness: real)
    returns (arc: Arc)
    modifies fromTag`arcs, toTag`arcs
    modifies Canonical(End(fromTag, fromTwist), End(toTag, toTwist)).0.tag.owner`arcs
    ensures fresh(arc)
    ensures var c := Canonical(End(fromTag, fromTwist), End(toTag, toTwist));
      arc.fromTag == c.0.tag && arc.fromTwist == c.0.twist &&
      arc.toTag == c.1.tag && arc.toTwist == c.1.twist
    ensures arc.Linked() && arc.fromTag.id <= arc.toTag.id
    ensures fromTag.id != toTag.id ==> arc.Oriented()
    ensures arc.distance == distance && arc.goodness == goodness
    ensures !arc.inTree && arc.visit == 0
    ensures fromTag != toTag ==>
      fromTag.arcs == old(fromTag.arcs) + [arc] && toTag.arcs == old(toTag.arcs) + [arc]
    ensures fromTag == toTag ==> fromTag.arcs == old(fromTag.arcs) + [arc, arc]
    ensures var m := Canonical(End(fromTag, fromTwist), End(toTag, toTwist)).0.tag.owner;
      m.arcs == old(m.arcs) + [arc]
  {
    var lowTag, lowTwist, highTag, highTwist := fromTag, fromTwist, toTag, toTwist;
    if fromTag.id > toTag.id {
      lowTag, highTag := toTag, fromTag;
      lowTwist, highTwist := toTwist, fromTwist;
    }

    arc := new Arc();
    arc.distance := distance;
    arc.fromTag := lowTag;
    arc.fromTwist := lowTwist;
    arc.goodness := goodness;
    arc.toTag := highTag;
    arc.toTwist := highTwist;

    lowTag.AppendArc(arc);
    highTag.AppendArc(arc);
    lowTag.owner.AppendArc(arc);
  }

  // Identity ordering

  /** Arc__equal: both ends match pairwise, never crosswise. */
  predicate Equal(a1: Arc, a2: Arc)
    reads a1, a2
    requires a1.Linked() && a2.Linked()
  {
    TagEqual(a1.fromTag, a2.fromTag) && TagEqual(a1.toTag, a2.toTag)
  }

  /** Arc__less: the `fromTag` decides, and the `toTag` breaks a tie. */
  predicate Less(a1: Arc, a2: Arc)
    reads a1, a2
    requires a1.Linked() && a2.Linked()
  {
    if TagLess(a1.fromTag, a2.fromTag) then true
    else if TagEqual(a1.fromTag, a2.fromTag) then TagLess(a1.toTag, a2.toTag)
    else false
  }

  /** Equality is the pairwise equality of the end ids. */
  lemma EqualIffIds(a1: Arc, a2: Arc)
    requires a1.Linked() && a2.Linked()
    ensures Equal(a1, a2) <==> a1.fromTag.id == a2.fromTag.id && a1.toTag.id == a2.toTag.id
  {
  }

  lemma EqualIsEquivalence(a1: Arc, a2: Arc, a3: Arc)
    requires a1.Linked() && a2.Linked() && a3.Linked()
    ensures Equal(a1, a1)
    ensures Equal(a1, a2) <==> Equal(a2, a1)
    ensures Equal(a1, a2) && Equal(a2, a3) ==> Equal(a1, a3)
  {
  }

  /** The identity ordering is lexicographic on the pair of end ids. */
  lemma LessIsLexicographic(a1: Arc, a2: Arc)
    requires a1.Linked() && a2.Linked()
    ensures Less(a1, a2) <==>
      a1.fromTag.id < a2.fromTag.id ||
      (a1.fromTag.id == a2.fromTag.id && a1.toTag.id < a2.toTag.id)
  {
  }

  lemma LessIsStrictOrder(a1: Arc, a2: Arc, a3: Arc)
    requires a1.Linked() && a2.Linked() && a3.Linked()
    ensures !Less(a1, a1)
    ensures Less(a1, a2) ==> !Less(a2, a1)
    ensures Less(a1, a2) && Less(a2, a3) ==> Less(a1, a3)
  {
  }

  /** Exactly one of `Less(a1, a2)`, `Less(a2, a1)` and `Equal(a1, a2)`
      holds, so the identity ordering is total on distinct id pairs. */
  lemma LessTrichotomy(a1: Arc, a2: Arc)
    requires a1.Linked() && a2.Linked()
    ensures Less(a1, a2) || Less(a2, a1) || Equal(a1, a2)
    ensures !(Less(a1, a2) && Less(a2, a1))
    ensures !(Less(a1, a2) && Equal(a1, a2))
    ensures !(Less(a2, a1) && Equal(a1, a2))
  {
  }

  /** Equal arcs are interchangeable in the identity ordering. */
  lemma LessRespectsEqual(a1: Arc, b1: Arc, a2: Arc)
    requires a1.Linked() && b1.Linked() && a2.Linked()
    requires Equal(a1, b1)
    ensures Less(a1, a2) <==> Less(b1, a2)
    ensures Less(a2, a1) <==> Less(a2, b1)
  {
  }

  // Growth ordering

  /** The smaller hop count of the two ends, as `std::min` gives it. */
  function MinHopCount(a: Arc): (h: nat)
    reads a, a.fromTag, a.toTag
    requires a.Linked()
    ensures h <= a.fromTag.hopCount && h <= a.toTag.hopCount
    ensures h == a.fromTag.hopCount || h == a.toTag.hopCount
  {
    if a.toTag.hopCount < a.fromTag.hopCount then a.toTag.hopCount else a.fromTag.hopCount
  }

  /** Arc__distance_less: the longer arc sorts first; between arcs of equal
      length, the one whose ends have the larger minimum hop count. */
  predicate DistanceLess(a1: Arc, a2: Arc)
    reads a1, a2, a1.fromTag, a1.toTag, a2.fromTag, a2.toTag
    requires a1.Linked() && a2.Linked()
  {
    if a1.distance > a2.distance then true
    else if a1.distance == a2.distance then MinHopCount(a1) > MinHopCount(a2)
    else false
  }

  /** The distance decides whenever the distances differ, whatever the hop
      counts are. */
  lemma DistanceLessByDistance(a1: Arc, a2: Arc)
    requires a1.Linked() && a2.Linked()
    ensures a1.distance > a2.distance ==> DistanceLess(a1, a2)
    ensures a1.distance < a2.distance ==> !DistanceLess(a1, a2)
  {
  }

  /** On equal distances the larger minimum hop count sorts first. */
  lemma DistanceLessOnTie(a1: Arc, a2: Arc)
    requires a1.Linked() && a2.Linked()
    requires a1.distance == a2.distance
    ensures DistanceLess(a1, a2) <==> MinHopCount(a1) > MinHopCount(a2)
  {
  }

  /** The growth ordering is a strict weak ordering: irreflexive,
      asymmetric and transitive, and two arcs are unordered exactly when
      they have the same distance and the same minimum hop count. */
  lemma DistanceLessIsStrictWeakOrder(a1: Arc, a2: Arc, a3: Arc)
    requires a1.Linked() && a2.Linked() && a3.Linked()
    ensures !DistanceLess(a1, a1)
    ensures DistanceLess(a1, a2) ==> !DistanceLess(a2, a1)
    ensures DistanceLess(a1, a2) && DistanceLess(a2, a3) ==> DistanceLess(a1, a3)
    ensures !DistanceLess(a1, a2) && !DistanceLess(a2, a1) <==>
      a1.distance == a2.distance && MinHopCount(a1) == MinHopCount(a2)
  {
  }
}

/**
  Clients of Arcs that use nothing but the contracts of Create and Merge:
  they show that those contracts are strong enough to decide the outcome of
  typical map-building steps.
 */
module Scenarios {
  import opened Merging
  import opened Arcs

  /** Creating the arc for a pair of tags in either discovery order gives
      arcs that agree on every stored field. */
  method CreateBothWays(a: Tag, ta: real, b: Tag, tb: real, distance: real, goodness: real)
    returns (ab: Arc, ba: Arc)
    requires a.id != b.id
    modifies a`arcs, b`arcs, a.owner`arcs, b.owner`arcs
    ensures ab.fromTag == ba.fromTag && ab.toTag == ba.toTag
    ensures ab.fromTwist == ba.fromTwist && ab.toTwist == ba.toTwist
    ensures ab.distance == ba.distance && ab.goodness == ba.goodness
    ensures ab.inTree == ba.inTree && ab.visit == ba.visit
    ensures ab.Oriented() && Equal(ab, ba)
  {
    ab := Create(a, ta, distance, b, tb, goodness);
    ba := Create(b, tb, distance, a, ta, goodness);
    CanonicalSymmetric(End(a, ta), End(b, tb));
  }

  /** Tags 5 and 2 seen in that order: the arc starts at tag 2 and carries
      the twist given with tag 2. A worse record (goodness 80 against 50) is
      ignored; a better one (goodness 10, distance 1.5) is taken. */
  method CreateThenMerge(twist5: real, twist2: real)
  {
    var m := new Map();
    var tag5 := new Tag(5, m);
    var tag2 := new Tag(2, m);
    var arc := Create(tag5, twist5, 2.0, tag2, twist2, 50.0);
    assert arc.fromTag == tag2 && arc.fromTwist == twist2;
    assert arc.toTag == tag5 && arc.toTwist == twist5;
    assert m.arcs == [arc] && tag2.arcs == [arc] && tag5.arcs == [arc];

    var announced := arc.Merge(Measurement(0.0, 3.0, 0.0, 80.0, true));
    assert !announced;
    assert arc.distance == 2.0 && arc.goodness == 50.0 && !arc.inTree;

    announced := arc.Merge(Measurement(twist2, 1.5, twist5, 10.0, false));
    assert announced;
    assert arc.distance == 1.5 && arc.goodness == 10.0;
    assert arc.fromTag == tag2 && arc.toTag == tag5;
  }

  /** Offering the records of `stream` to one arc, one `Merge` call after the
      other, leaves it holding `MergeAll` of its initial values and the
      stream. Each call's demands apply only to the records that pass the
      gate at their turn. */
  method MergeEach(arc: Arc, stream: seq<Measurement>)
    requires forall i :: 0 <= i < |stream| ==>
      (Supersedes(stream[i], MergeAll(arc.Measured(), stream[..i])) ==>
        arc.Oriented() && stream[i].distance > 0.0)
    modifies arc`fromTwist, arc`distance, arc`goodness, arc`toTwist, arc`inTree
    ensures arc.Measured() == MergeAll(old(arc.Measured()), stream)
    ensures arc.fromTag == old(arc.fromTag) && arc.toTag == old(arc.toTag)
    ensures arc.visit == old(arc.visit)
  {
    ghost var start := arc.Measured();
    var i := 0;
    while i < |stream|
      invariant 0 <= i <= |stream|
      invariant arc.Measured() == MergeAll(start, stream[..i])
      invariant arc.fromTag == old(arc.fromTag) && arc.toTag == old(arc.toTag)
      invariant arc.visit == old(arc.visit)
      invariant arc.Oriented() == old(arc.Oriented())
    {
      MergeAllAppend(start, stream[..i], [stream[i]]);
      assert stream[..i + 1] == stream[..i] + [stream[i]];
      assert MergeAll(arc.Measured(), [stream[i]]) == Merged(arc.Measured(), stream[i]);
      var _ := arc.Merge(stream[i]);
      i := i + 1;
    }
    assert stream[..|stream|] == stream;
  }
}

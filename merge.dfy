/**
  The measured values an arc carries about one pair of tags, and the
  goodness-gated merge that Arc__read applies when a saved record for an
  existing arc is read back. Everything here is a pure value; the class
  Arcs.Arc applies these functions to its own fields.
 */
module Merging {

  /** The measured part of an arc: the twists of both tags in radians, the
      distance between the tag centres, the goodness (the distance from the
      camera centre at capture time, lower is better) and the spanning-tree
      flag. A parsed record, after its twists were converted to radians,
      has the same shape. */
  datatype Measurement = Measurement(
    fromTwist: real,
    distance: real,
    toTwist: real,
    goodness: real,
    inTree: bool)

  function Min(x: real, y: real): (m: real)
    ensures m <= x && m <= y
    ensures m == x || m == y
  {
    if x <= y then x else y
  }

  /** The gate of Arc__read: a record replaces the stored values only when
      its goodness is strictly smaller than the stored goodness. */
  predicate Supersedes(incoming: Measurement, stored: Measurement) {
    stored.goodness > incoming.goodness
  }

  /** The values an arc holds after one record has been offered to it:
      the better of the two, the stored one on a tie. */
  function Merged(stored: Measurement, incoming: Measurement): (r: Measurement)
    ensures r.goodness == Min(stored.goodness, incoming.goodness)
    ensures r == stored || r == incoming
    ensures r != stored ==> incoming.goodness < stored.goodness
  {
    if Supersedes(incoming, stored) then incoming else stored
  }

  /** Offering the same record a second time changes nothing: the first
      offer leaves a goodness no larger than the record's, so the strict
      gate fails the second time. */
  lemma MergedIdempotent(stored: Measurement, incoming: Measurement)
    ensures Merged(Merged(stored, incoming), incoming) == Merged(stored, incoming)
  {
  }

  /** The stored goodness never grows. */
  lemma MergedMonotone(stored: Measurement, incoming: Measurement)
    ensures Merged(stored, incoming).goodness <= stored.goodness
    ensures Merged(stored, incoming).goodness <= incoming.goodness
  {
  }

  /** The values an arc holds after the records of `stream` were offered to
      it one after the other, as successive calls of Arc__read do. */
  function MergeAll(stored: Measurement, stream: seq<Measurement>): Measurement
    decreases |stream|
  {
    if stream == [] then stored else MergeAll(Merged(stored, stream[0]), stream[1..])
  }

  /** After a stream of records the arc holds the best observation seen:
      no record and not the initial values had a smaller goodness, and the
      result is one of them. */
  lemma {:induction false} MergeAllBest(stored: Measurement, stream: seq<Measurement>)
    ensures MergeAll(stored, stream).goodness <= stored.goodness
    ensures forall i :: 0 <= i < |stream| ==> MergeAll(stored, stream).goodness <= stream[i].goodness
    ensures MergeAll(stored, stream) == stored || MergeAll(stored, stream) in stream
    decreases |stream|
  {
    if stream != [] {
      var m := Merged(stored, stream[0]);
      MergeAllBest(m, stream[1..]);
      var r := MergeAll(stored, stream);
      assert r == MergeAll(m, stream[1..]);
      forall i | 0 <= i < |stream| ensures r.goodness <= stream[i].goodness {
        if i > 0 {
          assert stream[i] == stream[1..][i - 1];
        }
      }
      assert r == m || r in stream[1..];
    }
  }

  /** Records that are no better than the stored values leave the arc as
      it is. */
  lemma {:induction false} MergeAllStable(stored: Measurement, stream: seq<Measurement>)
    requires forall i :: 0 <= i < |stream| ==> stored.goodness <= stream[i].goodness
    ensures MergeAll(stored, stream) == stored
    decreases |stream|
  {
    if stream != [] {
      assert Merged(stored, stream[0]) == stored;
      forall i | 0 <= i < |stream[1..]| ensures stored.goodness <= stream[1..][i].goodness {
        assert stream[1..][i] == stream[i + 1];
      }
      MergeAllStable(stored, stream[1..]);
    }
  }

  /** Reading one stream and then another is reading their concatenation:
      several saved snapshots can be merged one file at a time. */
  lemma {:induction false} MergeAllAppend(stored: Measurement, xs: seq<Measurement>, ys: seq<Measurement>)
    ensures MergeAll(stored, xs + ys) == MergeAll(MergeAll(stored, xs), ys)
    decreases |xs|
  {
    if xs == [] {
      assert xs + ys == ys;
    } else {
      assert (xs + ys)[0] == xs[0];
      assert (xs + ys)[1..] == xs[1..] + ys;
      MergeAllAppend(Merged(stored, xs[0]), xs[1..], ys);
    }
  }

  /** Reading the same stream twice has the effect of reading it once. */
  lemma MergeAllIdempotent(stored: Measurement, stream: seq<Measurement>)
    ensures MergeAll(MergeAll(stored, stream), stream) == MergeAll(stored, stream)
  {
    MergeAllBest(stored, stream);
    MergeAllStable(MergeAll(stored, stream), stream);
  }

  /** Re-reading a snapshot that was already merged is harmless. */
  lemma MergeAllRepeat(stored: Measurement, stream: seq<Measurement>)
    ensures MergeAll(stored, stream + stream) == MergeAll(stored, stream)
  {
    MergeAllAppend(stored, stream, stream);
    MergeAllIdempotent(stored, stream);
  }

  /** No two different observations share a goodness value. */
  predicate Untied(ms: seq<Measurement>) {
    forall i, j :: 0 <= i < |ms| && 0 <= j < |ms| && ms[i].goodness == ms[j].goodness ==> ms[i] == ms[j]
  }

  /** When no two different observations tie on goodness, the order in which
      two snapshots are read does not matter. With ties it can, as
      MergeAllTieKeepsEarliest shows. */
  lemma MergeAllOrderIndependent(stored: Measurement, xs: seq<Measurement>, ys: seq<Measurement>)
    requires Untied([stored] + xs + ys)
    ensures MergeAll(stored, xs + ys) == MergeAll(stored, ys + xs)
  {
    var all := [stored] + xs + ys;
    var r1 := MergeAll(stored, xs + ys);
    var r2 := MergeAll(stored, ys + xs);
    MergeAllBest(stored, xs + ys);
    MergeAllBest(stored, ys + xs);
    assert forall m :: m in xs + ys <==> m in ys + xs;
    assert r1 in all by {
      assert r1 == stored || r1 in xs + ys;
    }
    assert r2 in all by {
      assert r2 == stored || r2 in ys + xs;
    }
    assert r1.goodness <= r2.goodness by {
      if r2 != stored {
        var k :| 0 <= k < |xs + ys| && (xs + ys)[k] == r2;
      }
    }
    assert r2.goodness <= r1.goodness by {
      if r1 != stored {
        var k :| 0 <= k < |ys + xs| && (ys + xs)[k] == r1;
      }
    }
    var i :| 0 <= i < |all| && all[i] == r1;
    var j :| 0 <= j < |all| && all[j] == r2;
  }

  /** Of two records that tie on a goodness better than the stored one, the
      one read first wins, so the reading order decides between them. */
  lemma MergeAllTieKeepsEarliest(stored: Measurement, x: Measurement, y: Measurement)
    requires x.goodness == y.goodness && x.goodness < stored.goodness
    ensures MergeAll(stored, [x, y]) == x
    ensures MergeAll(stored, [y, x]) == y
    ensures x != y ==> MergeAll(stored, [x, y]) != MergeAll(stored, [y, x])
  {
    assert [x, y][1..] == [y] && [y, x][1..] == [x];
    assert MergeAll(stored, [x, y]) == MergeAll(x, [y]) == MergeAll(x, []);
    assert MergeAll(stored, [y, x]) == MergeAll(y, [x]) == MergeAll(y, []);
  }
}

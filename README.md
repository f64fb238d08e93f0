# Arc: the edge of the fiducial map

This project models the `Arc` of the fiducials map builder in Dafny. An arc is
the graph edge between two fiducial tags that were seen together in a camera
frame. It stores the measured geometry between the two tags: one twist per tag
in radians, the distance between the tag centres, and a goodness score where
lower is better. It also carries a spanning-tree flag and a visit counter.

The model covers these parts of `Arc.cpp`:

- canonical construction: the tag with the lower id becomes `fromTag`, and each twist stays with its own tag;
- registration of a new arc with both tags and with the map;
- the defaults set by `Arc__new`;
- identity equality and identity ordering;
- the growth ordering used to build the spanning tree;
- the guarded `Arc__update`;
- the goodness-gated merge that `Arc__read` applies to a record it has already parsed.

Files:

- `merge.dfy`, module `Merging`. The measured values as a datatype
  (`Measurement`), the one-record merge `Merged`, and the fold `MergeAll`.
  `MergeAll` is what a sequence of `Arc__read` calls on the same arc
  computes; `Scenarios.MergeEach` proves this for a loop of `Arc.Merge` calls. The
  lemmas show that the merge keeps the best observation seen, that it is
  idempotent, that appending snapshots composes, and that without goodness
  ties the reading order does not matter.
- `arc.dfy`, module `Arcs`. The classes `Tag`, `Map` and `Arc`, where each
  field the source updates is a `var`. It also holds the pure function
  `Canonical`, the methods `Create`, `Arc.Update` and `Arc.Merge` (framed
  field by field with `modifies`), and the three comparators as predicates,
  with lemmas about their order properties.
- `scenarios.dfy`, module `Scenarios`. Clients that use only the contracts
  above, among them `MergeEach`, a loop of `Arc.Merge` calls.

Modelling decisions:

- C `double` is modelled as `real`.
- Each `assert` in `Arc__update` becomes a `requires`, because a failing
  assertion aborts the program.
- `Arc.Merge` demands those conditions only when the gate passes. That is the
  only path on which `Arc__update` runs.
- `Tag__equal` and `Tag__less` are not part of this model. They are taken to
  compare tag ids (`TagEqual`, `TagLess`).
- `Tag__arc_append` and `Map__arc_append` are taken to append to the list (`AppendArc`).
- A tag's id and its map are `const`: nothing in `Arc.cpp` changes them.
- The source's `map` field of a tag is named `owner`, because `map` is a Dafny keyword.

Behaviour of the code that the model keeps:

- `Arc__create` swaps only when `from_tag->id > to_tag->id`, so two tags with
  equal ids are stored in the order given. `Create` therefore promises `<=`,
  and `<` only when the ids differ. With the same tag at both ends, the arc is
  appended to that tag twice.
- The arc is registered with the map of the tag that ends up as `fromTag`
  (`from_tag->map` after the swap).
- The "no observation yet" goodness is the number `123456789.0`, not an
  optional value.

## Model

| member | source | states |
|---|---|---|
| `Arcs.Canonical` | Arc.cpp:51-61 | the result is the given pair or the swapped pair. Each twist stays with its tag. The lower id comes first, with strict order when the ids differ. Pairs with tied ids keep the given order. |
| `Arcs.CanonicalSymmetric` | Arc.cpp:52-70 | for tags with different ids, both argument orders give the same canonical pair of tags and twists |
| `Arcs.Create` | Arc.cpp:49-78 | the new arc holds the canonical tags and twists, `fromTag.id <= toTag.id` (strict when the ids differ), and the distance and goodness given. `inTree` is false and `visit` is 0. The arc is appended once to each endpoint tag, twice when both ends are the same tag, and once to the lower-id tag's map. Nothing else changes. |
| `Arcs.TagEqual` | Arc.cpp:22-23 | assumption: `Tag__equal` (not part of this model) compares tag ids |
| `Arcs.TagLess` | Arc.cpp:28-31 | assumption: `Tag__less` (not part of this model) orders tags by id |
| `Arcs.Tag.AppendArc` | Arc.cpp:73-74 | assumption: `Tag__arc_append` (not part of this model) appends the arc to the tag's list and changes nothing else |
| `Arcs.Map.AppendArc` | Arc.cpp:75 | assumption: `Map__arc_append` (not part of this model) appends the arc to the map's list and changes nothing else |
| `Arcs.Arc.constructor` | Arc.cpp:121-132 | defaults: distance -1.0, both twists 0.0, goodness 123456789.0, `inTree` false, null tags, `visit` 0 |
| `Arcs.Arc.Update` | Arc.cpp:206-215 | demands canonical orientation and a positive distance. Sets exactly the two twists, the distance and the goodness. Tags, `inTree` and `visit` are unchanged, and the orientation still holds. |
| `Arcs.Arc.Merge` | Arc.cpp:165-176 | the arc's measured values become `Merged(old values, record)`. The map is announced exactly when the record's goodness is strictly smaller. Tags and `visit` are unchanged. The orientation and distance demands apply only on the update path. |
| `Arcs.Equal` | Arc.cpp:21-24 | `Arc__equal`: the `from` tags are equal and the `to` tags are equal; its properties are the lemmas below |
| `Arcs.EqualIffIds` | Arc.cpp:21-24 | `Equal` holds iff the `from` ids match and the `to` ids match |
| `Arcs.EqualIsEquivalence` | Arc.cpp:21-24 | `Equal` is reflexive, symmetric and transitive |
| `Arcs.Less` | Arc.cpp:27-34 | `Arc__less`: the `from` tags decide, the `to` tags break a tie; its properties are the lemmas below |
| `Arcs.LessIsLexicographic` | Arc.cpp:27-34 | `Less` is the lexicographic order on `(fromTag.id, toTag.id)` |
| `Arcs.LessIsStrictOrder` | Arc.cpp:27-34 | `Less` is irreflexive, asymmetric and transitive |
| `Arcs.LessTrichotomy` | Arc.cpp:21-34 | exactly one of `Less(a, b)`, `Less(b, a)` and `Equal(a, b)` holds |
| `Arcs.LessRespectsEqual` | Arc.cpp:21-34 | replacing an arc by an `Equal` one does not change the outcome of `Less` in either argument position |
| `Arcs.MinHopCount` | Arc.cpp:93-96 | the result is one of the two endpoint hop counts and is no larger than either |
| `Arcs.DistanceLess` | Arc.cpp:88-104 | `Arc__distance_less`: the longer arc first, then the larger minimum hop count; its properties are the lemmas below |
| `Arcs.DistanceLessByDistance` | Arc.cpp:88-104 | a longer arc sorts first and a shorter one does not, whatever the hop counts |
| `Arcs.DistanceLessOnTie` | Arc.cpp:92-104 | for equal distances, the arc sorts first iff its minimum endpoint hop count is larger |
| `Arcs.DistanceLessIsStrictWeakOrder` | Arc.cpp:88-104 | the growth order is irreflexive, asymmetric and transitive. Two arcs are unordered exactly when their distances and minimum hop counts are equal. |
| `Merging.Supersedes` | Arc.cpp:170 | the gate: the record's goodness is strictly smaller than the stored goodness |
| `Merging.Merged` | Arc.cpp:170-174 | the result is the stored values or the record, and its goodness is the smaller of the two. The result differs from the stored values only if the record's goodness is strictly smaller, so a tie keeps the stored values. |
| `Merging.MergedIdempotent` | Arc.cpp:170 | offering the same record twice has the effect of offering it once |
| `Merging.MergedMonotone` | Arc.cpp:170-174 | the goodness after a merge is no larger than the stored goodness and no larger than the record's |
| `Merging.MergeAll` | Arc.cpp:165-176 | the values after a sequence of records was offered in order; tied to repeated `Arc.Merge` calls by `Scenarios.MergeEach` |
| `Merging.MergeAllBest` | Arc.cpp:165-176 | after a stream of records, the arc holds the initial values or one of the records, and no record had a smaller goodness |
| `Merging.MergeAllStable` | Arc.cpp:170 | records whose goodness is no better than the stored goodness leave the arc unchanged |
| `Merging.MergeAllAppend` | Arc.cpp:165-176 | merging `xs + ys` equals merging `xs` first and then `ys` |
| `Merging.MergeAllIdempotent` | Arc.cpp:165-176 | merging the same stream a second time changes nothing |
| `Merging.MergeAllRepeat` | Arc.cpp:165-176 | merging a stream followed by itself equals merging it once |
| `Merging.MergeAllOrderIndependent` | Arc.cpp:165-176 | when no two different observations tie on goodness, the order of two snapshots does not matter |
| `Merging.MergeAllTieKeepsEarliest` | Arc.cpp:170 | of two records tying on a goodness better than the stored one, the one read first wins, so the reading order decides between different tied records |
| `Scenarios.CreateBothWays` | Arc.cpp:49-78 | creating an arc from `(a, ta, b, tb)` and from `(b, tb, a, ta)` with different ids stores the same tags, twists, distance, goodness, flag and counter, and the two arcs are `Equal` |
| `Scenarios.MergeEach` | Arc.cpp:165-176 | offering a sequence of records to one arc by successive `Arc.Merge` calls leaves its measured values equal to `MergeAll` of its initial values and the records; tags and `visit` are unchanged |

## Left out

- Record parsing and writing (`File__tag_match`, `File__*_attribute_read`,
  `File__string_match`, `File__format`, Arc.cpp:145-156 and 224-241). This is
  text I/O through primitives that are not part of this model. `Arc.Merge`
  takes the values already parsed.
- The degree/radian conversion with a floating `pi` (Arc.cpp:159-162,
  226-229). This is floating-point arithmetic. Twists reach `Arc.Merge`
  already in radians. No write/read round trip is claimed, because `%f`
  rounds to six decimals.
- `Map__tag_lookup` and `Map__arc_lookup` (Arc.cpp:165-167). The looked-up arc
  is the receiver of `Arc.Merge`. Whether the record's two ids match that
  arc's tags is not modelled.
- `Map__arc_announce` (Arc.cpp:173) is modelled only as the `announced`
  result of `Arc.Merge`.
- SVG rendering (`Arc__svg_write`, Arc.cpp:185-193). It is a wrapper over the
  drawing primitive: red when `inTree`, green otherwise.
- Memory allocation (`Memory__new`, Arc.cpp:122) is modelled as Dafny `new`;
  the debug label that `Arc__new` takes is dropped.
- Freeing (`Arc__free`, `Memory__free`, Arc.cpp:111-113) is dropped: Dafny's
  memory is managed automatically, so nothing in the model corresponds to it.
- IEEE `double` behaviour: rounding, infinities and NaN. For example, a NaN
  goodness makes the gate's `>` false. Every double is modelled as an exact `real`.
- `hop_count` (`unsigned int`) and `visit` are modelled as `nat`, with no 32-bit wrap-around.
- The `NDEBUG` build, in which the assertions of `Arc__update` are compiled
  out. The model keeps them as preconditions.
- The loader that reads many records and routes each to its arc is not part
  of this model. For records that all reach the same arc, `Scenarios.MergeEach`
  proves that successive `Arc.Merge` calls compute `Merging.MergeAll`.

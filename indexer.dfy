/** The alignment and indexing primitives of analyzers/indexer.py: the sorted
    union of offsets, the vertical aligner for simultaneities, the stream and
    series indexers, and the Indexer base class with its serial dispatch. */
module Indexer {
  import opened Common

  // ---------------------------------------------------------------------------
  // mpi_unique_offsets
  // ---------------------------------------------------------------------------

  /** Adds `x` to a strictly increasing sequence of offsets. */
  function InsertOffset(x: real, s: seq<real>): (r: seq<real>)
    requires StrictlyIncreasing(s)
    ensures StrictlyIncreasing(r)
    ensures forall y :: y in r <==> y == x || y in s
  {
    if s == [] then [x]
    else if x < s[0] then [x] + s
    else if x == s[0] then s
    else
      var t := InsertOffset(x, s[1..]);
      assert forall k :: 0 <= k < |t| ==> t[k] in t;
      assert forall y :: y in s[1..] ==> s[0] < y;
      [s[0]] + t
  }

  /** `acc` together with the offsets of the elements of `part`. */
  function AddOffsets<T>(acc: seq<real>, part: Series<T>): (r: seq<real>)
    requires StrictlyIncreasing(acc)
    ensures StrictlyIncreasing(r)
    ensures forall y :: y in r <==> y in acc || exists k :: 0 <= k < |part| && part[k].offset == y
  {
    if part == [] then acc
    else
      var r := InsertOffset(part[|part| - 1].offset, AddOffsets(acc, part[..|part| - 1]));
      assert forall k :: 0 <= k < |part| - 1 ==> part[..|part| - 1][k] == part[k];
      r
  }

  /** mpi_unique_offsets: the offsets at which any part has an element,
      sorted and without repetition. At least one part is needed, because
      `set.union(*offsets)` fails on an empty list. */
  function UniqueOffsets<T>(parts: seq<Series<T>>): (r: seq<real>)
    requires |parts| >= 1
    ensures StrictlyIncreasing(r)
    ensures forall y :: y in r <==>
      exists j, k :: 0 <= j < |parts| && 0 <= k < |parts[j]| && parts[j][k].offset == y
  {
    var last := parts[|parts| - 1];
    if |parts| == 1 then AddOffsets([], last)
    else
      var r := AddOffsets(UniqueOffsets(parts[..|parts| - 1]), last);
      assert forall j :: 0 <= j < |parts| - 1 ==> parts[..|parts| - 1][j] == parts[j];
      r
  }

  // ---------------------------------------------------------------------------
  // mpi_vert_aligner
  // ---------------------------------------------------------------------------

  /** `max([len(x) for x in events])`, taken as 0 for no parts. */
  function MaxLen<T>(events: seq<seq<T>>): (m: nat)
    ensures forall j :: 0 <= j < |events| ==> |events[j]| <= m
    ensures events != [] ==> exists j :: 0 <= j < |events| && |events[j]| == m
    ensures events == [] ==> m == 0
  {
    if events == [] then 0
    else
      var m := MaxLen(events[..|events| - 1]);
      var l := |events[|events| - 1]|;
      if l > m then l else m
  }

  /** Slice `i`: the `i`-th event of every part that has more than `i`
      events at this offset, in part order. */
  function Slice<T>(events: seq<seq<T>>, i: nat): seq<T> {
    if events == [] then []
    else
      var last := events[|events| - 1];
      Slice(events[..|events| - 1], i) + (if i < |last| then [last[i]] else [])
  }

  /** What mpi_vert_aligner returns: one slice per position up to the
      largest number of events any part has at the offset. */
  function Aligned<T>(events: seq<seq<T>>): (r: seq<seq<T>>)
  {
    seq(MaxLen(events), i requires 0 <= i => Slice(events, i))
  }

  /** mpi_vert_aligner. `max` of an empty list raises, so at least one part
      is needed. */
  method VertAlign<T>(events: seq<seq<T>>) returns (post: seq<seq<T>>)
    requires |events| >= 1
    ensures post == Aligned(events)
  {
    var n := MaxLen(events);
    post := [];
    var i := 0;
    while i < n
      invariant 0 <= i <= n
      invariant |post| == i
      invariant forall k :: 0 <= k < i ==> post[k] == Slice(events, k)
    {
      var thisE := [];
      var j := 0;
      while j < |events|
        invariant 0 <= j <= |events|
        invariant thisE == Slice(events[..j], i)
      {
        assert events[..j + 1][..j] == events[..j];
        if i < |events[j]| {
          thisE := thisE + [events[j][i]];
        }
        j := j + 1;
      }
      assert events[..|events|] == events;
      post := post + [thisE];
      i := i + 1;
    }
  }

  /** Exactly the parts with more than `i` events contribute to slice `i`. */
  lemma {:induction false} SliceMembers<T>(events: seq<seq<T>>, i: nat, x: T)
    ensures x in Slice(events, i) <==>
      exists j :: 0 <= j < |events| && i < |events[j]| && events[j][i] == x
  {
    if events != [] {
      var n := |events|;
      var front, last := events[..n - 1], events[n - 1];
      var extra := if i < |last| then [last[i]] else [];
      SliceMembers(front, i, x);
      assert Slice(events, i) == Slice(front, i) + extra;
      if x in Slice(events, i) {
        if x in Slice(front, i) {
          var j :| 0 <= j < |front| && i < |front[j]| && front[j][i] == x;
          assert events[j] == front[j];
        } else {
          assert i < |events[n - 1]| && events[n - 1][i] == x;
        }
      }
      if exists j :: 0 <= j < |events| && i < |events[j]| && events[j][i] == x {
        var j :| 0 <= j < |events| && i < |events[j]| && events[j][i] == x;
        if j < n - 1 {
          assert front[j] == events[j];
        } else {
          assert x in extra;
        }
      }
    }
  }

  /** Part `j`'s `i`-th event stands in slice `i` at the position given by
      the number of earlier parts that also reach position `i`; so the slice
      keeps part order. */
  lemma {:induction false} SlicePosition<T>(events: seq<seq<T>>, i: nat, j: nat)
    requires j < |events| && i < |events[j]|
    ensures |Slice(events[..j], i)| < |Slice(events, i)|
    ensures Slice(events, i)[|Slice(events[..j], i)|] == events[j][i]
  {
    var n := |events|;
    if j < n - 1 {
      SlicePosition(events[..n - 1], i, j);
      assert events[..n - 1][..j] == events[..j];
    } else {
      assert events[..n - 1] == events[..j];
    }
  }

  /** The example of the docstring: [[1, 2, 3], [1, 2, 3], [1, 2]] becomes
      [[1, 1, 1], [2, 2, 2], [3, 3]]. */
  lemma AlignedExample()
    ensures Aligned([[1, 2, 3], [1, 2, 3], [1, 2]]) == [[1, 1, 1], [2, 2, 2], [3, 3]]
  {
    var e: seq<seq<int>> := [[1, 2, 3], [1, 2, 3], [1, 2]];
    var e2, e1 := e[..2], e[..2][..1];
    var none: seq<seq<int>> := [];
    assert e2 == [[1, 2, 3], [1, 2, 3]] && e1 == [[1, 2, 3]] && e1[..0] == none;
    assert MaxLen(e1) == 3 && MaxLen(e2) == 3 && MaxLen(e) == 3;
    assert Slice(e1, 0) == [1] && Slice(e1, 1) == [2] && Slice(e1, 2) == [3];
    assert Slice(e2, 0) == [1, 1] && Slice(e2, 1) == [2, 2] && Slice(e2, 2) == [3, 3];
    assert Slice(e, 0) == [1, 1, 1] && Slice(e, 1) == [2, 2, 2] && Slice(e, 2) == [3, 3];
  }

  function Flatten<T>(ss: seq<seq<T>>): seq<T> {
    if ss == [] then [] else Flatten(ss[..|ss| - 1]) + ss[|ss| - 1]
  }

  /** The number of occurrences of `x` in `s`. */
  function Count<T(==)>(x: T, s: seq<T>): nat {
    if s == [] then 0 else (if s[0] == x then 1 else 0) + Count(x, s[1..])
  }

  lemma {:induction false} CountAppend<T>(x: T, a: seq<T>, b: seq<T>)
    ensures Count(x, a + b) == Count(x, a) + Count(x, b)
  {
    if a != [] {
      CountAppend(x, a[1..], b);
      assert (a + b)[1..] == a[1..] + b;
    } else {
      assert a + b == b;
    }
  }

  lemma {:induction false} CountIsMultiplicity<T>(x: T, s: seq<T>)
    ensures Count(x, s) == multiset(s)[x]
  {
    if s != [] {
      CountIsMultiplicity(x, s[1..]);
      assert s == [s[0]] + s[1..];
    }
  }

  lemma CountInterleave<T>(x: T, all: seq<T>, rest: seq<T>, last: seq<T>, sl: seq<T>, extra: seq<T>)
    requires Count(x, all) == Count(x, rest) + Count(x, last)
    ensures Count(x, all + (sl + extra)) == Count(x, rest + sl) + Count(x, last + extra)
  {
    CountAppend(x, all, sl + extra);
    CountAppend(x, sl, extra);
    CountAppend(x, rest, sl);
    CountAppend(x, last, extra);
  }

  lemma SameCounts<T>(a: seq<T>, b: seq<T>)
    requires forall x :: Count(x, a) == Count(x, b)
    ensures multiset(a) == multiset(b)
  {
    forall x ensures multiset(a)[x] == multiset(b)[x] {
      CountIsMultiplicity(x, a);
      CountIsMultiplicity(x, b);
    }
  }

  /** The first `m` slices, one after the other. */
  function Cat<T>(events: seq<seq<T>>, m: nat): seq<T> {
    if m == 0 then [] else Cat(events, m - 1) + Slice(events, m - 1)
  }

  function Take<T>(p: seq<T>, m: nat): seq<T> {
    if m < |p| then p[..m] else p
  }

  lemma CatStep<T>(events: seq<seq<T>>, m: nat)
    requires events != [] && m > 0
    ensures var p := events[|events| - 1];
      Cat(events, m) == Cat(events, m - 1) +
        (Slice(events[..|events| - 1], m - 1) + if m - 1 < |p| then [p[m - 1]] else [])
  {
  }

  lemma TakeStep<T>(p: seq<T>, m: nat)
    requires m > 0
    ensures Take(p, m) == Take(p, m - 1) + if m - 1 < |p| then [p[m - 1]] else []
  {
  }

  lemma {:induction false} SliceBeyondIsEmpty<T>(events: seq<seq<T>>, i: nat)
    requires i >= MaxLen(events)
    ensures Slice(events, i) == []
  {
    if events != [] {
      SliceBeyondIsEmpty(events[..|events| - 1], i);
    }
  }

  /** One more slice: the last part adds its `m`-th event, if it has one. */
  lemma CatLastPartStep<T>(events: seq<seq<T>>, m: nat, x: T)
    requires events != [] && m > 0
    requires Count(x, Cat(events, m - 1)) ==
      Count(x, Cat(events[..|events| - 1], m - 1)) + Count(x, Take(events[|events| - 1], m - 1))
    ensures Count(x, Cat(events, m)) ==
      Count(x, Cat(events[..|events| - 1], m)) + Count(x, Take(events[|events| - 1], m))
  {
    var rest, p := events[..|events| - 1], events[|events| - 1];
    var extra := if m - 1 < |p| then [p[m - 1]] else [];
    var all, before, taken, sl := Cat(events, m - 1), Cat(rest, m - 1), Take(p, m - 1), Slice(rest, m - 1);
    assert Cat(events, m) == all + (sl + extra) by {
      CatStep(events, m);
    }
    assert Take(p, m) == taken + extra by {
      TakeStep(p, m);
    }
    assert Cat(rest, m) == before + sl;
    CountInterleave(x, all, before, taken, sl, extra);
  }

  /** The last part contributes its first `m` events to the first `m` slices. */
  lemma {:induction false} CatLastPart<T>(events: seq<seq<T>>, m: nat, x: T)
    requires events != []
    ensures Count(x, Cat(events, m)) ==
      Count(x, Cat(events[..|events| - 1], m)) + Count(x, Take(events[|events| - 1], m))
  {
    if m > 0 {
      CatLastPart(events, m - 1, x);
      CatLastPartStep(events, m, x);
    } else {
      assert Take(events[|events| - 1], m) == [];
    }
  }

  lemma CatEmptyStep<T>(events: seq<seq<T>>, m: nat)
    requires m > 0 && Slice(events, m - 1) == []
    ensures Cat(events, m) == Cat(events, m - 1)
  {
    assert Cat(events, m) == Cat(events, m - 1) + [];
  }

  /** Slices past the longest part add nothing. */
  lemma {:induction false} CatSaturates<T>(events: seq<seq<T>>, m: nat)
    requires m >= MaxLen(events)
    ensures Cat(events, m) == Cat(events, MaxLen(events))
    decreases m
  {
    var top := MaxLen(events);
    if m == top {
    } else {
      var shorter := Cat(events, m - 1);
      assert Cat(events, m) == shorter by {
        SliceBeyondIsEmpty(events, m - 1);
        CatEmptyStep(events, m);
      }
      CatSaturates(events, m - 1);
      assert shorter == Cat(events, top);
    }
  }

  lemma {:induction false} FlattenAlignedPrefix<T>(events: seq<seq<T>>, m: nat)
    requires m <= MaxLen(events)
    ensures Flatten(Aligned(events)[..m]) == Cat(events, m)
  {
    if m > 0 {
      FlattenAlignedPrefix(events, m - 1);
      assert Aligned(events)[..m][..m - 1] == Aligned(events)[..m - 1];
    }
  }

  lemma {:induction false} AlignedCounts<T>(events: seq<seq<T>>, x: T)
    ensures Count(x, Flatten(Aligned(events))) == Count(x, Flatten(events))
  {
    if events == [] {
      assert Aligned(events) == [];
    } else {
      var n := |events|;
      var rest, p := events[..n - 1], events[n - 1];
      var m := MaxLen(events);
      AlignedCounts(rest, x);
      FlattenAlignedPrefix(events, m);
      assert Aligned(events)[..m] == Aligned(events);
      CatLastPart(events, m, x);
      assert Take(p, m) == p;
      CatSaturates(rest, m);
      FlattenAlignedPrefix(rest, MaxLen(rest));
      assert Aligned(rest)[..MaxLen(rest)] == Aligned(rest);
      CountAppend(x, Flatten(rest), p);
      calc {
        Count(x, Flatten(Aligned(events)));
        Count(x, Cat(events, m));
        Count(x, Cat(rest, m)) + Count(x, p);
        Count(x, Flatten(Aligned(rest))) + Count(x, p);
        Count(x, Flatten(rest)) + Count(x, p);
        Count(x, Flatten(rest) + p);
        Count(x, Flatten(events));
      }
    }
  }

  /** The aligner neither loses nor duplicates an event: the slices hold,
      all together, exactly the events of all parts. */
  lemma AlignedKeepsEvents<T>(events: seq<seq<T>>)
    ensures multiset(Flatten(Aligned(events))) == multiset(Flatten(events))
  {
    var a, b := Flatten(Aligned(events)), Flatten(events);
    forall x ensures Count(x, a) == Count(x, b) {
      AlignedCounts(events, x);
    }
    SameCounts(a, b);
  }

  // ---------------------------------------------------------------------------
  // stream_indexer
  // ---------------------------------------------------------------------------

  /** `part.getElementsByClass(types)`: the elements whose class name is one
      of `types`, in their order; with no `types`, the part itself. */
  function FilterTypes<E>(part: Series<E>, types: Option<seq<string>>, classOf: E -> string): (r: Series<E>)
    ensures types.None? ==> r == part
    ensures forall k :: 0 <= k < |r| ==>
              r[k] in part && (types.None? || classOf(r[k].value) in types.value)
    ensures forall k :: 0 <= k < |part| && (types.None? || classOf(part[k].value) in types.value) ==>
              part[k] in r
  {
    if types.None? || part == [] then part
    else
      var front := part[..|part| - 1];
      var rest := FilterTypes(front, types, classOf);
      var x := part[|part| - 1];
      assert forall k :: 0 <= k < |front| ==> front[k] == part[k];
      if classOf(x.value) in types.value then rest + [x] else rest
  }

  /** A lone element is kept exactly when its class is requested. */
  lemma FilterTypesOne<E>(x: Timed<E>, types: Option<seq<string>>, classOf: E -> string)
    ensures FilterTypes([x], types, classOf) ==
            if types.None? || classOf(x.value) in types.value then [x] else []
  {
    assert [x][..0] == [];
  }

  /** Filtering goes element by element and keeps the order and the
      multiplicity of what it keeps: the filter of a concatenation is the
      concatenation of the filters. */
  lemma {:induction false} FilterTypesSplits<E>(a: Series<E>, b: Series<E>, types: Option<seq<string>>,
                                               classOf: E -> string)
    ensures FilterTypes(a + b, types, classOf) == FilterTypes(a, types, classOf) + FilterTypes(b, types, classOf)
    decreases |b|
  {
    if types.None? {
    } else if b == [] {
      assert a + b == a;
    } else {
      var front := b[..|b| - 1];
      var x := b[|b| - 1];
      FilterTypesSplits(a, front, types, classOf);
      assert (a + b)[..|a + b| - 1] == a + front;
      assert (a + b)[|a + b| - 1] == x;
      assert FilterTypes(a + b, types, classOf) ==
             FilterTypes(a + front, types, classOf) + (if classOf(x.value) in types.value then [x] else []);
      assert FilterTypes(b, types, classOf) ==
             FilterTypes(front, types, classOf) + (if classOf(x.value) in types.value then [x] else []);
    }
  }

  function FilterAll<E>(parts: seq<Series<E>>, types: Option<seq<string>>, classOf: E -> string)
    : (r: seq<Series<E>>)
    ensures |r| == |parts|
  {
    seq(|parts|, j requires 0 <= j < |parts| => FilterTypes(parts[j], types, classOf))
  }

  lemma FrontKeepsOrder<E>(s: Series<E>)
    requires s != [] && NonDecreasing(OffsetsOf(s))
    ensures NonDecreasing(OffsetsOf(s[..|s| - 1]))
  {
    assert forall k :: 0 <= k < |s| - 1 ==> OffsetsOf(s[..|s| - 1])[k] == OffsetsOf(s)[k];
  }

  lemma AppendKeepsOrder<E>(s: Series<E>, x: Timed<E>)
    requires NonDecreasing(OffsetsOf(s))
    requires forall k :: 0 <= k < |s| ==> s[k].offset <= x.offset
    ensures NonDecreasing(OffsetsOf(s + [x]))
  {
    assert forall k :: 0 <= k < |s| ==> OffsetsOf(s + [x])[k] == OffsetsOf(s)[k];
  }

  /** Filtering keeps the order of what it keeps: a sorted part stays sorted. */
  lemma {:induction false} FilterKeepsOrder<E>(part: Series<E>, types: Option<seq<string>>, classOf: E -> string)
    requires NonDecreasing(OffsetsOf(part))
    ensures NonDecreasing(OffsetsOf(FilterTypes(part, types, classOf)))
  {
    if types.Some? && part != [] {
      var front := part[..|part| - 1];
      var x := part[|part| - 1];
      FrontKeepsOrder(part);
      FilterKeepsOrder(front, types, classOf);
      var rest := FilterTypes(front, types, classOf);
      forall k | 0 <= k < |rest| ensures rest[k].offset <= x.offset {
        var i :| 0 <= i < |front| && front[i] == rest[k];
        assert OffsetsOf(part)[i] <= OffsetsOf(part)[|part| - 1];
      }
      if classOf(x.value) in types.value {
        AppendKeepsOrder(rest, x);
      }
    }
  }

  /** What `part.getElementsByOffset(off, mustBeginInSpan=False)` returns for
      each part: the music21 lookup is a parameter of the model. */
  function CurrentEvents<E>(parts: seq<Series<E>>, lookup: (Series<E>, real) -> seq<E>, off: real)
    : (r: seq<seq<E>>)
    ensures |r| == |parts|
  {
    seq(|parts|, j requires 0 <= j < |parts| => lookup(parts[j], off))
  }

  /** The fast path as written, `[event[0] for event in current_events]`:
      it raises IndexError when a part has no event at the offset. */
  function FirstEventsAsWritten<E>(current: seq<seq<E>>): (r: Result<seq<E>>)
    ensures r.Ok? <==> forall j :: 0 <= j < |current| ==> current[j] != []
    ensures r.Ok? ==> |r.value| == |current|
                      && forall j :: 0 <= j < |current| ==> r.value[j] == current[j][0]
    ensures r.Err? ==> r.error.Class() == IndexError
  {
    if forall j :: 0 <= j < |current| ==> current[j] != [] then
      Ok(seq(|current|, j requires 0 <= j < |current| => current[j][0]))
    else Err(NoSuchElement)
  }

  /** The fast path as intended: the first event of every part that has one. */
  function FirstEvents<E>(current: seq<seq<E>>): seq<E> {
    if current == [] then []
    else (if current[0] != [] then [current[0][0]] else []) + FirstEvents(current[1..])
  }

  lemma {:induction false} FirstEventsIsFirstSlice<E>(current: seq<seq<E>>)
    ensures FirstEvents(current) == Slice(current, 0)
  {
    if current != [] {
      var n := |current|;
      if n == 1 {
        assert current[..0] == [] && current[1..] == [];
      } else {
        FirstEventsIsFirstSlice(current[1..]);
        FirstEventsIsFirstSlice(current[..n - 1]);
        FirstEventsIsFirstSlice(current[1..][..n - 2]);
        assert current[..n - 1][1..] == current[1..][..n - 2];
        assert current[1..][n - 2] == current[n - 1];
      }
    }
  }

  /** The fast path and the aligner agree when no part has two events at
      the offset: both give the single slice of first events. */
  lemma FastPathAgrees<E>(current: seq<seq<E>>)
    requires MaxLen(current) == 1
    ensures [FirstEvents(current)] == Aligned(current)
  {
    FirstEventsIsFirstSlice(current);
  }

  /** The fast path as written fails whenever it is taken while some part
      has nothing at the offset; for `[[x], []]` the aligner gives `[[x]]`. */
  lemma FastPathAsWrittenFails<E>(x: E)
    ensures MaxLen([[x], []]) == 1
    ensures FirstEventsAsWritten([[x], []]).Err?
    ensures FirstEventsAsWritten([[x], []]).error.Class() == IndexError
    ensures Aligned([[x], []]) == [[x]]
  {
    var current: seq<seq<E>> := [[x], []];
    var empty: seq<seq<E>> := [];
    assert current[1] == [];
    assert current[..1] == [[x]] && current[..1][..0] == empty;
    assert Slice(current[..1], 0) == [x];
    assert Slice(current, 0) == [x];
    assert Aligned(current)[0] == Slice(current, 0);
  }

  /** The groups indexed at one offset: the fast path when every part has at
      most one event there, the aligner otherwise. */
  function Groups<E>(current: seq<seq<E>>): (r: seq<seq<E>>)
  {
    if MaxLen(current) == 1 then [FirstEvents(current)] else Aligned(current)
  }

  /** However the groups are arranged, they are the aligner's slices: one
      entry per position up to the busiest part's event count. */
  lemma GroupsAreAligned<E>(current: seq<seq<E>>)
    ensures Groups(current) == Aligned(current)
    ensures |Groups(current)| == MaxLen(current)
  {
    if MaxLen(current) == 1 {
      FastPathAgrees(current);
    }
  }

  function EntriesAt<E, V>(off: real, groups: seq<seq<E>>, f: seq<E> -> V): Series<V> {
    seq(|groups|, k requires 0 <= k < |groups| => Timed(off, f(groups[k])))
  }

  /** The entries emitted at one offset: the indexer function applied to
      each group of the events sounding there. */
  function EntriesFor<E, V>(parts: seq<Series<E>>, lookup: (Series<E>, real) -> seq<E>,
                            f: seq<E> -> V, off: real): Series<V>
  {
    EntriesAt(off, Groups(CurrentEvents(parts, lookup, off)), f)
  }

  /** At each offset there are as many entries as the busiest part has
      events there, all stamped with that offset. */
  lemma EntriesForShape<E, V>(parts: seq<Series<E>>, lookup: (Series<E>, real) -> seq<E>,
                              f: seq<E> -> V, off: real)
    ensures |EntriesFor(parts, lookup, f, off)| == MaxLen(CurrentEvents(parts, lookup, off))
    ensures forall k :: 0 <= k < |EntriesFor(parts, lookup, f, off)| ==>
              EntriesFor(parts, lookup, f, off)[k].offset == off
  {
    GroupsAreAligned(CurrentEvents(parts, lookup, off));
  }

  /** The entries emitted for the offsets `offs`, in order. */
  function Emitted<E, V>(parts: seq<Series<E>>, lookup: (Series<E>, real) -> seq<E>,
                         f: seq<E> -> V, offs: seq<real>): Series<V>
  {
    if offs == [] then []
    else
      var off := offs[|offs| - 1];
      Emitted(parts, lookup, f, offs[..|offs| - 1]) + EntriesFor(parts, lookup, f, off)
  }

  /** The Series stream_indexer returns. */
  function StreamIndex<E, V>(parts: seq<Series<E>>, lookup: (Series<E>, real) -> seq<E>,
                             f: seq<E> -> V): Series<V>
    requires |parts| >= 1
  {
    Emitted(parts, lookup, f, UniqueOffsets(parts))
  }

  /** The inner loop of stream_indexer that asks every part for its events
      at `off`. */
  method Lookups<E>(parts: seq<Series<E>>, lookup: (Series<E>, real) -> seq<E>, off: real)
    returns (current: seq<seq<E>>)
    ensures current == CurrentEvents(parts, lookup, off)
  {
    current := [];
    var j := 0;
    while j < |parts|
      invariant 0 <= j <= |parts|
      invariant current == CurrentEvents(parts[..j], lookup, off)
    {
      current := current + [lookup(parts[j], off)];
      j := j + 1;
    }
    assert parts[..|parts|] == parts;
  }

  /** The inner loop of stream_indexer that applies the indexer function to
      every group, stamping each result with the offset. */
  method IndexGroups<E, V>(off: real, groups: seq<seq<E>>, f: seq<E> -> V) returns (entries: Series<V>)
    ensures entries == EntriesAt(off, groups, f)
  {
    entries := [];
    var k := 0;
    while k < |groups|
      invariant 0 <= k <= |groups|
      invariant entries == EntriesAt(off, groups[..k], f)
    {
      entries := entries + [Timed(off, f(groups[k]))];
      k := k + 1;
    }
    assert groups[..|groups|] == groups;
  }

  /** The body of stream_indexer's loop over the unique offsets. */
  method IndexOffset<E, V>(parts: seq<Series<E>>, lookup: (Series<E>, real) -> seq<E>,
                           f: seq<E> -> V, off: real) returns (entries: Series<V>)
    requires |parts| >= 1
    ensures entries == EntriesFor(parts, lookup, f, off)
  {
    var current := Lookups(parts, lookup, off);
    var groups;
    if MaxLen(current) == 1 {
      groups := [FirstEvents(current)];
    } else {
      groups := VertAlign(current);
    }
    entries := IndexGroups(off, groups, f);
  }

  lemma EmittedPrefix<E, V>(parts: seq<Series<E>>, lookup: (Series<E>, real) -> seq<E>,
                           f: seq<E> -> V, offs: seq<real>, i: nat)
    requires i < |offs|
    ensures Emitted(parts, lookup, f, offs[..i + 1]) ==
            Emitted(parts, lookup, f, offs[..i]) + EntriesFor(parts, lookup, f, offs[i])
  {
    assert offs[..i + 1][..i] == offs[..i];
  }

  /** stream_indexer, on flattened parts: it keeps the elements of the
      requested classes, then indexes every unique offset. */
  method StreamIndexer<E, V>(parts: seq<Series<E>>, types: Option<seq<string>>, classOf: E -> string,
                             lookup: (Series<E>, real) -> seq<E>, f: seq<E> -> V)
    returns (series: Series<V>)
    requires |parts| >= 1
    ensures series == StreamIndex(FilterAll(parts, types, classOf), lookup, f)
  {
    var allParts := FilterAll(parts, types, classOf);
    var uniqueOffsets := UniqueOffsets(allParts);
    series := [];
    var i := 0;
    while i < |uniqueOffsets|
      invariant 0 <= i <= |uniqueOffsets|
      invariant series == Emitted(allParts, lookup, f, uniqueOffsets[..i])
    {
      var entries := IndexOffset(allParts, lookup, f, uniqueOffsets[i]);
      series := series + entries;
      EmittedPrefix(allParts, lookup, f, uniqueOffsets, i);
      i := i + 1;
    }
    assert uniqueOffsets[..|uniqueOffsets|] == uniqueOffsets;
  }

  lemma {:induction false} EmittedWithin<E, V>(parts: seq<Series<E>>, lookup: (Series<E>, real) -> seq<E>,
                                               f: seq<E> -> V, offs: seq<real>)
    requires StrictlyIncreasing(offs)
    ensures forall k :: 0 <= k < |Emitted(parts, lookup, f, offs)| ==>
              Emitted(parts, lookup, f, offs)[k].offset in offs
    ensures offs != [] ==> forall k :: 0 <= k < |Emitted(parts, lookup, f, offs)| ==>
              Emitted(parts, lookup, f, offs)[k].offset <= offs[|offs| - 1]
  {
    if offs != [] {
      var n := |offs|;
      var front, off := offs[..n - 1], offs[n - 1];
      var before := Emitted(parts, lookup, f, front);
      var after := Emitted(parts, lookup, f, offs);
      EmittedWithin(parts, lookup, f, front);
      EmittedStep(parts, lookup, f, offs);
      forall k | 0 <= k < |after|
        ensures after[k].offset in offs && after[k].offset <= off
      {
        if k < |before| {
          assert after[k] == before[k];
          assert front != [];
          var m :| 0 <= m < |front| && front[m] == before[k].offset;
          assert offs[m] == front[m];
          assert front[|front| - 1] == offs[n - 2] < off;
        } else {
          assert after[k].offset == off;
        }
      }
    }
  }

  lemma {:induction false} EmittedSorted<E, V>(parts: seq<Series<E>>, lookup: (Series<E>, real) -> seq<E>,
                                               f: seq<E> -> V, offs: seq<real>)
    requires StrictlyIncreasing(offs)
    ensures NonDecreasing(OffsetsOf(Emitted(parts, lookup, f, offs)))
  {
    if offs != [] {
      var n := |offs|;
      var before := Emitted(parts, lookup, f, offs[..n - 1]);
      var after := Emitted(parts, lookup, f, offs);
      EmittedSorted(parts, lookup, f, offs[..n - 1]);
      EmittedWithin(parts, lookup, f, offs[..n - 1]);
      EmittedStep(parts, lookup, f, offs);
      var o, ob := OffsetsOf(after), OffsetsOf(before);
      var off := offs[n - 1];
      forall i, j | 0 <= i < j < |o|
        ensures o[i] <= o[j]
      {
        if j < |before| {
          assert o[i] == ob[i] && o[j] == ob[j];
        } else if i < |before| {
          assert o[j] == off;
          assert o[i] == before[i].offset <= offs[..n - 1][n - 2] == offs[n - 2];
          assert offs[n - 2] < off;
        } else {
          assert o[i] == off && o[j] == off;
        }
      }
    }
  }

  /** Output offsets never go backwards, and each is one of the unique
      offsets. */
  lemma StreamIndexOffsets<E, V>(parts: seq<Series<E>>, lookup: (Series<E>, real) -> seq<E>,
                                 f: seq<E> -> V)
    requires |parts| >= 1
    ensures NonDecreasing(OffsetsOf(StreamIndex(parts, lookup, f)))
    ensures forall k :: 0 <= k < |StreamIndex(parts, lookup, f)| ==>
              StreamIndex(parts, lookup, f)[k].offset in UniqueOffsets(parts)
  {
    EmittedSorted(parts, lookup, f, UniqueOffsets(parts));
    EmittedWithin(parts, lookup, f, UniqueOffsets(parts));
  }

  /** The lookup finds, at an element's own offset, at least one event of
      that element's part (true of music21, which returns the element that
      begins there). */
  ghost predicate LookupFindsOwn<E>(parts: seq<Series<E>>, lookup: (Series<E>, real) -> seq<E>) {
    forall j, k :: 0 <= j < |parts| && 0 <= k < |parts[j]| ==> |lookup(parts[j], parts[j][k].offset)| >= 1
  }

  /** The entries for the last offset extend those for the earlier ones;
      there are as many as the busiest part has events there. */
  lemma EmittedStep<E, V>(parts: seq<Series<E>>, lookup: (Series<E>, real) -> seq<E>,
                          f: seq<E> -> V, offs: seq<real>)
    requires offs != []
    ensures var before := Emitted(parts, lookup, f, offs[..|offs| - 1]);
      var after := Emitted(parts, lookup, f, offs);
      var off := offs[|offs| - 1];
      |after| == |before| + MaxLen(CurrentEvents(parts, lookup, off)) &&
      (forall k :: 0 <= k < |before| ==> after[k] == before[k]) &&
      (forall k :: |before| <= k < |after| ==> after[k].offset == off)
  {
    EntriesForShape(parts, lookup, f, offs[|offs| - 1]);
  }

  /** An entry emitted for earlier offsets stays where it was. */
  lemma EmittedKeeps<E, V>(parts: seq<Series<E>>, lookup: (Series<E>, real) -> seq<E>,
                           f: seq<E> -> V, offs: seq<real>, front: seq<real>, o: real)
    requires offs != [] && front == offs[..|offs| - 1]
    requires exists k :: 0 <= k < |Emitted(parts, lookup, f, front)| && Emitted(parts, lookup, f, front)[k].offset == o
    ensures exists k :: 0 <= k < |Emitted(parts, lookup, f, offs)| && Emitted(parts, lookup, f, offs)[k].offset == o
  {
    var before := Emitted(parts, lookup, f, front);
    var k :| 0 <= k < |before| && before[k].offset == o;
    EmittedStep(parts, lookup, f, offs);
    assert Emitted(parts, lookup, f, offs)[k] == before[k];
  }

  /** The last offset, when some part has an event there, gets an entry
      right after those of the earlier offsets. */
  lemma EmittedLastAt<E, V>(parts: seq<Series<E>>, lookup: (Series<E>, real) -> seq<E>,
                            f: seq<E> -> V, offs: seq<real>, o: real)
    requires offs != [] && offs[|offs| - 1] == o && MaxLen(CurrentEvents(parts, lookup, o)) >= 1
    ensures exists k :: 0 <= k < |Emitted(parts, lookup, f, offs)| && Emitted(parts, lookup, f, offs)[k].offset == o
  {
    var before := Emitted(parts, lookup, f, offs[..|offs| - 1]);
    EmittedStep(parts, lookup, f, offs);
    assert Emitted(parts, lookup, f, offs)[|before|].offset == o;
  }

  lemma {:induction false} EmittedCovers<E, V>(parts: seq<Series<E>>, lookup: (Series<E>, real) -> seq<E>,
                                               f: seq<E> -> V, offs: seq<real>, i: nat, o: real)
    requires i < |offs| && offs[i] == o
    requires MaxLen(CurrentEvents(parts, lookup, o)) >= 1
    ensures exists k :: 0 <= k < |Emitted(parts, lookup, f, offs)| && Emitted(parts, lookup, f, offs)[k].offset == o
    decreases |offs|
  {
    if i == |offs| - 1 {
      EmittedLastAt(parts, lookup, f, offs, o);
    } else {
      var front := offs[..|offs| - 1];
      assert front[i] == o;
      EmittedCovers(parts, lookup, f, front, i, o);
      EmittedKeeps(parts, lookup, f, offs, front, o);
    }
  }

  /** Every unique offset appears in the output at least once. */
  lemma StreamIndexCovers<E, V>(parts: seq<Series<E>>, lookup: (Series<E>, real) -> seq<E>,
                                f: seq<E> -> V, o: real)
    requires |parts| >= 1
    requires LookupFindsOwn(parts, lookup)
    requires o in UniqueOffsets(parts)
    ensures exists k :: 0 <= k < |StreamIndex(parts, lookup, f)| && StreamIndex(parts, lookup, f)[k].offset == o
  {
    var j, k :| 0 <= j < |parts| && 0 <= k < |parts[j]| && parts[j][k].offset == o;
    var current := CurrentEvents(parts, lookup, o);
    assert |current[j]| >= 1;
    var offs := UniqueOffsets(parts);
    var i :| 0 <= i < |offs| && offs[i] == o;
    EmittedCovers(parts, lookup, f, offs, i, o);
    var out := Emitted(parts, lookup, f, offs);
    assert StreamIndex(parts, lookup, f) == out;
    var m :| 0 <= m < |out| && out[m].offset == o;
    assert StreamIndex(parts, lookup, f)[m].offset == o;
  }

  // ---------------------------------------------------------------------------
  // series_indexer
  // ---------------------------------------------------------------------------

  /** The DataFrame series_indexer builds: rows on the sorted union of the
      parts' offsets, column `i` part `i` reindexed with forward fill. */
  function FilledTable<T>(parts: seq<Series<T>>): (t: Table<T>)
    requires |parts| >= 1
    ensures t.WellFormed() && |t.columns| == |parts|
  {
    var axis := UniqueOffsets(parts);
    Table(axis, seq(|parts|, i requires 0 <= i < |parts| =>
                      seq(|axis|, r requires 0 <= r < |axis| => FFill(parts[i], axis[r]))))
  }

  function Row<T>(t: Table<T>, r: nat): seq<Option<T>>
    requires t.WellFormed() && r < |t.index|
  {
    seq(|t.columns|, c requires 0 <= c < |t.columns| => t.columns[c][r])
  }

  /** The row of the filled table at offset `o`: every part's value there. */
  function RowAt<T>(parts: seq<Series<T>>, o: real): (row: seq<Option<T>>)
    ensures |row| == |parts|
  {
    seq(|parts|, i requires 0 <= i < |parts| => FFill(parts[i], o))
  }

  /** `indexer_func` applied to the rows at the offsets `axis`, in order. */
  function IndexRows<T, V>(parts: seq<Series<T>>, axis: seq<real>, f: seq<Option<T>> -> V): (r: Series<V>)
    ensures |r| == |axis|
  {
    if axis == [] then []
    else
      var o := axis[|axis| - 1];
      IndexRows(parts, axis[..|axis| - 1], f) + [Timed(o, f(RowAt(parts, o)))]
  }

  /** series_indexer: `indexer_func` applied to every row of the filled
      table. pandas refuses to reindex a Series whose index repeats, so each
      part's offsets must be strictly increasing. */
  function SeriesIndex<T, V>(parts: seq<Series<T>>, f: seq<Option<T>> -> V): (r: Series<V>)
    requires |parts| >= 1
    requires forall i :: 0 <= i < |parts| ==> StrictlyIncreasing(OffsetsOf(parts[i]))
  {
    IndexRows(parts, UniqueOffsets(parts), f)
  }

  lemma {:induction false} IndexRowsAt<T, V>(parts: seq<Series<T>>, axis: seq<real>,
                                             f: seq<Option<T>> -> V, r: nat)
    requires r < |axis|
    ensures IndexRows(parts, axis, f)[r] == Timed(axis[r], f(RowAt(parts, axis[r])))
  {
    if r < |axis| - 1 {
      IndexRowsAt(parts, axis[..|axis| - 1], f, r);
    }
  }

  /** Entry `r` of the result is `indexer_func` of row `r` of the filled
      table, stamped with that row's offset. */
  lemma SeriesIndexRows<T, V>(parts: seq<Series<T>>, f: seq<Option<T>> -> V, r: nat)
    requires |parts| >= 1
    requires forall i :: 0 <= i < |parts| ==> StrictlyIncreasing(OffsetsOf(parts[i]))
    requires r < |FilledTable(parts).index|
    ensures |SeriesIndex(parts, f)| == |FilledTable(parts).index|
    ensures SeriesIndex(parts, f)[r] ==
              Timed(FilledTable(parts).index[r], f(Row(FilledTable(parts), r)))
  {
    var t := FilledTable(parts);
    IndexRowsAt(parts, t.index, f, r);
    assert Row(t, r) == RowAt(parts, t.index[r]);
  }

  /** No value of a part is lost: at each of its own offsets the filled table
      holds exactly the part's value there. */
  lemma FilledTableKeepsOwnValues<T>(parts: seq<Series<T>>, i: nat, k: nat)
    requires |parts| >= 1 && i < |parts| && k < |parts[i]|
    requires StrictlyIncreasing(OffsetsOf(parts[i]))
    ensures exists r :: 0 <= r < |FilledTable(parts).index| &&
              FilledTable(parts).index[r] == parts[i][k].offset &&
              FilledTable(parts).columns[i][r] == Some(parts[i][k].value)
  {
    var t := FilledTable(parts);
    assert parts[i][k].offset in t.index;
    var r :| 0 <= r < |t.index| && t.index[r] == parts[i][k].offset;
    FFillAtOwnOffset(parts[i], k);
  }

  // ---------------------------------------------------------------------------
  // class Indexer
  // ---------------------------------------------------------------------------

  /** The types an Indexer may require of its score. */
  datatype ScoreType = StreamPart | PandasSeries | PandasFrame

  /** One element of an Indexer's score: a music21 Part (flattened) or a
      pandas Series, tagged with its Python type. */
  datatype Voice<E> = Voice(kind: ScoreType, elements: Series<E>)

  /** The check of `Indexer.__init__`: the first element, from `start` on,
      whose type is not the required one. */
  function ScoreTypeError<E>(score: seq<Voice<E>>, required: ScoreType, start: nat): (r: Option<Error>)
    requires start <= |score|
    ensures r.None? <==> forall k :: start <= k < |score| ==> score[k].kind == required
    ensures r.Some? ==> exists k :: start <= k < |score| && r.value == WrongScoreType(k)
                         && score[k].kind != required
                         && forall k' :: start <= k' < k ==> score[k'].kind == required
    decreases |score| - start
  {
    if start == |score| then None
    else if score[start].kind != required then Some(WrongScoreType(start))
    else ScoreTypeError(score, required, start + 1)
  }

  function Pick<E>(score: seq<Voice<E>>, combo: seq<nat>): (voices: seq<Series<E>>)
    requires forall k :: 0 <= k < |combo| ==> combo[k] < |score|
    ensures |voices| == |combo|
    ensures forall k :: 0 <= k < |combo| ==> voices[k] == score[combo[k]].elements
  {
    seq(|combo|, k requires 0 <= k < |combo| => score[combo[k]].elements)
  }

  class Indexer<E, V> {
    const requiredScoreType: ScoreType
    const score: seq<Voice<E>>
    const mpc: bool
    /** The `indexer_func` as stream_indexer applies it, to one slice. */
    const sliceFunc: seq<E> -> V
    /** The `indexer_func` as series_indexer applies it, to one table row. */
    const rowFunc: seq<Option<E>> -> V
    /** The classes stream_indexer keeps (`_types`), and each element's class. */
    const types: Option<seq<string>>
    const classOf: E -> string
    /** music21's `getElementsByOffset(off, mustBeginInSpan=False)`. */
    const lookup: (Series<E>, real) -> seq<E>

    constructor (requiredScoreType: ScoreType, score: seq<Voice<E>>, mpc: bool,
                 sliceFunc: seq<E> -> V, rowFunc: seq<Option<E>> -> V,
                 types: Option<seq<string>>, classOf: E -> string,
                 lookup: (Series<E>, real) -> seq<E>)
      requires ScoreTypeError(score, requiredScoreType, 0).None?
      ensures this.requiredScoreType == requiredScoreType && this.score == score && this.mpc == mpc
      ensures this.sliceFunc == sliceFunc && this.rowFunc == rowFunc && this.lookup == lookup
      ensures this.types == types && this.classOf == classOf
    {
      this.requiredScoreType := requiredScoreType;
      this.score := score;
      this.mpc := mpc;
      this.sliceFunc := sliceFunc;
      this.rowFunc := rowFunc;
      this.lookup := lookup;
      this.types := types;
      this.classOf := classOf;
    }

    /** `Indexer.__init__`: raises RuntimeError on the first element of
        `score` that is not of the required type. */
    static method Create(requiredScoreType: ScoreType, score: seq<Voice<E>>, mpc: bool,
                         sliceFunc: seq<E> -> V, rowFunc: seq<Option<E>> -> V,
                         types: Option<seq<string>>, classOf: E -> string,
                         lookup: (Series<E>, real) -> seq<E>) returns (r: Result<Indexer<E, V>>)
      ensures r.Err? <==> exists k :: 0 <= k < |score| && score[k].kind != requiredScoreType
      ensures r.Err? ==> r.error.Class() == RuntimeError
      ensures r.Ok? ==> fresh(r.value) && r.value.score == score && r.value.mpc == mpc
                        && r.value.requiredScoreType == requiredScoreType
    {
      var e := ScoreTypeError(score, requiredScoreType, 0);
      if e.Some? {
        return Err(e.value);
      }
      var ix := new Indexer(requiredScoreType, score, mpc, sliceFunc, rowFunc, types, classOf, lookup);
      return Ok(ix);
    }

    /** pandas needs each Series of the score to have a strictly increasing
        index before reindexing it. */
    predicate SeriesSorted() {
      score != [] && score[0].kind != StreamPart ==>
        forall v :: 0 <= v < |score| ==> StrictlyIncreasing(OffsetsOf(score[v].elements))
    }

    predicate ValidCombo(combo: seq<nat>) {
      |combo| >= 1 && forall k :: 0 <= k < |combo| ==> combo[k] < |score|
    }

    /** What one voice combination yields: stream_indexer when the score
        holds music21 streams, series_indexer otherwise. */
    function IndexCombo(combo: seq<nat>): Series<V>
      requires ValidCombo(combo) && SeriesSorted()
    {
      assert combo[0] < |score|;
      var voices := Pick(score, combo);
      if score[0].kind == StreamPart then StreamIndex(FilterAll(voices, types, classOf), lookup, sliceFunc)
      else SeriesIndex(voices, rowFunc)
    }

    /** One call of the indexing function on one combination of voices. */
    method IndexOne(combo: seq<nat>) returns (result: Series<V>)
      requires ValidCombo(combo) && SeriesSorted()
      ensures result == IndexCombo(combo)
    {
      assert combo[0] < |score|;
      var voices := Pick(score, combo);
      if score[0].kind == StreamPart {
        result := StreamIndexer(voices, types, classOf, lookup, sliceFunc);
      } else {
        result := SeriesIndex(voices, rowFunc);
      }
    }

    /** The results of the combinations, in order. */
    function IndexAll(combos: seq<seq<nat>>): (r: seq<Series<V>>)
      requires SeriesSorted()
      requires forall c :: 0 <= c < |combos| ==> ValidCombo(combos[c])
      ensures |r| == |combos|
    {
      if combos == [] then []
      else IndexAll(combos[..|combos| - 1]) + [IndexCombo(combos[|combos| - 1])]
    }

    lemma {:induction false} IndexAllAt(combos: seq<seq<nat>>, c: nat)
      requires SeriesSorted()
      requires forall c :: 0 <= c < |combos| ==> ValidCombo(combos[c])
      requires c < |combos|
      ensures IndexAll(combos)[c] == IndexCombo(combos[c])
    {
      if c < |combos| - 1 {
        IndexAllAt(combos[..|combos| - 1], c);
      }
    }

    lemma IndexAllPrefix(combos: seq<seq<nat>>, c: nat)
      requires SeriesSorted()
      requires forall c :: 0 <= c < |combos| ==> ValidCombo(combos[c])
      requires c < |combos|
      ensures IndexAll(combos[..c + 1]) == IndexAll(combos[..c]) + [IndexCombo(combos[c])]
    {
      assert combos[..c + 1][..c] == combos[..c];
    }

    lemma IndexAllEach(combos: seq<seq<nat>>)
      requires SeriesSorted()
      requires forall c :: 0 <= c < |combos| ==> ValidCombo(combos[c])
      ensures forall c :: 0 <= c < |combos| ==> IndexAll(combos)[c] == IndexCombo(combos[c])
    {
      forall c | 0 <= c < |combos|
        ensures IndexAll(combos)[c] == IndexCombo(combos[c])
      {
        IndexAllAt(combos, c);
      }
    }

    /** `_do_multiprocessing`, serial branch: one result per combination,
        in the order of the combinations. */
    method DoMultiprocessing(combos: seq<seq<nat>>) returns (post: seq<Series<V>>)
      requires SeriesSorted()
      requires forall c :: 0 <= c < |combos| ==> ValidCombo(combos[c])
      ensures |post| == |combos|
      ensures forall c :: 0 <= c < |combos| ==> post[c] == IndexCombo(combos[c])
    {
      post := [];
      var c := 0;
      while c < |combos|
        invariant 0 <= c <= |combos|
        invariant post == IndexAll(combos[..c])
      {
        var result := IndexOne(combos[c]);
        IndexAllPrefix(combos, c);
        post := post + [result];
        c := c + 1;
      }
      assert combos[..|combos|] == combos;
      IndexAllEach(combos);
    }
  }
}

/** The part-notes experimenter of vis/analyzers/experimenters/lilypond.py:
    it turns each annotation series into a part whose notes and rests fill
    the time between the annotations, ready for LilyPond output. */
module LilyPond {
  import opened Common

  // ---------------------------------------------------------------------------
  // _fill_space_between_offsets
  // ---------------------------------------------------------------------------

  /** The quarterLengths the solver may use below a whole note, longest
      first, ending with 0.0. */
  const ValidDurations: seq<real> := [2.0, 1.0, 0.5, 0.25, 0.125, 0.0625, 0.03125, 0.015625, 0.0]

  /** The shortest usable quarterLength, a 256th note. */
  const Shortest: real := 0.015625

  /** `find_highest_valid_ql`: the first of `ValidDurations[recursor..]` not
      above `ql`. The list ends with 0.0, so one is always found for a
      non-negative `ql`. */
  function FindHighestValidQl(ql: real, recursor: nat): (h: real)
    requires recursor < |ValidDurations| && ql >= 0.0
    ensures h <= ql
    ensures recursor <= 7 && ql >= Shortest ==> h >= Shortest
    decreases |ValidDurations| - recursor
  {
    if ValidDurations[recursor] <= ql then ValidDurations[recursor]
    else FindHighestValidQl(ql, recursor + 1)
  }

  /** The value found is a valid duration from `recursor` on, not above
      `ql`, and no valid duration from there that fits is larger. */
  lemma {:induction false} HighestValid(ql: real, recursor: nat)
    requires recursor < |ValidDurations| && ql >= 0.0
    ensures exists k :: recursor <= k < |ValidDurations| && ValidDurations[k] == FindHighestValidQl(ql, recursor)
    ensures forall k :: recursor <= k < |ValidDurations| && ValidDurations[k] <= ql ==>
              ValidDurations[k] <= FindHighestValidQl(ql, recursor)
    decreases |ValidDurations| - recursor
  {
    if ValidDurations[recursor] > ql {
      HighestValid(ql, recursor + 1);
    }
  }

  /** A value the solver emits for a non-zero span: a whole note or one of
      the positive valid durations. */
  predicate ValidQl(v: real) {
    v == 4.0 || (v > 0.0 && v in ValidDurations)
  }

  /** Whole notes first, then strictly shorter values: several plain values
      rather than one dotted value. */
  predicate WholesThenDecreasing(qls: seq<real>) {
    forall i, j :: 0 <= i < j < |qls| ==> qls[j] < qls[i] || qls[i] == qls[j] == 4.0
  }

  function Sum(qls: seq<real>): real {
    if qls == [] then 0.0 else qls[0] + Sum(qls[1..])
  }

  /** A quarterLength that is a whole number of 256th notes. */
  predicate IsTick(r: real) {
    (r * 64.0).Floor as real == r * 64.0
  }

  /** How much is left to decompose, in 256th notes, as a termination
      measure. */
  function Ticks(r: real): nat {
    if r < 0.0 then 0 else (r * 64.0).Floor + 1
  }

  /** Below a whole note the highest valid duration is at least a 256th
      note, and more than half of what remains. */
  lemma HighestBounds(r: real)
    requires Shortest <= r < 4.0
    ensures var h := FindHighestValidQl(r, 0);
            Shortest <= h <= r < 2.0 * h && ValidQl(h)
  {
    var h := FindHighestValidQl(r, 0);
    HighestValid(r, 0);
    var k :| 0 <= k < |ValidDurations| && ValidDurations[k] == h;
    assert ValidDurations[7] <= r;
    if k > 0 {
      assert ValidDurations[k - 1] == 2.0 * ValidDurations[k] || k == 8;
    }
  }

  /** `the_solver`: the quarterLengths that fill `r`, whole notes first,
      then the highest valid duration that fits, again and again. A
      remainder that is negative, or positive but under a 256th note, raises
      RuntimeError carrying the whole span. */
  function Solver(r: real, span: real): (res: Result<seq<real>>)
    ensures res.Err? ==> res.error == ImpossibleQuarterLength(span) && res.error.Class() == RuntimeError
    ensures res.Ok? ==> |res.value| >= 1 && Sum(res.value) == r
    decreases Ticks(r)
  {
    if r == 0.0 then Ok([0.0])
    else if r == 4.0 then Ok([4.0])
    else if r > 4.0 then
      match Solver(r - 4.0, span)
      case Err(e) => Err(e)
      case Ok(rest) => Ok([4.0] + rest)
    else if 4.0 > r >= Shortest then
      var h := FindHighestValidQl(r, 0);
      if h == r then Ok([r])
      else
        match Solver(r - h, span)
        case Err(e) => Err(e)
        case Ok(rest) => Ok([h] + rest)
    else Err(ImpossibleQuarterLength(span))
  }

  /** Nothing to fill gives a single zero; otherwise the solver emits
      only whole notes and valid durations. */
  lemma {:induction false} SolverValues(r: real, span: real)
    requires Solver(r, span).Ok?
    ensures r == 0.0 ==> Solver(r, span).value == [0.0]
    ensures r != 0.0 ==> forall i :: 0 <= i < |Solver(r, span).value| ==> ValidQl(Solver(r, span).value[i])
    decreases Ticks(r)
  {
    if r == 0.0 || r == 4.0 {
    } else if r > 4.0 {
      SolverValues(r - 4.0, span);
    } else {
      var h := FindHighestValidQl(r, 0);
      HighestBounds(r);
      if h != r {
        SolverValues(r - h, span);
      }
    }
  }

  /** The first value never exceeds the remainder, and is a whole note
      while a whole note fits. */
  lemma SolverFirst(r: real, span: real)
    requires Solver(r, span).Ok?
    ensures Solver(r, span).value[0] <= r
    ensures r >= 4.0 ==> Solver(r, span).value[0] == 4.0
  {
    if 0.0 < r < 4.0 {
      HighestBounds(r);
    }
  }

  /** Whole notes first, then strictly decreasing values: each value found
      below a whole note is more than half the remainder, so the next one is
      smaller. */
  lemma {:induction false} SolverOrder(r: real, span: real)
    requires Solver(r, span).Ok?
    ensures WholesThenDecreasing(Solver(r, span).value)
    decreases Ticks(r)
  {
    if r == 0.0 || r == 4.0 {
    } else if r > 4.0 {
      SolverOrder(r - 4.0, span);
    } else {
      var h := FindHighestValidQl(r, 0);
      HighestBounds(r);
      if h != r {
        SolverOrder(r - h, span);
        SolverFirst(r - h, span);
      }
    }
  }

  /** `_fill_space_between_offsets(start_o, end_o)`. */
  function FillSpace(start: real, end: real): (res: Result<seq<real>>)
    ensures res.Ok? ==> Sum(res.value) == end - start
  {
    Solver(end - start, end - start)
  }

  lemma TickDifference(r: real, h: real)
    requires IsTick(h)
    ensures IsTick(r) <==> IsTick(r - h)
  {
    var c := (h * 64.0).Floor;
    assert (r - h) * 64.0 == r * 64.0 - c as real;
    assert ((r - h) * 64.0).Floor == (r * 64.0).Floor - c;
  }

  /** The valid durations are whole numbers of 256th notes. */
  lemma ValidQlIsTick(v: real)
    requires ValidQl(v)
    ensures IsTick(v)
  {
  }

  /** The solver succeeds exactly on non-negative whole numbers of 256th
      notes: every step removes a whole number of them, at least one. */
  lemma {:induction false} SolverSucceedsIff(r: real, span: real)
    ensures Solver(r, span).Ok? <==> r >= 0.0 && IsTick(r)
    decreases Ticks(r)
  {
    if r == 0.0 || r == 4.0 {
    } else if r > 4.0 {
      SolverSucceedsIff(r - 4.0, span);
      TickDifference(r, 4.0);
    } else if 4.0 > r >= Shortest {
      var h := FindHighestValidQl(r, 0);
      HighestBounds(r);
      ValidQlIsTick(h);
      TickDifference(r, h);
      if h != r {
        SolverSucceedsIff(r - h, span);
      }
    } else if r > 0.0 {
      assert 0.0 < r * 64.0 < 1.0;
    }
  }

  // ---------------------------------------------------------------------------
  // _set_durations
  // ---------------------------------------------------------------------------

  /** An object of an annotation part: a note carrying its annotation, or a
      rest of a given quarterLength. */
  datatype Lily<E> = Note(content: E) | Rest(quarterLength: real)

  /** An object placed in the output part, with the duration it is given. */
  datatype Placed<E> = Placed(offset: real, obj: Lily<E>, duration: real)

  /** A music21 part: its objects by offset, and the two LilyPond attributes
      it may carry. */
  datatype InPart<E> = InPart(elements: Series<Lily<E>>, analysisVoice: Option<bool>, instruction: Option<string>)
  datatype OutPart<E> = OutPart(elements: seq<Placed<E>>, analysisVoice: Option<bool>, instruction: Option<string>)

  /** The quarterLengths filling the time after object `i`: up to the next
      object, or a single 1.0 after the last one (music21 raises
      StreamException there, which the source catches). */
  function QlsFor<E>(elems: Series<Lily<E>>, i: nat): (res: Result<seq<real>>)
    requires i < |elems|
    ensures res.Ok? ==> |res.value| >= 1
    ensures res.Ok? && i + 1 < |elems| ==> Sum(res.value) == elems[i + 1].offset - elems[i].offset
    ensures i + 1 == |elems| ==> res == Ok([1.0])
  {
    if i + 1 < |elems| then FillSpace(elems[i].offset, elems[i + 1].offset) else Ok([1.0])
  }

  /** Rests of durations `ds`, one after the other from `start`. */
  function Rests<E>(start: real, ds: seq<real>): (rests: seq<Placed<E>>)
    ensures |rests| == |ds|
    decreases |ds|
  {
    if ds == [] then [] else [Placed(start, Rest(ds[0]), ds[0])] + Rests(start + ds[0], ds[1..])
  }

  /** What one object becomes: itself at its offset with duration `qls[0]`,
      then a rest for each further quarterLength. */
  function Block<E>(o: real, obj: Lily<E>, qls: seq<real>): seq<Placed<E>>
    requires |qls| >= 1
  {
    [Placed(o, obj, qls[0])] + Rests(o + qls[0], qls[1..])
  }

  /** The placed objects for the first `k` objects of the part; the first
      span that cannot be filled raises. */
  function Durations<E>(elems: Series<Lily<E>>, k: nat): (res: Result<seq<Placed<E>>>)
    requires k <= |elems|
  {
    if k == 0 then Ok([])
    else
      match Durations(elems, k - 1)
      case Err(e) => Err(e)
      case Ok(done) =>
        match QlsFor(elems, k - 1)
        case Err(e) => Err(e)
        case Ok(qls) => Ok(done + Block(elems[k - 1].offset, elems[k - 1].value, qls))
  }

  /** What `_set_durations` returns for a part. */
  function SetDurationsSpec<E>(part: InPart<E>): Result<OutPart<E>> {
    match Durations(part.elements, |part.elements|)
    case Err(e) => Err(e)
    case Ok(placed) => Ok(OutPart(placed, part.analysisVoice, part.instruction))
  }

  /** Rest `j` starts after the earlier ones: at `start` plus their sum. */
  lemma {:induction false} RestAt<E>(start: real, ds: seq<real>, j: nat)
    requires j < |ds|
    ensures Rests<E>(start, ds)[j] == Placed(start + Sum(ds[..j]), Rest(ds[j]), ds[j])
    decreases j
  {
    if j > 0 {
      RestAt<E>(start + ds[0], ds[1..], j - 1);
      assert ds[..j] == [ds[0]] + ds[1..][..j - 1];
    } else {
      assert ds[..0] == [];
    }
  }

  /** The inner loop of `_set_durations`: the object with duration
      `qls[0]`, then rest `j + 1` at `o + qls[0] + sum(qls[1..j + 1])`. */
  method AppendBlock<E>(retPart: seq<Placed<E>>, o: real, obj: Lily<E>, qls: seq<real>)
    returns (out: seq<Placed<E>>)
    requires |qls| >= 1
    ensures out == retPart + Block(o, obj, qls)
  {
    out := retPart + [Placed(o, obj, qls[0])];
    var j := 0;
    while j < |qls| - 1
      invariant 0 <= j <= |qls| - 1
      invariant out == retPart + [Placed(o, obj, qls[0])] + Rests(o + qls[0], qls[1..])[..j]
    {
      RestAt<E>(o + qls[0], qls[1..], j);
      assert qls[1..][..j] == qls[1..j + 1];
      assert Rests<E>(o + qls[0], qls[1..])[..j + 1] == Rests(o + qls[0], qls[1..])[..j] + [Rests(o + qls[0], qls[1..])[j]];
      out := out + [Placed(o + qls[0] + Sum(qls[1..j + 1]), Rest(qls[j + 1]), qls[j + 1])];
      j := j + 1;
    }
    assert Rests<E>(o + qls[0], qls[1..])[..j] == Rests(o + qls[0], qls[1..]);
  }

  /** One pass of the outer loop of `_set_durations`: the next object's
      block, or the error its span raises. */
  method NextBlock<E>(elems: Series<Lily<E>>, i: nat, done: seq<Placed<E>>) returns (r: Result<seq<Placed<E>>>)
    requires i < |elems| && Durations(elems, i) == Ok(done)
    ensures r == Durations(elems, i + 1)
  {
    var qls := QlsFor(elems, i);
    if qls.Err? {
      return Err(qls.error);
    }
    var out := AppendBlock(done, elems[i].offset, elems[i].value, qls.value);
    return Ok(out);
  }

  /** Once a span cannot be filled, the error is what the whole part
      raises. */
  lemma {:induction false} DurationsErrPersists<E>(elems: Series<Lily<E>>, k: nat, n: nat)
    requires k <= n <= |elems| && Durations(elems, k).Err?
    ensures Durations(elems, n) == Durations(elems, k)
    decreases n
  {
    if n > k {
      DurationsErrPersists(elems, k, n - 1);
    }
  }

  /** `_set_durations`: each object gets the duration up to the next one (or
      1.0 for the last), and rests fill whatever a single duration cannot. */
  method SetDurations<E>(inPart: InPart<E>) returns (r: Result<OutPart<E>>)
    ensures r == SetDurationsSpec(inPart)
  {
    var elems := inPart.elements;
    var retPart: seq<Placed<E>> := [];
    var i := 0;
    while i < |elems|
      invariant 0 <= i <= |elems|
      invariant Durations(elems, i) == Ok(retPart)
    {
      var next := NextBlock(elems, i, retPart);
      if next.Err? {
        DurationsErrPersists(elems, i + 1, |elems|);
        return Err(next.error);
      }
      retPart := next.value;
      i := i + 1;
    }
    r := Ok(OutPart(retPart, inPart.analysisVoice, inPart.instruction));
  }

  /** `p` covers the time from `a` to `b` without gap or overlap: the
      first object starts at `a`, each next one where the one before it
      ends, and the last one ends at `b`. */
  predicate Tiles<E>(p: seq<Placed<E>>, a: real, b: real)
    decreases |p|
  {
    if p == [] then a == b else p[0].offset == a && Tiles(p[1..], a + p[0].duration, b)
  }

  /** What tiling means object by object: the first starts at `a`, each
      starts where its predecessor ends, and the last ends at `b`. */
  lemma {:induction false} TilesAt<E>(p: seq<Placed<E>>, a: real, b: real, t: nat)
    requires Tiles(p, a, b) && t < |p|
    ensures p[0].offset == a
    ensures t > 0 ==> p[t - 1].offset + p[t - 1].duration == p[t].offset
    ensures t == |p| - 1 ==> p[t].offset + p[t].duration == b
    decreases t
  {
    if t > 0 {
      TilesAt(p[1..], a + p[0].duration, b, t - 1);
      if t > 1 {
        TilesAt(p[1..], a + p[0].duration, b, t - 2);
      }
    } else if |p| == 1 {
      assert p[1..] == [];
    }
  }

  /** Two tilings that meet make one. */
  lemma {:induction false} TilesJoin<E>(p: seq<Placed<E>>, q: seq<Placed<E>>, a: real, m: real, b: real)
    requires Tiles(p, a, m) && Tiles(q, m, b)
    ensures Tiles(p + q, a, b)
    decreases |p|
  {
    if p == [] {
      assert p + q == q;
    } else {
      TilesJoin(p[1..], q, a + p[0].duration, m, b);
      assert (p + q)[1..] == p[1..] + q;
    }
  }

  /** Rests of durations `ds` tile `Sum(ds)` from `start`. */
  lemma {:induction false} RestsTile<E>(start: real, ds: seq<real>)
    ensures Tiles(Rests<E>(start, ds), start, start + Sum(ds))
    decreases |ds|
  {
    if ds != [] {
      RestsTile<E>(start + ds[0], ds[1..]);
      var first: seq<Placed<E>> := [Placed(start, Rest(ds[0]), ds[0])];
      assert (first + Rests<E>(start + ds[0], ds[1..]))[1..] == Rests<E>(start + ds[0], ds[1..]);
    }
  }

  /** An object's block starts with the object and tiles `Sum(qls)` from
      the object's offset. */
  lemma BlockTile<E>(o: real, obj: Lily<E>, qls: seq<real>)
    requires |qls| >= 1
    ensures Block(o, obj, qls)[0] == Placed(o, obj, qls[0])
    ensures Tiles(Block(o, obj, qls), o, o + Sum(qls))
  {
    RestsTile<E>(o + qls[0], qls[1..]);
    var head: seq<Placed<E>> := [Placed(o, obj, qls[0])];
    assert (head + Rests<E>(o + qls[0], qls[1..]))[1..] == Rests<E>(o + qls[0], qls[1..]);
  }

  /** How far the blocks of the first `k` objects reach: to the next
      object, or one beat past the last one. */
  function Reach<E>(elems: Series<Lily<E>>, k: nat): real
    requires 1 <= k <= |elems|
  {
    if k < |elems| then elems[k].offset else elems[k - 1].offset + 1.0
  }

  /** When the first `k` objects succeed, so do the first `k - 1` and the
      span of object `k - 1`, and its block comes after theirs. */
  lemma DurationsUnfold<E>(elems: Series<Lily<E>>, k: nat)
    requires 1 <= k <= |elems| && Durations(elems, k).Ok?
    ensures Durations(elems, k - 1).Ok? && QlsFor(elems, k - 1).Ok?
    ensures Durations(elems, k).value ==
            Durations(elems, k - 1).value + Block(elems[k - 1].offset, elems[k - 1].value, QlsFor(elems, k - 1).value)
  {
  }

  /** The block of object `k - 1` ends where the first `k` objects reach. */
  lemma BlockReach<E>(elems: Series<Lily<E>>, k: nat)
    requires 1 <= k <= |elems| && QlsFor(elems, k - 1).Ok?
    ensures elems[k - 1].offset + Sum(QlsFor(elems, k - 1).value) == Reach(elems, k)
  {
    if k == |elems| {
      assert QlsFor(elems, k - 1).value == [1.0];
      assert Sum([1.0]) == 1.0 + Sum([]);
    }
  }

  /** The block of object `k - 1` covers its span up to where the first `k`
      objects reach. */
  lemma BlockTilesReach<E>(elems: Series<Lily<E>>, k: nat)
    requires 1 <= k <= |elems| && QlsFor(elems, k - 1).Ok?
    ensures var block := Block(elems[k - 1].offset, elems[k - 1].value, QlsFor(elems, k - 1).value);
            |block| >= 1 && Tiles(block, elems[k - 1].offset, Reach(elems, k))
  {
    var o := elems[k - 1].offset;
    var qls := QlsFor(elems, k - 1).value;
    BlockTile(o, elems[k - 1].value, qls);
    BlockReach(elems, k);
    assert o + Sum(qls) == Reach(elems, k);
  }

  /** The placed objects of the first `k` objects tile the time from the
      first object to where they reach, with at least one placed object per
      object. */
  lemma {:induction false} DurationsTile<E>(elems: Series<Lily<E>>, k: nat)
    requires 1 <= k <= |elems| && Durations(elems, k).Ok?
    ensures |Durations(elems, k).value| >= k
    ensures Tiles(Durations(elems, k).value, elems[0].offset, Reach(elems, k))
  {
    DurationsUnfold(elems, k);
    var done := Durations(elems, k - 1).value;
    var qls := QlsFor(elems, k - 1).value;
    var o := elems[k - 1].offset;
    var block := Block(o, elems[k - 1].value, qls);
    BlockTilesReach(elems, k);
    if k > 1 {
      assert |done| >= k - 1 && Tiles(done, elems[0].offset, o) by {
        DurationsTile(elems, k - 1);
        assert Reach(elems, k - 1) == o;
      }
      TilesJoin(done, block, elems[0].offset, o, Reach(elems, k));
    } else {
      assert done == [];
      assert done + block == block;
    }
  }

  /** The placed objects of fewer objects are a prefix of those of more. */
  lemma {:induction false} DurationsPrefix<E>(elems: Series<Lily<E>>, i: nat, k: nat)
    requires i <= k <= |elems| && Durations(elems, k).Ok?
    ensures Durations(elems, i).Ok?
    ensures |Durations(elems, i).value| <= |Durations(elems, k).value|
    ensures Durations(elems, i).value == Durations(elems, k).value[..|Durations(elems, i).value|]
    decreases k
  {
    if i < k {
      DurationsPrefix(elems, i, k - 1);
    }
  }

  /** Object `i` keeps its offset and takes the first quarterLength of its
      span; it sits after the blocks of the objects before it. */
  lemma ObjectPlaced<E>(elems: Series<Lily<E>>, k: nat, i: nat)
    requires i < k <= |elems| && Durations(elems, k).Ok?
    ensures Durations(elems, i).Ok? && QlsFor(elems, i).Ok?
    ensures var p := |Durations(elems, i).value|;
            p < |Durations(elems, k).value| &&
            Durations(elems, k).value[p] == Placed(elems[i].offset, elems[i].value, QlsFor(elems, i).value[0])
  {
    DurationsPrefix(elems, i + 1, k);
    var done := Durations(elems, i).value;
    var qls := QlsFor(elems, i).value;
    var block := Block(elems[i].offset, elems[i].value, qls);
    assert Durations(elems, i + 1).value == done + block;
    assert (done + block)[|done|] == block[0];
  }

  /** Whether the time from `a` to `b` can be filled. */
  predicate Fillable(a: real, b: real) {
    b - a >= 0.0 && IsTick(b - a)
  }

  /** The span after object `i` can be filled exactly when it is a
      non-negative whole number of 256th notes (after the last object there
      is nothing to fill). */
  lemma QlsForOkIff<E>(elems: Series<Lily<E>>, i: nat)
    requires i < |elems|
    ensures QlsFor(elems, i).Ok? <==> (i + 1 < |elems| ==> Fillable(elems[i].offset, elems[i + 1].offset))
  {
    if i + 1 < |elems| {
      var gap := elems[i + 1].offset - elems[i].offset;
      SolverSucceedsIff(gap, gap);
    }
  }

  /** Every span between consecutive objects among the first `k` can be
      filled. */
  predicate AllFillable<E>(elems: Series<Lily<E>>, k: nat)
    requires k <= |elems|
  {
    forall i :: 0 <= i < k && i + 1 < |elems| ==> Fillable(elems[i].offset, elems[i + 1].offset)
  }

  lemma AllFillableStep<E>(elems: Series<Lily<E>>, k: nat)
    requires 0 < k <= |elems|
    ensures AllFillable(elems, k) <==>
            AllFillable(elems, k - 1) && (k < |elems| ==> Fillable(elems[k - 1].offset, elems[k].offset))
  {
  }

  lemma DurationsStepOk<E>(elems: Series<Lily<E>>, k: nat)
    requires 0 < k <= |elems|
    ensures Durations(elems, k).Ok? <==> Durations(elems, k - 1).Ok? && QlsFor(elems, k - 1).Ok?
  {
  }

  /** The blocks of the first `k` objects exist exactly when every span
      between consecutive objects among them is a non-negative whole number
      of 256th notes. */
  lemma {:induction false} DurationsOkIff<E>(elems: Series<Lily<E>>, k: nat)
    requires k <= |elems|
    ensures Durations(elems, k).Ok? <==> AllFillable(elems, k)
  {
    if k > 0 {
      DurationsOkIff(elems, k - 1);
      QlsForOkIff(elems, k - 1);
      DurationsStepOk(elems, k);
      AllFillableStep(elems, k);
    }
  }

  /** What `_set_durations` promises: it fails exactly when a span cannot be
      filled, and otherwise the new part tiles the time from the first
      object to one beat past the last, every object keeps its offset and
      starts its own block, the last object is last with duration 1.0, and
      the two LilyPond attributes are carried over as they are. */
  lemma SetDurationsShape<E>(part: InPart<E>)
    ensures SetDurationsSpec(part).Ok? <==> AllFillable(part.elements, |part.elements|)
    ensures SetDurationsSpec(part).Ok? ==>
              SetDurationsSpec(part).value.analysisVoice == part.analysisVoice &&
              SetDurationsSpec(part).value.instruction == part.instruction
    ensures SetDurationsSpec(part).Ok? && |part.elements| == 0 ==> SetDurationsSpec(part).value.elements == []
    ensures SetDurationsSpec(part).Ok? && |part.elements| >= 1 ==>
              var n := |part.elements|;
              var out := SetDurationsSpec(part).value.elements;
              |out| >= n &&
              Tiles(out, part.elements[0].offset, part.elements[n - 1].offset + 1.0) &&
              out[|out| - 1] == Placed(part.elements[n - 1].offset, part.elements[n - 1].value, 1.0)
  {
    var elems := part.elements;
    var n := |elems|;
    DurationsOkIff(elems, n);
    if SetDurationsSpec(part).Ok? && n >= 1 {
      DurationsTile(elems, n);
      ObjectPlaced(elems, n, n - 1);
      var done := Durations(elems, n - 1).value;
      var qls := QlsFor(elems, n - 1).value;
      assert Durations(elems, n).value == done + Block(elems[n - 1].offset, elems[n - 1].value, qls);
      assert qls == [1.0];
    }
  }

  // ---------------------------------------------------------------------------
  // _prepend_rests
  // ---------------------------------------------------------------------------

  /** Entries in order of their offsets. */
  predicate SortedByOffset<T>(s: Series<T>) {
    forall i, j :: 0 <= i < j < |s| ==> s[i].offset <= s[j].offset
  }

  /** Puts `x` after every entry of `t` whose offset is not above its own
      and before the first one whose offset is. */
  function InsertByOffset<T>(t: Series<T>, x: Timed<T>): (r: Series<T>)
    ensures |r| == |t| + 1
  {
    if t == [] then [x]
    else if t[0].offset > x.offset then [x] + t
    else [t[0]] + InsertByOffset(t[1..], x)
  }

  /** `sort_index()`: the entries ordered by offset, entries at equal
      offsets kept in their order. */
  function SortByOffset<T>(s: Series<T>): (r: Series<T>)
    ensures |r| == |s|
  {
    if s == [] then [] else InsertByOffset(SortByOffset(s[..|s| - 1]), s[|s| - 1])
  }

  lemma {:induction false} InsertKeepsEntries<T>(t: Series<T>, x: Timed<T>)
    ensures multiset(InsertByOffset(t, x)) == multiset(t) + multiset{x}
  {
    if t != [] && t[0].offset <= x.offset {
      InsertKeepsEntries(t[1..], x);
      assert t == [t[0]] + t[1..];
    }
  }

  lemma {:induction false} InsertKeepsSorted<T>(t: Series<T>, x: Timed<T>)
    requires SortedByOffset(t)
    ensures SortedByOffset(InsertByOffset(t, x))
  {
    if t != [] && t[0].offset <= x.offset {
      var rest := InsertByOffset(t[1..], x);
      InsertKeepsSorted(t[1..], x);
      InsertKeepsEntries(t[1..], x);
      forall k | 0 <= k < |rest|
        ensures t[0].offset <= rest[k].offset
      {
        assert rest[k] in multiset(rest);
        if rest[k] != x {
          assert rest[k] in multiset(t[1..]);
          var m :| 0 <= m < |t[1..]| && t[1..][m] == rest[k];
          assert t[1 + m] == rest[k];
        }
      }
      var r := [t[0]] + rest;
      forall i, j | 0 <= i < j < |r|
        ensures r[i].offset <= r[j].offset
      {
        if i > 0 {
          assert r[i] == rest[i - 1] && r[j] == rest[j - 1];
        }
      }
    }
  }

  /** `sort_index` returns the same entries, ordered by offset. */
  lemma {:induction false} SortByOffsetSorts<T>(s: Series<T>)
    ensures SortedByOffset(SortByOffset(s))
    ensures multiset(SortByOffset(s)) == multiset(s)
  {
    if s != [] {
      var front := s[..|s| - 1];
      SortByOffsetSorts(front);
      InsertKeepsSorted(SortByOffset(front), s[|s| - 1]);
      InsertKeepsEntries(SortByOffset(front), s[|s| - 1]);
      assert s == front + [s[|s| - 1]];
    }
  }

  /** Inserting an entry that belongs between two runs puts it there. */
  lemma {:induction false} InsertBetween<T>(a: Series<T>, b: Series<T>, x: Timed<T>)
    requires forall k :: 0 <= k < |a| ==> a[k].offset <= x.offset
    requires b != [] ==> b[0].offset > x.offset
    ensures InsertByOffset(a + b, x) == a + [x] + b
  {
    if a == [] {
      assert a + b == b;
    } else {
      InsertBetween(a[1..], b, x);
      assert (a + b)[1..] == a[1..] + b;
    }
  }

  /** Sorting a series already in order changes nothing. */
  lemma {:induction false} SortSortedUnchanged<T>(s: Series<T>)
    requires SortedByOffset(s)
    ensures SortByOffset(s) == s
  {
    if s != [] {
      var front := s[..|s| - 1];
      var none: Series<T> := [];
      SortSortedUnchanged(front);
      InsertBetween(front, none, s[|s| - 1]);
      assert front + none == front;
      assert front + [s[|s| - 1]] + none == s;
    }
  }

  /** `in_part[o] = v` on a series labelled by offset: every entry at `o`
      takes the value, or a new entry is appended when there is none. */
  function Assign<T>(s: Series<T>, o: real, v: T): (r: Series<T>)
    ensures o !in OffsetsOf(s) ==> r == s + [Timed(o, v)]
    ensures o in OffsetsOf(s) ==> |r| == |s| && forall k :: 0 <= k < |s| ==>
              r[k] == if s[k].offset == o then Timed(o, v) else s[k]
  {
    if o in OffsetsOf(s) then
      seq(|s|, k requires 0 <= k < |s| => if s[k].offset == o then Timed(o, v) else s[k])
    else s + [Timed(o, v)]
  }

  function Max(a: real, b: real): real {
    if a >= b then a else b
  }

  /** Where rest `i` of a decomposition goes: after the rests before it,
      `max(0.0, sum(durations[:i]))`. */
  function RestOffset(ds: seq<real>, i: nat): real
    requires i <= |ds|
  {
    Max(0.0, Sum(ds[..i]))
  }

  /** The series after the first `i` rests of `ds` are written into it. */
  function AssignRests<E>(s: Series<Lily<E>>, ds: seq<real>, i: nat): Series<Lily<E>>
    requires i <= |ds|
  {
    if i == 0 then s else Assign(AssignRests(s, ds, i - 1), RestOffset(ds, i - 1), Rest(ds[i - 1]))
  }

  /** What `_prepend_rests` returns: the first label of an empty series
      raises IndexError; a series starting at 0.0 comes back as it is;
      otherwise the time before its first label is decomposed, one rest per
      value is written at the running sum, and the series is sorted. */
  function PrependSpec<E>(s: Series<Lily<E>>): Result<Series<Lily<E>>> {
    if s == [] then Err(NoSuchElement)
    else if s[0].offset == 0.0 then Ok(s)
    else
      match FillSpace(0.0, s[0].offset)
      case Err(e) => Err(e)
      case Ok(ds) => Ok(SortByOffset(AssignRests(s, ds, |ds|)))
  }

  /** `_prepend_rests`. */
  method PrependRests<E>(inPart: Series<Lily<E>>) returns (r: Result<Series<Lily<E>>>)
    ensures r == PrependSpec(inPart)
  {
    if |inPart| == 0 {
      return Err(NoSuchElement);
    }
    if inPart[0].offset == 0.0 {
      return Ok(inPart);
    }
    var durations := FillSpace(0.0, inPart[0].offset);
    if durations.Err? {
      return Err(durations.error);
    }
    var ds := durations.value;
    var offsets := seq(|ds|, i requires 0 <= i < |ds| => RestOffset(ds, i));
    var part := inPart;
    var i := 0;
    while i < |offsets|
      invariant 0 <= i <= |ds|
      invariant part == AssignRests(inPart, ds, i)
    {
      part := Assign(part, offsets[i], Rest(ds[i]));
      i := i + 1;
    }
    r := Ok(SortByOffset(part));
  }

  /** Rests of durations `ds` at their running sums. */
  function LeadingRests<E>(ds: seq<real>): (rests: Series<Lily<E>>)
    ensures |rests| == |ds|
  {
    seq(|ds|, i requires 0 <= i < |ds| => Timed(Sum(ds[..i]), Rest(ds[i])))
  }

  lemma {:induction false} SumAppend(a: seq<real>, x: real)
    ensures Sum(a + [x]) == Sum(a) + x
  {
    if a != [] {
      SumAppend(a[1..], x);
      assert (a + [x])[1..] == a[1..] + [x];
    }
  }

  /** With positive durations the running sums start at 0.0 and rise
      strictly. */
  lemma {:induction false} RunningSumsRise(ds: seq<real>, i: nat, j: nat)
    requires forall k :: 0 <= k < |ds| ==> ds[k] > 0.0
    requires i <= j <= |ds|
    ensures 0.0 <= Sum(ds[..i]) <= Sum(ds[..j])
    ensures i < j ==> Sum(ds[..i]) < Sum(ds[..j])
    decreases j
  {
    if j == 0 {
      assert ds[..0] == [];
    } else {
      assert ds[..j] == ds[..j - 1] + [ds[j - 1]];
      SumAppend(ds[..j - 1], ds[j - 1]);
      if i < j {
        RunningSumsRise(ds, i, j - 1);
      } else {
        RunningSumsRise(ds, 0, j - 1);
        assert ds[..0] == [];
      }
    }
  }

  /** The decomposition of the time before a positive first offset is made
      of positive durations. */
  lemma LeadDurationsPositive(o: real)
    requires o != 0.0 && FillSpace(0.0, o).Ok?
    ensures forall k :: 0 <= k < |FillSpace(0.0, o).value| ==> FillSpace(0.0, o).value[k] > 0.0
  {
    SolverValues(o - 0.0, o - 0.0);
  }

  /** Writing the rests into a series whose entries all lie at or after the
      decomposed time appends them, in order. */
  lemma {:induction false} AssignRestsAppends<E>(s: Series<Lily<E>>, ds: seq<real>, i: nat)
    requires forall k :: 0 <= k < |ds| ==> ds[k] > 0.0
    requires forall k :: 0 <= k < |s| ==> s[k].offset >= Sum(ds)
    requires i <= |ds|
    ensures AssignRests(s, ds, i) == s + LeadingRests<E>(ds)[..i]
  {
    if i > 0 {
      AssignRestsAppends(s, ds, i - 1);
      var before := s + LeadingRests<E>(ds)[..i - 1];
      var o := Sum(ds[..i - 1]);
      RunningSumsRise(ds, i - 1, |ds|);
      assert ds[..|ds|] == ds;
      assert RestOffset(ds, i - 1) == o;
      forall k | 0 <= k < |before|
        ensures before[k].offset != o
      {
        if k >= |s| {
          RunningSumsRise(ds, k - |s|, i - 1);
        }
      }
      assert o !in OffsetsOf(before);
      assert LeadingRests<E>(ds)[..i] == LeadingRests<E>(ds)[..i - 1] + [Timed(o, Rest(ds[i - 1]))];
    }
  }

  /** Sorting a sorted series followed by a sorted run of entries all
      earlier than it puts that run in front. */
  lemma {:induction false} SortPutsEarlierFirst<T>(s: Series<T>, lead: Series<T>)
    requires SortedByOffset(s) && SortedByOffset(lead)
    requires forall j, k :: 0 <= j < |lead| && 0 <= k < |s| ==> lead[j].offset < s[k].offset
    ensures SortByOffset(s + lead) == lead + s
  {
    if lead == [] {
      SortSortedUnchanged(s);
      assert s + lead == s && lead + s == s;
    } else {
      var m := |lead|;
      var front := lead[..m - 1];
      SortPutsEarlierFirst(s, front);
      assert (s + lead)[..|s + lead| - 1] == s + front;
      assert (s + lead)[|s + lead| - 1] == lead[m - 1];
      InsertBetween(front, s, lead[m - 1]);
      assert front + [lead[m - 1]] + s == lead + s;
    }
  }

  /** What `_prepend_rests` does to a series in offset order whose first
      label is not 0.0: the rests decomposing the time before it come
      first, each at the sum of the ones before it, then the series as it
      was. */
  lemma PrependOnSorted<E>(s: Series<Lily<E>>)
    requires s != [] && s[0].offset != 0.0 && SortedByOffset(s)
    requires FillSpace(0.0, s[0].offset).Ok?
    ensures PrependSpec(s) == Ok(LeadingRests(FillSpace(0.0, s[0].offset).value) + s)
    ensures PrependSpec(s).value[0].offset == 0.0
  {
    var ds := FillSpace(0.0, s[0].offset).value;
    var lead := LeadingRests<E>(ds);
    LeadDurationsPositive(s[0].offset);
    AssignRestsAppends(s, ds, |ds|);
    assert lead[..|ds|] == lead;
    RunningSumsRise(ds, 0, |ds|);
    assert ds[..0] == [] && ds[..|ds|] == ds;
    forall j, k | 0 <= j < |lead| && 0 <= k < |s|
      ensures lead[j].offset < s[k].offset
    {
      RunningSumsRise(ds, j, |ds|);
    }
    forall i, j | 0 <= i < j < |lead|
      ensures lead[i].offset <= lead[j].offset
    {
      RunningSumsRise(ds, i, j);
    }
    SortPutsEarlierFirst(s, lead);
  }

  /** `_prepend_rests` fails exactly on an empty series and on a first
      label that is negative or not a whole number of 256th notes. */
  lemma PrependOkIff<E>(s: Series<Lily<E>>)
    ensures PrependSpec(s).Ok? <==> s != [] && s[0].offset >= 0.0 && IsTick(s[0].offset)
    ensures s == [] ==> PrependSpec(s) == Err(NoSuchElement)
    ensures s != [] && s[0].offset == 0.0 ==> PrependSpec(s) == Ok(s)
  {
    if s != [] {
      SolverSucceedsIff(s[0].offset - 0.0, s[0].offset - 0.0);
      assert s[0].offset - 0.0 == s[0].offset;
    }
  }

  // ---------------------------------------------------------------------------
  // PartNotesExperimenter
  // ---------------------------------------------------------------------------

  /** The LilyPond instruction every annotation part starts with. */
  const TextLengthOn: string := "\t\\textLengthOn\n"

  const InstrumentName: string := "\t\\set Staff.instrumentName = \""
  const ShortInstrumentName: string := "\t\\set Staff.shortInstrumentName = \""
  const CloseName: string := "\"\n"

  /** The instruction for a part named `name`: text length on, then the
      staff's long and short instrument names. */
  function Named(name: string): string {
    TextLengthOn + InstrumentName + name + CloseName + ShortInstrumentName + name + CloseName
  }

  /** The `part_names` setting, when the settings hold one. */
  function PartNamesSetting(settings: Option<map<string, seq<string>>>): Option<seq<string>> {
    if settings.Some? && "part_names" in settings.value then Some(settings.value["part_names"]) else None
  }

  /** The instruction of part `i` as `run` computes it: with a `part_names`
      setting it reads `part_names[i]`, which raises IndexError when there
      are fewer names than parts. */
  function InstructionAsWritten(partNames: Option<seq<string>>, i: nat): Result<string> {
    if partNames.None? then Ok(TextLengthOn)
    else if i < |partNames.value| then Ok(Named(partNames.value[i]))
    else Err(NoSuchElement)
  }

  /** The instruction of part `i` as the setting is documented: parts with a
      name are named, the others, like every part without the setting, only
      get text length on. */
  function Instruction(partNames: Option<seq<string>>, i: nat): string {
    if partNames.Some? && i < |partNames.value| then Named(partNames.value[i]) else TextLengthOn
  }

  /** Where `part_names` covers the part, or is not given, the two agree;
      with fewer names than parts the code raises where the documentation
      leaves the part unnamed. */
  lemma InstructionAgrees(partNames: Option<seq<string>>, i: nat)
    ensures partNames.None? || i < |partNames.value| ==> InstructionAsWritten(partNames, i) == Ok(Instruction(partNames, i))
    ensures partNames.Some? && i >= |partNames.value| ==>
              InstructionAsWritten(partNames, i) == Err(NoSuchElement) && Instruction(partNames, i) == TextLengthOn
  {
  }

  /** Two annotation parts and a single name: part 1 raises IndexError as
      written, while the documented behaviour leaves it unnamed. */
  lemma FewerNamesAsWrittenFails()
    ensures InstructionAsWritten(Some(["I"]), 1).Err?
    ensures InstructionAsWritten(Some(["I"]), 1).error.Class() == IndexError
    ensures Instruction(Some(["I"]), 1) == TextLengthOn
    ensures Instruction(Some(["I"]), 0) == Named("I")
  {
  }

  /** A text that repeats a value between fixed pieces gives the value
      back. */
  lemma RepeatedValueDetermined(x1: string, x2: string, x3: string, x4: string, x5: string, a: string, b: string)
    requires x1 + x2 + a + x3 + x4 + a + x5 == x1 + x2 + b + x3 + x4 + b + x5
    ensures a == b
  {
    var ta := x1 + x2 + a + x3 + x4 + a + x5;
    var tb := x1 + x2 + b + x3 + x4 + b + x5;
    assert |ta| == |x1| + |x2| + |x3| + |x4| + |x5| + 2 * |a|;
    assert |tb| == |x1| + |x2| + |x3| + |x4| + |x5| + 2 * |b|;
    var k := |x1| + |x2|;
    assert ta[k..k + |a|] == a;
    assert tb[k..k + |b|] == b;
  }

  /** A text built from pieces starts with its first piece. */
  lemma FirstPieceKept(x1: string, x2: string, x3: string, x4: string, x5: string, x6: string, x7: string)
    ensures (x1 + x2 + x3 + x4 + x5 + x6 + x7)[..|x1|] == x1
  {
    var t := x1 + x2 + x3 + x4 + x5 + x6 + x7;
    assert forall k :: 0 <= k < |x1| ==> t[k] == x1[k];
  }

  /** A named instruction starts with text length on and names exactly one
      part: different names give different instructions. */
  lemma NamedIdentifiesPart(a: string, b: string)
    ensures Named(a)[..|TextLengthOn|] == TextLengthOn
    ensures Named(a) == Named(b) ==> a == b
  {
    FirstPieceKept(TextLengthOn, InstrumentName, a, CloseName, ShortInstrumentName, a, CloseName);
    if Named(a) == Named(b) {
      RepeatedValueDetermined(TextLengthOn, InstrumentName, CloseName, ShortInstrumentName, CloseName, a, b);
    }
  }

  /** What `run` makes of series `i`: rests prepended, a new analysis-voice
      part carrying the instruction, and durations set. */
  function RunPart<E>(series: Series<Lily<E>>, partNames: Option<seq<string>>, i: nat): Result<OutPart<E>> {
    match PrependSpec(series)
    case Err(e) => Err(e)
    case Ok(filled) => SetDurationsSpec(InPart(filled, Some(true), Some(Instruction(partNames, i))))
  }

  /** The first `k` of a sequence of results gathered: their values in
      order, or the first error. */
  function Collect<T>(rs: seq<Result<T>>, k: nat): Result<seq<T>>
    requires k <= |rs|
  {
    if k == 0 then Ok([])
    else
      match Collect(rs, k - 1)
      case Err(e) => Err(e)
      case Ok(done) =>
        match rs[k - 1]
        case Err(e) => Err(e)
        case Ok(v) => Ok(done + [v])
  }

  lemma {:induction false} CollectErrPersists<T>(rs: seq<Result<T>>, k: nat, n: nat)
    requires k <= n <= |rs| && Collect(rs, k).Err?
    ensures Collect(rs, n) == Collect(rs, k)
    decreases n
  {
    if n > k {
      CollectErrPersists(rs, k, n - 1);
    }
  }

  lemma {:induction false} CollectOkIff<T>(rs: seq<Result<T>>, k: nat)
    requires k <= |rs|
    ensures Collect(rs, k).Ok? <==> forall i :: 0 <= i < k ==> rs[i].Ok?
  {
    if k > 0 {
      CollectOkIff(rs, k - 1);
      if Collect(rs, k - 1).Err? {
        var j :| 0 <= j < k - 1 && rs[j].Err?;
      }
    }
  }

  lemma {:induction false} CollectValues<T>(rs: seq<Result<T>>, k: nat)
    requires k <= |rs|
    ensures Collect(rs, k).Ok? ==>
              |Collect(rs, k).value| == k && forall i :: 0 <= i < k ==> rs[i] == Ok(Collect(rs, k).value[i])
  {
    if k > 0 && Collect(rs, k).Ok? {
      CollectValues(rs, k - 1);
    }
  }

  /** What `run` makes of each series, in the order of the series. */
  function PartResults<E>(index: seq<Series<Lily<E>>>, partNames: Option<seq<string>>): seq<Result<OutPart<E>>> {
    seq(|index|, i requires 0 <= i < |index| => RunPart(index[i], partNames, i))
  }

  /** What `run` returns for the first `k` series: their parts in order, or
      the first error. */
  function RunParts<E>(index: seq<Series<Lily<E>>>, partNames: Option<seq<string>>, k: nat): Result<seq<OutPart<E>>>
    requires k <= |index|
  {
    Collect(PartResults(index, partNames), k)
  }

  /** One more series that succeeds: `run` appends its part. */
  lemma RunPartsGoesOn<E>(index: seq<Series<Lily<E>>>, partNames: Option<seq<string>>, i: nat, done: seq<OutPart<E>>)
    requires i < |index| && RunParts(index, partNames, i) == Ok(done)
    requires RunPart(index[i], partNames, i).Ok?
    ensures RunParts(index, partNames, i + 1) == Ok(done + [RunPart(index[i], partNames, i).value])
  {
    assert PartResults(index, partNames)[i] == RunPart(index[i], partNames, i);
  }

  /** One more series that fails: `run` returns its error, whatever
      follows. */
  lemma RunPartsStops<E>(index: seq<Series<Lily<E>>>, partNames: Option<seq<string>>, i: nat, done: seq<OutPart<E>>)
    requires i < |index| && RunParts(index, partNames, i) == Ok(done)
    requires RunPart(index[i], partNames, i).Err?
    ensures RunParts(index, partNames, |index|) == Err(RunPart(index[i], partNames, i).error)
  {
    var rs := PartResults(index, partNames);
    assert rs[i] == RunPart(index[i], partNames, i);
    CollectErrPersists(rs, i + 1, |index|);
  }

  /** `run` succeeds exactly when every series does, and then returns one
      part per series, in order, part `i` made from series `i`. */
  lemma RunPartsInOrder<E>(index: seq<Series<Lily<E>>>, partNames: Option<seq<string>>, k: nat)
    requires k <= |index|
    ensures RunParts(index, partNames, k).Ok? <==> forall i :: 0 <= i < k ==> RunPart(index[i], partNames, i).Ok?
    ensures RunParts(index, partNames, k).Ok? ==>
              |RunParts(index, partNames, k).value| == k &&
              forall i :: 0 <= i < k ==> RunPart(index[i], partNames, i) == Ok(RunParts(index, partNames, k).value[i])
  {
    var rs := PartResults(index, partNames);
    CollectOkIff(rs, k);
    CollectValues(rs, k);
    assert forall i :: 0 <= i < k ==> rs[i] == RunPart(index[i], partNames, i);
  }

  /** Every part `run` makes is an analysis voice whose instruction names
      the part when a name is given for it and is plain text length on
      otherwise. */
  lemma RunPartLabels<E>(series: Series<Lily<E>>, partNames: Option<seq<string>>, i: nat)
    requires RunPart(series, partNames, i).Ok?
    ensures RunPart(series, partNames, i).value.analysisVoice == Some(true)
    ensures RunPart(series, partNames, i).value.instruction ==
              Some(if partNames.Some? && i < |partNames.value| then Named(partNames.value[i]) else TextLengthOn)
    ensures partNames.None? ==> RunPart(series, partNames, i).value.instruction == Some("\t\\textLengthOn\n")
  {
    var filled := PrependSpec(series).value;
    SetDurationsShape(InPart(filled, Some(true), Some(Instruction(partNames, i))));
  }

  /** From a series in offset order, the part `run` makes covers the time
      from 0.0 to one beat past the last annotation without gap or
      overlap. */
  lemma RunPartTiles<E>(series: Series<Lily<E>>, partNames: Option<seq<string>>, i: nat)
    requires RunPart(series, partNames, i).Ok? && SortedByOffset(series)
    ensures series != []
    ensures Tiles(RunPart(series, partNames, i).value.elements, 0.0, series[|series| - 1].offset + 1.0)
  {
    var filled := PrependSpec(series).value;
    SetDurationsShape(InPart(filled, Some(true), Some(Instruction(partNames, i))));
    if series[0].offset != 0.0 {
      PrependOnSorted(series);
      var lead := LeadingRests<E>(FillSpace(0.0, series[0].offset).value);
      assert filled == lead + series;
      assert filled[|filled| - 1] == series[|series| - 1];
    }
  }

  class PartNotesExperimenter<E> {
    /** The annotation series, one per part to make. */
    const index: seq<Series<Lily<E>>>
    const partNames: Option<seq<string>>

    /** Keeps `part_names` only when the settings give it. */
    constructor (score: seq<Series<Lily<E>>>, settings: Option<map<string, seq<string>>>)
      ensures index == score
      ensures partNames == PartNamesSetting(settings)
    {
      index := score;
      partNames := PartNamesSetting(settings);
    }

    /** The body of `run`'s loop for series `i`: prepend rests, make the
        analysis-voice part with its instruction, set durations. */
    method MakePart(series: Series<Lily<E>>, i: nat) returns (r: Result<OutPart<E>>)
      ensures r == RunPart(series, partNames, i)
    {
      var eachSeries := PrependRests(series);
      if eachSeries.Err? {
        return Err(eachSeries.error);
      }
      var newPart := InPart(eachSeries.value, Some(true), Some(Instruction(partNames, i)));
      r := SetDurations(newPart);
    }

    /** `PartNotesExperimenter.run`. */
    method Run() returns (r: Result<seq<OutPart<E>>>)
      ensures r == RunParts(index, partNames, |index|)
    {
      var post: seq<OutPart<E>> := [];
      var i := 0;
      while i < |index|
        invariant 0 <= i <= |index|
        invariant RunParts(index, partNames, i) == Ok(post)
      {
        var part := MakePart(index[i], i);
        if part.Err? {
          RunPartsStops(index, partNames, i, post);
          return Err(part.error);
        }
        RunPartsGoesOn(index, partNames, i, post);
        post := post + [part.value];
        i := i + 1;
      }
      r := Ok(post);
    }
  }
}

/** The offset quantiser (`FilterByOffsetIndexer.run`): every part is
    resampled onto the regular grid 0, q, 2q, ... by forward fill, on its
    own original offsets, and the parts are put side by side in one table. */
module FilterByOffset {
  import opened Common

  /** The smallest integer not below `x`. */
  function Ceil(x: real): (n: int)
    ensures (n - 1) as real < x <= n as real
  {
    if x.Floor as real == x then x.Floor else x.Floor + 1
  }

  /** A part the quantiser accepts: offsets strictly increasing (a pandas
      index without duplicates) and none before the start of the piece. */
  predicate ValidPart<T>(part: Series<T>) {
    StrictlyIncreasing(OffsetsOf(part)) && forall k :: 0 <= k < |part| ==> part[k].offset >= 0.0
  }

  function LastOffset<T>(part: Series<T>): real
    requires part != []
  {
    part[|part| - 1].offset
  }

  /** The number of grid points a part is resampled onto: 0, q, ...,
      ceil(last / q) * q, and none for an empty part. */
  function GridLength<T>(part: Series<T>, q: real): nat
    requires q > 0.0
  {
    if part == [] then 0
    else
      var n := Ceil(LastOffset(part) / q);
      if n < 0 then 0 else n + 1
  }

  /** Grid point `k`: `k` steps of `q`. */
  function GridPoint(k: nat, q: real): real {
    k as real * q
  }

  /** The grid points 0, q, 2q, ... (n of them). */
  function Grid(n: nat, q: real): (grid: seq<real>)
    ensures |grid| == n && forall k :: 0 <= k < n ==> grid[k] == GridPoint(k, q)
  {
    seq(n, k requires 0 <= k => GridPoint(k, q))
  }

  /** One part resampled: grid point `k` holds the part's forward-filled
      value at `k * q`. */
  function Resample<T>(part: Series<T>, q: real): (col: seq<Option<T>>)
    requires q > 0.0
    ensures |col| == GridLength(part, q)
  {
    seq(GridLength(part, q), k requires 0 <= k => FFill(part, GridPoint(k, q)))
  }

  function MaxGridLength<T>(parts: seq<Series<T>>, q: real): (m: nat)
    requires q > 0.0
    ensures forall c :: 0 <= c < |parts| ==> GridLength(parts[c], q) <= m
    ensures parts == [] ==> m == 0
    ensures parts != [] ==> exists c :: 0 <= c < |parts| && GridLength(parts[c], q) == m
  {
    if parts == [] then 0
    else
      var front := parts[..|parts| - 1];
      assert forall c :: 0 <= c < |front| ==> front[c] == parts[c];
      var m := MaxGridLength(front, q);
      var l := GridLength(parts[|parts| - 1], q);
      if l > m then l else m
  }

  /** A resampled column padded with missing values up to `n` rows. */
  function Pad<T>(col: seq<Option<T>>, n: nat): (padded: seq<Option<T>>)
    requires |col| <= n
    ensures |padded| == n
    ensures forall k :: 0 <= k < n ==> padded[k] == if k < |col| then col[k] else None
  {
    col + seq(n - |col|, _ => None)
  }

  /** The quantiser's result: columns labelled 0, 1, ... in input order. */
  datatype Quantized<T> = Quantized(labels: seq<nat>, table: Table<T>)

  /** `FilterByOffsetIndexer(parts, {'quarterLength': q}).run()`. */
  function Quantize<T>(parts: seq<Series<T>>, q: real): (r: Quantized<T>)
    requires q > 0.0
    ensures |r.labels| == |r.table.columns| == |parts| && r.table.WellFormed()
    ensures forall c :: 0 <= c < |parts| ==> r.labels[c] == c
    ensures r.table.index == Grid(MaxGridLength(parts, q), q)
  {
    var n := MaxGridLength(parts, q);
    Quantized(seq(|parts|, c requires 0 <= c => c),
              Table(Grid(n, q),
                    seq(|parts|, c requires 0 <= c < |parts| => Pad(Resample(parts[c], q), n))))
  }

  /** Column `c` holds part `c`'s resampled values and, past the end of that
      part's own grid, missing values: parts are resampled independently. */
  lemma QuantizeColumn<T>(parts: seq<Series<T>>, q: real, c: nat, k: nat)
    requires q > 0.0
    requires c < |parts| && k < MaxGridLength(parts, q)
    ensures Quantize(parts, q).table.columns[c][k] ==
              if k < GridLength(parts[c], q) then FFill(parts[c], GridPoint(k, q)) else None
  {
    var n := MaxGridLength(parts, q);
    var col := Resample(parts[c], q);
    assert Quantize(parts, q).table.columns[c] == Pad(col, n);
    if k < |col| {
      assert Pad(col, n)[k] == col[k] == FFill(parts[c], GridPoint(k, q));
    } else {
      assert Pad(col, n)[k] == None;
    }
  }

  /** Column `c` depends on part `c` only: two inputs that agree on that part
      agree on the column over the rows both tables have. */
  lemma PartsIndependent<T>(parts: seq<Series<T>>, parts': seq<Series<T>>, q: real, c: nat, k: nat)
    requires q > 0.0
    requires c < |parts| && c < |parts'| && parts[c] == parts'[c]
    requires k < MaxGridLength(parts, q) && k < MaxGridLength(parts', q)
    ensures Quantize(parts, q).table.columns[c][k] == Quantize(parts', q).table.columns[c][k]
  {
    QuantizeColumn(parts, q, c, k);
    QuantizeColumn(parts', q, c, k);
  }

  /** Zero parts give zero columns and zero rows. */
  lemma NoParts<T>(q: real)
    requires q > 0.0
    ensures var none: seq<Series<T>> := [];
            |Quantize(none, q).table.columns| == 0 && |Quantize(none, q).table.index| == 0
  {
  }

  /** Parts without events give one column each and zero rows. */
  lemma {:induction false} EmptyParts<T>(parts: seq<Series<T>>, q: real)
    requires q > 0.0 && forall c :: 0 <= c < |parts| ==> parts[c] == []
    ensures |Quantize(parts, q).table.columns| == |parts| && |Quantize(parts, q).table.index| == 0
  {
    if parts != [] {
      var c :| 0 <= c < |parts| && GridLength(parts[c], q) == MaxGridLength(parts, q);
    }
  }

  /** The grid ends at the first grid point at or after the last offset: it
      covers the last event, and the point before it (if any) lies before
      the last event. */
  lemma GridEnd<T>(part: Series<T>, q: real)
    requires q > 0.0 && ValidPart(part) && part != []
    ensures GridLength(part, q) >= 1
    ensures LastOffset(part) <= GridPoint(GridLength(part, q) - 1, q)
    ensures GridLength(part, q) >= 2 ==> GridPoint(GridLength(part, q) - 2, q) < LastOffset(part)
  {
    var x := LastOffset(part);
    var n := Ceil(x / q);
    assert OffsetsOf(part)[|part| - 1] >= 0.0;
    QuotientNonNegative(x, q);
    AboveQuotient(x, n as real, q);
    if n >= 1 {
      BelowQuotient((n - 1) as real, x, q);
    }
  }

  lemma QuotientNonNegative(x: real, q: real)
    requires q > 0.0 && x >= 0.0
    ensures x / q >= 0.0
  {
  }

  /** A multiple of `q` at or above `x / q` steps reaches `x`. */
  lemma AboveQuotient(x: real, a: real, q: real)
    requires q > 0.0 && x / q <= a
    ensures x <= a * q
  {
    assert x == x / q * q;
    assert x / q * q <= a * q;
  }

  /** A multiple of `q` below `x / q` steps stays below `x`. */
  lemma BelowQuotient(a: real, x: real, q: real)
    requires q > 0.0 && a < x / q
    ensures a * q < x
  {
    assert x == x / q * q;
    assert a * q < x / q * q;
  }

  /** The last event is never dropped: the last grid point holds it. */
  lemma LastEventKept<T>(part: Series<T>, q: real)
    requires q > 0.0 && ValidPart(part) && part != []
    ensures Resample(part, q)[GridLength(part, q) - 1] == Some(part[|part| - 1].value)
  {
    GridEnd(part, q);
    GridHoldsEvent(part, q, GridLength(part, q) - 1, |part| - 1);
  }

  /** Forward fill on the grid: grid point `k` holds event `i` exactly when
      `k * q` lies between event `i`'s offset and the next event's offset, so
      no event is visible before its offset, nor after its successor's. */
  lemma GridHoldsEvent<T>(part: Series<T>, q: real, k: nat, i: nat)
    requires q > 0.0 && ValidPart(part)
    requires k < GridLength(part, q) && i < |part|
    requires part[i].offset <= GridPoint(k, q)
    requires i + 1 < |part| ==> GridPoint(k, q) < part[i + 1].offset
    ensures Resample(part, q)[k] == Some(part[i].value)
  {
    var o := GridPoint(k, q);
    forall j | i < j < |part|
      ensures part[j].offset > o
    {
      assert OffsetsOf(part)[i + 1] <= OffsetsOf(part)[j];
    }
    var r := FFill(part, o);
    assert r.Some?;
    var m :| 0 <= m < |part| && part[m].offset <= o && part[m].value == r.value
             && forall k' :: m < k' < |part| ==> part[k'].offset > o;
    assert part[i].offset <= o;
    assert m == i;
  }

  /** No look-ahead: the value at a grid point before event `i`'s offset is
      what the events before `i` alone give. */
  lemma NoAnticipation<T>(part: Series<T>, q: real, k: nat, i: nat)
    requires q > 0.0 && ValidPart(part)
    requires k < GridLength(part, q) && i <= |part|
    requires i < |part| ==> GridPoint(k, q) < part[i].offset
    ensures Resample(part, q)[k] == FFill(part[..i], GridPoint(k, q))
  {
    var o := GridPoint(k, q);
    forall j | 0 <= j < |part[i..]|
      ensures part[i..][j].offset > o
    {
      assert OffsetsOf(part)[i] <= OffsetsOf(part)[i + j];
    }
    FFillIgnoresLater(part[..i], part[i..], o);
    assert part[..i] + part[i..] == part;
  }

  /** A part already on the grid (event `k` at `k * q`) comes back
      unchanged. */
  lemma OnGridUnchanged<T>(part: Series<T>, q: real)
    requires q > 0.0 && ValidPart(part)
    requires forall k :: 0 <= k < |part| ==> part[k].offset == GridPoint(k, q)
    ensures |Resample(part, q)| == |part|
    ensures forall k :: 0 <= k < |part| ==> Resample(part, q)[k] == Some(part[k].value)
  {
    if part != [] {
      var n := |part| - 1;
      assert LastOffset(part) / q == n as real;
      forall k | 0 <= k < |part|
        ensures Resample(part, q)[k] == Some(part[k].value)
      {
        FFillAtOwnOffset(part, k);
      }
    }
  }

  /** Many parts already on the grid come back as the table of their
      values. */
  lemma OnGridTableUnchanged<T>(parts: seq<Series<T>>, q: real, c: nat, k: nat)
    requires q > 0.0 && forall c :: 0 <= c < |parts| ==> ValidPart(parts[c])
    requires forall c, k :: 0 <= c < |parts| && 0 <= k < |parts[c]| ==> parts[c][k].offset == GridPoint(k, q)
    requires c < |parts| && k < |parts[c]|
    ensures k < |Quantize(parts, q).table.index|
    ensures Quantize(parts, q).table.index[k] == parts[c][k].offset
    ensures Quantize(parts, q).table.columns[c][k] == Some(parts[c][k].value)
  {
    OnGridUnchanged(parts[c], q);
    QuantizeColumn(parts, q, c, k);
  }

  /** A sequence of three is the display of its elements. */
  lemma ThreeElements<T>(s: seq<T>, x: T, y: T, z: T)
    requires |s| == 3 && s[0] == x && s[1] == y && s[2] == z
    ensures s == [x, y, z]
  {
  }

  /** A sequence of four is the display of its elements. */
  lemma FourElements<T>(s: seq<T>, w: T, x: T, y: T, z: T)
    requires |s| == 4 && s[0] == w && s[1] == x && s[2] == y && s[3] == z
    ensures s == [w, x, y, z]
  {
  }

  /** A sequence of five is the display of its elements. */
  lemma FiveElements<T>(s: seq<T>, v: T, w: T, x: T, y: T, z: T)
    requires |s| == 5 && s[0] == v && s[1] == w && s[2] == x && s[3] == y && s[4] == z
    ensures s == [v, w, x, y, z]
  {
  }

  /** A coarser step drops the events between grid points:
      `[a, b, c, d]` at 0, 0.5, 1, 1.5 with q = 1 gives `[a, c, d]`. */
  lemma CoarserStep<T>(a: T, b: T, c: T, d: T)
    ensures var part := [Timed(0.0, a), Timed(0.5, b), Timed(1.0, c), Timed(1.5, d)];
            ValidPart(part) && Resample(part, 1.0) == [Some(a), Some(c), Some(d)]
  {
    var part := [Timed(0.0, a), Timed(0.5, b), Timed(1.0, c), Timed(1.5, d)];
    assert GridLength(part, 1.0) == 3;
    GridHoldsEvent(part, 1.0, 0, 0);
    GridHoldsEvent(part, 1.0, 1, 2);
    GridHoldsEvent(part, 1.0, 2, 3);
    ThreeElements(Resample(part, 1.0), Some(a), Some(c), Some(d));
  }

  /** A finer step repeats values: `[a, b]` at 0, 0.5 with q = 0.125 gives
      `[a, a, a, a, b]`. */
  lemma FinerStep<T>(a: T, b: T)
    ensures var part := [Timed(0.0, a), Timed(0.5, b)];
            ValidPart(part) && Resample(part, 0.125) == [Some(a), Some(a), Some(a), Some(a), Some(b)]
  {
    var part := [Timed(0.0, a), Timed(0.5, b)];
    assert GridLength(part, 0.125) == 5;
    GridHoldsEvent(part, 0.125, 0, 0);
    GridHoldsEvent(part, 0.125, 1, 0);
    GridHoldsEvent(part, 0.125, 2, 0);
    GridHoldsEvent(part, 0.125, 3, 0);
    GridHoldsEvent(part, 0.125, 4, 1);
    FiveElements(Resample(part, 0.125), Some(a), Some(a), Some(a), Some(a), Some(b));
  }

  /** Off-grid offsets: `[a, b, c, d]` at 0, 0.4, 1.1, 2.1 with q = 1 gives
      `[a, b, c, d]` at 0, 1, 2, 3, the last grid point one step past 2.1. */
  lemma IrregularStep<T>(a: T, b: T, c: T, d: T)
    ensures var part := [Timed(0.0, a), Timed(0.4, b), Timed(1.1, c), Timed(2.1, d)];
            ValidPart(part) && Grid(GridLength(part, 1.0), 1.0) == [0.0, 1.0, 2.0, 3.0] &&
            Resample(part, 1.0) == [Some(a), Some(b), Some(c), Some(d)]
  {
    var part := [Timed(0.0, a), Timed(0.4, b), Timed(1.1, c), Timed(2.1, d)];
    assert GridLength(part, 1.0) == 4;
    var grid := Grid(4, 1.0);
    GridHoldsEvent(part, 1.0, 0, 0);
    GridHoldsEvent(part, 1.0, 1, 1);
    GridHoldsEvent(part, 1.0, 2, 2);
    GridHoldsEvent(part, 1.0, 3, 3);
    var col := Resample(part, 1.0);
    FourElements(grid, 0.0, 1.0, 2.0, 3.0);
    FourElements(col, Some(a), Some(b), Some(c), Some(d));
  }
}

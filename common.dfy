/** Values shared by every part of the model: optional values, results that
    carry the exception the source would raise, offset-stamped values and
    the forward fill that pandas' `reindex(method='ffill')` performs. */
module Common {

  datatype Option<+T> = None | Some(value: T)

  /** The Python exception classes the modelled code raises. */
  datatype ExceptionClass = RuntimeError | TypeError | AttributeError | IndexError | ValueError

  /** One constructor per distinct failure of the modelled code. */
  datatype Error =
    | ImpossibleQuarterLength(span: real)   // lilypond.py: no decomposition of the span
    | WrongScoreType(position: nat)         // indexer.py: score element of the wrong type
    | MissingData                           // indexed_piece.py: first analyzer needs data
    | NotAnAnalyzer                         // indexed_piece.py: class is no Indexer/Experimenter
    | MetaInvalidType                       // indexed_piece.py: metadata field is not a string
    | InvalidField(field: string)           // indexed_piece.py: unknown metadata field
    | NoPitches                             // noterest.py: a non-chord reaches `event.pitches`
    | NoSuchElement                         // an index past the end of a list
    | NothingToConcatenate                  // pandas.concat of an empty list
  {
    function Class(): ExceptionClass {
      match this
      case ImpossibleQuarterLength(_) => RuntimeError
      case WrongScoreType(_) => RuntimeError
      case MissingData => RuntimeError
      case NotAnAnalyzer => TypeError
      case MetaInvalidType => TypeError
      case InvalidField(_) => AttributeError
      case NoPitches => AttributeError
      case NoSuchElement => IndexError
      case NothingToConcatenate => ValueError
    }
  }

  datatype Result<+T> = Ok(value: T) | Err(error: Error)

  /** A value stamped with the offset (in quarter notes) at which it begins:
      an element of a flattened music21 stream, or one entry of a pandas
      Series whose index holds offsets. */
  datatype Timed<+T> = Timed(offset: real, value: T)

  type Series<T> = seq<Timed<T>>

  function OffsetsOf<T>(s: Series<T>): (r: seq<real>)
    ensures |r| == |s| && forall k :: 0 <= k < |s| ==> r[k] == s[k].offset
  {
    seq(|s|, k requires 0 <= k < |s| => s[k].offset)
  }

  predicate StrictlyIncreasing(s: seq<real>) {
    forall i, j :: 0 <= i < j < |s| ==> s[i] < s[j]
  }

  predicate NonDecreasing(s: seq<real>) {
    forall i, j :: 0 <= i < j < |s| ==> s[i] <= s[j]
  }

  /** A table as pandas holds it here: a row axis of offsets and one column
      per voice (or per voice slot), `None` standing for NaN. */
  datatype Table<T> = Table(index: seq<real>, columns: seq<seq<Option<T>>>) {
    predicate WellFormed() {
      forall c :: 0 <= c < |columns| ==> |columns[c]| == |index|
    }
  }

  /** The value `s` carries at offset `o` when forward-filled: the value of
      the last element whose offset is at most `o`, or missing when there is
      none (pandas `reindex(method='ffill')`). */
  function FFill<T>(s: Series<T>, o: real): (r: Option<T>)
    ensures r.None? <==> forall k :: 0 <= k < |s| ==> s[k].offset > o
    ensures r.Some? ==> exists k :: 0 <= k < |s| && s[k].offset <= o && s[k].value == r.value
                                   && forall k' :: k < k' < |s| ==> s[k'].offset > o
  {
    if s == [] then None
    else if s[|s| - 1].offset <= o then Some(s[|s| - 1].value)
    else FFill(s[..|s| - 1], o)
  }

  /** On a sorted series the forward-filled value is that of the greatest
      offset not after `o`: no element between it and `o` is skipped. */
  lemma FFillGreatest<T>(s: Series<T>, o: real, k: nat)
    requires NonDecreasing(OffsetsOf(s))
    requires k < |s| && s[k].offset <= o
    ensures FFill(s, o).Some?
    ensures exists m :: k <= m < |s| && s[m].offset <= o && FFill(s, o).value == s[m].value
  {
    var r := FFill(s, o);
    var m :| 0 <= m < |s| && s[m].offset <= o && s[m].value == r.value
             && forall k' :: m < k' < |s| ==> s[k'].offset > o;
    assert k <= m;
  }

  /** At one of a strictly increasing series' own offsets the forward fill
      is exactly that element's value. */
  lemma FFillAtOwnOffset<T>(s: Series<T>, k: nat)
    requires StrictlyIncreasing(OffsetsOf(s))
    requires k < |s|
    ensures FFill(s, s[k].offset) == Some(s[k].value)
  {
    var r := FFill(s, s[k].offset);
    var m :| 0 <= m < |s| && s[m].offset <= s[k].offset && s[m].value == r.value
             && forall k' :: m < k' < |s| ==> s[k'].offset > s[k].offset;
    assert k <= m;
    assert m <= k;
  }

  /** Forward fill never looks ahead: elements that begin after `o` do not
      change the value at `o`. */
  lemma {:induction false} FFillIgnoresLater<T>(p: Series<T>, q: Series<T>, o: real)
    requires forall k :: 0 <= k < |q| ==> q[k].offset > o
    ensures FFill(p + q, o) == FFill(p, o)
  {
    if q != [] {
      var q' := q[..|q| - 1];
      assert (p + q)[..|p + q| - 1] == p + q';
      FFillIgnoresLater(p, q', o);
    } else {
      assert p + q == p;
    }
  }
}

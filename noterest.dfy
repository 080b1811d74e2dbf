/** The note/rest indexer of vis/analyzers/indexers/noterest.py: every
    note, rest and chord of the score becomes its name (or its pitch names),
    and chords are spread over as many columns as their widest one needs. */
module NoteRest {
  import opened Common
  import opened Strings

  /** A music21 object in a cell of the score DataFrame. */
  datatype Event =
    | Note(nameWithOctave: string)
    | Rest
    | Chord(pitches: seq<string>)          // the nameWithOctave of every pitch, in order
    | Other(className: string)             // an object that is none of the three

  /** What `indexer_func` makes of an object: a one-tuple for a note or a
      rest, a list of pitch names for a chord. */
  datatype Symbol = Single(name: string) | PitchList(names: seq<string>) {
    /** The strings the symbol holds, in order. */
    function Items(): seq<string> {
      match this
      case Single(n) => [n]
      case PitchList(ns) => ns
    }
  }

  const RestName: string := "Rest"

  /** `indexer_func` on one cell. A missing cell (NaN, a float) is returned
      unchanged; anything that is neither a note nor a rest is taken for a
      chord, and an object without `pitches` raises AttributeError. */
  function IndexerFunc(cell: Option<Event>): (r: Result<Option<Symbol>>)
    ensures r.Err? <==> cell.Some? && cell.value.Other?
    ensures r.Err? ==> r.error.Class() == AttributeError
    ensures r.Ok? ==> (r.value.None? <==> cell.None?)
    ensures r.Ok? && cell.Some? && cell.value.Note? ==>
              r.value.value.Items() == [cell.value.nameWithOctave] && r.value.value.Single?
    ensures r.Ok? && cell.Some? && cell.value.Rest? ==> r.value.value == Single(RestName)
    ensures r.Ok? && cell.Some? && cell.value.Chord? ==>
              r.value.value.Items() == cell.value.pitches && r.value.value.PitchList?
  {
    match cell
    case None => Ok(None)
    case Some(Note(n)) => Ok(Some(Single(n)))
    case Some(Rest) => Ok(Some(Single(RestName)))
    case Some(Chord(ps)) => Ok(Some(PitchList(ps)))
    case Some(Other(_)) => Err(NoPitches)
  }

  predicate HasOther(col: seq<Option<Event>>) {
    exists r :: 0 <= r < |col| && col[r].Some? && col[r].value.Other?
  }

  /** `applymap(indexer_func)` on one column. */
  function IndexColumn(col: seq<Option<Event>>): (r: Result<seq<Option<Symbol>>>)
    ensures r.Err? <==> HasOther(col)
    ensures r.Err? ==> r.error == NoPitches
    ensures r.Ok? ==> (|r.value| == |col| &&
                       forall k :: 0 <= k < |col| ==> IndexerFunc(col[k]) == Ok(r.value[k]))
  {
    if col == [] then Ok([])
    else
      var front := col[..|col| - 1];
      assert forall k :: 0 <= k < |front| ==> front[k] == col[k];
      match IndexColumn(front)
      case Err(e) => Err(e)
      case Ok(done) =>
        match IndexerFunc(col[|col| - 1])
        case Err(e) => Err(e)
        case Ok(last) => Ok(done + [last])
  }

  /** `applymap(indexer_func)` on the whole score: the first column that
      holds an object without pitches makes the call fail. */
  function IndexColumns(cols: seq<seq<Option<Event>>>): (r: Result<seq<seq<Option<Symbol>>>>)
    ensures r.Err? <==> exists c :: 0 <= c < |cols| && HasOther(cols[c])
    ensures r.Err? ==> r.error == NoPitches
    ensures r.Ok? ==> (|r.value| == |cols| &&
                       forall c :: 0 <= c < |cols| ==> IndexColumn(cols[c]) == Ok(r.value[c]))
    ensures r.Ok? ==> forall c :: 0 <= c < |cols| ==> |r.value[c]| == |cols[c]|
  {
    if cols == [] then Ok([])
    else
      var front := cols[..|cols| - 1];
      assert forall c :: 0 <= c < |front| ==> front[c] == cols[c];
      match IndexColumns(front)
      case Err(e) => Err(e)
      case Ok(done) =>
        match IndexColumn(cols[|cols| - 1])
        case Err(e) => Err(e)
        case Ok(last) => Ok(done + [last])
  }

  // ---------------------------------------------------------------------------
  // _unpack_chords
  // ---------------------------------------------------------------------------

  /** How many columns a cell asks for: one per item, and one for a missing
      cell. `DataFrame(list)` is modelled as widening every column this way;
      pandas widens a column only when its first cell is a tuple or a list,
      and a column of lists holding a missing cell makes it fail. */
  function CellWidth(cell: Option<Symbol>): nat {
    if cell.None? then 1 else |cell.value.Items()|
  }

  /** The number of columns a part is spread over. */
  function Width(col: seq<Option<Symbol>>): nat {
    if col == [] then 0
    else
      var w := Width(col[..|col| - 1]);
      var c := CellWidth(col[|col| - 1]);
      if c > w then c else w
  }

  /** The width of a part is that of its widest cell (and 0 for a part
      without rows). */
  lemma {:induction false} WidthIsMax(col: seq<Option<Symbol>>)
    ensures forall r :: 0 <= r < |col| ==> CellWidth(col[r]) <= Width(col)
    ensures col != [] ==> exists r :: 0 <= r < |col| && CellWidth(col[r]) == Width(col)
    ensures col == [] ==> Width(col) == 0
  {
    if col != [] {
      var front := col[..|col| - 1];
      WidthIsMax(front);
      assert forall r :: 0 <= r < |front| ==> front[r] == col[r];
      if front != [] && Width(front) >= CellWidth(col[|col| - 1]) {
        var r :| 0 <= r < |front| && CellWidth(front[r]) == Width(front);
        assert CellWidth(col[r]) == Width(col);
      } else {
        assert CellWidth(col[|col| - 1]) == Width(col);
      }
    }
  }

  /** Item `s` of a cell, or missing where the cell has fewer items. */
  function ItemAt(cell: Option<Symbol>, s: nat): Option<string> {
    if cell.Some? && s < |cell.value.Items()| then Some(cell.value.Items()[s]) else None
  }

  /** Sub-column `s` of a part: item `s` of every cell, in row order. */
  function SubColumn(col: seq<Option<Symbol>>, s: nat): (sub: seq<Option<string>>)
    ensures |sub| == |col|
    ensures forall r :: 0 <= r < |col| ==> sub[r] == ItemAt(col[r], s)
  {
    if col == [] then [] else SubColumn(col[..|col| - 1], s) + [ItemAt(col[|col| - 1], s)]
  }

  /** The first `n` sub-columns of a part. */
  function SubColumns(col: seq<Option<Symbol>>, n: nat): (subs: seq<seq<Option<string>>>)
    ensures |subs| == n
    ensures forall s :: 0 <= s < n ==> subs[s] == SubColumn(col, s)
  {
    if n == 0 then [] else SubColumns(col, n - 1) + [SubColumn(col, n - 1)]
  }

  /** `pandas.DataFrame(column.tolist())`: one sub-column per item slot of
      the widest cell. */
  function UnpackColumn(col: seq<Option<Symbol>>): (subs: seq<seq<Option<string>>>)
    ensures |subs| == Width(col)
  {
    SubColumns(col, Width(col))
  }

  /** `_unpack_chords`: the sub-columns of every part, part after part. */
  function Unpack(cols: seq<seq<Option<Symbol>>>): (out: seq<seq<Option<string>>>)
  {
    if cols == [] then [] else Unpack(cols[..|cols| - 1]) + UnpackColumn(cols[|cols| - 1])
  }

  /** The position of part `c`'s first sub-column: the widths of the parts
      before it, added up. */
  function Start(cols: seq<seq<Option<Symbol>>>, c: nat): nat
    requires c <= |cols|
  {
    if c == 0 then 0 else Start(cols, c - 1) + Width(cols[c - 1])
  }

  lemma StartStep(cols: seq<seq<Option<Symbol>>>, c: nat)
    requires c < |cols|
    ensures Start(cols, c + 1) == Start(cols, c) + Width(cols[c])
  {
  }

  /** The starts of the parts do not depend on the parts after them. */
  lemma {:induction false} StartFront(cols: seq<seq<Option<Symbol>>>, c: nat)
    requires c < |cols|
    ensures Start(cols[..|cols| - 1], c) == Start(cols, c)
  {
    if c > 0 {
      StartFront(cols, c - 1);
    }
  }

  /** The unpacked table has as many columns as the widths add up to. */
  lemma {:induction false} UnpackLength(cols: seq<seq<Option<Symbol>>>)
    ensures |Unpack(cols)| == Start(cols, |cols|)
  {
    if cols != [] {
      UnpackLength(cols[..|cols| - 1]);
      StartFront(cols, |cols| - 1);
    }
  }

  /** Sub-column `s` of part `c` sits at `Start(c) + s`, after those of the
      earlier parts and before those of the later ones. */
  lemma {:induction false} UnpackAt(cols: seq<seq<Option<Symbol>>>, c: nat, s: nat)
    requires c < |cols| && s < Width(cols[c])
    ensures Start(cols, c) + s < Start(cols, c + 1) <= |Unpack(cols)|
    ensures Unpack(cols)[Start(cols, c) + s] == SubColumn(cols[c], s)
  {
    var front := cols[..|cols| - 1];
    UnpackLength(front);
    UnpackLength(cols);
    if c < |cols| - 1 {
      UnpackAt(front, c, s);
      StartFront(cols, c);
      StartFront(cols, c + 1);
    } else {
      StartFront(cols, c);
    }
  }

  /** Reading a part's sub-columns back along a row gives the cell's items. */
  function Regroup(part: seq<seq<Option<string>>>, r: nat): seq<string>
    requires forall s :: 0 <= s < |part| ==> r < |part[s]|
  {
    if part == [] then []
    else
      var front := part[..|part| - 1];
      assert forall s :: 0 <= s < |front| ==> front[s] == part[s];
      var v := part[|part| - 1][r];
      if v.Some? then Regroup(front, r) + [v.value] else Regroup(front, r)
  }

  /** The strings a cell holds; a missing cell holds none. */
  function CellItems(cell: Option<Symbol>): seq<string> {
    if cell.None? then [] else cell.value.Items()
  }

  function Min(a: nat, b: nat): nat {
    if a <= b then a else b
  }

  /** Reading columns along row `r`, where column `s` holds item `s` of
      `items` and missing past its end, gives the items the columns reach. */
  lemma {:induction false} RegroupPrefix(part: seq<seq<Option<string>>>, r: nat, items: seq<string>)
    requires forall s :: 0 <= s < |part| ==> r < |part[s]|
    requires forall s :: 0 <= s < |part| ==>
               part[s][r] == if s < |items| then Some(items[s]) else None
    ensures Regroup(part, r) == items[..Min(|part|, |items|)]
  {
    if part != [] {
      var n := |part|;
      var front := part[..n - 1];
      assert forall s :: 0 <= s < |front| ==> front[s] == part[s];
      RegroupPrefix(front, r, items);
      if n - 1 < |items| {
        assert items[..n] == items[..n - 1] + [items[n - 1]];
      }
    }
  }

  /** The sub-columns part `c` is spread over in the unpacked table. */
  function PartColumns(cols: seq<seq<Option<Symbol>>>, c: nat): (part: seq<seq<Option<string>>>)
    requires c < |cols|
    ensures |part| == Width(cols[c])
  {
    UnpackLength(cols);
    StartStep(cols, c);
    StartBelow(cols, c + 1);
    Unpack(cols)[Start(cols, c)..Start(cols, c) + Width(cols[c])]
  }

  /** Part `c`'s sub-columns hold, row by row, the items of its cells in
      order and missing values past each cell's size. */
  lemma PartColumnsHold(cols: seq<seq<Option<Symbol>>>, c: nat)
    requires c < |cols|
    ensures |PartColumns(cols, c)| == Width(cols[c])
    ensures forall s, r :: 0 <= s < Width(cols[c]) && 0 <= r < |cols[c]| ==>
              r < |PartColumns(cols, c)[s]| && PartColumns(cols, c)[s][r] == ItemAt(cols[c][r], s)
  {
    var part := PartColumns(cols, c);
    forall s | 0 <= s < Width(cols[c])
      ensures part[s] == SubColumn(cols[c], s)
    {
      UnpackAt(cols, c, s);
      assert part[s] == Unpack(cols)[Start(cols, c) + s];
    }
  }

  /** The round trip of chord unpacking: reading part `c`'s sub-columns
      along row `r` gives back the items of the cell, in order. */
  lemma UnpackRoundTrip(cols: seq<seq<Option<Symbol>>>, c: nat, r: nat)
    requires c < |cols| && r < |cols[c]|
    ensures forall s :: 0 <= s < |PartColumns(cols, c)| ==> r < |PartColumns(cols, c)[s]|
    ensures Regroup(PartColumns(cols, c), r) == CellItems(cols[c][r])
  {
    var part := PartColumns(cols, c);
    var items := CellItems(cols[c][r]);
    PartColumnsHold(cols, c);
    RegroupPrefix(part, r, items);
    WidthIsMax(cols[c]);
    assert CellWidth(cols[c][r]) <= |part|;
    assert items[..|items|] == items;
  }

  /** A part's start lies within the unpacked table. */
  lemma {:induction false} StartBelow(cols: seq<seq<Option<Symbol>>>, c: nat)
    requires c <= |cols|
    ensures Start(cols, c) <= Start(cols, |cols|)
    decreases |cols| - c
  {
    if c < |cols| {
      StartBelow(cols, c + 1);
    }
  }

  /** With every part at least one column wide, part `c` starts at or after
      column `c`, and exactly at `c` when every part is one column wide. */
  lemma {:induction false} StartCountsParts(cols: seq<seq<Option<Symbol>>>, c: nat)
    requires c <= |cols|
    requires forall c' :: 0 <= c' < |cols| ==> Width(cols[c']) >= 1
    ensures Start(cols, c) >= c
    ensures (forall c' :: 0 <= c' < |cols| ==> Width(cols[c']) == 1) ==> Start(cols, c) == c
  {
    if c > 0 {
      StartCountsParts(cols, c - 1);
    }
  }

  /** Every cell of a part fits its width, and a part with a row is at least
      as wide as that row's cell. */
  lemma PartWidths(cols: seq<seq<Option<Symbol>>>, w: nat)
    requires forall c :: 0 <= c < |cols| ==> |cols[c]| >= 1
    requires forall c, r :: 0 <= c < |cols| && 0 <= r < |cols[c]| ==> CellWidth(cols[c][r]) >= w
    ensures forall c :: 0 <= c < |cols| ==> Width(cols[c]) >= w
  {
    forall c | 0 <= c < |cols|
      ensures Width(cols[c]) >= w
    {
      WidthIsMax(cols[c]);
      assert CellWidth(cols[c][0]) >= w;
    }
  }

  /** Without chords every part keeps exactly one column. */
  lemma NoChordsKeepsColumns(cols: seq<seq<Option<Symbol>>>)
    requires forall c :: 0 <= c < |cols| ==> |cols[c]| >= 1
    requires forall c, r :: 0 <= c < |cols| && 0 <= r < |cols[c]| ==> CellWidth(cols[c][r]) == 1
    ensures |Unpack(cols)| == |cols|
  {
    PartWidths(cols, 1);
    forall c | 0 <= c < |cols|
      ensures Width(cols[c]) == 1
    {
      WidthIsMax(cols[c]);
    }
    StartCountsParts(cols, |cols|);
    UnpackLength(cols);
  }

  /** Unpacking never loses a part: there are at least as many columns as
      parts, provided every part has a row and no cell is an empty chord. */
  lemma UnpackWidens(cols: seq<seq<Option<Symbol>>>)
    requires forall c :: 0 <= c < |cols| ==> |cols[c]| >= 1
    requires forall c, r :: 0 <= c < |cols| && 0 <= r < |cols[c]| ==> CellWidth(cols[c][r]) >= 1
    ensures |Unpack(cols)| >= |cols|
  {
    PartWidths(cols, 1);
    StartCountsParts(cols, |cols|);
    UnpackLength(cols);
  }

  // ---------------------------------------------------------------------------
  // NoteRestIndexer
  // ---------------------------------------------------------------------------

  /** The indexer's name and the axis names of the result's MultiIndex. */
  const IndexerName: string := "NoteRestIndexer"
  const AxisNames: (string, string) := ("Indexer", "Parts")

  /** The DataFrame `run` returns: the score's row axis, two-level column
      labels, and the unpacked columns. */
  datatype Labelled = Labelled(index: seq<real>, names: (string, string),
                               labels: seq<(string, string)>, columns: seq<seq<Option<string>>>)

  /** `MultiIndex.from_product((('NoteRestIndexer',), [str(x) for x in range(n)]))`. */
  function Labels(n: nat): (labels: seq<(string, string)>)
    ensures |labels| == n
  {
    seq(n, k requires 0 <= k => (IndexerName, NatToString(k)))
  }

  /** The labels name their columns without ambiguity: label `k` reads back
      as `k`, so no two columns share a label. */
  lemma LabelsIdentify(n: nat, k: nat, k': nat)
    requires k < n && k' < n
    ensures Labels(n)[k].0 == IndexerName
    ensures ParseNat(Labels(n)[k].1) == k
    ensures Labels(n)[k] == Labels(n)[k'] ==> k == k'
  {
    ParseNatToString(k);
    if Labels(n)[k] == Labels(n)[k'] {
      NatToStringInjective(k, k');
    }
  }

  /** The row axis pandas gives the unpacked table: every part is rebuilt
      from a plain list, so the offsets give way to row positions 0, 1, ... */
  function RowPositions(n: nat): (index: seq<real>)
    ensures |index| == n && forall k :: 0 <= k < n ==> index[k] == k as real
  {
    seq(n, k requires 0 <= k => k as real)
  }

  /** What `run` computes from a score: `applymap` fails on the first object
      without pitches, `pandas.concat` fails on a score without parts, and
      otherwise every column of the unpacked table is labelled with its
      position. */
  function NoteRestIndex(score: Table<Event>): (r: Result<Labelled>)
    ensures r.Err? <==> |score.columns| == 0 || exists c :: 0 <= c < |score.columns| && HasOther(score.columns[c])
    ensures r.Err? && |score.columns| == 0 ==> r.error.Class() == ValueError
    ensures r.Err? && |score.columns| > 0 ==> r.error.Class() == AttributeError
    ensures r.Ok? ==> r.value.index == RowPositions(|score.index|) && r.value.names == AxisNames
                      && r.value.labels == Labels(|r.value.columns|)
  {
    match IndexColumns(score.columns)
    case Err(e) => Err(e)
    case Ok(symbols) =>
      if symbols == [] then Err(NothingToConcatenate)
      else
        var out := Unpack(symbols);
        Ok(Labelled(RowPositions(|score.index|), AxisNames, Labels(|out|), out))
  }

  /** On a well-formed score the indexed table has one column per item slot
      of every part, each as long as the score, and part `c`'s columns hold
      the items of its cells in order. */
  lemma NoteRestIndexColumns(score: Table<Event>, symbols: seq<seq<Option<Symbol>>>, c: nat, s: nat, r: nat)
    requires score.WellFormed()
    requires IndexColumns(score.columns) == Ok(symbols)
    requires c < |symbols| && s < Width(symbols[c]) && r < |score.index|
    ensures NoteRestIndex(score).Ok?
    ensures NoteRestIndex(score).value.columns == Unpack(symbols)
    ensures r < |symbols[c]| && r < |PartColumns(symbols, c)[s]| &&
            PartColumns(symbols, c)[s][r] == ItemAt(symbols[c][r], s)
  {
    PartColumnsHold(symbols, c);
  }

  class NoteRestIndexer {
    /** The DataFrame of note, rest and chord objects, one column per part. */
    const score: Table<Event>
    const types: seq<string>
    const indexerFunc: Option<Event> -> Result<Option<Symbol>>

    constructor (score: Table<Event>)
      ensures this.score == score
      ensures types == ["Note", "Rest", "Chord"]
      ensures indexerFunc == IndexerFunc
    {
      this.score := score;
      this.types := ["Note", "Rest", "Chord"];
      this.indexerFunc := IndexerFunc;
    }

    /** `NoteRestIndexer.run`. */
    method Run() returns (r: Result<Labelled>)
      ensures r == NoteRestIndex(score)
    {
      r := NoteRestIndex(score);
    }
  }
}

# Offset alignment and indexing engine of VIS, in Dafny

This project models the core of the VIS music-analysis framework. That core
is the engine that turns per-voice streams of musical events into tables
aligned on offsets, and it has five parts:

- **Indexer** (`indexer.dfy`) covers the primitives of `analyzers/indexer.py`:
  - `mpi_unique_offsets`, the sorted union of offsets;
  - `mpi_vert_aligner`, which groups coincident events into slices;
  - `stream_indexer`, with its fast path and its per-slice entries;
  - `series_indexer`, which forward-fills every part onto the union of offsets;
  - the type check of `Indexer.__init__`;
  - the serial branch of `Indexer._do_multiprocessing`.
- **NoteRest** (`noterest.dfy`) covers `indexer_func`, `_unpack_chords` and
  `NoteRestIndexer`. Notes, rests and chords become names or pitch-name
  lists, chords are spread over sub-columns, and columns get two-level
  labels.
- **FilterByOffset** (`offset.dfy`) is the offset quantiser. Its module is
  not part of this model, so it is specified by the behaviour that
  `analyzers_tests/test_offset.py` asserts. Every part is resampled onto
  0, q, 2q, … up to ceil(last/q)·q by forward fill, and the parts are put
  side by side.
- **LilyPond** (`lilypond.dfy`) covers `PartNotesExperimenter`:
  - the greedy duration solver of `_fill_space_between_offsets`;
  - `_set_durations`, which lays notes and rests end to end;
  - `_prepend_rests`;
  - the part-name instruction of `run`.
- **Piece** (`piece.dfy`) covers `IndexedPiece`:
  - the fallback rules of `_find_piece_title` and `_find_part_names`;
  - the metadata dictionary and its validated getter and setter;
  - the memoising stage getters over `_analyses`;
  - `_type_verifier`;
  - the analyzer chain of `get_data`.

`common.dfy` holds the shared vocabulary:
- `Option` and `Result`;
- the Python exception each `Error` stands for;
- offset-stamped values (`Timed`);
- tables as sequences of columns;
- `FFill`, pandas' `reindex(method='ffill')`.

`strings.dfy` renders the decimal labels that `str(i)` produces.

Offsets and quarterLengths are `real`, so float rounding does not arise.
`None` stands for pandas' NaN. Python exceptions are `Err` values of
`Result`, and each says which exception class it is.

Two edge cases follow the code and its tests:
- `mpi_unique_offsets` and `series_indexer` need at least one part, because
  `set.union(*[])` raises.
- In the quantised table, a part whose own grid ends early is padded with
  missing values, as `test_offset_xparts_5` checks.

Five defects in the source are modelled by their evident intent:
- `noterest.py:116` calls `_indexer_func`, but the function is
  `indexer_func`.
- `indexed_piece.py:373` and `:379` pass an argument to getters that take
  none.
- `indexed_piece.py:455` calls `_get_note_rest_index`, which does not
  exist. `Piece.GetData` takes that input as `Sources.noteRest`, a
  parameter of the model.
- `indexed_piece.py:372` uses `noterest._type_func`, which does not exist.
  That stage is one of the abstract `derive` steps.
- `indexed_piece.py` never imports `pandas` (its imports are at lines
  33-39), so `_get_m21_objs` (line 354) and `_get_m21_nrc_objs` (line 374)
  raise NameError as written. The model computes those stages through the
  abstract `derive` steps.

## Model

| member | source | states |
|---|---|---|
| `Common.FFill` | analyzers/indexer.py:210 | the value is missing exactly when every element begins after `o`; otherwise it is the value of an element at or before `o` with every later element after `o` |
| `Common.FFillGreatest` | analyzers/indexer.py:210 | on a sorted series, once any element is at or before `o`, the filled value exists and comes from an element no earlier than it |
| `Common.FFillAtOwnOffset` | analyzers/indexer.py:210 | at one of its own offsets, a strictly increasing series fills with exactly that element's value |
| `Common.FFillIgnoresLater` | analyzers/indexer.py:210 | forward fill never looks ahead: elements that begin after `o` do not change the value at `o` |
| `Indexer.UniqueOffsets` | analyzers/indexer.py:33-49 | strictly increasing; `y` is in it iff some element of some part has offset `y`; needs at least one part |
| `Indexer.MaxLen` | analyzers/indexer.py:64 | bounds every part's event count and equals one of them; 0 for no parts |
| `Indexer.VertAlign` | analyzers/indexer.py:52-75 | the loops produce exactly `Aligned(events)`: one slice per position up to the largest event count |
| `Indexer.SliceMembers` | analyzers/indexer.py:63-74 | `x` is in slice `i` iff some part `j` has more than `i` events and `events[j][i] == x` |
| `Indexer.SlicePosition` | analyzers/indexer.py:63-74 | part `j`'s `i`-th event stands in slice `i` after the contributions of the earlier parts: part order is kept |
| `Indexer.AlignedExample` | analyzers/indexer.py:57-61 | `[[1,2,3],[1,2,3],[1,2]]` aligns to `[[1,1,1],[2,2,2],[3,3]]` |
| `Indexer.AlignedKeepsEvents` | analyzers/indexer.py:63-75 | the slices hold the same multiset of events as the parts: nothing lost or duplicated |
| `Indexer.FilterTypes` | analyzers/indexer.py:132-141 | keeps every element of a requested class and only those, in order; with no types, keeps the part as it is |
| `Indexer.FilterTypesSplits` | analyzers/indexer.py:132-141 | a lone element is kept iff its class is requested, and the filter of `a + b` is the filter of `a` followed by that of `b`: order and multiplicity are kept |
| `Indexer.FilterKeepsOrder` | analyzers/indexer.py:132-141 | filtering a part whose offsets are in order leaves them in order |
| `Indexer.FirstEventsAsWritten` | analyzers/indexer.py:158-160 | the fast path as written raises IndexError iff some part has no event at the offset; otherwise it gives one event per part |
| `Indexer.FirstEventsIsFirstSlice` | analyzers/indexer.py:158-162 | the corrected fast path (first event of each non-empty part) equals slice 0 |
| `Indexer.FastPathAgrees` | analyzers/indexer.py:158-162 | when the largest event count is 1, the fast-path group equals what the aligner returns |
| `Indexer.FastPathAsWrittenFails` | analyzers/indexer.py:158-160 | for `[[x], []]` the fast path is taken and raises IndexError, while the aligner gives `[[x]]` |
| `Indexer.GroupsAreAligned` | analyzers/indexer.py:157-162 | whichever path is taken, the groups are the aligner's slices, and there are as many as the largest event count |
| `Indexer.CurrentEvents` | analyzers/indexer.py:153-155 | one lookup result per part |
| `Indexer.Lookups` | analyzers/indexer.py:153-155 | the loop collects `getElementsByOffset` for every part, in part order |
| `Indexer.IndexGroups` | analyzers/indexer.py:165-167 | the loop appends one entry per group: the indexer function of that group, stamped with the offset |
| `Indexer.EntriesForShape` | analyzers/indexer.py:164-167 | at one offset there are exactly as many entries as the busiest part has events, all stamped with that offset |
| `Indexer.IndexOffset` | analyzers/indexer.py:151-167 | one pass of the offset loop yields the entries for that offset |
| `Indexer.StreamIndexer` | analyzers/indexer.py:78-169 | the method's loops yield the entries of every unique offset of the filtered parts, in ascending order |
| `Indexer.EmittedStep` | analyzers/indexer.py:151-167 | indexing one more offset keeps the earlier entries and appends as many entries, stamped with that offset, as the busiest part has events |
| `Indexer.StreamIndexOffsets` | analyzers/indexer.py:151-169 | output offsets are non-decreasing, and each is a unique offset |
| `Indexer.StreamIndexCovers` | analyzers/indexer.py:151-169 | every unique offset appears in the output at least once when the lookup finds each element at its own offset |
| `Indexer.FilledTable` | analyzers/indexer.py:203-211 | a well-formed table with one column per part |
| `Indexer.IndexRows` | analyzers/indexer.py:214 | one entry per row offset |
| `Indexer.SeriesIndexRows` | analyzers/indexer.py:172-217 | entry `r` is the indexer function applied to row `r` of the forward-filled table on the sorted union, stamped with that row's offset |
| `Indexer.FilledTableKeepsOwnValues` | analyzers/indexer.py:204-210 | each part's value at each of its own offsets appears in its column at that row |
| `Indexer.ScoreTypeError` | analyzers/indexer.py:268-274 | no error iff every element has the required type; otherwise the error names the first element that does not |
| `Indexer.Pick` | analyzers/indexer.py:345 | `[score[x] for x in combo]` |
| `Indexer.Indexer.constructor` | analyzers/indexer.py:275-285 | stores the score, the mpc flag and the indexer function |
| `Indexer.Indexer.Create` | analyzers/indexer.py:245-285 | raises RuntimeError iff some element of the score has the wrong type; otherwise returns a fresh indexer holding the score |
| `Indexer.Indexer.IndexAll` | analyzers/indexer.py:344-349 | one result per combination |
| `Indexer.Indexer.IndexOne` | analyzers/indexer.py:345-349 | `stream_indexer` on music21 parts, and `series_indexer` otherwise, on the picked voices |
| `Indexer.Indexer.DoMultiprocessing` | analyzers/indexer.py:342-351 | exactly one result per combination, in combination order, each computed from that combination's voices |
| `NoteRest.IndexerFunc` | vis/analyzers/indexers/noterest.py:50-82 | a Note becomes the one-tuple of its name; a Rest becomes `('Rest',)`; a Chord becomes its pitch names in order; a missing cell stays missing; any other object raises AttributeError |
| `NoteRest.IndexColumn` | vis/analyzers/indexers/noterest.py:116 | fails iff the column holds an object without pitches; otherwise it is `indexer_func` cell by cell |
| `NoteRest.IndexColumns` | vis/analyzers/indexers/noterest.py:116 | fails iff some column fails; otherwise it transforms every column and keeps the shape |
| `NoteRest.WidthIsMax` | vis/analyzers/indexers/noterest.py:37-48 | a part's width is the width of its widest cell |
| `NoteRest.SubColumn` | vis/analyzers/indexers/noterest.py:48 | row `r` of sub-column `s` holds item `s` of the cell, or missing where the cell has fewer items |
| `NoteRest.SubColumns` | vis/analyzers/indexers/noterest.py:48 | the first `n` sub-columns, in slot order |
| `NoteRest.UnpackColumn` | vis/analyzers/indexers/noterest.py:48 | a column is spread over exactly its width in sub-columns |
| `NoteRest.UnpackLength` | vis/analyzers/indexers/noterest.py:37-48 | the unpacked table has as many columns as the widths add up to |
| `NoteRest.UnpackAt` | vis/analyzers/indexers/noterest.py:37-48 | sub-column `s` of part `c` sits at the sum of the earlier widths plus `s`: original column order is kept |
| `NoteRest.PartColumnsHold` | vis/analyzers/indexers/noterest.py:37-48 | part `c`'s sub-columns hold, row by row, item `s` of each cell or missing |
| `NoteRest.UnpackRoundTrip` | vis/analyzers/indexers/noterest.py:37-48 | reading part `c`'s sub-columns along a row gives back the cell's items in order |
| `NoteRest.NoChordsKeepsColumns` | vis/tests/test_note_rest_indexer.py:176 | without chords there are exactly as many result columns as parts |
| `NoteRest.UnpackWidens` | vis/analyzers/indexers/noterest.py:43-46 | with chords there are at least as many columns as parts |
| `NoteRest.Labels` | vis/analyzers/indexers/noterest.py:119-120 | one label per column |
| `NoteRest.LabelsIdentify` | vis/analyzers/indexers/noterest.py:119-120 | label `k` is `('NoteRestIndexer', str(k))`: it reads back as `k`, so the labels are consecutive and distinct |
| `NoteRest.RowPositions` | vis/analyzers/indexers/noterest.py:48 | the rebuilt frames are indexed by row position 0, 1, … |
| `NoteRest.NoteRestIndex` | vis/analyzers/indexers/noterest.py:106-121 | fails iff there are no parts (ValueError) or some object lacks pitches (AttributeError); otherwise columns are labelled `('NoteRestIndexer', str(k))` for k = 0..n-1 under axis names `('Indexer', 'Parts')` |
| `NoteRest.NoteRestIndexColumns` | vis/analyzers/indexers/noterest.py:116-121 | the result's columns are the unpacked sub-columns of the symbolised parts, holding each cell's items in order |
| `NoteRest.NoteRestIndexer.constructor` | vis/analyzers/indexers/noterest.py:96-104 | the types are `('Note', 'Rest', 'Chord')` and the transform is `indexer_func` |
| `NoteRest.NoteRestIndexer.Run` | vis/analyzers/indexers/noterest.py:106-121 | returns what `NoteRestIndex` specifies for the stored score |
| `Strings.NatToString` | vis/analyzers/indexers/noterest.py:120 | `str(n)` is all digits, without a leading zero |
| `Strings.ParseNatToString` | vis/analyzers/indexers/noterest.py:120 | reading back `str(n)` gives `n` |
| `FilterByOffset.Ceil` | analyzers_tests/test_offset.py:153-167 | the smallest integer not below `x` |
| `FilterByOffset.Grid` | analyzers_tests/test_offset.py:187-217 | grid point `k` is `k·q` |
| `FilterByOffset.Resample` | analyzers_tests/test_offset.py:153-217 | one forward-filled value per grid point of the part |
| `FilterByOffset.MaxGridLength` | analyzers_tests/test_offset.py:354-379 | the table has as many rows as the longest part's grid |
| `FilterByOffset.Pad` | analyzers_tests/test_offset.py:354-379 | values past a part's own grid are missing |
| `FilterByOffset.Quantize` | analyzers_tests/test_offset.py:221-379 | one column per part, labelled 0..n-1 in input order; rows on the grid of the longest part |
| `FilterByOffset.QuantizeColumn` | analyzers_tests/test_offset.py:354-379 | column `c` at row `k` is part `c`'s forward-filled value at `k·q` within its own grid, and missing beyond it |
| `FilterByOffset.PartsIndependent` | analyzers_tests/test_offset.py:332-379 | a column depends only on its own part |
| `FilterByOffset.NoParts` | analyzers_tests/test_offset.py:37-45 | zero parts give zero columns and zero rows |
| `FilterByOffset.EmptyParts` | analyzers_tests/test_offset.py:221-232 | empty parts give one column each and zero rows |
| `FilterByOffset.GridEnd` | analyzers_tests/test_offset.py:187-217 | the last grid point is at or after the last offset, and the point before it lies before the last offset: the grid ends at ceil(last/q)·q |
| `FilterByOffset.LastEventKept` | analyzers_tests/test_offset.py:153-217 | the last grid point holds the last event's value |
| `FilterByOffset.GridHoldsEvent` | analyzers_tests/test_offset.py:153-185 | a grid point holds event `i` when it lies at or after event `i`'s offset and before the next event's |
| `FilterByOffset.NoAnticipation` | analyzers_tests/test_offset.py:153-185 | the value at a grid point before event `i`'s offset depends only on the events before `i` |
| `FilterByOffset.OnGridUnchanged` | analyzers_tests/test_offset.py:57-71 | a part already on the grid comes back unchanged |
| `FilterByOffset.OnGridTableUnchanged` | analyzers_tests/test_offset.py:248-308 | many parts already on the grid come back as the table of their values |
| `FilterByOffset.CoarserStep` | analyzers_tests/test_offset.py:73-86 | `[a,b,c,d]@[0,.5,1,1.5]` with q=1 gives `[a,c,d]` |
| `FilterByOffset.FinerStep` | analyzers_tests/test_offset.py:105-119 | `[a,b]@[0,.5]` with q=0.125 gives `[a,a,a,a,b]` |
| `FilterByOffset.IrregularStep` | analyzers_tests/test_offset.py:153-167 | `[a,b,c,d]@[0,.4,1.1,2.1]` with q=1 gives `[a,b,c,d]` on the grid 0, 1, 2, 3 |
| `LilyPond.FindHighestValidQl` | vis/analyzers/experimenters/lilypond.py:103-110 | the value found is not above `ql`, and is at least 1/64 when `ql` is |
| `LilyPond.HighestValid` | vis/analyzers/experimenters/lilypond.py:103-110 | the value found is a valid duration, and the largest one that fits |
| `LilyPond.HighestBounds` | vis/analyzers/experimenters/lilypond.py:123-124 | below 4.0, the highest valid duration is positive, not above the remainder, and more than half of it |
| `LilyPond.Solver` | vis/analyzers/experimenters/lilypond.py:112-130 | on success the values sum to the remainder; a failure is RuntimeError carrying the whole span |
| `LilyPond.SolverValues` | vis/analyzers/experimenters/lilypond.py:117-128 | a zero span gives `[0.0]`; otherwise every value is 4.0 or a positive valid duration |
| `LilyPond.SolverFirst` | vis/analyzers/experimenters/lilypond.py:119-128 | the first value is at most the remainder, and is 4.0 while 4.0 fits |
| `LilyPond.SolverOrder` | vis/analyzers/experimenters/lilypond.py:112-128 | all 4.0s first, then strictly decreasing values: several plain values rather than one dotted value |
| `LilyPond.SolverSucceedsIff` | vis/analyzers/experimenters/lilypond.py:123-130 | succeeds iff the span is a non-negative whole number of 1/64 notes; RuntimeError otherwise |
| `LilyPond.FillSpace` | vis/analyzers/experimenters/lilypond.py:86-132 | on success the values sum to `end_o - start_o` |
| `LilyPond.QlsFor` | vis/analyzers/experimenters/lilypond.py:162-167 | the durations fill the gap to the next object, and are `[1.0]` after the last object |
| `LilyPond.Rests` | vis/analyzers/experimenters/lilypond.py:170-176 | one rest per duration |
| `LilyPond.RestAt` | vis/analyzers/experimenters/lilypond.py:170-176 | rest `j` starts at `start` plus the sum of the rests before it |
| `LilyPond.AppendBlock` | vis/analyzers/experimenters/lilypond.py:168-176 | the inner loop appends the object with duration `qls[0]`, then its rests end to end |
| `LilyPond.NextBlock` | vis/analyzers/experimenters/lilypond.py:161-176 | one pass of the outer loop adds the next object's block, or fails with the error of its gap |
| `LilyPond.SetDurations` | vis/analyzers/experimenters/lilypond.py:135-181 | the loop produces the placed objects of every object, or the first gap's error, and copies both LilyPond attributes as given |
| `LilyPond.RestsTile` | vis/analyzers/experimenters/lilypond.py:170-176 | the rests cover `Sum(ds)` from `start` without gap or overlap |
| `LilyPond.BlockTile` | vis/analyzers/experimenters/lilypond.py:168-176 | a block starts with its object and covers the sum of its durations |
| `LilyPond.DurationsTile` | vis/analyzers/experimenters/lilypond.py:159-176 | the blocks of the first `k` objects cover the time from the first object to the next object without gap or overlap |
| `LilyPond.ObjectPlaced` | vis/analyzers/experimenters/lilypond.py:164-169 | each object keeps its offset and gets duration `qls[0]` |
| `LilyPond.QlsForOkIff` | vis/analyzers/experimenters/lilypond.py:162-167 | the gap after an object can be filled iff it is a non-negative whole number of 1/64 notes |
| `LilyPond.DurationsOkIff` | vis/analyzers/experimenters/lilypond.py:159-176 | the first `k` blocks exist iff every gap among them can be filled |
| `LilyPond.SetDurationsShape` | vis/analyzers/experimenters/lilypond.py:137-181 | fails iff some gap cannot be filled; otherwise the part covers the time from the first object to one beat past the last, the last object gets 1.0, and the attributes are carried over |
| `LilyPond.SortByOffsetSorts` | vis/analyzers/experimenters/lilypond.py:204 | `sort_index` returns the same entries, ordered by offset |
| `LilyPond.SortSortedUnchanged` | vis/analyzers/experimenters/lilypond.py:204 | sorting a series already in order changes nothing |
| `LilyPond.Assign` | vis/analyzers/experimenters/lilypond.py:203 | `in_part[o] = v` overwrites every entry at `o`, or appends a new one |
| `LilyPond.PrependRests` | vis/analyzers/experimenters/lilypond.py:184-206 | the method's loop computes `PrependSpec`: IndexError on an empty series, unchanged at 0.0, otherwise rests written at the prefix sums and then sorted |
| `LilyPond.PrependOnSorted` | vis/analyzers/experimenters/lilypond.py:199-204 | on a series in offset order, the rests of the decomposition of [0, first) come first, each at the sum of the earlier ones, then the series as it was |
| `LilyPond.PrependOkIff` | vis/analyzers/experimenters/lilypond.py:199-206 | fails iff the series is empty or its first offset is negative or not a whole number of 1/64 notes; a series starting at 0.0 comes back unchanged |
| `LilyPond.InstructionAgrees` | vis/analyzers/experimenters/lilypond.py:222-229 | where a name exists, or no names are given, the code and the corrected instruction agree; with too few names the code raises IndexError |
| `LilyPond.FewerNamesAsWrittenFails` | vis/analyzers/experimenters/lilypond.py:222-227 | two parts and one name: the code raises IndexError for part 1, while the documented behaviour leaves it unnamed |
| `LilyPond.NamedIdentifiesPart` | vis/analyzers/experimenters/lilypond.py:223-227 | a named instruction starts with `\textLengthOn`, and different names give different instructions |
| `LilyPond.RunPartsInOrder` | vis/analyzers/experimenters/lilypond.py:217-235 | `run` succeeds iff every series does; then it returns one part per series, in order |
| `LilyPond.RunPartLabels` | vis/analyzers/experimenters/lilypond.py:220-229 | every part is an analysis voice; its instruction names `part_names[i]` when given, and is exactly `'\t\\textLengthOn\n'` otherwise |
| `LilyPond.RunPartTiles` | vis/analyzers/experimenters/lilypond.py:217-235 | from a series in offset order, the part covers 0.0 to one beat past the last annotation without gap or overlap |
| `LilyPond.PartNotesExperimenter.constructor` | vis/analyzers/experimenters/lilypond.py:79-83 | keeps `part_names` only when the settings give it |
| `LilyPond.PartNotesExperimenter.MakePart` | vis/analyzers/experimenters/lilypond.py:219-234 | one pass of the loop yields `RunPart` of the series: the prepend error, or the analysis-voice part with its instruction and durations set |
| `LilyPond.PartNotesExperimenter.Run` | vis/analyzers/experimenters/lilypond.py:208-235 | the loop returns `RunParts` over every series |
| `Piece.RFind` | vis/models/indexed_piece.py:61 | the last position holding the character, or -1 |
| `Piece.Basename` | vis/models/indexed_piece.py:61 | a slash-free suffix of the path, preceded by a slash when shorter than the path |
| `Piece.StripExtension` | vis/models/indexed_piece.py:74 | a prefix of the path |
| `Piece.StripExtensionRemoves` | vis/models/indexed_piece.py:74 | what is removed is a dot with no later dot or slash, after a name that is not only dots; a name without a dot is kept |
| `Piece.StripExtensionFinds` | vis/models/indexed_piece.py:74 | an extension that is there is removed: `root + "." + ext`, with no dot or slash in `ext` and a name in `root` that is not only dots, strips to exactly `root` |
| `Piece.PieceTitleChain` | vis/models/indexed_piece.py:58-76 | the metadata title, else the basename of `filePath`, else `'Unknown Piece'`, with the extension stripped |
| `Piece.TitleWithoutDotKept` | vis/models/indexed_piece.py:69-76 | a string title without a dot is returned as it is |
| `Piece.FileNameTitle` | vis/models/indexed_piece.py:60-74 | without metadata, `scores/bwv77.mxl` is titled `bwv77` |
| `Piece.FindPartNames` | vis/models/indexed_piece.py:79-114 | the two loops return exactly one name per part, in part order, each as `PartName` specifies |
| `Piece.PartNameChain` | vis/models/indexed_piece.py:94-112 | no name is `'rename'`; the name is the instrument's non-empty `partName`, else a string id, else `'Part {i+1}'`; generated names differ from part to part |
| `Piece.PartNames` | vis/models/indexed_piece.py:79-114 | one name per part, in part order |
| `Piece.EmptyFieldsHolds` | vis/models/indexed_piece.py:182-186 | the listed fields, and only they, hold `''` |
| `Piece.InitialMetadataFields` | vis/models/indexed_piece.py:178-187 | after construction the twelve listed fields are `''`, `pathname` is the given path, and no other key exists |
| `Piece.MetadataContract` | vis/models/indexed_piece.py:322-329 | a non-string field raises TypeError; an unknown field raises AttributeError; a get returns the stored value and changes nothing; a set changes only that field |
| `Piece.MetadataGetAfterSet` | vis/models/indexed_piece.py:326-329 | reading a field after setting it gives the value set |
| `Piece.FillFromScore` | vis/models/indexed_piece.py:241-245 | keeps the set of fields |
| `Piece.FillCopiesShared` | vis/models/indexed_piece.py:241-245 | a field the Metadata object has is copied, `None` becoming `'???'`; other fields keep their values; nothing is added |
| `Piece.Fill` | vis/models/indexed_piece.py:241-245 | the loop yields `FillFromScore` |
| `Piece.ImportKeepsFields` | vis/models/indexed_piece.py:240-248 | the first import keeps exactly the thirteen fields |
| `Piece.ImportGuarantees` | vis/models/indexed_piece.py:240-248 | after import `title` and `parts` are real values, `pathname` is untouched, and a second import changes nothing |
| `Piece.Before` | vis/models/indexed_piece.py:336-385 | each stage is computed from the one just before it |
| `Piece.IndexedPiece.constructor` | vis/models/indexed_piece.py:169-196 | nothing imported, nothing cached, metadata as `init_metadata` builds it |
| `Piece.IndexedPiece.Metadata` | vis/models/indexed_piece.py:251-329 | result and new dictionary as `MetadataAccess` gives them; the cache and the imported flag are unchanged |
| `Piece.IndexedPiece.ImportScore` | vis/models/indexed_piece.py:240-249 | the first import fills the metadata, sets `parts` and `title` and flips `_imported`; later imports change nothing |
| `Piece.IndexedPiece.GetPartStreams` | vis/models/indexed_piece.py:331-334 | returns the score's parts and caches them; once cached, nothing changes |
| `Piece.IndexedPiece.GetStage` | vis/models/indexed_piece.py:336-385 | returns the stage's value and caches it, computing it from the cached earlier stages; once its key is cached, nothing changes |
| `Piece.GetTwice` | vis/models/indexed_piece.py:331-385 | a second request returns the first answer: each stage is computed at most once |
| `Piece.TypeVerifier` | vis/models/indexed_piece.py:387-405 | TypeError iff some class is neither an Indexer nor an Experimenter |
| `Piece.GetDataChains` | vis/models/indexed_piece.py:466-474 | given data, `get_data` feeds each analyzer's output to the next in list order and returns the last result |
| `Piece.GetDataWithoutData` | vis/models/indexed_piece.py:452-465 | without data, the first analyzer's own input is fetched; RuntimeError iff it is neither NoteRestIndexer nor declares `stream.Part` or `stream.Score` |
| `Piece.GetDataChecksFirst` | vis/models/indexed_piece.py:452 | one class that is not an analyzer raises TypeError before anything else; an empty list raises IndexError |
| `Piece.NoteRestPassesThrough` | vis/models/indexed_piece.py:467-472 | NoteRestIndexer passes its data through unchanged |
| `Piece.ChainSplits` | vis/models/indexed_piece.py:466-474 | the chain splits at any point: the second half runs on the first half's output |

## Left out

- The `MPInterface` branch of `_do_multiprocessing` (analyzers/indexer.py:328-341) is not modelled. It submits jobs to a worker pool, polls with `time.sleep` and pickles streams. Only the serial branch's order-preserving result is modelled.
- music21 is abstract in this model:
  - `getElementsByOffset(off, mustBeginInSpan=False)` is a function parameter (`lookup`);
  - element classes are a parameter (`classOf`);
  - parsing, `.flat`, `recurse`, `getInstrument` and `sites` are left out.
- In `IndexedPiece`, `partsOf` and `derive` stand for the work of the later stage getters:
  - flattening the parts into Series;
  - `noterest._type_func` filtering and `_get_offset`;
  - `_eliminate_ties` and `dropna`;
  - the NoteRestIndexer itself.
- The Opus branches of `_import_score` are left out. They depend entirely on what the parser returns. So is the `known_opus` argument.
- Floating point is left out. Offsets are exact reals, so `math.fsum`, float equality and NaN identity do not arise.
- pandas mechanics are left out: index alignment, MultiIndex objects and dtype handling. Tables are sequences of columns.
- `_set_durations` appends blocks in object order. music21's `insert` keeps a part sorted by offset, and the two orders agree when the objects are in offset order, which `RunPartTiles` assumes.
- `sort_index` is modelled as a stable sort. pandas' default sort is not stable for equal offsets.
- `NoteRest.UnpackColumn` gives a missing cell one slot in every column. pandas' `DataFrame(list)` widens a column only when its first cell is a tuple or list. Two cases are not modelled. A column whose first cell is missing stays one column of unexpanded tuples. A column whose first cell is a chord's pitch list and which holds a missing cell raises TypeError.
- `LilyPond.SetDurations` and `LilyPond.PrependRests` return new values. The source updates its inputs in place, so after `run()` anything that holds the same objects sees the change. The model does not capture this update in place or the aliasing:
  - `_set_durations` sets `duration` on the caller's Note objects (vis/analyzers/experimenters/lilypond.py:168);
  - `_prepend_rests` adds rests to the Series held in the experimenter's index (vis/analyzers/experimenters/lilypond.py:202-203).
- `outputlilypond` rendering and the LilyPond text format are not part of this model.
- `Piece.FindPieceTitle` models the `str()` fallback for a title that is not a string. It does not model `UnicodeEncodeError`.
- `Piece.IndexedPiece.GetStage` leaves out the extra arguments passed at indexed_piece.py:373 and :379, and the NameError of the missing `pandas` import at lines 354 and 374.
- `Piece.GetData` takes the note-rest index that indexed_piece.py:455 asks of a missing `_get_note_rest_index` as the parameter `Sources.noteRest`. No lemma ties it to the `noterest` stage of `IndexedPiece`.
- `NoteRest.NoteRestIndexer.Run` calls `indexer_func`, not the undefined `_indexer_func` of noterest.py:116. The score-type check against the string `'pandas.DataFrame'` (noterest.py:94) is left out, because `isinstance` with a string raises in Python.
- `Indexer.SeriesIndex` requires strictly increasing offsets in each part. The source says duplicate offsets give undefined behaviour (analyzers/indexer.py:179).
- Python 2 `unicode` and `basestring` distinctions and frozen-stream thawing (analyzers/indexer.py:138-139) are left out.

## Findings

| source | as written | input that shows it | evidently intended | confidence | as-written member | corrected member |
|---|---|---|---|---|---|---|
| analyzers/indexer.py:158-160 | the fast path takes `event[0]` of every part when the largest event count at the offset is 1 | `current_events = [[x], []]`: a part with no element at that offset raises IndexError | the first event of each part that has one, which is what the aligner gives | medium, not executed | `Indexer.FastPathAsWrittenFails` | `Indexer.FastPathAgrees` |
| vis/analyzers/experimenters/lilypond.py:222-227 | the instruction reads `part_names[i]` for every part whenever the setting is given | two series with `part_names = ['I']`: part 1 raises IndexError | the docstring (lines 60-62): with fewer names than parts, some parts are left unnamed | high, not executed | `LilyPond.FewerNamesAsWrittenFails` | `LilyPond.RunPartLabels` |

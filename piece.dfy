/** The piece model of vis/models/indexed_piece.py: the title and part
    names found in an imported score, the metadata dictionary with its
    validated getter and setter, the cache of analysis stages, and the chain
    of analyzers `get_data` runs. */
module Piece {
  import opened Common
  import opened Strings

  /** A Python object stored as metadata: a string, a list of strings (the
      part names), or any other object, known by its `str()`. */
  datatype Value = Str(s: string) | Names(names: seq<string>) | Other(repr: string)

  // ---------------------------------------------------------------------------
  // os.path
  // ---------------------------------------------------------------------------

  /** `p.rfind(c)`: the last position holding `c`, or -1. */
  function RFind(p: string, c: char): (r: int)
    ensures -1 <= r < |p|
    ensures r >= 0 ==> p[r] == c
    ensures forall k :: r < k < |p| ==> p[k] != c
  {
    if p == [] then -1
    else if p[|p| - 1] == c then |p| - 1
    else RFind(p[..|p| - 1], c)
  }

  /** `os.path.basename(p)`: what follows the last slash. */
  function Basename(p: string): (b: string)
    ensures |b| <= |p| && p[|p| - |b|..] == b
    ensures forall k :: 0 <= k < |b| ==> b[k] != '/'
    ensures |b| < |p| ==> p[|p| - |b| - 1] == '/'
  {
    p[RFind(p, '/') + 1..]
  }

  /** Whether some character of `p[from..to]` is not a dot. */
  predicate HasNonDot(p: string, from: int, to: int)
    requires 0 <= from && to <= |p|
  {
    exists k :: from <= k < to && p[k] != '.'
  }

  /** `os.path.splitext(p)[0]`: `p` without the text from its last dot on,
      when that dot comes after the last slash and is not one of the dots
      a file name starts with. */
  function StripExtension(p: string): (root: string)
    ensures |root| <= |p| && p[..|root|] == root
  {
    var sep := RFind(p, '/');
    var dot := RFind(p, '.');
    if dot > sep && HasNonDot(p, sep + 1, dot) then p[..dot] else p
  }

  /** What `StripExtension` removes is empty or an extension: a dot followed
      by neither a dot nor a slash, after a name that is not only dots. */
  lemma StripExtensionRemoves(p: string)
    ensures var root := StripExtension(p);
            |root| < |p| ==>
              p[|root|] == '.' &&
              (forall k :: |root| < k < |p| ==> p[k] != '.' && p[k] != '/') &&
              HasNonDot(p, RFind(p, '/') + 1, |root|)
    ensures (forall k :: 0 <= k < |p| ==> p[k] != '.') ==> StripExtension(p) == p
  {
    var sep := RFind(p, '/');
    var dot := RFind(p, '.');
    if dot > sep && HasNonDot(p, sep + 1, dot) {
      forall k | dot < k < |p|
        ensures p[k] != '/'
      {
        assert sep < k;
      }
    }
  }

  /** A suffix without `c` does not move the last `c`. */
  lemma {:induction false} RFindPast(a: string, s: string, c: char)
    requires forall k :: 0 <= k < |s| ==> s[k] != c
    ensures RFind(a + s, c) == RFind(a, c)
    decreases |s|
  {
    if s == [] {
      assert a + s == a;
    } else {
      assert (a + s)[..|a + s| - 1] == a + s[..|s| - 1];
      RFindPast(a, s[..|s| - 1], c);
    }
  }

  /** An extension that is there is removed: after a name that is not only
      dots, a dot followed by neither a dot nor a slash comes off, and
      exactly that much. */
  lemma {:induction false} StripExtensionFinds(root: string, ext: string)
    requires forall k :: 0 <= k < |ext| ==> ext[k] != '.' && ext[k] != '/'
    requires HasNonDot(root, RFind(root, '/') + 1, |root|)
    ensures StripExtension(root + "." + ext) == root
  {
    var tail := "." + ext;
    var p := root + tail;
    assert root + "." + ext == p;
    assert forall k :: 1 <= k < |tail| ==> tail[k] == ext[k - 1];
    RFindPast(root, tail, '/');
    var sep := RFind(root, '/');
    assert RFind(p, '/') == sep;
    assert RFind(p, '.') == |root| by {
      assert p[|root|] == '.';
      forall j | |root| < j < |p|
        ensures p[j] != '.'
      {
        assert p[j] == tail[j - |root|];
      }
      RFindIs(p, '.', |root|);
    }
    var k :| sep + 1 <= k < |root| && root[k] != '.';
    assert p[k] == root[k];
    assert HasNonDot(p, sep + 1, |root|);
    assert p[..|root|] == root;
  }

  // ---------------------------------------------------------------------------
  // _find_piece_title
  // ---------------------------------------------------------------------------

  const UnknownPieceTitle: string := "Unknown Piece"

  /** The pieces of a parsed score the model reads: its Metadata object
      (attribute name to value, None where unset), its file path when it
      has one (a score taken from an Opus has none), and its parts. */
  datatype ScoreInfo = ScoreInfo(metadata: Option<map<string, Option<Value>>>,
                                 filePath: Option<string>,
                                 parts: seq<PartInfo>)

  /** `str(v)`. */
  function Text(v: Option<Value>): string {
    match v
    case None => "None"
    case Some(Str(s)) => s
    case Some(Other(r)) => r
    case Some(Names(ns)) => ListRepr(ns)
  }

  /** `str()` of a list of strings: `['a', 'b']`. */
  function ListRepr(ns: seq<string>): string {
    "[" + Quoted(ns) + "]"
  }

  function Quoted(ns: seq<string>): string {
    if ns == [] then ""
    else if |ns| == 1 then "'" + ns[0] + "'"
    else "'" + ns[0] + "', " + Quoted(ns[1..])
  }

  /** `metadata.title`: None when the Metadata object has no title. */
  function TitleOf(md: map<string, Option<Value>>): Option<Value> {
    if "title" in md then md["title"] else None
  }

  /** `_find_piece_title`: the metadata title, else the file name, else
      "Unknown Piece", turned into a string and stripped of its
      extension. */
  function FindPieceTitle(score: ScoreInfo): (title: string)
  {
    var post :=
      if score.metadata.Some? then Text(TitleOf(score.metadata.value))
      else if score.filePath.Some? then Basename(score.filePath.value)
      else UnknownPieceTitle;
    StripExtension(post)
  }

  /** The fallback chain of `_find_piece_title`, each source with its
      extension stripped. */
  lemma PieceTitleChain(score: ScoreInfo)
    ensures score.metadata.Some? ==> FindPieceTitle(score) == StripExtension(Text(TitleOf(score.metadata.value)))
    ensures score.metadata.None? && score.filePath.Some? ==>
              FindPieceTitle(score) == StripExtension(Basename(score.filePath.value))
    ensures score.metadata.None? && score.filePath.None? ==> FindPieceTitle(score) == UnknownPieceTitle
  {
    if score.metadata.None? && score.filePath.None? {
      StripExtensionRemoves(UnknownPieceTitle);
    }
  }

  /** A title without a dot is kept as it is. */
  lemma TitleWithoutDotKept(score: ScoreInfo, title: string)
    requires score.metadata.Some? && TitleOf(score.metadata.value) == Some(Str(title))
    requires forall k :: 0 <= k < |title| ==> title[k] != '.'
    ensures FindPieceTitle(score) == title
  {
    StripExtensionRemoves(title);
  }

  lemma RFindIs(p: string, c: char, k: int)
    requires -1 <= k < |p| && (k >= 0 ==> p[k] == c)
    requires forall j :: k < j < |p| ==> p[j] != c
    ensures RFind(p, c) == k
  {
  }

  /** Without metadata the title of "scores/bwv77.mxl" is "bwv77". */
  lemma FileNameTitle(score: ScoreInfo)
    requires score.metadata.None? && score.filePath == Some("scores/bwv77.mxl")
    ensures FindPieceTitle(score) == "bwv77"
  {
    var p := "scores/bwv77.mxl";
    RFindIs(p, '/', 6);
    var b := "bwv77.mxl";
    assert Basename(p) == b;
    RFindIs(b, '/', -1);
    RFindIs(b, '.', 5);
    assert b[0] != '.';
    assert HasNonDot(b, 0, 5);
  }

  // ---------------------------------------------------------------------------
  // _find_part_names
  // ---------------------------------------------------------------------------

  /** A part's instrument, whose `partName` may be None. */
  datatype Instrument = Instrument(partName: Option<string>)

  /** A part's `id`: None, a string, or another object (an integer). */
  datatype PartId = NoId | StrId(s: string) | OtherId

  datatype PartInfo = PartInfo(instrument: Option<Instrument>, id: PartId)

  const Rename: string := "rename"

  /** The name the first loop of `_find_part_names` gives a part: its
      instrument's non-empty part name, else its string id, else the
      placeholder "rename". */
  function FirstPassName(part: PartInfo): string {
    if part.instrument.Some? && part.instrument.value.partName.Some? && part.instrument.value.partName.value != "" then
      part.instrument.value.partName.value
    else if part.id.StrId? then part.id.s
    else Rename
  }

  /** The name of part `i` once the second loop has replaced every
      placeholder by "Part i+1". */
  function PartName(part: PartInfo, i: nat): string {
    var first := FirstPassName(part);
    if first == Rename then "Part " + NatToString(i + 1) else first
  }

  /** `_find_part_names`: one name per part, in part order. */
  method FindPartNames(parts: seq<PartInfo>) returns (post: seq<string>)
    ensures |post| == |parts|
    ensures forall i :: 0 <= i < |parts| ==> post[i] == PartName(parts[i], i)
  {
    post := [];
    var j := 0;
    while j < |parts|
      invariant 0 <= j <= |parts| && |post| == j
      invariant forall i :: 0 <= i < j ==> post[i] == FirstPassName(parts[i])
    {
      var eachPart := parts[j];
      var instr := eachPart.instrument;
      var name;
      if instr.Some? && instr.value.partName != Some("") && instr.value.partName.Some? {
        name := instr.value.partName.value;
      } else if !eachPart.id.NoId? {
        if eachPart.id.StrId? {
          name := eachPart.id.s;
        } else {
          name := Rename;
        }
      } else {
        name := Rename;
      }
      assert name == FirstPassName(eachPart);
      post := post + [name];
      j := j + 1;
    }
    var i := 0;
    while i < |post|
      invariant 0 <= i <= |post| == |parts|
      invariant forall k :: 0 <= k < i ==> post[k] == PartName(parts[k], k)
      invariant forall k :: i <= k < |post| ==> post[k] == FirstPassName(parts[k])
    {
      ghost var before := post;
      if Rename == post[i] {
        post := post[i := "Part " + NatToString(i + 1)];
      }
      assert post[i] == PartName(parts[i], i);
      assert forall k :: 0 <= k < |post| && k != i ==> post[k] == before[k];
      i := i + 1;
    }
  }

  /** Where each part name comes from, and that no part is left named
      "rename": a non-empty instrument part name, else a string id, else
      "Part i+1"; a name that happens to read "rename" is replaced too.
      The generated names differ from part to part. */
  lemma PartNameChain(part: PartInfo, i: nat, other: PartInfo, j: nat)
    ensures PartName(part, i) != Rename
    ensures part.instrument.Some? && part.instrument.value.partName.Some? &&
            part.instrument.value.partName.value !in {"", Rename} ==>
              PartName(part, i) == part.instrument.value.partName.value
    ensures (part.instrument.None? || part.instrument.value.partName.None? ||
             part.instrument.value.partName.value == "") && part.id.StrId? && part.id.s != Rename ==>
              PartName(part, i) == part.id.s
    ensures (part.instrument.None? || part.instrument.value.partName.None? ||
             part.instrument.value.partName.value == "") && !part.id.StrId? ==>
              PartName(part, i) == "Part " + NatToString(i + 1)
    ensures FirstPassName(part) == Rename && FirstPassName(other) == Rename && i != j ==>
              PartName(part, i) != PartName(other, j)
  {
    var generated := "Part " + NatToString(i + 1);
    assert generated[0] == 'P' && Rename[0] == 'r';
    if FirstPassName(part) == Rename && FirstPassName(other) == Rename && i != j {
      var g2 := "Part " + NatToString(j + 1);
      if generated == g2 {
        assert generated[5..] == NatToString(i + 1);
        assert g2[5..] == NatToString(j + 1);
        NatToStringInjective(i + 1, j + 1);
      }
    }
  }

  /** The names `_find_part_names` returns for a list of parts. */
  function PartNames(parts: seq<PartInfo>): (names: seq<string>)
    ensures |names| == |parts| && forall i :: 0 <= i < |parts| ==> names[i] == PartName(parts[i], i)
  {
    seq(|parts|, i requires 0 <= i < |parts| => PartName(parts[i], i))
  }

  // ---------------------------------------------------------------------------
  // IndexedPiece: metadata
  // ---------------------------------------------------------------------------

  /** The metadata fields `__init__` creates empty, in its order. */
  const FieldList: seq<string> := ["opusNumber", "movementName", "composer", "number", "anacrusis",
    "movementNumber", "date", "composers", "alternativeTitle", "title", "localeOfComposition", "parts"]

  /** Every field the metadata dictionary ever holds. */
  const ValidFields: set<string> := {"opusNumber", "movementName", "composer", "number", "anacrusis",
    "movementNumber", "date", "composers", "alternativeTitle", "title", "localeOfComposition", "parts",
    "pathname"}

  /** The dictionary after the first `k` fields of `fields` are set to ''. */
  function EmptyFields(fields: seq<string>, k: nat): map<string, Value>
    requires k <= |fields|
  {
    if k == 0 then map[] else EmptyFields(fields, k - 1)[fields[k - 1] := Str("")]
  }

  /** The dictionary `init_metadata` builds. */
  function InitialMetadata(pathname: string): map<string, Value> {
    EmptyFields(FieldList, |FieldList|)["pathname" := Str(pathname)]
  }

  lemma {:induction false} EmptyFieldsHolds(fields: seq<string>, k: nat)
    requires k <= |fields|
    ensures forall f :: f in EmptyFields(fields, k) <==> f in fields[..k]
    ensures forall f :: f in EmptyFields(fields, k) ==> EmptyFields(fields, k)[f] == Str("")
  {
    if k > 0 {
      EmptyFieldsHolds(fields, k - 1);
      assert fields[..k] == fields[..k - 1] + [fields[k - 1]];
    }
  }

  /** After `__init__` the dictionary holds exactly the thirteen valid
      fields: the twelve listed ones empty and `pathname` the given path. */
  lemma InitialMetadataFields(pathname: string)
    ensures InitialMetadata(pathname).Keys == ValidFields
    ensures forall f :: f in FieldList ==> InitialMetadata(pathname)[f] == Str("")
    ensures InitialMetadata(pathname)["pathname"] == Str(pathname)
  {
    EmptyFieldsHolds(FieldList, |FieldList|);
    assert FieldList[..|FieldList|] == FieldList;
    assert "pathname" !in FieldList;
  }

  /** The `field` argument of `metadata()`: a string, or some other
      object. */
  datatype Field = Name(name: string) | NotAString

  /** `metadata(field, value)` on a dictionary: its result and the
      dictionary afterwards. A field that is not a string raises TypeError,
      one the dictionary lacks raises AttributeError; without a value the
      stored value is returned, with one the field is set. */
  function MetadataAccess(meta: map<string, Value>, field: Field, value: Option<Value>): (Result<Option<Value>>, map<string, Value>) {
    if field.NotAString? then (Err(MetaInvalidType), meta)
    else if field.name !in meta then (Err(InvalidField(field.name)), meta)
    else if value.None? then (Ok(Some(meta[field.name])), meta)
    else (Ok(None), meta[field.name := value.value])
  }

  /** The contract of `metadata()`: errors and reads change nothing, a set
      changes the one field and keeps every field name. */
  lemma MetadataContract(meta: map<string, Value>, field: Field, value: Option<Value>)
    ensures var (r, after) := MetadataAccess(meta, field, value);
            after.Keys == meta.Keys &&
            (r.Err? || value.None? ==> after == meta) &&
            (field.NotAString? ==> r.Err? && r.error.Class() == TypeError) &&
            (field.Name? && field.name !in meta ==> r.Err? && r.error.Class() == AttributeError) &&
            (field.Name? && field.name in meta && value.None? ==> r == Ok(Some(meta[field.name]))) &&
            (field.Name? && field.name in meta && value.Some? ==>
               r == Ok(None) && after[field.name] == value.value &&
               forall f :: f in meta && f != field.name ==> after[f] == meta[f])
  {
  }

  /** Reading a field back after setting it gives the value set. */
  lemma MetadataGetAfterSet(meta: map<string, Value>, name: string, v: Value)
    requires name in meta
    ensures MetadataAccess(MetadataAccess(meta, Name(name), Some(v)).1, Name(name), None).0 == Ok(Some(v))
  {
  }

  /** The fields the parsed score's Metadata object has (`hasattr`); a score
      without a Metadata object has none. */
  function Attrs(score: ScoreInfo): map<string, Option<Value>> {
    if score.metadata.Some? then score.metadata.value else map[]
  }

  /** Field `f` after the fill: copied from the Metadata object when it has
      the field, None becoming '???'. */
  function Filled(meta: map<string, Value>, attrs: map<string, Option<Value>>, f: string): Value
    requires f in meta
  {
    if f in attrs then (if attrs[f].None? then Str("???") else attrs[f].value) else meta[f]
  }

  /** Each field the Metadata object has is copied, the others kept. */
  function FillFromScore(meta: map<string, Value>, attrs: map<string, Option<Value>>): (filled: map<string, Value>)
    ensures filled.Keys == meta.Keys
  {
    map f | f in meta :: Filled(meta, attrs, f)
  }

  /** The fill copies exactly the fields both sides have: a field the
      Metadata object lacks keeps its value, a None becomes '???', and no
      attribute outside the dictionary is added. */
  lemma FillCopiesShared(meta: map<string, Value>, attrs: map<string, Option<Value>>, f: string)
    ensures f in FillFromScore(meta, attrs) <==> f in meta
    ensures f in meta && f !in attrs ==> FillFromScore(meta, attrs)[f] == meta[f]
    ensures f in meta && f in attrs && attrs[f].None? ==> FillFromScore(meta, attrs)[f] == Str("???")
    ensures f in meta && f in attrs && attrs[f].Some? ==> FillFromScore(meta, attrs)[f] == attrs[f].value
  {
  }

  /** The fill loop of `_import_score`: every field of the dictionary the
      Metadata object has is copied into it. */
  method Fill(metadata: map<string, Value>, attrs: map<string, Option<Value>>) returns (meta: map<string, Value>)
    ensures meta == FillFromScore(metadata, attrs)
  {
    meta := metadata;
    var todo := meta.Keys;
    while todo != {}
      invariant todo <= metadata.Keys && meta.Keys == metadata.Keys
      invariant forall f :: f in todo ==> meta[f] == metadata[f]
      invariant forall f :: f in metadata && f !in todo ==> meta[f] == Filled(metadata, attrs, f)
      decreases todo
    {
      var f :| f in todo;
      if f in attrs {
        if attrs[f].None? {
          meta := meta[f := Str("???")];
        } else {
          meta := meta[f := attrs[f].value];
        }
      }
      todo := todo - {f};
    }
  }

  /** What the non-Opus branch of `_import_score` does to the metadata and
      the imported flag: on the first import the fields are filled from the
      score, then `parts` and `title` are set; later imports change
      nothing. */
  function ImportEffect(meta: map<string, Value>, imported: bool, score: ScoreInfo): (map<string, Value>, bool) {
    if imported then (meta, true)
    else
      (FillFromScore(meta, Attrs(score))["parts" := Names(PartNames(score.parts))]
                                        ["title" := Str(FindPieceTitle(score))], true)
  }

  /** The first import keeps the set of fields when `parts` and `title`
      are among them. */
  lemma ImportKeepsFields(meta: map<string, Value>, score: ScoreInfo)
    requires meta.Keys == ValidFields
    ensures ImportEffect(meta, false, score).0.Keys == ValidFields
  {
    assert "parts" in ValidFields && "title" in ValidFields;
  }

  /** After the first import the title and the parts are real values, the
      path is untouched, no field is added, and importing again changes
      nothing. */
  lemma ImportGuarantees(meta: map<string, Value>, score: ScoreInfo)
    requires meta.Keys == ValidFields
    requires "pathname" !in Attrs(score)
    ensures var (after, imported) := ImportEffect(meta, false, score);
            imported && after.Keys == ValidFields &&
            after["title"] == Str(FindPieceTitle(score)) &&
            after["parts"] == Names(PartNames(score.parts)) &&
            after["pathname"] == meta["pathname"] &&
            ImportEffect(after, imported, score) == (after, imported)
  {
    var filled := FillFromScore(meta, Attrs(score));
    assert "parts" in ValidFields && "title" in ValidFields && "pathname" in ValidFields;
    assert filled["pathname"] == meta["pathname"];
  }

  // ---------------------------------------------------------------------------
  // IndexedPiece: the memoised analysis stages
  // ---------------------------------------------------------------------------

  /** The stages `_analyses` caches, each computed from the one before. */
  datatype Stage = PartStreams | M21Objs | M21NoteRest | M21NoteRestNoTied | NoteRest

  /** The `_analyses` key of each stage; no two stages share one. */
  function Key(st: Stage): string {
    match st
    case PartStreams => "part_streams"
    case M21Objs => "m21_objs"
    case M21NoteRest => "m21_noterest"
    case M21NoteRestNoTied => "m21_noterest_no_tied"
    case NoteRest => "noterest"
  }

  /** How far a stage lies from the parsed score. */
  function Depth(st: Stage): nat {
    match st
    case PartStreams => 0
    case M21Objs => 1
    case M21NoteRest => 2
    case M21NoteRestNoTied => 3
    case NoteRest => 4
  }

  /** The stage a stage is computed from. */
  function Before(st: Stage): (prev: Stage)
    requires st != PartStreams
    ensures Depth(prev) + 1 == Depth(st)
  {
    match st
    case M21Objs => PartStreams
    case M21NoteRest => M21Objs
    case M21NoteRestNoTied => M21NoteRest
    case NoteRest => M21NoteRestNoTied
  }

  /** The metadata and the imported flag after at most one import of the
      score: either untouched, or as the first import leaves them. */
  predicate ImportedOrSame(meta: map<string, Value>, imported: bool,
                           meta': map<string, Value>, imported': bool, score: ScoreInfo) {
    (meta', imported') == (meta, imported) || (meta', imported') == ImportEffect(meta, imported, score)
  }

  /** A piece of music and what has been computed about it. `score` is what
      music21 parses the file into; `partsOf` (the score's parts) and
      `derive` (each later stage from the one before: flattening the parts,
      keeping notes, rests and chords, dropping tied continuations, and the
      note-rest indexer) are music21 and pandas work outside this model. The
      metadata keeps its thirteen fields, and every cached stage holds what
      that stage computes. */
  class IndexedPiece<A> {
    var metadata: map<string, Value>
    var analyses: map<string, A>
    var imported: bool
    const opusId: Option<nat>
    const score: ScoreInfo
    const partsOf: ScoreInfo -> A
    const derive: (Stage, A) -> A

    /** What stage `st` computes from the score. */
    function StageValue(st: Stage): A
      decreases Depth(st)
    {
      if st == PartStreams then partsOf(score) else derive(st, StageValue(Before(st)))
    }

    ghost predicate Valid()
      reads this
    {
      metadata.Keys == ValidFields &&
      forall st: Stage :: Key(st) in analyses ==> analyses[Key(st)] == StageValue(st)
    }

    /** `IndexedPiece(pathname, opus_id)`: nothing imported, nothing cached,
        the metadata as `init_metadata` builds it. */
    constructor (pathname: string, opusId: Option<nat>, score: ScoreInfo,
                 partsOf: ScoreInfo -> A, derive: (Stage, A) -> A)
      ensures metadata == InitialMetadata(pathname) && analyses == map[] && !imported
      ensures this.opusId == opusId && this.score == score
      ensures this.partsOf == partsOf && this.derive == derive
      ensures Valid()
    {
      imported := false;
      analyses := map[];
      metadata := map[];
      this.opusId := opusId;
      this.score := score;
      this.partsOf := partsOf;
      this.derive := derive;
      new;
      var i := 0;
      while i < |FieldList|
        invariant 0 <= i <= |FieldList|
        invariant metadata == EmptyFields(FieldList, i)
        invariant analyses == map[] && !imported
      {
        metadata := metadata[FieldList[i] := Str("")];
        i := i + 1;
      }
      metadata := metadata["pathname" := Str(pathname)];
      InitialMetadataFields(pathname);
    }

    /** `metadata(field, value)`. */
    method Metadata(field: Field, value: Option<Value>) returns (r: Result<Option<Value>>)
      requires Valid()
      modifies this
      ensures (r, metadata) == MetadataAccess(old(metadata), field, value)
      ensures analyses == old(analyses) && imported == old(imported)
      ensures Valid()
    {
      if field.NotAString? {
        return Err(MetaInvalidType);
      }
      if field.name !in metadata {
        return Err(InvalidField(field.name));
      }
      if value.None? {
        r := Ok(Some(metadata[field.name]));
      } else {
        metadata := metadata[field.name := value.value];
        r := Ok(None);
      }
    }

    /** `_import_score()` for a score that is no Opus: the first import
        fills the metadata from the score, later ones leave it alone. */
    method ImportScore() returns (s: ScoreInfo)
      requires Valid()
      modifies this
      ensures s == score
      ensures (metadata, imported) == ImportEffect(old(metadata), old(imported), score)
      ensures analyses == old(analyses)
      ensures Valid()
    {
      if !imported {
        var attrs := Attrs(score);
        var meta := Fill(metadata, attrs);
        var names := FindPartNames(score.parts);
        assert names == PartNames(score.parts);
        ImportKeepsFields(metadata, score);
        meta := meta["parts" := Names(names)];
        metadata := meta["title" := Str(FindPieceTitle(score))];
        imported := true;
      }
      s := score;
    }

    /** `_get_part_streams()`. */
    method GetPartStreams() returns (d: A)
      requires Valid()
      modifies this
      ensures Valid() && d == StageValue(PartStreams) && Key(PartStreams) in analyses
      ensures Key(PartStreams) in old(analyses) ==>
                analyses == old(analyses) && metadata == old(metadata) && imported == old(imported)
      ensures old(analyses).Keys <= analyses.Keys
      ensures ImportedOrSame(old(metadata), old(imported), metadata, imported, score)
    {
      if Key(PartStreams) !in analyses {
        var s := ImportScore();
        analyses := analyses[Key(PartStreams) := partsOf(s)];
      }
      d := analyses[Key(PartStreams)];
    }

    /** One of the later getters: compute the stage from the one before
        (itself cached) unless its key is cached already. */
    method GetStage(st: Stage) returns (d: A)
      requires Valid() && st != PartStreams
      modifies this
      decreases Depth(st)
      ensures Valid() && d == StageValue(st) && Key(st) in analyses
      ensures Key(st) in old(analyses) ==>
                analyses == old(analyses) && metadata == old(metadata) && imported == old(imported)
      ensures old(analyses).Keys <= analyses.Keys
      ensures ImportedOrSame(old(metadata), old(imported), metadata, imported, score)
    {
      if Key(st) !in analyses {
        var prev;
        if st == M21Objs {
          prev := GetPartStreams();
        } else {
          prev := GetStage(Before(st));
        }
        analyses := analyses[Key(st) := derive(st, prev)];
      }
      d := analyses[Key(st)];
    }
  }

  /** A second request for a stage returns the first answer and changes
      nothing: every stage is computed at most once. */
  method GetTwice<A>(piece: IndexedPiece<A>, st: Stage) returns (first: A, second: A)
    requires piece.Valid() && st != PartStreams
    modifies piece
    ensures first == second == piece.StageValue(st)
    ensures piece.Valid()
  {
    first := piece.GetStage(st);
    ghost var cached := piece.analyses;
    second := piece.GetStage(st);
    assert piece.analyses == cached;
  }

  // ---------------------------------------------------------------------------
  // IndexedPiece.get_data
  // ---------------------------------------------------------------------------

  /** What `issubclass` can say of a class handed to `get_data`. */
  datatype Kind = IndexerClass | ExperimenterClass | OtherClass

  /** An analyzer class: its kind, whether it is the note-rest indexer,
      its `required_score_type` if it declares one, and what constructing
      it on (data, settings) and calling `run()` gives. */
  datatype Analyzer<!D, !S> = Analyzer(kind: Kind, isNoteRest: bool, requiredScoreType: Option<string>,
                                     run: (D, S) -> Result<D>)

  predicate IsAnalyzer<D, S>(a: Analyzer<D, S>) {
    a.kind == IndexerClass || a.kind == ExperimenterClass
  }

  /** `_type_verifier`: TypeError exactly when some class is neither an
      Indexer nor an Experimenter. */
  function TypeVerifier<D, S>(classes: seq<Analyzer<D, S>>): (r: Result<()>)
    ensures r.Ok? <==> forall k :: 0 <= k < |classes| ==> IsAnalyzer(classes[k])
    ensures r.Err? ==> r.error == NotAnAnalyzer
  {
    if classes == [] then Ok(())
    else if !IsAnalyzer(classes[0]) then Err(NotAnAnalyzer)
    else
      var rest := TypeVerifier(classes[1..]);
      assert forall k :: 1 <= k < |classes| ==> classes[k] == classes[1..][k - 1];
      rest
  }

  /** The inputs `get_data` can fetch itself: the note-rest index, the
      score's parts, and the score in a one-element list. */
  datatype Sources<D> = Sources(noteRest: D, parts: D, score: D)

  /** The input `get_data` gives the first analyzer when the caller gave
      none. */
  function DefaultInput<D, S>(first: Analyzer<D, S>, src: Sources<D>): Result<D> {
    if first.isNoteRest then Ok(src.noteRest)
    else if first.requiredScoreType == Some("stream.Part") then Ok(src.parts)
    else if first.requiredScoreType == Some("stream.Score") then Ok(src.score)
    else Err(MissingData)
  }

  /** One analyzer's step: the note-rest indexer passes its input through
      (it was computed already), any other one runs on it. */
  function Step<D, S>(a: Analyzer<D, S>, d: D, settings: S): Result<D> {
    if a.isNoteRest then Ok(d) else a.run(d, settings)
  }

  /** `get_data(analyzer_cls, settings, data)`. */
  function GetData<D, S>(classes: seq<Analyzer<D, S>>, settings: S, data: Option<D>, src: Sources<D>): Result<D>
    decreases |classes|
  {
    if TypeVerifier(classes).Err? then Err(TypeVerifier(classes).error)
    else if classes == [] then Err(NoSuchElement)
    else
      var input := if data.Some? then Ok(data.value) else DefaultInput(classes[0], src);
      if input.Err? then Err(input.error)
      else if |classes| > 1 then
        if classes[0].isNoteRest then GetData(classes[1..], settings, Some(input.value), src)
        else
          var out := classes[0].run(input.value, settings);
          if out.Err? then Err(out.error) else GetData(classes[1..], settings, Some(out.value), src)
      else Step(classes[0], input.value, settings)
  }

  /** The chain as a left fold: each analyzer's output feeds the next, the
      first error stops it. */
  function Chain<D, S>(classes: seq<Analyzer<D, S>>, settings: S, d: D): Result<D>
    decreases |classes|
  {
    if classes == [] then Ok(d)
    else
      var out := Step(classes[0], d, settings);
      if out.Err? then Err(out.error) else Chain(classes[1..], settings, out.value)
  }

  /** With analyzer classes only and a start value, `get_data` is the chain
      of their steps, the last one's output being the result. */
  lemma {:induction false} GetDataChains<D, S>(classes: seq<Analyzer<D, S>>, settings: S, d: D, src: Sources<D>)
    requires |classes| >= 1 && forall k :: 0 <= k < |classes| ==> IsAnalyzer(classes[k])
    ensures GetData(classes, settings, Some(d), src) == Chain(classes, settings, d)
    decreases |classes|
  {
    if |classes| > 1 {
      assert forall k :: 0 <= k < |classes[1..]| ==> classes[1..][k] == classes[k + 1];
      var out := Step(classes[0], d, settings);
      if out.Ok? {
        GetDataChains(classes[1..], settings, out.value, src);
      }
    }
  }

  /** Without a start value the first analyzer's own input is fetched; a
      first analyzer that can fetch none raises RuntimeError. */
  lemma GetDataWithoutData<D, S>(classes: seq<Analyzer<D, S>>, settings: S, src: Sources<D>)
    requires |classes| >= 1 && forall k :: 0 <= k < |classes| ==> IsAnalyzer(classes[k])
    ensures DefaultInput(classes[0], src).Ok? ==>
              GetData(classes, settings, None, src) == Chain(classes, settings, DefaultInput(classes[0], src).value)
    ensures DefaultInput(classes[0], src).Err? ==>
              GetData(classes, settings, None, src) == Err(MissingData) &&
              GetData(classes, settings, None, src).error.Class() == RuntimeError
    ensures DefaultInput(classes[0], src).Err? <==>
              !classes[0].isNoteRest && classes[0].requiredScoreType != Some("stream.Part") &&
              classes[0].requiredScoreType != Some("stream.Score")
  {
    var input := DefaultInput(classes[0], src);
    if input.Ok? {
      GetDataChains(classes, settings, input.value, src);
      if |classes| > 1 {
        assert GetData(classes, settings, None, src) == GetData(classes, settings, Some(input.value), src);
      }
    }
  }

  /** The class check comes before everything else: one class that is no
      analyzer makes `get_data` raise TypeError whatever else it is
      given; an empty list raises IndexError. */
  lemma GetDataChecksFirst<D, S>(classes: seq<Analyzer<D, S>>, settings: S, data: Option<D>, src: Sources<D>)
    ensures (exists k :: 0 <= k < |classes| && !IsAnalyzer(classes[k])) ==>
              GetData(classes, settings, data, src) == Err(NotAnAnalyzer) &&
              GetData(classes, settings, data, src).error.Class() == TypeError
    ensures classes == [] ==> GetData(classes, settings, data, src) == Err(NoSuchElement)
  {
  }

  /** The note-rest indexer in the chain changes nothing: dropping it
      gives the same result. */
  lemma NoteRestPassesThrough<D, S>(nr: Analyzer<D, S>, rest: seq<Analyzer<D, S>>, settings: S, d: D)
    requires nr.isNoteRest
    ensures Chain([nr] + rest, settings, d) == Chain(rest, settings, d)
  {
    assert ([nr] + rest)[1..] == rest;
  }

  /** A chain splits at any point: the second part runs on the first
      part's output. */
  lemma {:induction false} ChainSplits<D, S>(front: seq<Analyzer<D, S>>, back: seq<Analyzer<D, S>>, settings: S, d: D)
    ensures Chain(front + back, settings, d) ==
              match Chain(front, settings, d)
              case Err(e) => Err(e)
              case Ok(mid) => Chain(back, settings, mid)
    decreases |front|
  {
    if front == [] {
      assert front + back == back;
    } else {
      assert (front + back)[1..] == front[1..] + back;
      var out := Step(front[0], d, settings);
      if out.Ok? {
        ChainSplits(front[1..], back, settings, out.value);
      }
    }
  }
}

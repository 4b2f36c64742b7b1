/** The non-abstract part of labelCloud's BaseLabelFormat: where label and
    relationship files go, how the relationship record is written and read
    back, and the conversion between absolute rotations in degrees and
    relative ones in radians. The label folder is a map from paths to file
    contents, so saving a file is an update of that map. */
module LabelFormats {
  import opened Wrappers

  // ---------------------------------------------------------------------
  // Paths
  // ---------------------------------------------------------------------

  /** A pathlib path: whether it is absolute, and its parts (directory and
      file names, none containing '/'). */
  datatype Path = Path(absolute: bool, parts: seq<string>)

  /** Path.name: the final part, or "" when there is none. */
  function Name(p: Path): string
  {
    if |p.parts| == 0 then "" else p.parts[|p.parts| - 1]
  }

  /** Path.parent.name: the name of the directory holding the final part. */
  function ParentName(p: Path): string
  {
    if |p.parts| < 2 then "" else p.parts[|p.parts| - 2]
  }

  /** Path.joinpath with one file name. */
  function JoinPath(p: Path, name: string): (r: Path)
    ensures r.absolute == p.absolute && r.parts == p.parts + [name]
    ensures Name(r) == name
  {
    Path(p.absolute, p.parts + [name])
  }

  function JoinParts(parts: seq<string>): string
  {
    if |parts| == 0 then ""
    else if |parts| == 1 then parts[0]
    else JoinParts(parts[..|parts| - 1]) + "/" + parts[|parts| - 1]
  }

  /** str(path). */
  function PathString(p: Path): string
  {
    if p.absolute then "/" + JoinParts(p.parts)
    else if |p.parts| == 0 then "."
    else JoinParts(p.parts)
  }

  /** The index of the last '.' in a name, as str.rfind finds it. */
  function LastDot(name: string): (r: Option<nat>)
    ensures r.Some? ==> r.value < |name| && name[r.value] == '.'
    ensures r.Some? ==> forall j :: r.value < j < |name| ==> name[j] != '.'
    ensures r.None? ==> forall j :: 0 <= j < |name| ==> name[j] != '.'
  {
    if |name| == 0 then None
    else if name[|name| - 1] == '.' then Some(|name| - 1)
    else LastDot(name[..|name| - 1])
  }

  /** Whether pathlib splits a name at its last dot: only when the dot is
      neither the first nor the last character. */
  predicate HasSuffix(name: string)
  {
    var i := LastDot(name);
    i.Some? && 0 < i.value < |name| - 1
  }

  /** Path.suffix of a name. */
  function Suffix(name: string): string
  {
    if HasSuffix(name) then name[LastDot(name).value..] else ""
  }

  /** Path.stem of a name. */
  function Stem(name: string): string
  {
    if HasSuffix(name) then name[..LastDot(name).value] else name
  }

  /** A name is its stem followed by its suffix; the suffix is empty or starts
      with the name's last dot and has no other dot. */
  lemma StemAndSuffix(name: string)
    ensures Stem(name) + Suffix(name) == name
    ensures Suffix(name) == "" || (Suffix(name)[0] == '.' && 2 <= |Suffix(name)|)
    ensures forall j :: 0 < j < |Suffix(name)| ==> Suffix(name)[j] != '.'
  {
    if HasSuffix(name) {
      var i := LastDot(name).value;
      assert name[..i] + name[i..] == name;
    }
  }

  /** The last dot of a name ending in a dot-free tail that starts with a dot
      is the start of that tail. */
  lemma LastDotOfExtension(stem: string, ext: string)
    requires |ext| >= 1 && ext[0] == '.'
    requires forall j :: 0 < j < |ext| ==> ext[j] != '.'
    ensures LastDot(stem + ext) == Some(|stem|)
  {
    var name := stem + ext;
    assert name[|stem|] == '.';
    assert forall j :: |stem| < j < |name| ==> name[j] == ext[j - |stem|] != '.';
  }

  /** BaseLabelFormat.FILE_ENDING. */
  const FILE_ENDING: string := ".json"

  /** The file save_label_to_file writes: the point cloud's stem with the
      file ending, in the label folder. */
  function LabelPath(labelFolder: Path, pcdPath: Path): Path
  {
    JoinPath(labelFolder, Stem(Name(pcdPath)) + FILE_ENDING)
  }

  /** The file save_rel_to_file writes and import_rels reads: the stem with
      "_rels" and the file ending, in the label folder. */
  function RelPath(labelFolder: Path, pcdPath: Path): Path
  {
    JoinPath(labelFolder, Stem(Name(pcdPath)) + "_rels" + FILE_ENDING)
  }

  /** The two files of one point cloud are different files in the label
      folder, and both end in the file ending. */
  lemma LabelAndRelPaths(labelFolder: Path, pcdPath: Path)
    ensures LabelPath(labelFolder, pcdPath) != RelPath(labelFolder, pcdPath)
    ensures Suffix(Name(RelPath(labelFolder, pcdPath))) == FILE_ENDING
    ensures Stem(Name(pcdPath)) != "" ==> Suffix(Name(LabelPath(labelFolder, pcdPath))) == FILE_ENDING
  {
    var stem := Stem(Name(pcdPath));
    assert Name(LabelPath(labelFolder, pcdPath)) != Name(RelPath(labelFolder, pcdPath)) by {
      assert |stem + FILE_ENDING| != |stem + "_rels" + FILE_ENDING|;
    }
    assert stem + "_rels" + FILE_ENDING == (stem + "_rels") + FILE_ENDING;
    LastDotOfExtension(stem + "_rels", FILE_ENDING);
    LastDotOfExtension(stem, FILE_ENDING);
  }

  /** A point cloud with the empty stem (the name "" of a bare folder or
      root) gets the label file ".json", which has no suffix: it would be
      saved as raw text, not as JSON. */
  lemma EmptyStemLabelHasNoSuffix(labelFolder: Path)
    ensures Suffix(Name(LabelPath(labelFolder, Path(true, [])))) == ""
  {
    assert Stem("") == "";
    assert LastDot(".json") == Some(0) by {
      LastDotOfExtension("", ".json");
    }
  }

  /** The label file of a point cloud named t + "_rels" + ext is the
      relationship file of the point cloud t + ext in the same directory:
      the two names share one path, so saving either overwrites the other. */
  lemma LabelPathMeetsRelPath(labelFolder: Path, dir: Path, t: string, ext: string)
    requires t != "" && |ext| >= 2 && ext[0] == '.'
    requires forall j :: 0 < j < |ext| ==> ext[j] != '.'
    ensures LabelPath(labelFolder, JoinPath(dir, t + "_rels" + ext)) == RelPath(labelFolder, JoinPath(dir, t + ext))
  {
    var relsStem := t + "_rels";
    LastDotOfExtension(relsStem, ext);
    LastDotOfExtension(t, ext);
    assert (relsStem + ext)[..|relsStem|] == relsStem;
    assert (t + ext)[..|t|] == t;
    assert relsStem + FILE_ENDING == t + "_rels" + FILE_ENDING;
  }

  /** The instance "scan_rels.pcd" against "scan.pcd". */
  lemma ScanRelsMeetsScan(labelFolder: Path)
    ensures LabelPath(labelFolder, Path(false, ["scan_rels.pcd"])) == RelPath(labelFolder, Path(false, ["scan.pcd"]))
  {
    assert "scan" + "_rels" + ".pcd" == "scan_rels.pcd";
    assert "scan" + ".pcd" == "scan.pcd";
    assert JoinPath(Path(false, []), "scan_rels.pcd") == Path(false, ["scan_rels.pcd"]);
    assert JoinPath(Path(false, []), "scan.pcd") == Path(false, ["scan.pcd"]);
    LabelPathMeetsRelPath(labelFolder, Path(false, []), "scan", ".pcd");
  }

  // ---------------------------------------------------------------------
  // The label folder
  // ---------------------------------------------------------------------

  /** One `{name, bboxes}` entry of a relationship record. */
  datatype RelEntry = RelEntry(name: string, bboxes: seq<int>)

  /** The dictionary export_rels writes. */
  datatype RelRecord = RelRecord(folder: string, filename: string, path: string, relationships: seq<RelEntry>)

  /** What save_stuff_to_file is given: the relationship dictionary, a
      label dictionary written by a concrete format (not looked into here),
      or a string. */
  datatype Data = Rels(record: RelRecord) | Labels(content: string) | Text(text: string)

  /** A file of the label folder: data dumped as JSON, or raw text. */
  datatype StoredFile = Json(data: Data) | Raw(text: string)

  /** Writing a dictionary to a file without the JSON suffix: after `open`
      has emptied the file, `write` rejects anything but a string. */
  datatype SaveError = NotAString

  /** The label folder after save_stuff_to_file: a ".json" path holds the
      data as JSON, any other path the string, or nothing when the data is
      not a string. */
  function StuffSaved(files: map<Path, StoredFile>, labelPath: Path, data: Data): (r: map<Path, StoredFile>)
    ensures labelPath in r && r.Keys == files.Keys + {labelPath}
    ensures forall p :: p in files && p != labelPath ==> r[p] == files[p]
    ensures Suffix(Name(labelPath)) == ".json" ==> r[labelPath] == Json(data)
  {
    if Suffix(Name(labelPath)) == ".json" then files[labelPath := Json(data)]
    else if data.Text? then files[labelPath := Raw(data.text)]
    else files[labelPath := Raw("")]
  }

  /** What save_stuff_to_file returns: the path, or the error `write` raises. */
  function SaveResult(labelPath: Path, data: Data): (r: Result<Path, SaveError>)
    ensures r.Failure? <==> Suffix(Name(labelPath)) != ".json" && !data.Text?
  {
    if Suffix(Name(labelPath)) != ".json" && !data.Text? then Failure(NotAString) else Success(labelPath)
  }

  /** A relationship as the rest of labelCloud passes it: [first box index,
      second box index, relationship name]. */
  datatype Relation = Relation(first: int, second: int, name: string)

  /** The entries export_rels builds, one per relationship, in order. */
  function Entries(rels: seq<Relation>): (es: seq<RelEntry>)
    ensures |es| == |rels|
    ensures forall i :: 0 <= i < |rels| ==>
      es[i].name == rels[i].name && es[i].bboxes == [rels[i].first, rels[i].second]
  {
    seq(|rels|, i requires 0 <= i < |rels| => RelEntry(rels[i].name, [rels[i].first, rels[i].second]))
  }

  /** The record export_rels writes for a point cloud: its folder's name,
      its own name, its full path, and the entries. */
  function RelRecordFor(rels: seq<Relation>, pcdPath: Path): RelRecord
  {
    RelRecord(ParentName(pcdPath), Name(pcdPath), PathString(pcdPath), Entries(rels))
  }

  /** export_rels: the label folder with the relationship file written. */
  function Exported(files: map<Path, StoredFile>, labelFolder: Path, rels: seq<Relation>, pcdPath: Path): map<Path, StoredFile>
  {
    StuffSaved(files, RelPath(labelFolder, pcdPath), Rels(RelRecordFor(rels, pcdPath)))
  }

  /** Why import_rels can fail on an existing file: the file is not a
      relationship dictionary, or an entry has fewer than two box indices. */
  datatype ImportError = NotARelationshipRecord | TooFewBoxes(entry: nat)

  /** The loop of import_rels over the stored entries: [bboxes[0], bboxes[1],
      name] for each, failing at the first entry with fewer than two boxes. */
  function DecodeEntries(es: seq<RelEntry>): (r: Result<seq<Relation>, ImportError>)
    ensures r.Success? ==> |r.value| == |es|
    ensures r.Success? ==> forall i :: 0 <= i < |es| ==>
      |es[i].bboxes| >= 2 && r.value[i] == Relation(es[i].bboxes[0], es[i].bboxes[1], es[i].name)
    ensures r.Failure? ==> r.error.TooFewBoxes? && r.error.entry < |es| && |es[r.error.entry].bboxes| < 2
    ensures r.Failure? ==> forall i :: 0 <= i < r.error.entry ==> |es[i].bboxes| >= 2
    ensures (forall i :: 0 <= i < |es| ==> |es[i].bboxes| >= 2) ==> r.Success?
  {
    if |es| == 0 then Success([])
    else
      match DecodeEntries(es[..|es| - 1])
      case Failure(e) => Failure(e)
      case Success(prefix) =>
        var last := es[|es| - 1];
        if |last.bboxes| < 2 then Failure(TooFewBoxes(|es| - 1))
        else Success(prefix + [Relation(last.bboxes[0], last.bboxes[1], last.name)])
  }

  /** One more entry of import_rels's loop: it is appended when it has two
      boxes, and otherwise decoding fails at it. */
  lemma DecodeNext(es: seq<RelEntry>, i: nat, rels: seq<Relation>)
    requires i < |es| && DecodeEntries(es[..i]) == Success(rels)
    ensures |es[i].bboxes| >= 2 ==>
      DecodeEntries(es[..i + 1]) == Success(rels + [Relation(es[i].bboxes[0], es[i].bboxes[1], es[i].name)])
    ensures |es[i].bboxes| < 2 ==> DecodeEntries(es[..i + 1]) == Failure(TooFewBoxes(i))
  {
    assert es[..i + 1][..i] == es[..i];
  }

  /** import_rels: no file gives no relationships; a relationship record gives
      its decoded entries; anything else is an error. */
  function ImportedRelations(files: map<Path, StoredFile>, labelFolder: Path, pcdPath: Path): Result<seq<Relation>, ImportError>
  {
    var labelPath := RelPath(labelFolder, pcdPath);
    if labelPath !in files then Success([])
    else
      match files[labelPath]
      case Json(Rels(record)) => DecodeEntries(record.relationships)
      case _ => Failure(NotARelationshipRecord)
  }

  /** The first k entries of what export_rels writes are the entries of the
      first k relationships. */
  lemma EntriesPrefix(rels: seq<Relation>, k: nat)
    requires k <= |rels|
    ensures Entries(rels)[..k] == Entries(rels[..k])
  {
  }

  /** Decoding the entries written for a list of relationships gives that
      list back, in order. */
  lemma {:induction false} DecodeEntriesOfEntries(rels: seq<Relation>)
    ensures DecodeEntries(Entries(rels)) == Success(rels)
    decreases |rels|
  {
    if |rels| > 0 {
      var k := |rels| - 1;
      EntriesPrefix(rels, k);
      DecodeEntriesOfEntries(rels[..k]);
      assert rels[..k] + [rels[k]] == rels;
    }
  }

  /** Once an entry fails to decode, decoding stops there: every longer
      list of entries fails with the same error. */
  lemma {:induction false} DecodeFailureStops(es: seq<RelEntry>, k: nat)
    requires k <= |es| && DecodeEntries(es[..k]).Failure?
    ensures DecodeEntries(es) == DecodeEntries(es[..k])
    decreases |es| - k
  {
    if k < |es| {
      assert es[..k + 1][..k] == es[..k];
      assert DecodeEntries(es[..k + 1]) == DecodeEntries(es[..k]);
      DecodeFailureStops(es, k + 1);
    } else {
      assert es[..k] == es;
    }
  }

  /** Importing what export_rels wrote for a point cloud returns the
      exported relationships, in the same order. */
  lemma ExportThenImport(files: map<Path, StoredFile>, labelFolder: Path, rels: seq<Relation>, pcdPath: Path)
    ensures ImportedRelations(Exported(files, labelFolder, rels, pcdPath), labelFolder, pcdPath) == Success(rels)
  {
    LabelAndRelPaths(labelFolder, pcdPath);
    DecodeEntriesOfEntries(rels);
  }

  /** export_rels writes only the relationship file of its point cloud: the
      label file and every other file are as they were. */
  lemma ExportTouchesOnlyRelFile(files: map<Path, StoredFile>, labelFolder: Path, rels: seq<Relation>, pcdPath: Path)
    ensures var r := Exported(files, labelFolder, rels, pcdPath);
      && r.Keys == files.Keys + {RelPath(labelFolder, pcdPath)}
      && (forall p :: p in files && p != RelPath(labelFolder, pcdPath) ==> r[p] == files[p])
      && (LabelPath(labelFolder, pcdPath) in files ==>
            r[LabelPath(labelFolder, pcdPath)] == files[LabelPath(labelFolder, pcdPath)])
  {
    LabelAndRelPaths(labelFolder, pcdPath);
  }

  /** A second export replaces the first: only the latest relationships are
      imported. */
  lemma ExportReplaces(files: map<Path, StoredFile>, labelFolder: Path, first: seq<Relation>, second: seq<Relation>, pcdPath: Path)
    ensures Exported(Exported(files, labelFolder, first, pcdPath), labelFolder, second, pcdPath) ==
      Exported(files, labelFolder, second, pcdPath)
  {
  }

  /** The point cloud's header fields in the written record. */
  lemma RecordHeader(rels: seq<Relation>, dir: seq<string>, folder: string, name: string)
    ensures var r := RelRecordFor(rels, Path(true, dir + [folder, name]));
      && r.folder == folder && r.filename == name
      && r.path == PathString(Path(true, dir + [folder])) + "/" + name
  {
    var parts := dir + [folder, name];
    assert parts[..|parts| - 1] == dir + [folder];
    assert JoinParts(parts) == JoinParts(dir + [folder]) + "/" + name;
  }

  // ---------------------------------------------------------------------
  // The label format objects
  // ---------------------------------------------------------------------

  /** The label folder on disk. */
  class LabelFolder {
    var files: map<Path, StoredFile>

    constructor (files: map<Path, StoredFile>)
      ensures this.files == files
    {
      this.files := files;
    }
  }

  /** BaseLabelFormat: the settings shared by the concrete label formats. */
  class LabelFormat {
    var labelFolder: Path
    const exportPrecision: int
    const relativeRotation: bool
    const fileEnding: string

    constructor (labelFolder: Path, exportPrecision: int, relativeRotation: bool := false)
      ensures this.labelFolder == labelFolder
      ensures this.exportPrecision == exportPrecision && this.relativeRotation == relativeRotation
      ensures fileEnding == FILE_ENDING
    {
      this.labelFolder := labelFolder;
      this.exportPrecision := exportPrecision;
      this.relativeRotation := relativeRotation;
      fileEnding := ".json";
    }

    method UpdateLabelFolder(newLabelFolder: Path)
      modifies this
      ensures labelFolder == newLabelFolder
    {
      labelFolder := newLabelFolder;
    }

    method SaveStuffToFile(folder: LabelFolder, labelPath: Path, data: Data) returns (r: Result<Path, SaveError>)
      modifies folder
      ensures folder.files == StuffSaved(old(folder.files), labelPath, data)
      ensures r == SaveResult(labelPath, data)
    {
      if Suffix(Name(labelPath)) == ".json" {
        folder.files := folder.files[labelPath := Json(data)];
        r := Success(labelPath);
      } else {
        folder.files := folder.files[labelPath := Raw("")];
        if data.Text? {
          folder.files := folder.files[labelPath := Raw(data.text)];
          r := Success(labelPath);
        } else {
          r := Failure(NotAString);
        }
      }
    }

    method SaveLabelToFile(folder: LabelFolder, pcdPath: Path, data: Data) returns (r: Result<Path, SaveError>)
      modifies folder
      ensures folder.files == StuffSaved(old(folder.files), LabelPath(labelFolder, pcdPath), data)
      ensures r == SaveResult(LabelPath(labelFolder, pcdPath), data)
    {
      var labelPath := JoinPath(labelFolder, Stem(Name(pcdPath)) + FILE_ENDING);
      r := SaveStuffToFile(folder, labelPath, data);
    }

    method SaveRelToFile(folder: LabelFolder, pcdPath: Path, data: Data) returns (r: Result<Path, SaveError>)
      modifies folder
      ensures folder.files == StuffSaved(old(folder.files), RelPath(labelFolder, pcdPath), data)
      ensures r == SaveResult(RelPath(labelFolder, pcdPath), data)
    {
      var labelPath := JoinPath(labelFolder, Stem(Name(pcdPath)) + "_rels" + FILE_ENDING);
      r := SaveStuffToFile(folder, labelPath, data);
    }

    method ExportRels(folder: LabelFolder, rels: seq<Relation>, pcdPath: Path)
      modifies folder
      ensures folder.files == Exported(old(folder.files), labelFolder, rels, pcdPath)
    {
      var relationships: seq<RelEntry> := [];
      for i := 0 to |rels|
        invariant relationships == Entries(rels[..i])
      {
        var rel := rels[i];
        relationships := relationships + [RelEntry(rel.name, [rel.first, rel.second])];
      }
      assert rels[..|rels|] == rels;
      var data := RelRecord(ParentName(pcdPath), Name(pcdPath), PathString(pcdPath), relationships);
      var labelPath := SaveRelToFile(folder, pcdPath, Rels(data));
    }

    method ImportRels(folder: LabelFolder, pcdPath: Path) returns (r: Result<seq<Relation>, ImportError>)
      ensures r == ImportedRelations(folder.files, labelFolder, pcdPath)
    {
      var rels: seq<Relation> := [];
      var labelPath := JoinPath(labelFolder, Stem(Name(pcdPath)) + "_rels" + FILE_ENDING);
      if labelPath in folder.files {
        match folder.files[labelPath]
        case Json(Rels(record)) =>
          var es := record.relationships;
          for i := 0 to |es|
            invariant DecodeEntries(es[..i]) == Success(rels)
          {
            DecodeNext(es, i, rels);
            if |es[i].bboxes| < 2 {
              DecodeFailureStops(es, i + 1);
              return Failure(TooFewBoxes(i));
            }
            rels := rels + [Relation(es[i].bboxes[0], es[i].bboxes[1], es[i].name)];
          }
          assert es[..|es|] == es;
        case _ =>
          return Failure(NotARelationshipRecord);
      }
      r := Success(rels);
    }
  }

  /** Exporting through a format and importing through the same format gives
      the relationships back. */
  method ExportImportRoundTrip(format: LabelFormat, folder: LabelFolder, rels: seq<Relation>, pcdPath: Path)
    returns (imported: Result<seq<Relation>, ImportError>)
    modifies folder
    ensures imported == Success(rels)
  {
    format.ExportRels(folder, rels, pcdPath);
    imported := format.ImportRels(folder, pcdPath);
    ExportThenImport(old(folder.files), format.labelFolder, rels, pcdPath);
  }

  // ---------------------------------------------------------------------
  // Rotation modes
  // ---------------------------------------------------------------------

  /** np.pi, written as its shortest decimal form 3.141592653589793. */
  const PI: real := 3.141592653589793

  /** abs2rel_rotation: degrees to radians, then into (-pi, pi]. */
  function Abs2RelRotation(absRotation: real): (r: real)
    ensures 0.0 <= absRotation < 360.0 ==> -PI < r <= PI
  {
    var relRotation := absRotation * (PI / 180.0);
    if relRotation > PI then relRotation - 2.0 * PI else relRotation
  }

  /** rel2abs_rotation: radians to degrees, then into [0, 360). */
  function Rel2AbsRotation(relRotation: real): (r: real)
    ensures -PI < relRotation <= PI ==> 0.0 <= r < 360.0
  {
    var absRotation := relRotation * (180.0 / PI);
    if absRotation < 0.0 then absRotation + 360.0 else absRotation
  }

  /** The conversions are inverse on their ranges. */
  lemma RotationRoundTrips(d: real, r: real)
    ensures 0.0 <= d < 360.0 ==> Rel2AbsRotation(Abs2RelRotation(d)) == d
    ensures -PI < r <= PI ==> Abs2RelRotation(Rel2AbsRotation(r)) == r
  {
  }
}

/** The crop-detection service: naming of stored uploads, class-name
    normalisation, the report collection (insert, delete, update) and the
    image endpoint's filename check and media type. Inference itself is an
    input: the class index and the rounded confidence, or a failure. */
module DetectionService {
  import opened Wrappers
  import opened Text
  import opened Json
  import opened DiseaseInfo

  const UploadDir := "uploads"
  const UpdatedMessage := "Report updated successfully"
  const NoChangeError := "Update failed or no changes made"
  const SaveFailedError := "Failed to save uploaded image"
  const NoInfoError := "No disease info available."
  /** The store's error for an update that sets no field. */
  const EmptySetError := "'$set' is empty. You must specify a field like so: {$set: {<field>: ...}}"
  /** Stands for the store's error for a field name `$set` refuses; the exact
      text, which names the field, is not reproduced. */
  const FieldRefusedError := "field name refused by the store"
  /** The field every stored document has and no update may change. */
  const ImmutableField := "_id"

  /** The model's output classes, the dictionary keyed 0 to 6 written as a list. */
  const ClassNames: seq<string> :=
    ["Blight", "Common_Rust", "Gray_Leaf_Spot", "Healthy", "MLN", "FAW", "Maize_Streak"]

  /** `class_names.get(index, "Unknown")`. */
  function RawClassName(index: int): string
  {
    if 0 <= index < |ClassNames| then ClassNames[index] else "Unknown"
  }

  /** The display name: underscores become spaces, then Python's `title()`. */
  function PredictedClass(index: int): string
  {
    Title(Replace(RawClassName(index), '_', ' '))
  }

  /** The seven display names, including the re-cased acronyms "Mln" and "Faw". */
  lemma PredictedClassNames()
    ensures PredictedClass(0) == "Blight"
    ensures PredictedClass(1) == "Common Rust"
    ensures PredictedClass(2) == "Gray Leaf Spot"
    ensures PredictedClass(3) == "Healthy"
    ensures PredictedClass(4) == "Mln"
    ensures PredictedClass(5) == "Faw"
    ensures PredictedClass(6) == "Maize Streak"
  {
    ShownBlight();
    ShownCommonRust();
    ShownGrayLeafSpot();
    ShownHealthy();
    ShownMln();
    ShownFaw();
    ShownMaizeStreak();
  }

  /** Any other index is reported as "Unknown". */
  lemma UnknownClass(index: int)
    requires !(0 <= index < 7)
    ensures PredictedClass(index) == "Unknown"
  {
    assert Replace("Unknown", '_', ' ') == "Unknown";
    TitleAt("Unknown");
  }

  /** Class 0, `Blight`, is shown as "Blight". */
  lemma ShownBlight()
    ensures PredictedClass(0) == "Blight"
  {
    assert Replace("Blight", '_', ' ') == "Blight";
    TitleAt("Blight");
  }

  /** Class 1, `Common_Rust`, is shown as "Common Rust". */
  lemma ShownCommonRust()
    ensures PredictedClass(1) == "Common Rust"
  {
    assert Replace("Common_Rust", '_', ' ') == "Common Rust";
    var s := "Common Rust";
    forall i | 0 <= i < |s|
      ensures TitleChar(s, i) == s[i]
    {
      // One case per position, so each character of the literal is checked on its own.
      if i == 0 {} else if i == 1 {} else if i == 2 {} else if i == 3 {} else if i == 4 {} else
      if i == 5 {} else if i == 6 {} else if i == 7 {} else if i == 8 {} else if i == 9 {} else {}
    }
    TitleFixed(s);
  }

  /** Class 2, `Gray_Leaf_Spot`, is shown as "Gray Leaf Spot". */
  lemma ShownGrayLeafSpot()
    ensures PredictedClass(2) == "Gray Leaf Spot"
  {
    assert Replace("Gray_Leaf_Spot", '_', ' ') == "Gray Leaf Spot";
    var s := "Gray Leaf Spot";
    forall i | 0 <= i < |s|
      ensures TitleChar(s, i) == s[i]
    {
      // One case per position, so each character of the literal is checked on its own.
      if i == 0 {} else if i == 1 {} else if i == 2 {} else if i == 3 {} else if i == 4 {} else
      if i == 5 {} else if i == 6 {} else if i == 7 {} else if i == 8 {} else if i == 9 {} else
      if i == 10 {} else if i == 11 {} else if i == 12 {} else {}
    }
    TitleFixed(s);
  }

  /** Class 3, `Healthy`, is shown as "Healthy". */
  lemma ShownHealthy()
    ensures PredictedClass(3) == "Healthy"
  {
    assert Replace("Healthy", '_', ' ') == "Healthy";
    TitleAt("Healthy");
  }

  /** Class 4, `MLN`, is shown as "Mln". */
  lemma ShownMln()
    ensures PredictedClass(4) == "Mln"
  {
    assert Replace("MLN", '_', ' ') == "MLN";
    TitleAt("MLN");
  }

  /** Class 5, `FAW`, is shown as "Faw". */
  lemma ShownFaw()
    ensures PredictedClass(5) == "Faw"
  {
    assert Replace("FAW", '_', ' ') == "FAW";
    TitleAt("FAW");
  }

  /** Class 6, `Maize_Streak`, is shown as "Maize Streak". */
  lemma ShownMaizeStreak()
    ensures PredictedClass(6) == "Maize Streak"
  {
    assert Replace("Maize_Streak", '_', ' ') == "Maize Streak";
    var s := "Maize Streak";
    forall i | 0 <= i < |s|
      ensures TitleChar(s, i) == s[i]
    {
      // One case per position, so each character of the literal is checked on its own.
      if i == 0 {} else if i == 1 {} else if i == 2 {} else if i == 3 {} else if i == 4 {} else
      if i == 5 {} else if i == 6 {} else if i == 7 {} else if i == 8 {} else if i == 9 {} else
      if i == 10 {} else {}
    }
    TitleFixed(s);
  }

  /** Every model class has a table entry, so only an index outside 0..6 (the
      name "Unknown") lacks disease information. */
  lemma PredictedClassHasInfo(index: int)
    ensures PredictedClass(index) in DiseaseData <==> 0 <= index < 7
  {
    if 0 <= index < 7 {
      KnownClassHasInfo(index);
    } else {
      UnknownClass(index);
      UnknownHasNoInfo();
    }
  }

  /** Each of the seven classes is shown under a name the table has. */
  lemma KnownClassHasInfo(index: int)
    requires 0 <= index < 7
    ensures PredictedClass(index) in DiseaseData
  {
    if index == 0 {
      ShownBlight();
    } else if index == 1 {
      ShownCommonRust();
    } else if index == 2 {
      ShownGrayLeafSpot();
    } else if index == 3 {
      ShownHealthy();
    } else if index == 4 {
      ShownMln();
    } else if index == 5 {
      ShownFaw();
    } else {
      ShownMaizeStreak();
    }
  }

  /** The table has no entry named "Unknown". */
  lemma UnknownHasNoInfo()
    ensures "Unknown" !in DiseaseData
  {
  }

  // ---------------------------------------------------------------------------
  // Stored file names and the image endpoint

  /** The extension kept for a stored upload: the text after the last '.', or
      "jpg" for a name without one. */
  function UploadExtension(filename: string): (ext: string)
    ensures '.' !in ext
    ensures '.' !in filename ==> ext == "jpg"
    ensures '.' in filename ==> |ext| < |filename| && filename == filename[..|filename| - |ext| - 1] + "." + ext
  {
    if '.' in filename then
      var ext := LastSegment(filename, '.');
      assert |ext| < |filename|;
      assert filename == filename[..|filename| - |ext| - 1] + [filename[|filename| - |ext| - 1]] + ext;
      ext
    else "jpg"
  }

  /** The stored name: a fresh hex id, '.', and the original's extension. */
  function StoredName(hex: string, filename: string): string
  {
    hex + "." + UploadExtension(filename)
  }

  /** `os.path.join(dir, name)`. */
  function JoinPath(dir: string, name: string): string
  {
    dir + "/" + name
  }

  /** `os.path.basename(path)`. */
  function Basename(path: string): string
  {
    LastSegment(path, '/')
  }

  /** The stored name keeps the original extension, and `image_filename`
      (the basename of the stored path) is the stored name itself when the id
      and extension contain no '/'. */
  lemma StoredNameRoundTrip(hex: string, filename: string)
    ensures LastSegment(StoredName(hex, filename), '.') == UploadExtension(filename)
    ensures '/' !in hex && '/' !in UploadExtension(filename) ==>
      Basename(JoinPath(UploadDir, StoredName(hex, filename))) == StoredName(hex, filename)
  {
    LastSegmentOfJoin(hex, '.', UploadExtension(filename));
    var name := StoredName(hex, filename);
    if '/' !in hex && '/' !in UploadExtension(filename) {
      assert '/' !in name by {
        assert forall i :: 0 <= i < |name| ==> name[i] in hex || name[i] == '.' || name[i] in UploadExtension(filename);
      }
      LastSegmentOfJoin(UploadDir, '/', name);
    }
  }

  /** The media types by lower-cased extension. */
  const MediaTypes: map<string, string> := map[
    "jpg" := "image/jpeg", "jpeg" := "image/jpeg", "png" := "image/png",
    "gif" := "image/gif", "webp" := "image/webp", "bmp" := "image/bmp"]

  /** The media type served for a file name; unknown extensions are served as JPEG. */
  function MediaType(filename: string): (t: string)
    ensures t in {"image/jpeg", "image/png", "image/gif", "image/webp", "image/bmp"}
    ensures Lower(LastSegment(filename, '.')) !in MediaTypes ==> t == "image/jpeg"
    ensures Lower(LastSegment(filename, '.')) in MediaTypes ==> t == MediaTypes[Lower(LastSegment(filename, '.'))]
  {
    var ext := Lower(LastSegment(filename, '.'));
    MediaTypesImages();
    if ext in MediaTypes then MediaTypes[ext] else "image/jpeg"
  }

  /** Every entry of the map is one of the five image types. */
  lemma MediaTypesImages()
    ensures forall e :: e in MediaTypes ==> MediaTypes[e] in {"image/jpeg", "image/png", "image/gif", "image/webp", "image/bmp"}
  {
  }

  /** A stored upload is served with the media type of its original name,
      whatever letter case the extension had. */
  lemma MediaTypeOfStored(hex: string, filename: string)
    requires '.' in filename
    ensures MediaType(StoredName(hex, filename)) == MediaType(filename)
    ensures Lower(LastSegment(filename, '.')) == "png" ==> MediaType(StoredName(hex, filename)) == "image/png"
  {
    StoredNameRoundTrip(hex, filename);
    MediaTypePng(filename);
  }

  /** A ".png" name, in any letter case, is served as PNG. */
  lemma MediaTypePng(filename: string)
    ensures Lower(LastSegment(filename, '.')) == "png" ==> MediaType(filename) == "image/png"
  {
  }

  /** A name that could leave the upload folder. */
  predicate Unsafe(filename: string)
  {
    Contains(filename, "..") || '/' in filename || '\\' in filename
  }

  datatype ImageReply = BadRequest | NotFound | Serve(path: string, mediaType: string)

  /** `get_image`: 400 for an unsafe name before any lookup, 404 for a missing
      file, otherwise the file under the upload folder with its media type. */
  function GetImage(filename: string, files: set<string>): (r: ImageReply)
    ensures r == BadRequest <==> Unsafe(filename)
    ensures r == NotFound <==> !Unsafe(filename) && JoinPath(UploadDir, filename) !in files
    ensures r.Serve? ==>
      && r.path in files
      && r.path == JoinPath(UploadDir, filename)
      && Basename(r.path) == filename
      && r.mediaType == MediaType(filename)
  {
    if Unsafe(filename) then BadRequest
    else
      var path := JoinPath(UploadDir, filename);
      LastSegmentOfJoin(UploadDir, '/', filename);
      if path in files then Serve(path, MediaType(filename)) else NotFound
  }

  /** The answer to an unsafe name does not depend on the files at all. */
  lemma UnsafeNeverLooksUp(filename: string, files1: set<string>, files2: set<string>)
    requires Contains(filename, "..") || '/' in filename || '\\' in filename
    ensures GetImage(filename, files1) == GetImage(filename, files2) == BadRequest
  {
  }

  // ---------------------------------------------------------------------------
  // The report collection

  /** The collection of detection reports (without their `_id`, which is the
      key), the files on disk and the next fresh id. */
  datatype Detections = Detections(reports: map<nat, Document>, files: set<string>, nextId: nat)
  {
    ghost predicate Valid()
    {
      forall id :: id in reports ==> id < nextId
    }
  }

  /** What inference produced: the class index and the rounded confidence. */
  datatype Inference = Inference(index: int, confidence: real)

  datatype PredictReply =
    | SaveFailed
    | InferenceFailed
    | NoInfo(predictedClass: string, confidence: real)
    | Detected(record: Document)

  /** A list of strings as a JSON array, element by element. */
  function Strings(items: seq<string>): (r: seq<Value>)
    ensures |r| == |items|
    ensures forall i :: 0 <= i < |items| ==> r[i] == Str(items[i])
  {
    seq(|items|, i requires 0 <= i < |items| => Str(items[i]))
  }

  /** The record `predict` inserts. */
  function DetectionRecord(cls: string, confidence: real, info: Disease, path: string,
                           originalName: string, timestamp: int): Document
  {
    map[
      "predicted_class" := Str(cls),
      "confidence" := Num(confidence),
      "category" := Str(info.category),
      "part_scanned" := Str(info.partScanned),
      "symptoms" := Str(info.symptoms),
      "treatment" := Arr(Strings(info.treatment)),
      "prevention" := Arr(Strings(info.prevention)),
      "image_path" := Str(path),
      "image_filename" := Str(Basename(path)),
      "original_filename" := Str(originalName),
      "timestamp" := Date(timestamp)]
  }

  /** `predict`: the upload is saved first (`saved` is whether the write
      succeeds), then classified; a record is inserted only for a class that
      has disease information, and it is returned with its id as a string. */
  function PredictStep(s: Detections, originalName: string, hex: string, saved: bool,
                       inference: Option<Inference>, timestamp: int): (Detections, PredictReply)
  {
    var path := JoinPath(UploadDir, StoredName(hex, originalName));
    if !saved then (s, SaveFailed)
    else
      var s1 := s.(files := s.files + {path});
      match inference
      case None => (s1, InferenceFailed)
      case Some(Inference(index, confidence)) =>
        var cls := PredictedClass(index);
        if cls !in DiseaseData then (s1, NoInfo(cls, confidence))
        else
          var record := DetectionRecord(cls, confidence, DiseaseData[cls], path, originalName, timestamp);
          (s1.(reports := s.reports[s.nextId := record], nextId := s.nextId + 1),
           Detected(record["_id" := Str(NatToString(s.nextId))]))
  }

  /** A detection's fields as built from the class, the table entry and the upload. */
  lemma RecordFields(cls: string, confidence: real, info: Disease, path: string, originalName: string, timestamp: int)
    ensures var r := DetectionRecord(cls, confidence, info, path, originalName, timestamp);
      && "_id" !in r
      && r["predicted_class"] == Str(cls)
      && r["category"] == Str(info.category)
      && r["part_scanned"] == Str(info.partScanned)
      && r["symptoms"] == Str(info.symptoms)
      && r["treatment"] == Arr(Strings(info.treatment))
      && r["prevention"] == Arr(Strings(info.prevention))
      && r["image_path"] == Str(path)
      && r["image_filename"] == Str(Basename(path))
  {
    RecordLayout(Str(cls), Num(confidence), Str(info.category), Str(info.partScanned), Str(info.symptoms),
                 Arr(Strings(info.treatment)), Arr(Strings(info.prevention)), Str(path), Str(Basename(path)),
                 Str(originalName), Date(timestamp));
  }

  /** The record's keys, whatever their values. */
  lemma RecordLayout(cls: Value, confidence: Value, category: Value, part: Value, symptoms: Value,
                     treatment: Value, prevention: Value, path: Value, filename: Value,
                     originalName: Value, timestamp: Value)
    ensures var r := map[
        "predicted_class" := cls, "confidence" := confidence, "category" := category,
        "part_scanned" := part, "symptoms" := symptoms, "treatment" := treatment,
        "prevention" := prevention, "image_path" := path, "image_filename" := filename,
        "original_filename" := originalName, "timestamp" := timestamp];
      && "_id" !in r
      && r["predicted_class"] == cls && r["category"] == category && r["part_scanned"] == part
      && r["symptoms"] == symptoms && r["treatment"] == treatment && r["prevention"] == prevention
      && r["image_path"] == path && r["image_filename"] == filename
  {
  }

  /** `predict` keeps the collection valid; a failed save changes nothing, any
      other outcome has stored the upload, and without disease information
      nothing is inserted and the class is "Unknown". */
  lemma PredictEffect(s: Detections, originalName: string, hex: string, saved: bool,
                      inference: Option<Inference>, timestamp: int)
    requires s.Valid()
    ensures var (s', reply) := PredictStep(s, originalName, hex, saved, inference, timestamp);
      && s'.Valid()
      && (reply.SaveFailed? <==> !saved)
      && (reply.SaveFailed? ==> s' == s)
      && (!reply.SaveFailed? ==> s'.files == s.files + {JoinPath(UploadDir, StoredName(hex, originalName))})
      && (reply.InferenceFailed? ==> s'.reports == s.reports)
      && (reply.NoInfo? ==> s'.reports == s.reports && reply.predictedClass == "Unknown")
  {
    if saved && inference.Some? {
      PredictedClassHasInfo(inference.value.index);
      if PredictedClass(inference.value.index) !in DiseaseData {
        UnknownClass(inference.value.index);
      }
    }
  }

  /** A detection happens exactly for a saved upload whose class index is one of
      the model's seven; the record goes in under a fresh id, no other record
      changes, and the reply is that record with its id. */
  lemma PredictInserts(s: Detections, originalName: string, hex: string, saved: bool,
                       inference: Option<Inference>, timestamp: int)
    requires s.Valid()
    ensures var (s', reply) := PredictStep(s, originalName, hex, saved, inference, timestamp);
      && (reply.Detected? <==> saved && inference.Some? && 0 <= inference.value.index < 7)
      && (reply.Detected? ==>
            && s.nextId !in s.reports
            && s'.nextId == s.nextId + 1
            && s'.reports == s.reports[s.nextId := s'.reports[s.nextId]]
            && reply.record == s'.reports[s.nextId]["_id" := Str(NatToString(s.nextId))])
  {
    if saved && inference.Some? {
      PredictedClassHasInfo(inference.value.index);
    }
  }

  /** The detected record is the one built from the table entry of its class
      and the stored upload (whose fields `RecordFields` lists), with its id. */
  lemma PredictRecord(s: Detections, originalName: string, hex: string, saved: bool,
                      inference: Option<Inference>, timestamp: int)
    ensures var (s', reply) := PredictStep(s, originalName, hex, saved, inference, timestamp);
      reply.Detected? ==>
        var cls := PredictedClass(inference.value.index);
        && cls in DiseaseData
        && reply.record == DetectionRecord(cls, inference.value.confidence, DiseaseData[cls],
                                           JoinPath(UploadDir, StoredName(hex, originalName)),
                                           originalName, timestamp)["_id" := Str(NatToString(s.nextId))]
        && reply.record["_id"] == Str(NatToString(s.nextId))
  {
  }

  datatype DeleteReply = DeleteResult(deleted: bool) | DeleteError

  /** `delete_report`: the recorded image file is removed if it exists, then
      the record; `deleted` tells whether a record was removed. A recorded
      path that is not a string makes the lookup fail before anything changes,
      and so does an `os.remove` that raises (`removeOk` false): the error is
      answered and the record stays. */
  function DeleteStep(s: Detections, id: nat, removeOk: bool): (Detections, DeleteReply)
  {
    if id in s.reports && "image_path" in s.reports[id] && !s.reports[id]["image_path"].Str? then
      (s, DeleteError)
    else if id in s.reports && "image_path" in s.reports[id] && s.reports[id]["image_path"].s in s.files && !removeOk then
      (s, DeleteError)
    else
      var files :=
        if id in s.reports && "image_path" in s.reports[id] then s.files - {s.reports[id]["image_path"].s}
        else s.files;
      (s.(reports := s.reports - {id}, files := files), DeleteResult(id in s.reports))
  }

  /** Whether the record's image file exists and is therefore removed. */
  predicate RemovesFile(s: Detections, id: nat)
  {
    id in s.reports && "image_path" in s.reports[id] && s.reports[id]["image_path"].Str?
    && s.reports[id]["image_path"].s in s.files
  }

  /** Deleting removes exactly that record, reports `deleted` iff it existed,
      and removes no file other than the one the record names; a failed
      removal of the file answers the error and changes nothing. */
  lemma DeleteOutcome(s: Detections, id: nat, removeOk: bool)
    ensures var (s', reply) := DeleteStep(s, id, removeOk);
      && (reply == DeleteResult(true) <==>
            id in s.reports && ("image_path" !in s.reports[id] || s.reports[id]["image_path"].Str?)
            && (removeOk || !RemovesFile(s, id)))
      && (reply == DeleteError <==>
            id in s.reports && "image_path" in s.reports[id]
            && (!s.reports[id]["image_path"].Str? || (RemovesFile(s, id) && !removeOk)))
      && (reply.DeleteResult? ==> s'.reports == s.reports - {id})
      && (reply.DeleteError? ==> s' == s)
      && s'.files <= s.files
      && (s'.files != s.files ==>
            RemovesFile(s, id) && removeOk && s'.files == s.files - {s.reports[id]["image_path"].s})
  {
  }

  /** Deleting a record just inserted under the fresh id, whose image is a file
      just stored, gives back the collection and the files as they were before. */
  lemma {:induction false} DeleteInserted(s: Detections, record: Document, path: string)
    requires s.Valid() && path !in s.files
    requires "image_path" in record && record["image_path"] == Str(path)
    ensures DeleteStep(Detections(s.reports[s.nextId := record], s.files + {path}, s.nextId + 1), s.nextId, true) ==
      (Detections(s.reports, s.files, s.nextId + 1), DeleteResult(true))
  {
    assert s.nextId !in s.reports;
    assert s.reports[s.nextId := record] - {s.nextId} == s.reports;
    assert (s.files + {path}) - {path} == s.files;
  }

  /** Deleting a freshly detected report restores the collection and, when the
      stored name was new, the upload folder. */
  lemma {:induction false} PredictThenDelete(s: Detections, originalName: string, hex: string,
                                             inference: Option<Inference>, timestamp: int)
    requires s.Valid() && JoinPath(UploadDir, StoredName(hex, originalName)) !in s.files
    requires PredictStep(s, originalName, hex, true, inference, timestamp).1.Detected?
    ensures var s1 := PredictStep(s, originalName, hex, true, inference, timestamp).0;
      DeleteStep(s1, s.nextId, true) == (Detections(s.reports, s.files, s.nextId + 1), DeleteResult(true))
  {
    var cls := PredictedClass(inference.value.index);
    var info := DiseaseData[cls];
    var path := JoinPath(UploadDir, StoredName(hex, originalName));
    var r := DetectionRecord(cls, inference.value.confidence, info, path, originalName, timestamp);
    assert PredictStep(s, originalName, hex, true, inference, timestamp).0 ==
      Detections(s.reports[s.nextId := r], s.files + {path}, s.nextId + 1);
    RecordFields(cls, inference.value.confidence, info, path, originalName, timestamp);
    DeleteInserted(s, r, path);
  }

  datatype UpdateReply = Message(message: string) | Error(error: string)

  /** A field name the store accepts as an update path: not empty and not
      `$`-prefixed. */
  predicate UpdatePath(key: string)
  {
    key != "" && key[0] != '$'
  }

  /** `update_report`: `$set` the supplied fields on the record. An empty
      `$set` and a refused field name fail whether or not the record exists;
      setting `_id` fails on a record that exists, since the client's JSON
      value never equals the stored ObjectId. The reply is the success message
      iff one record was modified. */
  function UpdateStep(s: Detections, id: nat, data: Document): (Detections, UpdateReply)
  {
    if data == map[] then (s, Error(EmptySetError))
    else if !(forall k :: k in data ==> UpdatePath(k)) then (s, Error(FieldRefusedError))
    else if id !in s.reports then (s, Error(NoChangeError))
    else if ImmutableField in data then (s, Error(FieldRefusedError))
    else
      var updated := s.reports[id] + data;
      (s.(reports := s.reports[id := updated]),
       if updated != s.reports[id] then Message(UpdatedMessage) else Error(NoChangeError))
  }

  /** Whether the store applies the update: the record exists and the fields
      are a non-empty set of accepted paths other than `_id`. */
  predicate UpdateAccepted(s: Detections, id: nat, data: Document)
  {
    && id in s.reports && data != map[] && ImmutableField !in data
    && (forall k :: k in data ==> UpdatePath(k))
  }

  /** Only the supplied fields change, every other record and every file stays,
      and success is reported exactly when the record changed; a refused field
      name is an error that changes nothing. */
  lemma UpdateOutcome(s: Detections, id: nat, data: Document)
    ensures var (s', reply) := UpdateStep(s, id, data);
      && s'.files == s.files && s'.nextId == s.nextId && s'.reports.Keys == s.reports.Keys
      && (forall other :: other in s.reports && other != id ==> s'.reports[other] == s.reports[other])
      && (!UpdateAccepted(s, id, data) ==> s' == s && reply.Error?)
      && (UpdateAccepted(s, id, data) ==>
            && (forall k :: k in data ==> k in s'.reports[id] && s'.reports[id][k] == data[k])
            && (forall k :: k in s.reports[id] && k !in data ==> k in s'.reports[id] && s'.reports[id][k] == s.reports[id][k])
            && s'.reports[id].Keys == s.reports[id].Keys + data.Keys)
      && (reply == Message(UpdatedMessage) <==> UpdateAccepted(s, id, data) && s'.reports[id] != s.reports[id])
      && (reply == Error(FieldRefusedError) <==>
            data != map[] && (!(forall k :: k in data ==> UpdatePath(k)) || (id in s.reports && ImmutableField in data)))
  {
  }

  /** Sending the same update twice: the second one modifies nothing and is
      answered with an error, the failure message when the store applied the
      first. */
  lemma {:induction false} UpdateTwice(s: Detections, id: nat, data: Document)
    requires id in s.reports && data != map[]
    ensures var s1 := UpdateStep(s, id, data).0;
      UpdateStep(s1, id, data).0 == s1 && UpdateStep(s1, id, data).1.Error?
    ensures UpdateAccepted(s, id, data) ==>
      var s1 := UpdateStep(s, id, data).0;
      UpdateStep(s1, id, data) == (s1, Error(NoChangeError))
  {
    if UpdateAccepted(s, id, data) {
      var s1 := UpdateStep(s, id, data).0;
      var doc := s.reports[id] + data;
      assert s1.reports[id] == doc;
      assert doc + data == doc;
      assert s1.reports[id := doc + data] == s1.reports;
    }
  }

  /** Deleting keeps every stored id below the next fresh one. */
  lemma DeleteKeepsValid(s: Detections, id: nat, removeOk: bool)
    requires s.Valid()
    ensures DeleteStep(s, id, removeOk).0.Valid()
    ensures DeleteStep(s, id, removeOk).0.nextId == s.nextId
  {
  }

  /** Updating keeps every stored id below the next fresh one. */
  lemma UpdateKeepsValid(s: Detections, id: nat, data: Document)
    requires s.Valid()
    ensures UpdateStep(s, id, data).0.Valid()
    ensures UpdateStep(s, id, data).0.nextId == s.nextId
  {
  }

  // ---------------------------------------------------------------------------
  // The handlers over the shared collection

  /** The detections collection and the upload folder, updated in place. */
  class DetectionStore {
    var reports: map<nat, Document>
    var files: set<string>
    var nextId: nat

    function State(): Detections
      reads this
    {
      Detections(reports, files, nextId)
    }

    /** Every stored id is below the next fresh one. */
    ghost predicate Valid()
      reads this
    {
      State().Valid()
    }

    constructor ()
      ensures State() == Detections(map[], {}, 0)
      ensures Valid()
    {
      reports, files, nextId := map[], {}, 0;
    }

    /** `predict`. */
    method Predict(originalName: string, hex: string, saved: bool, inference: Option<Inference>, timestamp: int)
      returns (reply: PredictReply)
      requires Valid()
      modifies this
      ensures (State(), reply) == PredictStep(old(State()), originalName, hex, saved, inference, timestamp)
      ensures Valid()
    {
      PredictEffect(State(), originalName, hex, saved, inference, timestamp);
      var filePath := JoinPath(UploadDir, StoredName(hex, originalName));
      if !saved {
        return SaveFailed;
      }
      files := files + {filePath};
      var filenameOnly := Basename(filePath);
      if inference.None? {
        return InferenceFailed;
      }
      var predictedClass := PredictedClass(inference.value.index);
      if predictedClass !in DiseaseData {
        return NoInfo(predictedClass, inference.value.confidence);
      }
      var info := DiseaseData[predictedClass];
      var record := DetectionRecord(predictedClass, inference.value.confidence, info,
                                    filePath, originalName, timestamp);
      var id := nextId;
      reports, nextId := reports[id := record], nextId + 1;
      reply := Detected(record["_id" := Str(NatToString(id))]);
    }

    /** `delete_report`. */
    method DeleteReport(id: nat, removeOk: bool) returns (reply: DeleteReply)
      requires Valid()
      modifies this
      ensures (State(), reply) == DeleteStep(old(State()), id, removeOk)
      ensures Valid()
    {
      DeleteKeepsValid(State(), id, removeOk);
      if id in reports && "image_path" in reports[id] {
        var imagePath := reports[id]["image_path"];
        if !imagePath.Str? {
          return DeleteError;
        }
        if imagePath.s in files {
          if !removeOk {
            return DeleteError;
          }
          files := files - {imagePath.s};
        } else {
          assert files - {imagePath.s} == files;
        }
      }
      var existed := id in reports;
      reports := reports - {id};
      reply := DeleteResult(existed);
    }

    /** `update_report`. */
    method UpdateReport(id: nat, data: Document) returns (reply: UpdateReply)
      requires Valid()
      modifies this
      ensures (State(), reply) == UpdateStep(old(State()), id, data)
      ensures Valid()
    {
      UpdateKeepsValid(State(), id, data);
      if data == map[] {
        return Error(EmptySetError);
      }
      if exists k :: k in data && !UpdatePath(k) {
        return Error(FieldRefusedError);
      }
      if id !in reports {
        return Error(NoChangeError);
      }
      if ImmutableField in data {
        return Error(FieldRefusedError);
      }
      var before := reports[id];
      reports := reports[id := before + data];
      reply := if before + data != before then Message(UpdatedMessage) else Error(NoChangeError);
    }
  }
}

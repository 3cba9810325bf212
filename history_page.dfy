/** The history page: which picture each report card shows, the list after a
    delete, and how many cards are shown. */
module HistoryPage {
  import opened Wrappers
  import opened Text
  import opened Json
  import DetectionService

  /** Where the detection service serves stored uploads. */
  const ImageBase := "http://localhost:8000/image/"

  /** How many cards are shown while the list is collapsed. */
  const CollapsedCount: nat := 3

  /** The picture a card shows: the bundled placeholder or a served upload. */
  datatype ImageSource = Fallback | Remote(url: string)

  /** A field's text when it is a string; any other value counts as absent. */
  function StrField(report: Document, key: string): Option<string>
  {
    if key in report && report[key].Str? then Some(report[key].s) else None
  }

  /** The report's `_id` (absent when it is not a string). */
  function Id(report: Document): Option<string>
  {
    StrField(report, "_id")
  }

  /** The file name taken from a stored path: the last '/'-separated part, or
      the last '\'-separated part when that one is empty. */
  function FileOfPath(path: string): (r: string)
    ensures '/' !in path ==> r == path
    ensures LastSegment(path, '/') != "" ==> r == LastSegment(path, '/')
    ensures path != "" && path[|path| - 1] == '/' ==>
      r == LastSegment(path, '\\') && '\\' !in r && r[|r| - 1] == '/'
    ensures |r| <= |path| && r == path[|path| - |r|..]
    ensures r == "" <==> path == ""
  {
    var slash := LastSegment(path, '/');
    if slash != "" then slash else LastSegment(path, '\\')
  }

  /** `getImageUrl(report)`: a report whose picture already failed shows the
      placeholder; otherwise a non-empty `image_filename` is used, then the file
      name in a non-empty `image_path`, and the placeholder when neither gives
      a name. */
  function ImageUrl(report: Document, imageErrors: set<Option<string>>): (r: ImageSource)
    ensures Id(report) in imageErrors ==> r == Fallback
    ensures Id(report) !in imageErrors && StrField(report, "image_filename").GetOr("") != "" ==>
      r == Remote(ImageBase + StrField(report, "image_filename").value)
    ensures r.Remote? ==> exists name :: name != "" && r == Remote(ImageBase + name)
    ensures r == Fallback <==>
      Id(report) in imageErrors ||
      (StrField(report, "image_filename").GetOr("") == "" && FileOfPath(StrField(report, "image_path").GetOr("")) == "")
  {
    if Id(report) in imageErrors then Fallback
    else
      var filename := StrField(report, "image_filename").GetOr("");
      if filename != "" then Remote(ImageBase + filename)
      else
        var path := StrField(report, "image_path").GetOr("");
        if path != "" && FileOfPath(path) != "" then Remote(ImageBase + FileOfPath(path))
        else Fallback
  }

  /** A path without '/' is used whole, and a Windows path with a trailing
      part after its last '\' gives that part. */
  lemma PathFallback(report: Document, imageErrors: set<Option<string>>, path: string)
    requires Id(report) !in imageErrors && StrField(report, "image_filename").GetOr("") == ""
    requires StrField(report, "image_path") == Some(path) && path != ""
    ensures '/' !in path ==> ImageUrl(report, imageErrors) == Remote(ImageBase + path)
    ensures LastSegment(path, '/') != "" ==> ImageUrl(report, imageErrors) == Remote(ImageBase + LastSegment(path, '/'))
    ensures path[|path| - 1] == '/' ==> ImageUrl(report, imageErrors) == Remote(ImageBase + LastSegment(path, '\\'))
  {
  }

  /** A card for a record the detection service stored shows that record's
      upload, under the name the image endpoint serves it by. */
  lemma DetectedRecordShowsUpload(record: Document, files: set<string>, imageErrors: set<Option<string>>, name: string)
    requires Id(record) !in imageErrors
    requires "image_filename" in record && record["image_filename"] == Str(name) && name != ""
    requires !DetectionService.Unsafe(name) && DetectionService.JoinPath(DetectionService.UploadDir, name) in files
    ensures ImageUrl(record, imageErrors) == Remote(ImageBase + name)
    ensures DetectionService.GetImage(name, files).Serve?
  {
  }

  /** `prev.filter(r => r._id !== id)`. */
  function WithoutId(reports: seq<Document>, id: string): (r: seq<Document>)
    ensures |r| <= |reports|
    ensures forall i :: 0 <= i < |r| ==> Id(r[i]) != Some(id)
  {
    if reports == [] then []
    else (if Id(reports[0]) == Some(id) then [] else [reports[0]]) + WithoutId(reports[1..], id)
  }

  /** The filter keeps order: filtering a concatenation filters each part. */
  lemma {:induction false} WithoutIdAppend(a: seq<Document>, b: seq<Document>, id: string)
    ensures WithoutId(a + b, id) == WithoutId(a, id) + WithoutId(b, id)
  {
    if a != [] {
      assert (a + b)[0] == a[0] && (a + b)[1..] == a[1..] + b;
      WithoutIdAppend(a[1..], b, id);
    } else {
      assert a + b == b;
    }
  }

  /** A list without that id is kept whole, and every report with another id
      survives. */
  lemma {:induction false} WithoutIdKeeps(reports: seq<Document>, id: string)
    ensures (forall i :: 0 <= i < |reports| ==> Id(reports[i]) != Some(id)) ==> WithoutId(reports, id) == reports
    ensures forall r :: r in reports && Id(r) != Some(id) ==> r in WithoutId(reports, id)
  {
    if reports != [] {
      WithoutIdKeeps(reports[1..], id);
      assert reports == [reports[0]] + reports[1..];
    }
  }

  /** `displayedReports`: the whole list when expanded, else the first three. */
  function Displayed(reports: seq<Document>, showAll: bool): (r: seq<Document>)
    ensures showAll ==> r == reports
    ensures !showAll ==> |r| == if |reports| < CollapsedCount then |reports| else CollapsedCount
    ensures r <= reports
  {
    if showAll || |reports| <= CollapsedCount then reports else reports[..CollapsedCount]
  }

  /** The "Show More" button is rendered only for more than three reports. */
  predicate ShowsToggle(reports: seq<Document>)
  {
    |reports| > CollapsedCount
  }

  /** When the toggle is hidden, every report is shown either way; when it is
      shown, expanding shows strictly more. */
  lemma ToggleMatters(reports: seq<Document>)
    ensures !ShowsToggle(reports) ==> Displayed(reports, false) == Displayed(reports, true) == reports
    ensures ShowsToggle(reports) ==> |Displayed(reports, false)| < |Displayed(reports, true)|
  {
  }

  /** The history page's state, updated in place by its handlers. */
  class HistoryView {
    var cropReports: seq<Document>
    var showAll: bool
    var imageErrors: set<Option<string>>

    constructor ()
      ensures cropReports == [] && !showAll && imageErrors == {}
    {
      cropReports, showAll, imageErrors := [], false, {};
    }

    /** The fetched history replaces the list. */
    method Loaded(data: seq<Document>)
      modifies this
      ensures cropReports == data && showAll == old(showAll) && imageErrors == old(imageErrors)
    {
      cropReports := data;
    }

    /** `handleDelete(id)`, given the server's `deleted` flag: the reports with
      that id leave the list only when the server deleted one. */
    method HandleDelete(id: string, deleted: bool)
      modifies this
      ensures cropReports == if deleted then WithoutId(old(cropReports), id) else old(cropReports)
      ensures showAll == old(showAll) && imageErrors == old(imageErrors)
    {
      if deleted {
        cropReports := WithoutId(cropReports, id);
      }
    }

    /** `handleImageError(e, id)`: the id is remembered as failed, so the
      card falls back to the placeholder from now on. */
    method HandleImageError(id: Option<string>)
      modifies this
      ensures imageErrors == old(imageErrors) + {id}
      ensures cropReports == old(cropReports) && showAll == old(showAll)
      ensures forall r :: Id(r) == id ==> ImageUrl(r, imageErrors) == Fallback
    {
      imageErrors := imageErrors + {id};
    }

    /** The "Show More" / "Show Less" button. */
    method ToggleShowAll()
      modifies this
      ensures showAll == !old(showAll)
      ensures cropReports == old(cropReports) && imageErrors == old(imageErrors)
    {
      showAll := !showAll;
    }
  }
}

/** The report page: the editor's changes to its working copy of a detection
    report, and the save and cancel outcomes. Each handler is one atomic
    transition; the server's answer to a save is an input. */
module ReportPage {
  import opened Wrappers
  import opened Json
  import DetectionService

  /** The answer that makes the page commit an edit. */
  const SuccessMessage := "Report updated successfully"

  /** The fields the save request carries besides `farmer_notes`. */
  const EditableFields: set<string> :=
    {"predicted_class", "category", "part_scanned", "symptoms", "treatment", "prevention"}

  const NotesField := "farmer_notes"

  /** The result of an edit: the new working copy, or the TypeError JavaScript
      throws when the field is not a list (`undefined.map`, `"x".filter`, or a
      spread of a number, boolean, object or date). */
  datatype Edit = Edited(doc: Document) | Thrown

  // ---------------------------------------------------------------------------
  // Field and list edits

  /** `handleInputChange(field, value)`: the one field takes the typed text. */
  function SetField(doc: Document, field: string, value: string): (r: Document)
    ensures field in r && r[field] == Str(value)
    ensures r.Keys == doc.Keys + {field}
    ensures forall k :: k in doc && k != field ==> r[k] == doc[k]
  {
    doc[field := Str(value)]
  }

  /** Typing twice into one field keeps only the second text, and typing the
      text a field already holds changes nothing. */
  lemma SetFieldLastWins(doc: Document, field: string, first: string, second: string)
    ensures SetField(SetField(doc, field, first), field, second) == SetField(doc, field, second)
    ensures field in doc && doc[field] == Str(first) ==> SetField(doc, field, first) == doc
  {
    assert SetField(SetField(doc, field, first), field, second).Keys == SetField(doc, field, second).Keys;
  }

  /** `items.map((item, i) => i === index ? value : item)`. */
  function ReplaceAt(items: seq<Value>, index: int, value: Value): (r: seq<Value>)
    ensures |r| == |items|
    ensures 0 <= index < |items| ==> r[index] == value
    ensures forall i :: 0 <= i < |items| && i != index ==> r[i] == items[i]
  {
    seq(|items|, i requires 0 <= i < |items| => if i == index then value else items[i])
  }

  /** `handleArrayChange(field, index, value)`: only a list field can be
      mapped; the element at `index` takes the text and the list keeps its
      length and every other element. */
  function ChangeItem(doc: Document, field: string, index: int, value: string): (r: Edit)
    ensures r.Edited? <==> field in doc && doc[field].Arr?
    ensures r.Edited? ==>
      && r.doc.Keys == doc.Keys
      && (forall k :: k in doc && k != field ==> r.doc[k] == doc[k])
      && r.doc[field].Arr? && |r.doc[field].items| == |doc[field].items|
      && (0 <= index < |doc[field].items| ==> r.doc[field].items[index] == Str(value))
      && (forall i :: 0 <= i < |doc[field].items| && i != index ==> r.doc[field].items[i] == doc[field].items[i])
  {
    if field in doc && doc[field].Arr? then
      Edited(doc[field := Arr(ReplaceAt(doc[field].items, index, Str(value)))])
    else Thrown
  }

  /** Changing an element and then changing it back restores the list. */
  lemma ChangeItemUndo(doc: Document, field: string, index: int, value: string)
    requires field in doc && doc[field].Arr? && 0 <= index < |doc[field].items|
    requires doc[field].items[index].Str?
    ensures var once := ChangeItem(doc, field, index, value).doc;
      ChangeItem(once, field, index, doc[field].items[index].s) == Edited(doc)
  {
    var items := doc[field].items;
    var once := ChangeItem(doc, field, index, value).doc;
    assert ReplaceAt(once[field].items, index, items[index]) == items;
    assert once[field := Arr(items)] == doc;
  }

  /** `[...x]` for the values a spread accepts: a list's elements, or a
      string's characters one by one. */
  function Spread(v: Value): (r: Option<seq<Value>>)
    ensures r.Some? <==> v.Arr? || v.Str?
    ensures v.Arr? ==> r == Some(v.items)
    ensures v.Str? ==> |r.value| == |v.s| && forall i :: 0 <= i < |v.s| ==> r.value[i] == Str([v.s[i]])
  {
    match v
    case Arr(items) => Some(items)
    case Str(s) => Some(seq(|s|, i requires 0 <= i < |s| => Str([s[i]])))
    case _ => None
  }

  /** `addArrayItem(field)`: `[...(prev[field] || []), '']` — a missing or
      falsy field counts as the empty list. */
  function AddItem(doc: Document, field: string): (r: Edit)
    ensures r.Edited? <==> !TruthyField(doc, field) || doc[field].Arr? || doc[field].Str?
    ensures r.Edited? ==>
      && r.doc.Keys == doc.Keys + {field}
      && (forall k :: k in doc && k != field ==> r.doc[k] == doc[k])
      && r.doc[field].Arr? && r.doc[field].items != []
      && r.doc[field].items[|r.doc[field].items| - 1] == Str("")
    ensures !TruthyField(doc, field) ==> r == Edited(doc[field := Arr([Str("")])])
    ensures TruthyField(doc, field) && doc[field].Arr? ==>
      r == Edited(doc[field := Arr(doc[field].items + [Str("")])])
    ensures TruthyField(doc, field) && doc[field].Str? ==>
      var text := doc[field].s;
      && r.Edited? && |r.doc[field].items| == |text| + 1
      && (forall i :: 0 <= i < |text| ==> r.doc[field].items[i] == Str([text[i]]))
  {
    if !TruthyField(doc, field) then Edited(doc[field := Arr([Str("")])])
    else
      match Spread(doc[field])
      case None => Thrown
      case Some(items) => Edited(doc[field := Arr(items + [Str("")])])
  }

  /** `items.filter((_, i) => i !== index)`, walking the list with the index
      of its first element. */
  function DropIndex(items: seq<Value>, index: int): (r: seq<Value>)
    decreases |items|
  {
    if items == [] then []
    else (if index == 0 then [] else [items[0]]) + DropIndex(items[1..], index - 1)
  }

  /** The filter drops exactly the element at `index`, keeping the others in
      order; an index outside the list drops nothing. */
  lemma {:induction false} DropIndexSlices(items: seq<Value>, index: int)
    ensures 0 <= index < |items| ==> DropIndex(items, index) == items[..index] + items[index + 1..]
    ensures !(0 <= index < |items|) ==> DropIndex(items, index) == items
    decreases |items|
  {
    if items != [] {
      DropIndexSlices(items[1..], index - 1);
      if 0 < index < |items| {
        assert items[1..][..index - 1] == items[1..index];
        assert items[1..][index..] == items[index + 1..];
        assert [items[0]] + items[1..index] == items[..index];
      } else if index != 0 {
        assert [items[0]] + items[1..] == items;
      }
    }
  }

  /** `removeArrayItem(field, index)`: only a list field can be filtered; an
      in-range index shortens it by one, keeping the order of the rest. */
  function RemoveItem(doc: Document, field: string, index: int): (r: Edit)
    ensures r.Edited? <==> field in doc && doc[field].Arr?
    ensures r.Edited? ==>
      && r.doc.Keys == doc.Keys
      && (forall k :: k in doc && k != field ==> r.doc[k] == doc[k])
      && r.doc[field].Arr?
      && var items := doc[field].items;
         if 0 <= index < |items| then r.doc[field].items == items[..index] + items[index + 1..]
         else r.doc[field].items == items
  {
    if field in doc && doc[field].Arr? then
      DropIndexSlices(doc[field].items, index);
      Edited(doc[field := Arr(DropIndex(doc[field].items, index))])
    else Thrown
  }

  /** Removing the item just added gives back the list as it was. */
  lemma AddThenRemove(doc: Document, field: string)
    requires field in doc && doc[field].Arr?
    ensures var added := AddItem(doc, field).doc;
      RemoveItem(added, field, |doc[field].items|) == Edited(doc)
  {
    var items := doc[field].items;
    var added := AddItem(doc, field).doc;
    var longer := items + [Str("")];
    assert added[field] == Arr(longer);
    assert longer[..|items|] + longer[|items| + 1..] == items;
    assert added[field := Arr(items)] == doc;
  }

  // ---------------------------------------------------------------------------
  // Saving

  /** The JSON body of the save request: the six editable fields that are
      present (`JSON.stringify` drops `undefined`) and the notes, '' when the
      notes are missing or falsy. */
  function SavePayload(edited: Document): (r: Document)
    ensures r.Keys == (EditableFields * edited.Keys) + {NotesField}
    ensures forall k :: k in EditableFields && k in edited ==> r[k] == edited[k]
    ensures r[NotesField] == if TruthyField(edited, NotesField) then edited[NotesField] else Str("")
  {
    var fields := map k | k in EditableFields && k in edited :: edited[k];
    fields[NotesField := if TruthyField(edited, NotesField) then edited[NotesField] else Str("")]
  }

  /** Because the notes are always sent, the server never refuses a save as an
      empty update: the answer is success or "no changes". Saving the same
      copy a second time is answered "no changes". */
  lemma SaveReachesStore(s: DetectionService.Detections, id: nat, edited: Document)
    ensures var reply := DetectionService.UpdateStep(s, id, SavePayload(edited)).1;
      reply == DetectionService.Message(SuccessMessage) || reply == DetectionService.Error(DetectionService.NoChangeError)
    ensures var s1 := DetectionService.UpdateStep(s, id, SavePayload(edited)).0;
      DetectionService.UpdateStep(s1, id, SavePayload(edited)).1 == DetectionService.Error(DetectionService.NoChangeError)
  {
    var payload := SavePayload(edited);
    assert NotesField in payload;
    PayloadAccepted(edited);
    if id in s.reports {
      DetectionService.UpdateTwice(s, id, payload);
    }
  }

  /** Every field a save sends is a plain name the store accepts, and `_id`
      is never among them. */
  lemma PayloadAccepted(edited: Document)
    ensures forall k :: k in SavePayload(edited) ==> DetectionService.UpdatePath(k)
    ensures DetectionService.ImmutableField !in SavePayload(edited)
  {
  }

  /** What the page holds: the saved report (none before it loads), the
      working copy, and the two flags. */
  datatype Page = Page(report: Option<Document>, edited: Document, isEditing: bool, isUpdating: bool)

  /** How the save request ended: the parsed answer, or a thrown error
      (network failure or an unparsable body). */
  datatype SaveOutcome = Answered(result: Document) | Failed

  /** The answer commits the save. */
  predicate Succeeded(outcome: SaveOutcome)
  {
    outcome.Answered? && "message" in outcome.result && outcome.result["message"] == Str(SuccessMessage)
  }

  /** `result.updated_report || editedReport`, for an object-valued answer. */
  function CommittedReport(result: Document, edited: Document): Document
  {
    if "updated_report" in result && result["updated_report"].Obj? then result["updated_report"].fields
    else edited
  }

  /** The end of `handleSave`: the report and edit mode change only on the
      success message, the working copy never, and `isUpdating` is cleared on
      every path. */
  function SaveFinished(p: Page, outcome: SaveOutcome): (r: Page)
    ensures !r.isUpdating && r.edited == p.edited
    ensures Succeeded(outcome) ==> r.report == Some(CommittedReport(outcome.result, p.edited)) && !r.isEditing
    ensures !Succeeded(outcome) ==> r.report == p.report && r.isEditing == p.isEditing
  {
    if Succeeded(outcome) then p.(report := Some(CommittedReport(outcome.result, p.edited)), isEditing := false, isUpdating := false)
    else p.(isUpdating := false)
  }

  /** After a save the server answered with the success message alone, the
      working copy is the saved report, so cancelling loses nothing. */
  lemma CancelAfterSaveKeepsEdits(p: Page, result: Document)
    requires Succeeded(Answered(result)) && "updated_report" !in result
    ensures SaveFinished(p, Answered(result)).report == Some(p.edited)
  {
  }

  /** The report page's state, updated in place by its handlers. */
  class ReportEditor {
    var report: Option<Document>
    var editedReport: Document
    var isEditing: bool
    var isUpdating: bool

    function State(): Page
      reads this
    {
      Page(report, editedReport, isEditing, isUpdating)
    }

    /** Before the report arrives: nothing to show, an empty copy, not editing. */
    constructor ()
      ensures State() == Page(None, map[], false, false)
    {
      report, editedReport, isEditing, isUpdating := None, map[], false, false;
    }

    /** The fetched report becomes both the saved report and the working copy. */
    method Loaded(data: Document)
      modifies this
      ensures State() == old(State()).(report := Some(data), edited := data)
    {
      report := Some(data);
      editedReport := data;
    }

    /** `handleEdit`. */
    method HandleEdit()
      modifies this
      ensures State() == old(State()).(isEditing := true)
    {
      isEditing := true;
    }

    /** `handleCancel`: the working copy goes back to the saved report and the
      page leaves edit mode. The button exists only once a report is shown. */
    method HandleCancel()
      requires report.Some?
      modifies this
      ensures State() == old(State()).(edited := old(report).value, isEditing := false)
    {
      editedReport := report.value;
      isEditing := false;
    }

    /** `handleInputChange(field, value)`. */
    method HandleInputChange(field: string, value: string)
      modifies this
      ensures State() == old(State()).(edited := SetField(old(editedReport), field, value))
    {
      editedReport := SetField(editedReport, field, value);
    }

    /** Applies a list edit; a thrown TypeError leaves the copy as it was. */
    method Apply(edit: Edit)
      modifies this
      ensures State() == old(State()).(edited := if edit.Edited? then edit.doc else old(editedReport))
    {
      if edit.Edited? {
        editedReport := edit.doc;
      }
    }

    /** The start of `handleSave`: `isUpdating` is set and the request body is
      built from the working copy. */
    method BeginSave() returns (payload: Document)
      modifies this
      ensures State() == old(State()).(isUpdating := true)
      ensures payload == SavePayload(editedReport)
    {
      isUpdating := true;
      payload := SavePayload(editedReport);
    }

    /** The end of `handleSave`, once the request has settled. */
    method FinishSave(outcome: SaveOutcome)
      modifies this
      ensures State() == SaveFinished(old(State()), outcome)
    {
      if outcome.Answered? {
        var result := outcome.result;
        if "message" in result && result["message"] == Str(SuccessMessage) {
          report := Some(CommittedReport(result, editedReport));
          isEditing := false;
        }
      }
      isUpdating := false;
    }
  }
}

/**
 * Backup and restore: the structural check an imported document must pass before it is
 * offered to the journal, and the reset request. The document arrives already parsed.
 */
module DataManagement {
  import opened Wrappers

  /** A parsed JSON value. Numbers are integers here; only their truthiness matters. */
  datatype Json =
    | JNull
    | JBool(b: bool)
    | JNumber(n: int)
    | JString(s: string)
    | JArray(items: seq<Json>)
    | JObject(fields: map<string, Json>)

  /** JavaScript truthiness. */
  predicate Truthy(j: Json) {
    match j
    case JNull => false
    case JBool(b) => b
    case JNumber(n) => n != 0
    case JString(s) => s != ""
    case JArray(_) => true
    case JObject(_) => true
  }

  /**
   * `x[key]` is truthy. Only an object can hold the property; reading it off null throws,
   * which the handler treats like any other rejection.
   */
  predicate HasTruthy(j: Json, key: string) {
    j.JObject? && key in j.fields && Truthy(j.fields[key])
  }

  const ImportFailed := "导入失败：文件无效或损坏。"

  /**
   * The sniff check: a list, whose first element, if any, has a truthy `id` and a truthy
   * `date`. The accepted list is passed on unchanged.
   */
  function CheckImport(doc: Json): (r: Option<seq<Json>>)
    ensures r.Some? <==> doc.JArray? && (|doc.items| == 0 || (HasTruthy(doc.items[0], "id") && HasTruthy(doc.items[0], "date")))
    ensures r.Some? ==> r.value == doc.items
  {
    if !doc.JArray? then None
    else if |doc.items| > 0 && (!HasTruthy(doc.items[0], "id") || !HasTruthy(doc.items[0], "date")) then None
    else Some(doc.items)
  }

  /** Only the first element is examined: whatever follows it, the verdict is the same. */
  lemma OnlyFirstInspected(first: Json, a: seq<Json>, b: seq<Json>)
    ensures CheckImport(JArray([first] + a)).Some? == CheckImport(JArray([first] + b)).Some?
  {
  }

  /** Nothing checks that ids are unique: the same record twice is accepted. */
  lemma DuplicateIdsAccepted(record: Json)
    requires HasTruthy(record, "id") && HasTruthy(record, "date")
    ensures CheckImport(JArray([record, record])) == Some([record, record])
  {
  }

  /** An empty list is accepted; a document that is not a list never is. */
  lemma EmptyAcceptedNonListRejected(doc: Json)
    ensures CheckImport(JArray([])) == Some([])
    ensures !doc.JArray? ==> CheckImport(doc).None?
  {
  }

  /** What reading the chosen file produced. */
  datatype FileRead = NoFile | Unparsable | Parsed(doc: Json)

  /** The callbacks the dialog invokes, in order. */
  datatype ModalEvent = ImportRequested(items: seq<Json>) | ResetRequested | CloseRequested

  class DataModal {
    var importError: string

    constructor ()
      ensures importError == ""
    {
      importError := "";
    }

    /**
     * The file-chosen handler. An accepted document is handed on and the dialog closes; every
     * rejection, a parse failure included, sets the one error message and hands on nothing.
     */
    method FileChange(file: FileRead) returns (events: seq<ModalEvent>)
      modifies this`importError
      ensures file.NoFile? ==> events == [] && importError == old(importError)
      ensures file.Unparsable? ==> events == [] && importError == ImportFailed
      ensures file.Parsed? && CheckImport(file.doc).Some? ==>
        events == [ImportRequested(file.doc.items), CloseRequested] && importError == old(importError)
      ensures file.Parsed? && CheckImport(file.doc).None? ==> events == [] && importError == ImportFailed
    {
      events := [];
      if file.NoFile? {
        return;
      }
      if file.Unparsable? {
        importError := ImportFailed;
        return;
      }
      var accepted := CheckImport(file.doc);
      if accepted.None? {
        importError := ImportFailed;
        return;
      }
      events := [ImportRequested(accepted.value), CloseRequested];
    }

    /** The reset button only asks the journal to start its reset flow and closes the dialog. */
    method ResetApp() returns (events: seq<ModalEvent>)
      ensures events == [ResetRequested, CloseRequested]
    {
      events := [ResetRequested, CloseRequested];
    }
  }
}

/**
 The schema file upload of the dashboard sidebar: the structural check a
 table schema must pass (`validateSchema`) and the gate in front of the
 `/malay2sql/initialize` request (`handleFileUpload`).

 The file's text is taken already parsed (or with the parse error's message),
 and the backend's answer to the request is an input.
 */
module SchemaUpload {
  import opened JsBase
  import opened Json

  const TableNameError := "Schema must include a table_name"
  const ColumnsError := "Schema must include columns object"
  /** The TypeError a JavaScript engine (V8's wording) raises for `null.table_name`. */
  const NullSchemaError := "Cannot read properties of null (reading 'table_name')"

  function InvalidColumnError(name: string): string {
    "Invalid column info for " + name
  }

  function MissingFieldsError(name: string): string {
    "Column " + name + " must have data_type and description"
  }

  /** The outcome of a check: it passes, or it throws an Error with this message. */
  datatype Check = Pass | Fail(message: string)

  // ---------------------------------------------------------------------------
  // Reference definition of an acceptable schema, in plain structural terms.

  /** A property that holds a non-empty string. */
  predicate NonEmptyStringProp(o: Option<Json>) {
    o.Some? && o.value.JString? && o.value.s != ""
  }

  /** A property that holds an array or an object (the two `Object.entries` accepts). */
  predicate ContainerProp(o: Option<Json>) {
    o.Some? && (o.value.JArray? || o.value.JObject?)
  }

  /**
   A column description is acceptable when it is an object (an array has no
   `data_type`) whose `data_type` and `description` are truthy, of any type.
   */
  predicate ColumnAcceptable(info: Json) {
    && info.JObject?
    && TruthyProp(Lookup(info.fields, "data_type"))
    && TruthyProp(Lookup(info.fields, "description"))
  }

  predicate AllColumnsAcceptable(entries: seq<(string, Json)>) {
    forall i :: 0 <= i < |entries| ==> ColumnAcceptable(entries[i].1)
  }

  /**
   A schema is acceptable when it is an object with a non-empty string
   `table_name` and an array-or-object `columns` all of whose entries are
   acceptable column descriptions (no entries at all is fine).
   */
  predicate Acceptable(schema: Json) {
    && schema.JObject?
    && NonEmptyStringProp(Lookup(schema.fields, "table_name"))
    && ContainerProp(Lookup(schema.fields, "columns"))
    && AllColumnsAcceptable(Entries(Lookup(schema.fields, "columns").value))
  }

  /** `i` is the first entry of `entries` that is not an acceptable column. */
  predicate FirstBadColumn(entries: seq<(string, Json)>, i: int) {
    && 0 <= i < |entries|
    && !ColumnAcceptable(entries[i].1)
    && forall j :: 0 <= j < i ==> ColumnAcceptable(entries[j].1)
  }

  // ---------------------------------------------------------------------------
  // The validator as the code runs it.

  /** The two checks the loop body applies to one `[columnName, columnInfo]` entry. */
  function CheckColumn(name: string, info: Json): (r: Check)
    ensures r.Pass? <==> ColumnAcceptable(info)
    ensures r.Fail? && (info.JObject? || info.JArray?) ==> r == Fail(MissingFieldsError(name))
    ensures r.Fail? && !(info.JObject? || info.JArray?) ==> r == Fail(InvalidColumnError(name))
  {
    if !Truthy(info) || !IsObjectType(info) then Fail(InvalidColumnError(name))
    else if !TruthyProp(Prop(info, "data_type")) || !TruthyProp(Prop(info, "description")) then
      Fail(MissingFieldsError(name))
    else Pass
  }

  /** The `for … of Object.entries(schema.columns)` loop: the first failing entry's error, if any. */
  function CheckColumns(entries: seq<(string, Json)>): (r: Check)
    ensures r.Pass? <==> AllColumnsAcceptable(entries)
    decreases |entries|
  {
    if |entries| == 0 then Pass
    else match CheckColumn(entries[0].0, entries[0].1)
      case Fail(m) => Fail(m)
      case Pass =>
        var r := CheckColumns(entries[1..]);
        assert forall i :: 1 <= i < |entries| ==> entries[i] == entries[1..][i - 1];
        r
  }

  /** `validateSchema(schema)`: passes, or throws the first error in the code's check order. */
  function Validate(schema: Json): (r: Check)
    ensures r.Pass? <==> Acceptable(schema)
    ensures schema.JNull? ==> r == Fail(NullSchemaError)
    ensures !schema.JNull? && !NonEmptyStringProp(Prop(schema, "table_name")) ==> r == Fail(TableNameError)
    ensures && !schema.JNull? && NonEmptyStringProp(Prop(schema, "table_name"))
            && !ContainerProp(Prop(schema, "columns"))
            ==> r == Fail(ColumnsError)
  {
    if schema.JNull? then Fail(NullSchemaError)
    else
      var table := Prop(schema, "table_name");
      if !TruthyProp(table) || !IsStringType(table.value) then Fail(TableNameError)
      else
        var columns := Prop(schema, "columns");
        if !TruthyProp(columns) || !IsObjectType(columns.value) then Fail(ColumnsError)
        else CheckColumns(Entries(columns.value))
  }

  /** The loop reports exactly the first unacceptable entry, with the message for its kind of defect. */
  lemma {:induction false} CheckColumnsReportsFirstBad(entries: seq<(string, Json)>, i: int)
    requires FirstBadColumn(entries, i)
    ensures CheckColumns(entries) == CheckColumn(entries[i].0, entries[i].1)
    decreases |entries|
  {
    if i == 0 {
      assert !ColumnAcceptable(entries[0].1);
    } else {
      assert ColumnAcceptable(entries[0].1);
      var tail := entries[1..];
      assert tail[i - 1] == entries[i];
      assert forall j :: 0 <= j < i - 1 ==> tail[j] == entries[j + 1];
      CheckColumnsReportsFirstBad(tail, i - 1);
    }
  }

  /** With a valid table name and columns container, a schema fails on its first bad column and nowhere else. */
  lemma ValidateReportsFirstBadColumn(schema: Json, i: int)
    requires schema.JObject?
    requires NonEmptyStringProp(Lookup(schema.fields, "table_name"))
    requires ContainerProp(Lookup(schema.fields, "columns"))
    requires FirstBadColumn(Entries(Lookup(schema.fields, "columns").value), i)
    ensures var e := Entries(Lookup(schema.fields, "columns").value)[i];
            Validate(schema) == CheckColumn(e.0, e.1)
  {
    var table := Prop(schema, "table_name");
    var columns := Lookup(schema.fields, "columns").value;
    assert TruthyProp(table) && IsStringType(table.value);
    assert Prop(schema, "columns") == Some(columns);
    assert TruthyProp(Some(columns)) && IsObjectType(columns);
    assert Validate(schema) == CheckColumns(Entries(columns));
    CheckColumnsReportsFirstBad(Entries(columns), i);
  }

  /** A schema whose `columns` is empty passes once its table name is valid. */
  lemma EmptyColumnsAccepted(table: string, emptyColumns: Json)
    requires table != ""
    requires emptyColumns == JObject([]) || emptyColumns == JArray([])
    ensures Validate(JObject([("table_name", JString(table)), ("columns", emptyColumns)])) == Pass
  {
    var schema := JObject([("table_name", JString(table)), ("columns", emptyColumns)]);
    assert Lookup(schema.fields, "table_name") == Some(JString(table));
    assert Lookup(schema.fields, "columns") == Some(emptyColumns);
  }

  /** The column fields are only tested for truthiness: non-zero numbers pass as well as strings. */
  lemma UntypedColumnFieldsPass(name: string, dataType: int, description: bool)
    requires dataType != 0 && description
    ensures CheckColumn(name, JObject([("data_type", JNumber(dataType)), ("description", JBool(description))])) == Pass
  {
    var info := JObject([("data_type", JNumber(dataType)), ("description", JBool(description))]);
    assert Lookup(info.fields, "data_type") == Some(JNumber(dataType));
    assert Lookup(info.fields, "description") == Some(JBool(description));
  }

  /**
   An array passes as the `columns` container; its entries are named by index,
   so a bad first element is reported as column "0".
   */
  lemma ArrayColumnsNamedByIndex(table: string, first: Json, rest: seq<Json>)
    requires table != ""
    requires !first.JObject?
    ensures Validate(JObject([("table_name", JString(table)), ("columns", JArray([first] + rest))]))
            == CheckColumn("0", first)
  {
    var schema := JObject([("table_name", JString(table)), ("columns", JArray([first] + rest))]);
    assert Lookup(schema.fields, "table_name") == Some(JString(table));
    assert Lookup(schema.fields, "columns") == Some(JArray([first] + rest));
    var entries := Entries(JArray([first] + rest));
    assert entries[0] == ("0", first);
    assert FirstBadColumn(entries, 0);
    ValidateReportsFirstBadColumn(schema, 0);
  }

  // ---------------------------------------------------------------------------
  // The upload handler.

  /** What `JSON.parse` made of the file's text. */
  datatype Parsed = ParsedJson(value: Json) | SyntaxError(message: string)

  /** The chosen file: its MIME type and its parsed content. */
  datatype File = File(mimeType: string, content: Parsed)

  /** The backend's answer to the initialize request. */
  datatype PostResponse = Posted | PostFailed(detail: Option<string>, message: string)

  /**
   What one upload attempt does: nothing (no file chosen), a refusal toast,
   a failure carrying the text of the error the handler throws (with the request
   body when one was sent), or a successful upload.
   */
  datatype UploadEffect =
    | NoFile
    | Refused(toast: string)
    | Rejected(sent: Option<Json>, error: string)
    | Uploaded(body: Json, notice: string)
  {
    /** The body of the initialize request, when one was sent. */
    function Request(): Option<Json> {
      match this
      case Rejected(sent, _) => sent
      case Uploaded(body, _) => Some(body)
      case _ => None
    }
  }

  const JsonMimeType := "application/json"
  const WrongTypeToast := "Please upload a JSON file"
  const UploadedToast := "Schema uploaded successfully. You can now start querying in Malay language!"
  const UploadFailurePrefix := "Failed to upload schema: "

  /** `Failed to upload schema: ${error.response?.data?.detail || error.message}`. */
  function UploadFailure(detail: Option<string>, message: string): (r: string)
    ensures |r| >= |UploadFailurePrefix| && r[..|UploadFailurePrefix|] == UploadFailurePrefix
    ensures TruthyOptString(detail) ==> r[|UploadFailurePrefix|..] == detail.value
    ensures !TruthyOptString(detail) ==> r[|UploadFailurePrefix|..] == message
  {
    UploadFailurePrefix + DetailOr(detail, message)
  }

  /**
   The toast the user sees, as the handler is written. The error rethrown inside
   the reader's `onload` rejects a promise nobody awaits, so the outer `catch`
   never sees it: only the type refusal and the success notice are shown.
   */
  function ToastShown(e: UploadEffect): (t: Option<string>)
    ensures t.Some? <==> e.Refused? || e.Uploaded?
    ensures e.Refused? ==> t == Some(e.toast)
    ensures e.Uploaded? ==> t == Some(e.notice)
  {
    match e
    case Refused(toast) => Some(toast)
    case Uploaded(_, notice) => Some(notice)
    case _ => None
  }

  /** The toast the outer `catch` evidently exists for: every failure shows its text as well. */
  function IntendedToast(e: UploadEffect): (t: Option<string>)
    ensures t.None? <==> e.NoFile?
    ensures e.Rejected? ==> t == Some(e.error)
    ensures !e.Rejected? ==> t == ToastShown(e)
  {
    if e.Rejected? then Some(e.error) else ToastShown(e)
  }

  /** `handleFileUpload` with the file reader's callback run to completion. */
  function HandleFileUpload(file: Option<File>, response: PostResponse): (r: UploadEffect)
    ensures r.NoFile? <==> file.None?
    ensures r.Refused? <==> file.Some? && file.value.mimeType != JsonMimeType
    ensures r.Refused? ==> r.toast == WrongTypeToast
    ensures r.Request().Some? <==>
              && file.Some? && file.value.mimeType == JsonMimeType
              && file.value.content.ParsedJson? && Acceptable(file.value.content.value)
    ensures r.Request().Some? ==> r.Request().value == JObject([("schema", file.value.content.value)])
    ensures r.Uploaded? <==> r.Request().Some? && response.Posted?
    ensures r.Uploaded? ==> r.notice == UploadedToast
    ensures r.Rejected? && r.sent.None? && file.value.content.ParsedJson? ==>
              r.error == UploadFailurePrefix + Validate(file.value.content.value).message
    ensures r.Rejected? && r.sent.None? && file.value.content.SyntaxError? ==>
              r.error == UploadFailurePrefix + file.value.content.message
    ensures r.Rejected? && r.sent.Some? ==>
              r.error == UploadFailure(response.detail, response.message)
  {
    if file.None? then NoFile
    else if file.value.mimeType != JsonMimeType then Refused(WrongTypeToast)
    else match file.value.content
      case SyntaxError(m) => Rejected(None, UploadFailure(None, m))
      case ParsedJson(schema) =>
        match Validate(schema)
        case Fail(m) => Rejected(None, UploadFailure(None, m))
        case Pass =>
          var body := JObject([("schema", schema)]);
          match response
          case Posted => Uploaded(body, UploadedToast)
          case PostFailed(detail, m) => Rejected(Some(body), UploadFailure(detail, m))
  }

  /** As written, no upload failure reaches the user: a rejected upload shows no toast at all. */
  lemma FailureIsNeverShown(file: Option<File>, response: PostResponse)
    requires HandleFileUpload(file, response).Rejected?
    ensures ToastShown(HandleFileUpload(file, response)) == None
  {
  }

  /** A concrete case: a file of type application/json that does not parse shows nothing, although a failure text exists. */
  lemma UnparsableFileShowsNothing(message: string, response: PostResponse)
    ensures var r := HandleFileUpload(Some(File(JsonMimeType, SyntaxError(message))), response);
            && r == Rejected(None, UploadFailurePrefix + message)
            && ToastShown(r) == None
            && IntendedToast(r) == Some(UploadFailurePrefix + message)
  {
  }

  /** With the intended handler every outcome but "no file" shows a toast, and a failure shows its "Failed to upload schema: " text. */
  lemma FailureShownWhenCorrected(file: Option<File>, response: PostResponse)
    ensures var r := HandleFileUpload(file, response);
            && (IntendedToast(r).Some? <==> file.Some?)
            && (r.Rejected? ==>
                  && |IntendedToast(r).value| >= |UploadFailurePrefix|
                  && IntendedToast(r).value[..|UploadFailurePrefix|] == UploadFailurePrefix)
  {
  }
}

/**
 * The modal that records an inspection result
 * (frontend/src/components/quality/InspectionResultModal.tsx): it loads the
 * result form's fields and the item's measurement details, keeps one form
 * value per field and per detail, and posts the base fields as multipart
 * parts with the measured values gathered into one JSON part.
 */
module InspectionResultForm {
  import opened Common
  import opened Json
  import opened ListOps
  import QualityModels
  import QualityViews

  // ---------------------------------------------------------------------
  // The form
  // ---------------------------------------------------------------------

  /** One field of the result form, as the `form-data` action describes it. */
  datatype FieldSpec = FieldSpec(name: string, caption: string, kind: string)

  const FileKind := "file"

  /** The fields the `form-data` action sends: text, text, file and textarea. */
  const ResultFormFields: seq<FieldSpec> := [FieldSpec("lot_number", "ロット番号", "text"),
    FieldSpec("equipment_used", "使用設備", "text"), FieldSpec("attachment", "添付ファイル", FileKind),
    FieldSpec("remarks", "備考", "textarea")]

  /** One measurement detail of the item, as the modal uses it. */
  datatype DetailSpec = DetailSpec(id: string, name: string, measurementType: string)

  /** A value held in `formData`: null, a text, a chosen file, or `undefined` (a file input emptied). */
  datatype FormValue = NullValue | TextValue(text: string) | FileValue(file: string) | Undefined

  /** `formData` as an object: its keys in insertion order, each with its value. */
  type Entry = (string, FormValue)

  function EntryKey(e: Entry): string { e.0 }

  const MeasurementPrefix := "measurement_value_"

  /** The form key of a detail's measured value. */
  function MeasurementKey(detailId: string): (k: string)
    ensures StartsWith(k, MeasurementPrefix) && k[|MeasurementPrefix|..] == detailId
  {
    MeasurementPrefix + detailId
  }

  /** A field's initial value: null for a file, a blank text otherwise. */
  function FieldEntry(f: FieldSpec): (e: Entry)
    ensures e.0 == f.name
    ensures f.kind == FileKind ==> e.1 == NullValue
    ensures f.kind != FileKind ==> e.1 == TextValue("")
  {
    (f.name, if f.kind == FileKind then NullValue else TextValue(""))
  }

  /** A detail's initial measured value: a blank text. */
  function DetailEntry(d: DetailSpec): (e: Entry)
    ensures e == (MeasurementKey(d.id), TextValue(""))
  {
    (MeasurementKey(d.id), TextValue(""))
  }

  /** The `initialFormData` object: every field set in order, then every detail. */
  function InitialForm(fields: seq<FieldSpec>, details: seq<DetailSpec>): seq<Entry>
  {
    UpsertAll(UpsertAll([], MapSeq(fields, FieldEntry), EntryKey), MapSeq(details, DetailEntry), EntryKey)
  }

  /** The two `forEach` loops that fill `initialFormData`. */
  method BuildInitialForm(fields: seq<FieldSpec>, details: seq<DetailSpec>) returns (form: seq<Entry>)
    ensures form == InitialForm(fields, details)
  {
    form := [];
    var i := 0;
    while i < |fields|
      invariant 0 <= i <= |fields|
      invariant form == UpsertAll([], MapSeq(fields[..i], FieldEntry), EntryKey)
    {
      assert MapSeq(fields[..i + 1], FieldEntry) == MapSeq(fields[..i], FieldEntry) + [FieldEntry(fields[i])];
      UpsertAllSnoc([], MapSeq(fields[..i], FieldEntry), FieldEntry(fields[i]), EntryKey);
      form := Upsert(form, FieldEntry(fields[i]), EntryKey);
      i := i + 1;
    }
    assert fields[..i] == fields;
    ghost var base := form;
    var j := 0;
    while j < |details|
      invariant 0 <= j <= |details|
      invariant form == UpsertAll(base, MapSeq(details[..j], DetailEntry), EntryKey)
    {
      assert MapSeq(details[..j + 1], DetailEntry) == MapSeq(details[..j], DetailEntry) + [DetailEntry(details[j])];
      UpsertAllSnoc(base, MapSeq(details[..j], DetailEntry), DetailEntry(details[j]), EntryKey);
      form := Upsert(form, DetailEntry(details[j]), EntryKey);
      j := j + 1;
    }
    assert details[..j] == details;
  }

  /**
   * With no repeated key, the initial form is the fields' entries followed
   * by the details' entries, each once and in order.
   */
  lemma InitialFormLayout(fields: seq<FieldSpec>, details: seq<DetailSpec>)
    requires DistinctBy(MapSeq(fields, FieldEntry) + MapSeq(details, DetailEntry), EntryKey)
    ensures InitialForm(fields, details) == MapSeq(fields, FieldEntry) + MapSeq(details, DetailEntry)
  {
    var a, b := MapSeq(fields, FieldEntry), MapSeq(details, DetailEntry);
    assert DistinctBy(a, EntryKey) by {
      forall i, j | 0 <= i < j < |a| ensures EntryKey(a[i]) != EntryKey(a[j]) {
        assert (a + b)[i] == a[i] && (a + b)[j] == a[j];
      }
    }
    assert [] + a == a;
    UpsertAllFresh([], a, EntryKey);
    UpsertAllFresh(a, b, EntryKey);
  }

  /** The detail keys of different details differ. */
  lemma MeasurementKeyInjective(x: string, y: string)
    ensures MeasurementKey(x) == MeasurementKey(y) ==> x == y
  {
  }

  /** The server's field names begin with four different letters, none of them the 'm' of a detail key. */
  lemma ServerFieldInitials()
    ensures |MapSeq(ResultFormFields, FieldEntry)| == 4
    ensures forall k :: 0 <= k < 4 ==> MapSeq(ResultFormFields, FieldEntry)[k].0 != []
    ensures forall k :: 0 <= k < 4 ==> MapSeq(ResultFormFields, FieldEntry)[k].0[0] != 'm'
    ensures forall i, j :: 0 <= i < j < 4 ==>
      MapSeq(ResultFormFields, FieldEntry)[i].0[0] != MapSeq(ResultFormFields, FieldEntry)[j].0[0]
  {
    var a := MapSeq(ResultFormFields, FieldEntry);
    assert a[0].0 == "lot_number" && a[1].0 == "equipment_used" && a[2].0 == "attachment" && a[3].0 == "remarks";
  }

  /**
   * For the fields the server sends and details with distinct ids, the
   * initial form holds one entry per field then one per detail.
   */
  lemma ServerInitialForm(details: seq<DetailSpec>)
    requires forall i, j :: 0 <= i < j < |details| ==> details[i].id != details[j].id
    ensures InitialForm(ResultFormFields, details) == MapSeq(ResultFormFields, FieldEntry) + MapSeq(details, DetailEntry)
  {
    var a, b := MapSeq(ResultFormFields, FieldEntry), MapSeq(details, DetailEntry);
    var all := a + b;
    ServerFieldInitials();
    forall i, j | 0 <= i < j < |all| ensures EntryKey(all[i]) != EntryKey(all[j]) {
      if j >= 4 {
        assert all[j] == b[j - 4] == DetailEntry(details[j - 4]);
        assert all[j].0[0] == 'm';
        if i >= 4 {
          assert all[i] == DetailEntry(details[i - 4]);
          MeasurementKeyInjective(details[i - 4].id, details[j - 4].id);
        } else {
          assert all[i] == a[i];
        }
      } else {
        assert all[i] == a[i] && all[j] == a[j];
      }
    }
    InitialFormLayout(ResultFormFields, details);
  }

  /** What a change event carries: an input's text, or a file input's chosen files. */
  datatype InputEvent = ValueInput(value: string) | FileInput(files: seq<string>)

  /** `handleInputChange`'s value: `files[0]` for a file input (undefined when none), else the text. */
  function InputValue(e: InputEvent): (v: FormValue)
    ensures e.ValueInput? ==> v == TextValue(e.value)
    ensures e.FileInput? && e.files != [] ==> v == FileValue(e.files[0])
    ensures e.FileInput? && e.files == [] ==> v == Undefined
  {
    match e
    case ValueInput(value) => TextValue(value)
    case FileInput(files) => if files == [] then Undefined else FileValue(files[0])
  }

  // ---------------------------------------------------------------------
  // The post
  // ---------------------------------------------------------------------

  /** A key naming a measured value. */
  predicate IsMeasurement(e: Entry) { StartsWith(e.0, MeasurementPrefix) }

  /** A base field that is appended to the form post: any other key whose value is not null. */
  predicate IsSentField(e: Entry) { !IsMeasurement(e) && e.1 != NullValue }

  /** `key.replace('measurement_value_', '')`: the prefix a measurement key starts with is dropped. */
  function DetailIdOf(key: string): (id: string)
    ensures StartsWith(key, MeasurementPrefix) ==> MeasurementKey(id) == key
  {
    if StartsWith(key, MeasurementPrefix) then key[|MeasurementPrefix|..] else key
  }

  /** A measured value has the text a detail's key was given back. */
  lemma DetailIdRoundTrip(id: string)
    ensures DetailIdOf(MeasurementKey(id)) == id
  {
  }

  const DetailIdMember := "measurement_detail_id"
  const ValueMember := "value"

  /** `JSON.stringify` of a held value inside an object: a text, null, or (undefined) no member at all. */
  function JsonMember(v: FormValue): (r: Option<Value>)
    ensures v.TextValue? ==> r == Some(Str(v.text))
    ensures v.NullValue? ==> r == Some(Null)
    ensures v.Undefined? ==> r.None?
  {
    match v
    case NullValue => Some(Null)
    case TextValue(t) => Some(Str(t))
    case FileValue(_) => Some(Null)
    case Undefined => None
  }

  /** One payload object `{measurement_detail_id, value}`. */
  function PayloadEntry(e: Entry): (r: Record)
    ensures DetailIdMember in r && r[DetailIdMember] == Str(DetailIdOf(e.0))
    ensures ValueMember in r <==> JsonMember(e.1).Some?
    ensures ValueMember in r ==> r[ValueMember] == JsonMember(e.1).value
  {
    var id := map[DetailIdMember := Str(DetailIdOf(e.0))];
    match JsonMember(e.1)
    case Some(v) => id[ValueMember := v]
    case None => id
  }

  /** The value of one multipart part. */
  datatype PartValue = TextPart(text: string) | FilePart(file: string) | PayloadPart(entries: seq<Record>)

  type Part = (string, PartValue)

  /** `submissionData.append(key, value)`: a file as a file, anything else as its string. */
  function FieldPart(e: Entry): (p: Part)
    ensures p.0 == e.0
    ensures e.1.TextValue? ==> p.1 == TextPart(e.1.text)
    ensures e.1.FileValue? ==> p.1 == FilePart(e.1.file)
    ensures e.1.Undefined? ==> p.1 == TextPart("undefined")
  {
    match e.1
    case TextValue(t) => (e.0, TextPart(t))
    case FileValue(f) => (e.0, FilePart(f))
    case Undefined => (e.0, TextPart("undefined"))
    case NullValue => (e.0, TextPart("null"))
  }

  /** The measured values, in form order. */
  function PayloadOf(form: seq<Entry>): seq<Record>
  {
    MapSeq(Filter(form, IsMeasurement), PayloadEntry)
  }

  /** The base-field parts, in form order. */
  function SentFields(form: seq<Entry>): seq<Part>
  {
    MapSeq(Filter(form, IsSentField), FieldPart)
  }

  const PayloadKey := "measurement_details_payload"

  /** The whole post: the base fields, then the payload part. */
  function Submission(form: seq<Entry>): (parts: seq<Part>)
    ensures |parts| >= 1 && parts[|parts| - 1] == (PayloadKey, PayloadPart(PayloadOf(form)))
  {
    SentFields(form) + [(PayloadKey, PayloadPart(PayloadOf(form)))]
  }

  /** The `for...in` loop over `formData` and the final append. */
  method BuildSubmission(form: seq<Entry>) returns (parts: seq<Part>)
    ensures parts == Submission(form)
  {
    parts := [];
    var payload: seq<Record> := [];
    var i := 0;
    while i < |form|
      invariant 0 <= i <= |form|
      invariant payload == PayloadOf(form[..i])
      invariant parts == SentFields(form[..i])
    {
      var e := form[i];
      assert form[..i + 1] == form[..i] + [e];
      FilterSnoc(form[..i], e, IsMeasurement);
      FilterSnoc(form[..i], e, IsSentField);
      if IsMeasurement(e) {
        assert Filter(form[..i + 1], IsMeasurement) == Filter(form[..i], IsMeasurement) + [e];
        payload := payload + [PayloadEntry(e)];
      } else if e.1 != NullValue {
        parts := parts + [FieldPart(e)];
      }
      i := i + 1;
    }
    assert form[..i] == form;
    parts := parts + [(PayloadKey, PayloadPart(payload))];
  }

  /**
   * Every entry goes to exactly one place: a measured value to the payload,
   * a non-null base field to its part, a null base field nowhere; and the
   * payload and parts hold nothing else.
   */
  lemma SubmissionPartition(form: seq<Entry>)
    ensures forall k :: 0 <= k < |form| && IsMeasurement(form[k]) ==> PayloadEntry(form[k]) in PayloadOf(form)
    ensures forall k :: 0 <= k < |form| && IsSentField(form[k]) ==> FieldPart(form[k]) in SentFields(form)
    ensures forall r :: r in PayloadOf(form) ==>
      exists k :: 0 <= k < |form| && IsMeasurement(form[k]) && r == PayloadEntry(form[k])
    ensures forall p :: p in SentFields(form) ==>
      exists k :: 0 <= k < |form| && IsSentField(form[k]) && p == FieldPart(form[k])
  {
    MapFilterMembers(form, IsMeasurement, PayloadEntry);
    MapFilterMembers(form, IsSentField, FieldPart);
  }

  /** A measured value reaches the server under the detail's id, with its text as the value. */
  lemma PayloadAsServerReadsIt(id: string, text: string)
    ensures QualityViews.EntryId(PayloadEntry((MeasurementKey(id), TextValue(text)))) == Str(id)
    ensures DataGet(PayloadEntry((MeasurementKey(id), TextValue(text))), ValueMember, Null) == Str(text)
  {
  }

  /** Posting the form as loaded sends the three non-file fields blank and no attachment. */
  lemma UntouchedParts(details: seq<DetailSpec>)
    requires forall i, j :: 0 <= i < j < |details| ==> details[i].id != details[j].id
    ensures SentFields(InitialForm(ResultFormFields, details))
      == [("lot_number", TextPart("")), ("equipment_used", TextPart("")), ("remarks", TextPart(""))]
  {
    ServerInitialForm(details);
    var a, b := MapSeq(ResultFormFields, FieldEntry), MapSeq(details, DetailEntry);
    FilterAppend(a, b, IsSentField);
    ServerFieldsFiltered();
    FilterNone(b, IsSentField);
  }

  /** The measured values of the form as loaded are the details' blank entries, in order. */
  lemma UntouchedMeasurements(details: seq<DetailSpec>)
    requires forall i, j :: 0 <= i < j < |details| ==> details[i].id != details[j].id
    ensures Filter(InitialForm(ResultFormFields, details), IsMeasurement) == MapSeq(details, DetailEntry)
  {
    ServerInitialForm(details);
    var a, b := MapSeq(ResultFormFields, FieldEntry), MapSeq(details, DetailEntry);
    FilterAppend(a, b, IsMeasurement);
    ServerFieldsFiltered();
    FilterAll(b, IsMeasurement);
  }

  /** A detail's blank entry becomes `{measurement_detail_id: id, value: ""}`. */
  lemma BlankPayloadEntry(d: DetailSpec)
    ensures PayloadEntry(DetailEntry(d)) == map[DetailIdMember := Str(d.id), ValueMember := Str("")]
  {
    DetailIdRoundTrip(d.id);
  }

  /** Posting the form as loaded sends one blank value per detail, in order, under the detail's id. */
  lemma UntouchedPayload(details: seq<DetailSpec>)
    requires forall i, j :: 0 <= i < j < |details| ==> details[i].id != details[j].id
    ensures |PayloadOf(InitialForm(ResultFormFields, details))| == |details|
    ensures forall k :: 0 <= k < |details| ==>
      PayloadOf(InitialForm(ResultFormFields, details))[k] == map[DetailIdMember := Str(details[k].id), ValueMember := Str("")]
  {
    UntouchedMeasurements(details);
    forall k | 0 <= k < |details|
      ensures PayloadOf(InitialForm(ResultFormFields, details))[k] == map[DetailIdMember := Str(details[k].id), ValueMember := Str("")]
    {
      BlankPayloadEntry(details[k]);
    }
  }

  /** Of four entries, keeping all but the third. */
  lemma FilterSkipsThird(x0: Entry, x1: Entry, x2: Entry, x3: Entry)
    requires IsSentField(x0) && IsSentField(x1) && !IsSentField(x2) && IsSentField(x3)
    ensures Filter([x0, x1, x2, x3], IsSentField) == [x0, x1, x3]
  {
    assert [x0, x1, x2, x3] == [x0] + [x1, x2, x3];
    assert [x1, x2, x3] == [x1] + [x2, x3];
    assert [x2, x3] == [x2] + [x3];
    assert [x3] == [x3] + [];
    FilterCons(x0, [x1, x2, x3], IsSentField);
    FilterCons(x1, [x2, x3], IsSentField);
    FilterCons(x2, [x3], IsSentField);
    FilterCons(x3, [], IsSentField);
  }

  /** Of the server's fields none is a measured value, and all but the file are sent. */
  lemma ServerFieldsFiltered()
    ensures Filter(MapSeq(ResultFormFields, FieldEntry), IsMeasurement) == []
    ensures Filter(MapSeq(ResultFormFields, FieldEntry), IsSentField)
      == [("lot_number", TextValue("")), ("equipment_used", TextValue("")), ("remarks", TextValue(""))]
  {
    var a := MapSeq(ResultFormFields, FieldEntry);
    ServerFieldInitials();
    assert !IsMeasurement(a[0]) && !IsMeasurement(a[1]) && !IsMeasurement(a[2]) && !IsMeasurement(a[3]);
    FilterNone(a, IsMeasurement);
    assert a[0] == ("lot_number", TextValue("")) && a[1] == ("equipment_used", TextValue(""));
    assert a[2] == ("attachment", NullValue) && a[3] == ("remarks", TextValue(""));
    assert a == [a[0], a[1], a[2], a[3]];
    FilterSkipsThird(a[0], a[1], a[2], a[3]);
  }

  /**
   * A blank measured value, once the server has found its detail, is stored
   * as null in both value columns.
   */
  lemma BlankValueStoredAsNull(details: map<string, QualityModels.MeasurementDetail>, itemId: string, id: string)
    requires QualityViews.EntryKnown(details, itemId, PayloadEntry((MeasurementKey(id), TextValue(""))))
    ensures var d := QualityViews.DetailFor(details, itemId, PayloadEntry((MeasurementKey(id), TextValue(""))));
      d.detailId == id && d.numeric.Null? && d.qualitative.Null?
  {
  }

  /** A file input emptied after a choice holds `undefined`, which the post sends as the text "undefined". */
  lemma EmptiedFileSentAsText(name: string)
    requires !StartsWith(name, MeasurementPrefix)
    ensures IsSentField((name, InputValue(FileInput([]))))
    ensures FieldPart((name, InputValue(FileInput([])))) == (name, TextPart("undefined"))
  {
  }

  // ---------------------------------------------------------------------
  // Answers
  // ---------------------------------------------------------------------

  /** The `form-data` answer. */
  datatype FormDataAnswer =
    | FormDataLoaded(fields: seq<FieldSpec>, details: seq<DetailSpec>)
    | FormDataHttpError(status: nat, body: string)
    | FormDataRefused(message: string)
    | FormDataThrown(reason: string)

  const FormDataFailedText := "フォームデータの取得に失敗しました。"

  /** The message of a failed load. */
  function LoadFailure(a: FormDataAnswer): (reason: string)
    ensures a.FormDataHttpError? ==> reason == "HTTP error! status: " + NatToString(a.status) + ", body: " + a.body
    ensures a.FormDataRefused? ==> reason == OrElse(a.message, FormDataFailedText)
    ensures a.FormDataThrown? ==> reason == a.reason
  {
    match a
    case FormDataLoaded(_, _) => ""
    case FormDataHttpError(status, body) => "HTTP error! status: " + NatToString(status) + ", body: " + body
    case FormDataRefused(message) => OrElse(message, FormDataFailedText)
    case FormDataThrown(reason) => reason
  }

  /** One element of an error value's list: a message, or an object (which `join` writes as "[object Object]"). */
  datatype ErrorItem = ItemText(text: string) | ItemObject

  /** One value of the `errors` object: a message or a list. */
  datatype ErrorEntry = EntryText(text: string) | EntryList(items: seq<ErrorItem>)

  /** The `errors` member of a refusal: absent, an object (a DRF error detail), or a string (`str(e)`). */
  datatype ErrorsField = NoErrors | ErrorObject(values: seq<ErrorEntry>) | ErrorString(text: string)

  /** The answer of `record-result`. */
  datatype SubmitReply =
    | SubmitSucceeded(message: string)
    | SubmitRefused(message: string, errors: ErrorsField)
    | SubmitThrown(reason: string)

  function ItemString(i: ErrorItem): (t: string)
    ensures i.ItemText? ==> t == i.text
  {
    match i
    case ItemText(t) => t
    case ItemObject => "[object Object]"
  }

  /** `Object.values(errors).flat()` of an object: a list value is spread, a text stays one element. */
  function FlatValues(values: seq<ErrorEntry>): (r: seq<string>)
    ensures (forall k :: 0 <= k < |values| ==> values[k].EntryText?) ==> |r| == |values|
    decreases |values|
  {
    if values == [] then []
    else
      (match values[0]
       case EntryText(t) => [t]
       case EntryList(items) => MapSeq(items, ItemString))
      + FlatValues(values[1..])
  }

  /** `Object.values` of a string: its characters, one per element. */
  function Chars(t: string): (r: seq<string>)
    ensures |r| == |t| && forall i :: 0 <= i < |t| ==> r[i] == [t[i]]
  {
    seq(|t|, i requires 0 <= i < |t| => [t[i]])
  }

  /** The detail text as written: `Object.values(result.errors).flat().join('; ')`. */
  function ErrorDetailsAsWritten(errors: ErrorsField): (t: string)
    ensures errors.ErrorString? ==> t == Join(Chars(errors.text), "; ")
  {
    match errors
    case NoErrors => ""
    case ErrorObject(values) => Join(FlatValues(values), "; ")
    case ErrorString(text) => Join(Chars(text), "; ")
  }

  /** The detail text as intended: the messages of an object, or the string itself. */
  function ErrorDetails(errors: ErrorsField): (t: string)
    ensures errors.ErrorString? ==> t == errors.text
    ensures errors.ErrorObject? ==> t == ErrorDetailsAsWritten(errors)
  {
    match errors
    case NoErrors => ""
    case ErrorObject(values) => Join(FlatValues(values), "; ")
    case ErrorString(text) => text
  }

  /** Joining single characters with "; " writes 3n - 2 characters for n ≥ 1. */
  lemma {:induction false} JoinCharsLength(t: string)
    requires t != ""
    ensures |Join(Chars(t), "; ")| == 3 * |t| - 2
    decreases |t|
  {
    if |t| > 1 {
      assert Chars(t)[1..] == Chars(t[1..]);
      JoinCharsLength(t[1..]);
    }
  }

  /**
   * A string `errors` is spelled out character by character: "ab" is shown
   * as "a; b", and no text of two or more characters is shown as itself;
   * the intended detail shows it whole.
   */
  lemma TextErrorsSpelledOut(t: string)
    requires |t| >= 2
    ensures ErrorDetailsAsWritten(ErrorString(t)) != t
    ensures ErrorDetailsAsWritten(ErrorString("ab")) == "a; b"
    ensures ErrorDetails(ErrorString(t)) == t
  {
    JoinCharsLength(t);
    assert Chars("ab") == ["a", "b"];
    assert Chars("ab")[1..] == ["b"];
  }

  /** `if (result.errors)`: an object is always truthy, a string when not empty. */
  predicate HasErrors(errors: ErrorsField)
  {
    errors.ErrorObject? || (errors.ErrorString? && errors.text != "")
  }

  datatype Alert = Alert(show: bool, kind: string, message: string)

  const HiddenAlert := Alert(false, "", "")
  const RecordedText := "検査結果を登録しました。"
  const RecordFailedText := "登録に失敗しました。"
  const DetailsLabel := " 詳細: "
  const SendErrorPrefix := "送信エラーが発生しました: "

  /** The alert an answer shows. */
  function AlertFor(reply: SubmitReply): (a: Alert)
    ensures a.show
    ensures reply.SubmitSucceeded? <==> a.kind == "success"
    ensures reply.SubmitSucceeded? ==> a.message == OrElse(reply.message, RecordedText)
    ensures reply.SubmitRefused? ==>
      a.message == OrElse(reply.message, RecordFailedText)
        + (if HasErrors(reply.errors) then DetailsLabel + ErrorDetails(reply.errors) else "")
    ensures reply.SubmitThrown? ==> a.message == SendErrorPrefix + reply.reason
  {
    match reply
    case SubmitSucceeded(message) => Alert(true, "success", OrElse(message, RecordedText))
    case SubmitRefused(message, errors) =>
      Alert(true, "danger", OrElse(message, RecordFailedText)
        + (if HasErrors(errors) then DetailsLabel + ErrorDetails(errors) else ""))
    case SubmitThrown(reason) => Alert(true, "danger", SendErrorPrefix + reason)
  }

  const ItemsUrl := "/api/quality/inspection-items/"

  function FormDataUrl(itemId: string): string { ItemsUrl + itemId + "/form-data/" }
  function RecordUrl(itemId: string): string { ItemsUrl + itemId + "/record-result/" }

  /** The multipart post to `record-result`. */
  datatype RecordRequest = RecordRequest(url: string, parts: seq<Part>)

  // ---------------------------------------------------------------------
  // The modal
  // ---------------------------------------------------------------------

  class Screen {
    const itemId: string
    var loading: bool
    var error: Option<string>
    var baseFields: seq<FieldSpec>
    var measurementDetails: seq<DetailSpec>
    var formData: seq<Entry>
    var submitting: bool
    var alert: Alert

    constructor (itemId: string)
      ensures this.itemId == itemId && loading && error.None?
      ensures baseFields == [] && measurementDetails == [] && formData == []
      ensures !submitting && alert == HiddenAlert
    {
      this.itemId := itemId;
      loading, error := true, None;
      baseFields, measurementDetails, formData := [], [], [];
      submitting, alert := false, HiddenAlert;
    }

    /** `fetchModalData`: the fields, the details and the initial form; or the error, the rest kept. */
    method FetchModalData(answer: FormDataAnswer) returns (url: string)
      modifies this`loading, this`error, this`baseFields, this`measurementDetails, this`formData
      ensures url == FormDataUrl(itemId) && !loading
      ensures answer.FormDataLoaded? ==>
        && error.None? && baseFields == answer.fields && measurementDetails == answer.details
        && formData == InitialForm(answer.fields, answer.details)
      ensures !answer.FormDataLoaded? ==>
        && error == Some(LoadFailure(answer))
        && unchanged(this`baseFields, this`measurementDetails, this`formData)
    {
      url := FormDataUrl(itemId);
      error := None;
      match answer {
        case FormDataLoaded(fields, details) =>
          var form := BuildInitialForm(fields, details);
          baseFields, measurementDetails, formData := fields, details, form;
        case _ =>
          error := Some(LoadFailure(answer));
      }
      loading := false;
    }

    /** `handleInputChange`: the input's key takes its new value, keeping its place. */
    method HandleInputChange(name: string, event: InputEvent)
      modifies this`formData
      ensures formData == Upsert(old(formData), (name, InputValue(event)), EntryKey)
    {
      formData := Upsert(formData, (name, InputValue(event)), EntryKey);
    }

    /** `handleSubmit` up to the request: submitting, the alert hidden, the post built from the form. */
    method HandleSubmit() returns (request: RecordRequest)
      modifies this`submitting, this`alert
      ensures submitting && alert == HiddenAlert
      ensures request == RecordRequest(RecordUrl(itemId), Submission(formData))
    {
      submitting, alert := true, HiddenAlert;
      var parts := BuildSubmission(formData);
      request := RecordRequest(RecordUrl(itemId), parts);
    }

    /** The answer: its alert, and the button enabled again. */
    method FinishSubmit(reply: SubmitReply)
      modifies this`submitting, this`alert
      ensures !submitting && alert == AlertFor(reply)
    {
      alert := AlertFor(reply);
      submitting := false;
    }
  }
}

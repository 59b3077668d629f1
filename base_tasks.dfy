/**
 * The CSV import task (backend/src/base/tasks.py, `import_csv_task`): the
 * active column mappings of a data type, the conversion of each cell by the
 * type of the model field it maps to, the upsert of each row on the update
 * keys, and the import task row's status, progress and result.
 *
 * The CSV reader, the date parser, `int(float(...))`, the revocation check,
 * `update_or_create` and the field lookup are parameters (`Env`); the rows
 * come already split by `csv.DictReader`.
 */
module BaseTasks {
  import opened Common
  import opened BaseModels

  /** The kind of model field a column maps to; `NoSuchField` is a name `get_field` rejects. */
  datatype FieldKind = DateTimeField | DateField | IntegerField | BooleanField | OtherField | NoSuchField

  /** A converted cell; a date keeps its text and the first format that parsed it. */
  datatype FieldValue = DateValue(text: string, format: string) | IntValue(i: int) | BoolValue(b: bool) | TextValue(s: string)

  /** `int(float(value))`: a value, a `ValueError` with its text, or an `OverflowError`. */
  datatype IntParse = IntOk(i: int) | IntBad(reason: string) | IntOverflow

  /** `update_or_create`: a new row, an updated row, or a database error with its text. */
  datatype DbOutcome = Created | Updated | DbFailed(reason: string)

  datatype Pair = Pair(key: string, value: FieldValue)

  /** One `update_or_create` call: the lookup keys, in update-key order, and the defaults. */
  datatype Upsert = Upsert(keys: seq<Pair>, defaults: map<string, FieldValue>)

  /** A `csv.DictReader` row; a short row gives `None` for its missing cells. */
  type Row = map<string, Option<string>>

  /**
   * What the task meets from outside: field kinds, `strptime` and `int(float(…))`,
   * a revocation seen at the start of row `i`, the database's answer to each upsert, `repr`, and the
   * text of a missing-field error.
   */
  datatype Env = Env(
    kindOf: string -> FieldKind,
    parsesAs: (string, string) -> bool,
    toInt: string -> IntParse,
    revoked: nat -> bool,
    upsert: (nat, Upsert) -> DbOutcome,
    repr: seq<Pair> -> string,
    noField: string -> string)

  /** The `strptime` formats, tried in this order. */
  const DateFormats: seq<string> := ["%Y-%m-%d %H:%M:%S", "%Y-%m-%d %H:%M", "%Y/%m/%d %H:%M:%S", "%Y/%m/%d %H:%M", "%Y-%m-%d", "%Y/%m/%d"]

  /** The lower-cased texts a boolean column reads as true. */
  const TrueWords: seq<string> := ["true", "1", "yes", "t", "はい"]

  const NotADate := "対応する日付形式ではありません。"
  const NoneHasNoStrip := "'NoneType' object has no attribute 'strip'"
  const NoneHasNoSplit := "'NoneType' object has no attribute 'split'"
  const FloatOverflow := "cannot convert float infinity to integer"
  /** The message of `SoftTimeLimitExceeded`. */
  const TimedOutMessage := "タイムアウトしました。"
  const NoUpdateKey := "CSVインポートのための上書きキーがCSVマッピング設定で指定されていません。"

  function NoActiveMapping(dataType: string): string
  {
    "\"" + dataType + "\" に有効なCSVマッピング設定がありません。"
  }

  // ---------------------------------------------------------------------
  // The mappings
  // ---------------------------------------------------------------------

  predicate OrderedByOrder(ms: seq<CsvColumnMapping>)
  {
    forall i, j :: 0 <= i < j < |ms| ==> ms[i].order <= ms[j].order
  }

  /** Puts `m` after every mapping whose order is not above its own. */
  function InsertByOrder(sorted: seq<CsvColumnMapping>, m: CsvColumnMapping): (r: seq<CsvColumnMapping>)
    ensures multiset(r) == multiset(sorted) + multiset{m}
  {
    if sorted == [] then [m]
    else if m.order < sorted[0].order then [m] + sorted
    else
      assert sorted == [sorted[0]] + sorted[1..];
      [sorted[0]] + InsertByOrder(sorted[1..], m)
  }

  lemma {:induction false} InsertKeepsOrdered(sorted: seq<CsvColumnMapping>, m: CsvColumnMapping)
    requires OrderedByOrder(sorted)
    ensures OrderedByOrder(InsertByOrder(sorted, m))
  {
    if sorted != [] && m.order >= sorted[0].order {
      var rest := InsertByOrder(sorted[1..], m);
      InsertKeepsOrdered(sorted[1..], m);
      forall k | 0 <= k < |rest|
        ensures sorted[0].order <= rest[k].order
      {
        assert rest[k] in multiset(rest);
        if rest[k] != m {
          assert rest[k] in multiset(sorted[1..]);
          var j :| 0 <= j < |sorted[1..]| && sorted[1..][j] == rest[k];
          assert sorted[j + 1] == rest[k];
        }
      }
      var r := [sorted[0]] + rest;
      assert forall k :: 1 <= k < |r| ==> r[k] == rest[k - 1];
    }
  }

  /** `order_by("order")`, keeping equal orders in table order. */
  function SortByOrder(ms: seq<CsvColumnMapping>): (r: seq<CsvColumnMapping>)
    ensures multiset(r) == multiset(ms)
  {
    if ms == [] then []
    else
      assert ms == ms[..|ms| - 1] + [ms[|ms| - 1]];
      InsertByOrder(SortByOrder(ms[..|ms| - 1]), ms[|ms| - 1])
  }

  lemma {:induction false} SortByOrderOrdered(ms: seq<CsvColumnMapping>)
    ensures OrderedByOrder(SortByOrder(ms))
  {
    if ms != [] {
      SortByOrderOrdered(ms[..|ms| - 1]);
      InsertKeepsOrdered(SortByOrder(ms[..|ms| - 1]), ms[|ms| - 1]);
    }
  }

  predicate ActiveFor(m: CsvColumnMapping, dataType: string)
  {
    m.dataType == dataType && m.isActive
  }

  /** `filter(data_type=..., is_active=True)`, in table order. */
  function ActiveOf(table: seq<CsvColumnMapping>, dataType: string): (f: seq<CsvColumnMapping>)
    ensures forall m :: m in f <==> m in table && ActiveFor(m, dataType)
  {
    if table == [] then []
    else
      var rest := ActiveOf(table[1..], dataType);
      assert forall m :: m in table <==> m == table[0] || m in table[1..];
      (if ActiveFor(table[0], dataType) then [table[0]] else []) + rest
  }

  /** `filter(data_type=..., is_active=True).order_by("order")`. */
  function ActiveMappings(table: seq<CsvColumnMapping>, dataType: string): (r: seq<CsvColumnMapping>)
    ensures OrderedByOrder(r)
    ensures forall m :: m in r <==> m in table && ActiveFor(m, dataType)
  {
    var f := ActiveOf(table, dataType);
    SortByOrderOrdered(f);
    var r := SortByOrder(f);
    assert forall m :: m in r <==> m in multiset(f);
    r
  }

  /** Where `header` stands in the header map, or its length. */
  function HeaderIndex(d: seq<(string, string)>, header: string): (i: nat)
    ensures i <= |d|
    ensures i < |d| ==> d[i].0 == header
    ensures forall k :: 0 <= k < i ==> d[k].0 != header
  {
    if d == [] then 0
    else if d[0].0 == header then 0
    else HeaderIndex(d[1..], header) + 1
  }

  /** `d[header] = field` on a dict kept as its items in insertion order. */
  function PutHeader(d: seq<(string, string)>, header: string, field: string): seq<(string, string)>
  {
    var i := HeaderIndex(d, header);
    if i < |d| then d[i := (header, field)] else d + [(header, field)]
  }

  predicate UniqueHeaders(d: seq<(string, string)>)
  {
    forall i, j :: 0 <= i < j < |d| ==> d[i].0 != d[j].0
  }

  /** `{m.csv_header: m.model_field_name for m in mappings}`: a header keeps its first place and its last field. */
  function HeaderMap(ms: seq<CsvColumnMapping>): (d: seq<(string, string)>)
    ensures UniqueHeaders(d)
    ensures |d| <= |ms|
    ensures ms != [] ==> (ms[|ms| - 1].csvHeader, ms[|ms| - 1].modelFieldName) in d
    ensures forall k :: 0 <= k < |ms| ==> exists j :: 0 <= j < |d| && d[j].0 == ms[k].csvHeader
  {
    if ms == [] then []
    else
      var front := HeaderMap(ms[..|ms| - 1]);
      var last := ms[|ms| - 1];
      var i := HeaderIndex(front, last.csvHeader);
      var d := PutHeader(front, last.csvHeader, last.modelFieldName);
      assert d[i] == (last.csvHeader, last.modelFieldName);
      forall k | 0 <= k < |ms| ensures exists j :: 0 <= j < |d| && d[j].0 == ms[k].csvHeader {
        if k < |ms| - 1 {
          assert ms[k] == ms[..|ms| - 1][k];
          var j :| 0 <= j < |front| && front[j].0 == ms[k].csvHeader;
          assert d[j].0 == front[j].0 || j == i;
        } else {
          assert d[i].0 == ms[k].csvHeader;
        }
      }
      d
  }

  /** `[m.model_field_name for m in mappings if m.is_update_key]`. */
  function UpdateKeys(ms: seq<CsvColumnMapping>): (keys: seq<string>)
    ensures |keys| <= |ms|
    ensures keys == [] <==> forall i :: 0 <= i < |ms| ==> !ms[i].isUpdateKey
  {
    if ms == [] then []
    else (if ms[0].isUpdateKey then [ms[0].modelFieldName] else []) + UpdateKeys(ms[1..])
  }

  // ---------------------------------------------------------------------
  // One cell
  // ---------------------------------------------------------------------

  /** The first format in `formats` that parses `value`. */
  function FirstFormat(parsesAs: (string, string) -> bool, value: string, formats: seq<string>): (r: Option<string>)
    ensures r.Some? ==> r.value in formats && parsesAs(value, r.value)
    ensures r.None? <==> forall k :: 0 <= k < |formats| ==> !parsesAs(value, formats[k])
  {
    if formats == [] then None
    else if parsesAs(value, formats[0]) then Some(formats[0])
    else FirstFormat(parsesAs, value, formats[1..])
  }

  /** The loop over the date formats, stopping at the first that parses. */
  method FindDateFormat(parsesAs: (string, string) -> bool, value: string) returns (format: Option<string>)
    ensures format == FirstFormat(parsesAs, value, DateFormats)
  {
    var k := 0;
    while k < |DateFormats|
      invariant 0 <= k <= |DateFormats|
      invariant FirstFormat(parsesAs, value, DateFormats) == FirstFormat(parsesAs, value, DateFormats[k..])
    {
      if parsesAs(value, DateFormats[k]) {
        return Some(DateFormats[k]);
      }
      assert DateFormats[k..][1..] == DateFormats[k + 1..];
      k := k + 1;
    }
    return None;
  }

  /** A converted cell: blank, a value, a field error for the row, or an exception that ends the import task. */
  datatype Cell = CellNone | CellValue(v: FieldValue) | CellError(message: string) | CellAbort(error: string)

  /** `row.get(header, "")`. */
  function RawCell(row: Row, header: string): Option<string>
  {
    if header in row then row[header] else Some("")
  }

  function FieldErrorText(header: string, value: string, reason: string): string
  {
    "フィールド '" + header + "' の値 '" + value + "' は型が不正です: " + reason
  }

  function CellOf(env: Env, header: string, field: string, row: Row): (c: Cell)
    ensures c.CellNone? <==> RawCell(row, header).Some? && Strip(RawCell(row, header).value) == ""
  {
    var raw := RawCell(row, header);
    if raw.None? then CellAbort(NoneHasNoStrip)
    else
      var t := Strip(raw.value);
      if t == "" then CellNone
      else
        match env.kindOf(field)
        case NoSuchField => CellAbort(env.noField(field))
        case DateTimeField | DateField =>
          var f := FirstFormat(env.parsesAs, t, DateFormats);
          if f.None? then CellError(FieldErrorText(header, t, NotADate)) else CellValue(DateValue(t, f.value))
        case IntegerField =>
          (match env.toInt(t)
           case IntOk(i) => CellValue(IntValue(i))
           case IntBad(reason) => CellError(FieldErrorText(header, t, reason))
           case IntOverflow => CellAbort(FloatOverflow))
        case BooleanField => CellValue(BoolValue(LowerAscii(t) in TrueWords))
        case OtherField => CellValue(TextValue(t))
  }

  /** What a converted cell holds, by the kind of its field. */
  lemma CellMeaning(env: Env, header: string, field: string, row: Row)
    ensures (var c, raw := CellOf(env, header, field, row), RawCell(row, header);
      && (raw.None? ==> c == CellAbort(NoneHasNoStrip))
      && (c.CellAbort? && raw.Some? ==> env.kindOf(field) == NoSuchField || env.kindOf(field) == IntegerField)
      && (c.CellError? ==> env.kindOf(field) == DateField || env.kindOf(field) == DateTimeField || env.kindOf(field) == IntegerField)
      && (c.CellError? && env.kindOf(field) != IntegerField ==> FirstFormat(env.parsesAs, Strip(raw.value), DateFormats).None?)
      && (c.CellValue? ==> (var t := Strip(raw.value);
        && t != ""
        && (c.v.TextValue? <==> env.kindOf(field) == OtherField)
        && (c.v.TextValue? ==> c.v.s == t)
        && (c.v.BoolValue? <==> env.kindOf(field) == BooleanField)
        && (c.v.BoolValue? ==> c.v.b == (LowerAscii(t) in TrueWords))
        && (c.v.IntValue? ==> env.toInt(t) == IntOk(c.v.i) && env.kindOf(field) == IntegerField)
        && (c.v.DateValue? ==> c.v.text == t && Some(c.v.format) == FirstFormat(env.parsesAs, t, DateFormats)))))
  {
    var raw := RawCell(row, header);
    if raw.Some? && Strip(raw.value) != "" {
      var t := Strip(raw.value);
      var c := CellOf(env, header, field, row);
      match env.kindOf(field)
      case NoSuchField => assert c == CellAbort(env.noField(field));
      case DateTimeField =>
        var f := FirstFormat(env.parsesAs, t, DateFormats);
        assert c == if f.None? then CellError(FieldErrorText(header, t, NotADate)) else CellValue(DateValue(t, f.value));
      case DateField =>
        var f := FirstFormat(env.parsesAs, t, DateFormats);
        assert c == if f.None? then CellError(FieldErrorText(header, t, NotADate)) else CellValue(DateValue(t, f.value));
      case IntegerField => assert c.CellValue? ==> c.v.IntValue?;
      case BooleanField => assert c == CellValue(BoolValue(LowerAscii(t) in TrueWords));
      case OtherField => assert c == CellValue(TextValue(t));
    }
  }

  /** The cell conversion as the import task writes it, with the format loop. */
  method ConvertCell(env: Env, header: string, field: string, row: Row) returns (c: Cell)
    ensures c == CellOf(env, header, field, row)
  {
    var raw := RawCell(row, header);
    if raw.None? {
      return CellAbort(NoneHasNoStrip);
    }
    var t := Strip(raw.value);
    if t == "" {
      return CellNone;
    }
    var kind := env.kindOf(field);
    if kind == DateTimeField || kind == DateField {
      var f := FindDateFormat(env.parsesAs, t);
      if f.None? {
        return CellError(FieldErrorText(header, t, NotADate));
      }
      return CellValue(DateValue(t, f.value));
    }
    return CellOf(env, header, field, row);
  }

  // ---------------------------------------------------------------------
  // One row
  // ---------------------------------------------------------------------

  /** `model_data` and the row's field errors, or the exception that ends the import task. */
  datatype Converted = Converted(data: map<string, Option<FieldValue>>, errors: seq<string>) | ConvertAborted(error: string)

  /** One cell's effect on `model_data` and the row's errors. */
  function AddCell(data: map<string, Option<FieldValue>>, errors: seq<string>, field: string, c: Cell): (r: Converted)
    ensures r.ConvertAborted? <==> c.CellAbort?
    ensures r.Converted? ==> |errors| <= |r.errors| <= |errors| + 1
    ensures r.Converted? && c.CellError? ==> r.data == data && r.errors == errors + [c.message]
    ensures r.Converted? && !c.CellError? ==> r.errors == errors && r.data == data[field := if c.CellValue? then Some(c.v) else None]
  {
    match c
    case CellAbort(e) => ConvertAborted(e)
    case CellNone => Converted(data[field := None], errors)
    case CellValue(v) => Converted(data[field := Some(v)], errors)
    case CellError(m) => Converted(data, errors + [m])
  }

  /** The loop over the header map, as a fold over its entries. */
  function ConvertSpec(env: Env, headers: seq<(string, string)>, row: Row): (r: Converted)
    ensures r.Converted? ==> |r.errors| <= |headers|
  {
    if headers == [] then Converted(map[], [])
    else
      var front := ConvertSpec(env, headers[..|headers| - 1], row);
      var (h, f) := headers[|headers| - 1];
      if front.ConvertAborted? then front
      else AddCell(front.data, front.errors, f, CellOf(env, h, f, row))
  }

  /** No cell of the row raises. */
  predicate NoCellAborts(env: Env, headers: seq<(string, string)>, row: Row)
  {
    forall k :: 0 <= k < |headers| ==> !CellOf(env, headers[k].0, headers[k].1, row).CellAbort?
  }

  /** No cell of the row is malformed. */
  predicate NoCellErrs(env: Env, headers: seq<(string, string)>, row: Row)
  {
    forall k :: 0 <= k < |headers| ==> !CellOf(env, headers[k].0, headers[k].1, row).CellError?
  }

  lemma NoCellAbortsSnoc(env: Env, headers: seq<(string, string)>, row: Row)
    requires headers != []
    ensures NoCellAborts(env, headers, row) <==>
      NoCellAborts(env, headers[..|headers| - 1], row) && !CellOf(env, headers[|headers| - 1].0, headers[|headers| - 1].1, row).CellAbort?
  {
    var front := headers[..|headers| - 1];
    forall k | 0 <= k < |front|
      ensures CellOf(env, front[k].0, front[k].1, row) == CellOf(env, headers[k].0, headers[k].1, row)
    {
      assert front[k] == headers[k];
    }
  }

  lemma NoCellErrsSnoc(env: Env, headers: seq<(string, string)>, row: Row)
    requires headers != []
    ensures NoCellErrs(env, headers, row) <==>
      NoCellErrs(env, headers[..|headers| - 1], row) && !CellOf(env, headers[|headers| - 1].0, headers[|headers| - 1].1, row).CellError?
  {
    var front := headers[..|headers| - 1];
    forall k | 0 <= k < |front|
      ensures CellOf(env, front[k].0, front[k].1, row) == CellOf(env, headers[k].0, headers[k].1, row)
    {
      assert front[k] == headers[k];
    }
  }

  /** A row stops the import task exactly when one of its cells does. */
  lemma {:induction false} ConvertSpecAborts(env: Env, headers: seq<(string, string)>, row: Row)
    ensures ConvertSpec(env, headers, row).Converted? <==> NoCellAborts(env, headers, row)
  {
    if headers != [] {
      var front := headers[..|headers| - 1];
      ConvertSpecAborts(env, front, row);
      var c := CellOf(env, headers[|front|].0, headers[|front|].1, row);
      assert ConvertSpec(env, headers, row) ==
        if ConvertSpec(env, front, row).ConvertAborted? then ConvertSpec(env, front, row)
        else AddCell(ConvertSpec(env, front, row).data, ConvertSpec(env, front, row).errors, headers[|front|].1, c);
      NoCellAbortsSnoc(env, headers, row);
    }
  }

  /** A row that is converted fails exactly when one of its cells is malformed. */
  lemma {:induction false} ConvertSpecErrs(env: Env, headers: seq<(string, string)>, row: Row)
    requires ConvertSpec(env, headers, row).Converted?
    ensures ConvertSpec(env, headers, row).errors == [] <==> NoCellErrs(env, headers, row)
  {
    if headers != [] {
      var front := headers[..|headers| - 1];
      var fr := ConvertSpec(env, front, row);
      var c := CellOf(env, headers[|front|].0, headers[|front|].1, row);
      assert ConvertSpec(env, headers, row) ==
        if fr.ConvertAborted? then fr else AddCell(fr.data, fr.errors, headers[|front|].1, c);
      assert fr.Converted?;
      ConvertSpecErrs(env, front, row);
      assert ConvertSpec(env, headers, row).errors == [] <==> fr.errors == [] && !c.CellError?;
      NoCellErrsSnoc(env, headers, row);
    }
  }

  /** A row stops the import task exactly when one of its cells does, and fails exactly when one of its cells is malformed. */
  lemma ConvertSpecCells(env: Env, headers: seq<(string, string)>, row: Row)
    ensures ConvertSpec(env, headers, row).Converted? <==> NoCellAborts(env, headers, row)
    ensures ConvertSpec(env, headers, row).Converted? ==> (ConvertSpec(env, headers, row).errors == [] <==> NoCellErrs(env, headers, row))
  {
    ConvertSpecAborts(env, headers, row);
    if ConvertSpec(env, headers, row).Converted? {
      ConvertSpecErrs(env, headers, row);
    }
  }

  lemma ConvertSpecSnoc(env: Env, headers: seq<(string, string)>, row: Row, k: nat)
    requires k < |headers|
    ensures ConvertSpec(env, headers[..k + 1], row) == (var front := ConvertSpec(env, headers[..k], row);
      if front.ConvertAborted? then front else AddCell(front.data, front.errors, headers[k].1, CellOf(env, headers[k].0, headers[k].1, row)))
  {
    assert headers[..k + 1][..k] == headers[..k];
  }

  /** Once a cell has raised, the later headers are never read. */
  lemma {:induction false} ConvertAbortStays(env: Env, headers: seq<(string, string)>, row: Row, k: nat)
    requires k <= |headers|
    requires ConvertSpec(env, headers[..k], row).ConvertAborted?
    ensures ConvertSpec(env, headers, row) == ConvertSpec(env, headers[..k], row)
  {
    if k < |headers| {
      var front := headers[..|headers| - 1];
      assert front[..k] == headers[..k];
      ConvertAbortStays(env, front, row, k);
    } else {
      assert headers[..k] == headers;
    }
  }

  method ConvertRow(env: Env, headers: seq<(string, string)>, row: Row) returns (r: Converted)
    ensures r == ConvertSpec(env, headers, row)
  {
    var data: map<string, Option<FieldValue>> := map[];
    var errors: seq<string> := [];
    var k := 0;
    while k < |headers|
      invariant 0 <= k <= |headers|
      invariant ConvertSpec(env, headers[..k], row) == Converted(data, errors)
    {
      ConvertSpecSnoc(env, headers, row, k);
      var c := ConvertCell(env, headers[k].0, headers[k].1, row);
      var next := AddCell(data, errors, headers[k].1, c);
      if next.ConvertAborted? {
        ConvertAbortStays(env, headers, row, k + 1);
        return next;
      }
      data, errors := next.data, next.errors;
      k := k + 1;
    }
    assert headers[..|headers|] == headers;
    return Converted(data, errors);
  }

  predicate NoKeyIn(kw: seq<Pair>, f: string)
  {
    forall k :: 0 <= k < |kw| ==> kw[k].key != f
  }

  /** `{key: model_data.pop(key) for key in keys if key in model_data and model_data[key] is not None}`. */
  function PopKeys(keys: seq<string>, data: map<string, Option<FieldValue>>): (r: (seq<Pair>, map<string, Option<FieldValue>>))
    ensures |r.0| <= |keys|
    ensures forall k :: 0 <= k < |r.0| ==> r.0[k].key in keys && r.0[k].key in data && data[r.0[k].key] == Some(r.0[k].value)
    ensures forall f :: f in r.1 <==> f in data && NoKeyIn(r.0, f)
    ensures forall f :: f in r.1 ==> r.1[f] == data[f]
  {
    if keys == [] then ([], data)
    else
      var k := keys[0];
      if k in data && data[k].Some? then
        var rest := PopKeys(keys[1..], data - {k});
        var kw := [Pair(k, data[k].value)] + rest.0;
        assert forall f :: NoKeyIn(kw, f) <==> f != k && NoKeyIn(rest.0, f) by {
          forall f ensures NoKeyIn(kw, f) <==> f != k && NoKeyIn(rest.0, f) {
            assert forall j :: 1 <= j < |kw| ==> kw[j] == rest.0[j - 1];
            if f != k && NoKeyIn(rest.0, f) {
              forall j | 0 <= j < |kw| ensures kw[j].key != f {
                if j > 0 { assert kw[j] == rest.0[j - 1]; }
              }
            }
            if NoKeyIn(kw, f) {
              assert kw[0].key == k;
              forall j | 0 <= j < |rest.0| ensures rest.0[j].key != f {
                assert kw[j + 1] == rest.0[j];
              }
            }
          }
        }
        (kw, rest.1)
      else
        PopKeys(keys[1..], data)
  }

  /** Every update key is popped exactly when each is present, not blank, and not repeated. */
  lemma {:induction false} PopKeysAll(keys: seq<string>, data: map<string, Option<FieldValue>>)
    ensures |PopKeys(keys, data).0| == |keys| <==>
      forall j :: 0 <= j < |keys| ==> keys[j] in data && data[keys[j]].Some? && keys[j] !in keys[..j]
  {
    if keys != [] {
      var k := keys[0];
      assert forall j :: 0 < j < |keys| ==> keys[j] == keys[1..][j - 1] && keys[..j] == [k] + keys[1..][..j - 1];
      if k in data && data[k].Some? {
        PopKeysAll(keys[1..], data - {k});
      } else {
        PopKeysAll(keys[1..], data);
        assert |PopKeys(keys, data).0| <= |keys[1..]|;
      }
    }
  }

  /** `{k: v for k, v in model_data.items() if v is not None}`. */
  function Defaults(data: map<string, Option<FieldValue>>): (d: map<string, FieldValue>)
    ensures forall f :: f in d <==> f in data && data[f].Some?
    ensures forall f :: f in d ==> data[f] == Some(d[f])
  {
    map f | f in data && data[f].Some? :: data[f].value
  }

  /** Row `i` of the reader (counted from 1) is labelled `i + 1`, its line in the file. */
  function LineLabel(i: nat): string
  {
    "行 " + IntToString(i + 1)
  }

  /** What one row leads to: a skip with its message, an upsert, or an exception ending the import task. */
  datatype RowOutcome = RowSkipped(message: string) | RowUpsert(call: Upsert) | RowAbort(error: string)

  /** "行 {i+1}: " and the row's field errors joined by "; ". */
  function FieldErrorsText(i: nat, errors: seq<string>): (t: string)
    ensures StartsWith(t, LineLabel(i))
  {
    var rest := ": " + Join(errors, "; ");
    StartsWithPrefix(LineLabel(i), rest);
    LineLabel(i) + rest
  }

  /** "行 {i+1}: " and the message naming the update keys. */
  function MissingKeyText(i: nat, keys: seq<string>): (t: string)
    ensures StartsWith(t, LineLabel(i))
  {
    var rest := ": 上書きキー (" + Join(keys, ", ") + ") の値が空、または見つかりません。";
    StartsWithPrefix(LineLabel(i), rest);
    LineLabel(i) + rest
  }

  /** The lookup keys and defaults of a converted row whose keys are all there, or `None`. */
  function UpsertOf(keys: seq<string>, data: map<string, Option<FieldValue>>): (r: Option<Upsert>)
    ensures r.Some? ==> |r.value.keys| == |keys| && forall k :: 0 <= k < |r.value.keys| ==> r.value.keys[k].key !in r.value.defaults
    ensures r.None? ==> exists j :: 0 <= j < |keys| && (keys[j] !in data || data[keys[j]].None? || keys[j] in keys[..j])
  {
    var (kw, rest) := PopKeys(keys, data);
    PopKeysAll(keys, data);
    if |kw| != |keys| then None
    else
      assert forall k :: 0 <= k < |kw| ==> kw[k].key !in rest by {
        forall k | 0 <= k < |kw| ensures kw[k].key !in rest {
          assert !NoKeyIn(kw, kw[k].key);
        }
      }
      Some(Upsert(kw, Defaults(rest)))
  }

  function RowStep(env: Env, headers: seq<(string, string)>, keys: seq<string>, i: nat, row: Row): (r: RowOutcome)
    ensures r.RowAbort? <==> ConvertSpec(env, headers, row).ConvertAborted?
    ensures r.RowUpsert? ==> ConvertSpec(env, headers, row).Converted? && ConvertSpec(env, headers, row).errors == []
    ensures r.RowSkipped? ==> StartsWith(r.message, LineLabel(i))
  {
    match ConvertSpec(env, headers, row)
    case ConvertAborted(e) => RowAbort(e)
    case Converted(data, errors) =>
      if errors != [] then
        RowSkipped(FieldErrorsText(i, errors))
      else
        var u := UpsertOf(keys, data);
        if u.None? then
          RowSkipped(MissingKeyText(i, keys))
        else RowUpsert(u.value)
  }

  /** A row whose update key is blank, absent or repeated is skipped with the key message, never upserted. */
  lemma BlankKeySkips(env: Env, headers: seq<(string, string)>, keys: seq<string>, i: nat, row: Row, j: nat)
    requires j < |keys|
    requires ConvertSpec(env, headers, row).Converted? && ConvertSpec(env, headers, row).errors == []
    requires keys[j] !in ConvertSpec(env, headers, row).data || ConvertSpec(env, headers, row).data[keys[j]].None?
    ensures RowStep(env, headers, keys, i, row) == RowSkipped(MissingKeyText(i, keys))
  {
    PopKeysAll(keys, ConvertSpec(env, headers, row).data);
  }

  // ---------------------------------------------------------------------
  // All rows
  // ---------------------------------------------------------------------

  /** The import task's running counts and its in-memory progress, with the upserts of this run. */
  datatype Tally = Tally(created: nat, updated: nat, errors: seq<string>, progress: nat, upserts: seq<Upsert>)

  /** Still going, stopped by a revocation seen at the start of a row, or ended by an exception. */
  datatype Run = Running(t: Tally) | RevokedRun(t: Tally) | AbortedRun(error: string, t: Tally)

  function DbErrorText(env: Env, i: nat, keys: seq<Pair>, reason: string): string
  {
    LineLabel(i) + " (" + env.repr(keys) + "): データベース保存エラー - " + reason
  }

  /** What a row's outcome does to the tally: an upsert counts as created or updated, or its database error is kept. */
  function Apply(env: Env, i: nat, o: RowOutcome, t: Tally): (r: Run)
    ensures r.Running? <==> !o.RowAbort?
    ensures r.Running? ==> r.t.created + r.t.updated + |r.t.errors| == t.created + t.updated + |t.errors| + 1
    ensures r.Running? ==> r.t.created + r.t.updated - |r.t.upserts| == t.created + t.updated - |t.upserts|
    ensures r.Running? ==> r.t.progress == (if o.RowUpsert? then i else t.progress)
    ensures r.Running? ==> r.t.upserts == t.upserts + (if o.RowUpsert? && !env.upsert(i, o.call).DbFailed? then [o.call] else [])
    ensures r.AbortedRun? ==> r == AbortedRun(o.error, t)
  {
    match o
    case RowAbort(e) => AbortedRun(e, t)
    case RowSkipped(m) => Running(t.(errors := t.errors + [m]))
    case RowUpsert(call) =>
      (match env.upsert(i, call)
       case Created => Running(t.(created := t.created + 1, progress := i, upserts := t.upserts + [call]))
       case Updated => Running(t.(updated := t.updated + 1, progress := i, upserts := t.upserts + [call]))
       case DbFailed(reason) => Running(t.(errors := t.errors + [DbErrorText(env, i, call.keys, reason)], progress := i)))
  }

  /** Row `i` (counted from 1) of the loop: the revocation check comes first. */
  function Step(env: Env, headers: seq<(string, string)>, keys: seq<string>, i: nat, row: Row, t: Tally): (r: Run)
    ensures r.RevokedRun? <==> env.revoked(i)
    ensures !r.Running? ==> r.t == t
  {
    if env.revoked(i) then RevokedRun(t) else Apply(env, i, RowStep(env, headers, keys, i, row), t)
  }

  /** The loop over the rows, numbered from 1; a revocation or an exception stops it. */
  function Fold(env: Env, headers: seq<(string, string)>, keys: seq<string>, rows: seq<Row>, t0: Tally): Run
  {
    if rows == [] then Running(t0)
    else
      var before := Fold(env, headers, keys, rows[..|rows| - 1], t0);
      if before.Running? then Step(env, headers, keys, |rows|, rows[|rows| - 1], before.t) else before
  }

  /** Every row the loop got through counts once: as created, as updated, or as an error. */
  lemma {:induction false} EveryRowCountsOnce(env: Env, headers: seq<(string, string)>, keys: seq<string>, rows: seq<Row>, t0: Tally)
    requires t0.created == 0 && t0.updated == 0 && t0.errors == [] && t0.upserts == []
    ensures Fold(env, headers, keys, rows, t0).Running? ==> (
      var t := Fold(env, headers, keys, rows, t0).t;
      t.created + t.updated + |t.errors| == |rows| && t.created + t.updated == |t.upserts|)
  {
    if rows != [] {
      EveryRowCountsOnce(env, headers, keys, rows[..|rows| - 1], t0);
    }
  }

  /** Whether row `j` (counted from 0) of `rows` reaches `update_or_create`. */
  predicate Upserted(env: Env, headers: seq<(string, string)>, keys: seq<string>, rows: seq<Row>, j: nat)
    requires j < |rows|
  {
    RowStep(env, headers, keys, j + 1, rows[j]).RowUpsert?
  }

  /** The progress is the number of the last row that reached the upsert, or what it was before the run. */
  lemma {:induction false} ProgressIsLastUpsertedRow(env: Env, headers: seq<(string, string)>, keys: seq<string>, rows: seq<Row>, t0: Tally)
    requires Fold(env, headers, keys, rows, t0).Running?
    ensures (var p := Fold(env, headers, keys, rows, t0).t.progress;
      && (p == t0.progress || (1 <= p <= |rows| && Upserted(env, headers, keys, rows, p - 1)))
      && forall j :: p <= j < |rows| ==> !Upserted(env, headers, keys, rows, j))
  {
    if rows != [] {
      var front := rows[..|rows| - 1];
      var before := Fold(env, headers, keys, front, t0);
      ProgressIsLastUpsertedRow(env, headers, keys, front, t0);
      var p := before.t.progress;
      forall j | 0 <= j < |front| ensures Upserted(env, headers, keys, rows, j) == Upserted(env, headers, keys, front, j) {
        assert rows[j] == front[j];
      }
      var last := |rows| - 1;
      var q := Fold(env, headers, keys, rows, t0).t.progress;
      if !Upserted(env, headers, keys, rows, last) {
        assert q == p;
        assert forall j :: p <= j < |front| ==> !Upserted(env, headers, keys, front, j);
        forall j | q <= j < |rows| ensures !Upserted(env, headers, keys, rows, j) {
          if j < last {
            assert !Upserted(env, headers, keys, front, j);
            assert Upserted(env, headers, keys, rows, j) == Upserted(env, headers, keys, front, j);
          } else {
            assert j == last;
          }
        }
      } else {
        assert q == |rows|;
      }
    }
  }

  /** Once the loop has stopped, later rows change nothing. */
  lemma {:induction false} StoppedStaysStopped(env: Env, headers: seq<(string, string)>, keys: seq<string>, rows: seq<Row>, t0: Tally, k: nat)
    requires k <= |rows|
    requires !Fold(env, headers, keys, rows[..k], t0).Running?
    ensures Fold(env, headers, keys, rows, t0) == Fold(env, headers, keys, rows[..k], t0)
    decreases |rows|
  {
    if k < |rows| {
      var front := rows[..|rows| - 1];
      assert front[..k] == rows[..k];
      StoppedStaysStopped(env, headers, keys, front, t0, k);
    } else {
      assert rows[..k] == rows;
    }
  }

  /** A row's conversion loop, then its field errors or its update keys. */
  method ConvertAndKey(env: Env, headers: seq<(string, string)>, keys: seq<string>, i: nat, row: Row) returns (o: RowOutcome)
    ensures o == RowStep(env, headers, keys, i, row)
  {
    var converted := ConvertRow(env, headers, row);
    if converted.ConvertAborted? {
      return RowAbort(converted.error);
    }
    if converted.errors != [] {
      return RowSkipped(FieldErrorsText(i, converted.errors));
    }
    var call := UpsertOf(keys, converted.data);
    if call.None? {
      return RowSkipped(MissingKeyText(i, keys));
    }
    return RowUpsert(call.value);
  }

  /** The row loop inside `transaction.atomic()`, up to the end of the file, a revocation or an exception. */
  method ImportRows(env: Env, headers: seq<(string, string)>, keys: seq<string>, rows: seq<Row>, t0: Tally) returns (run: Run)
    ensures run == Fold(env, headers, keys, rows, t0)
  {
    var t := t0;
    var k := 0;
    while k < |rows|
      invariant 0 <= k <= |rows|
      invariant Fold(env, headers, keys, rows[..k], t0) == Running(t)
    {
      assert rows[..k + 1][..k] == rows[..k];
      var r := RevokedRun(t);
      if !env.revoked(k + 1) {
        var o := ConvertAndKey(env, headers, keys, k + 1, rows[k]);
        r := Apply(env, k + 1, o, t);
      }
      if !r.Running? {
        StoppedStaysStopped(env, headers, keys, rows, t0, k + 1);
        return r;
      }
      t := r.t;
      k := k + 1;
    }
    assert rows[..|rows|] == rows;
    return Running(t);
  }

  /** The checks before the rows are read: the message of the exception they raise, or `None`. */
  function SetupError(table: seq<CsvColumnMapping>, dataType: string): Option<string>
  {
    var active := ActiveMappings(table, dataType);
    if active == [] then Some(NoActiveMapping(dataType))
    else if dataType !in ModelMapping then Some(NoneHasNoSplit)
    else if UpdateKeys(active) == [] then Some(NoUpdateKey)
    else None
  }

  /** The checks fail on a data type without active mappings, on an unknown model, and pass only with an active update key. */
  lemma SetupErrorMeaning(table: seq<CsvColumnMapping>, dataType: string)
    ensures (forall m :: m in table ==> !ActiveFor(m, dataType)) ==> SetupError(table, dataType) == Some(NoActiveMapping(dataType))
    ensures (exists m :: m in table && ActiveFor(m, dataType)) && dataType !in ModelMapping ==>
      SetupError(table, dataType) == Some(NoneHasNoSplit)
    ensures SetupError(table, dataType).None? ==>
      dataType in ModelMapping && exists m :: m in table && ActiveFor(m, dataType) && m.isUpdateKey
  {
    var active := ActiveMappings(table, dataType);
    if active != [] {
      assert active[0] in active;
      if dataType in ModelMapping && UpdateKeys(active) != [] {
        var j :| 0 <= j < |active| && active[j].isUpdateKey;
        assert active[j] in active;
      }
    }
  }

  /**
   * The import task row and the committed upserts after the row loop, from those before it: a
   * finished loop sets SUCCESS exactly when no row failed, and the counts; a revocation
   * keeps the loop's upserts; an exception rolls them back and records its message.
   */
  predicate Finished(before: AsyncTask, committedBefore: seq<Upsert>, task: AsyncTask, committed: seq<Upsert>, run: Run, total: nat)
  {
    match run
    case Running(t) =>
      && task == before.(status := if t.errors == [] then Success else Failure, progress := total,
           result := Some(ImportCounts(t.created, t.updated, t.errors)))
      && committed == committedBefore + t.upserts
    case RevokedRun(t) => task == before.(status := Revoked, progress := t.progress) && committed == committedBefore + t.upserts
    case AbortedRun(e, t) =>
      task == before.(status := Failure, progress := t.progress, result := Some(ImportError(e))) && committed == committedBefore
  }

  /**
   * The row loop cut short by Celery's soft time limit: `limit` is the number
   * of rows done when `SoftTimeLimitExceeded` is raised (`None` when it never
   * is). A run still going at that point ends like any exception, with the
   * timeout message.
   */
  function TimeLimited(env: Env, headers: seq<(string, string)>, keys: seq<string>, rows: seq<Row>, t0: Tally, limit: Option<nat>): Run
  {
    if limit.Some? && limit.value < |rows| then
      var run := Fold(env, headers, keys, rows[..limit.value], t0);
      if run.Running? then AbortedRun(TimedOutMessage, run.t) else run
    else Fold(env, headers, keys, rows, t0)
  }

  /** A run the time limit cuts short commits nothing and records FAILURE with the timeout message and the progress reached. */
  lemma TimedOutRollsBack(env: Env, headers: seq<(string, string)>, keys: seq<string>, rows: seq<Row>, t0: Tally, k: nat,
                          before: AsyncTask, committedBefore: seq<Upsert>, task: AsyncTask, committed: seq<Upsert>, total: nat)
    requires k < |rows| && Fold(env, headers, keys, rows[..k], t0).Running?
    requires Finished(before, committedBefore, task, committed, TimeLimited(env, headers, keys, rows, t0, Some(k)), total)
    ensures committed == committedBefore
    ensures task == before.(status := Failure, progress := Fold(env, headers, keys, rows[..k], t0).t.progress,
      result := Some(ImportError(TimedOutMessage)))
  {
  }

  /** The import task row and the import's committed upserts. */
  class ImportJob {
    var task: AsyncTask
    var committed: seq<Upsert>
    var fileExists: bool

    constructor (task: AsyncTask)
      ensures this.task == task && committed == [] && fileExists
    {
      this.task := task;
      committed := [];
      fileExists := true;
    }

    /**
     * `import_csv_task`: the import task is STARTED, the checks on the mappings and
     * the model run, then the rows inside one transaction; the temporary
     * file is removed on every path. `lineCount` is the number of lines of
     * the file, header included; `limit` is where the soft time limit stops the rows.
     */
    method Run(env: Env, dataType: string, table: seq<CsvColumnMapping>, lineCount: nat, rows: seq<Row>, limit: Option<nat>)
      modifies this
      ensures !fileExists
      ensures SetupError(table, dataType).Some? ==> (task == old(task).(status := Failure,
        result := Some(ImportError(SetupError(table, dataType).value))) && committed == old(committed))
      ensures SetupError(table, dataType).None? && lineCount == 0 ==> task == old(task).(status := Started) && committed == old(committed)
      ensures SetupError(table, dataType).None? && lineCount >= 1 ==>
        Finished(old(task).(status := Started, total := lineCount - 1), old(committed), task, committed,
          TimeLimited(env, HeaderMap(ActiveMappings(table, dataType)), UpdateKeys(ActiveMappings(table, dataType)), rows,
            Tally(0, 0, [], old(task).progress, []), limit), lineCount - 1)
    {
      task := task.(status := Started);
      var failed := SetupError(table, dataType);
      if failed.Some? {
        task := task.(status := Failure, result := Some(ImportError(failed.value)));
        fileExists := false;
        return;
      }
      if lineCount == 0 {
        // A total of -1 fails the save, and so does the failure handler's save: the row stays STARTED.
        fileExists := false;
        return;
      }
      task := task.(total := lineCount - 1);
      ImportAll(env, ActiveMappings(table, dataType), lineCount - 1, rows, limit);
    }

    /** The row loop over the active mappings, up to the time limit, then `Finish`. */
    method ImportAll(env: Env, active: seq<CsvColumnMapping>, total: nat, rows: seq<Row>, limit: Option<nat>)
      modifies this
      ensures !fileExists
      ensures Finished(old(task), old(committed), task, committed,
        TimeLimited(env, HeaderMap(active), UpdateKeys(active), rows, Tally(0, 0, [], old(task).progress, []), limit), total)
    {
      var cut := limit.Some? && limit.value < |rows|;
      var run := ImportRows(env, HeaderMap(active), UpdateKeys(active), if cut then rows[..limit.value] else rows,
        Tally(0, 0, [], task.progress, []));
      if cut && run.Running? {
        run := AbortedRun(TimedOutMessage, run.t);
      }
      Finish(run, total);
    }

    /** After the row loop: the transaction commits or rolls back, the import task row is saved, the file is removed. */
    method Finish(run: Run, total: nat)
      modifies this
      ensures !fileExists
      ensures Finished(old(task), old(committed), task, committed, run, total)
    {
      match run {
        case Running(t) =>
          task := task.(status := if t.errors == [] then Success else Failure, progress := total,
            result := Some(ImportCounts(t.created, t.updated, t.errors)));
          committed := committed + t.upserts;
        case RevokedRun(t) =>
          task := task.(status := Revoked, progress := t.progress);
          committed := committed + t.upserts;
        case AbortedRun(e, t) =>
          task := task.(status := Failure, progress := t.progress, result := Some(ImportError(e)));
      }
      fileExists := false;
    }
  }
}

/**
 * The `base` REST endpoints (backend/src/base/api.py): resolving a scanned
 * QR code against the configured actions, cancelling an import task, and the
 * two bulk-save endpoints that replace every CSV mapping or display setting
 * of one data type.
 *
 * The Python parts the server runs but whose code is not the application's
 * are parameters: whether a wrapped action script compiles (`exec`), what
 * `re.match` answers for a pattern and a text (a match anchored at the start
 * of the text, a miss, or `re.error` for an invalid pattern), and what the
 * compiled `run_action(qr_data)` returns or raises.
 */
module BaseApi {
  import opened Common
  import opened BaseModels

  // ---------------------------------------------------------------------
  // QR code action resolution (`QrCodeActionViewSet.execute_action`)
  // ---------------------------------------------------------------------

  /** What `re.match(pattern, qr_data)` does: match at the start, no match, or raise `re.error`. */
  datatype MatchOutcome = Matched | NoMatch | PatternError

  /** The two kinds of exception the endpoint tells apart. */
  datatype ScriptFailure = RegexError | OtherError

  /** Running a compiled action script: it raises, or returns a value (`None` included). */
  datatype ScriptOutcome<V> = Raised(failure: ScriptFailure) | Returned(value: Option<V>)

  datatype Engine<V> = Engine(
    compiles: string -> bool,
    reMatch: (string, string) -> MatchOutcome,
    run: (string, string) -> ScriptOutcome<V>)

  /** The endpoint's answers: 400, 404 `not_found`, 500 with the action name, 200 with the result. */
  datatype QrResponse<V> =
    | QrBadRequest
    | QrNotFound
    | QrServerError(actionName: string)
    | QrSuccess(actionName: string, result: V)

  function QrStatus<V>(r: QrResponse<V>): (code: int)
    ensures code in {200, 400, 404, 500}
    ensures code == 200 <==> r.QrSuccess?
  {
    match r
    case QrBadRequest => 400
    case QrNotFound => 404
    case QrServerError(_) => 500
    case QrSuccess(_, _) => 200
  }

  /** The outcome of one rule: try the next rule, or answer. */
  datatype Step<V> = Next | Stop(response: QrResponse<V>)

  predicate ActiveScript(a: QrCodeAction) { a.isActive && a.actionType == Script }
  predicate ActiveRegex(a: QrCodeAction) { a.isActive && a.actionType == Regex }
  predicate IsActive(a: QrCodeAction) { a.isActive }

  /**
   * `filter(is_active=True).order_by("-action_type")`: the active rules,
   * "script" rules before "regex" rules. The query fixes no order among rules
   * of one type; the table order stands for whatever the database returns.
   */
  function EvaluationOrder(table: seq<QrCodeAction>): seq<QrCodeAction>
  {
    Filter(table, ActiveScript) + Filter(table, ActiveRegex)
  }

  /** What running a script means for the loop: `re.error` skips, other errors abort, `None` skips. */
  function AfterRun<V>(o: ScriptOutcome<V>, name: string): Step<V>
  {
    match o
    case Raised(RegexError) => Next
    case Raised(OtherError) => Stop(QrServerError(name))
    case Returned(None) => Next
    case Returned(Some(v)) => Stop(QrSuccess(name, v))
  }

  /**
   * One iteration of the loop: the script is compiled first, for every rule;
   * a regex rule runs its script only when its pattern is non-empty and
   * matches; a script rule always runs its script.
   */
  function RuleStep<V>(e: Engine<V>, a: QrCodeAction, qr: string): Step<V>
  {
    if !e.compiles(a.script) then Stop(QrServerError(a.name))
    else if a.actionType == Regex then
      if a.pattern == "" then Next
      else match e.reMatch(a.pattern, qr)
        case PatternError => Next
        case NoMatch => Next
        case Matched => AfterRun(e.run(a.script, qr), a.name)
    else AfterRun(e.run(a.script, qr), a.name)
  }

  /** First-match evaluation of the rules in order; 404 when every rule passes. */
  function Resolve<V>(e: Engine<V>, rules: seq<QrCodeAction>, qr: string): QrResponse<V>
  {
    if rules == [] then QrNotFound
    else match RuleStep(e, rules[0], qr)
      case Next => Resolve(e, rules[1..], qr)
      case Stop(r) => r
  }

  /** The whole endpoint: a missing or empty `qr_data` is answered 400 before any rule is read. */
  function ExecuteSpec<V>(e: Engine<V>, table: seq<QrCodeAction>, qrData: Option<string>): QrResponse<V>
  {
    if qrData.None? || qrData.value == "" then QrBadRequest
    else Resolve(e, EvaluationOrder(table), qrData.value)
  }

  method ExecuteAction<V>(e: Engine<V>, table: seq<QrCodeAction>, qrData: Option<string>)
    returns (resp: QrResponse<V>)
    ensures resp == ExecuteSpec(e, table, qrData)
  {
    if qrData.None? || qrData.value == "" {
      return QrBadRequest;
    }
    var qr := qrData.value;
    var actions := EvaluationOrder(table);
    for i := 0 to |actions|
      invariant Resolve(e, actions[i..], qr) == Resolve(e, actions, qr)
    {
      var a := actions[i];
      assert actions[i..][0] == a && actions[i..][1..] == actions[i + 1..];
      if !e.compiles(a.script) {
        return QrServerError(a.name);
      }
      var out: ScriptOutcome<V>;
      if a.actionType == Regex {
        if a.pattern == "" {
          continue;
        }
        var m := e.reMatch(a.pattern, qr);
        if m != Matched {
          // no match, or `re.error` from the pattern: try the next rule
          continue;
        }
        out := e.run(a.script, qr);
      } else {
        out := e.run(a.script, qr);
      }
      match out
      case Raised(RegexError) =>
        continue;
      case Raised(OtherError) =>
        return QrServerError(a.name);
      case Returned(result) =>
        if result.Some? {
          return QrSuccess(a.name, result.value);
        }
    }
    return QrNotFound;
  }

  /** A rule never answers 400 or 404 on its own. */
  lemma RuleStepAnswers<V>(e: Engine<V>, a: QrCodeAction, qr: string)
    ensures RuleStep(e, a, qr).Stop? ==>
      RuleStep(e, a, qr).response.QrServerError? || RuleStep(e, a, qr).response.QrSuccess?
    ensures RuleStep(e, a, qr).Stop? ==> RuleStep(e, a, qr).response.actionName == a.name
  {
  }

  /**
   * The first rule that does not pass decides the answer, and the rules
   * after it are never looked at.
   */
  lemma {:induction false} ResolveFirstStop<V>(e: Engine<V>, rules: seq<QrCodeAction>, qr: string, i: nat)
    requires i < |rules| && RuleStep(e, rules[i], qr).Stop?
    requires forall j :: 0 <= j < i ==> RuleStep(e, rules[j], qr).Next?
    ensures Resolve(e, rules, qr) == RuleStep(e, rules[i], qr).response
  {
    if i > 0 {
      ResolveFirstStop(e, rules[1..], qr, i - 1);
    }
  }

  /** 404 exactly when every rule passes. */
  lemma {:induction false} ResolveNotFoundIff<V>(e: Engine<V>, rules: seq<QrCodeAction>, qr: string)
    ensures Resolve(e, rules, qr).QrNotFound? <==> forall j :: 0 <= j < |rules| ==> RuleStep(e, rules[j], qr).Next?
  {
    if rules != [] {
      ResolveNotFoundIff(e, rules[1..], qr);
      RuleStepAnswers(e, rules[0], qr);
      if RuleStep(e, rules[0], qr).Next? {
        assert forall j :: 1 <= j < |rules| ==> rules[j] == rules[1..][j - 1];
      }
    }
  }

  /** The resolver never answers 400: that answer belongs to the `qr_data` check alone. */
  lemma {:induction false} ResolveAlwaysBadRequest<V>(e: Engine<V>, rules: seq<QrCodeAction>, qr: string)
    ensures !Resolve(e, rules, qr).QrBadRequest?
  {
    if rules != [] {
      ResolveAlwaysBadRequest(e, rules[1..], qr);
      RuleStepAnswers(e, rules[0], qr);
    }
  }

  /**
   * A 200 names a rule whose script compiled and returned that non-None
   * result; if it is a regex rule, its pattern is non-empty and matched.
   */
  lemma {:induction false} SuccessComesFromRule<V>(e: Engine<V>, rules: seq<QrCodeAction>, qr: string, name: string, v: V)
    requires Resolve(e, rules, qr) == QrSuccess(name, v)
    ensures exists i :: (0 <= i < |rules| && rules[i].name == name && e.compiles(rules[i].script)
      && e.run(rules[i].script, qr) == Returned(Some(v))
      && (rules[i].actionType == Regex ==> rules[i].pattern != "" && e.reMatch(rules[i].pattern, qr) == Matched))
  {
    assert rules != [];
    if RuleStep(e, rules[0], qr).Next? {
      SuccessComesFromRule(e, rules[1..], qr, name, v);
      var i :| 0 <= i < |rules[1..]| && rules[1..][i].name == name && e.compiles(rules[1..][i].script)
        && e.run(rules[1..][i].script, qr) == Returned(Some(v))
        && (rules[1..][i].actionType == Regex ==> rules[1..][i].pattern != "" && e.reMatch(rules[1..][i].pattern, qr) == Matched);
      assert rules[i + 1] == rules[1..][i];
    } else {
      assert rules[0].name == name;
    }
  }

  /**
   * A 500 names a rule whose script failed to compile or, once run, raised
   * something other than `re.error`.
   */
  lemma {:induction false} ServerErrorComesFromRule<V>(e: Engine<V>, rules: seq<QrCodeAction>, qr: string, name: string)
    requires Resolve(e, rules, qr) == QrServerError(name)
    ensures exists i :: (0 <= i < |rules| && rules[i].name == name
      && (!e.compiles(rules[i].script) || e.run(rules[i].script, qr) == Raised(OtherError)))
  {
    assert rules != [];
    if RuleStep(e, rules[0], qr).Next? {
      ServerErrorComesFromRule(e, rules[1..], qr, name);
      var i :| 0 <= i < |rules[1..]| && rules[1..][i].name == name
        && (!e.compiles(rules[1..][i].script) || e.run(rules[1..][i].script, qr) == Raised(OtherError));
      assert rules[i + 1] == rules[1..][i];
    } else {
      assert rules[0].name == name;
    }
  }

  /** Appending rules after a decided prefix changes nothing; after an all-pass prefix, they decide. */
  lemma {:induction false} ResolveAppend<V>(e: Engine<V>, front: seq<QrCodeAction>, back: seq<QrCodeAction>, qr: string)
    ensures Resolve(e, front + back, qr) ==
      if Resolve(e, front, qr).QrNotFound? then Resolve(e, back, qr) else Resolve(e, front, qr)
  {
    if front != [] {
      assert (front + back)[0] == front[0] && (front + back)[1..] == front[1..] + back;
      ResolveAppend(e, front[1..], back, qr);
      RuleStepAnswers(e, front[0], qr);
    } else {
      assert front + back == back;
    }
  }

  /** Every evaluated rule is active, and every "script" rule comes before every "regex" rule. */
  lemma EvaluationOrderShape(table: seq<QrCodeAction>)
    ensures forall i :: 0 <= i < |EvaluationOrder(table)| ==>
      EvaluationOrder(table)[i].isActive && EvaluationOrder(table)[i] in table
    ensures forall i, j :: 0 <= i < j < |EvaluationOrder(table)| && EvaluationOrder(table)[i].actionType == Regex ==>
      EvaluationOrder(table)[j].actionType == Regex
    ensures forall i :: 0 <= i < |table| && table[i].isActive ==> table[i] in EvaluationOrder(table)
  {
    var s := Filter(table, ActiveScript);
    var r := Filter(table, ActiveRegex);
    assert EvaluationOrder(table) == s + r;
    forall i | 0 <= i < |table| && table[i].isActive
      ensures table[i] in EvaluationOrder(table)
    {
      if table[i].actionType == Script {
        assert table[i] in s;
      } else {
        assert table[i] in r;
      }
    }
  }

  /** Inactive rules are never evaluated: dropping them from the table changes no answer. */
  lemma InactiveRulesIgnored<V>(e: Engine<V>, table: seq<QrCodeAction>, qrData: Option<string>)
    ensures ExecuteSpec(e, table, qrData) == ExecuteSpec(e, Filter(table, IsActive), qrData)
  {
    FilterOfFilter(table, ActiveScript, IsActive);
    FilterOfFilter(table, ActiveRegex, IsActive);
  }

  // ---------------------------------------------------------------------
  // Import task cancellation (`CsvColumnMappingViewSet.cancel_task`)
  // ---------------------------------------------------------------------

  datatype CancelResponse = CancelRequested | CancelRefused | TaskNotFound

  function CancelStatus(r: CancelResponse): (code: int)
    ensures code == 200 <==> r.CancelRequested?
  {
    match r
    case CancelRequested => 200
    case CancelRefused => 400
    case TaskNotFound => 404
  }

  /** The position of the import task row with that id, if any. */
  function FindTask(tasks: seq<AsyncTask>, taskId: string): (r: Option<nat>)
    ensures r.Some? ==> r.value < |tasks| && tasks[r.value].taskId == taskId
    ensures r.None? ==> forall i :: 0 <= i < |tasks| ==> tasks[i].taskId != taskId
  {
    if tasks == [] then None
    else if tasks[0].taskId == taskId then Some(0)
    else match FindTask(tasks[1..], taskId)
      case None => None
      case Some(k) => Some(k + 1)
  }

  /** The import task table; `task_id` is unique. */
  class TaskTable {
    var tasks: seq<AsyncTask>

    ghost predicate Valid()
      reads this
    {
      forall i, j :: 0 <= i < j < |tasks| ==> tasks[i].taskId != tasks[j].taskId
    }

    constructor (rows: seq<AsyncTask>)
      requires forall i, j :: 0 <= i < j < |rows| ==> rows[i].taskId != rows[j].taskId
      ensures Valid() && tasks == rows
    {
      tasks := rows;
    }

    /**
     * Only a PENDING or STARTED task becomes REVOKED; any other status is
     * refused with 400 and an unknown id gives 404, both without a change.
     * (Revoking the worker process itself is outside the model.)
     */
    method CancelTask(taskId: string) returns (resp: CancelResponse)
      requires Valid()
      modifies this
      ensures Valid()
      ensures resp == TaskNotFound <==> FindTask(old(tasks), taskId).None?
      ensures resp == CancelRequested <==>
        FindTask(old(tasks), taskId).Some? && old(tasks)[FindTask(old(tasks), taskId).value].status in {Pending, Started}
      ensures resp == CancelRequested ==>
        var k := FindTask(old(tasks), taskId).value;
        tasks == old(tasks)[k := old(tasks)[k].(status := Revoked)]
      ensures resp != CancelRequested ==> tasks == old(tasks)
    {
      var found := FindTask(tasks, taskId);
      if found.None? {
        return TaskNotFound;
      }
      var k := found.value;
      var task := tasks[k];
      if task.status == Pending || task.status == Started {
        tasks := tasks[k := task.(status := Revoked)];
        return CancelRequested;
      }
      return CancelRefused;
    }
  }

  // ---------------------------------------------------------------------
  // Bulk save of CSV mappings and display settings
  // ---------------------------------------------------------------------

  /** One object of a CSV-mapping bulk-save body; `None` is a key the client left out. */
  datatype MappingInput = MappingInput(
    modelFieldName: Option<string>,
    csvHeader: Option<string>,
    order: Option<int>,
    isUpdateKey: Option<bool>,
    isActive: Option<bool>)

  /** One object of a display-setting bulk-save body. */
  datatype SettingInput = SettingInput(
    modelFieldName: Option<string>,
    displayName: Option<string>,
    displayOrder: Option<int>,
    searchOrder: Option<int>,
    isListDisplay: Option<bool>,
    isSearchField: Option<bool>,
    isListFilter: Option<bool>)

  /** The request body: a JSON list, or anything else. */
  datatype Body<T> = NotAList | Rows(rows: seq<T>)

  /** The `{field, errors}` entry of a row the serializer rejects: its field name or "index i". */
  datatype RowError = RowError(field: string)

  datatype SaveResponse =
    | MissingDataType
    | BodyNotAList
    | Invalid(errors: seq<RowError>)
    | Saved
    | IntegrityFailure

  function SaveStatus(r: SaveResponse): (code: int)
    ensures code == 200 <==> r.Saved?
  {
    match r
    case MissingDataType => 400
    case BodyNotAList => 400
    case Invalid(_) => 400
    case Saved => 200
    case IntegrityFailure => 500
  }

  /** The label a rejected row is reported under: its `model_field_name`, else "index i". */
  function ErrorLabel(modelFieldName: Option<string>, index: nat): string
  {
    if modelFieldName.Some? then modelFieldName.value else "index " + NatToString(index)
  }

  /**
   * The objects the bulk-save loop stages from a body: every row that is
   * kept and that the serializer accepts, turned into a record, in order.
   */
  function Staged<T, U>(rows: seq<T>, keep: T -> bool, ok: T -> bool, make: T -> U): seq<U>
  {
    if rows == [] then []
    else
      var d := rows[|rows| - 1];
      Staged(rows[..|rows| - 1], keep, ok, make) + (if keep(d) && ok(d) then [make(d)] else [])
  }

  /** The errors the bulk-save loop collects: one per rejected row, labelled by its index in the body. */
  function Rejected<T>(rows: seq<T>, keep: T -> bool, ok: T -> bool, name: T -> Option<string>): seq<RowError>
  {
    if rows == [] then []
    else
      var last := |rows| - 1;
      var d := rows[last];
      Rejected(rows[..last], keep, ok, name)
        + (if keep(d) && !ok(d) then [RowError(ErrorLabel(name(d), last))] else [])
  }

  /** A body is accepted exactly when every kept row is valid. */
  lemma {:induction false} RejectedEmptyIff<T>(rows: seq<T>, keep: T -> bool, ok: T -> bool, name: T -> Option<string>)
    ensures Rejected(rows, keep, ok, name) == [] <==> forall k :: 0 <= k < |rows| && keep(rows[k]) ==> ok(rows[k])
  {
    if rows != [] {
      var init := rows[..|rows| - 1];
      RejectedEmptyIff(init, keep, ok, name);
      assert forall k :: 0 <= k < |init| ==> rows[k] == init[k];
    }
  }

  /**
   * Each error names a rejected row: its label is that row's field name, or
   * "index i" for the row at position i when it has none.
   */
  lemma {:induction false} RejectedNamesRow<T>(rows: seq<T>, keep: T -> bool, ok: T -> bool, name: T -> Option<string>, e: nat)
    requires e < |Rejected(rows, keep, ok, name)|
    ensures exists k :: (0 <= k < |rows| && keep(rows[k]) && !ok(rows[k])
      && Rejected(rows, keep, ok, name)[e] == RowError(ErrorLabel(name(rows[k]), k)))
  {
    var init := rows[..|rows| - 1];
    var errs := Rejected(rows, keep, ok, name);
    if e < |Rejected(init, keep, ok, name)| {
      RejectedNamesRow(init, keep, ok, name, e);
      var k :| 0 <= k < |init| && keep(init[k]) && !ok(init[k])
        && Rejected(init, keep, ok, name)[e] == RowError(ErrorLabel(name(init[k]), k));
      assert rows[k] == init[k] && errs[e] == Rejected(init, keep, ok, name)[e];
    } else {
      var k := |rows| - 1;
      assert keep(rows[k]) && !ok(rows[k]) && errs[e] == RowError(ErrorLabel(name(rows[k]), k));
    }
  }

  /** Every staged record is made from a row that is kept and valid. */
  lemma {:induction false} StagedFromRows<T, U>(rows: seq<T>, keep: T -> bool, ok: T -> bool, make: T -> U, e: nat)
    requires e < |Staged(rows, keep, ok, make)|
    ensures exists k :: (0 <= k < |rows| && keep(rows[k]) && ok(rows[k])
      && Staged(rows, keep, ok, make)[e] == make(rows[k]))
  {
    var init := rows[..|rows| - 1];
    var st := Staged(rows, keep, ok, make);
    if e < |Staged(init, keep, ok, make)| {
      StagedFromRows(init, keep, ok, make, e);
      var k :| 0 <= k < |init| && keep(init[k]) && ok(init[k]) && Staged(init, keep, ok, make)[e] == make(init[k]);
      assert rows[k] == init[k] && st[e] == Staged(init, keep, ok, make)[e];
    } else {
      var k := |rows| - 1;
      assert keep(rows[k]) && ok(rows[k]) && st[e] == make(rows[k]);
    }
  }

  /**
   * When nothing is rejected, the staged records are the kept rows, one for
   * one and in order.
   */
  lemma {:induction false} StagedAllKept<T, U>(rows: seq<T>, keep: T -> bool, ok: T -> bool, make: T -> U)
    requires forall k :: 0 <= k < |rows| && keep(rows[k]) ==> ok(rows[k])
    ensures |Staged(rows, keep, ok, make)| == |Filter(rows, keep)|
    ensures forall k :: 0 <= k < |Staged(rows, keep, ok, make)| ==>
      Staged(rows, keep, ok, make)[k] == make(Filter(rows, keep)[k])
  {
    if rows != [] {
      var init := rows[..|rows| - 1];
      var d := rows[|rows| - 1];
      assert forall k :: 0 <= k < |init| ==> rows[k] == init[k];
      StagedAllKept(init, keep, ok, make);
      assert rows == init + [d];
      FilterSnoc(init, d, keep);
    }
  }

  predicate Always<T>(d: T) { true }

  /** With no row skipped, the staged records are the rows themselves, one for one. */
  lemma StagedEveryRow<T, U>(rows: seq<T>, ok: T -> bool, make: T -> U)
    requires forall k :: 0 <= k < |rows| ==> ok(rows[k])
    ensures |Staged(rows, Always, ok, make)| == |rows|
    ensures forall k :: 0 <= k < |rows| ==> Staged(rows, Always, ok, make)[k] == make(rows[k])
  {
    StagedAllKept(rows, Always, ok, make);
    FilterAll(rows, Always);
  }

  /** A `CharField` of at most 255 characters that must not be blank, after DRF's trimming. */
  predicate RequiredText(v: Option<string>)
  {
    v.Some? && Strip(v.value) != [] && |Strip(v.value)| <= 255
  }

  /** A `PositiveIntegerField` value, or a key left out (the model default then applies). */
  predicate ValidOrder(v: Option<int>)
  {
    v.None? || 0 <= v.value <= MaxPositiveInt
  }

  function TextOr(v: Option<string>, default: string): string
  {
    if v.Some? then Strip(v.value) else default
  }

  // The CSV-mapping rows

  /** A row is skipped unless `is_active` is true and its header does not strip to "". */
  predicate KeptMapping(d: MappingInput)
  {
    d.isActive == Some(true) && Strip(if d.csvHeader.Some? then d.csvHeader.value else "") != []
  }

  /** What the mapping serializer accepts, `data_type` forced to the query parameter. */
  predicate MappingValid(d: MappingInput, dataType: string)
  {
    dataType in DataTypeChoices && RequiredText(d.modelFieldName) && RequiredText(d.csvHeader)
    && ValidOrder(d.order)
  }

  /** The record built from the validated data: text trimmed, absent keys at the model defaults. */
  function MappingRow(d: MappingInput, dataType: string): (m: CsvColumnMapping)
    ensures m.dataType == dataType && d.csvHeader.Some? ==> m.csvHeader == Strip(d.csvHeader.value)
    ensures d.order.None? ==> m.order == 0
    ensures d.isActive == Some(true) ==> m.isActive
  {
    var base := DefaultCsvMapping(dataType, TextOr(d.csvHeader, ""), TextOr(d.modelFieldName, ""));
    base.(
      order := if d.order.Some? && d.order.value >= 0 then d.order.value else base.order,
      isUpdateKey := if d.isUpdateKey.Some? then d.isUpdateKey.value else base.isUpdateKey,
      isActive := if d.isActive.Some? then d.isActive.value else base.isActive)
  }

  function StagedMappings(rows: seq<MappingInput>, dataType: string): seq<CsvColumnMapping>
  {
    Staged(rows, KeptMapping, d => MappingValid(d, dataType), d => MappingRow(d, dataType))
  }

  function MappingErrors(rows: seq<MappingInput>, dataType: string): seq<RowError>
  {
    Rejected(rows, KeptMapping, d => MappingValid(d, dataType), (d: MappingInput) => d.modelFieldName)
  }

  predicate IsType(dataType: string, m: CsvColumnMapping) { m.dataType == dataType }

  /** The table after "delete every mapping of that type, then create the new ones". */
  function ReplaceMappings(table: seq<CsvColumnMapping>, dataType: string, created: seq<CsvColumnMapping>): seq<CsvColumnMapping>
  {
    Filter(table, m => !IsType(dataType, m)) + created
  }

  /** The two unique-together constraints of the mapping table. */
  predicate MappingsUnique(table: seq<CsvColumnMapping>)
  {
    forall i, j :: 0 <= i < j < |table| && table[i].dataType == table[j].dataType ==>
      table[i].csvHeader != table[j].csvHeader && table[i].modelFieldName != table[j].modelFieldName
  }

  /** Every saved mapping is active, of the requested type, with a non-blank header and field name. */
  lemma StagedMappingsShape(rows: seq<MappingInput>, dataType: string, e: nat)
    requires e < |StagedMappings(rows, dataType)|
    ensures var m := StagedMappings(rows, dataType)[e];
      m.dataType == dataType && m.isActive && m.csvHeader != [] && m.modelFieldName != []
  {
    StagedFromRows(rows, KeptMapping, d => MappingValid(d, dataType), d => MappingRow(d, dataType), e);
  }

  /** A mapping body is rejected exactly when a kept row is invalid; inactive rows are never checked. */
  lemma MappingErrorsEmptyIff(rows: seq<MappingInput>, dataType: string)
    ensures MappingErrors(rows, dataType) == [] <==>
      forall k :: 0 <= k < |rows| && KeptMapping(rows[k]) ==> MappingValid(rows[k], dataType)
  {
    RejectedEmptyIff(rows, KeptMapping, d => MappingValid(d, dataType), (d: MappingInput) => d.modelFieldName);
  }

  /** With no error, one mapping is saved for every row that is not skipped, in body order. */
  lemma StagedMappingsCount(rows: seq<MappingInput>, dataType: string)
    requires MappingErrors(rows, dataType) == []
    ensures |StagedMappings(rows, dataType)| == |Filter(rows, KeptMapping)|
    ensures forall k :: 0 <= k < |StagedMappings(rows, dataType)| ==>
      StagedMappings(rows, dataType)[k] == MappingRow(Filter(rows, KeptMapping)[k], dataType)
  {
    MappingErrorsEmptyIff(rows, dataType);
    StagedAllKept(rows, KeptMapping, d => MappingValid(d, dataType), d => MappingRow(d, dataType));
  }

  /** After a replace, the type's mappings are exactly the new ones; other types are untouched. */
  lemma ReplaceMappingsEffect(table: seq<CsvColumnMapping>, dataType: string, created: seq<CsvColumnMapping>)
    requires forall k :: 0 <= k < |created| ==> created[k].dataType == dataType
    ensures Filter(ReplaceMappings(table, dataType, created), m => IsType(dataType, m)) == created
    ensures Filter(ReplaceMappings(table, dataType, created), m => !IsType(dataType, m))
         == Filter(table, m => !IsType(dataType, m))
  {
    var kept := Filter(table, m => !IsType(dataType, m));
    FilterAppend(kept, created, m => IsType(dataType, m));
    FilterAppend(kept, created, m => !IsType(dataType, m));
    FilterNone(kept, m => IsType(dataType, m));
    FilterAll(created, m => IsType(dataType, m));
    FilterNone(created, m => !IsType(dataType, m));
    FilterOfFilter(table, m => !IsType(dataType, m), m => !IsType(dataType, m));
  }

  // The display-setting rows

  /** What the display-setting serializer accepts (the display name may be blank). */
  predicate SettingValid(d: SettingInput, dataType: string)
  {
    dataType in DataTypeChoices && RequiredText(d.modelFieldName)
    && (d.displayName.None? || |Strip(d.displayName.value)| <= 255)
    && ValidOrder(d.displayOrder) && ValidOrder(d.searchOrder)
  }

  /** The record built from validated data; absent keys take the model defaults. */
  function SettingRow(d: SettingInput, dataType: string): (s: ModelDisplaySetting)
    ensures d.searchOrder.None? ==> s.searchOrder == 10
    ensures d.displayOrder.None? ==> s.displayOrder == 10
    ensures d.displayOrder.Some? && d.displayOrder.value >= 0 ==> s.displayOrder == d.displayOrder.value
    ensures d.modelFieldName.Some? ==> s.modelFieldName == Strip(d.modelFieldName.value)
    ensures d.isListDisplay.None? ==> s.isListDisplay
    ensures s.dataType == dataType
  {
    var base := DefaultDisplaySetting(dataType, TextOr(d.modelFieldName, ""));
    base.(
      displayName := TextOr(d.displayName, base.displayName),
      displayOrder := if d.displayOrder.Some? && d.displayOrder.value >= 0 then d.displayOrder.value else base.displayOrder,
      searchOrder := if d.searchOrder.Some? && d.searchOrder.value >= 0 then d.searchOrder.value else base.searchOrder,
      isListDisplay := if d.isListDisplay.Some? then d.isListDisplay.value else base.isListDisplay,
      isSearchField := if d.isSearchField.Some? then d.isSearchField.value else base.isSearchField,
      isListFilter := if d.isListFilter.Some? then d.isListFilter.value else base.isListFilter)
  }

  function StagedSettings(rows: seq<SettingInput>, dataType: string): seq<ModelDisplaySetting>
  {
    Staged(rows, Always, d => SettingValid(d, dataType), d => SettingRow(d, dataType))
  }

  function SettingErrors(rows: seq<SettingInput>, dataType: string): seq<RowError>
  {
    Rejected(rows, Always, d => SettingValid(d, dataType), (d: SettingInput) => d.modelFieldName)
  }

  function ReplaceSettings(table: seq<ModelDisplaySetting>, dataType: string, created: seq<ModelDisplaySetting>): seq<ModelDisplaySetting>
  {
    Filter(table, (s: ModelDisplaySetting) => s.dataType != dataType) + created
  }

  predicate SettingsUnique(table: seq<ModelDisplaySetting>)
  {
    forall i, j :: 0 <= i < j < |table| && table[i].dataType == table[j].dataType ==>
      table[i].modelFieldName != table[j].modelFieldName
  }

  /**
   * A display-setting body without errors is saved row for row, and an
   * object that leaves out `search_order` is saved with search order 10,
   * whatever was stored before.
   */
  lemma StagedSettingsComplete(rows: seq<SettingInput>, dataType: string)
    requires SettingErrors(rows, dataType) == []
    ensures |StagedSettings(rows, dataType)| == |rows|
    ensures forall k :: 0 <= k < |rows| ==> StagedSettings(rows, dataType)[k] == SettingRow(rows[k], dataType)
    ensures forall k :: 0 <= k < |rows| && rows[k].searchOrder.None? ==> StagedSettings(rows, dataType)[k].searchOrder == 10
  {
    RejectedEmptyIff(rows, Always, d => SettingValid(d, dataType), (d: SettingInput) => d.modelFieldName);
    StagedEveryRow(rows, d => SettingValid(d, dataType), d => SettingRow(d, dataType));
  }
  /** The validation loop of the CSV-mapping bulk save: stage the kept valid rows, collect the errors. */
  method CollectMappings(rows: seq<MappingInput>, dt: string)
    returns (objectsToCreate: seq<CsvColumnMapping>, validationErrors: seq<RowError>)
    ensures objectsToCreate == StagedMappings(rows, dt)
    ensures validationErrors == MappingErrors(rows, dt)
  {
    objectsToCreate := [];
    validationErrors := [];
    for index := 0 to |rows|
      invariant objectsToCreate == StagedMappings(rows[..index], dt)
      invariant validationErrors == MappingErrors(rows[..index], dt)
    {
      var data := rows[index];
      assert rows[..index + 1][..index] == rows[..index] && rows[..index + 1][index] == data;
      if !KeptMapping(data) {
        continue;
      }
      if MappingValid(data, dt) {
        objectsToCreate := objectsToCreate + [MappingRow(data, dt)];
      } else {
        validationErrors := validationErrors + [RowError(ErrorLabel(data.modelFieldName, index))];
      }
    }
    assert rows[..|rows|] == rows;
  }

  /** The validation loop of the display-setting bulk save. */
  method CollectSettings(rows: seq<SettingInput>, dt: string)
    returns (objectsToCreate: seq<ModelDisplaySetting>, validationErrors: seq<RowError>)
    ensures objectsToCreate == StagedSettings(rows, dt)
    ensures validationErrors == SettingErrors(rows, dt)
  {
    objectsToCreate := [];
    validationErrors := [];
    for index := 0 to |rows|
      invariant objectsToCreate == StagedSettings(rows[..index], dt)
      invariant validationErrors == SettingErrors(rows[..index], dt)
    {
      var data := rows[index];
      assert rows[..index + 1][..index] == rows[..index] && rows[..index + 1][index] == data;
      if SettingValid(data, dt) {
        objectsToCreate := objectsToCreate + [SettingRow(data, dt)];
      } else {
        validationErrors := validationErrors + [RowError(ErrorLabel(data.modelFieldName, index))];
      }
    }
    assert rows[..|rows|] == rows;
  }

  /** A records table that only the two bulk-save endpoints write. */
  class SettingsTables {
    var csvMappings: seq<CsvColumnMapping>
    var displaySettings: seq<ModelDisplaySetting>

    constructor (mappings: seq<CsvColumnMapping>, settings: seq<ModelDisplaySetting>)
      ensures csvMappings == mappings && displaySettings == settings
    {
      csvMappings := mappings;
      displaySettings := settings;
    }

    /**
     * `CsvColumnMappingViewSet.bulk_save`: rows that are inactive or have a
     * blank header are skipped; any rejected row gives 400 and nothing is
     * deleted; otherwise every mapping of the type is replaced, atomically,
     * by the staged rows (a duplicate among them breaks a unique constraint
     * and rolls back with 500).
     */
    method BulkSaveCsvMappings(dataType: Option<string>, body: Body<MappingInput>)
      returns (resp: SaveResponse)
      modifies this
      ensures displaySettings == old(displaySettings)
      ensures (dataType.None? || dataType.value == []) ==> resp == MissingDataType
      ensures dataType.Some? && dataType.value != [] && body.NotAList? ==> resp == BodyNotAList
      ensures dataType.Some? && dataType.value != [] && body.Rows? ==>
        var staged := StagedMappings(body.rows, dataType.value);
        var errors := MappingErrors(body.rows, dataType.value);
        var replaced := ReplaceMappings(old(csvMappings), dataType.value, staged);
        (errors != [] ==> resp == Invalid(errors))
        && (errors == [] && MappingsUnique(replaced) ==> resp == Saved && csvMappings == replaced)
        && (errors == [] && !MappingsUnique(replaced) ==> resp == IntegrityFailure)
      ensures !resp.Saved? ==> csvMappings == old(csvMappings)
    {
      if dataType.None? || dataType.value == [] {
        return MissingDataType;
      }
      if body.NotAList? {
        return BodyNotAList;
      }
      var dt := dataType.value;
      var rows := body.rows;
      var objectsToCreate, validationErrors := CollectMappings(rows, dt);
      if validationErrors != [] {
        return Invalid(validationErrors);
      }
      var replaced := ReplaceMappings(csvMappings, dt, objectsToCreate);
      if !MappingsUnique(replaced) {
        return IntegrityFailure;
      }
      csvMappings := replaced;
      return Saved;
    }

    /**
     * `ModelDisplaySettingViewSet.bulk_save`: the same replace-all, with no
     * row skipped.
     */
    method BulkSaveDisplaySettings(dataType: Option<string>, body: Body<SettingInput>)
      returns (resp: SaveResponse)
      modifies this
      ensures csvMappings == old(csvMappings)
      ensures (dataType.None? || dataType.value == []) ==> resp == MissingDataType
      ensures dataType.Some? && dataType.value != [] && body.NotAList? ==> resp == BodyNotAList
      ensures dataType.Some? && dataType.value != [] && body.Rows? ==>
        var staged := StagedSettings(body.rows, dataType.value);
        var errors := SettingErrors(body.rows, dataType.value);
        var replaced := ReplaceSettings(old(displaySettings), dataType.value, staged);
        (errors != [] ==> resp == Invalid(errors))
        && (errors == [] && SettingsUnique(replaced) ==> resp == Saved && displaySettings == replaced)
        && (errors == [] && !SettingsUnique(replaced) ==> resp == IntegrityFailure)
      ensures !resp.Saved? ==> displaySettings == old(displaySettings)
    {
      if dataType.None? || dataType.value == [] {
        return MissingDataType;
      }
      if body.NotAList? {
        return BodyNotAList;
      }
      var dt := dataType.value;
      var rows := body.rows;
      var objectsToCreate, validationErrors := CollectSettings(rows, dt);
      if validationErrors != [] {
        return Invalid(validationErrors);
      }
      var replaced := ReplaceSettings(displaySettings, dt, objectsToCreate);
      if !SettingsUnique(replaced) {
        return IntegrityFailure;
      }
      displaySettings := replaced;
      return Saved;
    }
  }

}

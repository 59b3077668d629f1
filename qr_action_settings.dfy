/**
 * The QR code action settings screen (frontend/src/pages/QrCodeActionSettings.tsx):
 * the built-in action templates, the edit modal that a template fills in for
 * a new action, the form's change rules, and the create/update request.
 */
module QrActionSettings {
  import opened Common
  import opened Json

  /** One entry of `ACTION_TEMPLATES`. */
  datatype Template = Template(
    actionType: string,
    description: string,
    pattern: string,
    script: string,
    isActive: bool)

  const SearchReceiptName := "モバイル入庫処理（検索）"
  const SearchIssueName := "モバイル出庫処理（検索）"
  const ShelfName := "棚番QRコード（スクリプト判定）"

  /** The templates with their names, in declaration order. */
  const Templates: seq<(string, Template)> := [
    (SearchReceiptName, Template(
      "regex",
      "QRコードから品番や発注番号を読み取り、モバイル入庫画面の検索フィールドに入力します。",
      "(^ITEM-.+|^PO-.+)",
      "# QRコードのデータをモバイル入庫画面の検索クエリとして渡します。\nreturn {\n    \"action\": \"update_search\",\n    \"updateSearch\": qr_data\n}",
      true)),
    (SearchIssueName, Template(
      "regex",
      "QRコードから受注番号などを読み取り、モバイル出庫画面の検索フィールドに入力します。",
      "^SO-.+",
      "# QRコードのデータをモバイル出庫画面の検索クエリとして渡します。\n# フロントエンド側で 'action' を見て処理を分岐させます。\nreturn {\n    \"action\": \"update_search\",\n    \"updateSearch\": qr_data,\n    \"navigate\": \"/mobile/goods-issue\"\n}",
      true)),
    (ShelfName, Template(
      "script",
      "QRコードが \"LOC:\" で始まる場合、棚番移動画面の各フィールドを更新します。",
      "",
      "# スクリプト内でQRデータの内容を判定します。\n# 条件に合致しない場合は何も返しません (None)。\nif qr_data.startswith(\"LOC:\"):\n    # \"LOC:WAREHOUSE-A:A-01-01\" のような形式を想定\n    parts = qr_data.split(':')\n    if len(parts) == 3:\n        return {\n            \"action\": \"update_fields\",\n            \"navigate\": \"/mobile/location-transfer\",\n            \"updateFields\": {\n                \"warehouse\": parts[1],\n                \"sourceLocation\": parts[2]\n            }\n        }\n\n# 条件に合致しない場合は何も返さない\nreturn None",
      true))
  ]

  /** `ACTION_TEMPLATES[name]`. */
  function TemplateNamed(name: string): (r: Option<Template>)
    ensures r.Some? <==> exists i :: 0 <= i < |Templates| && Templates[i].0 == name
    ensures r.Some? ==> exists i :: 0 <= i < |Templates| && Templates[i] == (name, r.value)
  {
    if name == SearchReceiptName then Some(Templates[0].1)
    else if name == SearchIssueName then Some(Templates[1].1)
    else if name == ShelfName then Some(Templates[2].1)
    else None
  }

  /** A script template needs no pattern; a regex template always has one. */
  lemma TemplatePatternsFitTheirType()
    ensures forall i :: 0 <= i < |Templates| ==> Templates[i].1.actionType in {"regex", "script"}
    ensures forall i :: 0 <= i < |Templates| ==>
      (Templates[i].1.actionType == "script" <==> Templates[i].1.pattern == "")
  {
  }

  /** A template's members as form fields. */
  function TemplateFields(t: Template): (r: Record)
    ensures r.Keys == {"action_type", "description", "qr_code_pattern", "script", "is_active"}
    ensures r["action_type"] == Str(t.actionType) && r["qr_code_pattern"] == Str(t.pattern)
    ensures r["is_active"] == Bool(t.isActive)
  {
    map[
      "action_type" := Str(t.actionType),
      "description" := Str(t.description),
      "qr_code_pattern" := Str(t.pattern),
      "script" := Str(t.script),
      "is_active" := Bool(t.isActive)
    ]
  }

  /** The form a new action opens with: the first template's name, over `action_type: 'regex'`. */
  function NewActionForm(): Record
  {
    map["name" := Str(Templates[0].0), "action_type" := Str("regex")] + TemplateFields(Templates[0].1)
  }

  /** A new action opens as the first template: a regex action with that template's pattern, active. */
  lemma NewActionIsFirstTemplate()
    ensures NewActionForm()["name"] == Str(SearchReceiptName)
    ensures NewActionForm()["action_type"] == Str("regex")
    ensures NewActionForm()["qr_code_pattern"] == Str("(^ITEM-.+|^PO-.+)")
    ensures NewActionForm()["is_active"] == Bool(true)
    ensures "id" !in NewActionForm()
  {
  }

  /** "New" means the form has no truthy `id`. */
  predicate IsNew(form: Record) { !("id" in form && ValueTruthy(form["id"])) }

  /**
   * Choosing a template name for a new action: the template's members
   * over the form, and its pattern cleared if it is a script template.
   */
  function ApplyTemplate(form: Record, name: string, t: Template): (r: Record)
    ensures r.Keys == form.Keys + {"name", "action_type", "description", "qr_code_pattern", "script", "is_active"}
    ensures r["name"] == Str(name) && r["action_type"] == Str(t.actionType)
    ensures r["is_active"] == Bool(t.isActive)
    ensures r["qr_code_pattern"] == Str(if t.actionType == "script" then "" else t.pattern)
    ensures forall k :: k in form && k !in {"name", "action_type", "description", "qr_code_pattern", "script", "is_active"} ==> r[k] == form[k]
  {
    form["name" := Str(name)] + TemplateFields(t)
      + map["qr_code_pattern" := Str(if t.actionType == "script" then "" else t.pattern)]
  }

  /**
   * The template's `is_active` replaces whatever the form held: the
   * previous value is not preserved.
   */
  lemma TemplateOverridesIsActive(form: Record, name: string)
    requires TemplateNamed(name).Some? && "is_active" in form && form["is_active"] == Bool(false)
    ensures ApplyTemplate(form, name, TemplateNamed(name).value)["is_active"] == Bool(true)
  {
  }

  /** What the change event carries. */
  datatype FormInput = FormInput(name: string, value: string, isCheckbox: bool, checked: bool)

  /** `handleFormChange` on the current action. */
  function FormChange(form: Record, e: FormInput): (r: Record)
  {
    if e.name == "name" && IsNew(form) then
      var t := TemplateNamed(e.value);
      if t.Some? then ApplyTemplate(form, e.value, t.value) else form
    else if e.name == "action_type" then
      if e.value == "script" then form["action_type" := Str(e.value)]["qr_code_pattern" := Str("")]
      else form["action_type" := Str(e.value)]
    else form[e.name := if e.isCheckbox then Bool(e.checked) else Str(e.value)]
  }

  /** For a new action, an unknown template name changes nothing, not even the name. */
  lemma UnknownTemplateNameIgnored(form: Record, e: FormInput)
    requires e.name == "name" && IsNew(form) && TemplateNamed(e.value).None?
    ensures FormChange(form, e) == form
  {
  }

  /** Renaming an existing action is a plain field edit: no template is applied. */
  lemma RenameExistingIsPlain(form: Record, e: FormInput)
    requires e.name == "name" && !IsNew(form) && !e.isCheckbox
    ensures FormChange(form, e) == form["name" := Str(e.value)]
  {
  }

  /** Switching to a script clears the pattern; switching to a regex keeps it. */
  lemma ActionTypeChangeRule(form: Record, e: FormInput)
    requires e.name == "action_type"
    ensures FormChange(form, e)["action_type"] == Str(e.value)
    ensures e.value == "script" ==> FormChange(form, e)["qr_code_pattern"] == Str("")
    ensures e.value != "script" ==> FormChange(form, e) == form["action_type" := Str(e.value)]
  {
  }

  /** A template chosen for a new action leaves the form consistent: patterns only for regex actions. */
  lemma TemplateFormConsistent(form: Record, e: FormInput)
    requires e.name == "name" && IsNew(form) && TemplateNamed(e.value).Some?
    ensures var r := FormChange(form, e);
      (r["action_type"] == Str("script") <==> r["qr_code_pattern"] == Str(""))
  {
    TemplatePatternsFitTheirType();
    var t :| 0 <= t < |Templates| && Templates[t] == (e.value, TemplateNamed(e.value).value);
  }

  const ApiUrl := "/api/base/qr-code-actions/"

  /** The save request: POST to the collection for a new action, PUT to its own URL otherwise. */
  datatype SaveRequest = SaveRequest(httpMethod: string, url: string, body: Record)

  function SaveRequestFor(form: Record): (r: SaveRequest)
    ensures IsNew(form) ==> r.httpMethod == "POST" && r.url == ApiUrl
    ensures !IsNew(form) ==> r.httpMethod == "PUT" && r.url == ApiUrl + ValueText(form["id"]) + "/"
    ensures r.body == form
  {
    if IsNew(form) then SaveRequest("POST", ApiUrl, form)
    else SaveRequest("PUT", ApiUrl + ValueText(form["id"]) + "/", form)
  }

  const SaveFailed := "保存に失敗しました。入力内容を確認してください。"

  datatype SaveOutcome =
    | Saved
    | SaveRejected(errors: Record)
    | SaveNetworkError(message: string)

  class QrActionSettingsPage {
    var showModal: bool
    var currentAction: Option<Record>
    var formErrors: Record
    var isSaving: bool

    constructor ()
      ensures !showModal && currentAction.None? && formErrors == map[] && !isSaving
    {
      showModal := false;
      currentAction := None;
      formErrors := map[];
      isSaving := false;
    }

    /** Opens the modal on a copy of an action, or on the first template for a new one. */
    method HandleShowModal(action: Option<Record>)
      modifies this
      ensures currentAction == Some(if action.Some? then action.value else NewActionForm())
      ensures formErrors == map[] && showModal && isSaving == old(isSaving)
    {
      if action.Some? {
        currentAction := action;
      } else {
        currentAction := Some(map["name" := Str(Templates[0].0), "action_type" := Str("regex")] + TemplateFields(Templates[0].1));
      }
      formErrors := map[];
      showModal := true;
    }

    method HandleCloseModal()
      modifies this
      ensures !showModal && currentAction.None?
      ensures formErrors == old(formErrors) && isSaving == old(isSaving)
    {
      showModal := false;
      currentAction := None;
    }

    /** A change event; with no action open, reading its `id` throws and nothing changes. */
    method HandleFormChange(e: FormInput)
      modifies this
      ensures old(currentAction).None? ==> currentAction.None?
      ensures old(currentAction).Some? ==> currentAction == Some(FormChange(old(currentAction).value, e))
      ensures showModal == old(showModal) && formErrors == old(formErrors) && isSaving == old(isSaving)
    {
      if currentAction.None? {
        return;
      }
      currentAction := Some(FormChange(currentAction.value, e));
    }

    /** Save: the request for the open action (none when no action is open). */
    method HandleSave() returns (request: Option<SaveRequest>)
      modifies this
      ensures isSaving && formErrors == map[]
      ensures old(currentAction).Some? ==> request == Some(SaveRequestFor(old(currentAction).value))
      ensures old(currentAction).None? ==> request.None?
      ensures currentAction == old(currentAction) && showModal == old(showModal)
    {
      isSaving := true;
      formErrors := map[];
      if currentAction.None? {
        return None;
      }
      request := Some(SaveRequestFor(currentAction.value));
    }

    /** The answer: success closes the modal; a rejection shows the server's field errors and a general one. */
    method FinishSave(outcome: SaveOutcome)
      modifies this
      ensures !isSaving
      ensures outcome.Saved? ==> !showModal && currentAction.None? && formErrors == old(formErrors)
      ensures outcome.SaveRejected? ==>
        formErrors == outcome.errors["non_field_errors" := Str(SaveFailed)]
        && showModal == old(showModal) && currentAction == old(currentAction)
      ensures outcome.SaveNetworkError? ==>
        formErrors == old(formErrors)["non_field_errors" := Str(outcome.message)]
        && showModal == old(showModal) && currentAction == old(currentAction)
    {
      match outcome {
        case Saved =>
          HandleCloseModal();
        case SaveRejected(errors) =>
          formErrors := errors;
          formErrors := formErrors["non_field_errors" := Str(SaveFailed)];
        case SaveNetworkError(message) =>
          formErrors := formErrors["non_field_errors" := Str(message)];
      }
      isSaving := false;
    }
  }
}

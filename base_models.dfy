/**
 * The records of the `base` application: CSV column mappings, model display
 * settings, QR code actions and asynchronous task rows, with the defaults
 * their model fields declare and the data-type tables shared by the
 * settings screens (backend/src/base/models.py).
 */
module BaseModels {
  import opened Common

  /** The `DATA_TYPE_CHOICES` keys, in declaration order. */
  const DataTypeChoices: seq<string> := [
    "item", "inventory", "supplier", "warehouse", "purchase_order", "sales_order",
    "goods_receipt", "production_plan", "parts_used", "base_setting",
    "csv_column_mapping", "model_display_setting", "qr_code_action", "stock_movement"
  ]

  /** `DATA_TYPE_MODEL_MAPPING` as declared in the models module (no "stock_movement" entry). */
  const ModelMapping: map<string, string> := map[
    "item" := "master.Item",
    "inventory" := "inventory.Inventory",
    "supplier" := "master.Supplier",
    "warehouse" := "master.Warehouse",
    "purchase_order" := "inventory.PurchaseOrder",
    "sales_order" := "inventory.SalesOrder",
    "goods_receipt" := "inventory.Receipt",
    "production_plan" := "production.ProductionPlan",
    "parts_used" := "production.PartsUsed",
    "base_setting" := "base.BaseSetting",
    "csv_column_mapping" := "base.CsvColumnMapping",
    "model_display_setting" := "base.ModelDisplaySetting",
    "qr_code_action" := "base.QrCodeAction"
  ]

  /**
   * "stock_movement" is a selectable data type, but the models module's
   * mapping has no model for it.
   */
  lemma StockMovementHasNoModel()
    ensures "stock_movement" in DataTypeChoices
    ensures "stock_movement" !in ModelMapping
    ensures forall k :: k in ModelMapping ==> k in DataTypeChoices
  {
    assert DataTypeChoices[13] == "stock_movement";
  }

  /** The largest value a `PositiveIntegerField` accepts. */
  const MaxPositiveInt: int := 2147483647

  datatype CsvColumnMapping = CsvColumnMapping(
    dataType: string,
    csvHeader: string,
    modelFieldName: string,
    order: nat,
    isUpdateKey: bool,
    isActive: bool)

  datatype ModelDisplaySetting = ModelDisplaySetting(
    dataType: string,
    displayName: string,
    modelFieldName: string,
    displayOrder: nat,
    searchOrder: nat,
    isListDisplay: bool,
    isSearchField: bool,
    isListFilter: bool)

  /** Model defaults of a display setting: orders 10, listed, not searched, not filtered. */
  function DefaultDisplaySetting(dataType: string, modelFieldName: string): (s: ModelDisplaySetting)
    ensures s.displayOrder == 10 && s.searchOrder == 10 && s.displayName == ""
    ensures s.isListDisplay && !s.isSearchField && !s.isListFilter
    ensures s.dataType == dataType && s.modelFieldName == modelFieldName
  {
    ModelDisplaySetting(dataType, "", modelFieldName, 10, 10, true, false, false)
  }

  /** Model defaults of a CSV mapping: order 0, not an update key, active. */
  function DefaultCsvMapping(dataType: string, csvHeader: string, modelFieldName: string): (m: CsvColumnMapping)
    ensures m.order == 0 && !m.isUpdateKey && m.isActive
    ensures m.dataType == dataType && m.csvHeader == csvHeader && m.modelFieldName == modelFieldName
  {
    CsvColumnMapping(dataType, csvHeader, modelFieldName, 0, false, true)
  }

  /**
   * One entry of the model-fields endpoint's answer that the settings
   * screens read: a field's name, verbose name and help text (the endpoint
   * itself is not part of this model).
   */
  datatype ModelField = ModelField(name: string, verboseName: string, helpText: string)

  datatype ActionType = Regex | Script

  datatype QrCodeAction = QrCodeAction(
    name: string,
    description: string,
    actionType: ActionType,
    pattern: string,
    script: string,
    isActive: bool)

  datatype TaskStatus = Pending | Started | Success | Failure | Revoked

  /** The `result` JSON an import task stores. */
  datatype TaskResult =
    | ImportCounts(created: nat, updated: nat, errors: seq<string>)
    | ImportError(error: string)

  datatype AsyncTask = AsyncTask(
    taskId: string,
    status: TaskStatus,
    progress: nat,
    total: nat,
    result: Option<TaskResult>)

  /** A freshly created task row: PENDING with progress 0 of 100 and no result. */
  function NewAsyncTask(taskId: string): (t: AsyncTask)
    ensures t.taskId == taskId && t.status == Pending && t.progress == 0 && t.total == 100
    ensures t.result.None?
  {
    AsyncTask(taskId, Pending, 0, 100, None)
  }
}

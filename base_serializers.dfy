/**
 * The settings serializers of the `base` application
 * (backend/src/base/serializers.py): the verbose name a display setting
 * reports for its field, and the unique-together validators switched off so
 * that a bulk save can recreate rows that already exist.
 */
module BaseSerializers {
  import opened Common
  import opened BaseModels
  import BaseApi

  /**
   * The model registry as the serializer queries it: the verbose name of a
   * field of a model (`"app.Model"`), or `None` when the model has no such
   * field (`FieldDoesNotExist`).
   */
  type FieldLookup = (string, string) -> Option<string>

  /**
   * The models searched for a data type: purchase orders then receipts for
   * "goods_receipt", else the data type's own model, and none when the
   * mapping has no entry for it (`filter(None, …)` drops the gap).
   */
  function ModelsToCheck(dataType: string): (ms: seq<string>)
    ensures dataType == "goods_receipt" ==> ms == ["inventory.PurchaseOrder", "inventory.Receipt"]
    ensures dataType != "goods_receipt" ==> ms == if dataType in ModelMapping then [ModelMapping[dataType]] else []
  {
    if dataType == "goods_receipt" then [ModelMapping["purchase_order"], ModelMapping["goods_receipt"]]
    else if dataType in ModelMapping then [ModelMapping[dataType]]
    else []
  }

  /** `str(field.verbose_name) or obj.model_field_name`. */
  function NameOrField(verbose: string, field: string): string
  {
    if verbose != "" then verbose else field
  }

  /**
   * The loop over the models: the first model that has the field answers
   * with its verbose name, or the field name when that is empty.
   */
  function FirstVerbose(models: seq<string>, field: string, lookup: FieldLookup): (r: Option<string>)
    ensures r.None? <==> forall k :: 0 <= k < |models| ==> lookup(models[k], field).None?
    ensures r.Some? ==>
      exists k :: 0 <= k < |models| && lookup(models[k], field).Some?
                  && r.value == NameOrField(lookup(models[k], field).value, field)
                  && forall j :: 0 <= j < k ==> lookup(models[j], field).None?
  {
    if models == [] then None
    else
      var hit := lookup(models[0], field);
      if hit.Some? then Some(NameOrField(hit.value, field))
      else
        var rest := FirstVerbose(models[1..], field, lookup);
        assert forall k :: 1 <= k < |models| ==> models[k] == models[1..][k - 1];
        if rest.Some? then
          var k :| 0 <= k < |models[1..]| && lookup(models[1..][k], field).Some?
            && rest.value == NameOrField(lookup(models[1..][k], field).value, field)
            && forall j :: 0 <= j < k ==> lookup(models[1..][j], field).None?;
          assert lookup(models[k + 1], field).Some? && forall j :: 0 <= j < k + 1 ==> lookup(models[j], field).None?;
          rest
        else rest
  }

  /** `get_verbose_name`: the models first, then the two computed properties, then the field name. */
  function VerboseName(dataType: string, field: string, lookup: FieldLookup): string
  {
    var hit := FirstVerbose(ModelsToCheck(dataType), field, lookup);
    if hit.Some? then hit.value
    else if dataType == "goods_receipt" && field == "remaining_quantity" then "残数量"
    else if dataType == "inventory" && field == "available_quantity" then "利用可能数"
    else field
  }

  /** For "goods_receipt", a purchase-order field wins over a receipt field of the same name. */
  lemma GoodsReceiptPrefersPurchaseOrder(field: string, lookup: FieldLookup)
    requires lookup("inventory.PurchaseOrder", field).Some?
    ensures VerboseName("goods_receipt", field, lookup) == NameOrField(lookup("inventory.PurchaseOrder", field).value, field)
  {
  }

  /** A receipt field is found when the purchase-order model lacks it. */
  lemma GoodsReceiptFallsToReceipt(field: string, lookup: FieldLookup)
    requires lookup("inventory.PurchaseOrder", field).None? && lookup("inventory.Receipt", field).Some?
    ensures VerboseName("goods_receipt", field, lookup) == NameOrField(lookup("inventory.Receipt", field).value, field)
  {
    var ms := ModelsToCheck("goods_receipt");
    assert ms[1..] == ["inventory.Receipt"] && ms[1..][1..] == [];
    assert FirstVerbose(ms, field, lookup) == FirstVerbose(ms[1..], field, lookup);
  }

  /** Any other data type looks only at its own model. */
  lemma OwnModelOnly(dataType: string, field: string, lookup: FieldLookup)
    requires dataType != "goods_receipt" && dataType in ModelMapping
    requires lookup(ModelMapping[dataType], field).Some?
    ensures VerboseName(dataType, field, lookup) == NameOrField(lookup(ModelMapping[dataType], field).value, field)
  {
  }

  /** When no checked model has the field, the two properties get their labels and anything else its own name. */
  lemma VerboseNameFallbacks(dataType: string, field: string, lookup: FieldLookup)
    requires forall k :: 0 <= k < |ModelsToCheck(dataType)| ==> lookup(ModelsToCheck(dataType)[k], field).None?
    ensures dataType == "goods_receipt" && field == "remaining_quantity" ==> VerboseName(dataType, field, lookup) == "残数量"
    ensures dataType == "inventory" && field == "available_quantity" ==> VerboseName(dataType, field, lookup) == "利用可能数"
    ensures (!(dataType == "goods_receipt" && field == "remaining_quantity")
             && !(dataType == "inventory" && field == "available_quantity")) ==> VerboseName(dataType, field, lookup) == field
  {
  }

  /** "stock_movement" has no model in the mapping, so its settings always show the field name. */
  lemma StockMovementShowsFieldName(field: string, lookup: FieldLookup)
    ensures VerboseName("stock_movement", field, lookup) == field
  {
    StockMovementHasNoModel();
  }

  /** A setting for a non-empty field name never reports an empty verbose name. */
  lemma VerboseNameNonEmpty(dataType: string, field: string, lookup: FieldLookup)
    requires field != ""
    ensures VerboseName(dataType, field, lookup) != ""
  {
  }

  /**
   * Why the unique-together validators are off: a bulk save of rows that
   * are unique among themselves ends in a table that keeps the constraint,
   * even when every row repeats one already stored, because the old rows of
   * that data type are deleted first. The validators would have refused
   * exactly those repeats.
   */
  lemma ResaveKeepsSettingsUnique(table: seq<ModelDisplaySetting>, dataType: string, created: seq<ModelDisplaySetting>)
    requires BaseApi.SettingsUnique(table)
    requires BaseApi.SettingsUnique(created)
    requires forall k :: 0 <= k < |created| ==> created[k].dataType == dataType
    ensures BaseApi.SettingsUnique(BaseApi.ReplaceSettings(table, dataType, created))
  {
    var kept := Filter(table, (s: ModelDisplaySetting) => s.dataType != dataType);
    var all := kept + created;
    assert all == BaseApi.ReplaceSettings(table, dataType, created);
    FilterKeepsUnique(table, dataType);
    forall i, j | 0 <= i < j < |all| && all[i].dataType == all[j].dataType
      ensures all[i].modelFieldName != all[j].modelFieldName
    {
      if j < |kept| {
        assert all[i] == kept[i] && all[j] == kept[j];
      } else if i >= |kept| {
        assert all[i] == created[i - |kept|] && all[j] == created[j - |kept|];
      }
    }
  }

  /** Deleting the rows of one type keeps the rest unique. */
  lemma {:induction false} FilterKeepsUnique(table: seq<ModelDisplaySetting>, dataType: string)
    requires BaseApi.SettingsUnique(table)
    ensures BaseApi.SettingsUnique(Filter(table, (s: ModelDisplaySetting) => s.dataType != dataType))
  {
    var p := (s: ModelDisplaySetting) => s.dataType != dataType;
    if table != [] {
      var tail := table[1..];
      assert BaseApi.SettingsUnique(tail) by {
        forall i, j | 0 <= i < j < |tail| && tail[i].dataType == tail[j].dataType
          ensures tail[i].modelFieldName != tail[j].modelFieldName
        {
          assert tail[i] == table[i + 1] && tail[j] == table[j + 1];
        }
      }
      FilterKeepsUnique(tail, dataType);
      var rest := Filter(tail, p);
      var kept := Filter(table, p);
      assert kept == (if p(table[0]) then [table[0]] else []) + rest;
      if p(table[0]) {
        forall r | r in rest && r.dataType == table[0].dataType
          ensures r.modelFieldName != table[0].modelFieldName
        {
          var b :| 0 <= b < |tail| && tail[b] == r;
          assert table[b + 1] == r;
        }
        UniqueCons(table[0], rest);
      }
    }
  }

  /** A row whose type and field name no later row repeats can head a unique table. */
  lemma UniqueCons(x: ModelDisplaySetting, rest: seq<ModelDisplaySetting>)
    requires BaseApi.SettingsUnique(rest)
    requires forall r | r in rest && r.dataType == x.dataType :: r.modelFieldName != x.modelFieldName
    ensures BaseApi.SettingsUnique([x] + rest)
  {
    var all := [x] + rest;
    forall i, j | 0 <= i < j < |all| && all[i].dataType == all[j].dataType
      ensures all[i].modelFieldName != all[j].modelFieldName
    {
      assert all[j] == rest[j - 1];
      if i > 0 {
        assert all[i] == rest[i - 1];
      }
    }
  }
}

/**
 * The master-data serializers (backend/src/master/serializers.py): the
 * uniqueness rules on item codes and names, supplier numbers, names and
 * e-mail addresses and warehouse numbers, each with its own message, and
 * the display labels the item list shows for its two choice fields.
 */
module MasterSerializers {
  import opened Common
  import opened DrfFields

  /** The item choices of backend/src/master/models.py. */
  const ItemTypeChoices: seq<Choice> := [Choice("product", "Product"), Choice("material", "Material")]
  const ProvisionTypeChoices: seq<Choice> := [Choice("paid", "有償支給"), Choice("free", "無償支給"), Choice("none", "支給なし")]

  const ItemCodeInUse := "この品番コードは既に使用されています。"
  const ItemNameInUse := "この品番名は既に使用されています。"
  const SupplierNumberInUse := "このサプライヤー番号は既に使用されています。"
  const SupplierNameInUse := "このサプライヤー名は他のサプライヤーで既に使用されています。"
  const SupplierEmailInUse := "このメールアドレスは他のサプライヤーで既に使用されています。"
  const WarehouseNumberInUse := "この倉庫番号は既に使用されています。"

  /** A stored row as the uniqueness checks see it: its primary key and the value of the checked column. */
  datatype Row = Row(pk: int, value: Option<string>)

  /** Some row other than the instance being updated holds the value. */
  predicate TakenByOther(rows: seq<Row>, value: string, instance: Option<int>)
  {
    exists k :: 0 <= k < |rows| && rows[k].value == Some(value) && Some(rows[k].pk) != instance
  }

  /**
   * A `UniqueValidator` or a hand-written `validate_<field>` that filters on
   * the value and excludes the instance: the message when another row holds
   * the value, else nothing.
   */
  function UniqueCheck(rows: seq<Row>, value: string, instance: Option<int>, message: string): (r: Option<string>)
    ensures r.Some? <==> TakenByOther(rows, value, instance)
    ensures r.Some? ==> r.value == message
  {
    if TakenByOther(rows, value, instance) then Some(message) else None
  }

  /** `validate_email`: an empty or null address passes; any other must not be another supplier's. */
  function EmailCheck(rows: seq<Row>, email: Option<string>, instance: Option<int>): (r: Option<string>)
    ensures (email.None? || email.value == "") ==> r.None?
    ensures email.Some? && email.value != "" ==> (r.Some? <==> TakenByOther(rows, email.value, instance))
    ensures r.Some? ==> r.value == SupplierEmailInUse
  {
    match email
    case None => None
    case Some(e) => if e == "" then None else UniqueCheck(rows, e, instance, SupplierEmailInUse)
  }

  /** The error of a field, if its check produced one. */
  function ErrorOf(field: string, check: Option<string>): (e: seq<FieldError>)
    ensures check.None? ==> e == []
    ensures check.Some? ==> e == [FieldError(field, check.value)]
  {
    match check
    case None => []
    case Some(m) => [FieldError(field, m)]
  }

  /** `ItemCreateUpdateSerializer`: the code and the name are each unique among items. */
  function ItemErrors(codes: seq<Row>, names: seq<Row>, code: string, name: string, instance: Option<int>): (e: seq<FieldError>)
    ensures e == [] <==> !TakenByOther(codes, code, instance) && !TakenByOther(names, name, instance)
    ensures FieldError("code", ItemCodeInUse) in e <==> TakenByOther(codes, code, instance)
    ensures FieldError("name", ItemNameInUse) in e <==> TakenByOther(names, name, instance)
  {
    ErrorOf("code", UniqueCheck(codes, code, instance, ItemCodeInUse))
      + ErrorOf("name", UniqueCheck(names, name, instance, ItemNameInUse))
  }

  /**
   * `SupplierCreateUpdateSerializer`: a unique supplier number, a name no
   * other supplier uses, and an e-mail address no other supplier uses when
   * one is given.
   */
  function SupplierErrors(numbers: seq<Row>, names: seq<Row>, emails: seq<Row>,
                          number: string, name: string, email: Option<string>, instance: Option<int>): (e: seq<FieldError>)
    ensures FieldError("supplier_number", SupplierNumberInUse) in e <==> TakenByOther(numbers, number, instance)
    ensures FieldError("name", SupplierNameInUse) in e <==> TakenByOther(names, name, instance)
    ensures FieldError("email", SupplierEmailInUse) in e <==> EmailCheck(emails, email, instance).Some?
    ensures |e| <= 3
  {
    ErrorOf("supplier_number", UniqueCheck(numbers, number, instance, SupplierNumberInUse))
      + ErrorOf("name", UniqueCheck(names, name, instance, SupplierNameInUse))
      + ErrorOf("email", EmailCheck(emails, email, instance))
  }

  /** `WarehouseCreateUpdateSerializer`: the warehouse number is unique. */
  function WarehouseErrors(numbers: seq<Row>, number: string, instance: Option<int>): (e: seq<FieldError>)
    ensures e == [] <==> !TakenByOther(numbers, number, instance)
    ensures e != [] ==> e == [FieldError("warehouse_number", WarehouseNumberInUse)]
  {
    ErrorOf("warehouse_number", UniqueCheck(numbers, number, instance, WarehouseNumberInUse))
  }

  /** No two rows hold the same non-null value. */
  predicate ValuesUnique(rows: seq<Row>)
  {
    forall i, j :: 0 <= i < j < |rows| && rows[i].value.Some? ==> rows[i].value != rows[j].value
  }

  /** Saving a new row whose value passed the check keeps the column unique. */
  lemma CreatePassKeepsUnique(rows: seq<Row>, value: string, pk: int)
    requires ValuesUnique(rows)
    requires UniqueCheck(rows, value, None, "").None?
    ensures ValuesUnique(rows + [Row(pk, Some(value))])
  {
    var all := rows + [Row(pk, Some(value))];
    forall i, j | 0 <= i < j < |all| && all[i].value.Some?
      ensures all[i].value != all[j].value
    {
      if j == |rows| {
        assert all[i] == rows[i];
      }
    }
  }

  /** An update that keeps the instance's own value passes when the column is unique and the keys are distinct. */
  lemma UpdateKeepingOwnValuePasses(rows: seq<Row>, k: nat, message: string)
    requires k < |rows| && rows[k].value.Some?
    requires ValuesUnique(rows)
    requires forall i, j :: 0 <= i < j < |rows| ==> rows[i].pk != rows[j].pk
    ensures UniqueCheck(rows, rows[k].value.value, Some(rows[k].pk), message).None?
  {
  }

  /** Any number of suppliers may leave the e-mail address empty. */
  lemma BlankEmailsNeverClash(emails: seq<Row>, instance: Option<int>)
    requires forall k :: 0 <= k < |emails| ==> emails[k].value == Some("")
    ensures EmailCheck(emails, Some(""), instance).None?
    ensures EmailCheck(emails, None, instance).None?
  {
  }

  /**
   * The list output of the two choice fields: `get_item_type_display` and
   * `get_provision_type_display` give the label of a stored key, the stored
   * value itself otherwise, and null for a null provision type.
   */
  function ItemListDisplay(itemType: string, provisionType: Option<string>): (r: (string, Option<string>))
    ensures r.0 == ChoiceDisplay(ItemTypeChoices, itemType)
    ensures provisionType.None? ==> r.1.None?
    ensures provisionType.Some? ==> r.1 == Some(ChoiceDisplay(ProvisionTypeChoices, provisionType.value))
  {
    (ChoiceDisplay(ItemTypeChoices, itemType),
     match provisionType
     case None => None
     case Some(p) => Some(ChoiceDisplay(ProvisionTypeChoices, p)))
  }

  /** Every stored key shows its label; a value outside the choices is shown as stored. */
  lemma ItemDisplayLabels(i: nat, j: nat, v: string)
    requires i < |ItemTypeChoices| && j < |ProvisionTypeChoices|
    requires v !in ["product", "material", "paid", "free", "none"]
    ensures ItemListDisplay(ItemTypeChoices[i].key, Some(ProvisionTypeChoices[j].key))
         == (ItemTypeChoices[i].display, Some(ProvisionTypeChoices[j].display))
    ensures ItemListDisplay(v, Some(v)) == (v, Some(v))
  {
    ChoiceDisplayOfKey(ItemTypeChoices, i);
    ChoiceDisplayOfKey(ProvisionTypeChoices, j);
  }
}

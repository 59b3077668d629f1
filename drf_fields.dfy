/**
 * The part of Django REST framework's field validation the serializers of
 * this system rely on: a required / optional `CharField` that refuses null
 * and blank values and trims whitespace unless told not to, and the rule
 * that a serializer's `validate()` runs only when no field has an error.
 */
module DrfFields {
  import opened Common

  /** A key of the request data: absent, JSON null, or a text value. */
  datatype Input = Absent | NullIn | Text(s: string)

  /** One entry of a serializer's error dictionary. */
  datatype FieldError = FieldError(field: string, message: string)

  const RequiredMessage := "This field is required."
  const NullMessage := "This field may not be null."
  const BlankMessage := "This field may not be blank."

  /** The outcome of one field: its validated value, its error, or nothing when an optional key is absent. */
  datatype Checked = Valid(value: string) | Invalid(message: string) | Skipped

  /**
   * `CharField(required=required, trim_whitespace=trim)` with `allow_blank`
   * and `allow_null` left false: absent is an error only when required, null
   * is an error, and a value that is empty after trimming is blank.
   */
  function CharField(input: Input, required: bool, trim: bool): (c: Checked)
    ensures input.Absent? ==> (c.Skipped? <==> !required) && (required ==> c == Invalid(RequiredMessage))
    ensures input.NullIn? ==> c == Invalid(NullMessage)
    ensures input.Text? && !trim ==> (if input.s == "" then c == Invalid(BlankMessage) else c == Valid(input.s))
    ensures input.Text? && trim ==> (if AllSpace(input.s) then c == Invalid(BlankMessage) else c == Valid(Strip(input.s)))
    ensures c.Valid? ==> c.value != ""
  {
    match input
    case Absent => if required then Invalid(RequiredMessage) else Skipped
    case NullIn => Invalid(NullMessage)
    case Text(s) =>
      var v := if trim then Strip(s) else s;
      StripEmptyIff(s);
      if v == "" then Invalid(BlankMessage) else Valid(v)
  }

  /** The error entry of a field, if it has one. */
  function ErrorsOf(field: string, c: Checked): (e: seq<FieldError>)
    ensures c.Invalid? ==> e == [FieldError(field, c.message)]
    ensures !c.Invalid? ==> e == []
  {
    if c.Invalid? then [FieldError(field, c.message)] else []
  }
}

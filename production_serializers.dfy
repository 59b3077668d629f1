/**
 * The validation rules of the production serializers
 * (backend/src/production/serializers.py): a plan's planned start must come
 * before its planned end, a work-progress record's start before its end,
 * and the `status_display` labels. Datetimes are abstract integers; the
 * validated data maps a submitted key to its value, where None is an
 * explicit null.
 */
module ProductionSerializers {
  import opened Common
  import opened DrfFields

  /** Validated request data restricted to the datetime keys. */
  type DateData = map<string, Option<int>>

  /** The stored start and end of the instance being updated. */
  datatype Stored = Stored(start: Option<int>, end: Option<int>)

  const PlanStart := "planned_start_datetime"
  const PlanEnd := "planned_end_datetime"
  const ProgressStart := "start_datetime"
  const ProgressEnd := "end_datetime"
  const PlanOrderMessage := "Planned end datetime must be after planned start datetime."
  const ProgressOrderMessage := "End datetime must be after start datetime."

  /** `data.get(key, default)`: a submitted key wins even when its value is null. */
  function GetOr(data: DateData, key: string, default: Option<int>): (r: Option<int>)
    ensures key in data ==> r == data[key]
    ensures key !in data ==> r == default
  {
    if key in data then data[key] else default
  }

  /** The start and end `validate` compares: request data, falling back to the instance on update only. */
  function Effective(data: DateData, instance: Option<Stored>, startKey: string, endKey: string): (p: (Option<int>, Option<int>))
    ensures instance.None? ==> p == (GetOr(data, startKey, None), GetOr(data, endKey, None))
    ensures instance.Some? ==> p == (GetOr(data, startKey, instance.value.start), GetOr(data, endKey, instance.value.end))
  {
    if instance.Some? then (GetOr(data, startKey, instance.value.start), GetOr(data, endKey, instance.value.end))
    else (GetOr(data, startKey, None), GetOr(data, endKey, None))
  }

  /** `ProductionPlanSerializer.validate`: an error on the end key when both are present and start ≥ end. */
  function PlanValidate(data: DateData, instance: Option<Stored>): (e: seq<FieldError>)
    ensures var (s, t) := Effective(data, instance, PlanStart, PlanEnd);
      e != [] <==> s.Some? && t.Some? && s.value >= t.value
    ensures e != [] ==> e == [FieldError(PlanEnd, PlanOrderMessage)]
  {
    var (s, t) := Effective(data, instance, PlanStart, PlanEnd);
    if s.Some? && t.Some? && s.value >= t.value then [FieldError(PlanEnd, PlanOrderMessage)] else []
  }

  /**
   * `WorkProgressSerializer.validate`: the same comparison guarded by
   * truthiness. A Python datetime is always truthy, so a present value is
   * a true one.
   */
  function ProgressValidate(data: DateData, instance: Option<Stored>): (e: seq<FieldError>)
    ensures var (s, t) := Effective(data, instance, ProgressStart, ProgressEnd);
      e != [] <==> s.Some? && t.Some? && s.value >= t.value
    ensures e != [] ==> e == [FieldError(ProgressEnd, ProgressOrderMessage)]
  {
    var (s, t) := Effective(data, instance, ProgressStart, ProgressEnd);
    if s.Some? && t.Some? then
      if s.value >= t.value then [FieldError(ProgressEnd, ProgressOrderMessage)] else []
    else []
  }

  /** On update, a missing key is taken from the instance: changing only the end below the stored start is refused. */
  lemma UpdateFallsBackToInstance(stored: Stored, end: int)
    requires stored.start.Some? && stored.start.value >= end
    ensures PlanValidate(map[PlanEnd := Some(end)], Some(stored)) == [FieldError(PlanEnd, PlanOrderMessage)]
  {
    assert PlanStart !in map[PlanEnd := Some(end)];
  }

  /** On create only the request counts: a missing start means no comparison, whatever the instance would say. */
  lemma CreateUsesRequestOnly(end: int)
    ensures PlanValidate(map[PlanEnd := Some(end)], None) == []
  {
    assert PlanStart !in map[PlanEnd := Some(end)];
  }

  /** An explicit null on update does not fall back to the instance, so the comparison is skipped. */
  lemma ExplicitNullSkipsCheck(stored: Stored, end: int)
    ensures PlanValidate(map[PlanStart := None, PlanEnd := Some(end)], Some(stored)) == []
  {
  }

  /** Both rules accept and refuse the same pairs: only the error key and message differ. */
  lemma ProgressRuleMatchesPlanRule(s: Option<int>, t: Option<int>, instance: Option<Stored>)
    ensures (PlanValidate(map[PlanStart := s, PlanEnd := t], instance) == [])
      <==> (ProgressValidate(map[ProgressStart := s, ProgressEnd := t], instance) == [])
  {
  }

  /** `ProductionPlan.STATUS_CHOICES`. */
  const PlanStatusChoices: seq<Choice> := [
    Choice("PENDING", "未着手"), Choice("IN_PROGRESS", "進行中"), Choice("COMPLETED", "完了"),
    Choice("ON_HOLD", "保留"), Choice("CANCELLED", "中止")]

  /** `MaterialAllocation.STATUS_CHOICES`. */
  const AllocationStatusChoices: seq<Choice> := [Choice("ALLOCATED", "引当済"), Choice("ISSUED", "出庫済"), Choice("RETURNED", "返却済")]

  /** `WorkProgress.STATUS_CHOICES`. */
  const ProgressStatusChoices: seq<Choice> := [
    Choice("NOT_STARTED", "未開始"), Choice("IN_PROGRESS", "進行中"), Choice("COMPLETED", "完了"), Choice("PAUSED", "一時停止")]

  /** `status_display` of a plan: every listed status shows its label, anything else its raw value. */
  lemma PlanStatusDisplay(i: nat, v: string)
    requires i < |PlanStatusChoices|
    requires forall j :: 0 <= j < |PlanStatusChoices| ==> PlanStatusChoices[j].key != v
    ensures ChoiceDisplay(PlanStatusChoices, PlanStatusChoices[i].key) == PlanStatusChoices[i].display
    ensures ChoiceDisplay(PlanStatusChoices, v) == v
  {
    ChoiceDisplayOfKey(PlanStatusChoices, i);
  }

  /** `status_display` of a work-progress record. */
  lemma ProgressStatusDisplay(i: nat, v: string)
    requires i < |ProgressStatusChoices|
    requires forall j :: 0 <= j < |ProgressStatusChoices| ==> ProgressStatusChoices[j].key != v
    ensures ChoiceDisplay(ProgressStatusChoices, ProgressStatusChoices[i].key) == ProgressStatusChoices[i].display
    ensures ChoiceDisplay(ProgressStatusChoices, v) == v
  {
    ChoiceDisplayOfKey(ProgressStatusChoices, i);
  }

  /** `status_display` of a material allocation. */
  lemma AllocationStatusDisplay(i: nat, v: string)
    requires i < |AllocationStatusChoices|
    requires forall j :: 0 <= j < |AllocationStatusChoices| ==> AllocationStatusChoices[j].key != v
    ensures ChoiceDisplay(AllocationStatusChoices, AllocationStatusChoices[i].key) == AllocationStatusChoices[i].display
    ensures ChoiceDisplay(AllocationStatusChoices, v) == v
  {
    ChoiceDisplayOfKey(AllocationStatusChoices, i);
  }
}

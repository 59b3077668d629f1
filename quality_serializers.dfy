/**
 * The nested writes of the quality serializers (backend/src/quality/serializers.py):
 * an inspection item created or updated with its measurement details, and an
 * inspection result created with its result details. DRF's validation of the
 * nested fields happens before these run: the inputs here are the validated data.
 */
module QualitySerializers {
  import opened Common
  import opened Json
  import opened QualityModels

  /** A validated nested measurement detail: its `id` (`None` when absent or null) and its other columns. */
  datatype DetailInput = DetailInput(id: Option<string>, attrs: Attrs)

  /** A validated nested result detail. */
  datatype ResultDetailInput = ResultDetailInput(detailId: string, numeric: Value, qualitative: Value)

  /** `MeasurementDetail.objects.create(inspection_item=..., **data)`. */
  function NewDetail(itemId: string, input: DetailInput): (d: MeasurementDetail)
    ensures d.itemId == itemId
    ensures forall c :: c in input.attrs ==> c in d.attrs && d.attrs[c] == input.attrs[c]
  {
    MeasurementDetail(itemId, DetailDefaults + input.attrs)
  }

  /** The keys a key generator hands out for its first `n` calls. */
  function IdsBelow(ids: nat -> string, n: nat): (s: set<string>)
    ensures forall k :: 0 <= k < n ==> ids(k) in s
  {
    if n == 0 then {} else IdsBelow(ids, n - 1) + {ids(n - 1)}
  }

  /** `uuid7()` keys: none already taken, never the same twice. */
  ghost predicate FreshIds(ids: nat -> string, taken: set<string>)
  {
    (forall k :: ids(k) !in taken) && (forall j, k :: j != k ==> ids(j) != ids(k))
  }

  /** A fresh generator's later keys are new, and none of its keys was taken. */
  lemma {:induction false} IdsBelowFresh(ids: nat -> string, taken: set<string>, n: nat, m: nat)
    requires FreshIds(ids, taken)
    requires n <= m
    ensures ids(m) !in IdsBelow(ids, n)
    ensures IdsBelow(ids, n) * taken == {}
  {
    if n > 0 {
      IdsBelowFresh(ids, taken, n - 1, m);
      assert ids(n - 1) != ids(m);
    }
  }

  // ---------------------------------------------------------------------
  // `InspectionItemDetailSerializer.create`
  // ---------------------------------------------------------------------

  /** The details `create` adds, one per payload entry, the `k`-th keyed `ids(k)`. */
  function CreatedDetails(itemId: string, inputs: seq<DetailInput>, ids: nat -> string): map<string, MeasurementDetail>
  {
    if inputs == [] then map[]
    else CreatedDetails(itemId, inputs[..|inputs| - 1], ids)[ids(|inputs| - 1) := NewDetail(itemId, inputs[|inputs| - 1])]
  }

  /** A new item gets exactly one detail per payload entry, each made from its entry. */
  lemma {:induction false} CreatedDetailsAreThePayload(itemId: string, inputs: seq<DetailInput>, ids: nat -> string, taken: set<string>)
    requires FreshIds(ids, taken)
    ensures CreatedDetails(itemId, inputs, ids).Keys == IdsBelow(ids, |inputs|)
    ensures |CreatedDetails(itemId, inputs, ids)| == |inputs|
    ensures forall id :: id in CreatedDetails(itemId, inputs, ids) ==> CreatedDetails(itemId, inputs, ids)[id].itemId == itemId
    ensures forall k :: 0 <= k < |inputs| ==> CreatedDetails(itemId, inputs, ids)[ids(k)] == NewDetail(itemId, inputs[k])
  {
    if inputs != [] {
      var n := |inputs| - 1;
      var front := inputs[..n];
      CreatedDetailsAreThePayload(itemId, front, ids, taken);
      IdsBelowFresh(ids, taken, n, n);
      forall k | 0 <= k < |inputs| ensures CreatedDetails(itemId, inputs, ids)[ids(k)] == NewDetail(itemId, inputs[k]) {
        if k < n {
          assert front[k] == inputs[k];
          assert ids(k) != ids(n);
        }
      }
    }
  }

  /** The created details belong to the new item, one per entry, under keys not already taken. */
  lemma CreatedDetailsFresh(itemId: string, inputs: seq<DetailInput>, ids: nat -> string, taken: set<string>)
    requires FreshIds(ids, taken)
    ensures CreatedDetails(itemId, inputs, ids).Keys * taken == {}
    ensures |CreatedDetails(itemId, inputs, ids)| == |inputs|
    ensures forall id :: id in CreatedDetails(itemId, inputs, ids) ==> CreatedDetails(itemId, inputs, ids)[id].itemId == itemId
  {
    CreatedDetailsAreThePayload(itemId, inputs, ids, taken);
    IdsBelowFresh(ids, taken, |inputs|, |inputs|);
  }

  // ---------------------------------------------------------------------
  // `InspectionItemDetailSerializer.update`
  // ---------------------------------------------------------------------

  /** The details table and `detail_mapping`, the item's details not yet matched by a payload entry. */
  datatype Recon = Recon(details: map<string, MeasurementDetail>, mapping: map<string, MeasurementDetail>)

  /** `{item.id: item for item in instance.measurement_details.all()}`. */
  function ItemDetails(details: map<string, MeasurementDetail>, itemId: string): (m: map<string, MeasurementDetail>)
    ensures m.Keys == ItemDetailIds(details, itemId)
    ensures forall id :: id in m ==> m[id] == details[id]
  {
    map id | id in details && details[id].itemId == itemId :: details[id]
  }

  /**
   * One payload entry: an id still in the mapping overwrites that detail with
   * the entry's columns and is popped; anything else creates a detail under `newId`.
   */
  function ReconStep(r: Recon, itemId: string, input: DetailInput, newId: string): (s: Recon)
    ensures input.id.Some? && input.id.value in r.mapping ==>
      s == Recon(r.details[input.id.value := r.mapping[input.id.value].(attrs := r.mapping[input.id.value].attrs + input.attrs)],
        r.mapping - {input.id.value})
    ensures !(input.id.Some? && input.id.value in r.mapping) ==> s == Recon(r.details[newId := NewDetail(itemId, input)], r.mapping)
  {
    if input.id.Some? && input.id.value in r.mapping then
      var id := input.id.value;
      var instance := r.mapping[id];
      Recon(r.details[id := instance.(attrs := instance.attrs + input.attrs)], r.mapping - {id})
    else
      Recon(r.details[newId := NewDetail(itemId, input)], r.mapping)
  }

  /** The loop over the payload; the `k`-th entry would create under `ids(k)`. */
  function ReconFold(details0: map<string, MeasurementDetail>, itemId: string, inputs: seq<DetailInput>, ids: nat -> string): Recon
  {
    if inputs == [] then Recon(details0, ItemDetails(details0, itemId))
    else ReconStep(ReconFold(details0, itemId, inputs[..|inputs| - 1], ids), itemId, inputs[|inputs| - 1], ids(|inputs| - 1))
  }

  /** The details left in the mapping at the end: these are deleted. */
  function Unmatched(details0: map<string, MeasurementDetail>, itemId: string, inputs: seq<DetailInput>, ids: nat -> string): set<string>
  {
    ReconFold(details0, itemId, inputs, ids).mapping.Keys
  }

  /** The table after `update`: the loop's table without the unmatched details. */
  function Reconciled(details0: map<string, MeasurementDetail>, itemId: string, inputs: seq<DetailInput>, ids: nat -> string): map<string, MeasurementDetail>
  {
    var r := ReconFold(details0, itemId, inputs, ids);
    r.details - r.mapping.Keys
  }

  /** After `n` entries, the mapping holds exactly the item's original details that no entry has named yet. */
  ghost predicate MappingInv(details0: map<string, MeasurementDetail>, itemId: string, inputs: seq<DetailInput>, n: nat, mapping: map<string, MeasurementDetail>)
    requires n <= |inputs|
  {
    && (forall id :: id in mapping ==> id in details0 && mapping[id] == details0[id] && details0[id].itemId == itemId)
    && (forall id :: id in details0 && details0[id].itemId == itemId ==>
         (id in mapping <==> forall k :: 0 <= k < n ==> inputs[k].id != Some(id)))
  }

  lemma {:induction false} ReconMapping(details0: map<string, MeasurementDetail>, itemId: string, inputs: seq<DetailInput>, ids: nat -> string)
    ensures MappingInv(details0, itemId, inputs, |inputs|, ReconFold(details0, itemId, inputs, ids).mapping)
  {
    if inputs != [] {
      var n := |inputs| - 1;
      var front := inputs[..n];
      ReconMapping(details0, itemId, front, ids);
      var m := ReconFold(details0, itemId, front, ids).mapping;
      assert forall k :: 0 <= k < n ==> front[k] == inputs[k];
      forall id | id in details0 && details0[id].itemId == itemId && id !in m
        ensures exists k :: 0 <= k < n + 1 && inputs[k].id == Some(id)
      {
        var k :| 0 <= k < n && front[k].id == Some(id);
        assert inputs[k].id == Some(id);
      }
    }
  }

  /** After `n` entries, only new keys were added, and other items' details are as they were. */
  ghost predicate FrameInv(details0: map<string, MeasurementDetail>, itemId: string, ids: nat -> string, n: nat, details: map<string, MeasurementDetail>)
  {
    && details0.Keys <= details.Keys
    && details.Keys <= details0.Keys + IdsBelow(ids, n)
    && (forall id :: id in details ==> details[id].itemId == itemId || (id in details0 && details[id].itemId == details0[id].itemId))
    && (forall id :: id in details0 && details0[id].itemId != itemId ==> details[id] == details0[id])
  }

  lemma {:induction false} ReconFrame(details0: map<string, MeasurementDetail>, itemId: string, inputs: seq<DetailInput>, ids: nat -> string)
    requires FreshIds(ids, details0.Keys)
    ensures FrameInv(details0, itemId, ids, |inputs|, ReconFold(details0, itemId, inputs, ids).details)
  {
    if inputs != [] {
      var n := |inputs| - 1;
      ReconFrame(details0, itemId, inputs[..n], ids);
      ReconMapping(details0, itemId, inputs[..n], ids);
      var r := ReconFold(details0, itemId, inputs[..n], ids);
      var input := inputs[n];
      assert IdsBelow(ids, n + 1) == IdsBelow(ids, n) + {ids(n)};
      if input.id.Some? && input.id.value in r.mapping {
        var id := input.id.value;
        assert id in details0 && details0[id].itemId == itemId;
        FrameKeepsOnOverwrite(details0, itemId, ids, n, r.details, id, r.mapping[id].(attrs := r.mapping[id].attrs + input.attrs));
      } else {
        assert ids(n) !in details0;
        FrameKeepsOnCreate(details0, itemId, ids, n, r.details, NewDetail(itemId, input));
      }
    }
  }

  lemma FrameKeepsOnOverwrite(details0: map<string, MeasurementDetail>, itemId: string, ids: nat -> string, n: nat,
                              details: map<string, MeasurementDetail>, id: string, d: MeasurementDetail)
    requires FrameInv(details0, itemId, ids, n, details)
    requires id in details0 && details0[id].itemId == itemId && d.itemId == itemId
    ensures FrameInv(details0, itemId, ids, n + 1, details[id := d])
  {
    var after := details[id := d];
    assert after.Keys == details.Keys;
    assert IdsBelow(ids, n) <= IdsBelow(ids, n + 1);
    forall x | x in after ensures after[x].itemId == itemId || (x in details0 && after[x].itemId == details0[x].itemId) {
      if x != id {
        assert after[x] == details[x];
      }
    }
    forall x | x in details0 && details0[x].itemId != itemId ensures after[x] == details0[x] {
      assert x != id;
    }
  }

  lemma FrameKeepsOnCreate(details0: map<string, MeasurementDetail>, itemId: string, ids: nat -> string, n: nat,
                           details: map<string, MeasurementDetail>, d: MeasurementDetail)
    requires FrameInv(details0, itemId, ids, n, details)
    requires ids(n) !in details0 && d.itemId == itemId
    ensures FrameInv(details0, itemId, ids, n + 1, details[ids(n) := d])
  {
    assert IdsBelow(ids, n + 1) == IdsBelow(ids, n) + {ids(n)};
  }

  /** After `n` entries, the item has `n` details besides those still in the mapping. */
  ghost predicate CountInv(itemId: string, n: nat, r: Recon)
  {
    && r.mapping.Keys <= ItemDetailIds(r.details, itemId)
    && |ItemDetailIds(r.details, itemId)| == n + |r.mapping|
  }

  /** Overwriting one of the item's details keeps the item's detail keys. */
  lemma ItemIdsOverwrite(details: map<string, MeasurementDetail>, itemId: string, id: string, d: MeasurementDetail)
    requires id in details && details[id].itemId == itemId && d.itemId == itemId
    ensures ItemDetailIds(details[id := d], itemId) == ItemDetailIds(details, itemId)
  {
  }

  /** A detail under a new key adds that key to the item's detail keys. */
  lemma ItemIdsAdd(details: map<string, MeasurementDetail>, itemId: string, id: string, d: MeasurementDetail)
    requires id !in details && d.itemId == itemId
    ensures ItemDetailIds(details[id := d], itemId) == ItemDetailIds(details, itemId) + {id}
    ensures |ItemDetailIds(details[id := d], itemId)| == |ItemDetailIds(details, itemId)| + 1
  {
    assert ItemDetailIds(details[id := d], itemId) == ItemDetailIds(details, itemId) + {id};
  }

  /** Deleting some of the item's details removes exactly those keys. */
  lemma ItemIdsRemove(details: map<string, MeasurementDetail>, itemId: string, gone: set<string>)
    requires gone <= ItemDetailIds(details, itemId)
    ensures |ItemDetailIds(details - gone, itemId)| == |ItemDetailIds(details, itemId)| - |gone|
  {
    assert ItemDetailIds(details, itemId) == ItemDetailIds(details - gone, itemId) + gone;
  }

  lemma {:induction false} ReconCount(details0: map<string, MeasurementDetail>, itemId: string, inputs: seq<DetailInput>, ids: nat -> string)
    requires FreshIds(ids, details0.Keys)
    ensures CountInv(itemId, |inputs|, ReconFold(details0, itemId, inputs, ids))
  {
    if inputs == [] {
      var r := ReconFold(details0, itemId, inputs, ids);
      assert r.mapping.Keys == ItemDetailIds(details0, itemId);
    } else {
      var n := |inputs| - 1;
      var input := inputs[n];
      var r := ReconFold(details0, itemId, inputs[..n], ids);
      ReconCount(details0, itemId, inputs[..n], ids);
      if input.id.Some? && input.id.value in r.mapping {
        var id := input.id.value;
        ReconMapping(details0, itemId, inputs[..n], ids);
        var d := r.mapping[id].(attrs := r.mapping[id].attrs + input.attrs);
        ItemIdsOverwrite(r.details, itemId, id, d);
        assert r.mapping.Keys == (r.mapping - {id}).Keys + {id};
      } else {
        ReconFrame(details0, itemId, inputs[..n], ids);
        IdsBelowFresh(ids, details0.Keys, n, n);
        ItemIdsAdd(r.details, itemId, ids(n), NewDetail(itemId, input));
      }
    }
  }

  /** After `update`, the item has exactly one detail per payload entry. */
  lemma ReconciledCount(details0: map<string, MeasurementDetail>, itemId: string, inputs: seq<DetailInput>, ids: nat -> string)
    requires FreshIds(ids, details0.Keys)
    ensures |ItemDetailIds(Reconciled(details0, itemId, inputs, ids), itemId)| == |inputs|
  {
    ReconCount(details0, itemId, inputs, ids);
    var r := ReconFold(details0, itemId, inputs, ids);
    ItemIdsRemove(r.details, itemId, r.mapping.Keys);
  }

  /**
   * After `update`, an existing detail of the item survives exactly when some
   * entry names it; other items' details are untouched; every new key comes
   * from the key generator; only the item's own details are deleted.
   */
  lemma ReconciledMeaning(details0: map<string, MeasurementDetail>, itemId: string, inputs: seq<DetailInput>, ids: nat -> string)
    requires FreshIds(ids, details0.Keys)
    ensures forall id :: id in ItemDetailIds(details0, itemId) ==>
      (id in Reconciled(details0, itemId, inputs, ids) <==> exists k :: 0 <= k < |inputs| && inputs[k].id == Some(id))
    ensures forall id :: id in details0 && details0[id].itemId != itemId ==>
      id in Reconciled(details0, itemId, inputs, ids) && Reconciled(details0, itemId, inputs, ids)[id] == details0[id]
    ensures Reconciled(details0, itemId, inputs, ids).Keys <= details0.Keys + IdsBelow(ids, |inputs|)
    ensures Unmatched(details0, itemId, inputs, ids) <= ItemDetailIds(details0, itemId)
    ensures details0.Keys - Unmatched(details0, itemId, inputs, ids) <= Reconciled(details0, itemId, inputs, ids).Keys
    ensures forall id :: id in Reconciled(details0, itemId, inputs, ids) ==> (Reconciled(details0, itemId, inputs, ids)[id].itemId == itemId
      || (id in details0 && Reconciled(details0, itemId, inputs, ids)[id].itemId == details0[id].itemId))
  {
    ReconMapping(details0, itemId, inputs, ids);
    ReconFrame(details0, itemId, inputs, ids);
  }

  /** A repeated id overwrites its detail once; the repeat creates a new detail, and the item still ends with one detail per entry. */
  lemma RepeatedIdCreatesDetail(details0: map<string, MeasurementDetail>, itemId: string, id: string, a: Attrs, b: Attrs, ids: nat -> string)
    requires FreshIds(ids, details0.Keys)
    requires id in details0 && details0[id].itemId == itemId
    ensures var inputs := [DetailInput(Some(id), a), DetailInput(Some(id), b)];
      && var f := Reconciled(details0, itemId, inputs, ids);
      && id in f && ids(1) in f && f[ids(1)] == NewDetail(itemId, DetailInput(Some(id), b))
      && |ItemDetailIds(f, itemId)| == 2
  {
    var inputs := [DetailInput(Some(id), a), DetailInput(Some(id), b)];
    ReconciledMeaning(details0, itemId, inputs, ids);
    ReconciledCount(details0, itemId, inputs, ids);
    assert inputs[..1] == [DetailInput(Some(id), a)];
    assert [DetailInput(Some(id), a)][..0] == [];
    var r0 := ReconFold(details0, itemId, [], ids);
    var r1 := ReconFold(details0, itemId, inputs[..1], ids);
    assert id in r0.mapping;
    assert id !in r1.mapping;
    assert ids(1) !in details0;
    assert ids(1) != id;
  }

  /** Creating an item with its details keeps every key linked and gives the item one detail per entry. */
  lemma CreatedItemLinked(items: map<string, InspectionItem>, details: map<string, MeasurementDetail>,
    results: map<string, InspectionResult>, resultDetails: map<string, ResultDetail>,
    itemId: string, item: InspectionItem, inputs: seq<DetailInput>, ids: nat -> string)
    requires Linked(items, details, results, resultDetails)
    requires itemId !in items
    requires FreshIds(ids, details.Keys)
    ensures Linked(items[itemId := item], details + CreatedDetails(itemId, inputs, ids), results, resultDetails)
  {
    var created := CreatedDetails(itemId, inputs, ids);
    CreatedDetailsFresh(itemId, inputs, ids, details.Keys);
    var all := details + created;
    var items' := items[itemId := item];
    forall id | id in all ensures all[id].itemId in items' {
      if id in created {
        assert all[id] == created[id];
      } else {
        assert all[id] == details[id];
      }
    }
    LinkedWithDetails(items, items', details, all, results, resultDetails);
  }

  /** A new item has exactly one detail per payload entry. */
  lemma CreatedItemCount(items: map<string, InspectionItem>, details: map<string, MeasurementDetail>,
    itemId: string, inputs: seq<DetailInput>, ids: nat -> string)
    requires forall id :: id in details ==> details[id].itemId in items
    requires itemId !in items
    requires FreshIds(ids, details.Keys)
    ensures |ItemDetailIds(details + CreatedDetails(itemId, inputs, ids), itemId)| == |inputs|
  {
    var created := CreatedDetails(itemId, inputs, ids);
    CreatedDetailsFresh(itemId, inputs, ids, details.Keys);
    assert ItemDetailIds(details + created, itemId) == created.Keys;
  }

  /** Saving an update whose unmatched details nothing records keeps every key linked. */
  lemma ReconciledLinked(items: map<string, InspectionItem>, details0: map<string, MeasurementDetail>,
    results: map<string, InspectionResult>, resultDetails: map<string, ResultDetail>,
    itemId: string, item: InspectionItem, inputs: seq<DetailInput>, ids: nat -> string)
    requires Linked(items, details0, results, resultDetails)
    requires itemId in items
    requires FreshIds(ids, details0.Keys)
    requires !Referenced(resultDetails, Unmatched(details0, itemId, inputs, ids))
    ensures Linked(items[itemId := item], Reconciled(details0, itemId, inputs, ids), results, resultDetails)
  {
    ReconciledMeaning(details0, itemId, inputs, ids);
    var f := Reconciled(details0, itemId, inputs, ids);
    var gone := Unmatched(details0, itemId, inputs, ids);
    forall rid | rid in resultDetails ensures resultDetails[rid].detailId in f {
      assert resultDetails[rid].detailId !in gone;
    }
    LinkedWithDetails(items, items[itemId := item], details0, f, results, resultDetails);
  }

  // ---------------------------------------------------------------------
  // The tables
  // ---------------------------------------------------------------------

  /** Why `update` did not save: no `measurement_details` in the data (`KeyError`), or a detail to delete is still recorded (`ProtectedError`). */
  datatype UpdateOutcome = ItemSaved | NoDetailsGiven | DetailProtected

  /** Some result detail records a value against one of `doomed`. */
  predicate Referenced(resultDetails: map<string, ResultDetail>, doomed: set<string>)
  {
    exists rid :: rid in resultDetails && resultDetails[rid].detailId in doomed
  }

  class QualityStore {
    var items: map<string, InspectionItem>
    var details: map<string, MeasurementDetail>
    var results: map<string, InspectionResult>
    var resultDetails: map<string, ResultDetail>

    ghost predicate Valid()
      reads this
    {
      Linked(items, details, results, resultDetails)
    }

    constructor ()
      ensures Valid()
      ensures items == map[] && details == map[] && results == map[] && resultDetails == map[]
    {
      items, details, results, resultDetails := map[], map[], map[], map[];
    }

    /** `InspectionItemDetailSerializer.create`, inside one transaction. */
    method CreateItem(attrs: Attrs, inputs: seq<DetailInput>, itemId: string, ids: nat -> string)
      requires Valid()
      requires itemId !in items
      requires FreshIds(ids, details.Keys)
      modifies this
      ensures Valid()
      ensures items == old(items)[itemId := InspectionItem(ItemDefaults + attrs)]
      ensures details == old(details) + CreatedDetails(itemId, inputs, ids)
      ensures |ItemDetailIds(details, itemId)| == |inputs|
      ensures results == old(results) && resultDetails == old(resultDetails)
    {
      var created := BuildCreated(itemId, inputs, ids);
      var item := InspectionItem(ItemDefaults + attrs);
      CreatedItemLinked(items, details, results, resultDetails, itemId, item, inputs, ids);
      CreatedItemCount(items, details, itemId, inputs, ids);
      items := items[itemId := item];
      details := details + created;
    }

    /** The loop of `create` over the sent details: one new detail per entry, under the next fresh key. */
    static method BuildCreated(itemId: string, inputs: seq<DetailInput>, ids: nat -> string)
      returns (created: map<string, MeasurementDetail>)
      ensures created == CreatedDetails(itemId, inputs, ids)
    {
      created := map[];
      var k := 0;
      while k < |inputs|
        invariant 0 <= k <= |inputs|
        invariant created == CreatedDetails(itemId, inputs[..k], ids)
      {
        assert inputs[..k + 1][..k] == inputs[..k];
        created := created[ids(k) := NewDetail(itemId, inputs[k])];
        k := k + 1;
      }
      assert inputs[..|inputs|] == inputs;
    }

    /**
     * `InspectionItemDetailSerializer.update`, inside one transaction: the
     * item's own columns, then the payload loop, then the deletion of the
     * unmatched details. A `KeyError` or a `ProtectedError` rolls it all back.
     */
    method UpdateItem(itemId: string, attrs: Attrs, inputs: Option<seq<DetailInput>>, ids: nat -> string) returns (outcome: UpdateOutcome)
      requires Valid()
      requires itemId in items
      requires FreshIds(ids, details.Keys)
      modifies this
      ensures Valid()
      ensures inputs.None? ==> outcome == NoDetailsGiven
      ensures outcome == DetailProtected <==>
        inputs.Some? && Referenced(old(resultDetails), Unmatched(old(details), itemId, inputs.value, ids))
      ensures outcome != ItemSaved ==> items == old(items) && details == old(details)
      ensures outcome == ItemSaved ==> (
        && items == old(items)[itemId := InspectionItem(old(items)[itemId].attrs + attrs)]
        && details == Reconciled(old(details), itemId, inputs.value, ids))
      ensures results == old(results) && resultDetails == old(resultDetails)
    {
      if inputs.None? {
        return NoDetailsGiven;
      }
      var payload := inputs.value;
      var table, mapping := ReconcileDetails(itemId, payload, ids);
      if Referenced(resultDetails, mapping.Keys) {
        return DetailProtected;
      }
      var item := InspectionItem(items[itemId].attrs + attrs);
      ReconciledLinked(items, details, results, resultDetails, itemId, item, payload, ids);
      items := items[itemId := item];
      details := table - mapping.Keys;
      return ItemSaved;
    }

    /** The loop of `update` over the sent details: the table it stages and the details it leaves unmatched. */
    method ReconcileDetails(itemId: string, payload: seq<DetailInput>, ids: nat -> string)
      returns (table: map<string, MeasurementDetail>, mapping: map<string, MeasurementDetail>)
      ensures Recon(table, mapping) == ReconFold(details, itemId, payload, ids)
    {
      table := details;
      mapping := ItemDetails(details, itemId);
      var k := 0;
      while k < |payload|
        invariant 0 <= k <= |payload|
        invariant ReconFold(details, itemId, payload[..k], ids) == Recon(table, mapping)
      {
        assert payload[..k + 1][..k] == payload[..k];
        var input := payload[k];
        if input.id.Some? && input.id.value in mapping {
          var instance := mapping[input.id.value];
          mapping := mapping - {input.id.value};
          table := table[input.id.value := instance.(attrs := instance.attrs + input.attrs)];
        } else {
          table := table[ids(k) := NewDetail(itemId, input)];
        }
        k := k + 1;
      }
      assert payload[..|payload|] == payload;
    }

    /** `InspectionResultSerializer.create`: the result, stamped with the requesting user, then one detail per entry. */
    method CreateResult(itemId: string, user: string, attrs: Attrs, inputs: seq<ResultDetailInput>, resultId: string, ids: nat -> string)
      requires Valid()
      requires itemId in items && resultId !in results
      requires forall k :: 0 <= k < |inputs| ==> inputs[k].detailId in details
      requires FreshIds(ids, resultDetails.Keys)
      modifies this
      ensures Valid()
      ensures results == old(results)[resultId := InspectionResult(itemId, Some(user), ResultDefaults + attrs)]
      ensures resultDetails == old(resultDetails) + CreatedResultDetails(resultId, inputs, ids)
      ensures items == old(items) && details == old(details)
    {
      var created: map<string, ResultDetail> := map[];
      var k := 0;
      while k < |inputs|
        invariant 0 <= k <= |inputs|
        invariant created == CreatedResultDetails(resultId, inputs[..k], ids)
      {
        assert inputs[..k + 1][..k] == inputs[..k];
        created := created[ids(k) := ResultDetail(resultId, inputs[k].detailId, inputs[k].numeric, inputs[k].qualitative)];
        k := k + 1;
      }
      assert inputs[..|inputs|] == inputs;
      CreatedResultDetailsLinked(resultId, inputs, ids, details);
      var result := InspectionResult(itemId, Some(user), ResultDefaults + attrs);
      LinkedAddResult(items, details, results, resultDetails, resultId, result, created);
      results := results[resultId := result];
      resultDetails := resultDetails + created;
    }
  }

  /** The result details `create` adds, the `k`-th keyed `ids(k)`. */
  function CreatedResultDetails(resultId: string, inputs: seq<ResultDetailInput>, ids: nat -> string): map<string, ResultDetail>
  {
    if inputs == [] then map[]
    else
      var k := |inputs| - 1;
      CreatedResultDetails(resultId, inputs[..k], ids)[ids(k) := ResultDetail(resultId, inputs[k].detailId, inputs[k].numeric, inputs[k].qualitative)]
  }

  /** A result gets one detail per entry, carrying that entry's detail and values. */
  lemma {:induction false} CreatedResultDetailsArePayload(resultId: string, inputs: seq<ResultDetailInput>, ids: nat -> string, taken: set<string>)
    requires FreshIds(ids, taken)
    ensures CreatedResultDetails(resultId, inputs, ids).Keys == IdsBelow(ids, |inputs|)
    ensures |CreatedResultDetails(resultId, inputs, ids)| == |inputs|
    ensures forall k :: 0 <= k < |inputs| ==> (CreatedResultDetails(resultId, inputs, ids)[ids(k)] ==
      ResultDetail(resultId, inputs[k].detailId, inputs[k].numeric, inputs[k].qualitative))
  {
    if inputs != [] {
      var n := |inputs| - 1;
      var front := inputs[..n];
      CreatedResultDetailsArePayload(resultId, front, ids, taken);
      IdsBelowFresh(ids, taken, n, n);
      forall k | 0 <= k < |inputs| ensures CreatedResultDetails(resultId, inputs, ids)[ids(k)] ==
        ResultDetail(resultId, inputs[k].detailId, inputs[k].numeric, inputs[k].qualitative)
      {
        if k < n {
          assert front[k] == inputs[k];
          assert ids(k) != ids(n);
        }
      }
    }
  }

  lemma {:induction false} CreatedResultDetailsLinked(resultId: string, inputs: seq<ResultDetailInput>, ids: nat -> string,
    details: map<string, MeasurementDetail>)
    requires forall k :: 0 <= k < |inputs| ==> inputs[k].detailId in details
    ensures forall id :: id in CreatedResultDetails(resultId, inputs, ids) ==>
      CreatedResultDetails(resultId, inputs, ids)[id].resultId == resultId && CreatedResultDetails(resultId, inputs, ids)[id].detailId in details
  {
    if inputs != [] {
      CreatedResultDetailsLinked(resultId, inputs[..|inputs| - 1], ids, details);
    }
  }
}

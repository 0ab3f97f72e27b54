/** The product-variant section: adds, removes and edits the variants of the
    shared record. */
module ProductVariantSection {

  import opened Folds
  import opened Sizes
  import opened OrderRecord
  import opened Edits
  import opened SharedForm

  /** `addVariant`, with the clock-generated id passed in as `newId`. */
  method AddVariant(state: FormCell, newId: string)
    modifies state
    ensures state.formData == old(state.formData).(variants := old(state.formData.variants) + [NewVariant(newId)])
    ensures WellFormed(old(state.formData)) && (forall v :: v in old(state.formData.variants) ==> v.id != newId) ==>
              WellFormed(state.formData)
  {
    state.formData := state.formData.(variants := state.formData.variants + [NewVariant(newId)]);
    AddVariantKeepsTotals(old(state.formData.variants), newId);
  }

  /** `removeVariant`: nothing happens while one variant or none is left. */
  method RemoveVariant(state: FormCell, variantId: string)
    modifies state
    ensures state.formData == old(state.formData).(variants := Edits.RemoveVariant(old(state.formData.variants), variantId))
    ensures WellFormed(old(state.formData)) ==> WellFormed(state.formData)
  {
    if |state.formData.variants| > 1 {
      state.formData := state.formData.(variants := Filter(state.formData.variants, OtherVariant(variantId)));
    }
    if WellFormed(old(state.formData)) {
      RemoveVariantKeepsOne(old(state.formData.variants), variantId);
    }
  }

  method HandleVariantChange(state: FormCell, variantId: string, e: VariantField)
    modifies state
    ensures state.formData == old(state.formData).(variants := UpdateVariants(old(state.formData.variants), variantId, e))
    ensures !e.IdField? && WellFormed(old(state.formData)) ==> WellFormed(state.formData)
  {
    state.formData := state.formData.(variants := UpdateVariants(state.formData.variants, variantId, e));
    VariantEditFrame(old(state.formData.variants), variantId, e);
  }

  method HandleSizeQuantityChange(state: FormCell, variantId: string, size: string, quantity: int)
    modifies state
    ensures state.formData == old(state.formData).(variants := SetVariantSize(old(state.formData.variants), variantId, size, quantity))
    ensures WellFormed(old(state.formData)) ==> WellFormed(state.formData)
  {
    state.formData := state.formData.(variants := SetVariantSize(state.formData.variants, variantId, size, quantity));
    SizeEditKeepsIds(old(state.formData.variants), variantId, size, quantity);
  }

  /** The value a size input shows: `variant.sizes[size] || 0`. */
  function ShownQuantity(v: Variant, size: string): (q: int)
    ensures !HasKey(v.sizes, size) ==> q == 0
    ensures forall i :: 0 <= i < |v.sizes| && v.sizes[i].size == size ==> q == v.sizes[i].qty
  {
    Lookup(v.sizes, size)
  }
}

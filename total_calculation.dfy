/** The total-calculation section: the quantity and bill figures it shows,
    the shipping input, and the addition and deduction lists it edits. */
module TotalCalculationSection {

  import opened OrderRecord
  import opened Totals
  import opened Edits
  import opened SharedForm

  /** `calculateTotalQuantity()` */
  function CalculateTotalQuantity(state: FormCell): (r: int)
    reads state
    ensures r == QuantitySpec(state.formData.variants)
  {
    Totals.CalculateTotalQuantity(state.formData.variants)
  }

  /** `calculateTotalAmount()`, the total bill. */
  function CalculateTotalAmount(state: FormCell): (r: int)
    reads state
    ensures r == TotalBillSpec(state.formData)
  {
    Totals.CalculateTotalAmount(state.formData)
  }

  /** The "Total Product Amount" figure, folded inline a second time; it is
      the product term of the bill. */
  function ShownProductAmount(state: FormCell): (r: int)
    reads state
    ensures r == ProductAmountSpec(state.formData.variants)
    ensures r + state.formData.shipping.price + ItemsSpec(state.formData.additions)
              - ItemsSpec(state.formData.deductions) == CalculateTotalAmount(state)
  {
    ProductTotal(state.formData.variants)
  }

  method AddAddition(state: FormCell, newId: string)
    modifies state
    ensures state.formData == old(state.formData).(additions := old(state.formData.additions) + [NewLineItem(newId)])
    ensures WellFormed(old(state.formData)) && (forall a :: a in old(state.formData.additions) ==> a.id != newId) ==>
              WellFormed(state.formData)
  {
    state.formData := state.formData.(additions := state.formData.additions + [NewLineItem(newId)]);
    AddLineItemKeepsTotal(old(state.formData.additions), newId);
  }

  method RemoveAddition(state: FormCell, id: string)
    modifies state
    ensures state.formData == old(state.formData).(additions := RemoveLineItem(old(state.formData.additions), id))
    ensures WellFormed(old(state.formData)) ==> WellFormed(state.formData)
  {
    state.formData := state.formData.(additions := RemoveLineItem(state.formData.additions, id));
    if WellFormed(old(state.formData)) {
      RemoveLineItemKeepsIds(old(state.formData.additions), id);
    }
  }

  method AddDeduction(state: FormCell, newId: string)
    modifies state
    ensures state.formData == old(state.formData).(deductions := old(state.formData.deductions) + [NewLineItem(newId)])
    ensures WellFormed(old(state.formData)) && (forall d :: d in old(state.formData.deductions) ==> d.id != newId) ==>
              WellFormed(state.formData)
  {
    state.formData := state.formData.(deductions := state.formData.deductions + [NewLineItem(newId)]);
    AddLineItemKeepsTotal(old(state.formData.deductions), newId);
  }

  method RemoveDeduction(state: FormCell, id: string)
    modifies state
    ensures state.formData == old(state.formData).(deductions := RemoveLineItem(old(state.formData.deductions), id))
    ensures WellFormed(old(state.formData)) ==> WellFormed(state.formData)
  {
    state.formData := state.formData.(deductions := RemoveLineItem(state.formData.deductions, id));
    if WellFormed(old(state.formData)) {
      RemoveLineItemKeepsIds(old(state.formData.deductions), id);
    }
  }

  /** The inline category, description and price inputs of an addition. */
  method UpdateAddition(state: FormCell, id: string, e: ItemField)
    modifies state
    ensures state.formData == old(state.formData).(additions := UpdateLineItems(old(state.formData.additions), id, e))
    ensures WellFormed(old(state.formData)) ==> WellFormed(state.formData)
  {
    state.formData := state.formData.(additions := UpdateLineItems(state.formData.additions, id, e));
    if WellFormed(old(state.formData)) {
      ItemEditTotal(old(state.formData.additions), id, e);
    }
  }

  /** The inline category, description and price inputs of a deduction. */
  method UpdateDeduction(state: FormCell, id: string, e: ItemField)
    modifies state
    ensures state.formData == old(state.formData).(deductions := UpdateLineItems(old(state.formData.deductions), id, e))
    ensures WellFormed(old(state.formData)) ==> WellFormed(state.formData)
  {
    state.formData := state.formData.(deductions := UpdateLineItems(state.formData.deductions, id, e));
    if WellFormed(old(state.formData)) {
      ItemEditTotal(old(state.formData.deductions), id, e);
    }
  }

  /** The shipping input: shown with `shipping.category`, writes `shipping.price`. */
  method ShippingInputChange(state: FormCell, price: int)
    modifies state
    ensures state.formData == ShippingInput(old(state.formData), price)
  {
    state.formData := state.formData.(shipping := state.formData.shipping.(price := price));
  }
}

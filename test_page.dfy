/** The single-component sales-order form: one `useState` cell holding the
    whole record, the totals recomputed from it on every render, and the
    handlers that replace it with an edited copy. */
module TestPage {

  import opened OrderRecord
  import opened Totals
  import opened Edits
  import Customers

  /** The form's starting record: the default snapshot, except that the
      wallet starts as an empty method name rather than the number 0. */
  const InitialState: FormData := DefaultValues.(wallet := WalletName(""))

  class Test {
    var formData: FormData

    constructor()
      ensures formData == InitialState
      ensures WellFormed(formData)
      ensures AddressDerived(formData)
    {
      formData := InitialState;
      DefaultAddressDerived();
    }

    /** `calculateTotalQuantity()` */
    function CalculateTotalQuantity(): (r: int)
      reads this
      ensures r == QuantitySpec(formData.variants)
    {
      Totals.CalculateTotalQuantity(formData.variants)
    }

    /** `calculateTotalAmount()`, the total bill. */
    function CalculateTotalAmount(): (r: int)
      reads this
      ensures r == TotalBillSpec(formData)
    {
      Totals.CalculateTotalAmount(formData)
    }

    /** The "Total Product Amount" figure, folded inline in the summary; it
        is the product term of the bill. */
    function ShownProductAmount(): (r: int)
      reads this
      ensures r == ProductAmountSpec(formData.variants)
      ensures r + formData.shipping.price + ItemsSpec(formData.additions)
                - ItemsSpec(formData.deductions) == CalculateTotalAmount()
    {
      ProductTotal(formData.variants)
    }

    /** `remainingPayment`: negative when more than the bill was paid. */
    function RemainingPayment(): (r: int)
      reads this
      ensures r == TotalBillSpec(formData) - formData.paymentAmount
      ensures r < 0 <==> formData.paymentAmount > TotalBillSpec(formData)
    {
      CalculateTotalAmount() - formData.paymentAmount
    }

    method HandleCustomerChange(customerId: string)
      modifies this
      ensures AddressDerived(formData)
      ensures formData == ChangeCustomer(old(formData), customerId)
      ensures WellFormed(formData) == WellFormed(old(formData))
    {
      var customer := Customers.Find(Customers.Table, customerId);
      formData := formData.(customer := customerId,
                            address := if customer.Some? then customer.value.address else "");
    }

    method HandleVariantChange(variantId: string, e: VariantField)
      modifies this
      ensures AddressDerived(old(formData)) ==> AddressDerived(formData)
      ensures formData == old(formData).(variants := UpdateVariants(old(formData.variants), variantId, e))
      ensures !e.IdField? && WellFormed(old(formData)) ==> WellFormed(formData)
    {
      formData := formData.(variants := UpdateVariants(formData.variants, variantId, e));
      VariantEditFrame(old(formData.variants), variantId, e);
    }

    method HandleSizeQuantityChange(variantId: string, size: string, quantity: int)
      modifies this
      ensures AddressDerived(old(formData)) ==> AddressDerived(formData)
      ensures formData == old(formData).(variants := SetVariantSize(old(formData.variants), variantId, size, quantity))
      ensures WellFormed(old(formData)) ==> WellFormed(formData)
    {
      formData := formData.(variants := SetVariantSize(formData.variants, variantId, size, quantity));
      SizeEditKeepsIds(old(formData.variants), variantId, size, quantity);
    }

    /** `addVariant`, with the clock-generated id passed in as `newId`. */
    method AddVariant(newId: string)
      modifies this
      ensures AddressDerived(old(formData)) ==> AddressDerived(formData)
      ensures formData == old(formData).(variants := old(formData.variants) + [NewVariant(newId)])
      ensures WellFormed(old(formData)) && (forall v :: v in old(formData.variants) ==> v.id != newId) ==>
                WellFormed(formData)
    {
      formData := formData.(variants := formData.variants + [NewVariant(newId)]);
      AddVariantKeepsTotals(old(formData.variants), newId);
    }

    /** `removeVariant`: the guard reads the current length before the update. */
    method RemoveVariant(variantId: string)
      modifies this
      ensures AddressDerived(old(formData)) ==> AddressDerived(formData)
      ensures formData == old(formData).(variants := Edits.RemoveVariant(old(formData.variants), variantId))
      ensures WellFormed(old(formData)) ==> WellFormed(formData)
    {
      if |formData.variants| > 1 {
        formData := formData.(variants := Folds.Filter(formData.variants, OtherVariant(variantId)));
      }
      if WellFormed(old(formData)) {
        RemoveVariantKeepsOne(old(formData.variants), variantId);
      }
    }

    method AddAddition(newId: string)
      modifies this
      ensures AddressDerived(old(formData)) ==> AddressDerived(formData)
      ensures formData == old(formData).(additions := old(formData.additions) + [NewLineItem(newId)])
      ensures WellFormed(old(formData)) && (forall a :: a in old(formData.additions) ==> a.id != newId) ==>
                WellFormed(formData)
    {
      formData := formData.(additions := formData.additions + [NewLineItem(newId)]);
      AddLineItemKeepsTotal(old(formData.additions), newId);
    }

    method RemoveAddition(id: string)
      modifies this
      ensures AddressDerived(old(formData)) ==> AddressDerived(formData)
      ensures formData == old(formData).(additions := RemoveLineItem(old(formData.additions), id))
      ensures WellFormed(old(formData)) ==> WellFormed(formData)
    {
      formData := formData.(additions := RemoveLineItem(formData.additions, id));
      if WellFormed(old(formData)) {
        RemoveLineItemKeepsIds(old(formData.additions), id);
      }
    }

    method AddDeduction(newId: string)
      modifies this
      ensures AddressDerived(old(formData)) ==> AddressDerived(formData)
      ensures formData == old(formData).(deductions := old(formData.deductions) + [NewLineItem(newId)])
      ensures WellFormed(old(formData)) && (forall d :: d in old(formData.deductions) ==> d.id != newId) ==>
                WellFormed(formData)
    {
      formData := formData.(deductions := formData.deductions + [NewLineItem(newId)]);
      AddLineItemKeepsTotal(old(formData.deductions), newId);
    }

    method RemoveDeduction(id: string)
      modifies this
      ensures AddressDerived(old(formData)) ==> AddressDerived(formData)
      ensures formData == old(formData).(deductions := RemoveLineItem(old(formData.deductions), id))
      ensures WellFormed(old(formData)) ==> WellFormed(formData)
    {
      formData := formData.(deductions := RemoveLineItem(formData.deductions, id));
      if WellFormed(old(formData)) {
        RemoveLineItemKeepsIds(old(formData.deductions), id);
      }
    }

    /** The inline category, description and price inputs of an addition. */
    method UpdateAddition(id: string, e: ItemField)
      modifies this
      ensures AddressDerived(old(formData)) ==> AddressDerived(formData)
      ensures formData == old(formData).(additions := UpdateLineItems(old(formData.additions), id, e))
      ensures WellFormed(old(formData)) ==> WellFormed(formData)
    {
      formData := formData.(additions := UpdateLineItems(formData.additions, id, e));
      if WellFormed(old(formData)) {
        ItemEditTotal(old(formData.additions), id, e);
      }
    }

    /** The inline category, description and price inputs of a deduction. */
    method UpdateDeduction(id: string, e: ItemField)
      modifies this
      ensures AddressDerived(old(formData)) ==> AddressDerived(formData)
      ensures formData == old(formData).(deductions := UpdateLineItems(old(formData.deductions), id, e))
      ensures WellFormed(old(formData)) ==> WellFormed(formData)
    {
      formData := formData.(deductions := UpdateLineItems(formData.deductions, id, e));
      if WellFormed(old(formData)) {
        ItemEditTotal(old(formData.deductions), id, e);
      }
    }

    /** The shipping input: shown with `shipping.category`, writes `shipping.price`. */
    method ShippingInputChange(price: int)
      modifies this
      ensures AddressDerived(old(formData)) ==> AddressDerived(formData)
      ensures formData == ShippingInput(old(formData), price)
    {
      formData := formData.(shipping := formData.shipping.(price := price));
    }

    /** The inline scalar inputs: order data, detail groups, payment and design note. */
    method SetField(e: FieldEdit)
      modifies this
      ensures AddressDerived(old(formData)) ==> AddressDerived(formData)
      ensures formData == ApplyField(old(formData), e)
    {
      formData := ApplyField(formData, e);
    }

    /** The priority button flips the flag. */
    method TogglePriority()
      modifies this
      ensures AddressDerived(old(formData)) ==> AddressDerived(formData)
      ensures formData == ApplyField(old(formData), PriorityToggle)
      ensures formData.priority == !old(formData.priority)
    {
      formData := ApplyField(formData, PriorityToggle);
    }

    method HandleFileUpload(file: FileHandle, slot: FileSlot)
      modifies this
      ensures AddressDerived(old(formData)) ==> AddressDerived(formData)
      ensures formData == AttachFile(old(formData), file, slot)
    {
      formData := AttachFile(formData, file, slot);
    }
  }
}

/** The single-state page and the section components each carry their own
    copy of the formulas and handlers. Started from the same record, the
    copies compute the same figures and leave the same record behind. */
module CopiesAgree {

  import opened OrderRecord
  import opened Totals
  import opened Edits
  import opened SharedForm
  import TestPage
  import TotalCalculationSection
  import PaymentSection
  import ProductVariantSection
  import SalesOrderForm
  import OrderDataSection

  /** Every copy of the quantity, bill and remaining-payment formulas gives
      the same value on the same record, and the shown product amount is the
      product term of that bill. */
  lemma TotalsAgree(t: TestPage.Test, c: FormCell)
    requires t.formData == c.formData
    ensures t.CalculateTotalQuantity() == TotalCalculationSection.CalculateTotalQuantity(c)
    ensures t.CalculateTotalAmount() == TotalCalculationSection.CalculateTotalAmount(c)
    ensures t.CalculateTotalAmount() == PaymentSection.CalculateTotalAmount(c)
    ensures t.RemainingPayment() == PaymentSection.RemainingPayment(c)
    ensures t.ShownProductAmount() == TotalCalculationSection.ShownProductAmount(c)
    ensures TotalCalculationSection.ShownProductAmount(c) + c.formData.shipping.price
              + ItemsTotal(c.formData.additions) - ItemsTotal(c.formData.deductions) == t.CalculateTotalAmount()
  {
  }

  /** A handler that exists both on the single-state page and in a section
      component, grouped by the section that carries the second copy. */
  datatype SharedEdit =
    | VariantEdit(ve: VariantAction)
    | TotalsEdit(te: TotalsAction)
    | PaymentEdit(pe: PaymentAction)

  /** The handlers shared with the product-variant section. */
  datatype VariantAction =
    | AddVariantEdit(newId: string)
    | RemoveVariantEdit(variantId: string)
    | VariantChange(variantId: string, e: VariantField)
    | SizeChange(variantId: string, size: string, quantity: int)

  /** The handlers shared with the total-calculation section. */
  datatype TotalsAction =
    | AddAdditionEdit(newId: string)
    | RemoveAdditionEdit(id: string)
    | AddDeductionEdit(newId: string)
    | RemoveDeductionEdit(id: string)
    | AdditionChange(id: string, ie: ItemField)
    | DeductionChange(id: string, ie: ItemField)
    | ShippingChange(price: int)

  /** The handlers shared with the payment section. */
  datatype PaymentAction =
    | FileUpload(file: FileHandle, slot: FileSlot)
    | WalletEdit(name: string)
    | PaymentAmountEdit(amount: int)
    | PaymentDateEdit(date: string)

  /** Runs a handler's page copy on `t` and its section copy on `c`: records
      that agreed before agree after, and no shared handler breaks the
      derived address. */
  method ApplyToBoth(t: TestPage.Test, c: FormCell, edit: SharedEdit)
    requires t.formData == c.formData
    modifies t, c
    ensures t.formData == c.formData
    ensures AddressDerived(old(c.formData)) ==> AddressDerived(c.formData)
  {
    match edit
    case VariantEdit(ve) => ApplyVariantAction(t, c, ve);
    case TotalsEdit(te) => ApplyTotalsAction(t, c, te);
    case PaymentEdit(pe) => ApplyPaymentAction(t, c, pe);
  }

  method ApplyVariantAction(t: TestPage.Test, c: FormCell, edit: VariantAction)
    requires t.formData == c.formData
    modifies t, c
    ensures t.formData == c.formData
    ensures AddressDerived(old(c.formData)) ==> AddressDerived(c.formData)
  {
    match edit
    case AddVariantEdit(newId) =>
      t.AddVariant(newId);
      ProductVariantSection.AddVariant(c, newId);
    case RemoveVariantEdit(variantId) =>
      t.RemoveVariant(variantId);
      ProductVariantSection.RemoveVariant(c, variantId);
    case VariantChange(variantId, e) =>
      t.HandleVariantChange(variantId, e);
      ProductVariantSection.HandleVariantChange(c, variantId, e);
    case SizeChange(variantId, size, quantity) =>
      t.HandleSizeQuantityChange(variantId, size, quantity);
      ProductVariantSection.HandleSizeQuantityChange(c, variantId, size, quantity);
  }

  method ApplyTotalsAction(t: TestPage.Test, c: FormCell, edit: TotalsAction)
    requires t.formData == c.formData
    modifies t, c
    ensures t.formData == c.formData
    ensures AddressDerived(old(c.formData)) ==> AddressDerived(c.formData)
  {
    match edit
    case AddAdditionEdit(newId) =>
      t.AddAddition(newId);
      TotalCalculationSection.AddAddition(c, newId);
    case RemoveAdditionEdit(id) =>
      t.RemoveAddition(id);
      TotalCalculationSection.RemoveAddition(c, id);
    case AddDeductionEdit(newId) =>
      t.AddDeduction(newId);
      TotalCalculationSection.AddDeduction(c, newId);
    case RemoveDeductionEdit(id) =>
      t.RemoveDeduction(id);
      TotalCalculationSection.RemoveDeduction(c, id);
    case AdditionChange(id, ie) =>
      t.UpdateAddition(id, ie);
      TotalCalculationSection.UpdateAddition(c, id, ie);
    case DeductionChange(id, ie) =>
      t.UpdateDeduction(id, ie);
      TotalCalculationSection.UpdateDeduction(c, id, ie);
    case ShippingChange(price) =>
      t.ShippingInputChange(price);
      TotalCalculationSection.ShippingInputChange(c, price);
  }

  method ApplyPaymentAction(t: TestPage.Test, c: FormCell, edit: PaymentAction)
    requires t.formData == c.formData
    modifies t, c
    ensures t.formData == c.formData
    ensures AddressDerived(old(c.formData)) ==> AddressDerived(c.formData)
  {
    match edit
    case FileUpload(file, slot) =>
      t.HandleFileUpload(file, slot);
      PaymentSection.HandleFileUpload(c, file, slot);
    case WalletEdit(name) =>
      t.SetField(WalletChoice(WalletName(name)));
      PaymentSection.SetWallet(c, name);
    case PaymentAmountEdit(amount) =>
      t.SetField(PaymentAmount(amount));
      PaymentSection.SetPaymentAmount(c, amount);
    case PaymentDateEdit(date) =>
      t.SetField(PaymentDate(date));
      PaymentSection.SetPaymentDate(c, date);
  }

  /** The customer handler of the single-state page and the one that writes
      through the form store: from equal records they leave equal records,
      whatever value the select passes. */
  method CustomerChangeAgrees(t: TestPage.Test, form: SalesOrderForm.FormMethods, value: string)
    requires t.formData == form.values
    modifies t, form
    ensures t.formData == form.values
    ensures t.formData == ChangeCustomer(old(t.formData), value)
  {
    t.HandleCustomerChange(value);
    OrderDataSection.HandleCustomerChange(form, value);
  }
}

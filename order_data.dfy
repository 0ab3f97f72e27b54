/** The order-data section of the form-context page: the customer select and
    the read-only address it fills in through the form store. */
module OrderDataSection {

  import opened OrderRecord
  import Customers
  import Edits
  import opened SalesOrderForm

  /** `handleCustomerChange`: a lookup, then two writes to the store --
      `customer` first, `address` second. */
  method HandleCustomerChange(form: FormMethods, customerId: string)
    modifies form
    ensures form.values == Edits.ChangeCustomer(old(form.values), customerId)
    ensures Edits.AddressDerived(form.values)
    ensures forall i :: 0 <= i < |Customers.Table| && Customers.Table[i].id == customerId ==>
              form.values.address == Customers.Table[i].address
    ensures (forall i :: 0 <= i < |Customers.Table| ==> Customers.Table[i].id != customerId) ==>
              form.values.address == ""
  {
    var customer := Customers.Find(Customers.Table, customerId);
    form.SetCustomer(customerId);
    form.SetAddress(if customer.Some? then customer.value.address else "");
    forall i | 0 <= i < |Customers.Table| && Customers.Table[i].id == customerId
      ensures form.values.address == Customers.Table[i].address
    {
      Customers.AddressForTableId(i);
    }
  }

  /** The value the i-th option of the customer select carries: the name. */
  function OptionValue(i: int): string
    requires 0 <= i < |Customers.Table|
  {
    Customers.Table[i].name
  }

  /** Choosing the i-th option: the controller stores the option value, then
      the handler runs with it. */
  method SelectCustomer(form: FormMethods, i: int)
    requires 0 <= i < |Customers.Table|
    modifies form
    ensures form.values == old(form.values).(customer := Customers.Table[i].name, address := "")
  {
    var value := OptionValue(i);
    form.SetCustomer(value);
    HandleCustomerChange(form, value);
    DropdownSelectionClearsAddress(i);
  }

  /** As written, no option value is a table id, so every selection from the
      select leaves the address empty. */
  lemma DropdownSelectionClearsAddress(i: int)
    requires 0 <= i < |Customers.Table|
    ensures forall j :: 0 <= j < |Customers.Table| ==> Customers.Table[j].id != OptionValue(i)
    ensures Customers.AddressFor(OptionValue(i)) == ""
  {
    Customers.AddressForUnknownId(OptionValue(i));
  }

  /** The option value the lookup expects: the customer id, as the
      single-state page's select carries. */
  function IdOptionValue(i: int): string
    requires 0 <= i < |Customers.Table|
  {
    Customers.Table[i].id
  }

  /** With id-valued options, choosing the i-th customer fills in exactly
      that customer's address. */
  lemma IdOptionFillsAddress(i: int)
    requires 0 <= i < |Customers.Table|
    ensures Customers.AddressFor(IdOptionValue(i)) == Customers.Table[i].address
  {
    Customers.AddressForTableId(i);
  }

  /** Choosing the i-th option of an id-valued select. */
  method SelectCustomerById(form: FormMethods, i: int)
    requires 0 <= i < |Customers.Table|
    modifies form
    ensures form.values == old(form.values).(customer := Customers.Table[i].id, address := Customers.Table[i].address)
  {
    var value := IdOptionValue(i);
    form.SetCustomer(value);
    HandleCustomerChange(form, value);
    IdOptionFillsAddress(i);
  }
}

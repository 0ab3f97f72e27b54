/** The form-context version of the page: a form store created from the
    default snapshot, and a submit handler that passes the values on and
    resets the store. */
module SalesOrderForm {

  import opened OrderRecord
  import Edits

  /** The store `useForm({ defaultValues })` returns: the current values, the
      `setValue` writes the order-data section uses, and `reset`. */
  class FormMethods {
    var values: FormData

    constructor()
      ensures values == DefaultValues
      ensures Edits.AddressDerived(values)
    {
      values := DefaultValues;
      Edits.DefaultAddressDerived();
    }

    /** `setValue("customer", v)` */
    method SetCustomer(v: string)
      modifies this
      ensures values == old(values).(customer := v)
    {
      values := values.(customer := v);
    }

    /** `setValue("address", v)` */
    method SetAddress(v: string)
      modifies this
      ensures values == old(values).(address := v)
    {
      values := values.(address := v);
    }

    /** `reset()`: back to the default snapshot, whatever was entered. */
    method Reset()
      modifies this
      ensures values == DefaultValues
      ensures Edits.AddressDerived(values)
    {
      values := DefaultValues;
      Edits.DefaultAddressDerived();
    }
  }

  /** `onSubmit`: the submitted record is the values as they stood; the form
      is then back at the default snapshot. */
  method OnSubmit(methods: FormMethods) returns (submitted: FormData)
    modifies methods
    ensures submitted == old(methods.values)
    ensures methods.values == DefaultValues
  {
    submitted := methods.values;
    methods.Reset();
  }

  /** Two submissions in a row leave the same snapshot both times, and the
      second hands on that snapshot. */
  method SubmitTwice(methods: FormMethods) returns (first: FormData, second: FormData)
    modifies methods
    ensures first == old(methods.values)
    ensures second == DefaultValues && methods.values == DefaultValues
  {
    first := OnSubmit(methods);
    var afterFirst := methods.values;
    second := OnSubmit(methods);
    assert afterFirst == methods.values;
  }
}

# Sales-order form: order record, totals and edits

This project models the order-record logic of a React sales-order form. The
form's markup is not part of the model. The model has two parts.

- **Totals.** These are the figures derived from the record:
  - total quantity: every quantity in every variant's size object, summed;
  - product amount: quantity × price, summed over the variants;
  - total bill: product amount + shipping price + additions − deductions;
  - remaining payment: the bill minus the amount paid.

  Each figure is written the way the form computes it, with nested
  `reduce` folds (`Folds.Reduce`). Each is then proved equal to a
  reference sum (`Folds.SumOf`).
- **Edits.** These are the handlers that replace the record with an
  edited copy:
  - append a variant, addition or deduction;
  - remove one by id with `filter` (variant removal is guarded by
    `length > 1`);
  - update one field, or one size key, of the items with a given id, with
    `map`;
  - look up the customer to fill in the address;
  - the default snapshot, and reset on submit.

  Each of these edits is written once as a pure function in `Edits`: the
  `filter` removals, the `map` field and size updates, the scalar field
  writes and the priority toggle (`Edits.ApplyField`), the shipping write,
  the file attachment and the customer change. The page's and the
  sections' handlers state their new record through these functions. The
  exception is the add handlers, which append the new element inline, as
  `+ [NewVariant(newId)]` or `+ [NewLineItem(newId)]`.

  The form store's `SalesOrderForm.FormMethods.SetCustomer` and `SetAddress`
  are the library's raw `setValue` writes. Each is stated as a one-field
  update of the store's values.

Modules and what they model:

- `TestPage.Test` is the single-state page. It is a class whose `formData`
  field is the `useState` cell.
- `ProductVariantSection`, `TotalCalculationSection` and `PaymentSection`
  are the section components. Their handlers take the shared
  `SharedForm.FormCell`, which stands for the `formData`/`setFormData`
  props.
- `SalesOrderForm.FormMethods` is the form store of the form-context page.
- `OrderDataSection` writes to that store with two successive `setValue`
  calls.
- `CopiesAgree` proves that every duplicated formula and handler agrees
  with its other copy on the same record. The pairs are:
  - the page and the section components: quantity, bill, remaining
    payment, and each shared handler;
  - the page and the order-data section: `handleCustomerChange`.

A variant's size object is an association list with unique keys, in
insertion order (`Sizes.SizeMap`). A JavaScript object keeps that order for
keys that are not array indices. The nine size labels the form offers are
such keys (`Sizes.LabelsKeepInsertionOrder`). Amounts and quantities are
unbounded integers.

Besides at least one variant and unique ids in each collection
(`OrderRecord.WellFormed`), the form keeps the address derived from the
customer (`Edits.AddressDerived`). Both address inputs are disabled
(src/pages/Test.tsx:328, src/features/OderData.tsx:86), and only the
customer handlers write the address. The default record satisfies it, the
customer change establishes it, and every other handler keeps it.

Both `handleCustomerChange` functions store their argument as `customer`
(src/pages/Test.tsx:195, src/features/OderData.tsx:34). The single-state
page's select passes the customer's id (src/pages/Test.tsx:317). The
form-context page's select passes the customer's name
(src/features/OderData.tsx:70); see "## Findings".

The record type declares `wallet` as a number, and the default snapshot
stores 0 (src/pages/SalesOrderForm.tsx:82, 139). The wallet select writes
the method name instead, and the single-state page starts from `''`
(src/pages/Test.tsx:161, 852; src/features/Payment.tsx:45). The wallet slot
is therefore `WalletCode(int) | WalletName(string)`.

## Model

| member | source | states |
|---|---|---|
| `OrderRecord.NewVariant` | src/pages/Test.tsx:221-227 | The appended variant carries the given id, empty names and price 0, and every size reads 0. |
| `OrderRecord.NewLineItem` | src/pages/Test.tsx:244-249 | The appended addition or deduction carries the given id, empty texts and price 0. |
| `Folds.Reduce` | src/pages/Test.tsx:172 | `reduce` with an initial value: the initial value on an empty array; otherwise the callback applied to the fold of all elements but the last, and to the last. |
| `Folds.ReduceIsSumOf` | src/pages/Test.tsx:170-174 | A `reduce` whose callback adds g(x) to the running total computes the initial value plus the sum of g. |
| `Folds.Filter` | src/pages/Test.tsx:238 | `filter` keeps exactly the elements that pass, and never lengthens the array. |
| `Folds.FilterCounts` | src/pages/Test.tsx:238 | Each element that passes occurs in the result exactly as often as in the input; one that fails does not occur. |
| `Folds.FilterConcat` | src/pages/Test.tsx:238 | `filter` goes element by element, in order: filtering a concatenation concatenates the filtered parts. |
| `Folds.MapEach` | src/pages/Test.tsx:203-205 | `map` keeps the length and applies the callback at every index. |
| `OrderRecord.DefaultSnapshot` | src/pages/SalesOrderForm.tsx:123-140 | The default record has one variant: id "1", empty names, price 0, no sizes. It has no additions or deductions. Shipping price, weight, wallet and payment amount are 0, no files are attached, and the record satisfies the form's invariants. |
| `Sizes.Lookup` | src/features/ProductVariant.tsx:126 | `sizes[k] \|\| 0`: a key with no entry reads 0; otherwise the result is the quantity stored under the key. |
| `Sizes.Values` | src/pages/Test.tsx:172 | `Object.values` lists the quantities in entry order, one per entry. |
| `Sizes.Set` | src/pages/Test.tsx:214 | `{ ...sizes, [k]: q }`: k reads q and every other key reads as before. A new key is appended at the end. An existing key is rewritten in its own slot, and every other entry keeps its position and quantity. |
| `Sizes.LabelsKeepInsertionOrder` | src/features/ProductVariant.tsx:11 | The nine size labels are distinct and none is an array index, so an object keyed by them lists its entries in insertion order. |
| `Sizes.SumAfterSet` | src/pages/Test.tsx:209-218 | Setting one size changes the sum of the quantities by the new quantity minus the old one. |
| `Totals.VariantQty` | src/pages/Test.tsx:172 | The inner fold over `Object.values(sizes)` equals the sum of the variant's quantities. |
| `Totals.CalculateTotalQuantity` | src/pages/Test.tsx:170-174 | The nested fold equals the sum over variants of the sum of their size quantities. |
| `Totals.ProductTotal` | src/pages/Test.tsx:177-180 | The product fold equals Σ (variant quantity × price). |
| `Totals.ItemsTotal` | src/pages/Test.tsx:182-183 | The additions or deductions fold equals the sum of their prices. |
| `Totals.CalculateTotalAmount` | src/pages/Test.tsx:176-186 | The bill is product amount + shipping price + Σ additions − Σ deductions, with no clamping. With empty addition and deduction lists it is the product amount plus shipping. |
| `Totals.RemainingPayment` | src/pages/Test.tsx:188 | Remaining = bill − paid. It is negative exactly on overpayment and positive exactly while money is due. |
| `Totals.EmptySizesContributeNothing` | src/pages/Test.tsx:170-174 | A variant with an empty size object adds 0 to the quantity and 0 to the amount, whatever its price. |
| `Totals.EmptyOrderScenario` | src/pages/Test.tsx:170-188 | One empty variant at price 0, no line items, zero shipping and nothing paid: quantity, bill and remaining are all 0. |
| `Totals.DefaultTotalsAreZero` | src/pages/SalesOrderForm.tsx:123-140 | On the default record, total quantity, bill and remaining payment are all 0. |
| `Totals.SingleVariantScenario` | src/pages/Test.tsx:176-188 | A worked record (sizes M:2 and L:3 at 100, shipping 50, +20, −10) gives quantity 5, product amount 500 and bill 560. Paying 400 leaves 160; paying 700 leaves −140. |
| `Customers.Find` | src/pages/Test.tsx:192 | `find` returns nothing exactly when no entry has the id. Otherwise it returns the first entry with that id. |
| `Customers.AddressFor` | src/pages/Test.tsx:196 | `customer ? customer.address : ''`: "" when no entry carries the id; otherwise the address of an entry carrying it. |
| `Customers.AddressForTableId` | src/features/OderData.tsx:24-28 | The table's ids are pairwise distinct, and each entry's id looks up that entry's own address. |
| `Customers.AddressForUnknownId` | src/features/OderData.tsx:35 | An id that no entry carries gives the empty address, with no error. |
| `Edits.RemoveVariant` | src/pages/Test.tsx:234-241 | With one variant or none, the list is unchanged. Otherwise exactly the variants whose id differs are kept, each as many times as it occurred, and the list never grows. |
| `Edits.RemoveVariantInOrder` | src/pages/Test.tsx:234-241 | Past the guard, removing from a concatenation filters each part and concatenates the results, so the survivors keep their order. |
| `Edits.RemoveVariantPresent` | src/features/ProductVariant.tsx:26-33 | With unique ids and the id present, removal yields the list without that one element, in order. The length drops by one and stays at least 1. Ids stay unique, and the quantity and amount drop by that variant's share. |
| `Edits.RemoveVariantAbsent` | src/features/ProductVariant.tsx:28-31 | An id no variant carries removes nothing. |
| `Edits.RemoveVariantKeepsOne` | src/pages/Test.tsx:234-241 | With unique ids, removal never empties the list and keeps the ids unique. |
| `Edits.RemoveVariantCollision` | src/pages/Test.tsx:222 | Two variants sharing a clock id are both removed, which leaves no variant. |
| `Edits.AddVariantKeepsTotals` | src/features/ProductVariant.tsx:12-24 | Appending the empty variant changes neither the quantity nor the amount. A fresh id keeps the ids unique. |
| `Edits.UpdateVariants` | src/features/ProductVariant.tsx:35-42 | The list keeps its length. Variants with another id are identical. Variants with the id get exactly the one field written. |
| `Edits.SetVariantSize` | src/features/ProductVariant.tsx:44-53 | The list keeps its length and other variants are identical. A matching variant keeps every field but its sizes; it reads the new quantity under the size, and every other size reads as before. |
| `Edits.SizeEditQuantity` | src/pages/Test.tsx:209-218 | With unique ids, a size edit changes the total quantity by the new quantity minus the old one. |
| `Edits.PriceEditAmount` | src/pages/Test.tsx:200-207 | With unique ids, a price edit changes the product amount by quantity × price difference. |
| `Edits.VariantEditFrame` | src/pages/Test.tsx:200-207 | A non-size edit keeps the quantity. A name edit keeps the amount as well. A non-id edit keeps the ids unique. |
| `Edits.SizeEditKeepsIds` | src/features/ProductVariant.tsx:47-51 | A size edit keeps the variant ids unique. |
| `Edits.RemoveLineItem` | src/features/TotalCalculation.tsx:30-35 | Exactly the items whose id differs are kept, each as many times as it occurred, with no minimum length. |
| `Edits.RemoveLineItemInOrder` | src/pages/Test.tsx:256-261 | Removing from a concatenation removes from each part and concatenates the results, so the survivors keep their order. |
| `Edits.RemoveLineItemPresent` | src/pages/Test.tsx:256-261 | With unique ids and the id present, removal yields the list without that item, in order. Ids stay unique and the sum drops by its price. |
| `Edits.RemoveLineItemAbsent` | src/features/TotalCalculation.tsx:50-55 | An id no item carries removes nothing. |
| `Edits.RemoveLineItemKeepsIds` | src/pages/Test.tsx:276-281 | Removal keeps the ids unique. |
| `Edits.RemoveLastLineItem` | src/pages/Test.tsx:256-261 | The only addition or deduction can be removed, leaving the list empty. |
| `Edits.AddLineItemKeepsTotal` | src/features/TotalCalculation.tsx:17-28 | Appending the empty item keeps the sum. A fresh id keeps the ids unique. |
| `Edits.UpdateLineItems` | src/features/TotalCalculation.tsx:129-158 | The list keeps its length. Items with another id are identical. Items with the id get exactly the one field written. |
| `Edits.ItemEditTotal` | src/features/TotalCalculation.tsx:191-220 | Ids stay unique. A text edit keeps the sum. A price edit changes the sum by the new price minus the old one. |
| `Edits.FieldEditFrame` | src/pages/Test.tsx:338-396 | A scalar input leaves the variants, line items and shipping alone, so the bill and the invariants are kept. Only the payment amount changes what remains, to bill − new amount. |
| `Edits.ShippingInput` | src/features/TotalCalculation.tsx:101-104 | `shipping.price` becomes the input. Category, weight and the rest of the record are unchanged, and the bill changes by the new price minus the old one. |
| `Edits.ApplyField` | src/pages/Test.tsx:338-407 | Each scalar input writes exactly its one field: order name, product, segment, dates, product note, a detail-group text, wallet, payment amount, payment date or design note. The priority button flips the flag. Customer, address, collections, shipping and files never change. |
| `Edits.DefaultAddressDerived` | src/pages/SalesOrderForm.tsx:95-96 | The default record's empty customer looks up the empty address, so its address is derived. |
| `Edits.AttachFile` | src/features/Payment.tsx:12-17 | Exactly the named slot receives the file. Every other field is unchanged. |
| `Edits.ChangeCustomer` | src/pages/Test.tsx:191-198 | `customer` takes the argument. `address` takes the matching entry's address, or "" when no id matches. Nothing else changes, and the result's address is derived. |
| `TestPage.Test.constructor` | src/pages/Test.tsx:118-167 | The page starts from the default record with an empty wallet name, and that record satisfies the invariants, including the derived address. |
| `TestPage.Test.CalculateTotalQuantity` | src/pages/Test.tsx:170-174 | The page's quantity is the reference sum over its record. |
| `TestPage.Test.CalculateTotalAmount` | src/pages/Test.tsx:176-186 | The page's bill is the reference bill of its record. |
| `TestPage.Test.RemainingPayment` | src/pages/Test.tsx:188 | Remaining = bill − paid, negative exactly on overpayment. |
| `TestPage.Test.HandleCustomerChange` | src/pages/Test.tsx:191-198 | The new record is the customer change of the old one. The other invariants are unaffected, and the address is derived afterwards. |
| `TestPage.Test.HandleVariantChange` | src/pages/Test.tsx:200-207 | The new record has the variant field update. A non-id edit keeps the invariants. The derived address is kept. |
| `TestPage.Test.HandleSizeQuantityChange` | src/pages/Test.tsx:209-218 | The new record has the size update, and the invariants are kept. The derived address is kept. |
| `TestPage.Test.AddVariant` | src/pages/Test.tsx:220-232 | The new record has one empty variant appended and nothing else changed. A fresh id keeps the invariants. The derived address is kept. |
| `TestPage.Test.RemoveVariant` | src/pages/Test.tsx:234-241 | The length guard, then the filter. The invariants are kept, so at least one variant is always left. The derived address is kept. |
| `TestPage.Test.AddAddition` | src/pages/Test.tsx:243-254 | One empty addition is appended and nothing else changes. A fresh id keeps the invariants. The derived address is kept. |
| `TestPage.Test.RemoveAddition` | src/pages/Test.tsx:256-261 | Additions with that id are filtered out, and the invariants are kept. The derived address is kept. |
| `TestPage.Test.AddDeduction` | src/pages/Test.tsx:263-274 | One empty deduction is appended and nothing else changes. A fresh id keeps the invariants. The derived address is kept. |
| `TestPage.Test.RemoveDeduction` | src/pages/Test.tsx:276-281 | Deductions with that id are filtered out, and the invariants are kept. The derived address is kept. |
| `TestPage.Test.UpdateAddition` | src/pages/Test.tsx:723-752 | The inline addition inputs apply the field update, and the invariants are kept. The derived address is kept. |
| `TestPage.Test.UpdateDeduction` | src/pages/Test.tsx:785-814 | The inline deduction inputs apply the field update, and the invariants are kept. The derived address is kept. |
| `TestPage.Test.ShippingInputChange` | src/pages/Test.tsx:690-698 | Only `shipping.price` is written. The derived address is kept. |
| `TestPage.Test.SetField` | src/pages/Test.tsx:338-946 | Each scalar input, detail-group text, wallet, payment and design-note input writes its one field, as `Edits.ApplyField` states. The derived address is kept. |
| `TestPage.Test.TogglePriority` | src/pages/Test.tsx:407 | The new record is the priority toggle of the old one: the flag flips and nothing else changes. The derived address is kept. |
| `TestPage.Test.HandleFileUpload` | src/pages/Test.tsx:283-288 | The named file slot is set and nothing else changes. The derived address is kept. |
| `ProductVariantSection.AddVariant` | src/features/ProductVariant.tsx:12-24 | One empty variant is appended and nothing else changes. A fresh id keeps the invariants. |
| `ProductVariantSection.RemoveVariant` | src/features/ProductVariant.tsx:26-33 | The length guard, then the filter. The invariants are kept. |
| `ProductVariantSection.HandleVariantChange` | src/features/ProductVariant.tsx:35-42 | The variant field update is applied. A non-id edit keeps the invariants. |
| `ProductVariantSection.HandleSizeQuantityChange` | src/features/ProductVariant.tsx:44-53 | The size update is applied, and the invariants are kept. |
| `ProductVariantSection.ShownQuantity` | src/features/ProductVariant.tsx:126 | A size with no entry shows 0; otherwise the input shows the stored quantity. |
| `TotalCalculationSection.CalculateTotalQuantity` | src/features/TotalCalculation.tsx:11-15 | The section's quantity is the reference nested sum. |
| `TotalCalculationSection.CalculateTotalAmount` | src/features/TotalCalculation.tsx:57-67 | The section's bill is the reference bill, unclamped. |
| `TestPage.Test.ShownProductAmount` | src/pages/Test.tsx:676-681 | The page's shown "Total Product Amount" is the product term of the bill. |
| `TotalCalculationSection.ShownProductAmount` | src/features/TotalCalculation.tsx:84-87 | The shown "Total Product Amount" is the product term of the bill. |
| `TotalCalculationSection.AddAddition` | src/features/TotalCalculation.tsx:17-28 | One empty addition is appended. A fresh id keeps the invariants. |
| `TotalCalculationSection.RemoveAddition` | src/features/TotalCalculation.tsx:30-35 | The filter is applied, and the invariants are kept. |
| `TotalCalculationSection.AddDeduction` | src/features/TotalCalculation.tsx:37-48 | One empty deduction is appended. A fresh id keeps the invariants. |
| `TotalCalculationSection.RemoveDeduction` | src/features/TotalCalculation.tsx:50-55 | The filter is applied, and the invariants are kept. |
| `TotalCalculationSection.UpdateAddition` | src/features/TotalCalculation.tsx:129-158 | The addition field update is applied, and the invariants are kept. |
| `TotalCalculationSection.UpdateDeduction` | src/features/TotalCalculation.tsx:191-220 | The deduction field update is applied, and the invariants are kept. |
| `TotalCalculationSection.ShippingInputChange` | src/features/TotalCalculation.tsx:96-105 | Only `shipping.price` is written. |
| `PaymentSection.CalculateTotalAmount` | src/features/Payment.tsx:19-29 | The section's bill is the same reference bill. |
| `PaymentSection.RemainingPayment` | src/features/Payment.tsx:31 | Remaining = bill − paid, negative exactly on overpayment. |
| `PaymentSection.HandleFileUpload` | src/features/Payment.tsx:12-17 | The named file slot is set and nothing else changes. |
| `PaymentSection.SetWallet` | src/features/Payment.tsx:45 | The new record is the wallet write of the old one: only the wallet changes, to the chosen name. |
| `PaymentSection.SetPaymentAmount` | src/features/Payment.tsx:60 | The new record is the amount write of the old one: only the amount changes, and what remains becomes bill − amount. |
| `PaymentSection.SetPaymentDate` | src/features/Payment.tsx:70 | The new record is the date write of the old one: only the payment date changes. |
| `SalesOrderForm.FormMethods.constructor` | src/pages/SalesOrderForm.tsx:93-146 | The store starts at the default snapshot, whose address is derived. |
| `SalesOrderForm.FormMethods.SetCustomer` | src/features/OderData.tsx:34 | `setValue("customer", v)` changes only `customer`. |
| `SalesOrderForm.FormMethods.SetAddress` | src/features/OderData.tsx:35 | `setValue("address", v)` changes only `address`. |
| `SalesOrderForm.FormMethods.Reset` | src/pages/SalesOrderForm.tsx:150 | The values return to the default snapshot, whose address is derived. |
| `SalesOrderForm.OnSubmit` | src/pages/SalesOrderForm.tsx:148-151 | The submitted record is the values as they stood, and the store is back at the default snapshot. |
| `SalesOrderForm.SubmitTwice` | src/pages/SalesOrderForm.tsx:148-151 | Consecutive submissions reset to the same snapshot, and the second submits that snapshot. |
| `OrderDataSection.HandleCustomerChange` | src/features/OderData.tsx:32-36 | The two writes leave the same customer change of the record that the single-state page makes. `customer` is set to the argument. `address` gets the matching entry's address, or "" when none matches. Nothing else changes, and the address is derived afterwards. |
| `OrderDataSection.SelectCustomer` | src/features/OderData.tsx:63-70 | Choosing an option stores the customer's name and leaves the address empty. |
| `OrderDataSection.DropdownSelectionClearsAddress` | src/features/OderData.tsx:70 | No option value equals a table id, so the lookup of any selection yields "". |
| `OrderDataSection.IdOptionFillsAddress` | src/pages/Test.tsx:317 | With id-valued options, choosing entry i fills in entry i's address. |
| `OrderDataSection.SelectCustomerById` | src/pages/Test.tsx:310-319 | Choosing option i of an id-valued select stores the id and that customer's address. |
| `CopiesAgree.TotalsAgree` | src/features/Payment.tsx:19-31 | On the same record, the page's, the total-calculation section's and the payment section's quantity, bill and remaining payment are equal. The page's and the section's shown product amounts are equal, and either plus the other terms is the page's bill. |
| `CopiesAgree.CustomerChangeAgrees` | src/features/OderData.tsx:32-36 | The single-state page's customer handler and the store-writing one leave equal records from equal records, for any value the select passes. |
| `CopiesAgree.ApplyToBoth` | src/features/TotalCalculation.tsx:17-55 | Each handler's page copy and section copy, run on equal records, leave equal records. No shared handler breaks the derived address. |
| `CopiesAgree.ApplyVariantAction` | src/features/ProductVariant.tsx:12-53 | The product-variant section's four handlers agree with the page's copies, and keep the derived address. |
| `CopiesAgree.ApplyTotalsAction` | src/features/TotalCalculation.tsx:17-55 | The total-calculation section's list and shipping handlers agree with the page's copies, and keep the derived address. |
| `CopiesAgree.ApplyPaymentAction` | src/features/Payment.tsx:12-70 | The payment section's file, wallet, amount and date handlers agree with the page's copies, and keep the derived address. |

## Left out

- Markup is not modelled: JSX, styling, icons and the `id-ID` currency formatting are presentation only.
- `Number(e.target.value)` coercion is not modelled. Neither is the NaN that non-numeric text produces, nor double-precision arithmetic. Prices, quantities and amounts are unbounded integers.
- `Date.now().toString()` ids come from the clock. Each add handler takes the new id as a parameter, and uniqueness is a hypothesis where a property needs it.
- `File` objects are opaque handles whose content is never read. src/features/DesignUpload.tsx is not part of this model.
- Library behaviour is not modelled: react-hook-form's `register`, `Controller` and `rules: required` validation, which gates `handleSubmit`, and `useCallback` memoisation. `SalesOrderForm.OnSubmit` therefore always submits.
- React's batching of state updates is not modelled; each handler is one sequential transition. Because of this, the variant-removal guard reads the same state that the filter rewrites. The stale-length window between two quick clicks is not captured.
- The form-context page renders the section components without the `formData`/`setFormData` props they expect (src/pages/SalesOrderForm.tsx:167-182). Each handler is modelled as written, on its own state cell, not through that broken composition.
- src/store/ResultOrderStore.ts, src/pages/ResultOrder.tsx, src/App.tsx and src/features/ProductDetail.tsx are not part of this model. They are a store wrapper, a display page, routing, and markup whose setters repeat the single-field pattern already modelled in `Edits.ApplyField`.
- The product, segment and wallet option lists, and `console.log` of the submitted data, are not modelled.
- The shipping input displays `shipping.category` while writing `shipping.price`. It is modelled as written.
- `Sizes.Set` accepts any key. For a key that is an array index, the model appends the key at the end; a JavaScript object would place it among its other index keys, in ascending order. Every array-index key is `Sizes.IndexLike`, and none of the labels is. The order only feeds sums, and the form writes only the nine labels.
- `Edits.UpdateVariants`: `value: any` is narrowed to the declared type of the field being written, so ill-typed writes are not modelled.

## Findings

| source | as written | input that shows it | evidently intended | confidence | as-written member | corrected member |
|---|---|---|---|---|---|---|
| src/features/OderData.tsx:70 | The customer select's options carry `customer.name`, but `handleCustomerChange` looks the value up by id (line 33), so the address is always set to "". | Choosing "PT ABC Corporation": the lookup of "PT ABC Corporation" matches no id, so the address becomes "". | Options carry `customer.id`, as on the single-state page (src/pages/Test.tsx:317), so the chosen customer's address is filled in. | not executed | `OrderDataSection.DropdownSelectionClearsAddress` | `OrderDataSection.IdOptionFillsAddress` |

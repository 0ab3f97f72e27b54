/** The edits the form's handlers make to the record, each written once as a
    pure update: the `filter` removals, the `map` field updates, and the
    single-field writes. The handlers in every component apply these to
    their state cell. */
module Edits {

  import opened Folds
  import opened Sizes
  import opened OrderRecord
  import opened Totals
  import Customers

  // ---------------------------------------------------------------------
  // Variants

  /** The `filter` callback `variant => variant.id !== variantId`. */
  function OtherVariant(id: string): Variant -> bool {
    (v: Variant) => v.id != id
  }

  /** `removeVariant`: when more than one variant exists, keep exactly the
      variants whose id differs; otherwise change nothing. */
  function RemoveVariant(vs: seq<Variant>, id: string): (r: seq<Variant>)
    ensures |vs| <= 1 ==> r == vs
    ensures |vs| > 1 ==> forall v :: v in r <==> v in vs && v.id != id
    ensures |vs| > 1 ==> forall v :: multiset(r)[v] == (if v.id != id then multiset(vs)[v] else 0)
    ensures |r| <= |vs|
  {
    if |vs| > 1 then
      FilterCounts(vs, OtherVariant(id));
      Filter(vs, OtherVariant(id))
    else vs
  }

  /** Past the guard, removal walks the list in order: removing from a
      concatenation filters each part in turn and concatenates the results,
      so the surviving variants keep their relative order. */
  lemma RemoveVariantInOrder(xs: seq<Variant>, ys: seq<Variant>, id: string)
    requires |xs| + |ys| > 1
    ensures RemoveVariant(xs + ys, id) == Filter(xs, OtherVariant(id)) + Filter(ys, OtherVariant(id))
  {
    FilterConcat(xs, ys, OtherVariant(id));
  }

  /** The field a variant edit writes: `keyof ProductVariant` with its value. */
  datatype VariantField =
    | IdField(id: string)
    | NameField(name: string)
    | SubVariantField(name: string)
    | PriceField(price: int)
    | SizesField(sizes: SizeMap)

  /** `{ ...variant, [field]: value }` */
  function ApplyVariantField(v: Variant, e: VariantField): Variant {
    match e
    case IdField(x) => v.(id := x)
    case NameField(x) => v.(variant := x)
    case SubVariantField(x) => v.(subVariant := x)
    case PriceField(x) => v.(price := x)
    case SizesField(x) => v.(sizes := x)
  }

  function VariantUpdater(id: string, e: VariantField): Variant -> Variant {
    (v: Variant) => if v.id == id then ApplyVariantField(v, e) else v
  }

  /** `handleVariantChange`: the variants whose id matches get the field, every
      other variant stays as it was, and the list keeps its length. */
  function UpdateVariants(vs: seq<Variant>, id: string, e: VariantField): (r: seq<Variant>)
    ensures |r| == |vs|
    ensures forall j :: 0 <= j < |vs| && vs[j].id != id ==> r[j] == vs[j]
    ensures forall j :: 0 <= j < |vs| && vs[j].id == id ==> r[j] == ApplyVariantField(vs[j], e)
  {
    MapEach(vs, VariantUpdater(id, e))
  }

  function SizeUpdater(id: string, size: string, qty: int): Variant -> Variant {
    (v: Variant) => if v.id == id then v.(sizes := Set(v.sizes, size, qty)) else v
  }

  /** `handleSizeQuantityChange`: the variants whose id matches read `qty`
      under `size` and keep every other size and every other field; every
      other variant stays as it was, and the list keeps its length. */
  function SetVariantSize(vs: seq<Variant>, id: string, size: string, qty: int): (r: seq<Variant>)
    ensures |r| == |vs|
    ensures forall j :: 0 <= j < |vs| && vs[j].id != id ==> r[j] == vs[j]
    ensures forall j :: 0 <= j < |vs| && vs[j].id == id ==>
              && r[j] == vs[j].(sizes := r[j].sizes)
              && Lookup(r[j].sizes, size) == qty
              && forall k :: k != size ==> Lookup(r[j].sizes, k) == Lookup(vs[j].sizes, k)
  {
    MapEach(vs, SizeUpdater(id, size, qty))
  }

  /** With unique ids and the id present, removal drops exactly that variant,
      keeps the others in order, leaves at least one, and takes its quantity
      and amount out of the totals. */
  lemma RemoveVariantPresent(vs: seq<Variant>, id: string, i: int)
    requires UniqueVariantIds(vs) && |vs| > 1
    requires 0 <= i < |vs| && vs[i].id == id
    ensures RemoveVariant(vs, id) == vs[..i] + vs[i + 1..]
    ensures |RemoveVariant(vs, id)| == |vs| - 1 >= 1
    ensures UniqueVariantIds(RemoveVariant(vs, id))
    ensures QuantitySpec(RemoveVariant(vs, id)) == QuantitySpec(vs) - SizeTotal(vs[i])
    ensures ProductAmountSpec(RemoveVariant(vs, id)) == ProductAmountSpec(vs) - VariantAmount(vs[i])
  {
    FilterDropsOne(vs, OtherVariant(id), i);
    SumOfDropOne(vs, SizeTotal, i);
    SumOfDropOne(vs, VariantAmount, i);
    DropOneKeepsVariantIds(vs, i);
  }

  lemma DropOneKeepsVariantIds(vs: seq<Variant>, i: int)
    requires UniqueVariantIds(vs) && 0 <= i < |vs|
    ensures UniqueVariantIds(vs[..i] + vs[i + 1..])
  {
    var r := vs[..i] + vs[i + 1..];
    forall a, b | 0 <= a < b < |r| ensures r[a].id != r[b].id {
      var a' := if a < i then a else a + 1;
      var b' := if b < i then b else b + 1;
      assert r[a] == vs[a'] && r[b] == vs[b'];
    }
  }

  /** An id that no variant carries removes nothing. */
  lemma RemoveVariantAbsent(vs: seq<Variant>, id: string)
    requires forall j :: 0 <= j < |vs| ==> vs[j].id != id
    ensures RemoveVariant(vs, id) == vs
  {
    if |vs| > 1 {
      FilterKeepsAll(vs, OtherVariant(id));
    }
  }

  /** The guard keeps the last variant: with unique ids, removal never leaves
      the list empty and keeps the ids unique. */
  lemma RemoveVariantKeepsOne(vs: seq<Variant>, id: string)
    requires |vs| >= 1 && UniqueVariantIds(vs)
    ensures |RemoveVariant(vs, id)| >= 1
    ensures UniqueVariantIds(RemoveVariant(vs, id))
  {
    if |vs| > 1 {
      if i :| 0 <= i < |vs| && vs[i].id == id {
        RemoveVariantPresent(vs, id, i);
      } else {
        RemoveVariantAbsent(vs, id);
      }
    }
  }

  /** Without unique ids the guard is not enough: two variants that share an
      id (two clicks in the same millisecond) are both removed, leaving none. */
  lemma RemoveVariantCollision(t: string)
    ensures RemoveVariant([NewVariant(t), NewVariant(t)], t) == []
  {
    var vs := [NewVariant(t), NewVariant(t)];
    var keep := OtherVariant(t);
    assert !keep(vs[0]) && !keep(vs[1]);
    assert vs[1..][1..] == [];
    assert Filter(vs[1..], keep) == Filter(vs[1..][1..], keep) == [];
  }

  /** Appending a fresh empty variant changes neither total, and keeps ids unique. */
  lemma AddVariantKeepsTotals(vs: seq<Variant>, id: string)
    ensures QuantitySpec(vs + [NewVariant(id)]) == QuantitySpec(vs)
    ensures ProductAmountSpec(vs + [NewVariant(id)]) == ProductAmountSpec(vs)
    ensures UniqueVariantIds(vs) && (forall j :: 0 <= j < |vs| ==> vs[j].id != id) ==>
              UniqueVariantIds(vs + [NewVariant(id)])
  {
    SumOfConcat(vs, [NewVariant(id)], SizeTotal);
    SumOfConcat(vs, [NewVariant(id)], VariantAmount);
  }

  /** A size edit of the one variant with that id changes the total quantity
      by the new quantity minus the one the size read before. */
  lemma SizeEditQuantity(vs: seq<Variant>, id: string, size: string, qty: int, i: int)
    requires UniqueVariantIds(vs)
    requires 0 <= i < |vs| && vs[i].id == id
    ensures QuantitySpec(SetVariantSize(vs, id, size, qty)) == QuantitySpec(vs) - Lookup(vs[i].sizes, size) + qty
  {
    var r := SetVariantSize(vs, id, size, qty);
    SumOfUpdateOne(vs, r, SizeTotal, i);
    assert r[i].sizes == Set(vs[i].sizes, size, qty);
    SumAfterSet(vs[i].sizes, size, qty);
  }

  /** A price edit of the one variant with that id changes the product amount
      by that variant's quantity times the price difference. */
  lemma PriceEditAmount(vs: seq<Variant>, id: string, price: int, i: int)
    requires UniqueVariantIds(vs)
    requires 0 <= i < |vs| && vs[i].id == id
    ensures ProductAmountSpec(UpdateVariants(vs, id, PriceField(price))) ==
              ProductAmountSpec(vs) + SizeTotal(vs[i]) * (price - vs[i].price)
  {
    var r := UpdateVariants(vs, id, PriceField(price));
    SumOfUpdateOne(vs, r, VariantAmount, i);
    assert VariantAmount(r[i]) - VariantAmount(vs[i]) == SizeTotal(vs[i]) * (price - vs[i].price);
  }

  /** Edits other than to the sizes leave the total quantity unchanged; edits
      other than to the id keep ids unique. */
  lemma VariantEditFrame(vs: seq<Variant>, id: string, e: VariantField)
    ensures !e.SizesField? ==> QuantitySpec(UpdateVariants(vs, id, e)) == QuantitySpec(vs)
    ensures !e.SizesField? && !e.PriceField? ==> ProductAmountSpec(UpdateVariants(vs, id, e)) == ProductAmountSpec(vs)
    ensures !e.IdField? && UniqueVariantIds(vs) ==> UniqueVariantIds(UpdateVariants(vs, id, e))
  {
    var r := UpdateVariants(vs, id, e);
    if !e.SizesField? {
      SumOfPointwise(vs, r, SizeTotal);
      if !e.PriceField? {
        SumOfPointwise(vs, r, VariantAmount);
      }
    }
  }

  lemma SizeEditKeepsIds(vs: seq<Variant>, id: string, size: string, qty: int)
    ensures UniqueVariantIds(vs) ==> UniqueVariantIds(SetVariantSize(vs, id, size, qty))
  {
  }

  // ---------------------------------------------------------------------
  // Additions and deductions

  /** The `filter` callback `item => item.id !== id`. */
  function OtherItem(id: string): LineItem -> bool {
    (item: LineItem) => item.id != id
  }

  /** `removeAddition` / `removeDeduction`: keep exactly the items whose id
      differs, with no minimum length. */
  function RemoveLineItem(items: seq<LineItem>, id: string): (r: seq<LineItem>)
    ensures forall item :: item in r <==> item in items && item.id != id
    ensures forall item :: multiset(r)[item] == (if item.id != id then multiset(items)[item] else 0)
    ensures |r| <= |items|
  {
    FilterCounts(items, OtherItem(id));
    Filter(items, OtherItem(id))
  }

  /** Removal walks the list in order: removing from a concatenation removes
      from each part and concatenates the results, so the surviving items
      keep their relative order. */
  lemma RemoveLineItemInOrder(xs: seq<LineItem>, ys: seq<LineItem>, id: string)
    ensures RemoveLineItem(xs + ys, id) == RemoveLineItem(xs, id) + RemoveLineItem(ys, id)
  {
    FilterConcat(xs, ys, OtherItem(id));
  }

  /** The field a line-item input writes. */
  datatype ItemField =
    | CategoryField(text: string)
    | DescriptionField(text: string)
    | ItemPriceField(price: int)

  function ApplyItemField(item: LineItem, e: ItemField): LineItem {
    match e
    case CategoryField(x) => item.(category := x)
    case DescriptionField(x) => item.(description := x)
    case ItemPriceField(x) => item.(price := x)
  }

  function ItemUpdater(id: string, e: ItemField): LineItem -> LineItem {
    (item: LineItem) => if item.id == id then ApplyItemField(item, e) else item
  }

  /** The inline line-item updaters: the items whose id matches get the
      field, every other item stays as it was, and the list keeps its length. */
  function UpdateLineItems(items: seq<LineItem>, id: string, e: ItemField): (r: seq<LineItem>)
    ensures |r| == |items|
    ensures forall j :: 0 <= j < |items| && items[j].id != id ==> r[j] == items[j]
    ensures forall j :: 0 <= j < |items| && items[j].id == id ==> r[j] == ApplyItemField(items[j], e)
  {
    MapEach(items, ItemUpdater(id, e))
  }

  /** With unique ids and the id present, removal drops exactly that item,
      keeps the rest in order and takes its price out of the sum. */
  lemma RemoveLineItemPresent(items: seq<LineItem>, id: string, i: int)
    requires UniqueItemIds(items)
    requires 0 <= i < |items| && items[i].id == id
    ensures RemoveLineItem(items, id) == items[..i] + items[i + 1..]
    ensures UniqueItemIds(RemoveLineItem(items, id))
    ensures ItemsSpec(RemoveLineItem(items, id)) == ItemsSpec(items) - items[i].price
  {
    FilterDropsOne(items, OtherItem(id), i);
    SumOfDropOne(items, PriceOf, i);
    DropOneKeepsItemIds(items, i);
  }

  lemma DropOneKeepsItemIds(items: seq<LineItem>, i: int)
    requires UniqueItemIds(items) && 0 <= i < |items|
    ensures UniqueItemIds(items[..i] + items[i + 1..])
  {
    var r := items[..i] + items[i + 1..];
    forall a, b | 0 <= a < b < |r| ensures r[a].id != r[b].id {
      var a' := if a < i then a else a + 1;
      var b' := if b < i then b else b + 1;
      assert r[a] == items[a'] && r[b] == items[b'];
    }
  }

  lemma RemoveLineItemAbsent(items: seq<LineItem>, id: string)
    requires forall j :: 0 <= j < |items| ==> items[j].id != id
    ensures RemoveLineItem(items, id) == items
  {
    FilterKeepsAll(items, OtherItem(id));
  }

  /** Removal keeps ids unique, whether or not the id is present. */
  lemma RemoveLineItemKeepsIds(items: seq<LineItem>, id: string)
    requires UniqueItemIds(items)
    ensures UniqueItemIds(RemoveLineItem(items, id))
  {
    if i :| 0 <= i < |items| && items[i].id == id {
      RemoveLineItemPresent(items, id, i);
    } else {
      RemoveLineItemAbsent(items, id);
    }
  }

  /** Unlike variants, the last addition or deduction can be removed. */
  lemma RemoveLastLineItem(t: string)
    ensures RemoveLineItem([NewLineItem(t)], t) == []
  {
  }

  /** Appending a fresh empty item leaves the sum unchanged and keeps ids unique. */
  lemma AddLineItemKeepsTotal(items: seq<LineItem>, id: string)
    ensures ItemsSpec(items + [NewLineItem(id)]) == ItemsSpec(items)
    ensures UniqueItemIds(items) && (forall j :: 0 <= j < |items| ==> items[j].id != id) ==>
              UniqueItemIds(items + [NewLineItem(id)])
  {
    SumOfConcat(items, [NewLineItem(id)], PriceOf);
  }

  /** A price edit of the one item with that id changes the sum by the price
      difference; text edits change neither the sum nor the ids. */
  lemma ItemEditTotal(items: seq<LineItem>, id: string, e: ItemField)
    requires UniqueItemIds(items)
    ensures UniqueItemIds(UpdateLineItems(items, id, e))
    ensures !e.ItemPriceField? ==> ItemsSpec(UpdateLineItems(items, id, e)) == ItemsSpec(items)
    ensures e.ItemPriceField? ==> forall i :: 0 <= i < |items| && items[i].id == id ==>
              ItemsSpec(UpdateLineItems(items, id, e)) == ItemsSpec(items) - items[i].price + e.price
  {
    var r := UpdateLineItems(items, id, e);
    if !e.ItemPriceField? {
      SumOfPointwise(items, r, PriceOf);
    } else {
      forall i | 0 <= i < |items| && items[i].id == id
        ensures ItemsSpec(r) == ItemsSpec(items) - items[i].price + e.price
      {
        SumOfUpdateOne(items, r, PriceOf, i);
      }
    }
  }

  // ---------------------------------------------------------------------
  // Whole-record edits

  /** A detail group and one of its four text fields. */
  datatype DetailGroup = MaterialGroup | PrintingGroup | EmbroideryGroup
  datatype DetailField = CategoryText | MaterialText | ColorText | ExpandableText

  function SetDetailField(d: Detail, field: DetailField, s: string): Detail {
    match field
    case CategoryText => d.(category := s)
    case MaterialText => d.(material := s)
    case ColorText => d.(inputColor := s)
    case ExpandableText => d.(expandableInput := s)
  }

  /** One scalar input of the form and the value it writes. */
  datatype FieldEdit =
    | OrderName(text: string)
    | ProductName(text: string)
    | Segment(text: string)
    | OrderDate(text: string)
    | DuePayment(text: string)
    | SpkDate(text: string)
    | ProductNote(text: string)
    | DetailText(group: DetailGroup, field: DetailField, text: string)
    | WalletChoice(wallet: Wallet)
    | PaymentAmount(amount: int)
    | PaymentDate(text: string)
    | DesignNote(text: string)
    | PriorityToggle

  /** `setFormData(prev => ({ ...prev, <field>: value }))` for one scalar
      input, and the priority button's `priority: !prev.priority`. The one
      field the edit names takes the new value; the customer, the address,
      the collections, the shipping and the files never change. */
  function ApplyField(f: FormData, e: FieldEdit): (r: FormData)
    ensures r.customer == f.customer && r.address == f.address
    ensures r.variants == f.variants && r.additions == f.additions && r.deductions == f.deductions
    ensures r.shipping == f.shipping && r.attachment == f.attachment && r.designFile == f.designFile
    ensures r.orderName == (if e.OrderName? then e.text else f.orderName)
    ensures r.product == (if e.ProductName? then e.text else f.product)
    ensures r.segment == (if e.Segment? then e.text else f.segment)
    ensures r.date == (if e.OrderDate? then e.text else f.date)
    ensures r.duePayment == (if e.DuePayment? then e.text else f.duePayment)
    ensures r.spkDate == (if e.SpkDate? then e.text else f.spkDate)
    ensures r.priority == (if e.PriorityToggle? then !f.priority else f.priority)
    ensures r.productNote == (if e.ProductNote? then e.text else f.productNote)
    ensures r.materialDetail == (if e.DetailText? && e.group == MaterialGroup
                                 then SetDetailField(f.materialDetail, e.field, e.text) else f.materialDetail)
    ensures r.printingDetail == (if e.DetailText? && e.group == PrintingGroup
                                 then SetDetailField(f.printingDetail, e.field, e.text) else f.printingDetail)
    ensures r.embroideryDetail == (if e.DetailText? && e.group == EmbroideryGroup
                                   then SetDetailField(f.embroideryDetail, e.field, e.text) else f.embroideryDetail)
    ensures r.wallet == (if e.WalletChoice? then e.wallet else f.wallet)
    ensures r.paymentAmount == (if e.PaymentAmount? then e.amount else f.paymentAmount)
    ensures r.paymentDate == (if e.PaymentDate? then e.text else f.paymentDate)
    ensures r.designNote == (if e.DesignNote? then e.text else f.designNote)
  {
    match e
    case OrderName(s) => f.(orderName := s)
    case ProductName(s) => f.(product := s)
    case Segment(s) => f.(segment := s)
    case OrderDate(s) => f.(date := s)
    case DuePayment(s) => f.(duePayment := s)
    case SpkDate(s) => f.(spkDate := s)
    case ProductNote(s) => f.(productNote := s)
    case DetailText(MaterialGroup, d, s) => f.(materialDetail := SetDetailField(f.materialDetail, d, s))
    case DetailText(PrintingGroup, d, s) => f.(printingDetail := SetDetailField(f.printingDetail, d, s))
    case DetailText(EmbroideryGroup, d, s) => f.(embroideryDetail := SetDetailField(f.embroideryDetail, d, s))
    case WalletChoice(w) => f.(wallet := w)
    case PaymentAmount(p) => f.(paymentAmount := p)
    case PaymentDate(s) => f.(paymentDate := s)
    case DesignNote(s) => f.(designNote := s)
    case PriorityToggle => f.(priority := !f.priority)
  }

  /** No scalar input touches the collections or the shipping, so none
      changes a total or the invariants; only the payment amount changes
      what remains to pay, to the bill minus the new amount. */
  lemma FieldEditFrame(f: FormData, e: FieldEdit)
    ensures ApplyField(f, e).variants == f.variants
    ensures ApplyField(f, e).additions == f.additions && ApplyField(f, e).deductions == f.deductions
    ensures ApplyField(f, e).shipping == f.shipping
    ensures CalculateTotalAmount(ApplyField(f, e)) == CalculateTotalAmount(f)
    ensures WellFormed(ApplyField(f, e)) == WellFormed(f)
    ensures e.PaymentAmount? ==> RemainingPayment(ApplyField(f, e)) == CalculateTotalAmount(f) - e.amount
    ensures !e.PaymentAmount? ==> RemainingPayment(ApplyField(f, e)) == RemainingPayment(f)
  {
  }

  /** The shipping input: writes `shipping.price` and leaves `category` and
      `weight` as they were. */
  function ShippingInput(f: FormData, price: int): (r: FormData)
    ensures r.shipping.price == price
    ensures r.shipping.category == f.shipping.category && r.shipping.weight == f.shipping.weight
    ensures r.(shipping := f.shipping) == f
    ensures CalculateTotalAmount(r) == CalculateTotalAmount(f) - f.shipping.price + price
  {
    f.(shipping := f.shipping.(price := price))
  }

  /** The slot `handleFileUpload` writes. */
  datatype FileSlot = AttachmentSlot | DesignFileSlot

  /** `{ ...prev, [type]: file }` */
  function AttachFile(f: FormData, file: FileHandle, slot: FileSlot): (r: FormData)
    ensures slot == AttachmentSlot ==> r == f.(attachment := Some(file))
    ensures slot == DesignFileSlot ==> r == f.(designFile := Some(file))
  {
    match slot
    case AttachmentSlot => f.(attachment := Some(file))
    case DesignFileSlot => f.(designFile := Some(file))
  }

  /** The address is derived from the customer: it is what the lookup of the
      stored customer gives. Both address inputs are disabled, so only the
      customer handler writes it. */
  predicate AddressDerived(f: FormData) {
    f.address == Customers.AddressFor(f.customer)
  }

  /** The default snapshot starts with a derived address: no customer, no
      address. */
  lemma DefaultAddressDerived()
    ensures AddressDerived(DefaultValues)
  {
    Customers.AddressForUnknownId("");
  }

  /** `handleCustomerChange` in the single-state form: `customer` takes the
      argument and `address` the looked-up address, or "" when none matches. */
  function ChangeCustomer(f: FormData, customerId: string): (r: FormData)
    ensures r.customer == customerId
    ensures forall i :: 0 <= i < |Customers.Table| && Customers.Table[i].id == customerId ==>
              r.address == Customers.Table[i].address
    ensures (forall i :: 0 <= i < |Customers.Table| ==> Customers.Table[i].id != customerId) ==> r.address == ""
    ensures r.(customer := f.customer, address := f.address) == f
    ensures AddressDerived(r)
  {
    forall i | 0 <= i < |Customers.Table| && Customers.Table[i].id == customerId {
      Customers.AddressForTableId(i);
    }
    f.(customer := customerId, address := Customers.AddressFor(customerId))
  }
}

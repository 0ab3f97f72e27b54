/** The derived figures of an order record. Each figure is written the way the
    form computes it -- nested `reduce` calls -- and is proved equal to a
    reference sum over the record. */
module Totals {

  import opened Folds
  import opened Sizes
  import opened OrderRecord

  // ---------------------------------------------------------------------
  // Reference definitions

  /** The sum of every quantity in a variant's size object. */
  function SizeTotal(v: Variant): int {
    SumOf(v.sizes, QtyOf)
  }

  /** A variant's amount: its total quantity times its unit price. */
  function VariantAmount(v: Variant): int {
    SizeTotal(v) * v.price
  }

  function PriceOf(item: LineItem): int {
    item.price
  }

  /** Total quantity: the sum over variants of the sum of their size values. */
  function QuantitySpec(vs: seq<Variant>): int {
    SumOf(vs, SizeTotal)
  }

  /** Product amount: the sum over variants of quantity times price. */
  function ProductAmountSpec(vs: seq<Variant>): int {
    SumOf(vs, VariantAmount)
  }

  function ItemsSpec(items: seq<LineItem>): int {
    SumOf(items, PriceOf)
  }

  /** Total bill: product amount plus shipping price plus additions minus
      deductions, unclamped. */
  function TotalBillSpec(f: FormData): int {
    ProductAmountSpec(f.variants) + f.shipping.price + ItemsSpec(f.additions) - ItemsSpec(f.deductions)
  }

  // ---------------------------------------------------------------------
  // The folds as the form writes them

  /** `Object.values(variant.sizes).reduce((sum, qty) => sum + qty, 0)` */
  function VariantQty(v: Variant): (r: int)
    ensures r == SizeTotal(v)
  {
    var add := (sum: int, qty: int) => sum + qty;
    var id := (qty: int) => qty;
    ReduceIsSumOf(Values(v.sizes), add, id, 0);
    ValuesSumOf(v.sizes, id);
    Reduce(Values(v.sizes), add, 0)
  }

  /** `calculateTotalQuantity`: the variants folded with their size sums. */
  function CalculateTotalQuantity(vs: seq<Variant>): (r: int)
    ensures r == QuantitySpec(vs)
  {
    var step := (total: int, v: Variant) => total + VariantQty(v);
    ReduceIsSumOf(vs, step, SizeTotal, 0);
    Reduce(vs, step, 0)
  }

  /** `productTotal`: the variants folded with quantity times price. */
  function ProductTotal(vs: seq<Variant>): (r: int)
    ensures r == ProductAmountSpec(vs)
  {
    var step := (total: int, v: Variant) => total + VariantQty(v) * v.price;
    ReduceIsSumOf(vs, step, VariantAmount, 0);
    Reduce(vs, step, 0)
  }

  /** `additionsTotal` / `deductionsTotal`: the prices folded. */
  function ItemsTotal(items: seq<LineItem>): (r: int)
    ensures r == ItemsSpec(items)
  {
    var step := (sum: int, item: LineItem) => sum + item.price;
    ReduceIsSumOf(items, step, PriceOf, 0);
    Reduce(items, step, 0)
  }

  /** `calculateTotalAmount`, the total bill. Not clamped: deductions larger
      than everything else make it negative. */
  function CalculateTotalAmount(f: FormData): (r: int)
    ensures r == TotalBillSpec(f)
    ensures f.additions == [] && f.deductions == [] ==> r == ProductAmountSpec(f.variants) + f.shipping.price
  {
    ProductTotal(f.variants) + f.shipping.price + ItemsTotal(f.additions) - ItemsTotal(f.deductions)
  }

  /** `remainingPayment`: negative on overpayment, positive while money is due,
      zero when paid exactly. */
  function RemainingPayment(f: FormData): (r: int)
    ensures r == TotalBillSpec(f) - f.paymentAmount
    ensures r < 0 <==> f.paymentAmount > TotalBillSpec(f)
    ensures r > 0 <==> f.paymentAmount < TotalBillSpec(f)
  {
    CalculateTotalAmount(f) - f.paymentAmount
  }

  // ---------------------------------------------------------------------
  // Properties

  /** A variant with an empty size object contributes nothing, whatever its price. */
  lemma EmptySizesContributeNothing(v: Variant)
    requires v.sizes == []
    ensures VariantQty(v) == 0 && VariantAmount(v) == 0
  {
  }

  /** The empty order -- one variant with no sizes and price 0, no additions or
      deductions, shipping price 0, nothing paid -- totals to zero quantity, a
      zero bill and nothing remaining to pay. */
  lemma EmptyOrderScenario(f: FormData)
    requires |f.variants| == 1 && f.variants[0].sizes == [] && f.variants[0].price == 0
    requires f.additions == [] && f.deductions == []
    requires f.shipping.price == 0 && f.paymentAmount == 0
    ensures CalculateTotalQuantity(f.variants) == 0
    ensures CalculateTotalAmount(f) == 0
    ensures RemainingPayment(f) == 0
  {
    var vs := f.variants;
    assert vs[1..] == [];
    assert QuantitySpec(vs) == SizeTotal(vs[0]) + QuantitySpec(vs[1..]);
    assert ProductAmountSpec(vs) == VariantAmount(vs[0]) + ProductAmountSpec(vs[1..]);
  }

  lemma DefaultTotalsAreZero()
    ensures CalculateTotalQuantity(DefaultValues.variants) == 0
    ensures CalculateTotalAmount(DefaultValues) == 0
    ensures RemainingPayment(DefaultValues) == 0
  {
    DefaultSnapshot();
    EmptyOrderScenario(DefaultValues);
  }

  /** One variant priced 100 with sizes M:2 and L:3, shipping 50, one addition
      of 20, one deduction of 10 and 400 paid: quantity 5, product amount
      500, bill 560, 160 remaining; paying 700 instead leaves -140. */
  lemma SingleVariantScenario(f: FormData)
    requires f.variants == [Variant("1", "", "", 100, [SizeEntry("M", 2), SizeEntry("L", 3)])]
    requires f.shipping.price == 50
    requires f.additions == [LineItem("a", "", "", 20)]
    requires f.deductions == [LineItem("d", "", "", 10)]
    ensures CalculateTotalQuantity(f.variants) == 5
    ensures ProductTotal(f.variants) == 500
    ensures CalculateTotalAmount(f) == 560
    ensures f.paymentAmount == 400 ==> RemainingPayment(f) == 160
    ensures f.paymentAmount == 700 ==> RemainingPayment(f) == -140
  {
    var v := f.variants[0];
    assert SizeTotal(v) == 2 + SumOf(v.sizes[1..], QtyOf);
    assert SumOf(v.sizes[1..], QtyOf) == 3 + SumOf(v.sizes[2..], QtyOf);
    assert QuantitySpec(f.variants) == SizeTotal(v) + QuantitySpec(f.variants[1..]);
    assert ProductAmountSpec(f.variants) == VariantAmount(v) + ProductAmountSpec(f.variants[1..]);
    assert ItemsSpec(f.additions) == 20 + ItemsSpec(f.additions[1..]);
    assert ItemsSpec(f.deductions) == 10 + ItemsSpec(f.deductions[1..]);
  }
}

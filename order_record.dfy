/** The sales-order record: the FormData, ProductVariant, Addition and
    Deduction shapes, and the snapshot the form starts from. */
module OrderRecord {

  import opened Sizes

  datatype Option<T> = None | Some(value: T)

  /** One product configuration with its per-size quantities. */
  datatype Variant = Variant(id: string, variant: string, subVariant: string, price: int, sizes: SizeMap)

  /** An addition or a deduction; both collections hold the same shape. */
  datatype LineItem = LineItem(id: string, category: string, description: string, price: int)

  datatype Detail = Detail(category: string, material: string, inputColor: string, expandableInput: string)

  datatype Shipping = Shipping(category: string, weight: int, price: int)

  /** The wallet slot holds the number the record type declares (and the
      default snapshot stores), or the method name the wallet select writes. */
  datatype Wallet = WalletCode(code: int) | WalletName(name: string)

  /** An uploaded file is an opaque handle; its content is never inspected. */
  datatype FileHandle = FileHandle(token: nat)

  datatype FormData = FormData(
    customer: string,
    address: string,
    orderName: string,
    product: string,
    segment: string,
    date: string,
    duePayment: string,
    spkDate: string,
    priority: bool,
    materialDetail: Detail,
    productNote: string,
    printingDetail: Detail,
    embroideryDetail: Detail,
    variants: seq<Variant>,
    shipping: Shipping,
    additions: seq<LineItem>,
    deductions: seq<LineItem>,
    wallet: Wallet,
    paymentAmount: int,
    paymentDate: string,
    attachment: Option<FileHandle>,
    designFile: Option<FileHandle>,
    designNote: string)

  const EmptyDetail: Detail := Detail("", "", "", "")

  /** The variant that "add variant" appends: empty names, price 0, and no
      size entries, so every size input shows 0. */
  function NewVariant(id: string): (v: Variant)
    ensures v.id == id && v.variant == "" && v.subVariant == "" && v.price == 0
    ensures forall k :: Lookup(v.sizes, k) == 0
  {
    Variant(id, "", "", 0, [])
  }

  /** The addition or deduction that "add" appends: empty texts, price 0. */
  function NewLineItem(id: string): (item: LineItem)
    ensures item.id == id && item.category == "" && item.description == "" && item.price == 0
  {
    LineItem(id, "", "", 0)
  }

  /** The `defaultValues` snapshot handed to the form store. */
  const DefaultValues: FormData := FormData(
    "", "", "", "", "", "", "", "", false,
    EmptyDetail, "", EmptyDetail, EmptyDetail,
    [NewVariant("1")],
    Shipping("", 0, 0),
    [], [],
    WalletCode(0), 0, "", None, None, "")

  predicate UniqueVariantIds(vs: seq<Variant>) {
    forall i, j :: 0 <= i < j < |vs| ==> vs[i].id != vs[j].id
  }

  predicate UniqueItemIds(items: seq<LineItem>) {
    forall i, j :: 0 <= i < j < |items| ==> items[i].id != items[j].id
  }

  /** The invariants the form is meant to keep: at least one variant, and
      identifiers unique within each collection. */
  predicate WellFormed(f: FormData) {
    && |f.variants| >= 1
    && UniqueVariantIds(f.variants)
    && UniqueItemIds(f.additions)
    && UniqueItemIds(f.deductions)
  }

  /** The default snapshot has exactly one variant, with id "1", empty names,
      price 0 and no sizes; no additions or deductions; and zero shipping
      price, weight, wallet and payment amount. */
  lemma DefaultSnapshot()
    ensures |DefaultValues.variants| == 1
    ensures DefaultValues.variants[0] == Variant("1", "", "", 0, [])
    ensures DefaultValues.additions == [] && DefaultValues.deductions == []
    ensures DefaultValues.shipping.price == 0 && DefaultValues.shipping.weight == 0
    ensures DefaultValues.wallet == WalletCode(0) && DefaultValues.paymentAmount == 0
    ensures DefaultValues.attachment == None && DefaultValues.designFile == None
    ensures WellFormed(DefaultValues)
  {
  }
}

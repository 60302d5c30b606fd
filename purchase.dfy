/** The closed-purchase record and its parts (src/purchase.rs): what a cart
    becomes when it is closed, kept for reporting and invoicing. */
module Purchases {
  import opened Util
  import opened Prims

  datatype DocumentKind = Receipt | Invoice

  datatype PaymentKind = Cash | Card | Transfer

  datatype Customer = Customer(
    id: u32,
    name: string,
    zip: string,
    location: string,
    street: string,
    taxNumber: string)

  datatype Payment = Payment(paymentId: string, amount: i32)

  /** What one ledger line stands for: a plain SKU line, a depreciated SKU,
      or an opened (derived) product. */
  datatype ItemKind = Sku | SkuDepreciated | DerivedProduct

  /** One line of the purchase ledger. */
  datatype Item = Item(
    kind: ItemKind,
    productId: u32,
    name: string,
    piece: u32,
    retailPriceNet: u32,
    vat: string,
    retailPriceGross: u32,
    totalRetailPriceNet: u32,
    totalRetailPriceGross: u32)

  /** What a unique product label (UPL) is attached to: a number of pieces of a
      SKU, or an amount of an opened product. */
  datatype UplKind = Sku(sku: u32, piece: u32) | DerivedProduct(productId: u32, amount: u32)

  datatype UplInfoObject = UplInfoObject(
    uplId: string,
    kind: UplKind,
    name: string,
    retailNetPrice: u32,
    vat: string,
    retailGrossPrice: u32,
    procurementNetPrice: u32,
    bestBefore: Option<Timestamp>,
    depreciated: bool)

  /** `Purchase`: the immutable record of a closed cart. */
  datatype Purchase = Purchase(
    id: Uuid,
    customer: Option<Customer>,
    discountPercentage: Option<u32>,
    items: seq<Item>,
    uplInfoObjects: seq<UplInfoObject>,
    totalNet: u32,
    totalVat: u32,
    totalGross: u32,
    documentKind: DocumentKind,
    paymentKind: PaymentKind,
    payments: seq<Payment>,
    balance: i32,
    profitNet: i32,
    ownerUid: u32,
    storeId: Option<u32>,
    dateCompletion: Timestamp,
    paymentDuedate: Timestamp,
    restored: Option<Uuid>,
    createdBy: u32,
    createdAt: Timestamp)

  function DefaultDocumentKind(): DocumentKind {
    Receipt
  }

  function DefaultPaymentKind(): PaymentKind {
    Cash
  }

  function DefaultCustomer(): Customer {
    Customer(0, "", "", "", "", "")
  }

  function DefaultPayment(): Payment {
    Payment("", 0)
  }

  function DefaultItemKind(): ItemKind {
    ItemKind.Sku
  }

  function DefaultUplKind(): UplKind {
    UplKind.Sku(0, 0)
  }

  function DefaultItem(): Item {
    Item(DefaultItemKind(), 0, "", 0, 0, "", 0, 0, 0)
  }

  function DefaultUplInfoObject(): UplInfoObject {
    UplInfoObject("", DefaultUplKind(), "", 0, "", 0, 0, None, false)
  }

  /** `Default for Purchase`. Both dates are midnight of `today` and the
      creation time is `now`; the caller reads the clock. */
  function DefaultPurchase(today: Day, now: Timestamp): Purchase {
    Purchase(
      id := NIL_UUID,
      customer := None,
      discountPercentage := None,
      items := [],
      uplInfoObjects := [],
      totalNet := 0,
      totalVat := 0,
      totalGross := 0,
      documentKind := DefaultDocumentKind(),
      paymentKind := DefaultPaymentKind(),
      payments := [],
      balance := 0,
      profitNet := 0,
      ownerUid := 0,
      storeId := None,
      dateCompletion := StartOfDay(today),
      paymentDuedate := StartOfDay(today),
      restored := None,
      createdBy := 0,
      createdAt := now)
  }

  /** `VecPackMember::get_id`: the key a purchase is stored under. */
  function GetId(p: Purchase): Uuid {
    p.id
  }

  /** A purchase holds no money figures: no totals, nothing owed, no profit. */
  predicate IsEmptyLedger(p: Purchase) {
    && p.items == [] && p.uplInfoObjects == [] && p.payments == []
    && p.totalNet == 0 && p.totalVat == 0 && p.totalGross == 0
    && p.balance == 0 && p.profitNet == 0
  }

  /** The default purchase is an empty receipt paid in cash, with no customer,
      discount, store or restoration, completed and due at midnight of the day
      it is made. */
  lemma DefaultPurchaseIsEmptyReceipt(today: Day, now: Timestamp)
    ensures var p := DefaultPurchase(today, now);
      && IsEmptyLedger(p)
      && p.customer.None? && p.discountPercentage.None? && p.storeId.None?
      && p.documentKind == Receipt && p.paymentKind == Cash && p.restored.None?
      && p.ownerUid == 0 && p.createdBy == 0 && GetId(p) == NIL_UUID
      && p.dateCompletion == StartOfDay(today) && p.paymentDuedate == StartOfDay(today)
      && DayOf(p.dateCompletion) == today && DayOf(p.paymentDuedate) == today
      && p.createdAt == now
  {
  }

  /** The default ledger line and label are zero and empty, a plain
      undepreciated SKU without a best-before date. */
  lemma DefaultPartsAreBlank()
    ensures DefaultItem().kind == ItemKind.Sku && DefaultItem().productId == 0
    ensures DefaultItem().piece == 0 && DefaultItem().name == "" && DefaultItem().vat == ""
    ensures DefaultItem().retailPriceNet == 0 && DefaultItem().retailPriceGross == 0
    ensures DefaultItem().totalRetailPriceNet == 0 && DefaultItem().totalRetailPriceGross == 0
    ensures DefaultUplInfoObject().kind == UplKind.Sku(0, 0)
    ensures !DefaultUplInfoObject().depreciated && DefaultUplInfoObject().bestBefore.None?
    ensures DefaultUplInfoObject().uplId == "" && DefaultUplInfoObject().name == ""
    ensures DefaultUplInfoObject().vat == ""
    ensures DefaultUplInfoObject().retailNetPrice == 0 && DefaultUplInfoObject().retailGrossPrice == 0
    ensures DefaultUplInfoObject().procurementNetPrice == 0
    ensures DefaultDocumentKind() == Receipt && DefaultPaymentKind() == Cash
    ensures DefaultCustomer().id == 0 && DefaultCustomer().name == "" && DefaultCustomer().zip == ""
    ensures DefaultCustomer().location == "" && DefaultCustomer().street == ""
    ensures DefaultCustomer().taxNumber == ""
    ensures DefaultPayment().paymentId == "" && DefaultPayment().amount == 0
  {
  }
}

/** The RPC messages the service answers with, as far as the conversions fill
    them: the generated message types of the purchase protocol and the gRPC
    status. Identifiers and dates travel as text. */
module Proto {
  import opened Util
  import opened Prims

  /** The gRPC status codes the service uses. */
  datatype Code = Internal | NotFound | AlreadyExists | InvalidArgument

  datatype Status = Status(code: Code, message: string)

  datatype Customer = Customer(
    customerId: u32,
    name: string,
    zip: string,
    location: string,
    street: string,
    taxNumber: string)

  datatype Payment = Payment(paymentId: string, amount: i32)

  datatype PaymentKind = Cash | Card | Transfer

  datatype UplKind = Sku(sku: u32, piece: u32) | OpenedSku(productId: u32, amount: u32)

  datatype UplInfoObject = UplInfoObject(
    uplId: string,
    uplKind: Option<UplKind>,
    name: string,
    retailNetPrice: u32,
    vat: string,
    retailGrossPrice: u32,
    procurementNetPrice: u32,
    bestBefore: string,
    depreciated: bool)

  /** `cart_object::Item`: a shopping-list line on the wire. */
  datatype CartItem = CartItem(
    sku: u32,
    name: string,
    piece: u32,
    retailPriceNet: u32,
    vat: string,
    retailPriceGross: u32,
    totalRetailPriceNet: u32,
    totalRetailPriceGross: u32)

  /** The cart summary used by bulk listings. */
  datatype CartInfoObject = CartInfoObject(
    cartId: string,
    customerName: string,
    uplCount: nat,
    itemNames: seq<string>,
    owner: u32,
    createdBy: u32,
    createdAt: string)

  /** The full cart message. */
  datatype CartObject = CartObject(
    ancestor: string,
    id: string,
    customer: Option<Customer>,
    discountPercentage: u32,
    shoppingList: seq<CartItem>,
    uplsSku: seq<UplInfoObject>,
    uplsUnique: seq<UplInfoObject>,
    totalNet: u32,
    totalVat: u32,
    totalGross: u32,
    needInvoice: bool,
    paymentKind: PaymentKind,
    payments: seq<Payment>,
    paymentBalance: i32,
    profitNet: i32,
    ownerUid: u32,
    storeId: u32,
    dateCompletion: string,
    paymentDuedate: string,
    createdBy: u32,
    createdAt: string)

  datatype ItemKind = Sku | DepreciatedSku | DerivedProduct

  /** `purchase_object::Item`: a purchase ledger line on the wire. */
  datatype PurchaseItem = PurchaseItem(
    kind: ItemKind,
    productId: u32,
    name: string,
    piece: u32,
    retailPriceNet: u32,
    vat: string,
    retailPriceGross: u32,
    totalRetailPriceNet: u32,
    totalRetailPriceGross: u32,
    uplIds: seq<string>)

  /** The purchase summary used by bulk listings. */
  datatype PurchaseInfoObject = PurchaseInfoObject(
    purchaseId: string,
    customer: Option<Customer>,
    uplCount: nat,
    totalNetPrice: u32,
    totalVat: u32,
    totalGrossPrice: u32,
    balance: i32,
    documentInvoice: bool,
    dateCompletion: string,
    paymentDuedate: string,
    paymentExpired: bool,
    profitNet: i32,
    restored: bool,
    createdBy: u32,
    createdAt: string)

  /** The full purchase message. */
  datatype PurchaseObject = PurchaseObject(
    id: string,
    customer: Option<Customer>,
    discountPercentage: u32,
    items: seq<PurchaseItem>,
    uplInfoObjects: seq<UplInfoObject>,
    needInvoice: bool,
    totalNet: u32,
    totalVat: u32,
    totalGross: u32,
    paymentKind: PaymentKind,
    payments: seq<Payment>,
    paymentBalance: i32,
    profitNet: i32,
    ownerUid: u32,
    storeId: u32,
    dateCompletion: string,
    paymentDuedate: string,
    restored: bool,
    createdBy: u32,
    createdAt: string)
}

/** The open-cart record as the conversions read it: the layout of `CartOld`
    in src/migration/cart.rs plus the `payable` figure. The cart's own
    operations are not part of this model. */
module Carts {
  import opened Util
  import opened Prims

  datatype DocumentKind = Receipt | Invoice

  datatype PaymentKind = Cash | Card | Transfer

  datatype Customer = Customer(
    id: u32,
    name: string,
    zip: string,
    location: string,
    street: string,
    taxNumber: string)

  datatype Payment = Payment(paymentId: string, amount: i32)

  /** One shopping-list line: a SKU sold by the piece. */
  datatype ListItem = ListItem(
    sku: u32,
    name: string,
    piece: u32,
    unitPriceNet: u32,
    vat: string,
    unitPriceGross: u32,
    totalPriceNet: u32,
    totalPriceGross: u32)

  datatype UplKind = Sku(sku: u32, piece: u32) | DerivedProduct(productId: u32, amount: u32)

  /** A unique product label attached to the cart. */
  datatype UplInfoObject = UplInfoObject(
    uplId: string,
    kind: UplKind,
    name: string,
    retailNetPrice: u32,
    vat: string,
    retailGrossPrice: u32,
    procurementNetPrice: u32,
    bestBefore: Option<Timestamp>,
    depreciated: bool)

  /** `Cart`: healthy labels backing shopping-list pieces are in `uplsSku`;
      depreciated and opened-product labels, each its own priced line, are in
      `uplsUnique`. */
  datatype Cart = Cart(
    ancestor: Option<Uuid>,
    id: Uuid,
    customer: Option<Customer>,
    discountPercentage: Option<u32>,
    shoppingList: seq<ListItem>,
    uplsSku: seq<UplInfoObject>,
    uplsUnique: seq<UplInfoObject>,
    totalNet: u32,
    totalVat: u32,
    totalGross: u32,
    documentKind: DocumentKind,
    paymentKind: PaymentKind,
    payments: seq<Payment>,
    payable: i32,
    ownerUid: u32,
    storeId: Option<u32>,
    dateCompletion: Timestamp,
    paymentDuedate: Timestamp,
    createdBy: u32,
    createdAt: Timestamp)

  /** The cart and label methods the conversions call but whose code is not
      part of this model (`UplInfoObject::get_piece`, `get_price_net`,
      `get_price_gross`, `Cart::get_balance`, `get_profit_net`). Every
      statement about the conversions holds whatever these compute. */
  datatype CartHelpers = CartHelpers(
    piece: UplInfoObject -> u32,
    priceNet: UplInfoObject -> u32,
    priceGross: UplInfoObject -> u32,
    balance: Cart -> i32,
    profitNet: Cart -> i32)

  /** `VecPackMember::get_id`: the key a cart is stored under. */
  function GetId(c: Cart): Uuid {
    c.id
  }
}

/** The service's glue (src/prelude.rs): how its errors reach the client as a
    gRPC status, how a closed cart becomes a purchase record, and the wire
    views of carts and purchases. */
module Prelude {
  import opened Util
  import opened Prims
  import Carts
  import Purchases
  import Proto

  // ---------------------------------------------------------------------------
  // Errors
  // ---------------------------------------------------------------------------

  /** `ServiceError`: every variant carries a human-readable message. */
  datatype ServiceError =
    | InternalError(msg: string)
    | NotFound(msg: string)
    | AlreadyExists(msg: string)
    | BadRequest(msg: string)

  /** The errors of the record store (`packman::PackError`) as far as the
      service distinguishes them: a missing object, or anything else. */
  datatype PackError = ObjectNotFound | OtherPackError(reason: string)

  /** `Display for ServiceError`: the carried message, whatever the variant. */
  function Message(e: ServiceError): string {
    e.msg
  }

  /** `From<ServiceError> for Status`. */
  function ToStatus(e: ServiceError): Proto.Status {
    match e
    case InternalError(msg) => Proto.Status(Proto.Internal, msg)
    case NotFound(msg) => Proto.Status(Proto.NotFound, msg)
    case AlreadyExists(msg) => Proto.Status(Proto.AlreadyExists, msg)
    case BadRequest(msg) => Proto.Status(Proto.InvalidArgument, msg)
  }

  /** Reading a status back as the service error it came from. */
  function ErrorOfStatus(s: Proto.Status): ServiceError {
    match s.code
    case Internal => InternalError(s.message)
    case NotFound => NotFound(s.message)
    case AlreadyExists => AlreadyExists(s.message)
    case InvalidArgument => BadRequest(s.message)
  }

  /** The status mapping is one-to-one: each error kind has its own status
      code (a bad request is reported as an invalid argument) and the message
      travels unchanged, so the error can be read back from the status. */
  lemma ToStatusIsLossless(e: ServiceError)
    ensures ErrorOfStatus(ToStatus(e)) == e
    ensures ToStatus(e).message == Message(e)
    ensures ToStatus(e).code == Proto.InvalidArgument <==> e.BadRequest?
    ensures ToStatus(e).code == Proto.Internal <==> e.InternalError?
  {
  }

  /** Two errors with the same status are the same error. */
  lemma ToStatusInjective(e: ServiceError, f: ServiceError)
    requires ToStatus(e) == ToStatus(f)
    ensures e == f
  {
    ToStatusIsLossless(e);
    ToStatusIsLossless(f);
  }

  /** `From<PackError> for ServiceError`: a missing object is "not found",
      every other store failure is internal; the message is the store error's
      own text, given here as `display`. */
  function FromPackError(e: PackError, display: PackError -> string): (r: ServiceError)
    ensures Message(r) == display(e)
    ensures r.NotFound? <==> e.ObjectNotFound?
    ensures r.InternalError? <==> !e.ObjectNotFound?
  {
    match e
    case ObjectNotFound => NotFound(display(e))
    case _ => InternalError(display(e))
  }

  /** `From<VarError> for ServiceError`: a missing configuration key is an
      internal error; `description` is the environment error's text. */
  function FromVarError(description: string): ServiceError {
    InternalError("ENV KEY NOT FOUND. " + description)
  }

  /** A store failure reaches the client as `not_found` or `internal`, never as
      anything else, and a missing configuration key as `internal`. */
  lemma StoreAndConfigurationStatuses(e: PackError, display: PackError -> string, description: string)
    ensures ToStatus(FromPackError(e, display)).code ==
      (if e.ObjectNotFound? then Proto.NotFound else Proto.Internal)
    ensures ToStatus(FromPackError(e, display)).message == display(e)
    ensures ToStatus(FromVarError(description)).code == Proto.Internal
  {
  }

  // ---------------------------------------------------------------------------
  // Cart to purchase
  // ---------------------------------------------------------------------------

  function ToPurchaseDocumentKind(k: Carts.DocumentKind): Purchases.DocumentKind {
    match k
    case Receipt => Purchases.Receipt
    case Invoice => Purchases.Invoice
  }

  function ToPurchasePaymentKind(k: Carts.PaymentKind): Purchases.PaymentKind {
    match k
    case Cash => Purchases.Cash
    case Card => Purchases.Card
    case Transfer => Purchases.Transfer
  }

  function ToPurchaseCustomer(c: Carts.Customer): Purchases.Customer {
    Purchases.Customer(c.id, c.name, c.zip, c.location, c.street, c.taxNumber)
  }

  function ToPurchasePayment(p: Carts.Payment): Purchases.Payment {
    Purchases.Payment(p.paymentId, p.amount)
  }

  function ToPurchaseUplKind(k: Carts.UplKind): Purchases.UplKind {
    match k
    case Sku(sku, piece) => Purchases.UplKind.Sku(sku, piece)
    case DerivedProduct(productId, amount) => Purchases.UplKind.DerivedProduct(productId, amount)
  }

  /** The purchase's copy of a cart label: every field carried over. */
  function ToPurchaseUpl(u: Carts.UplInfoObject): Purchases.UplInfoObject {
    Purchases.UplInfoObject(
      u.uplId, ToPurchaseUplKind(u.kind), u.name, u.retailNetPrice, u.vat,
      u.retailGrossPrice, u.procurementNetPrice, u.bestBefore, u.depreciated)
  }

  /** The ledger line of a shopping-list line: a plain SKU with product id 0. */
  function ShoppingListItem(i: Carts.ListItem): Purchases.Item {
    Purchases.Item(
      kind := Purchases.ItemKind.Sku,
      productId := 0,
      name := i.name,
      piece := i.piece,
      retailPriceNet := i.unitPriceNet,
      vat := i.vat,
      retailPriceGross := i.unitPriceGross,
      totalRetailPriceNet := i.totalPriceNet,
      totalRetailPriceGross := i.totalPriceGross)
  }

  /** The ledger kind of a unique label. A depreciated SKU label is recorded as
      a derived product: `SkuDepreciated` is never chosen. */
  function UniqueItemKind(u: Carts.UplInfoObject): Purchases.ItemKind {
    match u.kind
    case Sku(_, _) => if u.depreciated then Purchases.ItemKind.DerivedProduct else Purchases.ItemKind.Sku
    case DerivedProduct(_, _) => Purchases.ItemKind.DerivedProduct
  }

  /** The ledger line of a unique label. Its product id is 0 for every label:
      the source's catch-all arm precedes the derived-product arm, so the
      label's own product id is never used. */
  function UniqueItem(u: Carts.UplInfoObject, h: Carts.CartHelpers): Purchases.Item {
    Purchases.Item(
      kind := UniqueItemKind(u),
      productId := 0,
      name := u.name,
      piece := h.piece(u),
      retailPriceNet := u.retailNetPrice,
      vat := u.vat,
      retailPriceGross := u.retailGrossPrice,
      totalRetailPriceNet := h.priceNet(u),
      totalRetailPriceGross := h.priceGross(u))
  }

  /** `From<Cart> for Purchase`: the shopping list and the unique labels merged
      into one ledger, both label collections into one label list, the money
      and bookkeeping fields copied. Completion and due date are midnight of
      `today`, read from the clock by the caller. */
  function ToPurchase(c: Carts.Cart, h: Carts.CartHelpers, today: Day): Purchases.Purchase {
    Purchases.Purchase(
      id := c.id,
      customer := MapOption(ToPurchaseCustomer, c.customer),
      discountPercentage := c.discountPercentage,
      items := Map(ShoppingListItem, c.shoppingList) + Map(u => UniqueItem(u, h), c.uplsUnique),
      uplInfoObjects := Map(ToPurchaseUpl, c.uplsSku) + Map(ToPurchaseUpl, c.uplsUnique),
      totalNet := c.totalNet,
      totalVat := c.totalVat,
      totalGross := c.totalGross,
      documentKind := ToPurchaseDocumentKind(c.documentKind),
      paymentKind := ToPurchasePaymentKind(c.paymentKind),
      payments := Map(ToPurchasePayment, c.payments),
      balance := h.balance(c),
      profitNet := h.profitNet(c),
      ownerUid := c.ownerUid,
      storeId := c.storeId,
      dateCompletion := StartOfDay(today),
      paymentDuedate := StartOfDay(today),
      restored := None,
      createdBy := c.createdBy,
      createdAt := c.createdAt)
  }

  // Reading purchase parts back as cart parts; these show that nothing is
  // lost or reordered on the way into the purchase record.

  function CartDocumentKind(k: Purchases.DocumentKind): Carts.DocumentKind {
    match k
    case Receipt => Carts.Receipt
    case Invoice => Carts.Invoice
  }

  function CartPaymentKind(k: Purchases.PaymentKind): Carts.PaymentKind {
    match k
    case Cash => Carts.Cash
    case Card => Carts.Card
    case Transfer => Carts.Transfer
  }

  function CartCustomer(c: Purchases.Customer): Carts.Customer {
    Carts.Customer(c.id, c.name, c.zip, c.location, c.street, c.taxNumber)
  }

  function CartPayment(p: Purchases.Payment): Carts.Payment {
    Carts.Payment(p.paymentId, p.amount)
  }

  function CartUplKind(k: Purchases.UplKind): Carts.UplKind {
    match k
    case Sku(sku, piece) => Carts.UplKind.Sku(sku, piece)
    case DerivedProduct(productId, amount) => Carts.UplKind.DerivedProduct(productId, amount)
  }

  function CartUpl(u: Purchases.UplInfoObject): Carts.UplInfoObject {
    Carts.UplInfoObject(
      u.uplId, CartUplKind(u.kind), u.name, u.retailNetPrice, u.vat,
      u.retailGrossPrice, u.procurementNetPrice, u.bestBefore, u.depreciated)
  }

  /** The document and payment kinds map variant for variant, and customers,
      payments and labels are copied whole: each mapping has a left inverse. */
  lemma PartMappingsAreLossless()
    ensures forall k :: CartDocumentKind(ToPurchaseDocumentKind(k)) == k
    ensures forall k :: CartPaymentKind(ToPurchasePaymentKind(k)) == k
    ensures forall c :: CartCustomer(ToPurchaseCustomer(c)) == c
    ensures forall p :: CartPayment(ToPurchasePayment(p)) == p
    ensures forall u :: CartUpl(ToPurchaseUpl(u)) == u
  {
    forall u: Carts.UplInfoObject ensures CartUpl(ToPurchaseUpl(u)) == u {
      assert CartUplKind(ToPurchaseUplKind(u.kind)) == u.kind;
    }
  }

  /** The purchase ledger holds, in order, one plain-SKU line per shopping-list
      line (name, pieces and prices copied) followed by one line per unique
      label (pieces and totals from the label's own methods). */
  lemma {:induction false} LedgerLayout(c: Carts.Cart, h: Carts.CartHelpers, today: Day)
    ensures var p := ToPurchase(c, h, today);
      && |p.items| == |c.shoppingList| + |c.uplsUnique|
      && (forall i :: 0 <= i < |c.shoppingList| ==>
            var item, line := p.items[i], c.shoppingList[i];
            && item.kind == Purchases.ItemKind.Sku
            && item.name == line.name && item.piece == line.piece && item.vat == line.vat
            && item.retailPriceNet == line.unitPriceNet
            && item.retailPriceGross == line.unitPriceGross
            && item.totalRetailPriceNet == line.totalPriceNet
            && item.totalRetailPriceGross == line.totalPriceGross)
      && (forall j :: 0 <= j < |c.uplsUnique| ==>
            var item, u := p.items[|c.shoppingList| + j], c.uplsUnique[j];
            && item.name == u.name && item.piece == h.piece(u) && item.vat == u.vat
            && item.retailPriceNet == u.retailNetPrice
            && item.retailPriceGross == u.retailGrossPrice
            && item.totalRetailPriceNet == h.priceNet(u)
            && item.totalRetailPriceGross == h.priceGross(u))
  {
    var p := ToPurchase(c, h, today);
    var skus, uniques := Map(ShoppingListItem, c.shoppingList), Map(u => UniqueItem(u, h), c.uplsUnique);
    assert p.items == skus + uniques;
    forall j | 0 <= j < |c.uplsUnique| ensures p.items[|c.shoppingList| + j] == UniqueItem(c.uplsUnique[j], h) {
      assert p.items[|skus| + j] == uniques[j];
    }
  }

  /** Ledger kinds of unique labels: a derived product, or a depreciated SKU,
      becomes `DerivedProduct`; a healthy SKU label stays `Sku`. */
  lemma UniqueItemKinds(c: Carts.Cart, h: Carts.CartHelpers, today: Day)
    ensures var p := ToPurchase(c, h, today);
      |p.items| == |c.shoppingList| + |c.uplsUnique| &&
      forall j :: 0 <= j < |c.uplsUnique| ==>
        ((p.items[|c.shoppingList| + j].kind == Purchases.ItemKind.DerivedProduct) <==>
           (c.uplsUnique[j].depreciated || c.uplsUnique[j].kind.DerivedProduct?)) &&
        ((p.items[|c.shoppingList| + j].kind == Purchases.ItemKind.Sku) <==>
           (!c.uplsUnique[j].depreciated && c.uplsUnique[j].kind.Sku?))
  {
    var p := ToPurchase(c, h, today);
    var skus, uniques := Map(ShoppingListItem, c.shoppingList), Map(u => UniqueItem(u, h), c.uplsUnique);
    forall j | 0 <= j < |c.uplsUnique| ensures p.items[|c.shoppingList| + j] == UniqueItem(c.uplsUnique[j], h) {
      assert p.items[|skus| + j] == uniques[j];
    }
  }

  /** A depreciated SKU label is booked as a derived product, not as a
      depreciated SKU. */
  lemma DepreciatedSkuBecomesDerivedProduct(c: Carts.Cart, h: Carts.CartHelpers, today: Day, j: nat)
    requires j < |c.uplsUnique|
    requires c.uplsUnique[j].kind.Sku? && c.uplsUnique[j].depreciated
    ensures ToPurchase(c, h, today).items[|c.shoppingList| + j].kind == Purchases.ItemKind.DerivedProduct
  {
    UniqueItemKinds(c, h, today);
  }

  /** No ledger line converted from a cart is a depreciated SKU, and every one
      has product id 0, derived products included. */
  lemma NoSkuDepreciatedAndNoProductId(c: Carts.Cart, h: Carts.CartHelpers, today: Day)
    ensures forall k :: 0 <= k < |ToPurchase(c, h, today).items| ==>
      ToPurchase(c, h, today).items[k].kind != Purchases.ItemKind.SkuDepreciated &&
      ToPurchase(c, h, today).items[k].productId == 0
  {
    var p := ToPurchase(c, h, today);
    var skus, uniques := Map(ShoppingListItem, c.shoppingList), Map(u => UniqueItem(u, h), c.uplsUnique);
    forall k | 0 <= k < |p.items|
      ensures p.items[k].kind != Purchases.ItemKind.SkuDepreciated && p.items[k].productId == 0
    {
      if k < |skus| {
        assert p.items[k] == skus[k];
      } else {
        assert p.items[k] == uniques[k - |skus|];
      }
    }
  }

  /** The purchase's labels are the healthy labels followed by the unique ones,
      each with its id, kind, prices, best-before date and depreciation. */
  lemma LabelsLayout(c: Carts.Cart, h: Carts.CartHelpers, today: Day)
    ensures Map(CartUpl, ToPurchase(c, h, today).uplInfoObjects) == c.uplsSku + c.uplsUnique
  {
    PartMappingsAreLossless();
    MapAppend(ToPurchaseUpl, c.uplsSku, c.uplsUnique);
    MapLeftInverse(ToPurchaseUpl, CartUpl, c.uplsSku + c.uplsUnique);
  }

  /** Everything else of the cart is carried into the purchase unchanged: its
      id (hence its store key), customer, discount, totals, document and
      payment kind, payments in order, owner, store and creation data. The
      balance and profit are the cart's own; the purchase is not restored, and
      it is completed and due at midnight of `today`. */
  lemma PurchaseCopiesCart(c: Carts.Cart, h: Carts.CartHelpers, today: Day)
    ensures var p := ToPurchase(c, h, today);
      && Purchases.GetId(p) == Carts.GetId(c)
      && MapOption(CartCustomer, p.customer) == c.customer
      && p.discountPercentage == c.discountPercentage
      && p.totalNet == c.totalNet && p.totalVat == c.totalVat && p.totalGross == c.totalGross
      && CartDocumentKind(p.documentKind) == c.documentKind
      && CartPaymentKind(p.paymentKind) == c.paymentKind
      && Map(CartPayment, p.payments) == c.payments
      && p.balance == h.balance(c) && p.profitNet == h.profitNet(c)
      && p.ownerUid == c.ownerUid && p.storeId == c.storeId
      && p.createdBy == c.createdBy && p.createdAt == c.createdAt
      && p.restored.None?
      && p.dateCompletion == StartOfDay(today) && p.paymentDuedate == StartOfDay(today)
      && DayOf(p.dateCompletion) == today && DayOf(p.paymentDuedate) == today
  {
    PartMappingsAreLossless();
    MapLeftInverse(ToPurchasePayment, CartPayment, c.payments);
  }

  // ---------------------------------------------------------------------------
  // Wire views
  // ---------------------------------------------------------------------------

  /** Text forms of identifiers and moments (`Uuid::to_string`,
      `DateTime::to_rfc3339`). */
  datatype Render = Render(uuid: Uuid -> string, time: Timestamp -> string)

  function ToProtoCustomer(c: Carts.Customer): Proto.Customer {
    Proto.Customer(c.id, c.name, c.zip, c.location, c.street, c.taxNumber)
  }

  function ToProtoPurchaseCustomer(c: Purchases.Customer): Proto.Customer {
    Proto.Customer(c.id, c.name, c.zip, c.location, c.street, c.taxNumber)
  }

  function ToProtoUplKind(k: Carts.UplKind): Proto.UplKind {
    match k
    case Sku(sku, piece) => Proto.UplKind.Sku(sku, piece)
    case DerivedProduct(productId, amount) => Proto.OpenedSku(productId, amount)
  }

  function ToProtoUpl(u: Carts.UplInfoObject, r: Render): Proto.UplInfoObject {
    Proto.UplInfoObject(
      uplId := u.uplId,
      uplKind := Some(ToProtoUplKind(u.kind)),
      name := u.name,
      retailNetPrice := u.retailNetPrice,
      vat := u.vat,
      retailGrossPrice := u.retailGrossPrice,
      procurementNetPrice := u.procurementNetPrice,
      bestBefore := match u.bestBefore case Some(t) => r.time(t) case None => "",
      depreciated := u.depreciated)
  }

  function ToProtoCartItem(i: Carts.ListItem): Proto.CartItem {
    Proto.CartItem(
      i.sku, i.name, i.piece, i.unitPriceNet, i.vat, i.unitPriceGross,
      i.totalPriceNet, i.totalPriceGross)
  }

  function ToProtoPaymentKind(k: Carts.PaymentKind): Proto.PaymentKind {
    match k
    case Cash => Proto.Cash
    case Card => Proto.Card
    case Transfer => Proto.Transfer
  }

  function ToProtoPurchasePaymentKind(k: Purchases.PaymentKind): Proto.PaymentKind {
    match k
    case Cash => Proto.Cash
    case Card => Proto.Card
    case Transfer => Proto.Transfer
  }

  function ToProtoPayment(p: Carts.Payment): Proto.Payment {
    Proto.Payment(p.paymentId, p.amount)
  }

  function ToProtoPurchasePayment(p: Purchases.Payment): Proto.Payment {
    Proto.Payment(p.paymentId, p.amount)
  }

  function ListItemName(i: Carts.ListItem): string {
    i.name
  }

  function UplName(u: Carts.UplInfoObject): string {
    u.name
  }

  function ItemName(i: Purchases.Item): string {
    i.name
  }

  /** `From<Cart> for CartInfoObject`: the cart summary. */
  function ToCartInfoObject(c: Carts.Cart, r: Render): Proto.CartInfoObject {
    Proto.CartInfoObject(
      cartId := r.uuid(c.id),
      customerName := match c.customer case Some(cu) => cu.name case None => "",
      uplCount := |c.uplsSku| + |c.uplsUnique|,
      itemNames := Map(ListItemName, c.shoppingList) + Map(UplName, c.uplsUnique),
      owner := c.ownerUid,
      createdBy := c.createdBy,
      createdAt := r.time(c.createdAt))
  }

  /** The cart summary counts every label, lists the shopping-list names and
      then the unique-label names, and names no customer when there is none;
      the id and the creation moment are sent as text. */
  lemma CartInfoSummarises(c: Carts.Cart, r: Render)
    ensures var info := ToCartInfoObject(c, r);
      && info.cartId == r.uuid(c.id) && info.createdAt == r.time(c.createdAt)
      && info.uplCount == |c.uplsSku| + |c.uplsUnique|
      && |info.itemNames| == |c.shoppingList| + |c.uplsUnique|
      && (forall i :: 0 <= i < |c.shoppingList| ==> info.itemNames[i] == c.shoppingList[i].name)
      && (forall j :: 0 <= j < |c.uplsUnique| ==>
            info.itemNames[|c.shoppingList| + j] == c.uplsUnique[j].name)
      && (c.customer.None? ==> info.customerName == "")
      && (c.customer.Some? ==> info.customerName == c.customer.value.name)
      && info.owner == c.ownerUid && info.createdBy == c.createdBy
  {
    var info := ToCartInfoObject(c, r);
    var skus, uniques := Map(ListItemName, c.shoppingList), Map(UplName, c.uplsUnique);
    forall j | 0 <= j < |c.uplsUnique| ensures info.itemNames[|c.shoppingList| + j] == c.uplsUnique[j].name {
      assert info.itemNames[|skus| + j] == uniques[j];
    }
  }

  /** `From<Cart> for CartObject`: the full cart message. A missing ancestor is
      the empty text, a missing discount or store is 0, a missing best-before
      date is the empty text; balance and profit are the cart's own. */
  function ToCartObject(c: Carts.Cart, h: Carts.CartHelpers, r: Render): Proto.CartObject {
    Proto.CartObject(
      ancestor := match c.ancestor case Some(a) => r.uuid(a) case None => "",
      id := r.uuid(c.id),
      customer := MapOption(ToProtoCustomer, c.customer),
      discountPercentage := UnwrapOr(c.discountPercentage, 0),
      shoppingList := Map(ToProtoCartItem, c.shoppingList),
      uplsSku := Map(u => ToProtoUpl(u, r), c.uplsSku),
      uplsUnique := Map(u => ToProtoUpl(u, r), c.uplsUnique),
      totalNet := c.totalNet,
      totalVat := c.totalVat,
      totalGross := c.totalGross,
      needInvoice := match c.documentKind case Receipt => false case Invoice => true,
      paymentKind := ToProtoPaymentKind(c.paymentKind),
      payments := Map(ToProtoPayment, c.payments),
      paymentBalance := h.balance(c),
      profitNet := h.profitNet(c),
      ownerUid := c.ownerUid,
      storeId := UnwrapOr(c.storeId, 0),
      dateCompletion := r.time(c.dateCompletion),
      paymentDuedate := r.time(c.paymentDuedate),
      createdBy := c.createdBy,
      createdAt := r.time(c.createdAt))
  }

  // Reading the wire parts of a cart message back as cart parts; these show
  // that the message loses and reorders nothing but the text forms.

  /** Reading a wire label kind back; defined on every kind the cart message
      can carry. */
  function CartUplKindOfProto(k: Proto.UplKind): Carts.UplKind {
    match k
    case Sku(sku, piece) => Carts.UplKind.Sku(sku, piece)
    case OpenedSku(productId, amount) => Carts.UplKind.DerivedProduct(productId, amount)
  }

  function CartItemOfProto(i: Proto.CartItem): Carts.ListItem {
    Carts.ListItem(
      i.sku, i.name, i.piece, i.retailPriceNet, i.vat, i.retailPriceGross,
      i.totalRetailPriceNet, i.totalRetailPriceGross)
  }

  function PaymentOfProto(p: Proto.Payment): Carts.Payment {
    Carts.Payment(p.paymentId, p.amount)
  }

  function CustomerOfProto(c: Proto.Customer): Carts.Customer {
    Carts.Customer(c.customerId, c.name, c.zip, c.location, c.street, c.taxNumber)
  }

  function PaymentKindOfProto(k: Proto.PaymentKind): Carts.PaymentKind {
    match k
    case Cash => Carts.Cash
    case Card => Carts.Card
    case Transfer => Carts.Transfer
  }

  /** A wire label shows a cart label: the same id, name, prices, VAT and
      depreciation, a kind present and readable back as the label's own, and
      the best-before date as text, or the empty text when there is none. */
  predicate ShowsLabel(w: Proto.UplInfoObject, u: Carts.UplInfoObject, r: Render) {
    && w.uplId == u.uplId
    && w.uplKind.Some? && CartUplKindOfProto(w.uplKind.value) == u.kind
    && w.name == u.name && w.vat == u.vat
    && w.retailNetPrice == u.retailNetPrice && w.retailGrossPrice == u.retailGrossPrice
    && w.procurementNetPrice == u.procurementNetPrice
    && w.bestBefore == (if u.bestBefore.Some? then r.time(u.bestBefore.value) else "")
    && w.depreciated == u.depreciated
  }

  /** The cart message keeps the customer, the shopping list and the payments
      whole and in order, and shows every label of both collections in order;
      the document kind becomes the invoice flag, absent options are reported
      as empty text or 0, and identifiers and moments are sent as text. */
  lemma CartObjectProjects(c: Carts.Cart, h: Carts.CartHelpers, r: Render)
    ensures var m := ToCartObject(c, h, r);
      && m.id == r.uuid(c.id)
      && (c.ancestor.None? ==> m.ancestor == "")
      && (c.ancestor.Some? ==> m.ancestor == r.uuid(c.ancestor.value))
      && MapOption(CustomerOfProto, m.customer) == c.customer
      && m.discountPercentage == (if c.discountPercentage.Some? then c.discountPercentage.value else 0)
      && m.storeId == (if c.storeId.Some? then c.storeId.value else 0)
      && m.needInvoice == (c.documentKind == Carts.Invoice)
      && PaymentKindOfProto(m.paymentKind) == c.paymentKind
      && Map(CartItemOfProto, m.shoppingList) == c.shoppingList
      && |m.uplsSku| == |c.uplsSku| && |m.uplsUnique| == |c.uplsUnique|
      && (forall i :: 0 <= i < |c.uplsSku| ==> ShowsLabel(m.uplsSku[i], c.uplsSku[i], r))
      && (forall j :: 0 <= j < |c.uplsUnique| ==> ShowsLabel(m.uplsUnique[j], c.uplsUnique[j], r))
      && Map(PaymentOfProto, m.payments) == c.payments
      && m.totalNet == c.totalNet && m.totalVat == c.totalVat && m.totalGross == c.totalGross
      && m.paymentBalance == h.balance(c) && m.profitNet == h.profitNet(c)
      && m.ownerUid == c.ownerUid && m.createdBy == c.createdBy
      && m.dateCompletion == r.time(c.dateCompletion)
      && m.paymentDuedate == r.time(c.paymentDuedate)
      && m.createdAt == r.time(c.createdAt)
  {
    var m := ToCartObject(c, h, r);
    MapLeftInverse(ToProtoCartItem, CartItemOfProto, c.shoppingList);
    MapLeftInverse(ToProtoPayment, PaymentOfProto, c.payments);
    forall i | 0 <= i < |c.uplsSku| ensures ShowsLabel(m.uplsSku[i], c.uplsSku[i], r) {
      assert m.uplsSku[i] == ToProtoUpl(c.uplsSku[i], r);
    }
    forall j | 0 <= j < |c.uplsUnique| ensures ShowsLabel(m.uplsUnique[j], c.uplsUnique[j], r) {
      assert m.uplsUnique[j] == ToProtoUpl(c.uplsUnique[j], r);
    }
  }

  /** `From<Purchase> for PurchaseInfoObject`: the purchase summary. The
      `payment_expired` flag compares the due date's day with `today`, read
      from the clock by the caller, exactly as written: it is set while the
      due day still lies ahead. */
  function ToPurchaseInfoObject(p: Purchases.Purchase, r: Render, today: Day): Proto.PurchaseInfoObject {
    Proto.PurchaseInfoObject(
      purchaseId := r.uuid(p.id),
      customer := MapOption(ToProtoPurchaseCustomer, p.customer),
      uplCount := |p.uplInfoObjects|,
      totalNetPrice := p.totalNet,
      totalVat := p.totalVat,
      totalGrossPrice := p.totalGross,
      balance := p.balance,
      documentInvoice := match p.documentKind case Receipt => false case Invoice => true,
      dateCompletion := r.time(p.dateCompletion),
      paymentDuedate := r.time(p.paymentDuedate),
      paymentExpired := DayOf(p.paymentDuedate) > today,
      profitNet := p.profitNet,
      restored := p.restored.Some?,
      createdBy := p.createdBy,
      createdAt := r.time(p.createdAt))
  }

  /** Reading a wire customer back as the purchase's customer. */
  function PurchaseCustomerOfProto(c: Proto.Customer): Purchases.Customer {
    Purchases.Customer(c.customerId, c.name, c.zip, c.location, c.street, c.taxNumber)
  }

  /** The purchase summary counts the labels, flags invoices and restored
      purchases, and copies the customer, the money figures and the
      bookkeeping data, identifiers and moments as text. */
  lemma PurchaseInfoSummarises(p: Purchases.Purchase, r: Render, today: Day)
    ensures var info := ToPurchaseInfoObject(p, r, today);
      && info.uplCount == |p.uplInfoObjects|
      && (info.documentInvoice <==> p.documentKind == Purchases.Invoice)
      && (info.restored <==> p.restored.Some?)
      && info.purchaseId == r.uuid(p.id)
      && MapOption(PurchaseCustomerOfProto, info.customer) == p.customer
      && info.balance == p.balance && info.profitNet == p.profitNet
      && info.totalNetPrice == p.totalNet && info.totalVat == p.totalVat
      && info.totalGrossPrice == p.totalGross
      && info.createdBy == p.createdBy
      && info.dateCompletion == r.time(p.dateCompletion)
      && info.paymentDuedate == r.time(p.paymentDuedate)
      && info.createdAt == r.time(p.createdAt)
  {
  }

  /** As written, the "expired" flag is raised exactly while the payment is
      not yet due: it is false on and after the due day, and true on every
      earlier day. */
  lemma PaymentExpiredIsInverted(p: Purchases.Purchase, r: Render, today: Day)
    ensures today >= DayOf(p.paymentDuedate) ==> !ToPurchaseInfoObject(p, r, today).paymentExpired
    ensures today < DayOf(p.paymentDuedate) ==> ToPurchaseInfoObject(p, r, today).paymentExpired
    ensures forall later: Day :: later >= today && !ToPurchaseInfoObject(p, r, today).paymentExpired ==>
      !ToPurchaseInfoObject(p, r, later).paymentExpired
  {
  }

  function ToProtoItemKind(k: Purchases.ItemKind): Proto.ItemKind {
    match k
    case Sku => Proto.ItemKind.Sku
    case SkuDepreciated => Proto.DepreciatedSku
    case DerivedProduct => Proto.ItemKind.DerivedProduct
  }

  function ToProtoItem(i: Purchases.Item): Proto.PurchaseItem {
    Proto.PurchaseItem(
      kind := ToProtoItemKind(i.kind),
      productId := i.productId,
      name := i.name,
      piece := i.piece,
      retailPriceNet := i.retailPriceNet,
      vat := i.vat,
      retailPriceGross := i.retailPriceGross,
      totalRetailPriceNet := i.totalRetailPriceNet,
      totalRetailPriceGross := i.totalRetailPriceGross,
      uplIds := [])
  }

  /** `From<Purchase> for PurchaseObject`: the full purchase message. Labels
      are not sent: the label list and every line's label ids are empty. */
  function ToPurchaseObject(p: Purchases.Purchase, r: Render): Proto.PurchaseObject {
    Proto.PurchaseObject(
      id := r.uuid(p.id),
      customer := MapOption(ToProtoPurchaseCustomer, p.customer),
      discountPercentage := UnwrapOr(p.discountPercentage, 0),
      items := Map(ToProtoItem, p.items),
      uplInfoObjects := [],
      needInvoice := match p.documentKind case Receipt => false case Invoice => true,
      totalNet := p.totalNet,
      totalVat := p.totalVat,
      totalGross := p.totalGross,
      paymentKind := ToProtoPurchasePaymentKind(p.paymentKind),
      payments := Map(ToProtoPurchasePayment, p.payments),
      paymentBalance := p.balance,
      profitNet := p.profitNet,
      ownerUid := p.ownerUid,
      storeId := UnwrapOr(p.storeId, 0),
      dateCompletion := r.time(p.dateCompletion),
      paymentDuedate := r.time(p.paymentDuedate),
      restored := p.restored.Some?,
      createdBy := p.createdBy,
      createdAt := r.time(p.createdAt))
  }

  // Reading the wire parts of a purchase message back as purchase parts.

  function ItemKindOfProto(k: Proto.ItemKind): Purchases.ItemKind {
    match k
    case Sku => Purchases.ItemKind.Sku
    case DepreciatedSku => Purchases.SkuDepreciated
    case DerivedProduct => Purchases.ItemKind.DerivedProduct
  }

  function ItemOfProto(i: Proto.PurchaseItem): Purchases.Item {
    Purchases.Item(
      ItemKindOfProto(i.kind), i.productId, i.name, i.piece, i.retailPriceNet,
      i.vat, i.retailPriceGross, i.totalRetailPriceNet, i.totalRetailPriceGross)
  }

  function PurchasePaymentOfProto(p: Proto.Payment): Purchases.Payment {
    Purchases.Payment(p.paymentId, p.amount)
  }

  function PurchasePaymentKindOfProto(k: Proto.PaymentKind): Purchases.PaymentKind {
    match k
    case Cash => Purchases.Cash
    case Card => Purchases.Card
    case Transfer => Purchases.Transfer
  }

  /** The purchase message keeps the customer, every ledger line and every
      payment whole and in order, with each line's kind mapped one-to-one;
      it reports absent discount and store as 0, carries no labels, copies
      the money and bookkeeping figures and sends identifiers and moments as
      text. */
  lemma PurchaseObjectProjects(p: Purchases.Purchase, r: Render)
    ensures var m := ToPurchaseObject(p, r);
      && m.id == r.uuid(p.id)
      && MapOption(PurchaseCustomerOfProto, m.customer) == p.customer
      && m.discountPercentage == (if p.discountPercentage.Some? then p.discountPercentage.value else 0)
      && m.storeId == (if p.storeId.Some? then p.storeId.value else 0)
      && m.uplInfoObjects == []
      && (m.needInvoice <==> p.documentKind == Purchases.Invoice)
      && (m.restored <==> p.restored.Some?)
      && Map(ItemOfProto, m.items) == p.items
      && (forall i :: 0 <= i < |m.items| ==> m.items[i].uplIds == [])
      && PurchasePaymentKindOfProto(m.paymentKind) == p.paymentKind
      && Map(PurchasePaymentOfProto, m.payments) == p.payments
      && m.totalNet == p.totalNet && m.totalVat == p.totalVat && m.totalGross == p.totalGross
      && m.paymentBalance == p.balance && m.profitNet == p.profitNet
      && m.ownerUid == p.ownerUid && m.createdBy == p.createdBy
      && m.dateCompletion == r.time(p.dateCompletion)
      && m.paymentDuedate == r.time(p.paymentDuedate)
      && m.createdAt == r.time(p.createdAt)
  {
    assert forall k :: ItemKindOfProto(ToProtoItemKind(k)) == k;
    MapLeftInverse(ToProtoItem, ItemOfProto, p.items);
    MapLeftInverse(ToProtoPurchasePayment, PurchasePaymentOfProto, p.payments);
  }

  /** Closing a cart and then summarising the purchase agrees with summarising
      the cart: the same label count, and the ledger lines bear the names the
      cart summary lists, in the same order. */
  lemma SummariesAgreeAcrossClose(c: Carts.Cart, h: Carts.CartHelpers, today: Day, r: Render, later: Day)
    ensures ToPurchaseInfoObject(ToPurchase(c, h, today), r, later).uplCount ==
            ToCartInfoObject(c, r).uplCount
    ensures Map(ItemName, ToPurchase(c, h, today).items) == ToCartInfoObject(c, r).itemNames
  {
    var p := ToPurchase(c, h, today);
    var names, info := Map(ItemName, p.items), ToCartInfoObject(c, r);
    LedgerLayout(c, h, today);
    CartInfoSummarises(c, r);
    assert |names| == |info.itemNames|;
    forall k | 0 <= k < |names| ensures names[k] == info.itemNames[k] {
      if k >= |c.shoppingList| {
        var j := k - |c.shoppingList|;
        assert names[|c.shoppingList| + j] == info.itemNames[|c.shoppingList| + j];
      }
    }
  }

  /** A closed cart's purchase message never shows a depreciated-SKU line and
      never a product id other than 0. */
  lemma ClosedCartMessage(c: Carts.Cart, h: Carts.CartHelpers, today: Day, r: Render)
    ensures var m := ToPurchaseObject(ToPurchase(c, h, today), r);
      forall i :: 0 <= i < |m.items| ==> m.items[i].kind != Proto.DepreciatedSku && m.items[i].productId == 0
  {
    NoSkuDepreciatedAndNoProductId(c, h, today);
  }
}

/** Schema migration of stored purchases (src/migration/purchase.rs): a
    purchase of the older layout gains the `payable` figure. */
module PurchaseMigration {
  import opened Util
  import opened Prims
  import opened Purchases

  /** `PurchaseOld`: the purchase layout before `payable` was added. */
  datatype PurchaseOld = PurchaseOld(
    id: Uuid,
    customer: Option<Customer>,
    discountPercentage: Option<u32>,
    items: seq<Item>,
    uplInfoObjects: seq<UplInfoObject>,
    totalNet: u32,
    totalVat: u32,
    totalGross: u32,
    documentKind: DocumentKind,
    paymentKind: PaymentKind,
    payments: seq<Payment>,
    balance: i32,
    profitNet: i32,
    ownerUid: u32,
    storeId: Option<u32>,
    dateCompletion: Timestamp,
    paymentDuedate: Timestamp,
    restored: Option<Uuid>,
    createdBy: u32,
    createdAt: Timestamp)

  /** The purchase layout the migration writes: the old one plus `payable`. */
  datatype MigratedPurchase = MigratedPurchase(
    id: Uuid,
    customer: Option<Customer>,
    discountPercentage: Option<u32>,
    items: seq<Item>,
    uplInfoObjects: seq<UplInfoObject>,
    totalNet: u32,
    totalVat: u32,
    totalGross: u32,
    documentKind: DocumentKind,
    paymentKind: PaymentKind,
    payments: seq<Payment>,
    payable: i32,
    balance: i32,
    profitNet: i32,
    ownerUid: u32,
    storeId: Option<u32>,
    dateCompletion: Timestamp,
    paymentDuedate: Timestamp,
    restored: Option<Uuid>,
    createdBy: u32,
    createdAt: Timestamp)

  /** `Default for PurchaseOld`. Both dates are midnight of `today` and the
      creation time is `now`; the caller reads the clock. */
  function DefaultPurchaseOld(today: Day, now: Timestamp): PurchaseOld {
    PurchaseOld(
      id := NIL_UUID,
      customer := None,
      discountPercentage := None,
      items := [],
      uplInfoObjects := [],
      totalNet := 0,
      totalVat := 0,
      totalGross := 0,
      documentKind := DefaultDocumentKind(),
      paymentKind := DefaultPaymentKind(),
      payments := [],
      balance := 0,
      profitNet := 0,
      ownerUid := 0,
      storeId := None,
      dateCompletion := StartOfDay(today),
      paymentDuedate := StartOfDay(today),
      restored := None,
      createdBy := 0,
      createdAt := now)
  }

  /** `VecPackMember::get_id` of the old layout. */
  function GetOldId(p: PurchaseOld): Uuid {
    p.id
  }

  /** The store key of a migrated purchase. */
  function GetMigratedId(p: MigratedPurchase): Uuid {
    p.id
  }

  /** The old-layout record a purchase is a migration of: the purchase without
      its `payable` figure. */
  function Forget(p: MigratedPurchase): PurchaseOld {
    PurchaseOld(
      p.id, p.customer, p.discountPercentage, p.items, p.uplInfoObjects,
      p.totalNet, p.totalVat, p.totalGross, p.documentKind, p.paymentKind,
      p.payments, p.balance, p.profitNet, p.ownerUid, p.storeId,
      p.dateCompletion, p.paymentDuedate, p.restored, p.createdBy, p.createdAt)
  }

  /** `From<PurchaseOld> for Purchase`: every field of the old record is kept,
      ledger, labels, payments and restoration included, and `payable` is the
      gross total cast to `i32`. */
  function Migrate(o: PurchaseOld): (p: MigratedPurchase)
    ensures Forget(p) == o
    ensures (p.payable as int - o.totalGross as int) % 0x1_0000_0000 == 0
    ensures o.totalGross < 0x8000_0000 ==> p.payable as int == o.totalGross as int
    ensures o.totalGross >= 0x8000_0000 ==> p.payable < 0
  {
    MigratedPurchase(
      id := o.id,
      customer := o.customer,
      discountPercentage := o.discountPercentage,
      items := o.items,
      uplInfoObjects := o.uplInfoObjects,
      totalNet := o.totalNet,
      totalVat := o.totalVat,
      totalGross := o.totalGross,
      documentKind := o.documentKind,
      paymentKind := o.paymentKind,
      payments := o.payments,
      payable := AsI32(o.totalGross),
      balance := o.balance,
      profitNet := o.profitNet,
      ownerUid := o.ownerUid,
      storeId := o.storeId,
      dateCompletion := o.dateCompletion,
      paymentDuedate := o.paymentDuedate,
      restored := o.restored,
      createdBy := o.createdBy,
      createdAt := o.createdAt)
  }

  /** Balance and profit are copied, not recomputed from the new `payable`:
      two old records differing only in their gross total migrate to records
      with the same balance and profit. */
  lemma BalanceIsNotRecomputed(o: PurchaseOld, gross: u32)
    ensures Migrate(o.(totalGross := gross)).balance == Migrate(o).balance == o.balance
    ensures Migrate(o.(totalGross := gross)).profitNet == Migrate(o).profitNet == o.profitNet
  {
    assert Forget(Migrate(o.(totalGross := gross))) == o.(totalGross := gross);
    assert Forget(Migrate(o)) == o;
  }

  /** Migration keeps the store key. */
  lemma MigratePreservesKey(o: PurchaseOld)
    ensures GetMigratedId(Migrate(o)) == GetOldId(o)
  {
    assert Forget(Migrate(o)).id == o.id;
  }

  /** The old layout is the layout of `Purchase`: reading an old record as one. */
  function AsPurchase(o: PurchaseOld): Purchase {
    Purchase(
      o.id, o.customer, o.discountPercentage, o.items, o.uplInfoObjects,
      o.totalNet, o.totalVat, o.totalGross, o.documentKind, o.paymentKind,
      o.payments, o.balance, o.profitNet, o.ownerUid, o.storeId,
      o.dateCompletion, o.paymentDuedate, o.restored, o.createdBy, o.createdAt)
  }

  /** The two revisions agree on defaults: the default old purchase is the
      default purchase, an empty cash receipt that is not restored, and it
      migrates to a record with nothing payable. */
  lemma DefaultPurchaseOldMigrates(today: Day, now: Timestamp)
    ensures AsPurchase(DefaultPurchaseOld(today, now)) == DefaultPurchase(today, now)
    ensures IsEmptyLedger(AsPurchase(DefaultPurchaseOld(today, now)))
    ensures DefaultPurchaseOld(today, now).restored.None?
    ensures DefaultPurchaseOld(today, now).documentKind == Receipt
    ensures DefaultPurchaseOld(today, now).paymentKind == Cash
    ensures Migrate(DefaultPurchaseOld(today, now)).payable == 0
  {
  }
}

/** Schema migration of stored carts (src/migration/cart.rs): a cart of the
    older layout gains the `payable` figure. */
module CartMigration {
  import opened Util
  import opened Prims
  import opened Carts

  /** `CartOld`: the cart layout before `payable` was added. */
  datatype CartOld = CartOld(
    ancestor: Option<Uuid>,
    id: Uuid,
    customer: Option<Customer>,
    discountPercentage: Option<u32>,
    shoppingList: seq<ListItem>,
    uplsSku: seq<UplInfoObject>,
    uplsUnique: seq<UplInfoObject>,
    totalNet: u32,
    totalVat: u32,
    totalGross: u32,
    documentKind: DocumentKind,
    paymentKind: PaymentKind,
    payments: seq<Payment>,
    ownerUid: u32,
    storeId: Option<u32>,
    dateCompletion: Timestamp,
    paymentDuedate: Timestamp,
    createdBy: u32,
    createdAt: Timestamp)

  /** `Default for CartOld`. Both dates are midnight of `today` and the
      creation time is `now`; the caller reads the clock. */
  function DefaultCartOld(today: Day, now: Timestamp): CartOld {
    CartOld(
      ancestor := None,
      id := NIL_UUID,
      customer := None,
      discountPercentage := None,
      shoppingList := [],
      uplsSku := [],
      uplsUnique := [],
      totalNet := 0,
      totalVat := 0,
      totalGross := 0,
      documentKind := Receipt,
      paymentKind := Cash,
      payments := [],
      ownerUid := 0,
      storeId := None,
      dateCompletion := StartOfDay(today),
      paymentDuedate := StartOfDay(today),
      createdBy := 0,
      createdAt := now)
  }

  /** `VecPackMember::get_id` of the old layout. */
  function GetOldId(c: CartOld): Uuid {
    c.id
  }

  /** The old-layout record a cart is a migration of: the cart without its
      `payable` figure. */
  function Forget(c: Cart): CartOld {
    CartOld(
      c.ancestor, c.id, c.customer, c.discountPercentage, c.shoppingList,
      c.uplsSku, c.uplsUnique, c.totalNet, c.totalVat, c.totalGross,
      c.documentKind, c.paymentKind, c.payments, c.ownerUid, c.storeId,
      c.dateCompletion, c.paymentDuedate, c.createdBy, c.createdAt)
  }

  /** `From<CartOld> for Cart`: every field of the old record is kept, lists in
      order and content, and `payable` is the gross total cast to `i32`, so a
      gross total of 2^31 or more wraps to a negative amount. */
  function Migrate(o: CartOld): (c: Cart)
    ensures Forget(c) == o
    ensures (c.payable as int - o.totalGross as int) % 0x1_0000_0000 == 0
    ensures o.totalGross < 0x8000_0000 ==> c.payable as int == o.totalGross as int
    ensures o.totalGross >= 0x8000_0000 ==> c.payable as int == o.totalGross as int - 0x1_0000_0000
  {
    Cart(
      ancestor := o.ancestor,
      id := o.id,
      customer := o.customer,
      discountPercentage := o.discountPercentage,
      shoppingList := o.shoppingList,
      uplsSku := o.uplsSku,
      uplsUnique := o.uplsUnique,
      totalNet := o.totalNet,
      totalVat := o.totalVat,
      totalGross := o.totalGross,
      documentKind := o.documentKind,
      paymentKind := o.paymentKind,
      payments := o.payments,
      payable := AsI32(o.totalGross),
      ownerUid := o.ownerUid,
      storeId := o.storeId,
      dateCompletion := o.dateCompletion,
      paymentDuedate := o.paymentDuedate,
      createdBy := o.createdBy,
      createdAt := o.createdAt)
  }

  /** A migrated cart is determined by the old record: it is the only cart that
      forgets to that record and whose `payable` is the cast gross total. */
  lemma MigrateIsOnlyCompletion(o: CartOld, c: Cart)
    requires Forget(c) == o
    requires (c.payable as int - o.totalGross as int) % 0x1_0000_0000 == 0
    ensures c == Migrate(o)
  {
    AsI32Unique(o.totalGross, c.payable);
  }

  /** Migration keeps the store key, so a migrated cart replaces its old
      record under the same key. */
  lemma MigratePreservesKey(o: CartOld)
    ensures GetId(Migrate(o)) == GetOldId(o)
  {
    assert Forget(Migrate(o)).id == o.id;
  }

  /** The default old cart is an empty cash receipt with no ancestor, customer,
      discount or store, owned and created by nobody, completed and due at
      midnight of the day it is made, and it migrates to a cart with nothing
      payable. */
  lemma DefaultCartOldMigrates(today: Day, now: Timestamp)
    ensures var o := DefaultCartOld(today, now);
      && o.ancestor.None? && o.customer.None? && o.discountPercentage.None? && o.storeId.None?
      && o.shoppingList == [] && o.uplsSku == [] && o.uplsUnique == [] && o.payments == []
      && o.totalNet == 0 && o.totalVat == 0 && o.totalGross == 0
      && o.documentKind == Receipt && o.paymentKind == Cash
      && o.ownerUid == 0 && o.createdBy == 0 && o.createdAt == now
      && o.dateCompletion == StartOfDay(today) && o.paymentDuedate == StartOfDay(today)
      && Migrate(o).payable == 0 && GetId(Migrate(o)) == NIL_UUID
  {
  }
}

# Purchase service: conversions, cash rounding and VAT codes, in Dafny

This project models the pure core of a retail purchase service (a Rust gRPC
service for shop checkouts). It covers:

- **Closing a cart into a purchase** (`Prelude.ToPurchase`). An open cart
  has a shopping list of SKU lines. It also has two collections of unique
  product labels (UPLs): healthy labels that back shopping-list pieces, and
  depreciated or opened-product labels that are priced lines of their own.
  The purchase merges the shopping list and the unique labels into one item
  ledger, and it merges both label collections into one label list. It
  copies the identity, money and bookkeeping fields.
- **Wire views** of carts and purchases (`ToCartInfoObject`, `ToCartObject`,
  `ToPurchaseInfoObject`, `ToPurchaseObject`), and the mapping of service
  and store errors to gRPC status codes.
- **Cash rounding** of forint amounts to the nearest multiple of 5
  (`Rounding.RoundHuf`).
- **VAT codes**: parsing and printing the six Hungarian VAT categories
  (`Vat.FromStr`, `Vat.ToString`).
- **Record defaults** for purchases and their parts.
- **Schema migrations** that add a `payable` figure to stored carts and
  purchases (`CartMigration.Migrate`, `PurchaseMigration.Migrate`).

Everything here is a pure function over datatypes. The source has no state
that outlives a call in these parts, and no loops beyond `map`/`collect`.
Machine integers are the newtypes `u32` and `i32`. The `as i32` cast is
written out as a two's-complement reinterpretation (`Prims.AsI32`).

Some operations the conversions call have no code in the modelled files, and
some touch the outside world. They enter as parameters, and every property
holds whatever they compute:

- The cart and label methods the conversions call come in as the
  function-valued fields of `Carts.CartHelpers`. `get_balance` has the body
  `todo!()` (src/cart.rs:158-160). `get_profit_net`, `get_piece`,
  `get_price_net` and `get_price_gross` are defined in none of the modelled
  files.
- Today's date and the current time come in as `today` and `now`.
- The text forms of UUIDs and timestamps come in as `Prelude.Render`.

Where the code is incomplete or surprising, the model follows it as written:

- Every `CartMethods` body is `todo!()` (src/cart.rs:105-172), so the cart's
  mutation, totals and close-validation engine is not modelled.
- `ItemKind::SkuDepreciated` (src/purchase.rs:165) is never produced by the
  conversion: a depreciated SKU label is booked as a derived product
  (src/prelude.rs:266-270, `Prelude.DepreciatedSkuBecomesDerivedProduct`).
- The conversion gives every ledger line product id 0, because the
  catch-all match arm comes before the derived-product arm
  (`Prelude.NoSkuDepreciatedAndNoProductId`).
- The `payment_expired` flag is set while the due day still lies ahead
  (src/prelude.rs:418). It is modelled exactly as written
  (`Prelude.PaymentExpiredIsInverted`).
- The cart record follows the layout the conversions and the migration use:
  `CartOld` plus `payable`. It does not follow the differently shaped struct
  in src/cart.rs.

## Model

| member | source | states |
|---|---|---|
| `Rounding.RoundHuf` | src/rounding.rs:1-13 | The result is a multiple of 5 and within 2 of the amount. It never has the opposite sign of the amount. It fits in `i32` for every input except `i32::MIN`, so the `a + (10 - x)` branch cannot overflow. |
| `Rounding.RoundHufIsNearest` | src/rounding.rs:6-12 | `round_huf` equals an independent definition of the multiple of 5 nearest to the amount. |
| `Rounding.RoundHufUnique` | src/rounding.rs:6-12 | Any multiple of 5 within 2 of the amount is the one `round_huf` returns. |
| `Rounding.RoundHufOdd` | src/rounding.rs:2-5 | Sign symmetry: `round_huf(-n) == -round_huf(n)`. |
| `Rounding.RoundHufFixesMultiplesOf5` | src/rounding.rs:11 | Amounts ending in 0 or 5 are returned unchanged. |
| `Rounding.RoundHufIdempotent` | src/rounding.rs:1-13 | Rounding an already rounded amount changes nothing. |
| `Rounding.RoundHufSmallAmountsVanish` | src/rounding.rs:3-12 | Amounts from -2 to 2 round to 0, never across zero. |
| `Vat.FromStr` | src/vat.rs:21-34 | Accepts exactly AAM, aam, FAD, fad, TAM, tam, 5, 18 and 27. A lower-case code parses to the same rate as its upper-case form, so printing the parsed rate gives the input in upper case. Every other text, mixed case and "" included, gives the format error. |
| `Vat.ToString` | src/vat.rs:37-48 | The canonical code of each rate; `Vat.RoundTrip` and `Vat.ToStringInjective` state that it parses back and tells rates apart. |
| `Vat.Default` | src/vat.rs:14-18 | The default rate; `Vat.DefaultIsStandardRate` states it is 27% and prints as "27". |
| `Vat.RoundTrip` | src/vat.rs:21-48 | `from_str(v.to_string()) == Ok(v)` for every rate. |
| `Vat.LowerCaseParses` | src/vat.rs:22-32 | The lower-case form of every printed code parses to the same rate. |
| `Vat.ParseNormalises` | src/vat.rs:21-48 | The canonical text of a parsed code parses back to the same rate. |
| `Vat.ToStringInjective` | src/vat.rs:37-48 | Distinct rates print distinctly. |
| `Vat.RejectsMixedCaseAndEmpty` | src/vat.rs:32 | "Aam", "Tam" and "" are refused with the format error. |
| `Vat.DefaultIsStandardRate` | src/vat.rs:14-18 | The default rate is 27%; it prints as "27" and "27" parses to it. |
| `Purchases.DefaultPurchase` | src/purchase.rs:33-58 | The default purchase; `Purchases.DefaultPurchaseIsEmptyReceipt` states each of its fields. |
| `Purchases.GetId` | src/purchase.rs:60-66 | The store key of a purchase; `Purchases.DefaultPurchaseIsEmptyReceipt` and `Prelude.PurchaseCopiesCart` state its value. |
| `Purchases.DefaultPurchaseIsEmptyReceipt` | src/purchase.rs:33-66 | The default purchase has no items, labels, payments or totals, and zero balance and profit. It is a cash receipt with no customer, discount, store or restoration. Owner and creator are 0, its key is the nil UUID, both dates are midnight of `today` and the creation time is `now`. |
| `Purchases.DefaultPartsAreBlank` | src/purchase.rs:74-219 | The default ledger line is a `Sku` line with product id 0, empty name and VAT, and every piece count and price 0. The default label is a `Sku{0,0}` label with empty id, name and VAT, every price 0, not depreciated and with no best-before date. The default customer has id 0 and empty texts, the default payment an empty id and amount 0. The document kind defaults to Receipt and the payment kind to Cash. |
| `Purchases.DefaultItem` | src/purchase.rs:144-158 | The default ledger line; `Purchases.DefaultPartsAreBlank` states each of its fields. |
| `Purchases.DefaultUplInfoObject` | src/purchase.rs:191-205 | The default label; `Purchases.DefaultPartsAreBlank` states each of its fields. |
| `Prims.AsI32` | src/migration/cart.rs:83 | `x as i32` keeps the 32 bits of `x`. It equals `x` below 2^31 and is negative from 2^31 on. |
| `Prims.AsI32Unique` | src/migration/purchase.rs:48 | The cast is the only `i32` with the bits of its input. |
| `Prims.DayOf` | src/prelude.rs:418 | The day of a moment is the day whose 24 hours contain it. |
| `Prims.StartOfDay` | src/prelude.rs:383-384 | Midnight of a day falls on that day and precedes every other moment of it. |
| `Util.Map` | src/prelude.rs:89-93 | `iter().map(f).collect()` keeps the length and puts `f` of the i-th element at position i. |
| `Util.MapAppend` | src/prelude.rs:294-341 | Extending one collected label list by another collected with the same mapping is mapping the concatenation. |
| `Prelude.Message` | src/prelude.rs:39-48 | The text an error displays; `Prelude.ToStatusIsLossless` states it becomes the status message. |
| `Prelude.ToStatus` | src/prelude.rs:59-68 | The status of an error; `Prelude.ToStatusIsLossless` and `Prelude.ToStatusInjective` state that it is one-to-one and keeps the message. |
| `Prelude.ToStatusIsLossless` | src/prelude.rs:59-68 | Each error kind gets its own status code (a bad request becomes invalid argument). The message is kept, and the error can be read back from the status. |
| `Prelude.ToStatusInjective` | src/prelude.rs:59-68 | Distinct errors give distinct statuses. |
| `Prelude.FromPackError` | src/prelude.rs:70-77 | A missing object becomes NotFound and every other store error becomes InternalError, with the store error's text as the message. |
| `Prelude.FromVarError` | src/prelude.rs:81-85 | The error of a missing configuration key; `Prelude.StoreAndConfigurationStatuses` states it reaches the client as internal. |
| `Prelude.StoreAndConfigurationStatuses` | src/prelude.rs:59-85 | A store error reaches the client as not_found or internal, and a missing configuration key as internal. |
| `Prelude.ToPurchase` | src/prelude.rs:241-390 | Closing a cart into a purchase; `Prelude.LedgerLayout`, `Prelude.UniqueItemKinds`, `Prelude.NoSkuDepreciatedAndNoProductId` (the product ids), `Prelude.LabelsLayout` and `Prelude.PurchaseCopiesCart` state every field of the result. |
| `Prelude.PartMappingsAreLossless` | src/prelude.rs:296-378 | Document and payment kinds map variant for variant. Customers, payments and labels are copied whole: each mapping has a left inverse. |
| `Prelude.LedgerLayout` | src/prelude.rs:243-292 | The ledger holds one plain-SKU line per shopping-list line, in order, with name, pieces and unit and total prices copied. Then comes one line per unique label, with the label's name and prices and the piece count and totals from its own methods. The length is the sum of the two lengths. |
| `Prelude.UniqueItemKinds` | src/prelude.rs:262-275 | A unique label's line is DerivedProduct exactly when the label is depreciated or an opened product. It is Sku exactly when the label is a healthy SKU. |
| `Prelude.DepreciatedSkuBecomesDerivedProduct` | src/prelude.rs:266-270 | A depreciated SKU label is booked as DerivedProduct, not SkuDepreciated. |
| `Prelude.NoSkuDepreciatedAndNoProductId` | src/prelude.rs:248-282 | No line of a converted cart is SkuDepreciated. Every line has product id 0, derived products included. |
| `Prelude.LabelsLayout` | src/prelude.rs:294-341 | The purchase's labels read back as the healthy labels followed by the unique ones. Order, ids, kinds, prices, best-before dates and depreciation are all kept. |
| `Prelude.PurchaseCopiesCart` | src/prelude.rs:343-388 | The purchase keeps the cart's id (its store key), customer, discount, totals, document and payment kind, payments in order, owner, store and creation data. Balance and profit are the cart's own. The purchase is not restored, and both its dates are midnight of `today`. |
| `Prelude.ToCartInfoObject` | src/prelude.rs:87-115 | The cart summary; `Prelude.CartInfoSummarises` states its fields. |
| `Prelude.CartInfoSummarises` | src/prelude.rs:87-115 | The label count is the number of healthy plus unique labels. The item names are the shopping-list names followed by the unique-label names. The customer name is "" when there is no customer. The id and the creation moment are sent as their text, and owner and creator are copied. |
| `Prelude.ToCartObject` | src/prelude.rs:117-239 | The full cart message; `Prelude.CartObjectProjects` states its fields. |
| `Prelude.CartObjectProjects` | src/prelude.rs:117-239 | A missing ancestor becomes "", and a missing discount or store becomes 0. The customer, the shopping list and the payments read back whole and in order. Every label of both collections is shown in order with its id, name, prices, VAT, depreciation and a kind that reads back; its best-before date is the date's text, or "" when there is none. Totals, owner and creator are copied, and identifiers and moments are sent as their text. The invoice flag holds exactly for invoices, and the payment kind reads back. Balance and profit are the cart's own. |
| `Prelude.ToPurchaseInfoObject` | src/prelude.rs:392-425 | The purchase summary; `Prelude.PurchaseInfoSummarises` and `Prelude.PaymentExpiredIsInverted` state its fields. |
| `Prelude.PurchaseInfoSummarises` | src/prelude.rs:392-425 | The label count is the number of labels. The invoice flag holds exactly for invoices, and the restored flag exactly when `restored` is set. The customer reads back. Net, VAT and gross totals, balance, profit and creator are copied, and the id and moments are sent as their text. |
| `Prelude.PaymentExpiredIsInverted` | src/prelude.rs:418 | As written, "expired" is true before the due day and false on and after it. Once false, it stays false on later days. |
| `Prelude.ToPurchaseObject` | src/prelude.rs:427-495 | The full purchase message; `Prelude.PurchaseObjectProjects` states its fields. |
| `Prelude.PurchaseObjectProjects` | src/prelude.rs:427-495 | The customer, every ledger line (kind, product id, name, pieces, unit prices, VAT and totals) and every payment read back whole and in order; the line kind maps one to one. A missing discount or store becomes 0. No labels are sent, and every line's label ids are empty. Totals, payment kind, balance, profit, owner and creator are copied, and the id and moments are sent as their text. |
| `Prelude.SummariesAgreeAcrossClose` | src/prelude.rs:87-292 | After closing, the purchase summary counts as many labels as the cart summary did. The ledger lines carry the cart summary's item names, in order. |
| `Prelude.ClosedCartMessage` | src/prelude.rs:447-452 | The message of a closed cart's purchase never shows a depreciated-SKU line or a product id other than 0. |
| `CartMigration.Migrate` | src/migration/cart.rs:67-92 | Every old field is kept, lists in order and content. `payable` is the gross total cast to `i32`: equal below 2^31, reduced by 2^32 from there on. |
| `CartMigration.MigrateIsOnlyCompletion` | src/migration/cart.rs:67-92 | The migrated cart is the only cart that keeps all old fields and has the cast gross total as `payable`. |
| `CartMigration.MigratePreservesKey` | src/migration/cart.rs:59-71 | The migrated cart has the store key of the old record. |
| `CartMigration.DefaultCartOld` | src/migration/cart.rs:33-57 | The default old cart; `CartMigration.DefaultCartOldMigrates` states its fields. |
| `CartMigration.GetOldId` | src/migration/cart.rs:59-65 | The store key of an old cart; `CartMigration.MigratePreservesKey` states that migration keeps it. |
| `Carts.GetId` | src/cart.rs:97-103 | The store key of a cart; `CartMigration.MigratePreservesKey` and `Prelude.PurchaseCopiesCart` state how it is kept. |
| `CartMigration.DefaultCartOldMigrates` | src/migration/cart.rs:33-57 | The default old cart has no ancestor, customer, discount or store, empty lists and zero totals, and is a cash receipt. Owner and creator are 0, both dates are midnight of `today` and the creation time is `now`. It migrates to a cart with `payable` 0 under the nil key. |
| `PurchaseMigration.Migrate` | src/migration/purchase.rs:34-60 | Every old field is kept, ledger, labels, payments and restoration included. `payable` is the gross total cast to `i32`. |
| `PurchaseMigration.BalanceIsNotRecomputed` | src/migration/purchase.rs:48-50 | Balance and profit are copied and do not depend on the new `payable`. |
| `PurchaseMigration.MigratePreservesKey` | src/migration/purchase.rs:89-95 | The migrated purchase has the store key of the old record. |
| `PurchaseMigration.DefaultPurchaseOld` | src/migration/purchase.rs:62-87 | The default old purchase; `PurchaseMigration.DefaultPurchaseOldMigrates` states it equals the default purchase. |
| `PurchaseMigration.GetOldId` | src/migration/purchase.rs:89-95 | The store key of an old purchase; `PurchaseMigration.MigratePreservesKey` states that migration keeps it. |
| `PurchaseMigration.DefaultPurchaseOldMigrates` | src/migration/purchase.rs:62-87 | The default old purchase is the default purchase: an empty, unrestored cash receipt. It migrates to a record with `payable` 0. |

## Left out

- The cart operations in src/cart.rs (new, add/remove SKU and label, setters, balance, profit, can_close, close_cart) are not modelled: every body is `todo!()`. The same goes for the struct and `Default` in that file, whose shape disagrees with the one the conversions use.
- Request handlers, the mutex-guarded record stores, streaming of bulk reads and the close orchestration in src/main.rs are not modelled. They are transport, persistence and concurrency.
- The disk load/insert loop of src/bin/migration.rs is not modelled.
- Multiplying an amount by a VAT rate (`impl Mul<VAT> for u32`) is not modelled: it is single-precision floating point followed by rounding.
- Clock reads (`Utc::now`, `Utc::today`) are not modelled. They are the parameters `now` and `today`. The source reads the clock separately for each date (src/prelude.rs:383-384, and in each `Default`); the model takes one `today` for both, so a conversion or default that spans midnight is not modelled. A timestamp is whole seconds, so sub-second precision is not modelled.
- The text forms of UUIDs and of RFC 3339 dates are not modelled. They are the parameter `Prelude.Render`, so the views are stated for any rendering.
- The cart and label methods whose code is not part of this model (`get_piece`, `get_price_net`, `get_price_gross`, `get_balance`, `get_profit_net`) are not modelled. They are the parameter `Carts.CartHelpers`.
- The store's error type keeps only the distinction the service makes: a missing object, or any other failure. Its message text is the parameter `display`.
- The `Debug` formatting of `ServiceError` is not modelled. The convenience constructors (`internal_error`, `not_found`, `already_exist`, `bad_request`) are the datatype's constructors.
- Payment and item kinds on the wire stay datatypes. Their `as i32` enum numbers belong to the generated protocol code, which is not part of this model.
- Prelude.ToPurchaseInfoObject: `upl_count` is an unbounded count. The source casts the label list's length to `u32` (src/prelude.rs:407), which truncates only past 2^32 labels.
- Prelude.ToCartInfoObject: `upl_count` is an unbounded count. The source adds two lengths cast to `u32`, which could only overflow past 2^32 labels.
- Rounding.RoundHuf: `i32::MIN` is excluded by its precondition, because `n.abs()` overflows on it.

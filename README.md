# FoodHub orders — a verified model of the order core

This project models the order core of the FoodHub ordering service in Dafny:

- the `Order` aggregate (module `Orders`, `order.dfy`):
  - its status state machine (`status_machine.dfy`);
  - the guard that freezes delivered and cancelled orders;
  - the pricing rule: subtotal, a 10 % coupon discount rounded to cents half away from zero, and a total clamped at zero (`pricing.dfy`);
  - the version counter and the queue of domain events;
  - `Create`, `Rehydrate` and every mutator.
- the `OrderItem` line and its validation (`order_item.dfy`).
- the document mapper between an order and its stored form (`document_mapper.dfy`).
- the Mongo-backed repository (`repository.dfy`). Its `UpdateAsync` is a compare-and-swap on (id, version) that tells a missing order apart from a concurrent update.

The two .NET string helpers the core relies on, `string.IsNullOrWhiteSpace` and `string.Trim`, are modelled in `text.dfy`.

How the model is built:

- `Order` and `OrderItem` are classes whose methods update fields in place.
  - Each mutator returns an `Outcome`: `Pass`, or `Fail` with the error the source throws (validation, business rule, not found, conflict).
  - Each mutator states its whole new state through `State()` and keeps the invariant `Valid()`. `Valid()` says that the stored total always equals the pricing rule applied to the lines, fee and coupon.
- The validation performed by `Create` and `Rehydrate` is given as pure functions returning a `Result`. These are `CreateState` and `RehydrateState`, and the static methods allocate exactly the order they describe.
- Money is an exact `real`, as C# `decimal` is exact in base ten. The version is a 32-bit integer.
- A null reference argument is `None`.
- The store is a map from order id to document. Its methods are proved against pure functions over that map: `StoreInsert`, `StoreReplace`, `StoreDelete` and `StoreDeleteByCode`.

Behaviour of the code worth noting:

- `Rehydrate` accepts an empty list of lines; only `Create` requires at least one (`Order.cs:193-198`).
- `Cancel` on an order that is already cancelled does not fail (`Order.cs:311-320`). It reaches `ChangeStatus(Cancelled)`, which returns early because the status is unchanged, and then queues `OrderCancelled` again, without a version change.
- The mapper writes and reads a coupon's discount amount (`OrderDocumentMapper.cs:46`, `:67`), while `CouponDocument.cs` declares only the code. The model's coupon document carries both fields, as the mapper uses them.

## Model

| member | source | states |
|---|---|---|
| Text.IsBlank | FoodHub.Orders.Domain/Order.cs:90 | `string.IsNullOrWhiteSpace`: the empty string is blank and a string starting with a visible character is not; `TrimEmptyIffBlank` states the full characterisation |
| Text.Trim | FoodHub.Orders.Domain/Order.cs:130 | `string.Trim()` is never longer than its argument and leaves a string with no white space at either end as it is; `TrimSpec` and `TrimIdempotent` state the rest |
| Text.TrimSpec | FoodHub.Orders.Domain/Order.cs:130 | `Trim` removes exactly a blank prefix and a blank suffix, and leaves a string with no white space at either end |
| Text.TrimEmptyIffBlank | FoodHub.Orders.Domain/Order.cs:90 | a string is blank (`IsNullOrWhiteSpace`) exactly when trimming leaves nothing |
| Text.TrimIdempotent | FoodHub.Orders.Domain/Order.cs:130 | trimming twice is trimming once |
| Text.TrimNonBlank | FoodHub.Orders.Domain/Order.cs:90-92 | a non-blank code stays non-blank after trimming, is trimmed, and is a fixed point of `Trim` |
| Items.CheckAmounts | FoodHub.Orders.Domain/Entities/OrderItem.cs:15-28 | passes exactly when quantity > 0, price >= 0 and add-ons >= 0; otherwise a validation error, the quantity message first |
| Items.NewLine | FoodHub.Orders.Domain/Entities/OrderItem.cs:8-36 | the constructor: a missing product is rejected first; it succeeds exactly on valid amounts and then keeps every input and sets total = quantity × price + add-ons |
| Items.LineTotal | FoodHub.Orders.Domain/Entities/OrderItem.cs:74-77 | for a non-negative quantity and price the total is at least the add-ons, and for a quantity of at least one at least one unit price plus the add-ons |
| Items.LineTotalBounds | FoodHub.Orders.Domain/Entities/OrderItem.cs:15-28 | for validated inputs the line total is >= add-ons >= 0 and >= the unit price |
| Items.LineTotalExample | FoodHub.Orders.Domain/Entities/OrderItem.cs:74-77 | 2 × 10 + 3 = 23 |
| Items.OrderItem.constructor | FoodHub.Orders.Domain/Entities/OrderItem.cs:30-35 | assigns the validated fields and the computed total |
| Items.OrderItem.New | FoodHub.Orders.Domain/Entities/OrderItem.cs:8-36 | fails exactly as `NewLine` does, with its error; on success a fresh valid item equal to `NewLine`'s line |
| Items.OrderItem.Update | FoodHub.Orders.Domain/Entities/OrderItem.cs:50-72 | the same checks as the constructor; on failure nothing changes; on success the four inputs are replaced, the total is recomputed, the product is kept and the invariant holds |
| StatusMachine.AllowedTransitions | FoodHub.Orders.Domain/Order.cs:10-19 | no self-transition; every transition raises the rank; only Delivered and Cancelled have no successor; Cancelled is reachable from every other status |
| StatusMachine.RunRankGrows | FoodHub.Orders.Domain/Order.cs:10-19 | along a chain of allowed transitions the rank grows by at least one per step |
| StatusMachine.RunIsShort | FoodHub.Orders.Domain/Order.cs:10-19 | an order changes status effectively at most four times |
| StatusMachine.RunVisitsEachStatusOnce | FoodHub.Orders.Domain/Order.cs:10-19 | no status is visited twice |
| StatusMachine.TerminalIsAbsorbing | FoodHub.Orders.Domain/Order.cs:17-18 | no transition leaves Delivered or Cancelled |
| StatusMachine.FulfilmentIsARun | FoodHub.Orders.Domain/Order.cs:13-16 | Pending → Confirmed → InPreparation → Ready → Delivered is allowed |
| Pricing.Round2 | FoodHub.Orders.Domain/Order.cs:360 | the rounded amount has the sign of its argument and is at most half a cent larger in size; `Round2Spec` adds whole cents and the tie rule |
| Pricing.Subtotal | FoodHub.Orders.Domain/Order.cs:345 | the sum of the line totals, never negative for valid lines; `SubtotalAppend` and `SubtotalRemove` state how it follows the list |
| Pricing.DiscountValue | FoodHub.Orders.Domain/Order.cs:351-361 | zero without a coupon or with a blank coupon code; for a non-negative base, between zero and 10 % of subtotal plus fee plus half a cent; `Round2Spec`, `DiscountWithinBase` and `TotalFormula` state the rounding and that it never exceeds the base |
| Pricing.OrderTotal | FoodHub.Orders.Domain/Order.cs:345-348 | never negative, never below subtotal + fee − discount, and never above subtotal + fee when that is non-negative; `TotalFormula` states it exactly for valid orders |
| Pricing.RoundCentsUpSpec | FoodHub.Orders.Domain/Order.cs:360 | rounding a non-negative amount gives whole cents within half a cent, a tie going up |
| Pricing.Round2Spec | FoodHub.Orders.Domain/Order.cs:360 | `Math.Round(x, 2, AwayFromZero)` gives whole cents within half a cent of x, ties away from zero, with the sign of x |
| Pricing.SubtotalAppend | FoodHub.Orders.Domain/Order.cs:345 | the subtotal of two lists of lines is the sum of their subtotals |
| Pricing.SubtotalRemove | FoodHub.Orders.Domain/Order.cs:255-257 | removing a line takes exactly its total off the subtotal |
| Pricing.SubtotalNonNegative | FoodHub.Orders.Domain/Order.cs:345 | valid lines have a non-negative subtotal |
| Pricing.DiscountWithinBase | FoodHub.Orders.Domain/Order.cs:358-360 | the rounded 10 % of a non-negative base lies between 0 and the base |
| Pricing.TotalFormula | FoodHub.Orders.Domain/Order.cs:343-361 | for valid lines and fee: total = subtotal + fee − discount with the clamp inactive; without a discounting coupon the total is subtotal + fee; with one it is within half a cent of 90 % of it |
| Pricing.TotalNeverNegative | FoodHub.Orders.Domain/Order.cs:348 | the total is never negative, whatever the inputs |
| Pricing.ExampleTotal27 | FoodHub.Orders.Tests/Domain/OrderTests.cs:13-31 | lines 2 × 10 + 1 and 1 × 5, fee 4, coupon: subtotal 26, discount 3, total 27 |
| Pricing.ExampleTenPercent | FoodHub.Orders.Tests/Domain/OrderTests.cs:35-74 | 1 × 10 with fee 5: discount 1.50 and total 13.50 with a coupon, 0 and 15 without |
| Pricing.ExampleCouponAmountIgnored | FoodHub.Orders.Domain/Order.cs:351-361 | the coupon's own amount plays no part: 20 off a base of 5 still takes 10 %, giving a total of 4.50 |
| Orders.Unwrap | FoodHub.Orders.Domain/Order.cs:115 | the list of present lines keeps length and order |
| Orders.CreateState | FoodHub.Orders.Domain/Order.cs:80-143 | succeeds exactly for a non-blank code, both snapshots, a fee >= 0, no blank coupon code and a non-empty list without nulls; every failure is a validation error; with an empty list the error is "Order must contain at least one item."; on success a well-formed Pending order at version 0 with the trimmed code and at least one line |
| Orders.RehydrateState | FoodHub.Orders.Domain/Order.cs:145-212 | the same checks plus a non-empty id and a version >= 0, without the non-empty-list check; keeps the given status and version; the id check comes first |
| Orders.EnsureModifiable | FoodHub.Orders.Domain/Order.cs:405-416 | passes exactly when the status still has a successor (not Delivered or Cancelled); otherwise a business-rule error |
| Orders.IndexOfProduct | FoodHub.Orders.Domain/Order.cs:249 | none exactly when no line has the product id; otherwise the first such line |
| Orders.Order.constructor | FoodHub.Orders.Domain/Order.cs:24-50 | the order holds the given state, no event, and a total matching the pricing rule |
| Orders.Order.Create | FoodHub.Orders.Domain/Order.cs:80-143 | fails exactly as `CreateState`; on success a fresh valid order in that state whose only event is OrderCreated |
| Orders.Order.Rehydrate | FoodHub.Orders.Domain/Order.cs:145-212 | fails exactly as `RehydrateState`; on success a fresh valid order in that state with no event |
| Orders.Order.AddItem | FoodHub.Orders.Domain/Order.cs:214-228 | a null line is rejected before the guard; a terminal order is rejected and unchanged; otherwise the line is appended, version + 1, OrderUpdated queued, total kept in step |
| Orders.Order.RemoveItemByProductId | FoodHub.Orders.Domain/Order.cs:230-261 | blank id, then the guard, then "Order cannot have zero items." for a lone matching line, then "Item not found for the product."; succeeds exactly when a match exists and at least two lines are present; removes only the first match keeping the rest in order, version + 1, ItemRemoved then OrderUpdated; a non-empty order stays non-empty |
| Orders.Order.ApplyCoupon | FoodHub.Orders.Domain/Order.cs:263-282 | null coupon, then blank code, then the guard; on success the coupon is replaced, version + 1, OrderUpdated queued |
| Orders.Order.ChangeStatus | FoodHub.Orders.Domain/Order.cs:284-309 | passes exactly for the current status or an allowed target; the current status changes nothing; a target outside the table fails with "Invalid status transition from X to Y." and changes nothing; otherwise status set, version + 1, StatusChanged, OrderConfirmed (only for Confirmed) and OrderUpdated in that order |
| Orders.Order.Cancel | FoodHub.Orders.Domain/Order.cs:311-320 | Delivered: fails and changes nothing; Cancelled: passes, state unchanged, OrderCancelled queued; otherwise status Cancelled, version + 1, StatusChanged, OrderUpdated, OrderCancelled |
| Orders.Order.UpdateDeliveryFee | FoodHub.Orders.Domain/Order.cs:322-341 | a negative fee is rejected before the guard; the current fee changes nothing; otherwise fee replaced, version + 1, OrderUpdated queued |
| Orders.Order.RecalculateTotals | FoodHub.Orders.Domain/Order.cs:343-349 | the stored total becomes the pricing rule's total; nothing else changes |
| Orders.Order.Discount | FoodHub.Orders.Domain/Order.cs:68 | the discount of a valid order, recomputed on every read, lies between zero and a tenth of subtotal plus fee, give or take half a cent |
| Orders.Order.MarkUpdated | FoodHub.Orders.Domain/Order.cs:363-366 | queues OrderUpdated and changes nothing else |
| Orders.Order.DequeueDomainEvents | FoodHub.Orders.Domain/Order.cs:368-373 | returns the pending events in the order they were queued and leaves none |
| Orders.Order.IncrementVersion | FoodHub.Orders.Domain/Order.cs:397-403 | version + 1 within the 32-bit range, nothing else changes |
| DocumentMapping.FromDomain | FoodHub.Orders.Data/Mapping/OrderDocumentMapper.cs:10-54 | the document keeps the order's id, version and number of lines; for a valid order the stored discount is non-negative and the stored total is the pricing rule on the order's lines, fee and coupon; `RoundTrip` and `StoredTotalsAgree` state the rest |
| DocumentMapping.ItemsToDocuments | FoodHub.Orders.Data/Mapping/OrderDocumentMapper.cs:27-39 | lines map one to one and in order, carrying product, quantity, price, add-ons, notes and total |
| DocumentMapping.CouponToDocument | FoodHub.Orders.Data/Mapping/OrderDocumentMapper.cs:41-47 | the document's coupon is null exactly when the order's is |
| DocumentMapping.CouponFromDocument | FoodHub.Orders.Data/Mapping/OrderDocumentMapper.cs:65-67 | the order's coupon is null exactly when the document's is |
| DocumentMapping.ItemsFromDocuments | FoodHub.Orders.Data/Mapping/OrderDocumentMapper.cs:58-63 | succeeds exactly when every stored line passes the item constructor; then the lines are valid, one per stored line and in order |
| DocumentMapping.ToDomainState | FoodHub.Orders.Data/Mapping/OrderDocumentMapper.cs:56-81 | a document with a negative version never reads back; a document that does gives a well-formed order with its id, status and version |
| DocumentMapping.ToDomain | FoodHub.Orders.Data/Mapping/OrderDocumentMapper.cs:56-81 | fails exactly when the rebuilt lines or `Rehydrate` fail; on success a fresh valid order with the document's id, status and version and no pending event |
| DocumentMapping.ToDomainKeepsIdentity | FoodHub.Orders.Data/Mapping/OrderDocumentMapper.cs:69-80 | a document read back gives a well-formed order with its id, status, version, fee and trimmed code, and a coupon exactly when it has one |
| DocumentMapping.ToDomainIgnoresStoredTotals | FoodHub.Orders.Data/Mapping/OrderDocumentMapper.cs:56-81 | the stored discount and total are never read: the totals are recomputed |
| DocumentMapping.StoredTotalsAgree | FoodHub.Orders.Data/Mapping/OrderDocumentMapper.cs:48-49 | the stored discount and total are the pricing rule applied to the stored lines, fee and coupon |
| DocumentMapping.ItemsRoundTrip | FoodHub.Orders.Data/Mapping/OrderDocumentMapper.cs:27-39 | valid lines written and read back are the same lines |
| DocumentMapping.CouponRoundTrip | FoodHub.Orders.Data/Mapping/OrderDocumentMapper.cs:41-47 | a coupon written and read back is the same coupon |
| DocumentMapping.RoundTripAtVersion | FoodHub.Orders.Data/Mapping/OrderDocumentMapper.cs:10-81 | an order written with any non-negative version reads back as the same order at that version |
| DocumentMapping.RoundTrip | FoodHub.Orders.Data/Mapping/OrderDocumentMapper.cs:10-81 | `ToDomain(FromDomain(o))` has o's id, code, lines, fee, coupon, status, version, and therefore its total |
| Repository.StoreInsert | FoodHub.Orders.Data/Repositories/OrderRepository.cs:19-24 | succeeds exactly when neither the id nor the code is present (unique index); then exactly that document is added |
| Repository.StoreReplace | FoodHub.Orders.Data/Repositories/OrderRepository.cs:84-105 | replaces exactly when the id is stored with the expected version and no other document holds its code (otherwise DuplicateKey); a missing id is NotFound, a version mismatch is ConcurrencyConflict; other documents untouched |
| Repository.StoreDelete | FoodHub.Orders.Data/Repositories/OrderRepository.cs:110-117 | succeeds exactly when the id is stored, removing only it; otherwise NotFound |
| Repository.StoreDeleteByCode | FoodHub.Orders.Data/Repositories/OrderRepository.cs:119-126 | succeeds exactly when some document has the code, removing the documents with it and keeping the others; otherwise NotFound |
| Repository.DeleteByCodeRemovesOne | FoodHub.Orders.Data/Repositories/OrderRepository.cs:119-133 | under the unique index exactly one document is deleted by code |
| Repository.InsertKeepsInvariant | FoodHub.Orders.Data/Repositories/OrderRepository.cs:19-24 | an insert keeps ids as keys, readable documents and unique codes |
| Repository.ReplaceKeepsInvariant | FoodHub.Orders.Data/Repositories/OrderRepository.cs:84-91 | a replacement keeps the store invariant |
| Repository.DeleteKeepsInvariant | FoodHub.Orders.Data/Repositories/OrderRepository.cs:110-117 | a delete by id keeps the store invariant |
| Repository.DeleteByCodeKeepsInvariant | FoodHub.Orders.Data/Repositories/OrderRepository.cs:119-126 | a delete by code keeps the store invariant |
| Repository.UpdateDocument | FoodHub.Orders.Data/Repositories/OrderRepository.cs:81-82 | the written document has the order's id and code and version + 1 |
| Repository.WrappedVersionIsUnreadable | FoodHub.Orders.Data/Repositories/OrderRepository.cs:81-82 | for a valid order at version 2^31 − 1, the unchecked `order.Version + 1` writes a negative version, and reading that document back fails with "Version must be non-negative." |
| Repository.LostUpdateIsRejected | FoodHub.Orders.Data/Repositories/OrderRepository.cs:82-104 | two copies read at version N updated in turn: the first succeeds and leaves N + 1, the second is a ConcurrencyConflict |
| Repository.BuildFilters | FoodHub.Orders.Data/Repositories/OrderRepository.cs:47-71 | the filter list selects exactly the documents the criteria describe; it is empty exactly when no criterion is given (a blank code counts as none) |
| Repository.OrderRepository.constructor | FoodHub.Orders.Data/Repositories/OrderRepository.cs:13-17 | binds to the existing collection, keeping every document it holds; the store invariant holds from the start |
| Repository.OrderRepository.Add | FoodHub.Orders.Data/Repositories/OrderRepository.cs:19-24 | inserts as `StoreInsert` does and returns the order read back, equal to the order added; a duplicate id or code leaves the store unchanged |
| Repository.OrderRepository.GetById | FoodHub.Orders.Data/Repositories/OrderRepository.cs:26-31 | an order exactly when the id is stored, namely the stored document read back |
| Repository.OrderRepository.GetByCode | FoodHub.Orders.Data/Repositories/OrderRepository.cs:33-38 | an order exactly when some stored document has that exact code, namely that document read back |
| Repository.OrderRepository.Search | FoodHub.Orders.Data/Repositories/OrderRepository.cs:40-77 | a stored order is returned exactly when its document meets every supplied criterion; nothing else is returned; with no criterion, every stored order |
| Repository.OrderRepository.Update | FoodHub.Orders.Data/Repositories/OrderRepository.cs:79-108 | writes as `StoreReplace` with version + 1 against the order's version; on success returns the order at version + 1; on failure returns the error and leaves the store unchanged |
| Repository.OrderRepository.Delete | FoodHub.Orders.Data/Repositories/OrderRepository.cs:110-117 | removes as `StoreDelete`; NotFound leaves the store unchanged |
| Repository.OrderRepository.DeleteByCode | FoodHub.Orders.Data/Repositories/OrderRepository.cs:119-126 | removes the one document with the code; NotFound leaves the store unchanged |

## Left out

- The web layer (controllers, middleware, request and response contracts, start-up) holds no domain logic.
- The MongoDB driver is modelled by a map with sequential operations:
  - asynchrony and cancellation tokens are left out;
  - so is the window between `ReplaceOneAsync` and `CountDocumentsAsync`, in which another writer could delete the order. A lost update is expressed as two sequential calls.
- `Guid.NewGuid()` becomes an id parameter of `CreateState` and `Order.Create`. `DateTime.UtcNow` event timestamps and the order snapshot carried by each event are not kept: events are tags, with the (previous, current) pair for a status change and the product for a removed line.
- Orders.Order.AddItem: requires a version below 2^31 − 1, so the `checked` overflow of `IncrementVersion` is excluded rather than modelled.
- Orders.Order.RemoveItemByProductId: requires a version below 2^31 − 1, so the `checked` overflow of `IncrementVersion` is excluded rather than modelled.
- Orders.Order.ApplyCoupon: requires a version below 2^31 − 1, so the `checked` overflow of `IncrementVersion` is excluded rather than modelled.
- Orders.Order.ChangeStatus: requires a version below 2^31 − 1, so the `checked` overflow of `IncrementVersion` is excluded rather than modelled.
- Orders.Order.Cancel: requires a version below 2^31 − 1, so the `checked` overflow of `IncrementVersion` is excluded rather than modelled.
- Orders.Order.UpdateDeliveryFee: requires a version below 2^31 − 1, so the `checked` overflow of `IncrementVersion` is excluded rather than modelled.
- Orders.Order.IncrementVersion: requires a version below 2^31 − 1, so the `checked` overflow of `IncrementVersion` is excluded rather than modelled.
- Repository.OrderRepository.Update: requires the order's version to be below 2^31 − 1 and returns the state read back rather than a fresh `Order` object. In the source, `order.Version + 1` (`OrderRepository.cs:82`) is unchecked: at 2^31 − 1 it wraps to −2^31, that negative version is written, and the `ToDomain` that follows fails with "Version must be non-negative.". `WrappedVersionIsUnreadable` shows the failing read; the write of the unreadable document is not modelled.
- `decimal` is modelled as an exact `real`, so its 28-digit precision limit and overflow are not modelled.
- Lines inside an order are immutable values. An `OrderItem` that is shared with an order and later changed through `OrderItem.Update` would, in the source, change the order's lines without recomputing its total; that aliasing is not captured.
- Null strings (a null code, product id or note text) are not modelled; a null argument of a snapshot, line, coupon or list type is `None`. A null list of lines given to `Create` or `Rehydrate` behaves as an empty list in the source and is not a separate case here.
- `char.IsWhiteSpace` is modelled by the fixed set of white-space code points. Other Unicode behaviour (surrogates, culture) plays no part.
- Repository.OrderRepository.Search: returns a set of orders, so the order of the results and duplicates are not modelled.
- Repository.OrderRepository.GetById: returns the state of the order read back (the `ToDomainState` of the document) rather than a fresh `Order` object; `DocumentMapping.ToDomain` shows the object that state becomes.
- Repository.OrderRepository.GetByCode: returns the state of the order read back (the `ToDomainState` of the document) rather than a fresh `Order` object; `DocumentMapping.ToDomain` shows the object that state becomes.
- Repository.OrderRepository.Add: returns the state of the order read back (the `ToDomainState` of the document) rather than a fresh `Order` object; `DocumentMapping.ToDomain` shows the object that state becomes.
- Repository.OrderRepository.constructor: requires the existing collection to satisfy the store invariant: every document sits under its own id and reads back through `ToDomain`, and no two documents share a code. A document that fails `ToDomain` (a line with quantity 0, a negative version) makes `GetByIdAsync`, `GetByCodeAsync` and `SearchAsync` throw in the source (`OrderRepository.cs:30`, `:37`, `:76`); that failing read is not modelled. Such documents are not written by this repository at versions below 2^31 − 1 (`InsertKeepsInvariant`, `ReplaceKeepsInvariant`). Creating the unique index is modelled only as the `UniqueCodes` part of the invariant.
- Repository.StoreDeleteByCode: removes every document with the code rather than the first. `DeleteByCodeRemovesOne` shows that under the unique code index this is exactly one document.
- The constructors of `ProductSnapshot`, `CustomerSnapshot`, `RestaurantSnapshot` and `Coupon`, called by the mapper (`OrderDocumentMapper.cs:59`, `:67`, `:73-74`), are not part of this model. Any checks they make are not modelled, so `ToDomain` fails only on the line checks of `OrderItem` and the checks of `Rehydrate`.
- The order type has the two variants `Delivery` and `Pickup`. FoodHub.Orders.Domain/ValueObjects is not part of this model; the type is only copied and compared.

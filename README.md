# Shop order endpoint — a Dafny model

This project models the order endpoint of a small Django/REST-framework shop backend, together with the parts of
its data model and serializers the endpoint depends on.

The endpoint holds each user's **basket**: one order in status `basket`, whose lines pair an offer (a
shop-specific `ProductInfo`) with a quantity. A request can:

- fetch the basket, creating it if needed;
- add, change and remove lines with a POST of `(product_info, quantity)` entries, applied one at a time in list order;
- remove lines with a DELETE of offer ids.

**Confirm** runs four ordered checks: the user has a basket, it has lines, a contact id is given, and the contact
belongs to the user. It then binds the contact and moves the order to status `new`.

The files follow the program's own structure:

- `models.dfy` (module `Models`): the six order statuses and their stored codes, and the order, line, offer, parameter
  and contact rows. It also holds the unique constraints of the schema as guarded inserts, and the "contact deleted ⇒
  contact cleared" rule. The line table is a sequence of rows. `Lines(items, o)` gives order `o`'s lines as a map
  from offer to quantity, `OrderedItems` gives its rows, and line and order totals are computed from them.
- `serializers.dfy` (module `Serializers`): the accumulator loop that computes an order's `total_sum`, and the
  read-only field sets of the order and line serializers. From these it follows which request fields a generic
  create or update keeps.
- `views.dfy` (module `Views`):
  - the request payloads and the pure meaning of a basket request (`PostOutcome`, `BasketOutcome`), with lemmas
    about it;
  - a `Store` class with the orders, the line table and the contacts as fields. Its methods are the endpoint's
    actions, each proved against those functions.
- `order_tests.dfy` (module `OrderTests`): the three scenarios of the endpoint's test suite (without the assertion
  about the notification task), and two basket scenarios taken from the view. Each is a method on a fresh store.
  The confirmation scenario also states what the next basket request does.

Decisions where the sources disagree:

- The view filters orders on a field named `state`, but the model's column is `status`, and the tests use `status`.
  The model has one status field. Confirm also assigns `basket.state = 'new'`, which as written sets a plain
  attribute and leaves the `status` column as it was. The model reads that assignment as the write of the status
  column (`Store.Confirm` moves the basket to `New`), as the tests expect. The order serializer's `state` and `dt`
  are read as `status` and the creation timestamp.
- `Order.total_sum` sums over a related name (`items`) that the line model does not declare (its related name is
  `ordered_items`). The model takes the serializer's summation over `ordered_items` as the definition of an order's
  total.
- Confirm does not dispatch any notification in the model. The view calls a synchronous mail helper, and a test
  expects an asynchronous task instead.
- Order lookups that match more than one basket raise in the source (`MultipleObjectsReturned`). This outcome is
  modelled as `Err(MultipleBaskets)`. "At most one basket per user" is kept as a separate predicate
  (`Store.AtMostOneBasket`) rather than in `Store.Valid`, because the generic create of the viewset can create a
  second basket (`Store.CreateOrder` proves it does).
- The basket is fetched or created before the request method is examined, so a malformed POST or DELETE still
  creates the basket.
- An id counts as given when it is present and not 0, which is Python truthiness on an integer id.
- Prices are integer cents.

## Model

| member | source | states |
|---|---|---|
| Models.ParseStatus | shop/models.py:180-194 | a stored code reads back as the status whose code it is, and as none exactly when no status has that code |
| Models.StatusChoices | shop/models.py:180-207 | every status's code reads back as that status and fits the 16-character column |
| Models.InsertOffer | shop/models.py:119 | inserting an offer fails exactly when another offer has the same (shop, external id); otherwise it adds just that row, and uniqueness is preserved |
| Models.InsertParameter | shop/models.py:154 | inserting a parameter value fails exactly when the offer already has a value for that parameter; otherwise it adds just that row, and uniqueness is preserved |
| Models.NewOrder | shop/models.py:202-207 | a new order belongs to its creator, has no contact, and stores the status code "basket" |
| Models.ClearContact | shop/models.py:208-215 | deleting a contact keeps every order, and only the contact of the orders that referred to it becomes none |
| Models.OrderedItems | shop/models.py:233-238 | an order's rows are exactly the table rows that refer to it |
| Models.Lines | shop/models.py:232-250 | an order's line map has an entry for an offer exactly when the table holds a line of that order for that offer |
| Models.FindLine | shop/views.py:127-131 | the lookup finds a line of that order and offer, or there is none |
| Models.NoLines | shop/views.py:72-75 | an order with no rows in the table, such as a freshly created basket, has no lines |
| Models.LinesAt | shop/models.py:250 | with unique (order, offer) lines, the map holds each row's own quantity |
| Models.LinesAppend | shop/views.py:127-131 | creating a line for an offer the order does not hold adds exactly that entry |
| Models.LinesUpdate | shop/views.py:132-134 | saving a new quantity on an existing line changes exactly that entry |
| Models.UniqueLinesAppend | shop/views.py:127-131 | creating a line for an offer the order does not hold keeps the (order, offer) pair unique |
| Models.UniqueLinesSetQuantity | shop/views.py:132-134 | saving a new quantity on a line keeps the (order, offer) pair unique |
| Models.DropLines | shop/views.py:120-123 | the delete filter removes exactly the rows of that order whose offer is listed |
| Models.LinesDrop | shop/views.py:155-158 | the delete filter removes exactly the listed offers from the order's line map |
| Models.OrderedItemsDrop | shop/views.py:155-158 | the delete filter leaves every other order's rows unchanged |
| Models.UniqueLinesDrop | shop/models.py:250 | deleting rows preserves the unique (order, offer) pair |
| Models.OrderedItemsConcat | shop/models.py:233-238 | an order's rows in two table segments are its rows in each, in order |
| Models.OrderedItemsUpdate | shop/views.py:132-134 | changing a line's quantity leaves every other order's rows unchanged |
| Models.OrderedItemsNone | shop/models.py:233-238 | a table without rows of an order gives it no rows |
| Models.TotalPrice | shop/models.py:255-257 | a line's total is 0 for quantity 0, the offer's price for the default quantity, and never negative when the price is not |
| Models.LineSum | shop/serializers.py:98-103 | the sum of line totals is 0 over no lines and never negative when no price is |
| Models.OrderTotal | shop/serializers.py:98-103 | an order's total is never negative when none of its own lines has a negative price |
| Models.LineSumConcat | shop/serializers.py:98-103 | the sum of line totals over two segments is the sum of the two sums |
| Models.OrderTotalEmpty | shop/serializers.py:100 | an order without lines totals 0 |
| Models.OrderTotalOwnRows | shop/serializers.py:101 | rows of other orders, inserted anywhere in the table, never change an order's total |
| Models.OrderTotalAddLine | shop/serializers.py:101-102 | appending a row raises its order's total by exactly its line total, quantity × price, and other orders' totals do not change |
| Models.MapTotalRemove | shop/serializers.py:100-103 | the sum over a line map does not depend on the order in which the lines are visited |
| Models.MapTotalDelete | shop/serializers.py:100-103 | removing an offer's line lowers the sum over the line map by exactly that line's total |
| Models.MapTotalSet | shop/serializers.py:100-103 | setting an offer's line to quantity q changes the sum over the line map by exactly q × price minus the old line's total |
| Models.OrderTotalIsMapTotal | shop/serializers.py:100-103 | with unique (order, offer) lines, an order's total is the sum over its line map: it depends only on the offers and quantities the order holds |
| Models.OrderTotalSetLine | shop/serializers.py:101-102 | setting an order's line for an offer to quantity q changes its total by exactly q × price minus the old line's total, whatever rows hold the lines |
| Serializers.GetTotalSum | shop/serializers.py:98-103 | the accumulator loop returns the sum of price × quantity over the order's own lines |
| Serializers.ValidatedOrderData | shop/serializers.py:89-96 | the validated data keeps a field only if it is writable, and then with the request's value |
| Serializers.CreateStampsOwner | shop/views.py:54-56 | whatever the request carries, a created order belongs to the requesting user and starts as a basket with no contact |
| Serializers.UpdateKeepsOwnerAndStatus | shop/serializers.py:95-96 | whatever the request carries, an update changes neither the owner nor the status |
| Serializers.ValidatedItemData | shop/serializers.py:70-86 | the line serializer keeps the order reference only if it is writable, and the offer and quantity with the request's values |
| Serializers.LineOrderReadOnly | shop/serializers.py:83-86 | a line's order is never taken from a request, while its offer and quantity are |
| Views.Quantity | shop/views.py:102 | an entry's quantity is the one it gives, or the default of 1 when it gives none |
| Views.EntryError | shop/views.py:101-116 | an entry is rejected for a missing offer id exactly when the id is absent or 0, and otherwise for an unknown offer exactly when no offer has that id |
| Views.SetLine | shop/views.py:118-134 | an accepted entry with quantity ≤ 0 removes the offer's line, one with quantity ≥ 1 sets it to exactly that quantity, and no other line changes |
| Views.PostOutcome | shop/views.py:100-134 | the entry-by-entry application of a POST: a line it adds or changes belongs to an existing offer, has a quantity of at least 1, and is named by some entry |
| Views.BasketOutcome | shop/views.py:77-162 | the meaning of a basket request: GET changes nothing and answers without error, and a failed GET or DELETE leaves the lines as they were |
| Views.BasketOutcomeChanges | shop/views.py:77-162 | a DELETE only removes lines, and a line any basket request adds or changes belongs to an existing offer with a quantity of at least 1 |
| Views.PostErrorIffInvalid | shop/views.py:100-116 | a POST answers without error exactly when every entry names an existing offer |
| Views.PostErrorIsEntryError | shop/views.py:104-116 | the only errors of a well-formed POST are a missing or an unknown offer |
| Views.PostStopsAtFirstError | shop/views.py:100-116 | a POST answers with the first rejected entry's error; the entries before it stay applied and none after it is applied |
| Views.PostUntouched | shop/views.py:118-134 | a POST leaves the line of every offer it does not name exactly as it was |
| Views.PostLastWins | shop/views.py:127-134 | in an accepted POST the last entry for an offer decides its line |
| Views.MalformedRequestChangesNothing | shop/views.py:93-153 | a POST or DELETE whose items are missing, not a list or empty answers with its error and changes no line |
| Views.DeleteRemovesExactly | shop/views.py:148-158 | a DELETE removes exactly the listed offers' lines, ignores unknown ids and keeps every other quantity |
| Views.Store.GetOrCreateBasket | shop/views.py:72-75 | returns the user's only basket unchanged, or creates an empty one when there is none; fails exactly when there are several; keeps one basket per user |
| Views.Store.RemoveLines | shop/views.py:118-124 | removes exactly the named offers from the basket's lines, leaves other orders' rows unchanged, and leaves the basket's total equal to the sum over the remaining lines |
| Views.Store.SaveLine | shop/views.py:126-134 | after the get-or-create and the conditional save, the basket's line for the offer has exactly the quantity, and nothing else changes. A new line is one appended row. The basket's total changes by exactly quantity × price minus the old line's total |
| Views.Store.PostLines | shop/views.py:93-138 | the loop leaves the basket's lines and the answer exactly as the entry-by-entry meaning of the POST says, and the basket's total is the sum over those lines |
| Views.Store.DeleteLines | shop/views.py:148-162 | the basket's lines and the answer are exactly those the DELETE's meaning gives, and the basket's total is the sum over those lines |
| Views.Store.BasketAction | shop/views.py:60-162 | gets or creates the basket, then serves GET, POST or DELETE on it as their meaning says, with the basket's total the sum over the resulting lines. A GET changes no row, other orders' rows do not change, and a user keeps exactly one basket |
| Views.Store.Confirm | shop/views.py:178-213 | the four checks, in order, each with its error and no change; on success the basket becomes a new order bound to the contact and the user has no basket |
| Views.Store.CreateOrder | shop/views.py:54-56 | a generic create adds an order of the requesting user in status basket, which gives a user that already had a basket a second one |
| Views.Store.UpdateOrder | shop/views.py:51-52 | a generic update finds only the user's own orders and changes no order |
| Views.Store.DeleteContact | shop/models.py:208-215 | deleting a contact keeps all orders and clears only the references to it |
| OrderTests.GetEmptyBasketCreatesOrder | shop/tests/test_orders.py:60-75 | a user's first basket request returns a new, empty order in status basket |
| OrderTests.RepeatedGetReturnsSameBasket | shop/views.py:72-80 | two basket requests return the same basket |
| OrderTests.PostBasketAddsItems | shop/tests/test_orders.py:77-92 | posting one entry with quantity 2 gives the basket a line of quantity 2 |
| OrderTests.PostUnknownOfferIsRejected | shop/views.py:110-116 | an entry for an unknown offer answers with that id, and the basket exists with no lines |
| OrderTests.ConfirmTurnsBasketIntoOrder | shop/tests/test_orders.py:94-123 | confirming a basket with a line and an own contact turns it into a new order bound to the contact, and the next basket request creates a fresh, empty basket |

## Left out

- Email notification on confirm (`_send_order_emails`, `send_order_emails`): mail I/O whose exceptions are swallowed. No dispatch is modelled, synchronous or asynchronous.
- Thumbnail generation and image fields: image processing.
- The filtered offer listing (`ProductInfoListView`): database-side query building, matching and decimal comparison.
- Loading the catalogue from YAML: file I/O plus upserts.
- The integer conversion of a POST entry's quantity, which raises on a non-numeric value: quantities are integers already.
- Quantities are unbounded integers here. The line quantity column is a positive integer column with a database-dependent upper bound (2147483647 on PostgreSQL and MySQL). A POST entry above that bound makes the line's save fail in the middle of the loop, after the earlier entries were applied. That failure is not modelled.
- Request bodies that are not a mapping, and list entries that are not mappings, which make the view raise: payloads are structured values here.
- Registration, social authentication, permissions, throttling, routing, the admin and framework configuration: delegation to the framework, and settings that are not part of this model.
- Concurrency: the source uses no transactions, so two concurrent get-or-creates can race. Each request is one sequential step.
- Decimal prices: integer cents.
- Timestamps and the ordering of a user's orders by creation time: clocks. Orders are a map from id, without order.
- The response bodies (serialized representations): each action returns the id of the order it answers with, or the error.
- The generic list, retrieve and destroy actions of the order viewset.
- Views.Store.UpdateOrder: models the update with every field present. Partial updates keep no more than full ones, because no order field is writable.
- Order.total_sum (the model property): it refers to a related name the line model does not declare, so the serializer's total is the one modelled.

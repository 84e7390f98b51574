# Bakery orders, table reservations and the customer cart

This project models the core of a bakery's ordering and table-booking system.

- **The order controller of the backend** (`orderController.js`):
  - `processPayment` places an order in one database transaction. It checks that the customer exists and checks every line against the stock. It then inserts the order and its item rows, decrements the stock, commits, and replies with a receipt. An `advance` payment charges 30% up front.
  - `getAllOrders` lists orders with their balance and item subtotals.
  - `updateNewOrderStatus` sets the order and current status, validated against fixed lists. Completion stamps a date, and cancelling a paid order marks it refunded.
  - `updateAmountPaid` accepts an amount between 0 and the total.
  - `updateOrderStatus` sets the status of a custom order.
- **The reservation controller** (`reservationController.js`):
  - `addTable` inserts a table and its uploaded images; the first image is the primary one.
  - `getAllTables` lists the available tables by type and capacity, each with its primary image.
  - `bookTable` refuses a slot that a non-cancelled reservation already holds.
  - `updateReservationStatus` changes a reservation's status.
  - `getAllReservations` lists reservations joined with their tables, latest first, optionally for one customer.
- **The customer's cart** as the menu page (`MenuComponent.jsx`) and the product page (`ProductDetailPage.jsx`) keep it in the browser's local storage:
  - the quantity fields and their guards;
  - the category filter;
  - the cart badge;
  - the two `addToCart` handlers, which merge a quantity into the product's entry or append a new entry.

## Project layout

Files:

- `wrappers.dfy`: `Option`, `Result`, and JavaScript truthiness of an optional number or text (`IntGiven`, `TextGiven`).
- `sequences.dfy`: `Filter`, `FirstIndex`, an insertion `Sort` with its permutation and order properties, lexicographic string order, and subsequence embeddings.
- `order_placement.dfy`: the `processPayment` transaction as a function `PlaceOrder` from the store before the call to the reply and the store after it. It also holds the lemmas about what a successful order wrote.
- `order_controller.dfy`: the order listing and the update handlers as functions. `Database` is a class whose methods run `processPayment` and the updates statement by statement; each method is proved equal to its function.
- `reservation_controller.dfy`: the reservation handlers as functions, and `ReservationDb`, whose methods run `addTable`, `bookTable` and `updateReservationStatus` in place.
- `cart.dfy`: cart entries, the count, the merge both pages perform, and `BrowserStorage` (the token and the `cart` key).
- `menu.dfy` and `product_detail.dfy`: the two pages' state as classes, with the handlers as methods and the decisions they make as functions.

Modelling choices:

- Money is an exact `real`.
- Database failures are a parameter. `failingWrite` names the write the database rejects, numbered in the order the handler issues its writes.
- Column defaults the inserts rely on (a table's and a reservation's `status`) are parameters as well.
- Request fields that may be absent are `Option`s. Truthiness is modelled as JavaScript evaluates it: 0 and `""` are falsy.

## Model

| member | source | states |
|---|---|---|
| OrderPlacement.PlaceOrder | system_backend/controllers/orderController.js:3-114 | A failed call leaves every table as it was. An unknown customer gives "customer not found". Otherwise the first failing line, in input order, gives its error. A success appends exactly one order, with the next id, the customer, the total, the amount charged, the method and status `paid`. It appends one item row per line, keeps every earlier row, and keeps the set of products. |
| OrderPlacement.FirstFailureNone | system_backend/controllers/orderController.js:34-51 | No line error is reported exactly when every line names a known product with enough stock. |
| OrderPlacement.FirstFailureAt | system_backend/controllers/orderController.js:34-51 | When lines before `k` pass and line `k` fails, the reply is line `k`'s error (product not found, or insufficient stock with the product's name and stock). |
| OrderPlacement.PlaceOrderCommits | system_backend/controllers/orderController.js:54-101 | Once the customer and the lines have passed and no write fails, the placement succeeds. It has exactly the new order, item rows and decremented stock, and the advance rate applied to the total. |
| OrderPlacement.PlaceOrderWriteFails | system_backend/controllers/orderController.js:103-114 | When any of the transaction's writes is rejected, the reply is a server error and the rollback restores the store. |
| OrderPlacement.DecrementStock | system_backend/controllers/orderController.js:86-91 | The stock updates lower each product's stock by the total quantity of its lines and change nothing else about it. |
| OrderPlacement.PlacedItems | system_backend/controllers/orderController.js:71-84 | Each new item row carries the order id, the line's product and quantity, and the product's price at placement time. |
| OrderPlacement.PlacedStock | system_backend/controllers/orderController.js:86-91 | After a successful order every product's stock has dropped by the quantity ordered of it, and only the stock changed. |
| OrderPlacement.PlacedStockNonNegative | system_backend/controllers/orderController.js:34-51 | When no product appears on two lines, a successful order leaves every ordered product with non-negative stock. |
| OrderPlacement.PlacePreservesWellFormed | system_backend/controllers/orderController.js:57-68 | Order ids stay distinct and below the auto-increment counter, and item rows refer to ids below it. |
| OrderPlacement.DuplicateLinesOverdraw | system_backend/controllers/orderController.js:34-51 | As written, two lines of one product, each within stock (3 and 3 of stock 5), both pass and leave stock -1. |
| OrderPlacement.CumulativeCheckCoversTotals | system_backend/controllers/orderController.js:34-51 | With the stock checked against the quantity requested so far in the request, no product is asked for more than its stock in total. |
| OrderPlacement.CorrectedPlacementKeepsStock | system_backend/controllers/orderController.js:34-51 | With the cumulative check, a successful order never drives a product's stock below zero, even when lines repeat a product. |
| OrderController.ValidateLines | system_backend/controllers/orderController.js:22-51 | The check loop reports the first failing line's error, and on success has summed the total as price times quantity over the lines. |
| OrderController.Database.UpdateStocks | system_backend/controllers/orderController.js:86-91 | The stock updates run line by line. If one is rejected, the rollback restores the saved store; otherwise every stock is decremented and nothing else changes. |
| OrderController.Database.ProcessPayment | system_backend/controllers/orderController.js:3-114 | Running the handler step by step gives the same reply and the same tables as `PlaceOrder`, keeps ids fresh and leaves custom orders alone. |
| OrderController.ViewOf | system_backend/controllers/orderController.js:176-233 | An order's listing carries the order's id, date, status and payment fields. Its balance is total minus paid for `advance` orders and 0 otherwise, and it is marked complete exactly when the balance is at most 0. It holds one item per item row of that order, with the row's product, quantity and unit price and quantity times unit price as subtotal. |
| OrderController.JoinedNewestFirst | system_backend/controllers/orderController.js:155-168 | The listed orders are exactly the orders whose customer exists, each as often as stored, ordered by date, newest first. |
| OrderController.AllOrderViews | system_backend/controllers/orderController.js:152-244 | `getAllOrders` lists one view for each order whose customer exists, and only such views (as many as there are such orders), newest first. |
| OrderController.SubtotalSumOfRows | system_backend/controllers/orderController.js:24-50 | The item rows' subtotals add up to the order's total. |
| OrderController.ItemsOfFresh | system_backend/controllers/orderController.js:178-181 | Rows stored under a fresh order id are exactly that order's items. |
| OrderController.PlacedOrderView | system_backend/controllers/orderController.js:183-225 | A newly placed order lists exactly its item rows, whose subtotals sum to its total. Its balance is 70% of the total for `advance` and 0 otherwise, and it is complete exactly when it is not `advance` or its total is at most 0. |
| OrderController.CheckStatusRequest | system_backend/controllers/orderController.js:509-543 | The request passes exactly when an order id is given, at least one status is given, and each given status is in its allowed list. A missing order id is reported first. |
| OrderController.CurrentStatusFields | system_backend/controllers/orderController.js:569-579 | Setting the current status writes it. `completed` also stamps the completion date. `cancelled` on a paid order also marks it refunded. No other field changes. |
| OrderController.UpdateChangesOnlyRequested | system_backend/controllers/orderController.js:561-585 | The update changes exactly the given statuses, the completion date for `completed`, and the payment status for a cancelled paid order. Every other field is kept. |
| OrderController.StatusUpdateChangesOnlyRequested | system_backend/controllers/orderController.js:561-585 | After a successful status update, each row with the id has only changed the given statuses, the completion date of a completed order, and the payment status of a cancelled order that was paid. Every other field of it is kept, and every other row is untouched. |
| OrderController.NewOrderStatusUpdate | system_backend/controllers/orderController.js:506-606 | A rejected request or an unknown order changes nothing. A valid request succeeds exactly when some row has the id, and "order not found" is reported exactly when none does. A success applies the request's fields, computed from the first matching row, to every row with the id, and replies with that row as updated. |
| OrderController.Database.UpdateNewOrderStatus | system_backend/controllers/orderController.js:506-606 | The handler run in place gives the reply and the orders table of `NewOrderStatusUpdate` and touches no other table. |
| OrderController.PayWhere | system_backend/controllers/orderController.js:638-644 | Rows with the id now record the amount as paid with status `paid`. Rows without the id are untouched, and no row changes in any other field. |
| OrderController.AmountPaidUpdate | system_backend/controllers/orderController.js:607-673 | A missing id or a non-numeric amount is invalid input, and any failure changes nothing. For valid input, "order not found" is reported exactly when no row has the id. For an existing order the payment is accepted exactly when the amount lies between 0 and that order's total; otherwise the reply names that total. On success the reply is the order with the requested id as stored afterwards, with the requested amount paid and status `paid`, together with its item rows. |
| OrderController.AmountPaidUpdateFrame | system_backend/controllers/orderController.js:622-644 | For an existing order and a numeric amount, a failure can only be the amount lying below 0 or above the order's total, and that total is the one reported. An amount within every matching order's total is accepted. An accepted payment changes only amount and status of the matching rows. |
| OrderController.Database.UpdateAmountPaid | system_backend/controllers/orderController.js:607-673 | The handler run in place gives the reply and orders table of `AmountPaidUpdate` and touches no other table. |
| OrderController.CustomStatusUpdate | system_backend/controllers/orderController.js:461-505 | The update succeeds exactly when an id and a status are given, the status is one of the four allowed, and some custom order has the id. It then sets the status of those rows only; otherwise nothing changes. |
| OrderController.Database.UpdateOrderStatus | system_backend/controllers/orderController.js:461-505 | The handler run in place gives the reply and custom orders of `CustomStatusUpdate` and leaves the order tables unchanged. |
| ReservationController.ImageRows | system_backend/controllers/reservationController.js:62-75 | One image row per uploaded file in upload order, carrying the table id, file name and path; only the first is primary. |
| ReservationController.ReservationDb.AddTable | system_backend/controllers/reservationController.js:29-93 | An upload error or a missing number, type or capacity gets its error reply and writes nothing. Otherwise the table is appended with the next id, followed by its image rows. A rejected insert is unanswered: no reply is sent, and the table and the images stored before it stay, because there is no transaction. |
| ReservationController.PrimaryImage | system_backend/controllers/reservationController.js:100-101 | A table has no primary image exactly when no image row of it is primary; otherwise it is the name and path of such a row. |
| ReservationController.NewTablePrimaryImage | system_backend/controllers/reservationController.js:62-75 | After `addTable` stores a table's images, the listed primary image is the first file uploaded, or none when no file was uploaded. |
| ReservationController.TypeThenCapacityIsPreorder | system_backend/controllers/reservationController.js:104 | Ordering by type and then capacity is total and transitive. |
| ReservationController.AvailableSorted | system_backend/controllers/reservationController.js:97-105 | The listed tables are exactly those with status `available`, each as often as stored, ordered by type and, within a type, by capacity. |
| ReservationController.AllTables | system_backend/controllers/reservationController.js:95-126 | `getAllTables` lists every available table and no other, as many entries as there are available rows. The tables are ordered by type and then capacity, and each carries its primary image. |
| ReservationController.Book | system_backend/controllers/reservationController.js:128-191 | A failure changes nothing. A missing required field is reported first. A booking succeeds exactly when the request is complete and no non-cancelled reservation holds the same table, date and time; for a complete request, "already booked" is reported exactly when one does. A success appends exactly one reservation with the next id, every request field and the default status. |
| ReservationController.BookKeepsNoDoubleBooking | system_backend/controllers/reservationController.js:152-175 | Bookings made through `bookTable` never give two non-cancelled reservations the same table, date and time. |
| ReservationController.ReservationDb.BookTable | system_backend/controllers/reservationController.js:128-191 | The handler run in place gives the reply and reservations of `Book`, and advances the id counter only on success. |
| ReservationController.AffectedRows | system_backend/controllers/reservationController.js:272-277 | The affected-row count is 0 exactly when no reservation has the id. |
| ReservationController.SetStatusWhere | system_backend/controllers/reservationController.js:272-275 | The update sets the status of every row with the id; the others are unchanged. |
| ReservationController.ReservationStatusUpdate | system_backend/controllers/reservationController.js:267-297 | "Reservation not found" is reported exactly when no row has the id, and then nothing changes; otherwise only those rows' status changes. |
| ReservationController.ReservationDb.UpdateReservationStatus | system_backend/controllers/reservationController.js:267-297 | The handler run in place gives the reply and reservations of `ReservationStatusUpdate` and touches nothing else. |
| ReservationController.CancelledSlotUnblocked | system_backend/controllers/reservationController.js:153-160 | Cancelling the reservation that holds a slot leaves no reservation blocking that slot. |
| ReservationController.CancellationFreesSlot | system_backend/controllers/reservationController.js:128-191 | Cancelling the reservation that holds a slot lets a complete booking of the same table, date and time succeed. |
| ReservationController.LatestFirstIsPreorder | system_backend/controllers/reservationController.js:209 | Ordering by date and then time, both descending, is total and transitive. |
| ReservationController.SelectedLatestFirst | system_backend/controllers/reservationController.js:198-222 | The selected reservations are exactly those whose table exists and, when a customer id is given, that belong to that customer. Each appears as often as stored, ordered by date descending and, within a date, by time descending. |
| ReservationController.AllReservations | system_backend/controllers/reservationController.js:192-239 | `getAllReservations` lists the selected reservations in order, each with a table row of its table, and only the given customer's when one is given. |
| Cart.CountAfterIncrement | customer_frontend/src/componts/MenuComponent/MenuComponent.jsx:97-100 | Raising one entry's quantity by `d` raises the cart count by `d`. |
| Cart.EntryIndex | customer_frontend/src/componts/MenuComponent/MenuComponent.jsx:135 | The index found is the first entry for the product, or -1 exactly when the cart has none. |
| Cart.Merge | customer_frontend/src/componts/MenuComponent/MenuComponent.jsx:133-148 | If the product has an entry, only that entry's quantity grows by the added quantity; otherwise the new entry is appended. The count grows by the added quantity, the cart keeps one entry per product, and the product then has an entry. |
| Menu.ProductIndex | customer_frontend/src/componts/MenuComponent/MenuComponent.jsx:114 | The product found has the id, or -1 exactly when none has it. |
| Menu.AcceptedQuantity | customer_frontend/src/componts/MenuComponent/MenuComponent.jsx:112-121 | A typed quantity is kept exactly when it is a number from 1 up to the product's stock. When the product is unknown or its stock is 0, the bound is 1. |
| Menu.SelectedQuantity | customer_frontend/src/componts/MenuComponent/MenuComponent.jsx:132 | When every stored quantity is at least 1, the quantity added is at least 1. |
| Menu.FilterByCategory | customer_frontend/src/componts/MenuComponent/MenuComponent.jsx:103-109 | `All` shows every product. Any other category shows exactly its products, each as often as listed and in the listed order. |
| Menu.MenuPage.constructor | customer_frontend/src/componts/MenuComponent/MenuComponent.jsx:71-94 | After the fetch every product is shown, the category is `All`, every product's quantity is 1 and the badge counts the stored cart. |
| Menu.MenuPage.UpdateCartCount | customer_frontend/src/componts/MenuComponent/MenuComponent.jsx:97-100 | The badge equals the sum of the stored cart's quantities. |
| Menu.MenuPage.SelectCategory | customer_frontend/src/componts/MenuComponent/MenuComponent.jsx:103-109 | The shown products are the category filter of the fetched products. |
| Menu.MenuPage.HandleQuantityChange | customer_frontend/src/componts/MenuComponent/MenuComponent.jsx:112-121 | An accepted quantity is stored for that product only; a rejected one changes nothing; every stored quantity stays at least 1. |
| Menu.MenuPage.AddToCart | customer_frontend/src/componts/MenuComponent/MenuComponent.jsx:124-151 | Without a token nothing changes. Otherwise the stored cart becomes the merge of the selected quantity, and the badge grows by that quantity. |
| Menu.MenuAddGrowsCount | customer_frontend/src/componts/MenuComponent/MenuComponent.jsx:124-151 | An add grows the badge by at least 1, keeps one entry per product, and adds an entry only for a new product. |
| ProductDetail.QuantityChange | customer_frontend/src/componts/ProductDetailPage/ProductDetailPage.jsx:47-76 | An empty field clears quantity and message. Non-numbers and numbers below 1 reset the quantity to 1 with their message. A number above the loaded stock is clamped to the stock with "Max". When no message is shown the quantity is blank or between 1 and the stock. |
| ProductDetail.ProductDetailPage.HandleQuantityChange | customer_frontend/src/componts/ProductDetailPage/ProductDetailPage.jsx:47-76 | The field and message become those of `QuantityChange`. |
| ProductDetail.AddToCartResult | customer_frontend/src/componts/ProductDetailPage/ProductDetailPage.jsx:86-117 | The add succeeds exactly when the quantity is a number of at least 1 and the product's existing entry, if any, stays within the stock. "Invalid quantity" is reported exactly when the quantity is not such a number, and "Only N available" exactly when the existing entry would exceed the stock. On success the count grows by the quantity, the existing entry grows in place, or a new entry carrying category and stock is appended. |
| ProductDetail.ProductDetailPage.AddToCart | customer_frontend/src/componts/ProductDetailPage/ProductDetailPage.jsx:78-123 | Without a token nothing changes. On an error the cart is kept and the message set; otherwise the stored cart becomes the new cart. |
| ProductDetail.AddAfterChangeWithinStock | customer_frontend/src/componts/ProductDetailPage/ProductDetailPage.jsx:47-117 | With the button enabled (stock above 0, no message), a typed quantity that is then added never takes the product's entry above the stock. |

## Left out

- Floating point. Prices and amounts are exact reals. `toFixed(2)` rounding of the balance and the subtotals, and the string that `toFixed` returns, are not modelled.
- `parseInt`, `parseFloat` and `isNaN` work on pre-parsed inputs: a number, or `None` for NaN.
- OrderController.AmountPaidUpdate: a value that `isNaN` accepts but `parseFloat` cannot read (an empty string or `null`) is treated as non-numeric. As written it would reach the database as NaN.
- Concurrency. The row locks (`FOR UPDATE`), interleaved requests and the parallel item queries of `getAllOrders` are not modelled; each handler runs alone.
- HTTP. Status codes and response bodies are modelled as error constructors and reply values. Customer contact details, the shipping address and the delivery date of the `getAllOrders` reply are not modelled.
- ReservationController.AllTables: a table without a primary image is listed with `None`. The reply carries an object whose name and path are null.
- Database failures other than the writes numbered by `failingWrite` are not modelled. This covers failed reads and the 500 replies of `bookTable`, `updateReservationStatus` and the status updates, which change nothing.
- Auto-increment gaps after a rollback are not modelled: the model's counter is restored with the rest of the store.
- The empty bulk insert is not modelled. An order with no lines still counts the item insert as a write, although MySQL rejects an empty `VALUES ?` list.
- Multer's file type and size filter is the `uploadRejected` parameter. File storage on disk is not modelled.
- The column defaults for table and reservation status are parameters, since the schema is not part of this model.
- SQL comparison. Dates, times and table types compare by code point (`LexLe`), not by a collation or as temporal values. `LIMIT 1` without `ORDER BY` is modelled as the first row in insertion order.
- OrderPlacement.PlaceOrder: product ids match exactly, both in the stock check and in the price lookup. The source matches them in SQL for the stock check, by the column's type and collation, and with strict JavaScript equality for the price. When the two disagree, for example a numeric id against a string column or a case that differs under a case-insensitive collation, the price lookup finds nothing and the transaction fails with a server error. The model does not capture this.
- ReservationController.ReservationDb.AddTable: a rejected insert is the outcome `Unanswered`. What the runtime then does with the unhandled rejection (on Node 15 and later the process exits) is not modelled.
- ReservationController.ReservationStatusUpdate: any status may be written, including reinstating a cancelled reservation whose slot has since been booked again. The source checks neither, and the model keeps that.
- `getAllOrder`, `getOrdersByCustomerId`, `getOrderByCustomerId`, `createCustomOrder`, `getCustomOrders` and `getAllReservation` are not modelled. They are plain queries or inserts outside the modelled core.
- The browser. The token is the boolean `hasToken`, and the stored cart is a sequence that parses without error. Alerts, navigation, rendering and the loading and error states are not modelled. The disabled buttons appear only as the hypothesis of `ProductDetail.AddAfterChangeWithinStock`.
- ProductDetail.ProductDetailPage.AddToCart requires the product to be loaded, since the page shows its button only then.

## Findings

| source | as written | input that shows it | evidently intended | confidence | as-written member | corrected member |
|---|---|---|---|---|---|---|
| system_backend/controllers/orderController.js:34-51 | Each line is checked against the stock read before the order, so repeated lines of one product pass separately and the stock updates at lines 86-91 subtract them all | a product with stock 5 and the lines `(P, 3), (P, 3)`: both pass and the stock ends at -1 | check each line against the stock left after the earlier lines of the same product, so that no order drives the stock negative | not executed | OrderPlacement.DuplicateLinesOverdraw | OrderPlacement.CorrectedPlacementKeepsStock |

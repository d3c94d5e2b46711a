# Marketplace pages: a Dafny model of the in-memory handlers

This project models the state handlers of a marketplace front end with buyer, seller, courier and administrator dashboards. Each page keeps its lists (cart, orders, deliveries, products, coupons, users and so on) in component state. The page replaces a list with a new one built by a `map`, `filter` or `reduce` when a button is pressed, and computes its counters from the lists.

The model follows that shape, one module per page:

- **Classes.** Each page becomes a class whose `seq` fields are the page's lists. Each handler is a method whose `ensures` ties the new state to a pure function of the old state.
- **Functions and lemmas.** The functions carry the derived values: filters, totals and statistics. Lemmas prove what the pages promise:
  - invariants the handlers keep;
  - round trips;
  - the exact change each handler makes to every counter;
  - the button gating that decides which action a row offers.

Shared vocabulary lives in two modules:

- `Common`: an order-preserving filter, a map over the entries with a given id, sums and counts with their algebra, ASCII case folding, substring search and decimal rendering of integers.
- `ApiTypes`: the record shapes of `lib/api.ts`.

Conventions used throughout:

- Money and prices are `real`, which is exact.
- Timestamps are integer milliseconds.
- Every id taken from the clock, every "now" and every "today" is a parameter.
- A text field the page reads as a number is passed in already read. Distances and filters are `Option<real>`, with `None` for "absent or not a number".

## Model

| member | source | states |
|---|---|---|
| Common.Filter | app/vendedor/dashboard/page.tsx:211 | `Array.filter`: the result is no longer than the input, holds only kept elements of the input, and holds every kept element; order and multiplicity are stated by `FilterIsSubsequence` and `FilterAppend` |
| Common.FilterAppend | app/vendedor/dashboard/page.tsx:211 | filtering a concatenation filters each part and concatenates the results, in order |
| Common.FilterIsSubsequence | app/vendedor/dashboard/page.tsx:211 | the filtered list is read off the input at strictly increasing positions: same order, each element taken once |
| Common.MapWhere | app/admin/users/page.tsx:49 | the map-by-id update: same length; an entry is transformed exactly when it matches, the others are untouched |
| Common.Lower | app/vendedor/dashboard/page.tsx:211 | `toLowerCase`: same length, each character folded, no upper-case letter left |
| Common.ContainsIff | app/vendedor/dashboard/page.tsx:211 | `includes` holds exactly when the needle occurs at some position of the haystack |
| Common.IntToString | app/admin/orders/page.tsx:29 | `id.toString()`: never empty; reading the digits back gives the number (after the sign, for a negative one) |
| BuyerDashboard.AddLine | app/comprador/dashboard/page.tsx:187-194 | adding a product already in the cart keeps the length and raises only that line by one; a new product is appended as one line of quantity 1 |
| BuyerDashboard.RemoveOne | app/comprador/dashboard/page.tsx:197-203 | after removing one unit every line still has a positive quantity and the cart is no longer |
| BuyerDashboard.RemoveOneAbsent | app/comprador/dashboard/page.tsx:197-203 | removing an id not in the cart changes nothing |
| BuyerDashboard.RemoveOnePresent | app/comprador/dashboard/page.tsx:197-203 | with one line per product, removing one unit lowers that line by one, or drops the line when it held one unit; other lines keep their order |
| BuyerDashboard.AddLinePreservesInvariant | app/comprador/dashboard/page.tsx:187-194 | adding keeps every quantity positive and one line per product |
| BuyerDashboard.RemoveOnePreservesInvariant | app/comprador/dashboard/page.tsx:197-203 | removing one unit keeps one line per product |
| BuyerDashboard.RemoveAtPreservesInvariant | app/comprador/dashboard/page.tsx:197-207 | dropping any one line keeps the cart invariant |
| BuyerDashboard.RemoveLine | app/comprador/dashboard/page.tsx:205-207 | removing a product drops its line whatever the quantity and keeps every other line |
| BuyerDashboard.RemoveLinePresent | app/comprador/dashboard/page.tsx:205-207 | with one line per product, removing a product is removing exactly its line, the rest in order |
| BuyerDashboard.RemoveLinePreservesInvariant | app/comprador/dashboard/page.tsx:205-207 | removing a line keeps the cart invariant |
| BuyerDashboard.AddThenRemoveRestores | app/comprador/dashboard/page.tsx:187-203 | adding a product and then removing one unit of it gives back the cart, whether or not the product was there |
| BuyerDashboard.CartTotal | app/comprador/dashboard/page.tsx:213-215 | the cart total, 0 for an empty cart; what it adds up is stated by `AddLineTotal`, `RemoveOneTotal`, `RemoveLineTotal`, `ItemsTotalMatchesCart` and `CartTotalNonNegative` |
| BuyerDashboard.ItemCount | app/comprador/dashboard/page.tsx:217-219 | the badge count, 0 for an empty cart; its changes are stated by `AddLineItemCount`, `RemoveOneItemCount` and `ItemCountAtLeastLines` |
| BuyerDashboard.CartTotalNonNegative | app/comprador/dashboard/page.tsx:213-215 | with non-negative prices and quantities the total is non-negative |
| BuyerDashboard.ItemCountAtLeastLines | app/comprador/dashboard/page.tsx:217-219 | the badge counts units, never fewer than the number of lines |
| BuyerDashboard.AddLineItemCount | app/comprador/dashboard/page.tsx:187-194 | adding a product raises the badge count by exactly one |
| BuyerDashboard.RemoveOneItemCount | app/comprador/dashboard/page.tsx:197-203 | removing one unit lowers the badge count by one if the product was in the cart, else leaves it |
| BuyerDashboard.RemoveOneTotal | app/comprador/dashboard/page.tsx:197-203 | removing one unit lowers the total by the unit price stored in the line if the product was in the cart, else leaves it |
| BuyerDashboard.EmptiedLinesCostNothing | app/comprador/dashboard/page.tsx:201 | lines decremented to zero cost nothing, so the filter that drops them leaves the total |
| BuyerDashboard.DecrementSubtotal | app/comprador/dashboard/page.tsx:200 | one unit less of a line costs one unit price less |
| BuyerDashboard.RemoveLineTotal | app/comprador/dashboard/page.tsx:205-207 | dropping a line lowers the total by that line's subtotal if the product was in the cart, else leaves it |
| BuyerDashboard.LineIndex | app/comprador/dashboard/page.tsx:188 | the `find`: the first line carrying the id |
| BuyerDashboard.OnlyLineAt | app/comprador/dashboard/page.tsx:188-190 | with one line per product, the found line is the only one the map touches |
| BuyerDashboard.AddedPriceAt | app/comprador/dashboard/page.tsx:188-190 | adding a product already in the cart adds the price of the line's stored snapshot |
| BuyerDashboard.AddedPriceAbsent | app/comprador/dashboard/page.tsx:193 | adding a new product adds its own price |
| BuyerDashboard.AddLineTotal | app/comprador/dashboard/page.tsx:187-194 | adding a product raises the total by the price that line charges |
| BuyerDashboard.AddedPriceAfterOtherAdd | app/comprador/dashboard/page.tsx:187-194 | adding one product does not change what adding another one costs |
| BuyerDashboard.AddOrderIrrelevantForTotal | app/comprador/dashboard/page.tsx:187-194 | adding two products in either order gives the same total |
| BuyerDashboard.AddLinePreservesUniqueIds | app/comprador/dashboard/page.tsx:187-194 | adding keeps one line per product |
| BuyerDashboard.ToOrderItems | app/comprador/dashboard/page.tsx:227-231 | one order item per cart line, with that line's product id, quantity and product snapshot |
| BuyerDashboard.ItemsTotalMatchesCart | app/comprador/dashboard/page.tsx:227-232 | the order items' subtotals add up to the cart total |
| BuyerDashboard.MakeOrder | app/comprador/dashboard/page.tsx:224-236 | the new order has buyer 1, the chosen address, status "Preparando", one item per line and the cart total |
| BuyerDashboard.OrderTotalRoundTrip | app/comprador/dashboard/page.tsx:224-236 | recomputing the order's total from its items gives its stored total |
| BuyerDashboard.FilteredProducts | app/comprador/dashboard/page.tsx:246-252 | the catalogue keeps exactly the products whose name or category holds the term, in the chosen category or any for "todos" |
| BuyerDashboard.FilteredProductsShowsAll | app/comprador/dashboard/page.tsx:246-252 | an empty term with "todos" shows the whole catalogue in order |
| BuyerDashboard.InsertByKey | app/comprador/dashboard/page.tsx:254-267 | inserting into a sorted list keeps it sorted and adds exactly that product |
| BuyerDashboard.SortByKey | app/comprador/dashboard/page.tsx:254-267 | the sort is sorted by the key and a permutation of its input |
| BuyerDashboard.SortedProducts | app/comprador/dashboard/page.tsx:254-267 | the shown list is a permutation of the filtered one, ascending by price, descending by price or rating, or by name collation |
| BuyerDashboard.SortedProductsDefaultKeepsOrder | app/comprador/dashboard/page.tsx:254-267 | an unknown sort choice ("relevancia") keeps the filtered order, the sort being stable |
| BuyerDashboard.SortByKeyConstant | app/comprador/dashboard/page.tsx:264-265 | a sort key that compares everything equal leaves the list as it is |
| BuyerDashboard.InsertKeepsClass | app/comprador/dashboard/page.tsx:254-267 | inserting puts the new product ahead of the earlier members of its class of ties and leaves every other class alone |
| BuyerDashboard.SortByKeyStable | app/comprador/dashboard/page.tsx:254-267 | the insertion sort is stable: within each class of equal keys the input order is kept |
| BuyerDashboard.SortedProductsStable | app/comprador/dashboard/page.tsx:254-267 | products the chosen sort compares equal keep their filtered order, as the stable `Array.sort` does |
| BuyerDashboard.Dashboard.constructor | app/comprador/dashboard/page.tsx:187 | the page starts with an empty cart, no orders and no address |
| BuyerDashboard.Dashboard.SelectAddress | app/comprador/dashboard/page.tsx:525-528 | the address book's callback sets the chosen address and nothing else |
| BuyerDashboard.Dashboard.AddToCart | app/comprador/dashboard/page.tsx:187-194 | the cart becomes `AddLine` of the old cart, the badge goes up by one, the invariant holds |
| BuyerDashboard.Dashboard.RemoveFromCart | app/comprador/dashboard/page.tsx:197-203 | the cart becomes `RemoveOne` of the old cart, the badge goes down by one and the total by the line's unit price exactly when the product was there |
| BuyerDashboard.Dashboard.RemoveProductFromCart | app/comprador/dashboard/page.tsx:205-207 | the cart becomes `RemoveLine` of the old cart, the total goes down by the dropped line's subtotal |
| BuyerDashboard.Dashboard.ClearCart | app/comprador/dashboard/page.tsx:209-211 | the cart is empty, nothing else changes |
| BuyerDashboard.Dashboard.Checkout | app/comprador/dashboard/page.tsx:221-244 | without an address or with an empty cart nothing changes; otherwise the new order goes first in the history, carries the old cart total (which its items reproduce), and the cart is emptied |
| CourierDashboard.FirstIndex | app/entregador/dashboard/page.tsx:201 | the `find`: the first delivery carrying the id |
| CourierDashboard.Accepted | app/entregador/dashboard/page.tsx:203 | the accepted copy is in transit with courier 1 and otherwise the same delivery |
| CourierDashboard.Completed | app/entregador/dashboard/page.tsx:213 | the finished copy is delivered, stamped with now, and otherwise the same delivery |
| CourierDashboard.WithoutDelivery | app/entregador/dashboard/page.tsx:204 | the waiting list loses every delivery with the id and keeps all others |
| CourierDashboard.Accept | app/entregador/dashboard/page.tsx:199-208 | an unknown id changes neither list; a known one leaves the waiting list and its accepted copy goes first in the courier's list |
| CourierDashboard.CompleteIn | app/entregador/dashboard/page.tsx:210-218 | same length and ids; the deliveries with the id become `Completed` at now (status delivered, update time now, every other field kept), the others stay as they were |
| CourierDashboard.AcceptMovesOne | app/entregador/dashboard/page.tsx:199-208 | with unique ids, accepting removes exactly that one delivery from the waiting list, the rest in order |
| CourierDashboard.OnlyAtFirstIndex | app/entregador/dashboard/page.tsx:199-208 | with unique ids, the first delivery carrying the id is the only one |
| CourierDashboard.AcceptKeepsTotal | app/entregador/dashboard/page.tsx:199-208 | with unique ids, the two lists together keep their size |
| CourierDashboard.AcceptTwiceIsAcceptOnce | app/entregador/dashboard/page.tsx:199-208 | a second accept of the same id changes nothing |
| CourierDashboard.RemoveAtKeepsUnique | app/entregador/dashboard/page.tsx:204 | taking out one delivery keeps ids unique |
| CourierDashboard.PrependKeepsUnique | app/entregador/dashboard/page.tsx:205 | putting a delivery with a new id first keeps ids unique |
| CourierDashboard.AcceptPreservesInvariant | app/entregador/dashboard/page.tsx:199-208 | accepting keeps ids unique in each list and no delivery in both lists |
| CourierDashboard.CompletePreservesInvariant | app/entregador/dashboard/page.tsx:210-218 | finishing keeps the same invariant |
| CourierDashboard.CompleteIdempotent | app/entregador/dashboard/page.tsx:210-218 | finishing twice at the same moment is finishing once |
| CourierDashboard.FilteredDeliveries | app/entregador/dashboard/page.tsx:231-244 | every shown delivery is within the distance limit when both are known and at least the minimum value when one is set; every delivery passing both is shown |
| CourierDashboard.FilteredDeliveriesKeepsOrder | app/entregador/dashboard/page.tsx:231-244 | the shown deliveries are a subsequence of the waiting list: its order, each delivery once |
| CourierDashboard.NoFilterShowsAll | app/entregador/dashboard/page.tsx:231-244 | with no filter the list is shown whole, in order |
| CourierDashboard.LargerDistanceShowsMore | app/entregador/dashboard/page.tsx:232-236 | raising the distance limit never shows fewer deliveries |
| CourierDashboard.LowerMinimumShowsMore | app/entregador/dashboard/page.tsx:238-241 | lowering the minimum value never shows fewer deliveries |
| CourierDashboard.ActiveDeliveries | app/entregador/dashboard/page.tsx:247 | exactly the courier's deliveries in transit |
| CourierDashboard.DeliveredDeliveries | app/entregador/dashboard/page.tsx:633-645 | exactly the courier's delivered deliveries, whatever their day |
| CourierDashboard.CompletedToday | app/entregador/dashboard/page.tsx:248-252 | exactly the courier's deliveries delivered on today's local date |
| CourierDashboard.TotalEarningsToday | app/entregador/dashboard/page.tsx:253-256 | the day's earnings are a tenth of the value delivered today, 0 when nothing was |
| CourierDashboard.EarningsNonNegative | app/entregador/dashboard/page.tsx:253-256 | with non-negative order values the earnings are non-negative |
| CourierDashboard.OnlyDeliveryAt | app/entregador/dashboard/page.tsx:211-214 | with unique ids the finish map touches one delivery |
| CourierDashboard.CompleteTodayAddsFee | app/entregador/dashboard/page.tsx:210-218 | finishing a delivery in transit today adds exactly its fee to the day's earnings |
| CourierDashboard.CompleteTodayCounts | app/entregador/dashboard/page.tsx:210-218 | finishing a delivery in transit today adds one to the day's count |
| CourierDashboard.CompleteLeavesActive | app/entregador/dashboard/page.tsx:210-218 | finishing a delivery in transit takes one off the active count |
| CourierDashboard.Render | app/entregador/dashboard/page.tsx:259-267 | a loaded, unapproved profile gets only the approval view; otherwise the board: accept buttons sit on exactly the waiting deliveries passing the filters, in the list's order, and finish buttons on exactly the deliveries in transit |
| CourierDashboard.CourierBoard.constructor | app/entregador/dashboard/page.tsx:40-44 | the page starts with empty lists and no profile |
| CourierDashboard.CourierBoard.Load | app/entregador/dashboard/page.tsx:225-228 | the loaders replace both lists and the profile |
| CourierDashboard.CourierBoard.AcceptDelivery | app/entregador/dashboard/page.tsx:199-208 | the lists become `Accept` of the old lists; the invariant and, with unique ids, the combined size are kept |
| CourierDashboard.CourierBoard.CompleteDelivery | app/entregador/dashboard/page.tsx:210-218 | the courier's list becomes `CompleteIn` of the old one; the waiting list and the profile stay |
| DeliveryDetails.StatusCodeInjective | lib/api.ts:216 | the four status codes are distinct and known |
| DeliveryDetails.GetStatusColor | components/delivery-details.tsx:29-42 | grey exactly for an unknown code |
| DeliveryDetails.GetStatusText | components/delivery-details.tsx:44-57 | an unknown code is echoed; a known one becomes a label that is neither the code nor any code |
| DeliveryDetails.BadgeDistinguishesStatuses | components/delivery-details.tsx:29-57 | distinct statuses get distinct labels and distinct colours |
| DeliveryDetails.Actions | components/delivery-details.tsx:191-209 | no buttons without `showActions`; accept exactly for a delivery waiting for pickup with an accept handler, complete exactly for one in transit with a complete handler, never both; close whenever the row shows |
| DeliveryDetails.FinishedOffersNothing | components/delivery-details.tsx:193-203 | a delivered or cancelled delivery offers neither accept nor complete |
| DeliveryDetails.Subtotals | components/delivery-details.tsx:171 | one subtotal per item, quantity times price |
| DeliveryDetails.SubtotalsSum | components/delivery-details.tsx:168-171 | the subtotals add up to the sum of quantity times price over the items |
| DeliveryDetails.Render | components/delivery-details.tsx:27-209 | no delivery renders nothing; otherwise the view carries the delivery's id, its status label and that status's colour (never the unknown grey), phone, total and notes, the item subtotals quantity × price in item order, and the actions: none unless `showActions`, accept exactly when shown with an accept handler for a delivery waiting for pickup, complete exactly when shown with a complete handler for one in transit |
| SellerDashboard.NewProduct | app/vendedor/dashboard/page.tsx:140-151 | the new product carries the form's fields, seller "Frutas do João", rating 4.5, and the placeholder picture named after the product when no picture was given |
| SellerDashboard.EditedProduct | app/vendedor/dashboard/page.tsx:161-170 | the edited product keeps its id, seller and rating, takes the form's fields, and keeps its picture when the picture field is empty |
| SellerDashboard.FormOf | app/vendedor/dashboard/page.tsx:179-191 | starting an edit fills every form field from the product (name, price text, unit, category, description, image URL); the stock text reads back as the stock |
| SellerDashboard.EditUnchangedIsIdentity | app/vendedor/dashboard/page.tsx:159-191 | saving an edit without touching the form gives the product back |
| SellerDashboard.ReplaceProduct | app/vendedor/dashboard/page.tsx:172 | same length; every product with the id becomes the edited one, the others stay |
| SellerDashboard.DeleteProduct | app/vendedor/dashboard/page.tsx:205-209 | every product with the id leaves, all others stay; order is stated by `DeleteProductKeepsOrder` and `DeleteProductTotals` |
| SellerDashboard.DeleteProductKeepsOrder | app/vendedor/dashboard/page.tsx:205-209 | the remaining products are a subsequence of the list: its order, each product once |
| SellerDashboard.FilteredProducts | app/vendedor/dashboard/page.tsx:211 | exactly the products whose name holds the term, ignoring case |
| SellerDashboard.EmptySearchShowsAll | app/vendedor/dashboard/page.tsx:211 | an empty search shows every product in order |
| SellerDashboard.TotalsNonNegative | app/vendedor/dashboard/page.tsx:213-215 | with non-negative stock and prices both totals are non-negative |
| SellerDashboard.TotalStock | app/vendedor/dashboard/page.tsx:214 | the stock total, 0 with no products; its changes are stated by `AddProductTotals`, `DeleteProductTotals` and `ReplaceProductTotals` |
| SellerDashboard.TotalValue | app/vendedor/dashboard/page.tsx:215 | the stock value total, 0 with no products; its changes are stated by `AddProductTotals`, `DeleteProductTotals` and `ReplaceProductTotals` |
| SellerDashboard.AddProductTotals | app/vendedor/dashboard/page.tsx:153 | adding a product adds one to the count and its stock and stock value to the totals |
| SellerDashboard.DeleteProductTotals | app/vendedor/dashboard/page.tsx:205-209 | with unique ids, deleting the product at k leaves exactly the products before and after it, in order, and takes one off the count and its stock and value off the totals |
| SellerDashboard.ReplaceProductTotals | app/vendedor/dashboard/page.tsx:172 | with unique ids, an edit changes the totals by the difference between the new and old product |
| SellerDashboard.EditKeepsUniqueIds | app/vendedor/dashboard/page.tsx:172 | editing keeps ids unique |
| SellerDashboard.AddKeepsUniqueIds | app/vendedor/dashboard/page.tsx:153 | adding a product with a new id keeps ids unique |
| SellerDashboard.DeleteKeepsUniqueIds | app/vendedor/dashboard/page.tsx:206 | deleting keeps ids unique |
| SellerDashboard.Seller.constructor | app/vendedor/dashboard/page.tsx:30-44 | the page starts with no products, the empty form and no selection |
| SellerDashboard.Seller.Load | app/vendedor/dashboard/page.tsx:46-130 | the saved list when there is one, the starting catalogue otherwise |
| SellerDashboard.Seller.EditForm | app/vendedor/dashboard/page.tsx:36-44 | the form inputs change the form only |
| SellerDashboard.Seller.ResetProductForm | app/vendedor/dashboard/page.tsx:193-203 | the form goes back to empty with unit "kg" |
| SellerDashboard.Seller.HandleAddProduct | app/vendedor/dashboard/page.tsx:138-157 | without name, price and stock nothing changes; otherwise the new product is appended, the stock total rises by its stock and the form is reset |
| SellerDashboard.Seller.StartEditProduct | app/vendedor/dashboard/page.tsx:179-191 | the product is selected and the form shows it |
| SellerDashboard.Seller.HandleEditProduct | app/vendedor/dashboard/page.tsx:159-177 | without a selection or a required field nothing changes; otherwise the products with the selected id are replaced by the edited copy, the form is reset and the selection cleared |
| SellerDashboard.Seller.Delete | app/vendedor/dashboard/page.tsx:205-209 | the list becomes `DeleteProduct` of the old one, ids stay unique |
| AdminCoupons.NewCoupon | app/admin/coupons/page.tsx:68-74 | the new coupon carries the form's fields, no uses, and is active |
| AdminCoupons.DeleteCoupon | app/admin/coupons/page.tsx:90-98 | every coupon with the id leaves, all others stay |
| AdminCoupons.SetActive | app/admin/coupons/page.tsx:100-108 | same length; only the coupons with the id get the flag, nothing else changes |
| AdminCoupons.SetActiveLastWins | app/admin/coupons/page.tsx:100-108 | two switches in a row are the second switch |
| AdminCoupons.SetActiveSameIsIdentity | app/admin/coupons/page.tsx:100-108 | activating an already active coupon changes nothing |
| AdminCoupons.FilteredCoupons | app/admin/coupons/page.tsx:37-44 | exactly the coupons whose code or description holds the term, ignoring case |
| AdminCoupons.EmptySearchShowsAll | app/admin/coupons/page.tsx:37-44 | an empty search shows every coupon |
| AdminCoupons.Stats | app/admin/coupons/page.tsx:122-127 | total is the list length; active and expired never exceed it; all zero for no coupons |
| AdminCoupons.UsedNonNegative | app/admin/coupons/page.tsx:126 | with non-negative use counts the used total is non-negative |
| AdminCoupons.AddCouponStats | app/admin/coupons/page.tsx:68-78 | a new coupon adds one to total and active, nothing to used, and one to expired only if its date is past |
| AdminCoupons.SetActiveStats | app/admin/coupons/page.tsx:100-108 | with unique ids, a switch moves the coupon between active and inactive and leaves the other counters |
| AdminCoupons.DeleteKeepsUniqueIds | app/admin/coupons/page.tsx:97 | deleting keeps ids unique |
| AdminCoupons.CouponsPage.constructor | app/admin/coupons/page.tsx:23-31 | the page starts with no coupons and the default form |
| AdminCoupons.CouponsPage.EditForm | app/admin/coupons/page.tsx:23-31 | the form inputs change the form only |
| AdminCoupons.CouponsPage.HandleAddCoupon | app/admin/coupons/page.tsx:59-88 | without code, description and a positive discount nothing changes; otherwise the coupon is appended and the form reset |
| AdminCoupons.CouponsPage.Delete | app/admin/coupons/page.tsx:90-98 | the list becomes `DeleteCoupon` of the old one |
| AdminCoupons.CouponsPage.ToggleCouponStatus | app/admin/coupons/page.tsx:100-108 | the list becomes `SetActive` of the old one |
| AdminOrders.StatusBadge | app/admin/orders/page.tsx:55-72 | the badge always shows the status text; the six known statuses get a colour, any other the plain badge |
| AdminOrders.FilteredOrders | app/admin/orders/page.tsx:26-34 | exactly the orders whose number holds the term as typed, or whose customer or status holds it ignoring case |
| AdminOrders.SearchByNumberFindsOrder | app/admin/orders/page.tsx:29 | typing an order's number finds it |
| AdminOrders.EmptySearchShowsAll | app/admin/orders/page.tsx:26-34 | an empty search shows every order |
| AdminOrders.CanRefund | app/admin/orders/page.tsx:223 | the refund button shows only for a delivery problem or a cancelled order (also in the details dialog, line 335), and refunding such an order changes it: its status becomes "Reembolsado" |
| AdminOrders.RefundOrder | app/admin/orders/page.tsx:50-53 | same length; only the orders with the id become "Reembolsado", nothing else changes |
| AdminOrders.RefundIdempotent | app/admin/orders/page.tsx:50-53 | a refunded order is not offered a refund again, and refunding twice is refunding once |
| AdminOrders.ProblemOrders | app/admin/orders/page.tsx:257 | exactly the orders with a delivery problem or cancelled |
| AdminOrders.Stats | app/admin/orders/page.tsx:91-97 | total is the list length; delivered, in transit and problems never add up to more; problems counts the refundable orders |
| AdminOrders.RevenueNonNegative | app/admin/orders/page.tsx:96 | with non-negative totals the revenue is non-negative |
| AdminOrders.RefundStats | app/admin/orders/page.tsx:50-53 | with unique ids, refunding a problem order takes one off problems and leaves the other counters and the revenue |
| AdminOrders.OrdersPage.constructor | app/admin/orders/page.tsx:36-48 | the page starts with no orders |
| AdminOrders.OrdersPage.Refund | app/admin/orders/page.tsx:50-53 | the list becomes `RefundOrder` of the old one |
| AdminEstablishments.StatusCodeInjective | lib/admin-api.ts:185 | the three status codes are distinct |
| AdminEstablishments.Decide | app/admin/establishments/page.tsx:49-56 | same length; only the establishments with the id get the decision, nothing else changes |
| AdminEstablishments.CanDecide | app/admin/establishments/page.tsx:220 | approve and reject show exactly when both decisions would change the establishment, that is for a pending one |
| AdminEstablishments.DecidedIsFinal | app/admin/establishments/page.tsx:220 | a decided establishment is no longer offered approve or reject |
| AdminEstablishments.FilteredEstablishments | app/admin/establishments/page.tsx:25-32 | exactly the establishments whose name, owner or e-mail holds the term, ignoring case |
| AdminEstablishments.EmptySearchShowsAll | app/admin/establishments/page.tsx:25-32 | an empty search shows every establishment |
| AdminEstablishments.Stats | app/admin/establishments/page.tsx:81-86 | pending, approved and rejected add up to the total |
| AdminEstablishments.DecideStats | app/admin/establishments/page.tsx:49-56 | with unique ids, deciding a pending one moves exactly one count from pending to the decision |
| AdminEstablishments.EstablishmentsPage.constructor | app/admin/establishments/page.tsx:35-47 | the page starts with no establishments |
| AdminEstablishments.EstablishmentsPage.UpdateEstablishmentStatus | app/admin/establishments/page.tsx:49-56 | the list becomes `Decide` of the old one |
| AdminDeliverers.Decide | app/admin/deliverers/page.tsx:49-54 | same length; only the registrations with the id get the decision, nothing else changes |
| AdminDeliverers.CanDecide | app/admin/deliverers/page.tsx:211 | approve and reject show exactly when both decisions would change the registration, that is for a pending one |
| AdminDeliverers.DecidedIsFinal | app/admin/deliverers/page.tsx:211 | a decided registration is no longer offered approve or reject |
| AdminDeliverers.ApprovalOpensBoard | app/entregador/dashboard/page.tsx:259-267 | once approved the courier sees the board; rejected, only the approval status |
| AdminDeliverers.FilteredDeliverers | app/admin/deliverers/page.tsx:25-32 | exactly the registrations whose name or e-mail holds the term, or whose vehicle does when there is one |
| AdminDeliverers.EmptySearchShowsAll | app/admin/deliverers/page.tsx:25-32 | an empty search shows every registration |
| AdminDeliverers.Stats | app/admin/deliverers/page.tsx:79-84 | pending, approved and rejected add up to the total |
| AdminDeliverers.DecideStats | app/admin/deliverers/page.tsx:49-54 | with unique ids, deciding a pending one moves exactly one count from pending to the decision |
| AdminDeliverers.DeliverersPage.constructor | app/admin/deliverers/page.tsx:35-47 | the page starts with no registrations |
| AdminDeliverers.DeliverersPage.UpdateDelivererStatus | app/admin/deliverers/page.tsx:49-54 | the list becomes `Decide` of the old one |
| AdminUsers.ProfileCodeInjective | lib/admin-api.ts:175 | the three profile codes are distinct |
| AdminUsers.SetStatus | app/admin/users/page.tsx:48-50 | same length; only the users with the id get the status, nothing else changes |
| AdminUsers.SetStatusLastWins | app/admin/users/page.tsx:48-50 | two changes in a row are the second change |
| AdminUsers.ActionEnabled | app/admin/users/page.tsx:217-229 | a status action is enabled exactly when taking it would change the user |
| AdminUsers.ActionsAfterChange | app/admin/users/page.tsx:214-230 | every user is offered exactly two of the three status actions, and the one just taken is disabled |
| AdminUsers.FilteredUsers | app/admin/users/page.tsx:24-32 | exactly the users whose name, e-mail or profile code holds the term, ignoring case |
| AdminUsers.EmptySearchShowsAll | app/admin/users/page.tsx:24-32 | an empty search shows every user |
| AdminUsers.SearchByProfileFindsAll | app/admin/users/page.tsx:30 | searching a profile code finds every user of that profile |
| AdminUsers.Stats | app/admin/users/page.tsx:88-93 | active, suspended and inactive add up to the total |
| AdminUsers.SetStatusStats | app/admin/users/page.tsx:48-50 | with unique ids, a change moves the user from the old status count to the new one |
| AdminUsers.UsersPage.constructor | app/admin/users/page.tsx:34-46 | the page starts with no users |
| AdminUsers.UsersPage.UpdateUserStatus | app/admin/users/page.tsx:48-50 | the list becomes `SetStatus` of the old one |
| AdminDashboard.DiffInMinutes | app/admin/dashboard/page.tsx:60 | the whole minutes elapsed, rounded down, negative for a future time |
| AdminDashboard.Bucket | app/admin/dashboard/page.tsx:62-65 | under one minute is "now", 1 to 59 minutes shows the minutes, 60 to 1439 shows 1 to 23 hours, from 1440 on at least one day; exactly one bucket holds |
| AdminDashboard.BucketMonotone | app/admin/dashboard/page.tsx:62-65 | a longer elapsed time never falls in an earlier bucket or shows a smaller number |
| AdminDashboard.FormatTimeAgo | app/admin/dashboard/page.tsx:57-66 | "Agora" exactly when less than a minute has elapsed |
| AdminDashboard.LabelNotNow | app/admin/dashboard/page.tsx:63-65 | a label with a positive number never reads "Agora" |
| AddressBook.NewAddress | components/address-manager.tsx:43-46 | the new address carries the form's fields and the given id |
| AddressBook.RemoveAddress | components/address-manager.tsx:74 | every address with the id leaves, all others stay; order is stated by `RemoveAddressKeepsOrder` and `RemoveAddressRemovesOne` |
| AddressBook.RemoveAddressKeepsOrder | components/address-manager.tsx:74 | the remaining addresses are a subsequence of the list: its order, each address once |
| AddressBook.RemoveAddressRemovesOne | components/address-manager.tsx:74 | with unique ids, deleting the address at k leaves exactly the ones before and after it, in order |
| AddressBook.SelectionAfterDelete | components/address-manager.tsx:78-82 | nothing is chosen when nothing remains; the first remaining address when the chosen one was deleted; the choice stays otherwise |
| AddressBook.DeleteSelectedChoosesFirstLeft | components/address-manager.tsx:73-83 | with unique ids, deleting the chosen address (others remaining) chooses the list's first address, or its second when the first was the one deleted |
| AddressBook.DeleteKeepsSelectionConsistent | components/address-manager.tsx:73-83 | after a delete, the choice is a saved address, and something is chosen whenever addresses remain |
| AddressBook.DeleteOtherKeepsChoice | components/address-manager.tsx:78-82 | deleting an address other than the chosen one keeps the choice |
| AddressBook.AddKeepsSelectionConsistent | components/address-manager.tsx:48-54 | adding keeps the choice consistent, choosing the new address when nothing was chosen |
| AddressBook.AddressManager.constructor | components/address-manager.tsx:17-26 | the book starts empty with the caller's choice and an empty form |
| AddressBook.AddressManager.Load | components/address-manager.tsx:28-38 | saved addresses replace the list and the first is chosen when nothing was |
| AddressBook.AddressManager.EditForm | components/address-manager.tsx:20-26 | the form inputs change the form only |
| AddressBook.AddressManager.HandleAddAddress | components/address-manager.tsx:40-71 | without all five fields nothing changes; otherwise the address is appended, chosen if nothing was, and the form reset |
| AddressBook.AddressManager.DeleteAddress | components/address-manager.tsx:73-83 | the list becomes `RemoveAddress` of the old one and the choice `SelectionAfterDelete`; the selection stays consistent |

## Left out

- Browser storage: reading and writing `localStorage` is left out. The saved lists reach the model as parameters of the `Load` methods, and the writes after each change are not modelled.
- The clock: `Date.now()` ids, `new Date()` timestamps and the local calendar day are parameters. The day is a `localDay` function applied to a timestamp and compared with `today`. Uniqueness of clock ids is an assumption of the lemmas that need it, not a fact the model derives.
- Number parsing and formatting: `parseFloat` and `parseInt` of form and filter text, NaN, `toFixed`, `toLocaleString`, `formatDate`, `formatCurrency` and the coupon discount formatting are left out. The read numbers are parameters, and a text that does not read as a number is `None`.
- Text: case folding is ASCII only, where `toLowerCase` folds all of Unicode. `localeCompare` is a `collationKey` parameter, so the order of the "nome" sort is whatever that key gives.
- Rendering: JSX, dialogs and their open/closed flags, tabs, charts, the online switch, the maps link, the seller's hard-coded sales data and recent orders, and the financial page are presentation only.
- Not part of this model:
  - the HTTP service classes of `lib/api.ts` and `lib/admin-api.ts` (network I/O);
  - the administrator login;
  - the layouts;
  - the approval-status and rating components.
- Concurrency: two couriers accepting the same delivery is not handled by this single-tab client and is not modelled.
- Mock fixtures: the hard-coded deliveries, profile and starting catalogue are left out.
- CourierDashboard.Accept and CourierDashboard.CompleteIn do not check the delivery's status, because the handlers do not either. On the courier page the accept buttons sit on the deliveries of the available list, whatever their status (the page assumes that list holds only waiting deliveries), and the finish buttons on the deliveries in transit (`Render` states both); only the details dialog gates accept by the waiting status (`DeliveryDetails.Actions`). The handlers never report an invalid transition, and an unknown id is silently ignored, as the code does.
- CourierDashboard.FilteredDeliveries follows the code, not the rule the "Distância máxima (km)" filter label suggests (app/entregador/dashboard/page.tsx:393), "only if distance ≤ limit": a delivery whose distance is unknown or not a number always passes the distance filter.
- BuyerDashboard.Dashboard.Checkout returns `false` where the code silently returns. There is no error value, because the page shows no message.
- The rule that a delivery has a courier exactly when it is in transit or delivered is not stated as an invariant. `Accepted` sets the courier and `Completed` keeps it, but loaded deliveries are taken as they come.

# Shofy mobile storefront: a verified model of its screen logic

This project models the logic of the Shofy React Native storefront that does
more than display data. Each module follows one source file.

- The recently-viewed list of the `RecentlyViewedProvider` is a
  most-recently-used list of products capped at 20, with no two entries for
  one product id. It is modelled as a class over a `seq<Product>`, and the
  same-category recommendations are read from it.
- The screens contribute list transforms and selection rules:
  - the product query and category suggestions of the home screen, and its
    wishlist toggle;
  - the advanced search's trigger, price filter and sort orders;
  - the comparison set, capped at four with no duplicate ids;
  - the quick reorder screen's ten newest delivered orders and its cart
    fan-out;
  - notifications derived from orders, and mark-as-read;
  - the review rating histogram, its bar percentages and the star rule;
  - order subtotals, line totals and the status timeline;
  - the checkout's default address and order payload.
- The forms contribute decision chains, each an outcome datatype:
  - the checkout, register, address and review guards;
  - the quantity stepper and stock badge;
  - the order in which the login screen picks its error message.

React state becomes a class whose fields the methods reassign (`modifies`).
Pure helpers become functions, and `forEach` loops become methods with loop
invariants. A network request is replaced by its outcome, passed in as a
parameter. `Option` results use `None` for a failed request, and `ApiResult`
is success or failure with the server's optional `message`. Calls into the
cart store (`addToCart`, `clearCart`) are recorded as values. The store
itself is not part of this model.

JavaScript truthiness is written out. An absent field is an `Option`, a
string tested for truthiness is empty when "absent", and `x || d` is
`GetOr`/`MessageOr`. A product of `undefined` fields, which JavaScript turns
into `NaN`, is `None`. Prices are exact reals and timestamps are integers.
`Array.prototype.sort`, which is stable, is the stable insertion sort
`Sorting.SortBy` applied to the comparator "its value is at most 0".

## Model

| member | source | states |
|---|---|---|
| RecentlyViewed.WithViewed | mobile-app/src/context/RecentlyViewedContext.js:45-54 | after viewing `p` the list is non-empty and at most 20 long, `p` is its head, and every other entry comes from the old list and has a different id |
| RecentlyViewed.ViewedKeepsUnique | mobile-app/src/context/RecentlyViewedContext.js:47-51 | a duplicate-free list stays duplicate-free after a view |
| RecentlyViewed.ViewedKeepsOrder | mobile-app/src/context/RecentlyViewedContext.js:47-51 | the entries after the head keep their old relative order; when the cap did not bite, no other product was lost |
| RecentlyViewed.FullListDropsOldest | mobile-app/src/context/RecentlyViewedContext.js:47-51 | viewing a new product when 20 are listed drops exactly the last (oldest) entry |
| RecentlyViewed.NewProductGrowsList | mobile-app/src/context/RecentlyViewedContext.js:47-51 | viewing a new product with room to spare prepends it to the unchanged list |
| RecentlyViewed.ReViewKeepsLength | mobile-app/src/context/RecentlyViewedContext.js:47-51 | re-viewing a listed product leaves the length unchanged |
| RecentlyViewed.FindById | mobile-app/src/context/RecentlyViewedContext.js:68 | `find` gives nothing iff no entry has the id, else the first entry with it |
| RecentlyViewed.Recommendations | mobile-app/src/context/RecentlyViewedContext.js:66-78 | empty when the current id is not listed; otherwise at most 4 listed products, none the current one, all of its category |
| RecentlyViewed.RecommendationsInOrder | mobile-app/src/context/RecentlyViewedContext.js:71-77 | recommendations keep list order, and every other same-category product is included unless 4 already are |
| RecentlyViewed.RecommendationsAreFirstMatches | mobile-app/src/context/RecentlyViewedContext.js:71-77 | for a listed current product, the recommendations are the same-category products of some prefix of the list (so the first ones), and there are min(4, number of such products) of them |
| RecentlyViewed.RecentlyViewedProvider.constructor | mobile-app/src/context/RecentlyViewedContext.js:15 | the list starts empty (and valid) |
| RecentlyViewed.RecentlyViewedProvider.AddToRecentlyViewed | mobile-app/src/context/RecentlyViewedContext.js:42-55 | a missing product or one without an id changes nothing; otherwise the list becomes `WithViewed`; the bound and uniqueness invariant is kept |
| RecentlyViewed.RecentlyViewedProvider.ClearRecentlyViewed | mobile-app/src/context/RecentlyViewedContext.js:57-64 | the list is emptied only when the stored copy was deleted, otherwise unchanged |
| Catalog.OrderLabel | mobile-app/src/screens/NotificationsScreen.js:38 | `Order #` followed by the last (up to) 8 characters of the id in capitals |
| Catalog.FilterKeepsUnique | mobile-app/src/context/RecentlyViewedContext.js:47 | filtering a duplicate-free list keeps it duplicate-free |
| Catalog.FilterDropsOne | mobile-app/src/context/RecentlyViewedContext.js:47 | in a duplicate-free list, filtering out one entry's id removes exactly one entry |
| Common.TrimmedParam | mobile-app/src/screens/HomeScreen.js:52-53 | a blank text is absent; otherwise its trimmed, non-empty form |
| Common.BlankIffAllSpace | mobile-app/src/screens/HomeScreen.js:52 | a text trims to empty exactly when every character is white space |
| Common.LowerChar | mobile-app/src/screens/HomeScreen.js:58 | a Latin-1 capital goes to its small letter (32 code points up); any other character is unchanged |
| Common.UpperChar | mobile-app/src/screens/NotificationsScreen.js:38 | a Latin-1 small letter goes to its capital (32 down, `ÿ` to U+0178, `µ` to U+039C); `ß` and non-letters are unchanged |
| Common.CaseRoundTrip | mobile-app/src/screens/HomeScreen.js:58 | lower- then upper-casing gives a capital back, and upper- then lower-casing gives a small letter back |
| Common.Trim | mobile-app/src/screens/HomeScreen.js:52 | the result is the slice of the text after its leading white space; everything cut at either end is white space, and the result neither starts nor ends with white space |
| Common.MessageOr | mobile-app/src/screens/CheckoutScreen.js:92 | `message || fallback`: a present non-empty message wins, otherwise the fallback |
| Sorting.SortBySorted | mobile-app/src/screens/AdvancedSearchScreen.js:87-100 | sorting by a total, transitive comparator gives a sorted permutation |
| Sorting.SortByAllTies | mobile-app/src/screens/AdvancedSearchScreen.js:97-98 | a comparator that never puts one element after another leaves the order unchanged (the sort is stable) |
| Sorting.SortByStable | mobile-app/src/screens/AdvancedSearchScreen.js:87-100 | stability in general: the elements of any class whose members all tie under the comparator appear in the sorted list in their input order |
| HomeScreen.ExactCategoryMatch | mobile-app/src/screens/HomeScreen.js:57-59 | nothing iff no category equals the text ignoring case; otherwise the first such category, in the list's own spelling |
| HomeScreen.ProductQueryFor | mobile-app/src/screens/HomeScreen.js:49-72 | blank search: only the trimmed category, if any; a search naming a known category: the first category in the list equal to it ignoring case, alone; any other search: the trimmed search plus the trimmed category, if any |
| HomeScreen.CategorySuggestions | mobile-app/src/screens/HomeScreen.js:145-149 | none for a blank search or no categories; otherwise at most 5 listed categories, each containing the trimmed search ignoring case |
| HomeScreen.SuggestionsInOrder | mobile-app/src/screens/HomeScreen.js:148 | suggestions keep the list order, and every matching category is suggested unless 5 already are |
| HomeScreen.SuggestionsAreFirstMatches | mobile-app/src/screens/HomeScreen.js:145-149 | for a non-blank search, the suggestions are the matching categories of some prefix of the list (so the first ones), and there are min(5, number of matching categories) of them |
| HomeScreen.Toggled | mobile-app/src/screens/HomeScreen.js:130-137 | toggling flips membership of that id and of no other |
| HomeScreen.ToggleTwice | mobile-app/src/screens/HomeScreen.js:125-142 | toggling one id twice restores the wishlist |
| HomeScreen.IdSet | mobile-app/src/screens/HomeScreen.js:93 | exactly the ids of the listed products |
| HomeScreen.HomeScreenState.constructor | mobile-app/src/screens/HomeScreen.js:30-38 | the screen starts with no products, search, category, categories or wishlist, and with suggestions hidden |
| HomeScreen.HomeScreenState.FetchProducts | mobile-app/src/screens/HomeScreen.js:49-79 | the query sent follows the three cases of `ProductQueryFor`, a search naming a known category sending the first such category alone; the products shown are the response, or none after a failure |
| HomeScreen.HomeScreenState.FetchWishlist | mobile-app/src/screens/HomeScreen.js:90-98 | the wishlist becomes the fetched products' ids, or empty after a failure |
| HomeScreen.HomeScreenState.ToggleWishlist | mobile-app/src/screens/HomeScreen.js:125-142 | DELETE for a wishlisted id, POST otherwise; the set is toggled only when the request succeeded |
| HomeScreen.HomeScreenState.HandleSearchChange | mobile-app/src/screens/HomeScreen.js:151-158 | the text is stored; suggestions show iff it is not blank |
| HomeScreen.HomeScreenState.HandleCategorySuggestionPress | mobile-app/src/screens/HomeScreen.js:160-164 | the suggestion becomes category and search, and suggestions hide |
| AdvancedSearch.AtLeast | mobile-app/src/screens/AdvancedSearchScreen.js:75-78 | an empty box passes every price, a number passes prices at or above it, an unparsable box (`NaN`) passes none |
| AdvancedSearch.AtMost | mobile-app/src/screens/AdvancedSearchScreen.js:80-83 | likewise for prices at or below the box |
| AdvancedSearch.PriceFiltered | mobile-app/src/screens/AdvancedSearchScreen.js:74-84 | results come from the fetch and respect each set bound; an unparsable bound empties them; every fetched product within the bounds is kept |
| AdvancedSearch.NoBoundsNoFilter | mobile-app/src/screens/AdvancedSearchScreen.js:75-84 | with both boxes empty nothing is filtered out |
| AdvancedSearch.PriceFilteredInOrder | mobile-app/src/screens/AdvancedSearchScreen.js:74-84 | the filtered results keep the fetched order |
| AdvancedSearch.SortedResults | mobile-app/src/screens/AdvancedSearchScreen.js:87-100 | sorting is a permutation of the filtered products |
| AdvancedSearch.PriceLowAscending | mobile-app/src/screens/AdvancedSearchScreen.js:89-90 | `price-low` gives non-decreasing prices |
| AdvancedSearch.PriceHighDescending | mobile-app/src/screens/AdvancedSearchScreen.js:91-92 | `price-high` gives non-increasing prices |
| AdvancedSearch.NewestFirst | mobile-app/src/screens/AdvancedSearchScreen.js:95-96 | `newest` gives non-increasing creation times |
| AdvancedSearch.NameOrdered | mobile-app/src/screens/AdvancedSearchScreen.js:93-94 | `name` gives titles in order whenever the title order is a total preorder |
| AdvancedSearch.RelevanceKeepsOrder | mobile-app/src/screens/AdvancedSearchScreen.js:97-98 | `relevance` keeps the fetched order |
| AdvancedSearch.EqualPricesKeepOrder | mobile-app/src/screens/AdvancedSearchScreen.js:89-92 | under `price-low` and `price-high`, products of the same price keep their fetched order |
| AdvancedSearch.EqualDatesKeepOrder | mobile-app/src/screens/AdvancedSearchScreen.js:95-96 | under `newest`, products created at the same time keep their fetched order |
| AdvancedSearch.EqualTitlesKeepOrder | mobile-app/src/screens/AdvancedSearchScreen.js:93-94 | under `name`, products with the same title keep their fetched order |
| AdvancedSearch.SearchImpliesActiveFilters | mobile-app/src/screens/AdvancedSearchScreen.js:119 | whenever a search runs, the active-filter indicator is on |
| AdvancedSearch.ShouldSearch | mobile-app/src/screens/AdvancedSearchScreen.js:38-46 | a search runs iff the query has a non-white-space character or a category is selected |
| AdvancedSearch.HasActiveFilters | mobile-app/src/screens/AdvancedSearchScreen.js:119 | no filter is active iff the query, the category and both price boxes are all empty |
| AdvancedSearch.AdvancedSearchState.constructor | mobile-app/src/screens/AdvancedSearchScreen.js:25-31 | empty query and category, empty price boxes, `relevance`, no results |
| AdvancedSearch.AdvancedSearchState.PerformSearch | mobile-app/src/screens/AdvancedSearchScreen.js:58-109 | `search` is the trimmed query when not blank, `category` the selected one when set; results are the response filtered and sorted, or none after a failure |
| AdvancedSearch.AdvancedSearchState.OnCriteriaChanged | mobile-app/src/screens/AdvancedSearchScreen.js:38-47 | a request is made iff the trimmed query is not blank or a category is selected; otherwise results are cleared |
| AdvancedSearch.AdvancedSearchState.ClearFilters | mobile-app/src/screens/AdvancedSearchScreen.js:111-117 | every criterion back to its default, no results, and no active filter |
| ProductComparison.WithoutProduct | mobile-app/src/screens/ProductComparisonScreen.js:48-50 | no entry with the id remains, and every other entry stays |
| ProductComparison.WithoutProductKeepsOrder | mobile-app/src/screens/ProductComparisonScreen.js:49 | removal keeps the order of the rest, and removing an absent id changes nothing |
| ProductComparison.AddThenRemove | mobile-app/src/screens/ProductComparisonScreen.js:49-57 | appending an accepted product and removing its id restores the list |
| ProductComparison.AddKeepsWellFormed | mobile-app/src/screens/ProductComparisonScreen.js:56-57 | an accepted addition keeps at most 4 products with distinct ids |
| ProductComparison.CanAdd | mobile-app/src/screens/ProductComparisonScreen.js:56-57 | a product is accepted iff fewer than 4 are compared and none has its id; the list then stays within 4 |
| ProductComparison.RemoveKeepsWellFormed | mobile-app/src/screens/ProductComparisonScreen.js:48-50 | removal keeps at most 4 products with distinct ids |
| ProductComparison.ProductComparisonState.constructor | mobile-app/src/screens/ProductComparisonScreen.js:23 | the comparison starts empty |
| ProductComparison.ProductComparisonState.Initialize | mobile-app/src/screens/ProductComparisonScreen.js:26-46 | the route's products as given; otherwise the first (at most) 2 fetched; a failed fetch leaves the list as it was |
| ProductComparison.ProductComparisonState.OnSelect | mobile-app/src/screens/ProductComparisonScreen.js:55-61 | accepted iff fewer than 4 are compared and the id is new; then appended, otherwise the list is unchanged |
| ProductComparison.ProductComparisonState.RemoveProduct | mobile-app/src/screens/ProductComparisonScreen.js:48-50 | the list becomes `WithoutProduct` of the old one, and stays well formed |
| QuickReorder.NewerFirstIsOrdering | mobile-app/src/screens/QuickReorderScreen.js:38 | the newest-first comparator is total and transitive |
| QuickReorder.DeliveredNewestFirst | mobile-app/src/screens/QuickReorderScreen.js:36-38 | exactly the delivered orders, by non-increasing creation time |
| QuickReorder.EqualDatesKeepOrder | mobile-app/src/screens/QuickReorderScreen.js:36-38 | delivered orders created at the same time keep their fetched order |
| QuickReorder.PreviousOrders | mobile-app/src/screens/QuickReorderScreen.js:36-39 | min(10, number of delivered) fetched orders, all delivered, newest first; all delivered orders when there are at most 10 |
| QuickReorder.PreviousOrdersAreNewest | mobile-app/src/screens/QuickReorderScreen.js:36-39 | exactly min(10, number of delivered) delivered orders are kept, and no delivered order left out is newer than any kept: the kept ones are the newest |
| QuickReorder.PreviousOrdersKeepFirstOfTies | mobile-app/src/screens/QuickReorderScreen.js:36-39 | when the cut of 10 falls among orders with the same creation time, the ones kept are the first of them in fetched order |
| QuickReorder.ReorderCalls | mobile-app/src/screens/QuickReorderScreen.js:57-61 | no more cart calls than lines |
| QuickReorder.ReorderCallsMatchItems | mobile-app/src/screens/QuickReorderScreen.js:57-61 | one call per line that has a product, in line order, with that line's product and quantity |
| QuickReorder.HandleReorder | mobile-app/src/screens/QuickReorderScreen.js:49-72 | no calls and a "no items" outcome for missing or empty items; otherwise the calls of `ReorderCalls`, with both the count the toast shows as written (every line) and the number of lines actually added |
| QuickReorder.ReorderToastCountAsWritten | mobile-app/src/screens/QuickReorderScreen.js:66 | (as written) the success toast counts every line |
| QuickReorder.ToastCountsSkippedLines | mobile-app/src/screens/QuickReorderScreen.js:57-66 | a one-line order whose product is gone: the toast says 1 item while no call is made |
| QuickReorder.ReportedCountIsAddedLines | mobile-app/src/screens/QuickReorderScreen.js:57-66 | the reported count is the number of lines with a product, and equals the line count iff every line has one |
| QuickReorder.AllAddedIff | mobile-app/src/screens/QuickReorderScreen.js:57-61 | every line is added to the cart iff every line still has its product |
| QuickReorder.ItemsSum | mobile-app/src/screens/QuickReorderScreen.js:75 | the sum is a number iff every line has a price and a quantity (one missing field makes it `NaN`) |
| QuickReorder.OrderTotal | mobile-app/src/screens/QuickReorderScreen.js:74-76 | without items, or with an incomplete line, the stored total (or 0) |
| QuickReorder.ItemsSumNonNegative | mobile-app/src/screens/QuickReorderScreen.js:75 | non-negative prices and quantities give a non-negative sum |
| QuickReorder.OrderTotalNonNegative | mobile-app/src/screens/QuickReorderScreen.js:74-76 | with non-negative prices, quantities and stored total, the shown total is non-negative |
| QuickReorder.QuickReorderState.constructor | mobile-app/src/screens/QuickReorderScreen.js:22 | the list starts empty |
| QuickReorder.QuickReorderState.FetchPreviousOrders | mobile-app/src/screens/QuickReorderScreen.js:30-47 | the list becomes `PreviousOrders` of the response; a failed request keeps it |
| Notifications.IconAgreesWithTitle | mobile-app/src/screens/NotificationsScreen.js:57-88 | an order notification shows the bell iff its title is the generic "Order Update"; any other type always shows it |
| Notifications.Title | mobile-app/src/screens/NotificationsScreen.js:57-70 | "Order " followed by the status for Delivered, Shipped, Processing and Cancelled; "Order Update" iff any other status |
| Notifications.Icon | mobile-app/src/screens/NotificationsScreen.js:72-88 | for an order notification, each of the four statuses has its own icon, each an iff; the bell iff the type is not `order` or the status is any other |
| Notifications.ToNotification | mobile-app/src/screens/NotificationsScreen.js:34-43 | id and orderId are the order's id, type `order`, unread, the status and its title, the label message, dated `updatedAt` else `createdAt` |
| Notifications.ToNotifications | mobile-app/src/screens/NotificationsScreen.js:34-43 | one notification per order, position by position |
| Notifications.OrderNotifications | mobile-app/src/screens/NotificationsScreen.js:34-46 | a permutation of the mapped orders, latest date first, all unread orders |
| Notifications.EqualDatesKeepOrder | mobile-app/src/screens/NotificationsScreen.js:34-46 | notifications of the same date keep the order of the fetched orders |
| Notifications.NotificationPerOrder | mobile-app/src/screens/NotificationsScreen.js:34-46 | every order has its notification in the list and every listed one comes from an order |
| Notifications.MarkedRead | mobile-app/src/screens/NotificationsScreen.js:111-115 | same length and positions; an entry is read iff it was or has the id; nothing but `read` changes |
| Notifications.MarkedReadIdempotent | mobile-app/src/screens/NotificationsScreen.js:111-115 | marking an id twice equals marking it once |
| Notifications.NotificationsState.constructor | mobile-app/src/screens/NotificationsScreen.js:18 | the list starts empty |
| Notifications.NotificationsState.FetchNotifications | mobile-app/src/screens/NotificationsScreen.js:26-55 | the list becomes `OrderNotifications` of the response; a failed request keeps it |
| Notifications.NotificationsState.Press | mobile-app/src/screens/NotificationsScreen.js:161-164 | opens the order iff the notification names one, and marks it read |
| Checkout.DefaultAddress | mobile-app/src/screens/CheckoutScreen.js:40 | nothing iff no addresses; otherwise a listed address: the first default one, else the first |
| Checkout.FirstDefault | mobile-app/src/screens/CheckoutScreen.js:40 | nothing iff no address is default; otherwise the first default address |
| Checkout.PlaceOrderGuard | mobile-app/src/screens/CheckoutScreen.js:50-64 | one iff per guard in source order: "select an address", "add an address first", "cart is empty"; none iff an address is selected, addresses exist and the cart is not empty |
| Checkout.ShippingAddressOf | mobile-app/src/screens/CheckoutScreen.js:68-75 | the six address fields copied unchanged |
| Checkout.OrderPayloadFor | mobile-app/src/screens/CheckoutScreen.js:77-84 | one line per cart item in cart order with its product id and quantity, the shipping address and the payment method |
| Checkout.DisplayedTotal | mobile-app/src/screens/CheckoutScreen.js:221-231 | cart total plus 100 for cash on delivery, the cart total otherwise |
| Checkout.EnabledButtonGuards | mobile-app/src/screens/CheckoutScreen.js:50-64 | with the default address selected and the button enabled, the only guard that can fire is the empty cart |
| Checkout.ButtonDisabled | mobile-app/src/screens/CheckoutScreen.js:239 | the button is enabled iff no order is being placed and there is an address to select |
| Checkout.CheckoutState.constructor | mobile-app/src/screens/CheckoutScreen.js:23-28 | no addresses, none selected, cash on delivery, not placed |
| Checkout.CheckoutState.LoadAddresses | mobile-app/src/screens/CheckoutScreen.js:34-47 | the list and its default address; a failed request keeps both |
| Checkout.CheckoutState.HandlePlaceOrder | mobile-app/src/screens/CheckoutScreen.js:49-97 | a failing guard refuses with its error and posts nothing; else the payload is posted; the cart is cleared and success shown only when the post succeeded; otherwise the server's message or "Order failed" |
| ProductDetails.StockLabelFor | mobile-app/src/screens/ProductDetailsScreen.js:67 | out of stock iff 0, low stock iff not 0 and at most 10, in stock iff above 10 |
| ProductDetails.DisabledIffOutOfStock | mobile-app/src/screens/ProductDetailsScreen.js:178 | for a non-negative stock the button is disabled iff the badge says out of stock |
| ProductDetails.LabelText | mobile-app/src/screens/ProductDetailsScreen.js:67 | "Out of stock", "Low stock" and "In stock", each text iff its label |
| ProductDetails.AddDisabled | mobile-app/src/screens/ProductDetailsScreen.js:178 | the add button is disabled (apart from while adding) iff no whole item is in stock; when enabled the badge never says out of stock |
| ProductDetails.StepDown | mobile-app/src/screens/ProductDetailsScreen.js:156 | never below 1, one less above 1 |
| ProductDetails.StepUp | mobile-app/src/screens/ProductDetailsScreen.js:163 | never above the stock nor more than one up, one more below the stock |
| ProductDetails.StepperStaysInRange | mobile-app/src/screens/ProductDetailsScreen.js:156-163 | starting from 1, both buttons keep the quantity at most the stock (or 1 when out of stock) and at least 1 unless it equals the stock |
| ProductDetails.InRangeNeverRefused | mobile-app/src/screens/ProductDetailsScreen.js:43-46 | a stepper-reachable quantity is refused only when the button is disabled anyway |
| ProductDetails.ProductDetailsState.constructor | mobile-app/src/screens/ProductDetailsScreen.js:28-31 | the route's product, quantity 1 |
| ProductDetails.ProductDetailsState.ReplaceWithFetched | mobile-app/src/screens/ProductDetailsScreen.js:36 | the product becomes the fetched one |
| ProductDetails.ProductDetailsState.Decrement | mobile-app/src/screens/ProductDetailsScreen.js:156 | the quantity steps down and stays in range |
| ProductDetails.ProductDetailsState.Increment | mobile-app/src/screens/ProductDetailsScreen.js:163 | the quantity steps up and stays in range |
| ProductDetails.ProductDetailsState.HandleAddToCart | mobile-app/src/screens/ProductDetailsScreen.js:42-54 | no call iff the product is missing or its stock is below the quantity; otherwise `addToCart(product, quantity)` |
| ProductReviews.CountRating | mobile-app/src/screens/ProductReviewsScreen.js:141-143 | no count exceeds the number of reviews |
| ProductReviews.RatingDistribution | mobile-app/src/screens/ProductReviewsScreen.js:139-145 | keys 1 to 5 always present, a key iff it is 1 to 5 or some review's rating, each value that rating's count |
| ProductReviews.NoRatingNoCount | mobile-app/src/screens/ProductReviewsScreen.js:141-143 | a rating nobody gave has count 0 |
| ProductReviews.FiveBarsCountEveryReview | mobile-app/src/screens/ProductReviewsScreen.js:139-145 | with ratings in 1 to 5 the five counts add up to the number of reviews |
| ProductReviews.Percentage | mobile-app/src/screens/ProductReviewsScreen.js:194 | 0 without reviews, between 0 and 100 for a count within the total, 100 when it is the total |
| ProductReviews.SharesAdd | mobile-app/src/screens/ProductReviewsScreen.js:194 | the shares of two counts add up to the share of their sum |
| ProductReviews.FiveSharesMakeWhole | mobile-app/src/screens/ProductReviewsScreen.js:192-194 | five shares whose counts make up the total add up to 100 |
| ProductReviews.BarsAddUpToWhole | mobile-app/src/screens/ProductReviewsScreen.js:192-194 | with reviews rated 1 to 5, the five bars add up to 100 |
| ProductReviews.OwnReview | mobile-app/src/screens/ProductReviewsScreen.js:47 | nothing iff no review's user id equals the current one; otherwise the first that does |
| ProductReviews.OwnReviewMatching | mobile-app/src/screens/ProductReviewsScreen.js:47 | signed in, the match is by user id; signed out, a review without a user counts as one's own |
| ProductReviews.SubmitGuard | mobile-app/src/screens/ProductReviewsScreen.js:62-70 | "select a rating" iff rating below 1, "please login" iff rated but signed out, none iff rated and signed in |
| ProductReviews.Stars | mobile-app/src/screens/ProductReviewsScreen.js:121-129 | five stars |
| ProductReviews.StarsFillFromLeft | mobile-app/src/screens/ProductReviewsScreen.js:129 | star `i + 1` is filled iff `i + 1 <= rating`, so filled stars come first |
| ProductReviews.SubmitOutcomeFor | mobile-app/src/screens/ProductReviewsScreen.js:61-90 | refused by the first failing guard; else the trimmed payload is posted; submitted iff the post succeeded, as an update iff there was an own review; else the server's message or "Failed to submit review" |
| ProductReviews.ProductReviewsState.constructor | mobile-app/src/screens/ProductReviewsScreen.js:25-32 | no reviews, average 0, empty form, no own review |
| ProductReviews.ProductReviewsState.FetchReviews | mobile-app/src/screens/ProductReviewsScreen.js:38-59 | list and average (defaults when missing), the own review, which fills the form; a failed request changes nothing |
| ProductReviews.ProductReviewsState.HandleSubmitReview | mobile-app/src/screens/ProductReviewsScreen.js:61-90 | the outcome of `SubmitOutcomeFor` for the form; the form closes only on success |
| ProductReviews.ProductReviewsState.DeleteOwnReview | mobile-app/src/screens/ProductReviewsScreen.js:101-111 | deletes the own review's id; the form resets only when the delete succeeded |
| OrderDetails.Subtotal | mobile-app/src/screens/OrderDetailsScreen.js:120 | 0 for no items |
| OrderDetails.SubtotalAppend | mobile-app/src/screens/OrderDetailsScreen.js:120 | the subtotal of two item lists joined is the sum of their subtotals |
| OrderDetails.SubtotalNonNegative | mobile-app/src/screens/OrderDetailsScreen.js:120 | non-negative prices and quantities give a non-negative subtotal |
| OrderDetails.SubtotalAgreesWithReorderSum | mobile-app/src/screens/OrderDetailsScreen.js:120 | on complete lines this screen's subtotal equals the quick reorder screen's sum |
| OrderDetails.ReorderTotalIsSubtotal | mobile-app/src/screens/QuickReorderScreen.js:74-76 | on complete lines the quick reorder total is this screen's subtotal when non-zero, the stored total (or 0) otherwise |
| OrderDetails.LineTotal | mobile-app/src/screens/OrderDetailsScreen.js:95 | `NaN` iff the quantity is missing; otherwise the line amount with a missing price as 0 |
| OrderDetails.LineTitle | mobile-app/src/screens/OrderDetailsScreen.js:92 | the line's own non-empty title, else the product's title |
| OrderDetails.Timeline | mobile-app/src/screens/OrderDetailsScreen.js:28 | the status history when present, else one entry with the current status |
| OrderDetails.StatusColor | mobile-app/src/screens/OrderDetailsScreen.js:31-43 | success for Delivered, primary for Shipped and Processing, error for Cancelled, the secondary text colour iff any other status |
| OrderDetails.Summary | mobile-app/src/screens/OrderDetailsScreen.js:119-140 | the subtotal row is the items' subtotal (no items as none); the shipping row shows iff the charge is positive, with that charge; the total row is the stored total |
| OrderDetails.SummaryAddsUpIff | mobile-app/src/screens/OrderDetailsScreen.js:119-140 | the rows add up iff the stored total equals the recomputed subtotal plus the shown shipping: the total is never recomputed |
| OrderDetails.SummaryMayNotAddUp | mobile-app/src/screens/OrderDetailsScreen.js:119-140 | two items at 10 and a stored total of 5 show a subtotal of 20 above a total of 5 |
| OrderDetails.PaymentLabel | mobile-app/src/screens/OrderDetailsScreen.js:144 | the order's payment method when non-empty, else `COD` |
| Register.RegisterGuard | mobile-app/src/screens/RegisterScreen.js:29-42 | one iff per check in source order: an empty field, then mismatched passwords, then a password under 6 characters; none iff all pass |
| Register.HandleRegister | mobile-app/src/screens/RegisterScreen.js:28-56 | refused iff a check fails; `register` is called only with matching passwords of at least 6 characters; a failure shows the server's message or "Registration failed" |
| Login.LoginErrorMessage | mobile-app/src/screens/LoginScreen.js:37-47 | in precedence order: the server's message, an error message mentioning "Cannot connect", the timeout text for `ECONNABORTED`, the connection checklist for "Network Error" or no response, else "Login failed" |
| Login.NoResponseIsExplained | mobile-app/src/screens/LoginScreen.js:39-47 | with no server message and no response, the toast never says just "Login failed": it explains the connection or the timeout |
| Login.HandleLogin | mobile-app/src/screens/LoginScreen.js:26-59 | "fill all fields" iff a field is empty; logged in iff both are filled and login succeeded; otherwise the chosen error message |
| AddEditAddress.InitialForm | mobile-app/src/screens/AddEditAddressScreen.js:24-30 | every field from the edited address, else empty and not default |
| AddEditAddress.PayloadOf | mobile-app/src/screens/AddEditAddressScreen.js:41-49 | `addressLine` sent as `address`, the other fields unchanged |
| AddEditAddress.SaveRequestFor | mobile-app/src/screens/AddEditAddressScreen.js:34-57 | no request iff a text field is empty; PUT to the edited id when editing, POST otherwise |
| AddEditAddress.UntouchedEditRoundTrip | mobile-app/src/screens/AddEditAddressScreen.js:24-52 | saving an untouched edit of a complete address sends its own fields back to its own id |
| AddEditAddress.NewFormNotSavable | mobile-app/src/screens/AddEditAddressScreen.js:24-37 | a new, untouched form is never sent |
| AddEditAddress.AddEditAddressState.constructor | mobile-app/src/screens/AddEditAddressScreen.js:21-30 | the route's address, and the form initialised from it |
| AddEditAddress.AddEditAddressState.HandleSave | mobile-app/src/screens/AddEditAddressScreen.js:33-67 | the request of `SaveRequestFor`, PUT iff editing; goes back iff a request succeeded; "Please fill all fields", the success text, or the server's message or "Failed to save" |

## Left out

- The cart store (`addToCart`, `clearCart`, `cartTotal`) and the quantity-discount helper `getQuantityDiscount`: `mobile-app/src/context/CartContext.js` and `mobile-app/src/utils/price.js` are not part of this model. Cart calls are recorded as values, and the cart total is a parameter.
- HTTP client, interceptors and every request: network I/O. Each request is replaced by its outcome, passed in as a parameter.
- Loading the recently-viewed list from the device store and saving it there: storage I/O. Only the in-memory list is modelled. Clearing takes the outcome of the store's delete as a parameter.
- The `viewedAt` timestamp added to a viewed product: wall-clock time.
- Debounce timers, the suggestion blur delay, loading, refreshing, placing and submitting flags, toasts' titles and timings, colours, icons' colours and navigation calls: timing and presentation. Where a screen navigates as part of an outcome (opening an order, going back after saving), that is reported as a result.
- `fetchCategories` on the home and advanced search screens: a plain fetch. The categories are a field the caller sets.
- `res.data.data || []`: a response is modelled as already holding its list, so a response without `data` is not distinguished from a failed one.
- `parseFloat` on the price boxes: a box is modelled already parsed, as empty, a number, or unparsable.
- `localeCompare`: the `name` order is a parameter, assumed a total preorder where that matters.
- `Date` parsing: timestamps are integers.
- `toFixed`, `toLocaleString` and `Math.round` of the average rating: number formatting. The stars are modelled for an integer rating.
- Floating point: prices are exact reals, so rounding error and overflow are not modelled.
- String handling: `trim` removes ASCII white space, the Latin-1 no-break space and the byte-order mark only. `toLowerCase` and `toUpperCase` map the Latin-1 letters only. Lengths count characters rather than UTF-16 code units.
- `Common.UpperChar`, `Common.Upper`: `ß` is left as it is, whereas JavaScript upper-cases it to the two letters "SS", which would change the length.
- `AdvancedSearch.SortedResults`, `Notifications.OrderNotifications`, `QuickReorder.DeliveredNewestFirst`: the in-place `sort` is modelled as a stable sort producing a new sequence.
- `getNotificationColor`: a colour lookup for display.
- The comparison screen's per-product "Add to Cart" button and the stale-closure snapshot in `onSelect`. The guard reads the list captured when the search screen was opened, and the model checks the current list. The two agree because the search screen calls `onSelect` once and goes back.
- `ProductDetails.ProductDetailsState.Increment` requires a product, because the stepper is only drawn once the product is present. The failed-fetch path of the details request is not modelled; its product is passed in.
- The reviews form is only drawn for a signed-in user. The model still covers the signed-out guard. Re-fetching after a submit or delete is the caller's next `FetchReviews`.
- The quick reorder screen's "Failed to reorder" branch: no step of `handleReorder` in the model can throw.
- The input setters of the address form: its fields are public, assignable fields of the class.
- `QuickReorder.ItemsSum`: a line whose price or quantity is JSON `null` is modelled like one where it is missing (`NaN`), whereas JavaScript computes `null * q` as 0. The model has one "absent" value for both.
- `OrderDetails.LineTotal`: likewise a `null` quantity is modelled as missing (`NaN`), whereas JavaScript computes `(price || 0) * null` as 0.
- `QuickReorder.OrderTotal`: its contract states the fallback cases only; the relation to the subtotal when every line is complete is `OrderDetails.ReorderTotalIsSubtotal`.

## Findings

| source | as written | input that shows it | evidently intended | confidence | as-written member | corrected member |
|---|---|---|---|---|---|---|
| mobile-app/src/screens/QuickReorderScreen.js:66 | the success toast reports `order.items.length` items added, counting lines skipped at line 58 for having no product | an order with one line whose `product` is null: the toast says "1 item(s) added" while `addToCart` is never called | report the number of lines actually added to the cart | medium, not executed | QuickReorder.ToastCountsSkippedLines | QuickReorder.ReportedCountIsAddedLines |

`QuickReorder.HandleReorder` reports both counts: the one the toast shows as written and the corrected one, the number of cart calls made.

# MIT Student Marketplace — a Dafny model of its cart, checkout and catalogue logic

The MIT Student Marketplace is a React storefront over a hosted key-value
database. Under its markup there is a small amount of list, map and string
logic, and this project models it:

- **the cart context** (`CartContext`): a per-user cart of items, mirrored as
  one document at `carts/{uid}`, with load, add, remove, set-quantity and empty;
- **the checkout page** (`PaymentForm`): the order total, the eight-field form,
  and the submit handler that writes an order snapshot, clears the cart and resets the form;
- **the cart page** (`CartPage`): the per-item quantity map, its totals, and
  the clamping quantity handlers;
- **the marketplace page** (`Marketplace`): category slugs, filtering by the
  route's category, eight-per-page pagination with clamped Previous/Next, and
  the Add-to-Cart guard;
- **the home page** (`Home`): the first four products of each featured category,
  and the links to the marketplace filters;
- **the help chatbot** (`Chatbot`): the case-insensitive FAQ matcher and the
  append-only message log;
- **the orders page** (`OrderPage`): payment records flattened into a list of orders;
- **the dummy payment endpoint** (`PaymentServer`): the required-field check and
  the simulated outcome;
- **the stand-alone payment gateway form** (`PaymentGateway`): the month/year
  expiry formatting and the form's handlers.

Two helper modules hold what these share. `Common` has `Option`, the product/cart
item and the product records from the snapshot. `Text` has JavaScript's
whitespace, ASCII lower-casing, substring search, decimal printing,
`parseInt`, and `toFixed(2)` over integer paise.

The pieces of state that the source updates in place are classes whose
methods say, with `modifies`, what they change:

- `CartStore` holds the cart and the remote `carts/` subtree;
- `PaymentPage` holds the form, the modal flag and the remote payments;
- `CartView` holds the quantity map;
- `MarketplacePage` holds the products and the current page;
- `ChatWindow` holds the open flag, the log and the input;
- `GatewayForm` holds the gateway's fields.

Several things become parameters of the handlers that use them:

- the outcome of each remote read and write;
- the signed-in user;
- the clock (`Date.now()`, `toISOString()`);
- the random draw of the endpoint;
- whether the endpoint can be reached.

Modelling decisions:

- Money is integer paise. `totalPrice.toFixed(2)` is `Text.Fixed2` of the paise total.
- `item.quantity || 1` is `Common.ItemQty`: a missing or zero quantity counts as one.
- Where the code does not match a plain-words description of it, the model follows the code:
  - **Product ids.** The products list is built as `{id: key, ...record}`. A stored record that carries an `id` of its own keeps that id, so the id equals the key only when the record has none (`Common.ProductsFromSnapshot`).
  - **Commit order.** `addToCart` and `updateCartQuantity` commit the new cart in memory only once the remote write succeeds. `removeFromCart` and `emptyCart` commit it whatever the write does.
  - **Order keys.** An order's key is the clock value in milliseconds. Two orders placed at the same clock value share a key, and the later overwrites the earlier (`PaymentForm.OrderKeyCollides`).
  - **Order status.** The order snapshot has no `status` field. The orders page therefore shows every freshly placed order as "Pending" (`OrderPage.PlacedOrderIsListed`).
  - **Loading the cart.** A failed read of `carts/{uid}` is not caught, so nothing is committed (`CartContext.CartStore.Load` with `readOk` false).

## Model

| member | source | states |
|---|---|---|
| Common.ItemQty | Mit_Marketplace/mit-market/src/pages/paymentForm.jsx:59 | the item's quantity, or 1 in its place: never zero; a missing or zero quantity is 1, any other is kept |
| Common.ProductsFromSnapshot | Mit_Marketplace/mit-market/src/pages/Home.jsx:23-26 | one product per snapshot entry, in order, each with the record's fields and the key as id unless the record carries its own |
| Common.ProductIdsAreKeys | Mit_Marketplace/mit-market/src/pages/Home.jsx:23-26 | when no stored record has an id field, the i-th product's id is the i-th key |
| Text.Lower | Mit_Marketplace/mit-market/src/pages/Marketplace.jsx:64 | `toLowerCase` keeps the length and maps each character on its own |
| Text.IsSpace | Mit_Marketplace/mit-market/src/pages/Marketplace.jsx:64 | a character of JavaScript's `\s` class, the WhiteSpace and LineTerminator code points; lower-casing keeps a character in or out of it (Text.LowerChar) |
| Text.IsBlank | Mit_Marketplace/mit-market/src/components/chatBot.jsx:28 | `s.trim() === ''`: every character is whitespace; ChatWindow.HandleUserMessage changes nothing exactly then |
| Text.Contains | Mit_Marketplace/mit-market/src/components/chatBot.jsx:32 | `s.includes(p)`; Text.ContainsAt shows it holds exactly when `p` occurs in `s` at some offset |
| Text.ContainsAt | Mit_Marketplace/mit-market/src/components/chatBot.jsx:32 | `includes` holds exactly when the text occurs at some offset, in both directions |
| Text.LowerChar | Mit_Marketplace/mit-market/src/pages/Marketplace.jsx:64 | an upper-case letter A–Z becomes the lower-case letter at the same position in the alphabet; every other character is kept; the result is never upper case and is whitespace exactly when the input is |
| Text.DropSpaces | Mit_Marketplace/mit-market/src/pages/cart.jsx:107 | `parseInt` skips exactly the leading whitespace: what remains is a suffix starting with a non-space |
| Text.ParseIntRoundTrip | Mit_Marketplace/mit-market/src/pages/cart.jsx:107 | `parseInt(s, 10)` reads back every integer printed in decimal |
| Text.ParseInt | Mit_Marketplace/mit-market/src/pages/cart.jsx:107 | `parseInt(s, 10)`: skip leading whitespace, an optional sign, then the longest digit run; NaN when there is none. Text.ParseIntRoundTrip shows that it reads back every printed integer |
| Text.NatToStringRoundTrip | Mit_Marketplace/mit-market/src/pages/paymentForm.jsx:65 | the decimal numeral of a clock value consists of digits and reads back as that value |
| Text.NatToStringInjective | Mit_Marketplace/mit-market/src/pages/paymentForm.jsx:65 | distinct clock values print as distinct numerals |
| Text.NatToString | Mit_Marketplace/mit-market/src/pages/paymentForm.jsx:65 | a template numeral of a non-negative number: at least one digit, and no leading zero except for 0 itself; Text.NatToStringRoundTrip reads it back |
| Text.IntToString | Mit_Marketplace/vite-project/src/React.jsx:30-32 | a template numeral of an integer: non-empty, with a leading minus exactly for negatives; Text.ParseIntRoundTrip reads it back |
| Text.Fixed2 | Mit_Marketplace/mit-market/src/pages/paymentForm.jsx:79 | `toFixed(2)` prints two decimals after a point and a minus sign exactly for negative amounts |
| Text.Fixed2RoundTrip | Mit_Marketplace/mit-market/src/pages/paymentForm.jsx:79 | the printed total reads back as the same number of paise |
| CartContext.WithProduct | Mit_Marketplace/mit-market/src/contexts/cartContext.jsx:36-45 | a present id leaves the cart exactly as it was; otherwise the new cart is the old one followed by the product; either way it holds the id and keeps ids distinct |
| CartContext.HasId | Mit_Marketplace/mit-market/src/contexts/cartContext.jsx:36 | `cart.some(item => item.id === id)`; CartContext.WithProduct keeps the cart exactly when it holds, and CartContext.WithoutIdSpec shows removing makes it false |
| CartContext.WithoutIdSpec | Mit_Marketplace/mit-market/src/contexts/cartContext.jsx:60 | after the filter, an item is in the cart exactly when it was before and has another id; the id is gone |
| CartContext.WithoutId | Mit_Marketplace/mit-market/src/contexts/cartContext.jsx:60 | the filter never lengthens the cart |
| CartContext.WithoutIdAppend | Mit_Marketplace/mit-market/src/contexts/cartContext.jsx:60 | the filter keeps the order of what stays (it distributes over concatenation) |
| CartContext.WithoutIdAbsent | Mit_Marketplace/mit-market/src/contexts/cartContext.jsx:60 | removing an id that is not in the cart changes nothing |
| CartContext.AddThenRemove | Mit_Marketplace/mit-market/src/contexts/cartContext.jsx:36-64 | removing a product just added to a cart without its id gives back that cart |
| CartContext.WithoutIdDistinct | Mit_Marketplace/mit-market/src/contexts/cartContext.jsx:60 | removing keeps ids distinct |
| CartContext.WithQuantity | Mit_Marketplace/mit-market/src/contexts/cartContext.jsx:72-74 | same length; matching items get exactly the new quantity, unclamped; every other field and every other item is unchanged |
| CartContext.WithQuantityKeepsIds | Mit_Marketplace/mit-market/src/contexts/cartContext.jsx:72-74 | setting a quantity keeps the ids, in order |
| CartContext.WithQuantityIdempotent | Mit_Marketplace/mit-market/src/contexts/cartContext.jsx:72-74 | setting the same quantity twice is setting it once |
| CartContext.CartStore.constructor | Mit_Marketplace/mit-market/src/contexts/cartContext.jsx:8-9 | no user and an empty cart over the given remote subtree |
| CartContext.CartStore.Load | Mit_Marketplace/mit-market/src/contexts/cartContext.jsx:11-28 | no user gives `[]`; a successful read gives the stored document, or `[]` without one, so memory and store agree; a failed read commits nothing |
| CartContext.CartStore.Add | Mit_Marketplace/mit-market/src/contexts/cartContext.jsx:30-54 | no user or a present id is a no-op; else a successful write makes both memory and store `old ++ [product]`, a failed one changes nothing; synchronisation and id-distinctness are kept |
| CartContext.CartStore.Remove | Mit_Marketplace/mit-market/src/contexts/cartContext.jsx:56-65 | no user is a no-op; else memory becomes the filtered cart whatever the write does, and the store does only if the write succeeds; ids stay distinct |
| CartContext.CartStore.UpdateQuantity | Mit_Marketplace/mit-market/src/contexts/cartContext.jsx:67-85 | no user or a failed write changes nothing; else memory and store both take the re-quantified cart; ids are kept |
| CartContext.CartStore.Empty | Mit_Marketplace/mit-market/src/contexts/cartContext.jsx:88-97 | no user is a no-op; else memory is `[]` whatever the write does, and the store is `[]` at the user only if the write succeeds |
| PaymentForm.TotalAppend | Mit_Marketplace/mit-market/src/pages/paymentForm.jsx:58-61 | the total of a cart is the sum of the totals of its parts |
| PaymentForm.TotalAtLeastPrices | Mit_Marketplace/mit-market/src/pages/paymentForm.jsx:58-61 | with no negative quantity, the total is at least the plain sum of the prices, and not negative |
| PaymentForm.TotalExample | Mit_Marketplace/mit-market/src/pages/paymentForm.jsx:58-61 | 100.50 twice and 33.33 once is shown as "234.33" |
| PaymentForm.Total | Mit_Marketplace/mit-market/src/pages/paymentForm.jsx:58-61 | Σ price × (quantity, or 1 in its place), in paise. TotalAppend shows it is additive over concatenation, TotalAtLeastPrices that it is at least the plain price sum, and TotalExample gives a worked case |
| PaymentForm.Set | Mit_Marketplace/mit-market/src/pages/paymentForm.jsx:40-42 | the named field takes the value and every other field keeps its own |
| PaymentForm.EmptyFormIsBlank | Mit_Marketplace/mit-market/src/pages/paymentForm.jsx:13-22 | all eight fields of the reset form are "" |
| PaymentForm.Snapshot | Mit_Marketplace/mit-market/src/pages/paymentForm.jsx:68-82 | the written record has no status, the cart as it was, the form's eight fields, the timestamp, and a total that reads back as the cart's total in paise |
| PaymentForm.OrderKeyCollides | Mit_Marketplace/mit-market/src/pages/paymentForm.jsx:65 | two orders get the same key exactly when they were placed at the same clock value |
| PaymentForm.OrderKey | Mit_Marketplace/mit-market/src/pages/paymentForm.jsx:65 | the key is a non-empty run of digits whose value is the clock value |
| PaymentForm.PaymentPage.constructor | Mit_Marketplace/mit-market/src/pages/paymentForm.jsx:13-24 | the form starts empty and the modal closed |
| PaymentForm.PaymentPage.DisplayTotal | Mit_Marketplace/mit-market/src/pages/paymentForm.jsx:110-113 | the shown total reads back as the same total the snapshot stores |
| PaymentForm.PaymentPage.HandleChange | Mit_Marketplace/mit-market/src/pages/paymentForm.jsx:40-42 | the form is updated in the named field only; nothing else changes |
| PaymentForm.PaymentPage.RecordPayment | Mit_Marketplace/mit-market/src/pages/paymentForm.jsx:68-82 | the record lands at `users/{uid}/payments/{key}`, overwriting a record of the same key, and nothing else changes |
| PaymentForm.PaymentPage.ClearAndReset | Mit_Marketplace/mit-market/src/pages/paymentForm.jsx:85-103 | `carts/{uid}` and the cart become `[]`, the modal opens and the form is reset |
| PaymentForm.PaymentPage.Submit | Mit_Marketplace/mit-market/src/pages/paymentForm.jsx:44-108 | no user or an empty cart changes nothing; a failed snapshot write changes nothing; a successful one stores the snapshot under the clock key; a failed cart clear then stops, with cart and form untouched; otherwise the cart is empty, the form reset and the modal open |
| CartPage.InitialQuantities | Mit_Marketplace/mit-market/src/pages/cart.jsx:13-19 | the map's keys are exactly the cart's ids, and no entry is zero |
| CartPage.InitialQuantitiesLastWins | Mit_Marketplace/mit-market/src/pages/cart.jsx:13-19 | an id's entry is the quantity (or 1) of the last item carrying it |
| CartPage.QtyOf | Mit_Marketplace/mit-market/src/pages/cart.jsx:23 | the map's entry or 1: a present non-zero entry is kept, and a missing or zero entry gives 1 |
| CartPage.TotalPrice | Mit_Marketplace/mit-market/src/pages/cart.jsx:22-25 | Σ price × (the map's entry, or 1). TotalPriceAgrees and PageTotalIsCheckoutTotal show it equals the checkout total when the map agrees with the cart |
| CartPage.TotalItems | Mit_Marketplace/mit-market/src/pages/cart.jsx:26-29 | Σ (the map's entry, or 1). TotalItemsAtLeastLength shows it is at least the number of lines when no entry is negative |
| CartPage.TotalItemsAtLeastLength | Mit_Marketplace/mit-market/src/pages/cart.jsx:26-29 | with no negative entry, the item count is at least the number of cart lines |
| CartPage.TotalPriceAgrees | Mit_Marketplace/mit-market/src/pages/cart.jsx:22-25 | a map that agrees with each item's own quantity gives the checkout total |
| CartPage.PageTotalIsCheckoutTotal | Mit_Marketplace/mit-market/src/pages/cart.jsx:13-25 | before any edit, the cart page's total equals the checkout page's total |
| CartPage.Clamp | Mit_Marketplace/mit-market/src/pages/cart.jsx:33-35 | the stored quantity is at least 1: a number of at least 1 is kept, and a blank value or a number below 1 becomes 1 |
| CartPage.ClampIdempotent | Mit_Marketplace/mit-market/src/pages/cart.jsx:33-35 | clamping a clamped quantity changes nothing |
| CartPage.InputQuantity | Mit_Marketplace/mit-market/src/pages/cart.jsx:106-113 | the input handler always forwards a number |
| CartPage.InputQuantityClamped | Mit_Marketplace/mit-market/src/pages/cart.jsx:106-113 | whatever is typed ends up at least 1; non-numeric text or a number below 1 gives 1 |
| CartPage.InputQuantityOfNumeral | Mit_Marketplace/mit-market/src/pages/cart.jsx:106-113 | typing the numeral of a positive quantity forwards exactly that quantity |
| CartPage.CartView.constructor | Mit_Marketplace/mit-market/src/pages/cart.jsx:8-9 | the quantity map starts empty |
| CartPage.CartView.ShownTotalPrice | Mit_Marketplace/mit-market/src/pages/cart.jsx:22-25 | the total the page shows. CartPage.CartView.ShownTotalIsCheckoutTotal relates it to the checkout total |
| CartPage.CartView.ShownTotalIsCheckoutTotal | Mit_Marketplace/mit-market/src/pages/cart.jsx:13-25 | right after the quantities are rebuilt from an id-distinct cart, the page shows the checkout page's total |
| CartPage.CartView.SyncFromCart | Mit_Marketplace/mit-market/src/pages/cart.jsx:13-19 | the map is rebuilt from the cart |
| CartPage.CartView.HandleQuantityChange | Mit_Marketplace/mit-market/src/pages/cart.jsx:32-41 | only the item's entry changes, to the clamped value, which is what goes to the cart context |
| CartPage.CartView.Increment | Mit_Marketplace/mit-market/src/pages/cart.jsx:44-50 | the entry goes up by exactly one and is forwarded; on a successful write the cart and the stored document take the new quantity together |
| CartPage.CartView.Decrement | Mit_Marketplace/mit-market/src/pages/cart.jsx:53-62 | at quantity 1 nothing changes; otherwise the entry goes down by one and is forwarded; on a successful write the cart and the stored document take the new quantity together |
| CartPage.CartView.HandleInput | Mit_Marketplace/mit-market/src/pages/cart.jsx:106-113 | the entry becomes the clamped parse of the text, at least 1, and is forwarded; on a successful write the cart and the stored document take the new quantity together |
| Marketplace.ReplaceRuns | Mit_Marketplace/mit-market/src/pages/Marketplace.jsx:64 | replacing whitespace runs never lengthens the text |
| Marketplace.ReplaceSpaceRuns | Mit_Marketplace/mit-market/src/pages/Marketplace.jsx:64 | `replace(/\s+/g, '-')` never lengthens the text, leaves no whitespace, and keeps a text that has none |
| Marketplace.ReplaceRunsShape | Mit_Marketplace/mit-market/src/pages/Marketplace.jsx:64 | the replacement leaves no whitespace and only dashes and characters of the input |
| Marketplace.SlugShape | Mit_Marketplace/mit-market/src/pages/Marketplace.jsx:64 | a slug has no whitespace and no upper-case letter |
| Marketplace.SlugJoinsWithDash | Mit_Marketplace/mit-market/src/pages/Marketplace.jsx:64 | a whole run of whitespace between two words becomes exactly one dash |
| Marketplace.SlugIdempotent | Mit_Marketplace/mit-market/src/pages/Marketplace.jsx:64 | a slug is its own slug |
| Marketplace.OneWordSlug | Mit_Marketplace/mit-market/src/pages/Marketplace.jsx:115 | the slug of one word is the word in lower case |
| Marketplace.TwoWordSlug | Mit_Marketplace/mit-market/src/pages/Marketplace.jsx:115 | "Aaa Bbb" slugs to "aaa-bbb" |
| Marketplace.Slug | Mit_Marketplace/mit-market/src/pages/Marketplace.jsx:64 | lower-case, then each whitespace run becomes one dash. SlugShape, SlugJoinsWithDash, SlugIdempotent, OneWordSlug and TwoWordSlug state its properties |
| Marketplace.WithSlug | Mit_Marketplace/mit-market/src/pages/Marketplace.jsx:64 | a product is kept exactly when its slugged category equals the route category |
| Marketplace.WithSlugAppend | Mit_Marketplace/mit-market/src/pages/Marketplace.jsx:64 | filtering keeps catalogue order |
| Marketplace.Filtered | Mit_Marketplace/mit-market/src/pages/Marketplace.jsx:62-63 | a missing, empty or "all" category returns every product unchanged; any other category keeps exactly the products whose slug equals it (WithSlug) |
| Marketplace.TotalPages | Mit_Marketplace/mit-market/src/pages/Marketplace.jsx:69 | the least page count whose pages of 8 hold every item; 0 exactly for no items |
| Marketplace.SliceIndex | Mit_Marketplace/mit-market/src/pages/Marketplace.jsx:70-73 | a `slice` bound always lands inside the list |
| Marketplace.JsSlice | Mit_Marketplace/mit-market/src/pages/Marketplace.jsx:70-73 | `slice(start, end)` never lengthens the list, is the plain sub-sequence for in-range bounds, and is empty when 0 <= end <= start |
| Marketplace.Page | Mit_Marketplace/mit-market/src/pages/Marketplace.jsx:70-73 | the slice `[(p - 1) * 8, p * 8)` of the filtered list. PageBounds and PagesCoverList state its size and coverage |
| Marketplace.PagesUpTo | Mit_Marketplace/mit-market/src/pages/Marketplace.jsx:70-73 | pages 1 to k put together. PagesUpToPrefix shows these are the first 8k products |
| Marketplace.PageBounds | Mit_Marketplace/mit-market/src/pages/Marketplace.jsx:70-73 | a page holds at most 8 products; pages 1..totalPages are non-empty and later pages are empty |
| Marketplace.PagesUpToPrefix | Mit_Marketplace/mit-market/src/pages/Marketplace.jsx:70-73 | the first k pages are the first 8k products |
| Marketplace.PagesCoverList | Mit_Marketplace/mit-market/src/pages/Marketplace.jsx:69-73 | pages 1..totalPages put together give back the filtered list, in order |
| Marketplace.MarketplacePage.constructor | Mit_Marketplace/mit-market/src/pages/Marketplace.jsx:14-27 | no products yet, page 1 |
| Marketplace.MarketplacePage.CurrentProductsBounded | Mit_Marketplace/mit-market/src/pages/Marketplace.jsx:69-73 | the products shown are never more than eight, and are some whenever the current page is between 1 and the page count |
| Marketplace.MarketplacePage.FilteredProducts | Mit_Marketplace/mit-market/src/pages/Marketplace.jsx:62-64 | the page's filtered list is Marketplace.Filtered of its products and its route category |
| Marketplace.MarketplacePage.PageCount | Mit_Marketplace/mit-market/src/pages/Marketplace.jsx:69 | `totalPages` of the filtered list: the least page count holding all of it (Marketplace.TotalPages) |
| Marketplace.MarketplacePage.CurrentProducts | Mit_Marketplace/mit-market/src/pages/Marketplace.jsx:70-73 | the current page of the filtered list; CurrentProductsBounded shows it holds at most eight and some when the page is in range |
| Marketplace.MarketplacePage.ControlsShown | Mit_Marketplace/mit-market/src/pages/Marketplace.jsx:165 | the Previous/Next controls show exactly when there is more than one page; Next then keeps the page at least 1 |
| Marketplace.MarketplacePage.LoadProducts | Mit_Marketplace/mit-market/src/pages/Marketplace.jsx:30-53 | a snapshot replaces the products by its mapping; none leaves them |
| Marketplace.MarketplacePage.ChangeCategory | Mit_Marketplace/mit-market/src/pages/Marketplace.jsx:56-58 | the category becomes the route's; the page returns to 1 only when the category differs from the one shown, and is kept otherwise |
| Marketplace.MarketplacePage.Prev | Mit_Marketplace/mit-market/src/pages/Marketplace.jsx:168 | Previous never goes below 1 and stays within the page count |
| Marketplace.MarketplacePage.Next | Mit_Marketplace/mit-market/src/pages/Marketplace.jsx:178 | Next never goes above the page count, and with the controls shown never below 1 |
| Marketplace.MarketplacePage.HandleAddToCart | Mit_Marketplace/mit-market/src/pages/Marketplace.jsx:75-82 | with no user the cart context is untouched; a new product and a successful write make memory and `carts/{uid}` both `old ++ [product]`; a present id or a failed write changes neither; synchronisation and id-distinctness are kept |
| Home.WithCategory | Mit_Marketplace/mit-market/src/pages/Home.jsx:40 | a product is kept exactly when its category is the requested one |
| Home.CategoryProductsSpec | Mit_Marketplace/mit-market/src/pages/Home.jsx:39-41 | at most four products, each of exactly that category, a prefix of the matches in catalogue order; all of them when there are at most four, exactly four otherwise |
| Home.CategoryProducts | Mit_Marketplace/mit-market/src/pages/Home.jsx:39-41 | the matches cut to the first four. CategoryProductsSpec and LaterProductsNotFeatured state what it keeps |
| Home.WithCategoryAppend | Mit_Marketplace/mit-market/src/pages/Home.jsx:40 | the matcher keeps catalogue order |
| Home.LaterProductsNotFeatured | Mit_Marketplace/mit-market/src/pages/Home.jsx:40 | once four products match, products added later never change the featured four |
| Home.ExactMatchesPassSlugFilter | Mit_Marketplace/mit-market/src/pages/Home.jsx:124 | a product shown under a category card is also listed by the marketplace page its link leads to |
| Home.CategoryLink | Mit_Marketplace/mit-market/src/pages/Home.jsx:124 | the link is "/marketplace/" followed by the category's slug |
| Home.HomeLinksNameMarketplaceFilters | Mit_Marketplace/mit-market/src/pages/Home.jsx:13 | every featured category is a marketplace category, and its link's slug filters (it is neither "" nor "all") |
| Home.KitchenEssentialsSlug | Mit_Marketplace/mit-market/src/pages/Home.jsx:124 | "Kitchen Essentials" links to "kitchen-essentials" |
| Home.StudyMaterialsSlug | Mit_Marketplace/mit-market/src/pages/Home.jsx:124 | "Study Materials" links to "study-materials" |
| Home.FurnitureSlug | Mit_Marketplace/mit-market/src/pages/Home.jsx:124 | "Furniture" links to "furniture" |
| Home.ElectronicsSlug | Mit_Marketplace/mit-market/src/pages/Home.jsx:124 | "Electronics" links to "electronics" |
| Chatbot.FindIndex | Mit_Marketplace/mit-market/src/components/chatBot.jsx:32 | the index found is of an entry that matches, with no earlier match; none is found only when no entry matches |
| Chatbot.Matches | Mit_Marketplace/mit-market/src/components/chatBot.jsx:32 | an entry matches when its lower-cased question contains the lower-cased input; Chatbot.FindIndex returns the first such entry |
| Chatbot.ReplySpec | Mit_Marketplace/mit-market/src/components/chatBot.jsx:32-35 | the reply is the answer of the first matching entry, or the fallback when none matches |
| Chatbot.Reply | Mit_Marketplace/mit-market/src/components/chatBot.jsx:32-35 | the answer of the entry found, or the fallback. ReplySpec states that this is the first match, ReplyIgnoresCase that case does not matter |
| Chatbot.ReplyIgnoresCase | Mit_Marketplace/mit-market/src/components/chatBot.jsx:32 | lower-casing the input does not change the reply |
| Chatbot.OwnQuestionAnswered | Mit_Marketplace/mit-market/src/components/chatBot.jsx:32-35 | typing an entry's own question, when no earlier question contains it, gets that entry's answer |
| Chatbot.FirstQuestionAnswered | Mit_Marketplace/mit-market/src/components/chatBot.jsx:12-13 | typing the first question gets the first answer |
| Chatbot.ChatWindow.constructor | Mit_Marketplace/mit-market/src/components/chatBot.jsx:6-20 | closed, the log is the greeting alone, the input is empty |
| Chatbot.ChatWindow.Toggle | Mit_Marketplace/mit-market/src/components/chatBot.jsx:22-24 | the window flips between open and closed; nothing else changes |
| Chatbot.ChatWindow.SetInput | Mit_Marketplace/mit-market/src/components/chatBot.jsx:101 | the input takes the typed text; nothing else changes |
| Chatbot.ChatWindow.HandleUserMessage | Mit_Marketplace/mit-market/src/components/chatBot.jsx:26-39 | blank input changes nothing; otherwise the untrimmed text and then the reply are appended and the input cleared; the log only grows and keeps the greeting first |
| Chatbot.ChatWindow.ClickQuestion | Mit_Marketplace/mit-market/src/components/chatBot.jsx:82-88 | entry i's question and then exactly its answer are appended |
| OrderPage.ToOrder | Mit_Marketplace/mit-market/src/pages/orderPage.jsx:19-24 | the order carries the key as its id and the record's status and cart |
| OrderPage.ToOrderKeepsRecord | Mit_Marketplace/mit-market/src/pages/orderPage.jsx:21-23 | flattening loses nothing: the record can be rebuilt from the order |
| OrderPage.Project | Mit_Marketplace/mit-market/src/pages/orderPage.jsx:19-24 | one order per payment entry, in order |
| OrderPage.FetchOrders | Mit_Marketplace/mit-market/src/pages/orderPage.jsx:13-33 | with no user, or when the uncaught read fails, the list stays as it was; with no payments record it is empty; otherwise exactly the projection of the payment entries: one order per entry, in order, each under its key |
| OrderPage.ProjectListsEveryRecord | Mit_Marketplace/mit-market/src/pages/orderPage.jsx:19-24 | every listed order is the projection of the record stored under its id, and every stored id is listed |
| OrderPage.StatusLabel | Mit_Marketplace/mit-market/src/pages/orderPage.jsx:55 | the label is never empty: a present non-empty status is shown as it is, and a missing or empty status shows "Pending" |
| OrderPage.OrderRoute | Mit_Marketplace/mit-market/src/pages/orderPage.jsx:36-38 | the route is "/order/" followed by the order id, which can be read back from it |
| OrderPage.OrderRouteInjective | Mit_Marketplace/mit-market/src/pages/orderPage.jsx:36-38 | distinct orders lead to distinct detail routes |
| OrderPage.PlacedOrderIsListed | Mit_Marketplace/mit-market/src/pages/orderPage.jsx:19-55 | an order placed at checkout is listed under its clock key with its cart, labelled "Pending", with a total that reads back as the cart's total |
| PaymentServer.InvalidBodyRejected | Mit_Marketplace/express.js:13-15 | a body with a falsy field gets 400, no success and no transaction id, whatever the draw and the clock |
| PaymentServer.ValidBodyOutcome | Mit_Marketplace/express.js:17-18 | a valid body gets 200, a success exactly when the draw exceeds 0.2 |
| PaymentServer.TransactionIdOnSuccessOnly | Mit_Marketplace/express.js:20-30 | a transaction id is present exactly on success, and it is "TXN" followed by the clock value's digits |
| PaymentServer.TransactionIdsDiffer | Mit_Marketplace/express.js:24 | successes at different clock values carry different transaction ids |
| PaymentServer.ZeroAmount | Mit_Marketplace/express.js:13 | a numeric amount of 0 is rejected, while the string "0" passes |
| PaymentServer.Falsy | Mit_Marketplace/express.js:13 | JavaScript falsiness of a parsed JSON value: undefined, null, false, 0, NaN and ""; PaymentServer.ZeroAmount separates numeric 0 from the string "0" |
| PaymentServer.Valid | Mit_Marketplace/express.js:13 | the guard does not fire: none of the four fields is falsy; PaymentServer.InvalidBodyRejected and ValidBodyOutcome give the response on each side |
| PaymentServer.HandlePayment | Mit_Marketplace/express.js:9-32 | the endpoint as a function of body, draw and clock. InvalidBodyRejected, ValidBodyOutcome, TransactionIdOnSuccessOnly, TransactionIdsDiffer and ZeroAmount state its behaviour |
| PaymentServer.TransactionId | Mit_Marketplace/express.js:24 | "TXN" followed by the clock value's numeral |
| PaymentGateway.JsRem | Mit_Marketplace/vite-project/src/React.jsx:31 | JavaScript's `%`: the remainder has the sign of the dividend and lies strictly between -100 and 100 |
| PaymentGateway.FormatExpiry | Mit_Marketplace/vite-project/src/React.jsx:30-32 | the expiry is "" exactly when no date is picked |
| PaymentGateway.FormatExpiryExample | Mit_Marketplace/vite-project/src/React.jsx:31 | May 2005 is written "5/5", neither part padded |
| PaymentGateway.FormatExpiryRoundTrip | Mit_Marketplace/vite-project/src/React.jsx:31 | the written expiry reads back as the month (1 to 12) and the year within its century |
| PaymentGateway.GatewayForm.constructor | Mit_Marketplace/vite-project/src/React.jsx:7-13 | every text field empty and no date picked |
| PaymentGateway.GatewayForm.Payload | Mit_Marketplace/vite-project/src/React.jsx:28-33 | the sent body copies the text fields unchanged and carries the formatted expiry |
| PaymentGateway.GatewayForm.PayloadAccepted | Mit_Marketplace/vite-project/src/React.jsx:28-41 | the endpoint accepts what the form sends exactly when no text field is empty and a date is picked |
| PaymentGateway.GatewayForm.HandleInputChange | Mit_Marketplace/vite-project/src/React.jsx:15-18 | only the named field changes |
| PaymentGateway.GatewayForm.HandleDateChange | Mit_Marketplace/vite-project/src/React.jsx:20-22 | only the expiry changes |
| PaymentGateway.GatewayForm.HandlePayment | Mit_Marketplace/vite-project/src/React.jsx:24-50 | the message is the endpoint's answer to the payload, or the fixed error when the request fails; the fields are kept |

## Left out

- The hosted database and authentication are not called. The store is a map, the user an `Option`, and the outcome of each read and write a boolean parameter.
- There is no concurrency. Each handler is one atomic step, so races between tabs, `addToCart`'s stale closure and the updater-function timing of `setQuantities` are not modelled.
- The chatbot's one-second `setTimeout` before the reply is not modelled: the reply is appended in the same step as the user's message.
- There is no floating point. Prices are integer paise, and `toFixed(2)` prints paise, with no IEEE rounding.
- The order list's `parseFloat(order.totalPrice).toFixed(2)` display is not modelled.
- `Date.now()`, `new Date().toISOString()` and `Math.random()` are parameters (`now`, `isoTime`, `draw`).
- JSX rendering, CSS, animation, routing, the confirmation modal, toasts, alerts and console logging are not modelled. So are the loading flag of the marketplace page, and the date picker, which supplies only `getMonth()` and `getFullYear()`.
- Product records: every stored product is assumed to carry all its fields, a `category` string among them. A record without a `category` makes `product.category.toLowerCase()` throw in the marketplace filter whenever a category route is open. That error path is not modelled.
- Lower-casing is ASCII only: `toLowerCase` on non-ASCII letters is not modelled.
- The endpoint's JSON values are a small datatype whose numbers are reals; NaN is a separate constructor. `express.json()` parsing, CORS and `app.listen` are not modelled.
- The catch blocks of the two catalogue fetches, and the "no data" branch, both leave the products as they were. They are modelled as a missing snapshot.
- The gateway form's `fetch` is one call to the endpoint's handler, or the fixed error when it cannot be reached. HTTP status codes are not looked at, as in the code.
- Concrete slugs are stated only for the four home-page categories. "Dorm Supplies" and "Textbooks" fall under Marketplace.TwoWordSlug and Marketplace.OneWordSlug like the others.
- The checkout page reads its signed-in user from its own auth listener, and the cart context reads its user from the auth context. The model assumes these agree and uses the cart store's `user` for both.
- The remaining pages and components are not part of this model: the product details, order details, profile, login and sign-up pages, the navigation bar, the footer, the loading spinner and the app shell.

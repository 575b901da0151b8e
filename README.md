# Calixto's Burger storefront, modelled in Dafny

This project models the ordering logic of a small single-page delivery shop.
The shop has a fixed menu of fifteen burgers in five category tabs. The
page component defines a search filter over the active tab and a
confirmation step before a product enters the cart; the model covers these
handlers as the page defines them, although no rendered component calls
two of them (see "## Left out"). The cart has a reducer with six actions. The checkout form
validates the customer's details field by field. The cart panel shows a
delivery fee on top of a positive subtotal.

Modules follow the program's structure:

| file | module | models |
|---|---|---|
| `wrappers.dfy` | `Wrappers` | `Option`, standing for `T \| undefined` / `T \| null` |
| `jsarray.dfy` | `JsArray` | `filter`, `map`, `findIndex`, `find` and `reduce` with a sum |
| `jsstring.dfy` | `JsString` | `trim`, the `\s` class, `toLowerCase`, `includes` and `length` |
| `types.dfy` | `Types` | `Product`, `CartItem`, `CustomerInfo`, `Category`, `CategoryType` |
| `utils.dfy` | `Utils` | `cleanPhoneNumber`, `isValidPhone`, `formatPhone`, `isValidEmail`, `APP_CONFIG` |
| `products.dfy` | `Products` | the `products` and `categories` tables and their four queries |
| `cartprovider.dfy` | `CartProvider` | `initialState`, `calculateTotal`, `cartReducer`, `getItemsCount` |
| `cartcheckout.dfy` | `CartCheckout` | the cart panel's form: `validateForm`, `handleInputChange`, `handleCheckout`, the delivery fee |
| `app.dfy` | `App` | the page: `filteredProducts` and the `confirmProduct` slot |
| `productmodal.dfy` | `ProductModal` | the product modal's quantity stepper |

Pure modules are written as functions and lemmas:
- `cartReducer` returns fresh objects, so it is a function over a `CartState` datatype, and the cart invariant is a lemma about it.
- The string and array built-ins, the phone and e-mail helpers and the catalog queries are functions in the same way.

Component state is written as classes whose methods change fields:
- `CartCheckout.CartForm` holds `customerInfo` and `errors`, the two state slots of the cart panel.
- `App.Storefront` holds `activeCategory`, `isCartOpen`, `searchQuery`, `confirmProduct` and the cart.
- `ProductModal.ProductModal` holds `quantity`.

Each method is proved against a function of its inputs and old state. The
properties the source promises are then lemmas about those functions.

Modelling choices:
- **Money is integer cents.** 24.90 is `2490`, `DELIVERY_FEE` is `599` and `MIN_ORDER_VALUE` is `1500`. Quantities are integers.
- **Trimming and `\s` follow ECMAScript.** Both use the WhiteSpace and LineTerminator code points.
- **Lower-casing is limited.** `toLowerCase` is modelled on Basic Latin and Latin-1 letters only.
- **`length` counts UTF-16 code units.** A character outside the Basic Multilingual Plane counts twice.
- **The neighbourhood fee is a parameter.** `getDeliveryFeeByNeighborhood` is used by the cart panel but defined in no modelled file, so the fee is the function parameter `feeOf`.

## Model

| member | source | states |
|---|---|---|
| `JsArray.Filter` | src/data/products.ts:179 | `filter` keeps only elements that pass, and every element that passes is kept, in at most the input's length |
| `JsArray.FilterCounts` | src/data/products.ts:179 | `filter` keeps every copy of a passing element and drops every copy of a failing one |
| `JsArray.FilterIsSubsequence` | src/data/products.ts:179 | what `filter` keeps stays in the input's order (a subsequence) |
| `JsArray.FilterAllPass` | src/context/CartProvider.tsx:82 | when every element passes, `filter` returns its input |
| `JsArray.FilterSamePredicate` | src/App.tsx:26-29 | two tests that agree on every element filter alike |
| `JsArray.FilterDropsOne` | src/context/CartProvider.tsx:69 | when exactly one element fails, `filter` removes exactly that index and keeps the rest in order |
| `JsArray.Map` | src/context/CartProvider.tsx:78-81 | `map` keeps the length |
| `JsArray.FindIndex` | src/context/CartProvider.tsx:43-45 | `findIndex` is -1 iff no element passes; otherwise it is the first passing index |
| `JsArray.Find` | src/data/products.ts:188 | `find` is undefined iff no element passes; otherwise it is the first passing element |
| `JsArray.SumByAppend` | src/context/CartProvider.tsx:36 | a `reduce` sum over a concatenation is the sum of the parts |
| `JsArray.SumByRemove` | src/context/CartProvider.tsx:36 | removing an element lowers the sum by exactly its term |
| `JsArray.SumByUpdate` | src/context/CartProvider.tsx:36 | replacing an element changes the sum by the difference of the two terms |
| `JsArray.SubsequenceReflexive` | src/App.tsx:30 | a sequence is a subsequence of itself, as the unfiltered listing is |
| `JsArray.SubsequenceLength` | src/App.tsx:22-30 | a subsequence is never longer than its sequence |
| `JsArray.SubsequenceTransitive` | src/App.tsx:22-30 | a subsequence of a subsequence is a subsequence |
| `JsString.TrimStart` | src/App.tsx:25 | the leading-whitespace pass of `trim` never lengthens its input |
| `JsString.TrimStartFacts` | src/App.tsx:25 | that pass drops a whitespace prefix and leaves a suffix that starts with a non-whitespace character |
| `JsString.TrimEnd` | src/App.tsx:25 | the trailing-whitespace pass of `trim` never lengthens its input |
| `JsString.TrimEndFacts` | src/App.tsx:25 | that pass drops a whitespace suffix and leaves a prefix that ends with a non-whitespace character |
| `JsString.Trim` | src/components/Cart/Cart.tsx:28 | `trim` never lengthens its input |
| `JsString.TrimFacts` | src/components/Cart/Cart.tsx:28 | `trim` is empty iff the input is all whitespace; otherwise it is a piece of the input with non-whitespace at both ends |
| `JsString.ToLower` | src/App.tsx:27-28 | `toLowerCase` keeps the length and lower-cases each character on its own |
| `JsString.ToLowerIdempotent` | src/App.tsx:27-28 | lower-casing twice is lower-casing once |
| `JsString.LowerCharKeepsWhitespace` | src/App.tsx:25-27 | lower-casing a character never creates or removes whitespace |
| `JsString.ToLowerKeepsBlank` | src/App.tsx:25-27 | a query trims to empty iff its lower-cased form does |
| `JsString.Includes` | src/App.tsx:27-28 | `includes` holds iff the needle occurs at some index of the haystack |
| `JsString.Utf16Length` | src/components/Cart/Cart.tsx:30 | `length` is between the number of code points and twice that |
| `JsString.Utf16LengthAppend` | src/components/Cart/Cart.tsx:30 | `length` of a concatenation is the sum of the lengths |
| `JsString.Utf16LengthOfSlice` | src/components/Cart/Cart.tsx:42 | a slice is never longer than the whole string |
| `JsString.Utf16LengthOfTrim` | src/components/Cart/Cart.tsx:42 | trimming never increases `length` |
| `JsString.Utf16LengthAtLeastTwo` | src/components/Cart/Cart.tsx:30 | `length >= 2` iff there are two code points, or one outside the Basic Multilingual Plane |
| `Utils.CleanPhoneNumber` | src/utils/index.ts:165-167 | `cleanPhoneNumber` returns only digits and is never longer than its input |
| `Utils.CleanPhoneNumberChar` | src/utils/index.ts:166 | one character is kept iff it is a digit |
| `Utils.CleanPhoneNumberAppend` | src/utils/index.ts:166 | cleaning a concatenation concatenates the cleaned parts |
| `Utils.CleanPhoneNumberOfDigits` | src/utils/index.ts:166 | a string of digits is its own cleaned form |
| `Utils.CleanPhoneNumberOfBlank` | src/utils/index.ts:166 | an all-whitespace string has no digits |
| `Utils.PhoneMatchShape` | src/utils/index.ts:27 | any match of `/^(\d{2})(\d{4,5})(\d{4})$/` is 10 or 11 digits |
| `Utils.MatchPhonePattern` | src/utils/index.ts:27 | `match` returns groups exactly when they are a match of the pattern, so the match is unique |
| `Utils.ValidPhoneIffPatternMatches` | src/utils/index.ts:41-44 | `isValidPhone` holds iff the phone pattern matches the cleaned digits |
| `Utils.FormatPhoneLayout` | src/utils/index.ts:25-31 | a valid number is written as "(DD) " + prefix + "-" + the last four digits |
| `Utils.FormatPhoneTenDigits` | src/utils/index.ts:29-30 | ten digits give a four-digit prefix: "(DD) NNNN-NNNN" |
| `Utils.FormatPhoneElevenDigits` | src/utils/index.ts:29-30 | eleven digits give a five-digit prefix: "(DD) NNNNN-NNNN" |
| `Utils.FormatPhoneReformatsIffValid` | src/utils/index.ts:25-34 | a valid number is reformatted with its punctuation in place; an invalid one is returned exactly as typed |
| `Utils.CleanPhoneNumberOfArea` | src/utils/index.ts:30 | the "(DD) " part cleans to the area code |
| `Utils.CleanPhoneNumberOfFormatted` | src/utils/index.ts:30 | the formatted number cleans to its three groups |
| `Utils.FormatPhoneKeepsDigits` | src/utils/index.ts:25-34 | formatting never changes the digits of a number |
| `Utils.FormatPhoneIdempotent` | src/utils/index.ts:25-34 | formatting keeps validity, and formatting twice is formatting once |
| `Utils.ValidEmailHasShape` | src/utils/index.ts:51-54 | an accepted e-mail has no whitespace, exactly one '@' after a non-empty local part, and a '.' after it that is neither right behind it nor last |
| `Utils.ShapedEmailIsValid` | src/utils/index.ts:51-54 | every string of that shape is accepted |
| `Utils.ValidEmailIff` | src/utils/index.ts:51-54 | `isValidEmail` holds iff the e-mail has that shape |
| `Products.ByCategory` | src/data/products.ts:178-180 | the category query holds exactly the table's products of that category, in order; with `JsArray.FilterCounts`, each kept product appears as often as in the input |
| `Products.FindById` | src/data/products.ts:187-189 | the id lookup is undefined iff no product has the id; otherwise it is the first product with it |
| `Products.Highlighted` | src/data/products.ts:195-197 | the featured query holds exactly the products whose `isHighlight` is true, in order; an absent flag counts as false; with `JsArray.FilterCounts`, each kept product appears as often as in the input |
| `Products.Popular` | src/data/products.ts:203-205 | the popular query holds exactly the products whose `isPopular` is true, in order; with `JsArray.FilterCounts`, each kept product appears as often as in the input |
| `Products.CatalogIds` | src/data/products.ts:9-147 | the menu has 15 products with ids "1" to "15" in order |
| `Products.CatalogIdsDistinct` | src/data/products.ts:9-147 | menu ids are pairwise distinct |
| `Products.CatalogWellFormed` | src/data/products.ts:150-171 | every menu price is positive and every product's category has a tab |
| `Products.FindByIdFindsEach` | src/data/products.ts:187-189 | in a table with distinct ids, looking up a product's id finds that product |
| `Products.ProductByIdFindsEach` | src/data/products.ts:187-189 | `getProductById` finds every menu product by its own id |
| `CartProvider.AddExistingIncrementsLine` | src/context/CartProvider.tsx:49-55 | ADD_ITEM of a product already in the cart raises only its line by 1, in place; total rises by its price, count by 1 |
| `CartProvider.AddNewAppendsLine` | src/context/CartProvider.tsx:56-59 | ADD_ITEM of a new product appends a line of quantity 1; total rises by its price, count by 1 |
| `CartProvider.RemovePresentDropsLine` | src/context/CartProvider.tsx:68-75 | REMOVE_ITEM drops exactly that product's line, keeps the rest in order and lowers the total by the line's amount |
| `CartProvider.RemoveAbsentIsNoOp` | src/context/CartProvider.tsx:68-75 | REMOVE_ITEM of an absent id returns the state unchanged |
| `CartProvider.UpdatePositiveReplacesQuantity` | src/context/CartProvider.tsx:77-89 | UPDATE_QUANTITY with a positive quantity replaces only that line's quantity and adjusts the total accordingly |
| `CartProvider.UpdateToNonPositiveIsRemove` | src/context/CartProvider.tsx:78-82 | setting a quantity of 0 or less and then dropping non-positive lines is the same as removing that id |
| `CartProvider.UpdateNonPositiveRemoves` | src/context/CartProvider.tsx:82 | UPDATE_QUANTITY to 0 or less is the same as REMOVE_ITEM |
| `CartProvider.UpdateAbsentIsNoOp` | src/context/CartProvider.tsx:77-89 | UPDATE_QUANTITY of an absent id leaves the state unchanged |
| `CartProvider.ClearCartEmpties` | src/context/CartProvider.tsx:91-96 | CLEAR_CART empties the items, zeroes the total and keeps `isOpen` |
| `CartProvider.ToggleAndCloseOnlyMoveTheFlag` | src/context/CartProvider.tsx:98-108 | TOGGLE_CART flips `isOpen`, is its own inverse and leaves items and total; CLOSE_CART lowers it and is idempotent |
| `CartProvider.RemoveAtKeepsUnique` | src/context/CartProvider.tsx:69 | dropping a line keeps ids unique |
| `CartProvider.RemoveAtKeepsPositive` | src/context/CartProvider.tsx:69 | dropping a line keeps quantities positive |
| `CartProvider.FindIndexOfUnique` | src/context/CartProvider.tsx:43-45 | with unique ids, `findIndex` returns the line that holds the id |
| `CartProvider.FilterLacksIdPresent` | src/context/CartProvider.tsx:69 | with unique ids, filtering out an id drops exactly its line |
| `CartProvider.FilterLacksIdAbsent` | src/context/CartProvider.tsx:69 | filtering out an absent id keeps every line |
| `CartProvider.AddItemPreservesCartInv` | src/context/CartProvider.tsx:42-66 | ADD_ITEM keeps ids unique, quantities at least 1 and `total == calculateTotal(items)` |
| `CartProvider.AddItemRaisesCount` | src/context/CartProvider.tsx:42-66 | ADD_ITEM raises `getItemsCount()` by exactly one |
| `CartProvider.RemoveItemPreservesCartInv` | src/context/CartProvider.tsx:68-75 | REMOVE_ITEM keeps the same invariant |
| `CartProvider.ReplaceLineKeepsInv` | src/context/CartProvider.tsx:78-81 | replacing a line with one for the same product and a positive quantity keeps ids unique and quantities positive |
| `CartProvider.UpdateQuantityPreservesCartInv` | src/context/CartProvider.tsx:77-89 | UPDATE_QUANTITY keeps the same invariant, whichever quantity it is given |
| `CartProvider.ReducePreservesCartInv` | src/context/CartProvider.tsx:40-113 | every action keeps the invariant |
| `CartProvider.ReachableCartsKeepInv` | src/context/CartProvider.tsx:117 | any run of actions from a consistent state ends in a consistent state |
| `CartProvider.RunOne` | src/context/CartProvider.tsx:117 | a run of one action is one reducer step |
| `CartProvider.RunTwo` | src/context/CartProvider.tsx:117 | a run of two actions is two reducer steps in order |
| `CartProvider.RunThree` | src/context/CartProvider.tsx:117 | a run of three actions is three reducer steps in order |
| `CartProvider.RunFour` | src/context/CartProvider.tsx:117 | a run of four actions is four reducer steps in order |
| `CartProvider.InitialStateIsEmpty` | src/context/CartProvider.tsx:28-32 | the initial cart is empty, closed and totals 0, and every cart reachable from it is consistent |
| `CartProvider.ItemsCountAtLeastLines` | src/context/CartProvider.tsx:144-146 | `getItemsCount` is at least the number of lines |
| `CartProvider.TotalPositiveIffNonEmpty` | src/context/CartProvider.tsx:35-37 | with positive prices, `calculateTotal` is non-negative and positive iff there is a line |
| `CartProvider.ItemsCountExceedsLines` | src/context/CartProvider.tsx:144-146 | three adds of one product and one of another give 4 items on 2 lines |
| `CartProvider.AddTwiceThenOther` | src/context/CartProvider.tsx:42-66 | adding p, p, q gives lines (p, 2), (q, 1) and total 2·price(p) + price(q) |
| `CartProvider.MenuOrderExample` | src/data/products.ts:11-30 | two of burger "1" and one of burger "2" total R$ 78,70 |
| `CartProvider.AddThenZeroQuantityEmpties` | src/context/CartProvider.tsx:82 | adding a product and then setting its quantity to 0 returns the initial state |
| `CartCheckout.FormErrors.Set` | src/components/Cart/Cart.tsx:97-100 | setting one field's message leaves the other fields' messages alone |
| `CartCheckout.NameError` | src/components/Cart/Cart.tsx:28-32 | a name error, when there is one, is a non-empty message |
| `CartCheckout.PhoneError` | src/components/Cart/Cart.tsx:34-38 | a phone error, when there is one, is a non-empty message |
| `CartCheckout.AddressError` | src/components/Cart/Cart.tsx:40-44 | an address error, when there is one, is a non-empty message |
| `CartCheckout.NeighborhoodError` | src/components/Cart/Cart.tsx:46-48 | a neighbourhood error, when there is one, is a non-empty message |
| `CartCheckout.NameErrorCases` | src/components/Cart/Cart.tsx:28-32 | a blank name gets "Nome é obrigatório" even though it is also too short; otherwise under 2 code units gets the length message; the name passes iff its trimmed form has two code points or one astral one |
| `CartCheckout.AcceptedNameFitsLimits` | src/components/Cart/Cart.tsx:216 | an accepted name within `MAX_NAME_LENGTH` has 2 to 50 code units once trimmed |
| `CartCheckout.PhoneErrorCases` | src/components/Cart/Cart.tsx:34-38 | the phone passes iff `isValidPhone` holds; blank gets the required message and any other invalid number "Telefone inválido" |
| `CartCheckout.AddressErrorCases` | src/components/Cart/Cart.tsx:40-44 | a blank address gets the required message first; otherwise under 10 code units is incomplete; it passes iff the trimmed length is at least 10 |
| `CartCheckout.AcceptedAddressFitsLimits` | src/components/Cart/Cart.tsx:270 | an accepted address within `MAX_ADDRESS_LENGTH` has 10 to 200 code units once trimmed |
| `CartCheckout.FormValidIff` | src/components/Cart/Cart.tsx:25-52 | the form is valid iff name ≥ 2 and address ≥ 10 trimmed code units, the phone is valid and a non-blank neighbourhood is chosen |
| `CartCheckout.ValidationMessagesNonEmpty` | src/components/Cart/Cart.tsx:25-52 | every message validation records is non-empty, so the truthiness test in `handleInputChange` sees it |
| `CartCheckout.DeliveryFeeFollowsCart` | src/components/Cart/Cart.tsx:109-110 | for a consistent cart with positive prices: empty cart, no fee and total 0; otherwise the neighbourhood's fee, and the total is `calculateTotal` plus that fee |
| `CartCheckout.CheckName` | src/components/Cart/Cart.tsx:28-32 | the name step of `validateForm` computes the name rule's message |
| `CartCheckout.CheckPhone` | src/components/Cart/Cart.tsx:34-38 | the phone step computes the phone rule's message |
| `CartCheckout.CheckAddress` | src/components/Cart/Cart.tsx:40-44 | the address step computes the address rule's message |
| `CartCheckout.CheckNeighborhood` | src/components/Cart/Cart.tsx:46-48 | the neighbourhood step computes the neighbourhood rule's message |
| `CartCheckout.CartForm.constructor` | src/components/Cart/Cart.tsx:15-22 | the form starts with empty fields, an empty neighbourhood and no errors |
| `CartCheckout.CartForm.ValidateForm` | src/components/Cart/Cart.tsx:25-52 | records exactly one message per failing field and none otherwise, and returns true iff no field failed |
| `CartCheckout.CartForm.HandleInputChange` | src/components/Cart/Cart.tsx:91-104 | stores the value in that field, clears that field's error, and leaves every other error unchanged |
| `CartCheckout.CartForm.HandleCheckout` | src/components/Cart/Cart.tsx:55-88 | the order goes out iff the form is valid and the cart has a line, and then the form is reset; otherwise only the errors change |
| `App.SearchFilter` | src/App.tsx:22-30 | a blank query shows the whole listing; otherwise exactly the products whose lower-cased name or description contains the lower-cased, untrimmed query; always a subsequence of the listing; with `JsArray.FilterCounts`, each kept product appears as often as in the input |
| `App.FilteredProductsFromMenu` | src/App.tsx:22-30 | the grid shows menu products in menu order, so never more than the 15 menu items |
| `App.ShownStaysInTab` | src/App.tsx:22-30 | whatever the query, the grid shows only products of the active tab |
| `App.MatchIgnoresCase` | src/App.tsx:27-28 | a product matches a query iff it matches the lower-cased query |
| `App.SearchIgnoresCase` | src/App.tsx:25-29 | the search shows the same products for a query and its lower-cased form |
| `App.SearchFindsByName` | src/App.tsx:26-27 | searching for a product's full name always shows that product |
| `App.SearchStaysInCategory` | src/App.tsx:22-30 | the search never shows a product outside the active category or outside the menu |
| `App.Storefront.constructor` | src/App.tsx:15-19 | the page starts on "destaques" with the cart closed, an empty query, no pending product and the initial cart; the checkout form starts empty with no errors |
| `App.Storefront.HandleAddToCart` | src/App.tsx:33-35 | choosing a product only makes it pending; the cart is unchanged |
| `App.Storefront.HandleConfirmAddToCart` | src/App.tsx:38-45 | with a pending product, dispatches one ADD_ITEM for it, clears the slot and raises the header badge by one; with none, changes nothing |
| `App.Storefront.HandleCancelAddToCart` | src/App.tsx:48-50 | clears the pending product and leaves the cart alone |
| `App.Storefront.HandleCategoryChange` | src/App.tsx:53-55 | selects the tab, after which the grid shows only menu products of that category |
| `App.Storefront.HandleSearchChange` | src/App.tsx:58-60 | stores the query |
| `App.Storefront.OpenCart` | src/App.tsx:74 | opens the cart panel |
| `App.Storefront.CloseCart` | src/App.tsx:125 | closes the cart panel |
| `App.Storefront.HandleCheckout` | src/App.tsx:63-68 | a completed checkout clears the cart and keeps the invariant |
| `App.Storefront.SubmitOrder` | src/components/Cart/Cart.tsx:77-83 | the form's errors become the rule-by-rule record of the details; a valid form with a non-empty cart hands the order over, dispatches CLEAR_CART, closes the panel and empties the form; otherwise the cart, the panel and the details are unchanged |
| `App.ConfirmTwiceAddsOnce` | src/App.tsx:38-45 | choosing a product and confirming twice adds it only once |
| `ProductModal.SteppedAllKeepsPositive` | src/components/ProductModal/ProductModal.tsx:29-34 | no run of presses takes the quantity below 1 |
| `ProductModal.PlusPressesAdd` | src/components/ProductModal/ProductModal.tsx:29-34 | n presses of plus add exactly n |
| `ProductModal.MinusPressesStopAtOne` | src/components/ProductModal/ProductModal.tsx:29-34 | n presses of minus subtract n but stop at 1 |
| `ProductModal.MinusDisabledIffNoEffect` | src/components/ProductModal/ProductModal.tsx:93 | the minus button is disabled exactly when pressing it would change nothing |
| `ProductModal.ProductModal.constructor` | src/components/ProductModal/ProductModal.tsx:25 | the quantity starts at 1 |
| `ProductModal.ProductModal.HandleQuantityChange` | src/components/ProductModal/ProductModal.tsx:29-34 | applies a change only when the result is at least 1, so the quantity stays at least 1; a minus press changes nothing exactly when the minus button is disabled |
| `ProductModal.ProductModal.HandleAddToCart` | src/components/ProductModal/ProductModal.tsx:36-40 | hands over the product with the chosen quantity (at least 1), then resets the quantity to 1 |
| `ProductModal.ProductModal.TotalPrice` | src/components/ProductModal/ProductModal.tsx:42 | the modal's total is what a cart line of that quantity costs, and at least one unit's price |

## Left out

- Floating-point money: prices, totals and fees are integer cents, so `reduce` sums are exact, with none of JavaScript's binary rounding of amounts such as 28.90.
- The `image` field of `Product`: no modelled operation reads it.
- `formatCurrency` (src/utils/index.ts:13-18): it depends on `Intl.NumberFormat`.
- `generateWhatsAppMessage` and `sendOrderToWhatsApp` (src/utils/index.ts:63-118): they depend on `Date`, `Intl`, `encodeURIComponent` and `window.open`. `CartForm.HandleCheckout` returns the customer details it would send.
- `generateUniqueId`, `scrollToElement` and `debounce` (src/utils/index.ts:124-158): they use clocks, randomness, the DOM and timers.
- `getDeliveryFeeByNeighborhood` and `DELIVERY_OPTIONS`: the cart panel imports them, but src/utils/index.ts does not define them. The neighbourhood fee is therefore the parameter `feeOf`, and `DeliveryFeeFollowsCart` holds for any fee table.
- `CartCheckout.CartForm.HandleCheckout`: it does not model the one-second `await`, the `try/catch/finally`, or the `isSubmitting` flag (src/components/Cart/Cart.tsx:66-87). The model treats sending as always successful.
- The browser's `maxLength` enforcement (src/components/Cart/Cart.tsx:216, 270): it is a precondition of `AcceptedNameFitsLimits` and `AcceptedAddressFitsLimits`, not something the model performs.
- `JsString.ToLower`: it lower-cases only A–Z and U+00C0–U+00DE (except U+00D7). It leaves other scripts unchanged, and it does not model Unicode full case mapping (for example U+0130).
- `CartProvider.Reduce`: it takes integer quantities only. Fractional quantities passed to UPDATE_QUANTITY are not modelled.
- React wiring: the context object, `useReducer`/`useState` scheduling, re-rendering, JSX and the other components (Header, CategoryTabs, ProductCard, ConfirmModal) are not modelled. The section title lookup `categories.find` (src/App.tsx:92) is not modelled either.
- `ProductModal.ProductModal.HandleAddToCart`: the parent's `onClose()` callback (src/components/ProductModal/ProductModal.tsx:38) is not modelled, since the modal holds no open flag of its own. No component renders `ProductModal`: src/components/index.ts does not export it, and App renders `ConfirmModal` (src/App.tsx).
- Console logging (src/App.tsx:43 and 64): `console.log` has no effect on state and is not modelled.
- `Products.ProductsByCategory`, `Products.ProductById`, `Products.FeaturedProducts`, `Products.PopularProducts` and `App.FilteredProducts`: they apply the table-parameterised queries to the literal menu and carry no contract of their own. Their properties are the ones proved for `ByCategory`, `FindById`, `Highlighted`, `Popular` and `SearchFilter` over any table, and `App.FilteredProductsFromMenu` places the grid inside the menu.
- The order sent carries the subtotal only: `sendOrderToWhatsApp` receives `state.total` (src/components/Cart/Cart.tsx:73), not the total with the delivery fee. The sending itself is not modelled, as stated above.
- Definitions with no contract of their own, whose meaning is stated by the lemmas and methods named here:
  - `CartProvider.Reduce`, `CartProvider.InitialState` and `CartProvider.Run` (src/context/CartProvider.tsx:28-117): covered by the per-action lemmas, `ReducePreservesCartInv`, `ReachableCartsKeepInv`, `InitialStateIsEmpty` and `RunOne`–`RunFour`.
  - `CartProvider.CalculateTotal` and `CartProvider.GetItemsCount` (src/context/CartProvider.tsx:35-37, 144-146): covered by the same lemmas, `ItemsCountAtLeastLines`, `TotalPositiveIffNonEmpty` and `AddItemRaisesCount`.
  - `Utils.IsValidPhone`, `Utils.FormatPhone` and `Utils.IsValidEmail` (src/utils/index.ts:25-54): covered by `ValidPhoneIffPatternMatches`, the `FormatPhone…` lemmas and `ValidEmailIff`.
  - `CartCheckout.ValidationErrors` and `CartCheckout.CheckoutProceeds` (src/components/Cart/Cart.tsx:25-64): covered by `FormValidIff`, `ValidationMessagesNonEmpty`, `CartForm.ValidateForm` and `CartForm.HandleCheckout`.
  - `CartCheckout.DeliveryFee` and `CartCheckout.TotalWithDelivery` (src/components/Cart/Cart.tsx:109-110): covered by `DeliveryFeeFollowsCart`.
  - `ProductModal.Stepped`, `ProductModal.SteppedAll` and `ProductModal.ProductModal.MinusDisabled` (src/components/ProductModal/ProductModal.tsx:29-34, 93): covered by the stepper lemmas and `ProductModal.HandleQuantityChange`.
  - `App.MatchesQuery` (src/App.tsx:26-28): covered by `SearchFilter` and `MatchIgnoresCase`.
  - `App.Storefront.Shown` and `App.Storefront.Badge` (src/App.tsx:22-30, 75): covered by `HandleCategoryChange`, `ShownStaysInTab`, `FilteredProductsFromMenu` and `HandleConfirmAddToCart`.
- `App.Storefront.HandleAddToCart` and `App.Storefront.HandleSearchChange` are never called by a rendered component. App passes `onAddToCart={handleAddToCart}` to ProductCard (src/App.tsx:103-107), but ProductCard takes `{ product, onClick }` and binds only `onClick` (src/components/ProductCard/ProductCard.tsx:11-19). Header takes only `cartItemsCount` and `onOpenCart` (src/components/Header/Header.tsx:11-14), and its search `<input>` has neither `value` nor `onChange` (src/components/Header/Header.tsx:194-198). In the running page, therefore, no product reaches the confirmation slot or the cart, and `searchQuery` stays `""`. The model states what the handlers do when called; it does not model this broken wiring.

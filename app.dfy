/**
 * The storefront page: the search filter over the active category and the
 * one-slot confirmation flow that feeds the cart.
 */
module App {

  import opened Wrappers
  import opened Types
  import opened JsString
  import opened JsArray
  import opened Products
  import opened CartProvider
  import CartCheckout

  /** Whether a product's lower-cased name or description contains the lower-cased query. */
  predicate MatchesQuery(product: Product, query: string)
  {
    Includes(ToLower(product.name), ToLower(query)) ||
    Includes(ToLower(product.description), ToLower(query))
  }

  function QueryTest(query: string): Product -> bool
  {
    (p: Product) => MatchesQuery(p, query)
  }

  /**
   * `filteredProducts`: a blank query shows the whole listing; otherwise the
   * listing keeps, in order, the products that match the untrimmed query.
   */
  function SearchFilter(listing: seq<Product>, query: string): (r: seq<Product>)
    ensures Trim(query) == [] ==> r == listing
    ensures forall k :: 0 <= k < |r| ==> r[k] in listing
    ensures Trim(query) != [] ==> forall k :: 0 <= k < |r| ==> MatchesQuery(r[k], query)
    ensures Trim(query) != [] ==>
              forall k :: 0 <= k < |listing| && MatchesQuery(listing[k], query) ==> listing[k] in r
    ensures IsSubsequence(r, listing)
  {
    if Trim(query) == [] then
      assert IsSubsequence(listing, listing) by { SubsequenceReflexive(listing); }
      listing
    else
      FilterIsSubsequence(listing, QueryTest(query));
      Filter(listing, QueryTest(query))
  }

  /** The products shown for a category and a query. */
  function FilteredProducts(category: CategoryType, query: string): seq<Product>
  {
    SearchFilter(ProductsByCategory(category), query)
  }

  /** The grid shows menu products in menu order, so never more than the 15 of the menu. */
  lemma FilteredProductsFromMenu(category: CategoryType, query: string)
    ensures IsSubsequence(FilteredProducts(category, query), products)
    ensures |FilteredProducts(category, query)| <= |products| == 15
  {
    var listing := ProductsByCategory(category);
    SubsequenceTransitive(FilteredProducts(category, query), listing, products);
    SubsequenceLength(FilteredProducts(category, query), products);
  }

  /** Whatever the query, the grid shows only products of the active tab. */
  lemma ShownStaysInTab(category: CategoryType, query: string)
    ensures forall k :: 0 <= k < |FilteredProducts(category, query)| ==>
              FilteredProducts(category, query)[k].category == category
  {
    SearchStaysInCategory(products, category, query);
  }

  /** Searching is case-insensitive: lower-casing the query changes nothing. */
  lemma SearchIgnoresCase(listing: seq<Product>, query: string)
    ensures SearchFilter(listing, ToLower(query)) == SearchFilter(listing, query)
  {
    ToLowerKeepsBlank(query);
    if Trim(query) != [] {
      forall k | 0 <= k < |listing|
        ensures QueryTest(ToLower(query))(listing[k]) == QueryTest(query)(listing[k])
      {
        MatchIgnoresCase(listing[k], query);
      }
      FilterSamePredicate(listing, QueryTest(ToLower(query)), QueryTest(query));
    }
  }

  lemma MatchIgnoresCase(product: Product, query: string)
    ensures MatchesQuery(product, ToLower(query)) == MatchesQuery(product, query)
  {
    ToLowerIdempotent(query);
  }

  /** Searching for a product's full name always finds that product. */
  lemma SearchFindsByName(listing: seq<Product>, k: int)
    requires 0 <= k < |listing|
    ensures listing[k] in SearchFilter(listing, listing[k].name)
  {
    var name := listing[k].name;
    if Trim(name) != [] {
      assert OccursAt(ToLower(name), ToLower(name), 0);
    }
  }

  /** The filter never shows a product outside the active category of the menu `ps`. */
  lemma SearchStaysInCategory(ps: seq<Product>, category: CategoryType, query: string)
    ensures var r := SearchFilter(ByCategory(ps, category), query);
      forall k :: 0 <= k < |r| ==> r[k].category == category && r[k] in ps
  {
    var listing := ByCategory(ps, category);
    var r := SearchFilter(listing, query);
    forall k | 0 <= k < |r|
      ensures r[k].category == category && r[k] in ps
    {
      var j :| 0 <= j < |listing| && listing[j] == r[k];
    }
  }

  // ---------------------------------------------------------------------
  // The page's state

  class Storefront {
    var activeCategory: CategoryType
    var isCartOpen: bool
    var searchQuery: string
    var confirmProduct: Option<Product>
    var cart: CartState
    const form: CartCheckout.CartForm

    ghost predicate Valid()
      reads this, form
    {
      CartInv(cart) && form.Valid()
    }

    constructor ()
      ensures Valid() && fresh(form)
      ensures activeCategory == Destaques && !isCartOpen && searchQuery == ""
      ensures confirmProduct == None && cart == InitialState
      ensures form.customerInfo == CartCheckout.EmptyCustomerInfo && form.errors == CartCheckout.NoErrors
    {
      activeCategory := Destaques;
      isCartOpen := false;
      searchQuery := "";
      confirmProduct := None;
      cart := InitialState;
      form := new CartCheckout.CartForm();
      InitialStateIsEmpty();
    }

    /** What the product grid shows. */
    function Shown(): (r: seq<Product>)
      reads this
    {
      FilteredProducts(activeCategory, searchQuery)
    }

    /** `getItemsCount()`, the header badge. */
    function Badge(): int
      reads this
    {
      GetItemsCount(cart.items)
    }

    /** `handleAddToCart`: only remembers the product awaiting confirmation. */
    method HandleAddToCart(product: Product)
      requires Valid()
      modifies this`confirmProduct
      ensures Valid()
      ensures confirmProduct == Some(product)
      ensures cart == old(cart)
    {
      confirmProduct := Some(product);
    }

    /** `handleConfirmAddToCart`: adds the pending product once and clears the slot. */
    method HandleConfirmAddToCart()
      requires Valid()
      modifies this`cart, this`confirmProduct
      ensures Valid()
      ensures confirmProduct == None
      ensures old(confirmProduct).Some? ==> cart == Reduce(old(cart), AddItem(old(confirmProduct).value))
      ensures old(confirmProduct).None? ==> cart == old(cart)
      ensures Badge() == old(Badge()) + if old(confirmProduct).Some? then 1 else 0
    {
      if confirmProduct.Some? {
        AddItemPreservesCartInv(cart, confirmProduct.value);
        AddItemRaisesCount(cart, confirmProduct.value);
        cart := Reduce(cart, AddItem(confirmProduct.value));
        confirmProduct := None;
      }
    }

    /** `handleCancelAddToCart`. */
    method HandleCancelAddToCart()
      requires Valid()
      modifies this`confirmProduct
      ensures Valid()
      ensures confirmProduct == None
      ensures cart == old(cart)
    {
      confirmProduct := None;
    }

    /** Choosing a tab shows only menu products of that category. */
    method HandleCategoryChange(category: CategoryType)
      requires Valid()
      modifies this`activeCategory
      ensures Valid()
      ensures activeCategory == category
      ensures forall k :: 0 <= k < |Shown()| ==> Shown()[k].category == category
    {
      activeCategory := category;
      ShownStaysInTab(category, searchQuery);
    }

    method HandleSearchChange(query: string)
      requires Valid()
      modifies this`searchQuery
      ensures Valid()
      ensures searchQuery == query
    {
      searchQuery := query;
    }

    method OpenCart()
      requires Valid()
      modifies this`isCartOpen
      ensures Valid()
      ensures isCartOpen
    {
      isCartOpen := true;
    }

    method CloseCart()
      requires Valid()
      modifies this`isCartOpen
      ensures Valid()
      ensures !isCartOpen
    {
      isCartOpen := false;
    }

    /** `handleCheckout` of the page: the cart is cleared. */
    method HandleCheckout(info: CustomerInfo)
      requires Valid()
      modifies this`cart
      ensures Valid()
      ensures cart == Reduce(old(cart), ClearCart)
      ensures cart.items == [] && cart.total == 0
    {
      ClearCartEmpties(cart);
      cart := Reduce(cart, ClearCart);
    }

    /**
     * Submitting the cart panel's form: when the form is valid and the cart
     * has a line the order is handed over, the page clears the cart and the
     * panel closes; otherwise the cart and the panel stay as they were.
     */
    method SubmitOrder() returns (order: Option<CustomerInfo>)
      requires Valid()
      modifies this`cart, this`isCartOpen, form
      ensures Valid()
      ensures order == if CartCheckout.CheckoutProceeds(old(form.customerInfo), old(cart).items)
                       then Some(old(form.customerInfo)) else None
      ensures order.Some? ==> cart == Reduce(old(cart), ClearCart)
      ensures order.Some? ==> cart.items == [] && cart.total == 0 && !isCartOpen
      ensures order.None? ==> cart == old(cart) && isCartOpen == old(isCartOpen)
      ensures form.errors == CartCheckout.ValidationErrors(old(form.customerInfo))
      ensures form.customerInfo == if order.Some? then CartCheckout.EmptyCustomerInfo
                                   else old(form.customerInfo)
    {
      order := form.HandleCheckout(cart.items);
      if order.Some? {
        HandleCheckout(order.value);
        CloseCart();
      }
    }
  }

  /** Confirming twice adds the product only once: the slot is empty the second time. */
  method ConfirmTwiceAddsOnce(s: Storefront, product: Product)
    requires s.Valid()
    modifies s
    ensures s.Valid()
    ensures s.cart == Reduce(old(s.cart), AddItem(product))
  {
    s.HandleAddToCart(product);
    s.HandleConfirmAddToCart();
    s.HandleConfirmAddToCart();
  }

}

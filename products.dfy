/** The fixed menu and the catalog queries over it. */
module Products {

  import opened Wrappers
  import opened Types
  import opened JsArray

  /** The menu, in display order. Prices are in cents. */
  const products: seq<Product> := [
    // id 1
    Product("1", "Burger Classic",
      "Hambúrguer artesanal com carne bovina, alface, tomate e molho especial",
      2490,
      Destaques, Some(true), Some(true)),
    // id 2
    Product("2", "Bacon Burger",
      "Delicioso hambúrguer com bacon crocante, queijo cheddar e cebola caramelizada",
      2890,
      Destaques, Some(true), Some(true)),
    // id 3
    Product("3", "BBQ Burger",
      "Hambúrguer com molho barbecue, queijo, pickle e batata palha",
      2690,
      Destaques, None, Some(true)),
    // id 4
    Product("4", "Cheese Burger",
      "Hambúrguer tradicional com queijo derretido, alface e tomate",
      2290,
      MaisPedidos, Some(true), None),
    // id 5
    Product("5", "Double Burger",
      "Dois hambúrgueres com queijo duplo e molho especial",
      3290,
      MaisPedidos, Some(true), None),
    // id 6
    Product("6", "Crispy Chicken",
      "Hambúrguer de frango empanado com molho ranch e salada",
      2590,
      MaisPedidos, Some(true), None),
    // id 7
    Product("7", "Mega Burger",
      "O maior hambúrguer da casa com 200g de carne, queijo e salada",
      3590,
      Burgers, None, None),
    // id 8
    Product("8", "Fish Burger",
      "Hambúrguer de salmão grelhado com molho tártaro",
      2990,
      Burgers, None, None),
    // id 9
    Product("9", "Spicy Burger",
      "Hambúrguer picante com pimenta jalapeño e molho chipotle",
      2790,
      Burgers, None, None),
    // id 10
    Product("10", "Truffle Burger",
      "Hambúrguer gourmet com trufa, queijo brie e rúcula",
      4590,
      Gourmet, None, None),
    // id 11
    Product("11", "Wagyu Burger",
      "Hambúrguer premium com carne wagyu e molho especial",
      5290,
      Gourmet, None, None),
    // id 12
    Product("12", "Lobster Burger",
      "Hambúrguer exclusivo com lagosta e aioli de limão",
      4890,
      Gourmet, None, None),
    // id 13
    Product("13", "Veggie Burger",
      "Hambúrguer vegano com proteína de soja e legumes grelhados",
      2390,
      Veggies, None, None),
    // id 14
    Product("14", "Mushroom Burger",
      "Hambúrguer de cogumelos portobello com queijo vegano",
      2690,
      Veggies, None, None),
    // id 15
    Product("15", "Quinoa Burger",
      "Hambúrguer nutritivo de quinoa com abacate e brotos",
      2890,
      Veggies, None, None)
  ]

  /** The navigation tabs. */
  const categories: seq<Category> := [
    Category(Destaques, "Destaques", None),
    Category(MaisPedidos, "Os mais pedidos", None),
    Category(Burgers, "Burgers", None),
    Category(Gourmet, "Gourmet da casa", None),
    Category(Veggies, "Veggies especiais", None)
  ]

  function InCategory(category: CategoryType): Product -> bool
  {
    (p: Product) => p.category == category
  }

  function HasId(id: string): Product -> bool
  {
    (p: Product) => p.id == id
  }

  function IsHighlight(p: Product): bool { Flag(p.isHighlight) }

  function IsPopular(p: Product): bool { Flag(p.isPopular) }

  // The queries are stated over any product table `ps`; the exported
  // functions below apply them to the menu.

  function ByCategory(ps: seq<Product>, category: CategoryType): (r: seq<Product>)
    ensures forall k :: 0 <= k < |r| ==> r[k] in ps && r[k].category == category
    ensures forall k :: 0 <= k < |ps| && ps[k].category == category ==> ps[k] in r
    ensures IsSubsequence(r, ps) && |r| <= |ps|
  {
    FilterIsSubsequence(ps, InCategory(category));
    Filter(ps, InCategory(category))
  }

  function FindById(ps: seq<Product>, id: string): (r: Option<Product>)
    ensures r.None? <==> forall k :: 0 <= k < |ps| ==> ps[k].id != id
    ensures r.Some? ==> exists k :: 0 <= k < |ps| && ps[k] == r.value && r.value.id == id &&
                                    forall j :: 0 <= j < k ==> ps[j].id != id
  {
    Find(ps, HasId(id))
  }

  /** `isHighlight` is truthy: an absent flag counts as false. */
  function Highlighted(ps: seq<Product>): (r: seq<Product>)
    ensures forall k :: 0 <= k < |r| ==> r[k] in ps && r[k].isHighlight == Some(true)
    ensures forall k :: 0 <= k < |ps| && ps[k].isHighlight == Some(true) ==> ps[k] in r
    ensures IsSubsequence(r, ps) && |r| <= |ps|
  {
    FilterIsSubsequence(ps, IsHighlight);
    Filter(ps, IsHighlight)
  }

  /** `isPopular` is truthy: an absent flag counts as false. */
  function Popular(ps: seq<Product>): (r: seq<Product>)
    ensures forall k :: 0 <= k < |r| ==> r[k] in ps && r[k].isPopular == Some(true)
    ensures forall k :: 0 <= k < |ps| && ps[k].isPopular == Some(true) ==> ps[k] in r
    ensures IsSubsequence(r, ps) && |r| <= |ps|
  {
    FilterIsSubsequence(ps, IsPopular);
    Filter(ps, IsPopular)
  }

  /** `getProductsByCategory`. */
  function ProductsByCategory(category: CategoryType): seq<Product>
  {
    ByCategory(products, category)
  }

  /** `getProductById`. */
  function ProductById(id: string): Option<Product>
  {
    FindById(products, id)
  }

  /** `getFeaturedProducts`. */
  function FeaturedProducts(): seq<Product>
  {
    Highlighted(products)
  }

  /** `getPopularProducts`. */
  function PopularProducts(): seq<Product>
  {
    Popular(products)
  }

  /** The menu's ids, in order. */
  lemma CatalogIds()
    ensures |products| == 15
    ensures Map(products, (p: Product) => p.id) ==
      ["1", "2", "3", "4", "5", "6", "7", "8", "9", "10", "11", "12", "13", "14", "15"]
  {
  }

  /** The menu's ids are pairwise distinct. */
  lemma CatalogIdsDistinct()
    ensures forall i, j :: 0 <= i < j < |products| ==> products[i].id != products[j].id
  {
    CatalogIds();
    var ids := Map(products, (p: Product) => p.id);
    assert forall i :: 0 <= i < |products| ==> products[i].id == ids[i];
  }

  /** Every product has a positive price and a category that has a tab. */
  lemma CatalogWellFormed()
    ensures forall k :: 0 <= k < |products| ==> products[k].price > 0
    ensures forall k :: 0 <= k < |products| ==>
              exists t :: 0 <= t < |categories| && categories[t].id == products[k].category
  {
    forall k | 0 <= k < |products|
      ensures exists t :: 0 <= t < |categories| && categories[t].id == products[k].category
    {
      match products[k].category
      case Destaques => assert categories[0].id == Destaques;
      case MaisPedidos => assert categories[1].id == MaisPedidos;
      case Burgers => assert categories[2].id == Burgers;
      case Gourmet => assert categories[3].id == Gourmet;
      case Veggies => assert categories[4].id == Veggies;
    }
  }

  /** In a table with distinct ids, looking up a product's id finds that very product. */
  lemma FindByIdFindsEach(ps: seq<Product>, k: int)
    requires forall i, j :: 0 <= i < j < |ps| ==> ps[i].id != ps[j].id
    requires 0 <= k < |ps|
    ensures FindById(ps, ps[k].id) == Some(ps[k])
  {
    var r := FindById(ps, ps[k].id);
    var j :| 0 <= j < |ps| && ps[j] == r.value && r.value.id == ps[k].id &&
             forall i :: 0 <= i < j ==> ps[i].id != ps[k].id;
    assert j == k;
  }

  /** `getProductById` finds every menu product by its own id. */
  lemma ProductByIdFindsEach()
    ensures forall k :: 0 <= k < |products| ==> ProductById(products[k].id) == Some(products[k])
  {
    CatalogIdsDistinct();
    forall k | 0 <= k < |products|
      ensures ProductById(products[k].id) == Some(products[k])
    {
      FindByIdFindsEach(products, k);
    }
  }

}

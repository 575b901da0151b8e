/** The storefront's records: products, cart lines, customer details, categories. */
module Types {

  import opened Wrappers

  /** The five menu categories. */
  datatype CategoryType = Destaques | MaisPedidos | Burgers | Gourmet | Veggies

  /**
   * A menu product. `price` is in integer cents; the optional display flags
   * are `None` where the record leaves them out. The image URL is not modelled.
   */
  datatype Product = Product(
    id: string,
    name: string,
    description: string,
    price: int,
    category: CategoryType,
    isPopular: Option<bool>,
    isHighlight: Option<bool>)

  /** A cart line: a product and how many of it. */
  datatype CartItem = CartItem(product: Product, quantity: int)

  /** The delivery details typed into the checkout form. */
  datatype CustomerInfo = CustomerInfo(
    name: string,
    phone: string,
    address: string,
    neighborhood: Option<string>)

  /** A navigation tab. */
  datatype Category = Category(id: CategoryType, name: string, isActive: Option<bool>)

  /** JavaScript truthiness of an optional flag: only a present `true` counts. */
  predicate Flag(b: Option<bool>)
  {
    b == Some(true)
  }

}

/** The records of the storefront: a catalog product, a cart line, a category
    tab and the structured recipe the gateway produces. */
module Types {

  /** Absent/present, used for the optional fields of a product and for
      values that may be `undefined` or `null`. */
  datatype Option<+T> = None | Some(value: T)

  /** A catalog entry. The price is an exact amount in cents. */
  datatype Product = Product(
    id: string,
    name: string,
    category: string,
    price: int,
    unit: string,
    image: string,
    description: string,
    isPopular: Option<bool>,
    calories: Option<int>)

  /** A cart line: the product it was created from plus a quantity. */
  datatype CartItem = CartItem(product: Product, quantity: int)

  /** A category tab of the catalog. */
  datatype Category = Category(id: string, name: string, icon: string)

  /** The recipe returned by the recipe gateway. */
  datatype AIResponse = AIResponse(
    recipeName: string,
    ingredients: seq<string>,
    instructions: seq<string>,
    estimatedTime: string,
    tips: string)
}

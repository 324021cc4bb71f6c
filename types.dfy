/** Record shapes shared by the client store and the API handlers
    (src/types/index.ts). Prices are integer cents; timestamps are integers
    (larger means later). `updatedAt` is not modelled: nothing in the core
    reads it. */
module Types {

  datatype Option<+T> = None | Some(value: T) {
    function GetOr(default: T): T {
      match this
      case Some(v) => v
      case None => default
    }
  }

  /** A category row; `slug` is the URL-safe key the product query filters on. */
  datatype Category = Category(id: string, name: string, slug: string)

  /** A product row joined with its category, as the API returns it. */
  datatype Product = Product(
    id: string,
    title: string,
    description: string,
    price: int,
    imageUrl: string,
    categoryId: string,
    category: Category,
    createdAt: int)
}

/**
 The records of the commerce backend: the caller, the four tables' row shapes,
 and the outcomes of the request handlers.
 */
module Entities {

  datatype Option<T> = None | Some(value: T)

  /** The authenticated caller. Authentication itself is outside the model:
      a handler only ever sees the caller's id and retailer flag. */
  datatype User = User(id: int, isRetailer: bool)

  /** Prices are whole cents. */
  datatype Product = Product(
    name: string,
    description: string,
    price: int,
    stock: int,
    image: string,
    retailerId: int)

  datatype CartItem = CartItem(userId: int, productId: int, quantity: int)

  datatype Order = Order(userId: int, totalPrice: int)

  /** `unitPrice` is the product's price as it was at checkout. */
  datatype OrderItem = OrderItem(orderId: int, productId: int, quantity: int, unitPrice: int)

  /** The handlers' failures, one variant per distinct HTTP error they raise. */
  datatype Error =
    | InvalidProductOrQuantity   // add_to_cart: 400
    | ItemNotFound               // delete_cart_item: 404, missing or someone else's
    | EmptyCart                  // checkout: 400
    | OutOfStock(productId: int) // checkout: 400 (a crash when the product is gone)
    | NotRetailer                // create_product, list_my_products: 403
    | ProductNotFound            // update_product, delete_product: 404, missing or someone else's

  datatype Result<T> = Ok(value: T) | Err(error: Error)

  /** For handlers whose success carries no data. */
  datatype Outcome = Done | Failed(error: Error)
}

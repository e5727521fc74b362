/**
 The value-level part of the product routes: the request bodies and the
 partial update `sqlmodel_update` performs.
 */
module Catalog {
  import opened Entities

  /** Body of POST /products/add-product: every field but the owner. */
  datatype ProductCreate = ProductCreate(
    name: string,
    description: string,
    price: int,
    stock: int,
    image: string)

  /** Body of PATCH /products/{id}: `None` is a field the client did not set. */
  datatype ProductUpdate = ProductUpdate(
    name: Option<string>,
    description: Option<string>,
    price: Option<int>,
    stock: Option<int>,
    image: Option<string>)

  function Pick<T>(patch: Option<T>, current: T): T {
    match patch
    case Some(v) => v
    case None => current
  }

  /** The product a patch leaves behind: every set field takes the new value,
      every unset field and the owner keep their old value. */
  function ApplyUpdate(p: Product, patch: ProductUpdate): (q: Product)
    ensures q.retailerId == p.retailerId
    ensures patch.name.None? ==> q.name == p.name
    ensures patch.name.Some? ==> q.name == patch.name.value
    ensures patch.description.None? ==> q.description == p.description
    ensures patch.description.Some? ==> q.description == patch.description.value
    ensures patch.price.None? ==> q.price == p.price
    ensures patch.price.Some? ==> q.price == patch.price.value
    ensures patch.stock.None? ==> q.stock == p.stock
    ensures patch.stock.Some? ==> q.stock == patch.stock.value
    ensures patch.image.None? ==> q.image == p.image
    ensures patch.image.Some? ==> q.image == patch.image.value
  {
    p.(name := Pick(patch.name, p.name),
       description := Pick(patch.description, p.description),
       price := Pick(patch.price, p.price),
       stock := Pick(patch.stock, p.stock),
       image := Pick(patch.image, p.image))
  }

  /** A patch that sets nothing changes nothing, and applying a patch twice is
      the same as applying it once. */
  lemma ApplyUpdateLaws(p: Product, patch: ProductUpdate)
    ensures ApplyUpdate(p, ProductUpdate(None, None, None, None, None)) == p
    ensures ApplyUpdate(ApplyUpdate(p, patch), patch) == ApplyUpdate(p, patch)
  {
  }

  /** The ownership check of update and delete: the product exists and the caller owns it. */
  predicate Owns(products: map<int, Product>, productId: int, userId: int) {
    productId in products && products[productId].retailerId == userId
  }
}

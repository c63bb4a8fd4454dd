/** The document store the controllers talk to through Mongoose, as one
    in-memory object: a collection per model and the generator of fresh
    ObjectIds. `Valid()` is what every stored document satisfies between
    requests. */
module Db {
  import opened Common
  import CartModel
  import ProductModel
  import OrderModel

  class Database {
    /** The carts collection, keyed by owner: `user` is unique in CartSchema. */
    var carts: map<Id, CartModel.Cart>
    var products: map<Id, ProductModel.Product>
    var orders: map<Id, OrderModel.Order>
    /** Every id below this one has been handed out. */
    var nextId: nat

    ghost predicate Valid()
      reads this
    {
      (forall u :: u in carts ==> carts[u].user == u && CartModel.Persistable(carts[u])) &&
      (forall k :: k in products ==>
        k < nextId && ProductModel.SchemaValid(products[k]) &&
        ProductModel.AtMostOnePrimary(products[k].images)) &&
      (forall k :: k in orders ==>
        k < nextId && orders[k].totalAmount == OrderModel.LinesTotal(orders[k].items))
    }

    constructor ()
      ensures Valid()
      ensures carts == map[] && products == map[] && orders == map[] && nextId == 0
    {
      carts, products, orders, nextId := map[], map[], map[], 0;
    }

    /** Hands out `n` fresh ObjectIds, `base` to `base + n - 1`. */
    method NewIds(n: nat) returns (base: Id)
      requires Valid()
      modifies this
      ensures Valid()
      ensures base == old(nextId) && nextId == base + n
      ensures base !in products && base !in orders
      ensures carts == old(carts) && products == old(products) && orders == old(orders)
    {
      base := nextId;
      nextId := nextId + n;
    }

    /** `cart.save()`: writes the cart when it passes CartSchema, else rejects it. */
    method SaveCart(c: CartModel.Cart) returns (r: Result<CartModel.Cart>)
      requires Valid()
      requires c.total == CartModel.Total(c.items)
      modifies this
      ensures Valid()
      ensures r == if CartModel.SchemaValid(c) then Ok(c) else Err(ValidationFailed)
      ensures carts == if CartModel.SchemaValid(c) then old(carts)[c.user := c] else old(carts)
      ensures products == old(products) && orders == old(orders) && nextId == old(nextId)
    {
      if CartModel.SchemaValid(c) {
        carts := carts[c.user := c];
        r := Ok(c);
      } else {
        r := Err(ValidationFailed);
      }
    }

    /** `product.save()`: writes the product under `key` when it passes ProductSchema. */
    method SaveProduct(key: Id, p: ProductModel.Product) returns (r: Result<ProductModel.Product>)
      requires Valid()
      requires key < nextId
      requires ProductModel.AtMostOnePrimary(p.images)
      modifies this
      ensures Valid()
      ensures r == if ProductModel.SchemaValid(p) then Ok(p) else Err(ValidationFailed)
      ensures products == if ProductModel.SchemaValid(p) then old(products)[key := p] else old(products)
      ensures carts == old(carts) && orders == old(orders) && nextId == old(nextId)
    {
      if ProductModel.SchemaValid(p) {
        products := products[key := p];
        r := Ok(p);
      } else {
        r := Err(ValidationFailed);
      }
    }
  }
}

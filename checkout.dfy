/**
 * The cart page's checkout, composing the cart store with the emulated
 * database: it builds an order, writes it under `orders/<id>`, and clears
 * the cart. The database has no branch for that path, so the order is dropped.
 */
module Checkout {
  import opened Base
  import opened JsValues
  import opened FirebaseModel
  import opened FirebaseProperties
  import opened CartStore
  import FirebaseMock

  datatype CheckoutOutcome = NotSignedIn | CartEmpty | Placed(order: Value)

  /** A cart line as the order stores it: every field of the product, then the quantity. */
  function LineItemValue(li: LineItem): Value {
    Object(li.product.details + map["id" := Str(li.product.id), "name" := Str(li.product.name),
                                    "price" := Num(li.product.price), "quantity" := Num(li.quantity)])
  }

  /** An order line carries the product's id, its quantity, and every other field of the product. */
  lemma LineItemKeepsProductFields(li: LineItem)
    ensures LineItemValue(li).Object?
    ensures Field(LineItemValue(li).fields, "id") == Str(li.product.id)
    ensures Field(LineItemValue(li).fields, "quantity") == Num(li.quantity)
    ensures forall f :: f in li.product.details && f !in {"id", "name", "price", "quantity"} ==>
              Field(LineItemValue(li).fields, f) == li.product.details[f]
  {
  }

  /** `{id, userId, items, total, status: 'completed', createdAt}`. */
  function OrderValue(orderId: string, userId: Value, items: Cart, total: int, createdAt: string): Value {
    Object(map["id" := Str(orderId), "userId" := userId,
               "items" := List(seq(|items|, i requires 0 <= i < |items| => LineItemValue(items[i]))),
               "total" := Num(total), "status" := Str("completed"), "createdAt" := Str(createdAt)])
  }

  /**
   * `handleCheckout`. `items` is the page's cart state, `now` the rendering of
   * `Date.now()` and `createdAt` the ISO timestamp; the total is read from the
   * cart store, as the page does.
   */
  method HandleCheckout(store: CartStore, db: FirebaseMock.Backend, session: Option<Session>,
                        items: Cart, now: string, createdAt: string)
    returns (outcome: CheckoutOutcome)
    requires store.Valid() && db.Valid()
    modifies store, db`users, db`chatHistory, db`storage
    ensures store.Valid() && db.Valid()
    ensures session.None? ==> outcome == NotSignedIn && unchanged(store) && unchanged(db)
    ensures session.Some? && items == [] ==> outcome == CartEmpty && unchanged(store) && unchanged(db)
    ensures session.Some? && items != [] ==>
              && outcome == Placed(OrderValue("order_" + now, session.value.uid, items, Total(old(store.stored)), createdAt))
              && store.stored == []
              && db.State() == old(db.State())
              && db.storage == old(db.storage)
              && GetPath(db.State(), OrdersPrefix + "order_" + now) == GetPath(old(db.State()), OrdersPrefix + "order_" + now)
  {
    if session.None? {
      return NotSignedIn;
    }
    if items == [] {
      return CartEmpty;
    }
    var total := store.GetTotal();
    var orderId := "order_" + now;
    var order := OrderValue(orderId, session.value.uid, items, total, createdAt);
    OrderWriteDropped(db.State(), orderId, order);
    db.Set(OrdersPrefix + orderId, order);
    var _ := store.ClearCart();
    outcome := Placed(order);
    assert OrdersPrefix + orderId == OrdersPrefix + "order_" + now;
  }
}

/**
 * The shopping cart kept in the browser's local storage under the key
 * `marketplace_cart`: an ordered list of line items keyed by product id.
 * Prices are integer cents.
 */
module CartStore {
  import opened JsValues

  /**
   * A product as the cart receives it. The id, name and price are the fields
   * the cart and the checkout read; `details` holds every other field the
   * product carries (description, seller fields, image, creation time), which
   * a line item copies along.
   */
  datatype Product = Product(id: string, name: string, price: int, details: Record)

  /** `{...product, quantity}`. */
  datatype LineItem = LineItem(product: Product, quantity: int) {
    function Id(): string { product.id }
    function Subtotal(): int { product.price * quantity }
  }

  type Cart = seq<LineItem>

  /** Every line present has quantity at least 1. */
  ghost predicate AllPositive(cart: Cart) {
    forall i :: 0 <= i < |cart| ==> cart[i].quantity >= 1
  }

  ghost predicate HasLine(cart: Cart, id: string) {
    exists i :: 0 <= i < |cart| && cart[i].Id() == id
  }

  /** `cart.find(item => item.id === id)`: the index of the first line with that id, or -1. */
  function IndexOf(cart: Cart, id: string): (k: int)
    ensures -1 <= k < |cart|
    ensures k >= 0 ==> cart[k].Id() == id && forall j :: 0 <= j < k ==> cart[j].Id() != id
    ensures k == -1 <==> !HasLine(cart, id)
  {
    if cart == [] then -1
    else if cart[0].Id() == id then 0
    else
      var k := IndexOf(cart[1..], id);
      assert k >= 0 ==> cart[k + 1] == cart[1..][k];
      assert k == -1 ==> forall j :: 1 <= j < |cart| ==> cart[j] == cart[1..][j - 1];
      if k == -1 then -1 else k + 1
  }

  /** The cart `addToCart(product)` leaves: increment the first matching line, or append one with quantity 1. */
  function Added(cart: Cart, p: Product): Cart {
    var k := IndexOf(cart, p.id);
    if k >= 0 then cart[k := cart[k].(quantity := cart[k].quantity + 1)]
    else cart + [LineItem(p, 1)]
  }

  /** `cart.filter(item => item.id !== id)`. */
  function Removed(cart: Cart, id: string): Cart {
    if cart == [] then []
    else (if cart[0].Id() == id then [] else [cart[0]]) + Removed(cart[1..], id)
  }

  /** The cart `updateQuantity(id, quantity)` leaves. */
  function Updated(cart: Cart, id: string, quantity: int): Cart {
    var k := IndexOf(cart, id);
    if k < 0 then cart
    else if quantity <= 0 then Removed(cart, id)
    else cart[k := cart[k].(quantity := quantity)]
  }

  /** `getTotal`: the left fold of price times quantity. */
  function Total(cart: Cart): int {
    if cart == [] then 0 else Total(cart[..|cart| - 1]) + cart[|cart| - 1].Subtotal()
  }

  /** `getItemCount`: the left fold of the quantities. */
  function ItemCount(cart: Cart): int {
    if cart == [] then 0 else ItemCount(cart[..|cart| - 1]) + cart[|cart| - 1].quantity
  }

  /**
   * The cart store. `stored` is what local storage holds under `marketplace_cart`
   * (an absent key reads as the empty cart); `hasWindow` is false where no
   * storage medium exists, and then every read sees the empty cart and
   * every save does nothing.
   */
  class CartStore {
    var stored: Cart
    const hasWindow: bool

    ghost predicate Valid()
      reads this
    {
      !hasWindow ==> stored == []
    }

    constructor (hasWindow: bool, persisted: Cart)
      ensures Valid()
      ensures this.hasWindow == hasWindow
      ensures stored == if hasWindow then persisted else []
    {
      this.hasWindow := hasWindow;
      stored := if hasWindow then persisted else [];
    }

    /** `getCart`. */
    method GetCart() returns (cart: Cart)
      requires Valid()
      ensures cart == stored
      ensures !hasWindow ==> cart == []
    {
      cart := stored;
    }

    /** `saveCart`. */
    method SaveCart(cart: Cart)
      requires Valid()
      modifies this
      ensures Valid()
      ensures stored == if hasWindow then cart else old(stored)
    {
      if hasWindow {
        stored := cart;
      }
    }

    /** `addToCart`: the returned cart is the one saved. */
    method AddToCart(p: Product) returns (cart: Cart)
      requires Valid()
      modifies this
      ensures Valid()
      ensures cart == Added(old(stored), p)
      ensures stored == if hasWindow then cart else old(stored)
    {
      cart := GetCart();
      var k := IndexOf(cart, p.id);
      if k >= 0 {
        cart := cart[k := cart[k].(quantity := cart[k].quantity + 1)];
      } else {
        cart := cart + [LineItem(p, 1)];
      }
      SaveCart(cart);
    }

    /** `removeFromCart`. */
    method RemoveFromCart(id: string) returns (cart: Cart)
      requires Valid()
      modifies this
      ensures Valid()
      ensures cart == Removed(old(stored), id)
      ensures stored == if hasWindow then cart else old(stored)
    {
      cart := GetCart();
      cart := Removed(cart, id);
      SaveCart(cart);
    }

    /** `updateQuantity`: a quantity of 0 or less on a present line delegates to `removeFromCart`. */
    method UpdateQuantity(id: string, quantity: int) returns (cart: Cart)
      requires Valid()
      modifies this
      ensures Valid()
      ensures cart == Updated(old(stored), id, quantity)
      ensures stored == if hasWindow then cart else old(stored)
    {
      cart := GetCart();
      var k := IndexOf(cart, id);
      if k >= 0 {
        if quantity <= 0 {
          cart := RemoveFromCart(id);
          return;
        }
        cart := cart[k := cart[k].(quantity := quantity)];
      }
      SaveCart(cart);
    }

    /** `clearCart`. */
    method ClearCart() returns (cart: Cart)
      requires Valid()
      modifies this
      ensures Valid()
      ensures cart == [] && stored == []
    {
      if hasWindow {
        stored := [];
      }
      cart := [];
    }

    /** `getTotal`. */
    method GetTotal() returns (total: int)
      requires Valid()
      ensures total == Total(stored)
      ensures AllPositive(stored) && (forall i :: 0 <= i < |stored| ==> stored[i].product.price >= 0) ==> total >= 0
    {
      var cart := GetCart();
      TotalNonNegative(cart);
      total := Total(cart);
    }

    /** `getItemCount`. */
    method GetItemCount() returns (count: int)
      requires Valid()
      ensures count == ItemCount(stored)
      ensures AllPositive(stored) ==> count >= |stored|
    {
      var cart := GetCart();
      ItemCountAtLeastLines(cart);
      count := ItemCount(cart);
    }
  }

  // ---------------------------------------------------------------------
  // Properties of the cart operations

  /** Adding a product already present increments that line only; no line is added. */
  lemma AddExistingIncrements(cart: Cart, p: Product)
    requires HasLine(cart, p.id)
    ensures |Added(cart, p)| == |cart|
    ensures var k := IndexOf(cart, p.id);
      Added(cart, p)[k].quantity == cart[k].quantity + 1 &&
      Added(cart, p)[k].product == cart[k].product &&
      forall j :: 0 <= j < |cart| && j != k ==> Added(cart, p)[j] == cart[j]
  {
  }

  /** Adding a product not present appends one line with quantity 1 at the end. */
  lemma AddNewAppends(cart: Cart, p: Product)
    requires !HasLine(cart, p.id)
    ensures Added(cart, p) == cart + [LineItem(p, 1)]
  {
  }

  /** Adding twice the same product to a cart without it gives one line of quantity 2. */
  lemma AddTwiceGivesQuantityTwo(cart: Cart, p: Product)
    requires !HasLine(cart, p.id)
    ensures Added(Added(cart, p), p) == cart + [LineItem(p, 2)]
  {
    var once := Added(cart, p);
    assert once == cart + [LineItem(p, 1)];
    assert once[|cart|].Id() == p.id;
    var k := IndexOf(once, p.id);
    assert k == |cart| by {
      forall j | 0 <= j < |cart| ensures once[j].Id() != p.id {
        assert once[j] == cart[j];
      }
    }
  }

  /** After removal no line carries the id, and every other line is kept. */
  lemma {:induction false} RemovedMembership(cart: Cart, id: string, x: LineItem)
    ensures x in Removed(cart, id) <==> x in cart && x.Id() != id
  {
    if cart != [] {
      RemovedMembership(cart[1..], id, x);
      assert cart == [cart[0]] + cart[1..];
    }
  }

  /** Removal keeps the order of the remaining lines: it distributes over concatenation. */
  lemma {:induction false} RemovedConcat(a: Cart, b: Cart, id: string)
    ensures Removed(a + b, id) == Removed(a, id) + Removed(b, id)
  {
    if a != [] {
      assert (a + b)[1..] == a[1..] + b;
      RemovedConcat(a[1..], b, id);
    } else {
      assert a + b == b;
    }
  }

  /** Removing an id no line carries leaves the cart as it is. */
  lemma {:induction false} RemovedAbsent(cart: Cart, id: string)
    requires !HasLine(cart, id)
    ensures Removed(cart, id) == cart
  {
    if cart != [] {
      assert !HasLine(cart[1..], id) by {
        forall j | 0 <= j < |cart[1..]| ensures cart[1..][j].Id() != id {
          assert cart[1..][j] == cart[j + 1];
        }
      }
      RemovedAbsent(cart[1..], id);
    }
  }

  /** A quantity of 0 or less on a present line is the same as removing it. */
  lemma UpdateNonPositiveRemoves(cart: Cart, id: string, quantity: int)
    requires HasLine(cart, id) && quantity <= 0
    ensures Updated(cart, id, quantity) == Removed(cart, id)
    ensures !HasLine(Updated(cart, id, quantity), id)
  {
    var r := Removed(cart, id);
    forall j | 0 <= j < |r| ensures r[j].Id() != id {
      RemovedMembership(cart, id, r[j]);
    }
  }

  /** A positive quantity on a present line sets that line's quantity and nothing else. */
  lemma UpdatePositiveSets(cart: Cart, id: string, quantity: int)
    requires HasLine(cart, id) && quantity > 0
    ensures |Updated(cart, id, quantity)| == |cart|
    ensures var k := IndexOf(cart, id);
      Updated(cart, id, quantity)[k] == cart[k].(quantity := quantity) &&
      forall j :: 0 <= j < |cart| && j != k ==> Updated(cart, id, quantity)[j] == cart[j]
  {
  }

  /** Updating an absent id leaves the cart unchanged, whatever the quantity. */
  lemma UpdateAbsentUnchanged(cart: Cart, id: string, quantity: int)
    requires !HasLine(cart, id)
    ensures Updated(cart, id, quantity) == cart
  {
  }

  /** Adding, removing and updating keep every line's quantity at least 1. */
  lemma OperationsKeepPositive(cart: Cart, p: Product, id: string, quantity: int)
    requires AllPositive(cart)
    ensures AllPositive(Added(cart, p))
    ensures AllPositive(Removed(cart, id))
    ensures AllPositive(Updated(cart, id, quantity))
  {
    forall x | x in Removed(cart, id) ensures x.quantity >= 1 {
      RemovedMembership(cart, id, x);
    }
  }

  lemma {:induction false} TotalConcat(a: Cart, b: Cart)
    ensures Total(a + b) == Total(a) + Total(b)
    ensures ItemCount(a + b) == ItemCount(a) + ItemCount(b)
    decreases |b|
  {
    if b == [] {
      assert a + b == a;
    } else {
      var b' := b[..|b| - 1];
      assert (a + b)[..|a + b| - 1] == a + b';
      TotalConcat(a, b');
    }
  }

  lemma {:induction false} TotalSingle(x: LineItem)
    ensures Total([x]) == x.Subtotal() && ItemCount([x]) == x.quantity
  {
    assert [x][..0] == [];
  }

  /** Replacing one line changes the total and the count by that line's difference. */
  lemma TotalReplace(cart: Cart, k: nat, x: LineItem)
    requires k < |cart|
    ensures Total(cart[k := x]) == Total(cart) - cart[k].Subtotal() + x.Subtotal()
    ensures ItemCount(cart[k := x]) == ItemCount(cart) - cart[k].quantity + x.quantity
  {
    var pre, post := cart[..k], cart[k + 1..];
    assert cart == pre + [cart[k]] + post;
    assert cart[k := x] == pre + [x] + post;
    TotalConcat(pre + [cart[k]], post);
    TotalConcat(pre, [cart[k]]);
    TotalConcat(pre + [x], post);
    TotalConcat(pre, [x]);
    TotalSingle(cart[k]);
    TotalSingle(x);
  }

  /**
   * Adding a product raises the item count by exactly 1, and the total by the
   * price recorded on the line that grew: the stored line's price when the id
   * was present (a changed price of `p` is not picked up), `p.price` otherwise.
   */
  lemma AddRaisesCountByOne(cart: Cart, p: Product)
    ensures ItemCount(Added(cart, p)) == ItemCount(cart) + 1
    ensures var k := IndexOf(cart, p.id);
      Total(Added(cart, p)) == Total(cart) + (if k >= 0 then cart[k].product.price else p.price)
  {
    var k := IndexOf(cart, p.id);
    if k >= 0 {
      var x := cart[k].(quantity := cart[k].quantity + 1);
      TotalReplace(cart, k, x);
      SubtotalOneMore(cart[k]);
    } else {
      TotalConcat(cart, [LineItem(p, 1)]);
      TotalSingle(LineItem(p, 1));
    }
  }

  lemma SubtotalOneMore(x: LineItem)
    ensures x.(quantity := x.quantity + 1).Subtotal() == x.Subtotal() + x.product.price
  {
    var a, q := x.product.price, x.quantity;
    assert a * (q + 1) == a * q + a;
  }

  /** The item count of a cart whose lines are all positive is at least its number of lines. */
  lemma {:induction false} ItemCountAtLeastLines(cart: Cart)
    ensures AllPositive(cart) ==> ItemCount(cart) >= |cart|
  {
    if cart != [] && AllPositive(cart) {
      ItemCountAtLeastLines(cart[..|cart| - 1]);
    }
  }

  /** With non-negative prices and positive quantities the total is non-negative. */
  lemma {:induction false} TotalNonNegative(cart: Cart)
    ensures AllPositive(cart) && (forall i :: 0 <= i < |cart| ==> cart[i].product.price >= 0) ==> Total(cart) >= 0
  {
    if cart != [] {
      TotalNonNegative(cart[..|cart| - 1]);
    }
  }

  /** A cart saved by `addToCart` is what a fresh page load reads back. */
  method CartSurvivesRestart(c: CartStore, p: Product) returns (reloaded: CartStore, cart: Cart)
    requires c.Valid() && c.hasWindow && c.stored == []
    modifies c
    ensures cart == [LineItem(p, 1)]
  {
    var _ := c.AddToCart(p);
    reloaded := new CartStore(true, c.stored);
    cart := reloaded.GetCart();
  }

  /** After `clearCart`, `getTotal` and `getItemCount` both answer 0, whatever the cart held. */
  method ClearThenRead(c: CartStore) returns (total: int, count: int)
    requires c.Valid()
    modifies c
    ensures total == 0 && count == 0
    ensures c.stored == []
  {
    var _ := c.ClearCart();
    total := c.GetTotal();
    count := c.GetItemCount();
  }
}

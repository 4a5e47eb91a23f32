/** The cart state manager of the storefront: the cart is an ordered sequence
    of lines, updated by `addToCart` and `updateQuantity`, with the item count
    and the price total recomputed from it on every change. */
module Cart {
  import opened Types

  /** No two lines carry the same product id. */
  predicate UniqueIds(cart: seq<CartItem>) {
    forall i, j :: 0 <= i < j < |cart| ==> cart[i].product.id != cart[j].product.id
  }

  /** Every line present has a quantity of at least one. */
  predicate PositiveQuantities(cart: seq<CartItem>) {
    forall i :: 0 <= i < |cart| ==> cart[i].quantity >= 1
  }

  /** The cart invariant: ids are unique and every quantity is at least one. */
  predicate WellFormed(cart: seq<CartItem>) {
    UniqueIds(cart) && PositiveQuantities(cart)
  }

  predicate HasId(cart: seq<CartItem>, id: string) {
    exists i :: 0 <= i < |cart| && cart[i].product.id == id
  }

  function Max(a: int, b: int): int {
    if a >= b then a else b
  }

  /** `prev.find(item => item.id === id)`: the first line of the cart with
      that id, or nothing when there is none. */
  function Find(cart: seq<CartItem>, id: string): (r: Option<CartItem>)
    ensures r.Some? <==> HasId(cart, id)
    ensures r.Some? ==> r.value in cart && r.value.product.id == id
  {
    if cart == [] then None
    else if cart[0].product.id == id then Some(cart[0])
    else
      var r := Find(cart[1..], id);
      assert HasId(cart, id) ==> HasId(cart[1..], id) by {
        if HasId(cart, id) {
          var i :| 0 <= i < |cart| && cart[i].product.id == id;
          assert cart[1..][i - 1] == cart[i];
        }
      }
      assert HasId(cart[1..], id) ==> HasId(cart, id) by {
        if HasId(cart[1..], id) {
          var i :| 0 <= i < |cart[1..]| && cart[1..][i].product.id == id;
          assert cart[i + 1] == cart[1..][i];
        }
      }
      r
  }

  /** The line `Find` returns is the first one with the id. */
  lemma {:induction false} FindFirst(cart: seq<CartItem>, id: string, k: nat)
    requires k < |cart| && cart[k].product.id == id
    requires forall j :: 0 <= j < k ==> cart[j].product.id != id
    ensures Find(cart, id) == Some(cart[k])
  {
    if k > 0 {
      assert cart[1..][k - 1] == cart[k];
      FindFirst(cart[1..], id, k - 1);
    }
  }

  /** The `map` in `addToCart`: every line with the id gains one unit; the
      products, and so the ids and their order, stay as they were. */
  function Increment(cart: seq<CartItem>, id: string): (r: seq<CartItem>)
    ensures |r| == |cart|
    ensures forall i :: 0 <= i < |cart| ==> r[i].product == cart[i].product
    ensures forall i :: 0 <= i < |cart| && cart[i].product.id != id ==> r[i] == cart[i]
    ensures forall i :: 0 <= i < |cart| && cart[i].product.id == id ==> r[i].quantity == cart[i].quantity + 1
  {
    seq(|cart|, i requires 0 <= i < |cart| =>
      if cart[i].product.id == id then cart[i].(quantity := cart[i].quantity + 1) else cart[i])
  }

  /** `addToCart`: merge by product id, or append a new line of quantity one. */
  function AddToCart(cart: seq<CartItem>, product: Product): (r: seq<CartItem>)
    ensures !HasId(cart, product.id) ==> r == cart + [CartItem(product, 1)]
    ensures HasId(cart, product.id) ==>
      |r| == |cart| &&
      forall i :: 0 <= i < |cart| ==>
        r[i].product == cart[i].product &&
        r[i].quantity == cart[i].quantity + (if cart[i].product.id == product.id then 1 else 0)
    ensures HasId(r, product.id)
    ensures WellFormed(cart) ==> WellFormed(r)
  {
    if Find(cart, product.id).Some? then
      var r := Increment(cart, product.id);
      assert HasId(r, product.id) by {
        var i :| 0 <= i < |cart| && cart[i].product.id == product.id;
        assert r[i].product.id == product.id;
      }
      r
    else
      var r := cart + [CartItem(product, 1)];
      assert r[|cart|].product.id == product.id;
      r
  }

  /** The `map` in `updateQuantity`: every line with the id gets its
      quantity plus `delta`, clamped at zero; the products and every other
      line stay as they were. */
  function SetQuantity(cart: seq<CartItem>, id: string, delta: int): (r: seq<CartItem>)
    ensures |r| == |cart|
    ensures forall i :: 0 <= i < |cart| ==> r[i].product == cart[i].product
    ensures forall i :: 0 <= i < |cart| && cart[i].product.id != id ==> r[i] == cart[i]
    ensures forall i :: 0 <= i < |cart| && cart[i].product.id == id ==>
      r[i].quantity == (if cart[i].quantity + delta >= 0 then cart[i].quantity + delta else 0)
  {
    seq(|cart|, i requires 0 <= i < |cart| =>
      if cart[i].product.id == id then cart[i].(quantity := Max(0, cart[i].quantity + delta)) else cart[i])
  }

  /** The `filter(item => item.quantity > 0)` in `updateQuantity`. */
  function KeepPositive(items: seq<CartItem>): (r: seq<CartItem>)
    ensures PositiveQuantities(r)
    ensures PositiveQuantities(items) ==> r == items
    ensures |r| <= |items|
  {
    if items == [] then []
    else
      assert PositiveQuantities(items) ==> PositiveQuantities(items[1..]) by {
        if PositiveQuantities(items) {
          forall i | 0 <= i < |items[1..]| ensures items[1..][i].quantity >= 1 {
            assert items[1..][i] == items[i + 1];
          }
        }
      }
      if items[0].quantity > 0 then [items[0]] + KeepPositive(items[1..]) else KeepPositive(items[1..])
  }

  /** The filter keeps exactly the positive lines, and so keeps ids unique. */
  lemma {:induction false} KeepPositiveMembers(items: seq<CartItem>)
    ensures forall x :: x in KeepPositive(items) <==> x in items && x.quantity > 0
    ensures UniqueIds(items) ==> UniqueIds(KeepPositive(items))
  {
    if items != [] {
      KeepPositiveMembers(items[1..]);
      var rest := KeepPositive(items[1..]);
      assert forall x :: x in items <==> x == items[0] || x in items[1..];
      assert UniqueIds(items) ==> UniqueIds(items[1..]) by {
        if UniqueIds(items) {
          forall i, j | 0 <= i < j < |items[1..]|
            ensures items[1..][i].product.id != items[1..][j].product.id
          {
            assert items[1..][i] == items[i + 1] && items[1..][j] == items[j + 1];
          }
        }
      }
      if items[0].quantity > 0 && UniqueIds(items) {
        forall x | x in rest ensures x.product.id != items[0].product.id {
          var j :| 0 <= j < |items[1..]| && items[1..][j] == x;
          assert items[j + 1] == x;
        }
        var r := [items[0]] + rest;
        forall i, j | 0 <= i < j < |r| ensures r[i].product.id != r[j].product.id {
          assert r[j] == rest[j - 1];
          assert rest[j - 1] in rest;
          if i > 0 {
            assert r[i] == rest[i - 1];
          }
        }
      }
    }
  }

  /** `updateQuantity(id, delta)`: clamp the matching line's new quantity at
      zero, then drop every line whose quantity is not positive. */
  function UpdateQuantity(cart: seq<CartItem>, id: string, delta: int): (r: seq<CartItem>)
    ensures PositiveQuantities(r)
    ensures UniqueIds(cart) ==> UniqueIds(r)
    ensures WellFormed(cart) ==> WellFormed(r)
    ensures PositiveQuantities(cart) && !HasId(cart, id) ==> r == cart
    ensures |r| <= |cart|
  {
    var s := SetQuantity(cart, id, delta);
    assert UniqueIds(cart) ==> UniqueIds(s);
    assert !HasId(cart, id) ==> s == cart;
    KeepPositiveMembers(s);
    KeepPositive(s)
  }

  /** Sum of the quantities, the reference definition of the item count. */
  function SumQuantities(cart: seq<CartItem>): int {
    if cart == [] then 0 else cart[0].quantity + SumQuantities(cart[1..])
  }

  /** Sum of price times quantity, the reference definition of the total. */
  function SumPrices(cart: seq<CartItem>): int {
    if cart == [] then 0 else cart[0].product.price * cart[0].quantity + SumPrices(cart[1..])
  }

  /** `reduce((acc, item) => acc + item.quantity, acc)`, a left fold. */
  function CountFold(items: seq<CartItem>, acc: int): (r: int)
    ensures r == acc + SumQuantities(items)
  {
    if items == [] then acc else CountFold(items[1..], acc + items[0].quantity)
  }

  /** `reduce((acc, item) => acc + item.price * item.quantity, acc)`. */
  function TotalFold(items: seq<CartItem>, acc: int): (r: int)
    ensures r == acc + SumPrices(items)
  {
    if items == [] then acc else TotalFold(items[1..], acc + items[0].product.price * items[0].quantity)
  }

  /** `cartCount`: the fold started at zero. */
  function CartCount(cart: seq<CartItem>): (n: int)
    ensures n == SumQuantities(cart)
    ensures PositiveQuantities(cart) ==> n >= |cart|
  {
    assert PositiveQuantities(cart) ==> SumQuantities(cart) >= |cart| by {
      if PositiveQuantities(cart) { CountCoversLines(cart); }
    }
    CountFold(cart, 0)
  }

  /** `cartTotal`: the fold started at zero. */
  function CartTotal(cart: seq<CartItem>): (t: int)
    ensures t == SumPrices(cart)
    ensures (forall i :: 0 <= i < |cart| ==> cart[i].product.price >= 0 && cart[i].quantity >= 0) ==> t >= 0
  {
    assert (forall i :: 0 <= i < |cart| ==> cart[i].product.price >= 0 && cart[i].quantity >= 0) ==> SumPrices(cart) >= 0 by {
      if forall i :: 0 <= i < |cart| ==> cart[i].product.price >= 0 && cart[i].quantity >= 0 {
        TotalNonNegative(cart);
      }
    }
    TotalFold(cart, 0)
  }

  lemma {:induction false} CountCoversLines(cart: seq<CartItem>)
    requires PositiveQuantities(cart)
    ensures SumQuantities(cart) >= |cart|
  {
    if cart != [] {
      CountCoversLines(cart[1..]);
    }
  }

  lemma {:induction false} TotalNonNegative(cart: seq<CartItem>)
    requires forall i :: 0 <= i < |cart| ==> cart[i].product.price >= 0 && cart[i].quantity >= 0
    ensures SumPrices(cart) >= 0
  {
    if cart != [] {
      TotalNonNegative(cart[1..]);
    }
  }

  lemma {:induction false} SumsAppend(a: seq<CartItem>, b: seq<CartItem>)
    ensures SumQuantities(a + b) == SumQuantities(a) + SumQuantities(b)
    ensures SumPrices(a + b) == SumPrices(a) + SumPrices(b)
  {
    if a == [] {
      assert a + b == b;
    } else {
      assert (a + b)[1..] == a[1..] + b;
      SumsAppend(a[1..], b);
    }
  }

  /** Replacing one line changes each sum by exactly that line's difference. */
  lemma {:induction false} SumsReplace(cart: seq<CartItem>, k: nat, y: CartItem)
    requires k < |cart|
    ensures SumQuantities(cart[k := y]) == SumQuantities(cart) - cart[k].quantity + y.quantity
    ensures SumPrices(cart[k := y]) ==
      SumPrices(cart) - cart[k].product.price * cart[k].quantity + y.product.price * y.quantity
  {
    if k > 0 {
      assert cart[k := y][1..] == cart[1..][k - 1 := y];
      SumsReplace(cart[1..], k - 1, y);
    } else {
      assert cart[k := y][1..] == cart[1..];
    }
  }

  /** Removing one line takes exactly that line out of each sum. */
  lemma SumsRemove(cart: seq<CartItem>, k: nat)
    requires k < |cart|
    ensures SumQuantities(cart[..k] + cart[k + 1..]) == SumQuantities(cart) - cart[k].quantity
    ensures SumPrices(cart[..k] + cart[k + 1..]) == SumPrices(cart) - cart[k].product.price * cart[k].quantity
  {
    var a, x, b := cart[..k], cart[k], cart[k + 1..];
    assert cart == a + ([x] + b);
    assert ([x] + b)[1..] == b;
    SumsAppend(a, [x] + b);
    SumsAppend(a, b);
  }

  /** Adding a product whose id is present increments that one line by exactly
      one; length, order and all other lines are unchanged. */
  lemma AddExisting(cart: seq<CartItem>, product: Product, k: nat)
    requires UniqueIds(cart) && k < |cart| && cart[k].product.id == product.id
    ensures AddToCart(cart, product) == cart[k := cart[k].(quantity := cart[k].quantity + 1)]
  {
    var r := AddToCart(cart, product);
    var e := cart[k := cart[k].(quantity := cart[k].quantity + 1)];
    assert HasId(cart, product.id);
    forall i | 0 <= i < |cart| ensures r[i] == e[i] {
      if i != k {
        assert cart[i].product.id != product.id;
      }
    }
  }

  /** The unit price of the line that receives the unit when `product` is
      added: that of the line already holding the id, else the product's. */
  function AddedPrice(cart: seq<CartItem>, product: Product): int {
    match Find(cart, product.id)
    case Some(item) => item.product.price
    case None => product.price
  }

  /** Adding to a cart raises the count by exactly one and the total by the
      unit price of the line that received the unit. */
  lemma AddSums(cart: seq<CartItem>, product: Product)
    requires UniqueIds(cart)
    ensures CartCount(AddToCart(cart, product)) == CartCount(cart) + 1
    ensures CartTotal(AddToCart(cart, product)) == CartTotal(cart) + AddedPrice(cart, product)
  {
    var f := Find(cart, product.id);
    if f.Some? {
      var k :| 0 <= k < |cart| && cart[k] == f.value;
      AddSumsAt(cart, product, k);
    } else {
      assert AddToCart(cart, product) == cart + [CartItem(product, 1)];
      SumsAppend(cart, [CartItem(product, 1)]);
    }
  }

  lemma AddSumsAt(cart: seq<CartItem>, product: Product, k: nat)
    requires UniqueIds(cart) && k < |cart| && cart[k].product.id == product.id
    ensures CartCount(AddToCart(cart, product)) == CartCount(cart) + 1
    ensures CartTotal(AddToCart(cart, product)) == CartTotal(cart) + cart[k].product.price
  {
    var y := cart[k].(quantity := cart[k].quantity + 1);
    assert AddToCart(cart, product) == cart[k := y] by {
      AddExisting(cart, product, k);
    }
    SumsReplace(cart, k, y);
    assert y.product.price * y.quantity == cart[k].product.price * cart[k].quantity + cart[k].product.price;
  }

  lemma {:induction false} KeepPositiveAppend(a: seq<CartItem>, b: seq<CartItem>)
    ensures KeepPositive(a + b) == KeepPositive(a) + KeepPositive(b)
  {
    if a == [] {
      assert a + b == b;
    } else {
      assert (a + b)[1..] == a[1..] + b;
      KeepPositiveAppend(a[1..], b);
    }
  }

  /** The `map` of `updateQuantity` touches only the line with the id. */
  lemma SetQuantityAt(cart: seq<CartItem>, k: nat, delta: int)
    requires UniqueIds(cart) && k < |cart|
    ensures SetQuantity(cart, cart[k].product.id, delta) ==
      cart[k := cart[k].(quantity := Max(0, cart[k].quantity + delta))]
  {
    var s := SetQuantity(cart, cart[k].product.id, delta);
    forall i | 0 <= i < |cart| && i != k ensures s[i] == cart[i] {
      assert cart[i].product.id != cart[k].product.id;
    }
  }

  /** Filtering a cart of positive lines in which one line was replaced keeps
      the replacement where it was, or drops it when it is not positive. */
  lemma {:induction false} KeepPositiveReplace(cart: seq<CartItem>, k: nat, y: CartItem)
    requires PositiveQuantities(cart) && k < |cart|
    ensures KeepPositive(cart[k := y]) == if y.quantity > 0 then cart[k := y] else cart[..k] + cart[k + 1..]
  {
    var tail := cart[1..];
    assert PositiveQuantities(tail) by {
      forall i | 0 <= i < |tail| ensures tail[i].quantity >= 1 {
        assert tail[i] == cart[i + 1];
      }
    }
    if k == 0 {
      KeepPositiveCons(y, tail);
      assert cart[0 := y] == [y] + tail;
      assert cart[..0] + cart[1..] == tail;
    } else {
      KeepPositiveReplace(tail, k - 1, y);
      KeepPositiveCons(cart[0], tail[k - 1 := y]);
      assert cart[k := y] == [cart[0]] + tail[k - 1 := y];
      assert cart[..k] + cart[k + 1..] == [cart[0]] + (tail[..k - 1] + tail[k..]);
    }
  }

  lemma KeepPositiveCons(x: CartItem, rest: seq<CartItem>)
    ensures KeepPositive([x] + rest) == if x.quantity > 0 then [x] + KeepPositive(rest) else KeepPositive(rest)
  {
    assert ([x] + rest)[1..] == rest;
  }

  /** `updateQuantity` on a line of a well-formed cart: the line's quantity
      becomes `max(0, q + delta)` and the line is removed exactly when that is
      zero; every other line stays where it was. */
  lemma UpdatePresent(cart: seq<CartItem>, k: nat, delta: int)
    requires WellFormed(cart) && k < |cart|
    ensures UpdateQuantity(cart, cart[k].product.id, delta) ==
      var q := Max(0, cart[k].quantity + delta);
      if q == 0 then cart[..k] + cart[k + 1..] else cart[k := cart[k].(quantity := q)]
  {
    SetQuantityAt(cart, k, delta);
    KeepPositiveReplace(cart, k, cart[k].(quantity := Max(0, cart[k].quantity + delta)));
  }

  /** The trash button: `updateQuantity(id, -q)` with the line's own quantity
      removes exactly that line, and its id leaves the cart. */
  lemma RemoveLine(cart: seq<CartItem>, k: nat)
    requires WellFormed(cart) && k < |cart|
    ensures UpdateQuantity(cart, cart[k].product.id, -cart[k].quantity) == cart[..k] + cart[k + 1..]
    ensures !HasId(UpdateQuantity(cart, cart[k].product.id, -cart[k].quantity), cart[k].product.id)
  {
    UpdatePresent(cart, k, -cart[k].quantity);
    var r := cart[..k] + cart[k + 1..];
    forall i | 0 <= i < |r| ensures r[i].product.id != cart[k].product.id {
      if i < k {
        assert r[i] == cart[i];
      } else {
        assert r[i] == cart[i + 1];
      }
    }
  }

  /** `updateQuantity` on a present line changes the count and the total by
      exactly the change of that line's quantity. */
  lemma UpdateSums(cart: seq<CartItem>, k: nat, delta: int)
    requires WellFormed(cart) && k < |cart|
    ensures var q := Max(0, cart[k].quantity + delta);
      var r := UpdateQuantity(cart, cart[k].product.id, delta);
      CartCount(r) == CartCount(cart) - cart[k].quantity + q &&
      CartTotal(r) == CartTotal(cart) - cart[k].product.price * cart[k].quantity + cart[k].product.price * q
  {
    var q := Max(0, cart[k].quantity + delta);
    UpdatePresent(cart, k, delta);
    if q == 0 {
      SumsRemove(cart, k);
    } else {
      SumsReplace(cart, k, cart[k].(quantity := q));
    }
  }

  /** A user action on the cart. */
  datatype CartAction = AddItem(product: Product) | ChangeQuantity(id: string, delta: int)

  function Step(cart: seq<CartItem>, action: CartAction): seq<CartItem> {
    match action
    case AddItem(p) => AddToCart(cart, p)
    case ChangeQuantity(id, delta) => UpdateQuantity(cart, id, delta)
  }

  /** The cart after a sequence of actions, applied one at a time. */
  function Run(cart: seq<CartItem>, actions: seq<CartAction>): seq<CartItem>
    decreases |actions|
  {
    if actions == [] then cart else Run(Step(cart, actions[0]), actions[1..])
  }

  /** Any sequence of actions keeps ids unique and every quantity at least one. */
  lemma {:induction false} RunPreservesWellFormed(cart: seq<CartItem>, actions: seq<CartAction>)
    requires WellFormed(cart)
    ensures WellFormed(Run(cart, actions))
    decreases |actions|
  {
    if actions != [] {
      RunPreservesWellFormed(Step(cart, actions[0]), actions[1..]);
    }
  }

  predicate DistinctIds(products: seq<Product>) {
    forall i, j :: 0 <= i < j < |products| ==> products[i].id != products[j].id
  }

  function AddAll(products: seq<Product>): seq<CartAction> {
    seq(|products|, i requires 0 <= i < |products| => AddItem(products[i]))
  }

  function FreshLines(products: seq<Product>): seq<CartItem> {
    seq(|products|, i requires 0 <= i < |products| => CartItem(products[i], 1))
  }

  /** Adding distinct products not yet in the cart appends one line of
      quantity one per product, in order. */
  lemma {:induction false} AddDistinct(cart: seq<CartItem>, products: seq<Product>)
    requires DistinctIds(products)
    requires forall i :: 0 <= i < |products| ==> !HasId(cart, products[i].id)
    ensures Run(cart, AddAll(products)) == cart + FreshLines(products)
    decreases |products|
  {
    if products == [] {
      assert AddAll(products) == [];
    } else {
      var p := products[0];
      var cart' := cart + [CartItem(p, 1)];
      assert AddAll(products)[1..] == AddAll(products[1..]);
      assert Step(cart, AddAll(products)[0]) == cart';
      forall i, j | 0 <= i < |products[1..]| && 0 <= j < |cart'|
        ensures cart'[j].product.id != products[1..][i].id
      {
        assert products[1..][i] == products[i + 1];
        if j < |cart| {
          assert cart[j] == cart'[j];
        }
      }
      AddDistinct(cart', products[1..]);
      assert cart' + FreshLines(products[1..]) == cart + FreshLines(products);
    }
  }

  /** Starting from the empty cart, `n` adds of distinct products give `n`
      lines of quantity one and an item count of `n`. */
  lemma AddDistinctCount(products: seq<Product>)
    requires DistinctIds(products)
    ensures Run([], AddAll(products)) == FreshLines(products)
    ensures CartCount(Run([], AddAll(products))) == |products|
  {
    AddDistinct([], products);
    assert [] + FreshLines(products) == FreshLines(products);
    FreshLinesCount(products);
  }

  lemma {:induction false} FreshLinesCount(products: seq<Product>)
    ensures SumQuantities(FreshLines(products)) == |products|
  {
    if products != [] {
      assert FreshLines(products)[1..] == FreshLines(products[1..]);
      FreshLinesCount(products[1..]);
    }
  }

  /** Two lines, 2 x 12.50 and 1 x 8.00: three items for 33.00. */
  lemma ExampleTotals(oil: Product, honey: Product)
    requires oil.price == 1250 && honey.price == 800
    ensures CartCount([CartItem(oil, 2), CartItem(honey, 1)]) == 3
    ensures CartTotal([CartItem(oil, 2), CartItem(honey, 1)]) == 3300
  {
    var cart := [CartItem(oil, 2), CartItem(honey, 1)];
    assert cart[1..] == [CartItem(honey, 1)] && cart[1..][1..] == [];
    assert SumQuantities(cart[1..]) == 1 && SumPrices(cart[1..]) == 800;
    assert SumPrices(cart) == 1250 * 2 + 800;
  }
}

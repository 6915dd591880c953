/**
  The per-user shopping cart and the `POST /api/cart` upsert: the first cart
  item with the requested product id has its quantity raised by one, and when
  there is none a new item with quantity 1 is appended.
 */
module Cart {
  import opened Basics

  datatype CartItem = CartItem(productId: string, title: string, price: int, quantity: int)

  /** A user document: only the cart is touched by the upsert. */
  datatype User = User(name: string, email: string, cart: seq<CartItem>, address: Option<string>)

  /** The test `Array.find` applies to each cart item. */
  function ForProduct(productId: string): CartItem -> bool {
    (item: CartItem) => item.productId == productId
  }

  /** Some cart item is for `productId`. */
  predicate InCart(cart: seq<CartItem>, productId: string) {
    Exists(cart, ForProduct(productId))
  }

  /** No two cart items share a product id. */
  predicate UniqueProducts(cart: seq<CartItem>) {
    forall i, j :: 0 <= i < j < |cart| ==> cart[i].productId != cart[j].productId
  }

  /** Total quantity held for `productId` across every matching cart item. */
  function QuantityOf(cart: seq<CartItem>, productId: string): int {
    if |cart| == 0 then 0
    else (if cart[0].productId == productId then cart[0].quantity else 0) + QuantityOf(cart[1..], productId)
  }

  /** The upsert performed on the cart by `POST /api/cart`. */
  function Add(cart: seq<CartItem>, productId: string, title: string, price: int): (r: seq<CartItem>)
    ensures !InCart(cart, productId) ==> r == cart + [CartItem(productId, title, price, 1)]
    ensures InCart(cart, productId) ==> |r| == |cart|
    ensures InCart(cart, productId) ==>
      exists k: nat :: IsFirst(cart, ForProduct(productId), k)
        && r[k] == cart[k].(quantity := cart[k].quantity + 1)
        && forall j :: 0 <= j < |cart| && j != k ==> r[j] == cart[j]
  {
    match FirstIndex(cart, ForProduct(productId))
    case Some(k) => cart[k := cart[k].(quantity := cart[k].quantity + 1)]
    case None => cart + [CartItem(productId, title, price, 1)]
  }

  /** With product ids unique, the item whose quantity rises is the one item for that product. */
  lemma AddIncrementsTheItem(cart: seq<CartItem>, productId: string, title: string, price: int, k: nat)
    requires UniqueProducts(cart)
    requires k < |cart| && cart[k].productId == productId
    ensures Add(cart, productId, title, price) == cart[k := cart[k].(quantity := cart[k].quantity + 1)]
  {
    var f := FirstIndex(cart, ForProduct(productId));
    assert ForProduct(productId)(cart[k]);
    assert f.Some?;
  }

  /** The upsert keeps product ids pairwise distinct. */
  lemma AddPreservesUniqueness(cart: seq<CartItem>, productId: string, title: string, price: int)
    requires UniqueProducts(cart)
    ensures UniqueProducts(Add(cart, productId, title, price))
  {
    var r := Add(cart, productId, title, price);
    if !InCart(cart, productId) {
      forall i, j | 0 <= i < j < |r|
        ensures r[i].productId != r[j].productId
      {
        if j == |cart| {
          assert r[j].productId == productId;
          assert r[i] == cart[i];
        }
      }
    }
  }

  lemma {:induction false} QuantityOfAppend(cart: seq<CartItem>, item: CartItem, productId: string)
    ensures QuantityOf(cart + [item], productId)
         == QuantityOf(cart, productId) + (if item.productId == productId then item.quantity else 0)
    decreases |cart|
  {
    if |cart| > 0 {
      assert (cart + [item])[1..] == cart[1..] + [item];
      QuantityOfAppend(cart[1..], item, productId);
    } else {
      assert [item][1..] == [];
    }
  }

  lemma {:induction false} QuantityOfUpdate(cart: seq<CartItem>, k: nat, item: CartItem, productId: string)
    requires k < |cart|
    ensures QuantityOf(cart[k := item], productId)
         == QuantityOf(cart, productId)
          - (if cart[k].productId == productId then cart[k].quantity else 0)
          + (if item.productId == productId then item.quantity else 0)
    decreases k
  {
    if k > 0 {
      assert cart[k := item][1..] == cart[1..][k - 1 := item];
      QuantityOfUpdate(cart[1..], k - 1, item, productId);
    } else {
      assert cart[k := item][1..] == cart[1..];
    }
  }

  /**
    Whichever branch the upsert takes, the cart holds exactly one more unit of
    the requested product and the same quantity of every other product.
   */
  lemma AddAddsOneUnit(cart: seq<CartItem>, productId: string, title: string, price: int, other: string)
    ensures QuantityOf(Add(cart, productId, title, price), productId) == QuantityOf(cart, productId) + 1
    ensures other != productId ==>
      QuantityOf(Add(cart, productId, title, price), other) == QuantityOf(cart, other)
  {
    match FirstIndex(cart, ForProduct(productId))
    case Some(k) =>
      assert ForProduct(productId)(cart[k]);
      var item := cart[k].(quantity := cart[k].quantity + 1);
      QuantityOfUpdate(cart, k, item, productId);
      QuantityOfUpdate(cart, k, item, other);
    case None =>
      var item := CartItem(productId, title, price, 1);
      QuantityOfAppend(cart, item, productId);
      QuantityOfAppend(cart, item, other);
  }

  /**
    `POST /api/cart` for a user that exists: that user's cart is upserted and
    returned; the user's other fields and every other user are untouched.
   */
  function PostCart(users: map<string, User>, googleId: string, productId: string, title: string, price: int)
    : (r: (map<string, User>, seq<CartItem>))
    requires googleId in users
    ensures r.0.Keys == users.Keys
    ensures r.0[googleId] == users[googleId].(cart := r.1)
    ensures r.1 == Add(users[googleId].cart, productId, title, price)
    ensures forall g :: g in users && g != googleId ==> r.0[g] == users[g]
  {
    var user := users[googleId];
    var cart := Add(user.cart, productId, title, price);
    (users[googleId := user.(cart := cart)], cart)
  }
}

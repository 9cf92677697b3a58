/**
 * The customer menu page's cart: `addToCart` merges a dish into the cart
 * (one line per dish id, its quantity counting the adds), and the cart
 * button shows the sum of the quantities. Prices are numbers in the page;
 * here they are whole amounts of the smallest currency unit.
 */
module MenuPage {
  import opened Common
  import opened Seqs

  /** A dish as the page loads it. */
  datatype MenuDish = MenuDish(id: string, name: string, price: int, imageUrl: string)

  /** A cart line: the dish's fields spread, plus a quantity. */
  datatype CartLine = CartLine(id: string, name: string, price: int, imageUrl: string, quantity: int)

  /** No two cart lines share a dish id. */
  ghost predicate UniqueIds(cart: seq<CartLine>) {
    forall i, j :: 0 <= i < j < |cart| ==> cart[i].id != cart[j].id
  }

  /** Each line with dish id `id` gets one more of it; every other line is kept as it is. */
  function IncrementLine(cart: seq<CartLine>, id: string): (r: seq<CartLine>)
    ensures |r| == |cart|
    ensures forall i :: 0 <= i < |cart| ==>
      r[i] == if cart[i].id == id then cart[i].(quantity := cart[i].quantity + 1) else cart[i]
  {
    seq(|cart|, i requires 0 <= i < |cart| =>
      if cart[i].id == id then cart[i].(quantity := cart[i].quantity + 1) else cart[i])
  }

  /** `addToCart(dish)`. */
  function AddToCart(cart: seq<CartLine>, d: MenuDish): (r: seq<CartLine>)
    ensures (exists i :: 0 <= i < |cart| && cart[i].id == d.id) ==> r == IncrementLine(cart, d.id)
    ensures (forall i :: 0 <= i < |cart| ==> cart[i].id != d.id) ==>
      r == cart + [CartLine(d.id, d.name, d.price, d.imageUrl, 1)]
    ensures |cart| <= |r| <= |cart| + 1
    ensures UniqueIds(cart) ==> UniqueIds(r)
  {
    var existing := Find(cart, (line: CartLine) => line.id == d.id);
    if existing.Some? then IncrementLine(cart, d.id)
    else cart + [CartLine(d.id, d.name, d.price, d.imageUrl, 1)]
  }

  /** The number on the cart button: the sum of the quantities. */
  function CartCount(cart: seq<CartLine>): int {
    Sum(cart, (line: CartLine) => line.quantity)
  }

  /** Each add raises the cart count by exactly one, as long as ids are unique. */
  lemma AddToCartCount(cart: seq<CartLine>, d: MenuDish)
    requires UniqueIds(cart)
    ensures CartCount(AddToCart(cart, d)) == CartCount(cart) + 1
  {
    var q := (line: CartLine) => line.quantity;
    if k :| 0 <= k < |cart| && cart[k].id == d.id {
      SumChangeOne(cart, IncrementLine(cart, d.id), q, k, 1);
    } else {
      var line := CartLine(d.id, d.name, d.price, d.imageUrl, 1);
      SumAppend(cart, [line], q);
      SumSingle(line, q);
    }
  }

  /** Adding the same dish twice to an empty cart gives one line of quantity two. */
  lemma AddTwice(d: MenuDish)
    ensures AddToCart(AddToCart([], d), d) == [CartLine(d.id, d.name, d.price, d.imageUrl, 2)]
  {
    var once := AddToCart([], d);
    assert once[0].id == d.id;
  }
}

/** The cart store of src/context/CartContext.tsx. The cart is an ordered
    list of line items; `cartTotal` and `itemCount` are recomputed by a fold
    over it after every change. The pure transitions `AddItem`, `RemoveItem`
    and `UpdateItemQuantity` are the specification; `CartStore` is the
    stateful provider whose methods perform them. Local-storage persistence
    and toast notifications are not modelled. */
module Cart {
  import opened Base
  import Seqs

  datatype CartItem = CartItem(
    id: string,
    name: string,
    price: real,
    image: Option<string>,
    quantity: int,
    weight: Option<real>,
    material: Option<string>,
    makingCharge: Option<real>
  )

  /** The accumulator of the `reduce` at lines 59-65. */
  datatype Totals = Totals(total: real, count: int)

  /** Σ price × quantity over the items. */
  function SumTotal(items: seq<CartItem>): real
    decreases |items|
  {
    if |items| == 0 then 0.0 else items[0].price * items[0].quantity as real + SumTotal(items[1..])
  }

  /** Σ quantity over the items. */
  function SumCount(items: seq<CartItem>): int
    decreases |items|
  {
    if |items| == 0 then 0 else items[0].quantity + SumCount(items[1..])
  }

  /** `items.reduce((acc, item) => ({...}), acc)`: a left fold. */
  function Reduce(items: seq<CartItem>, acc: Totals): Totals
    decreases |items|
  {
    if |items| == 0 then acc
    else
      var item := items[0];
      Reduce(items[1..], Totals(acc.total + item.price * item.quantity as real, acc.count + item.quantity))
  }

  /** The fold started from an accumulator adds the sums to it. */
  lemma {:induction false} ReduceAddsSums(items: seq<CartItem>, acc: Totals)
    ensures Reduce(items, acc) == Totals(acc.total + SumTotal(items), acc.count + SumCount(items))
    decreases |items|
  {
    if |items| > 0 {
      var item := items[0];
      var next := Totals(acc.total + item.price * item.quantity as real, acc.count + item.quantity);
      assert Reduce(items, acc) == Reduce(items[1..], next);
      ReduceAddsSums(items[1..], next);
      assert SumTotal(items) == item.price * item.quantity as real + SumTotal(items[1..]);
      assert SumCount(items) == item.quantity + SumCount(items[1..]);
    }
  }

  /** The totals effect: the fold from `{ total: 0, count: 0 }` yields
      Σ price × quantity and Σ quantity. */
  function CartTotals(items: seq<CartItem>): (t: Totals)
    ensures t.total == SumTotal(items) && t.count == SumCount(items)
  {
    ReduceAddsSums(items, Totals(0.0, 0));
    Reduce(items, Totals(0.0, 0))
  }

  predicate HasId(items: seq<CartItem>, id: string) {
    exists i :: 0 <= i < |items| && items[i].id == id
  }

  ghost predicate UniqueIds(items: seq<CartItem>) {
    forall i, j :: 0 <= i < j < |items| ==> items[i].id != items[j].id
  }

  /** `findIndex(cartItem => cartItem.id === id)`. */
  function IndexOfId(items: seq<CartItem>, id: string): (k: int)
    ensures -1 <= k < |items|
    ensures k == -1 <==> !HasId(items, id)
    ensures k >= 0 ==> items[k].id == id && forall i :: 0 <= i < k ==> items[i].id != id
    decreases |items|
  {
    if |items| == 0 then -1
    else if items[0].id == id then 0
    else
      var k := IndexOfId(items[1..], id);
      assert forall i :: 1 <= i < |items| ==> items[1..][i - 1] == items[i];
      if k == -1 then -1 else k + 1
  }

  /** `addToCart(item)` as a transition of the cart list. */
  function AddItem(cart: seq<CartItem>, item: CartItem): seq<CartItem> {
    var k := IndexOfId(cart, item.id);
    if k == -1 then cart + [item]
    else cart[k := cart[k].(quantity := cart[k].quantity + item.quantity)]
  }

  /** An id not yet in the cart is appended; earlier items are unchanged. */
  lemma AddNewAppends(cart: seq<CartItem>, item: CartItem)
    requires forall i :: 0 <= i < |cart| ==> cart[i].id != item.id
    ensures |AddItem(cart, item)| == |cart| + 1
    ensures AddItem(cart, item)[..|cart|] == cart
    ensures AddItem(cart, item)[|cart|] == item
  {
    assert !HasId(cart, item.id);
  }

  /** An id already in the cart (at index k) only has its quantity raised by
      `item.quantity`; its price, name and other fields, every other entry,
      and the length are unchanged. */
  lemma AddExistingMerges(cart: seq<CartItem>, item: CartItem, k: nat)
    requires UniqueIds(cart)
    requires k < |cart| && cart[k].id == item.id
    ensures |AddItem(cart, item)| == |cart|
    ensures AddItem(cart, item)[k] == cart[k].(quantity := cart[k].quantity + item.quantity)
    ensures forall j :: 0 <= j < |cart| && j != k ==> AddItem(cart, item)[j] == cart[j]
  {
    assert HasId(cart, item.id);
  }

  /** Adding keeps ids unique. */
  lemma AddKeepsIdsUnique(cart: seq<CartItem>, item: CartItem)
    requires UniqueIds(cart)
    ensures UniqueIds(AddItem(cart, item))
  {
    var r := AddItem(cart, item);
    if !HasId(cart, item.id) {
      assert forall i :: 0 <= i < |cart| ==> r[i] == cart[i];
    }
  }

  lemma {:induction false} SumsAppend(items: seq<CartItem>, item: CartItem)
    ensures SumTotal(items + [item]) == SumTotal(items) + item.price * item.quantity as real
    ensures SumCount(items + [item]) == SumCount(items) + item.quantity
    decreases |items|
  {
    if |items| > 0 {
      assert (items + [item])[1..] == items[1..] + [item];
      SumsAppend(items[1..], item);
    } else {
      assert items + [item] == [item];
    }
  }

  lemma {:induction false} SumsUpdate(items: seq<CartItem>, k: nat, item: CartItem)
    requires k < |items|
    ensures SumTotal(items[k := item]) ==
            SumTotal(items) - items[k].price * items[k].quantity as real + item.price * item.quantity as real
    ensures SumCount(items[k := item]) == SumCount(items) - items[k].quantity + item.quantity
    decreases |items|
  {
    if k > 0 {
      assert items[k := item][1..] == items[1..][k - 1 := item];
      SumsUpdate(items[1..], k - 1, item);
    } else {
      assert items[k := item][1..] == items[1..];
    }
  }

  lemma Distribute(price: real, a: int, b: int)
    ensures price * (a + b) as real == price * a as real + price * b as real
  {
    assert (a + b) as real == a as real + b as real;
  }

  /** Adding an id not yet in the cart adds its price times its quantity to
      the total, and its quantity to the count. */
  lemma AddNewTotals(cart: seq<CartItem>, item: CartItem)
    requires !HasId(cart, item.id)
    ensures SumTotal(AddItem(cart, item)) == SumTotal(cart) + item.price * item.quantity as real
    ensures SumCount(AddItem(cart, item)) == SumCount(cart) + item.quantity
  {
    assert AddItem(cart, item) == cart + [item];
    SumsAppend(cart, item);
  }

  /** Re-adding charges the price captured at the first add: the total grows
      by the existing entry's price times the added quantity, whatever price
      the new item carries, and the count by the added quantity. */
  lemma AddExistingTotals(cart: seq<CartItem>, item: CartItem)
    requires IndexOfId(cart, item.id) >= 0
    ensures SumTotal(AddItem(cart, item))
            == SumTotal(cart) + cart[IndexOfId(cart, item.id)].price * item.quantity as real
    ensures SumCount(AddItem(cart, item)) == SumCount(cart) + item.quantity
  {
    MergedLine(cart, item);
    MergeTotals(cart, IndexOfId(cart, item.id), item.quantity);
  }

  /** With the id present, adding replaces its entry by the merged line. */
  lemma MergedLine(cart: seq<CartItem>, item: CartItem)
    requires IndexOfId(cart, item.id) >= 0
    ensures AddItem(cart, item)
            == cart[IndexOfId(cart, item.id) := cart[IndexOfId(cart, item.id)].(quantity := cart[IndexOfId(cart, item.id)].quantity + item.quantity)]
  {
  }

  /** Raising the quantity of entry `k` by `b` adds `b` units at its price. */
  lemma MergeTotals(cart: seq<CartItem>, k: nat, b: int)
    requires k < |cart|
    ensures SumTotal(cart[k := cart[k].(quantity := cart[k].quantity + b)])
            == SumTotal(cart) + cart[k].price * b as real
    ensures SumCount(cart[k := cart[k].(quantity := cart[k].quantity + b)]) == SumCount(cart) + b
  {
    var line := cart[k];
    SumsUpdate(cart, k, line.(quantity := line.quantity + b));
    Distribute(line.price, line.quantity, b);
  }




  /** `removeFromCart(id)`: `prevCart.filter(item => item.id !== id)`. */
  function RemoveItem(cart: seq<CartItem>, id: string): seq<CartItem> {
    Seqs.Filter(cart, (it: CartItem) => it.id != id)
  }

  /** Removal drops every entry with the id, keeps every other entry as
      often as before, and an absent id leaves the cart unchanged. */
  lemma RemoveDropsId(cart: seq<CartItem>, id: string)
    ensures forall i :: 0 <= i < |RemoveItem(cart, id)| ==> RemoveItem(cart, id)[i].id != id
    ensures forall it: CartItem :: it.id != id ==> multiset(RemoveItem(cart, id))[it] == multiset(cart)[it]
    ensures !HasId(cart, id) ==> RemoveItem(cart, id) == cart
  {
    Seqs.FilterFacts(cart, (it: CartItem) => it.id != id);
    if !HasId(cart, id) {
      Seqs.FilterAll(cart, (it: CartItem) => it.id != id);
    }
  }

  /** Removal keeps the survivors in order: it distributes over concatenation. */
  lemma RemoveKeepsOrder(front: seq<CartItem>, back: seq<CartItem>, id: string)
    ensures RemoveItem(front + back, id) == RemoveItem(front, id) + RemoveItem(back, id)
  {
    Seqs.FilterConcat(front, back, (it: CartItem) => it.id != id);
  }

  /** Removal keeps ids unique. */
  lemma {:induction false} RemoveKeepsIdsUnique(cart: seq<CartItem>, id: string)
    requires UniqueIds(cart)
    ensures UniqueIds(RemoveItem(cart, id))
    decreases |cart|
  {
    if |cart| > 0 {
      RemoveKeepsIdsUnique(cart[1..], id);
      Seqs.FilterFacts(cart[1..], (it: CartItem) => it.id != id);
      assert forall it :: it in RemoveItem(cart[1..], id) ==> it in cart[1..];
    }
  }

  /** `prevCart.map(item => item.id === id ? { ...item, quantity } : item)`. */
  function SetQuantity(cart: seq<CartItem>, id: string, quantity: int): (r: seq<CartItem>)
    ensures |r| == |cart|
    ensures forall i :: 0 <= i < |cart| ==> r[i].id == cart[i].id
  {
    seq(|cart|, i requires 0 <= i < |cart| => if cart[i].id == id then cart[i].(quantity := quantity) else cart[i])
  }

  /** `updateQuantity(id, quantity)`: a non-positive quantity removes the item. */
  function UpdateItemQuantity(cart: seq<CartItem>, id: string, quantity: int): seq<CartItem> {
    if quantity <= 0 then RemoveItem(cart, id) else SetQuantity(cart, id, quantity)
  }

  /** A quantity <= 0 behaves exactly like `removeFromCart`. */
  lemma UpdateNonPositiveRemoves(cart: seq<CartItem>, id: string, quantity: int)
    requires quantity <= 0
    ensures UpdateItemQuantity(cart, id, quantity) == RemoveItem(cart, id)
    ensures !HasId(UpdateItemQuantity(cart, id, quantity), id)
  {
    RemoveDropsId(cart, id);
  }

  /** A positive quantity is set on the matching entry only; length, order,
      every other field and every other entry are unchanged; an absent id is
      a no-op. */
  lemma UpdatePositiveSets(cart: seq<CartItem>, id: string, quantity: int)
    requires quantity > 0
    ensures |UpdateItemQuantity(cart, id, quantity)| == |cart|
    ensures forall i :: 0 <= i < |cart| && cart[i].id == id ==>
              UpdateItemQuantity(cart, id, quantity)[i] == cart[i].(quantity := quantity)
    ensures forall i :: 0 <= i < |cart| && cart[i].id != id ==>
              UpdateItemQuantity(cart, id, quantity)[i] == cart[i]
    ensures !HasId(cart, id) ==> UpdateItemQuantity(cart, id, quantity) == cart
  {
  }

  /** Updating keeps ids unique. */
  lemma UpdateKeepsIdsUnique(cart: seq<CartItem>, id: string, quantity: int)
    requires UniqueIds(cart)
    ensures UniqueIds(UpdateItemQuantity(cart, id, quantity))
  {
    if quantity <= 0 {
      RemoveKeepsIdsUnique(cart, id);
    }
  }

  /** Re-adding "p1" with another price keeps the first price and sums quantities. */
  lemma ReAddKeepsFirstPrice()
    ensures var first := CartItem("p1", "Ring", 100.0, None, 2, None, None, None);
            var again := CartItem("p1", "Ring", 999.0, None, 3, None, None, None);
            AddItem(AddItem([], first), again) == [first.(quantity := 5)]
  {
  }

  /** Adding A (500 × 1) then B (1500 × 2) to an empty cart gives total 3500 and count 3. */
  lemma TwoItemTotals()
    ensures var a := CartItem("a", "A", 500.0, None, 1, None, None, None);
            var b := CartItem("b", "B", 1500.0, None, 2, None, None, None);
            CartTotals(AddItem(AddItem([], a), b)) == Totals(3500.0, 3)
  {
    var a := CartItem("a", "A", 500.0, None, 1, None, None, None);
    var b := CartItem("b", "B", 1500.0, None, 2, None, None, None);
    assert AddItem(AddItem([], a), b) == [a, b];
  }

  /** The cart provider: the item list and the two aggregates the effect
      recomputes from it. */
  class CartStore {
    var cart: seq<CartItem>
    var cartTotal: real
    var itemCount: int

    /** The aggregates never drift from the items, and ids are unique. */
    ghost predicate Valid()
      reads this
    {
      UniqueIds(cart) && cartTotal == SumTotal(cart) && itemCount == SumCount(cart)
    }

    constructor ()
      ensures Valid()
      ensures cart == [] && cartTotal == 0.0 && itemCount == 0
    {
      cart := [];
      cartTotal := 0.0;
      itemCount := 0;
    }

    /** The effect that runs whenever the cart changes (lines 55-69). */
    method RecomputeTotals()
      modifies this
      ensures cart == old(cart)
      ensures cartTotal == SumTotal(cart) && itemCount == SumCount(cart)
    {
      var totals := CartTotals(cart);
      cartTotal := totals.total;
      itemCount := totals.count;
    }

    method AddToCart(item: CartItem)
      requires Valid()
      modifies this
      ensures Valid()
      ensures cart == AddItem(old(cart), item)
    {
      AddKeepsIdsUnique(cart, item);
      var existingItemIndex := IndexOfId(cart, item.id);
      if existingItemIndex != -1 {
        var existing := cart[existingItemIndex];
        cart := cart[existingItemIndex := existing.(quantity := existing.quantity + item.quantity)];
      } else {
        cart := cart + [item];
      }
      RecomputeTotals();
    }

    method RemoveFromCart(id: string)
      requires Valid()
      modifies this
      ensures Valid()
      ensures cart == RemoveItem(old(cart), id)
    {
      RemoveKeepsIdsUnique(cart, id);
      cart := RemoveItem(cart, id);
      RecomputeTotals();
    }

    method ClearCart()
      requires Valid()
      modifies this
      ensures Valid()
      ensures cart == [] && cartTotal == 0.0 && itemCount == 0
    {
      cart := [];
      RecomputeTotals();
    }

    method UpdateQuantity(id: string, quantity: int)
      requires Valid()
      modifies this
      ensures Valid()
      ensures cart == UpdateItemQuantity(old(cart), id, quantity)
    {
      if quantity <= 0 {
        RemoveFromCart(id);
        return;
      }
      UpdateKeepsIdsUnique(cart, id, quantity);
      cart := SetQuantity(cart, id, quantity);
      RecomputeTotals();
    }
  }
}

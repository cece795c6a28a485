/**
 * The shopping cart of the storefront's root component: the three updaters
 * it passes to the cart and product pages (add, change quantity, remove) and
 * the two sums it derives from the cart (the total shown at checkout and the
 * badge count shown in the navigation bar).
 *
 * Each updater is a pure function from the previous cart to the next one,
 * as the component's `setCart(prev => ...)` callbacks in `App.tsx` are. The lemmas state
 * what the updaters promise: ids stay unique, quantities stay at least 1,
 * exactly the addressed line changes, and the sums move accordingly.
 */
module Cart {
  import opened Types

  /** Some line of the cart carries the laptop id `id`. */
  predicate Contains(cart: seq<CartItem>, id: string)
  {
    exists i :: 0 <= i < |cart| && cart[i].Id() == id
  }

  /** No two lines of the cart carry the same laptop id. */
  predicate UniqueIds(cart: seq<CartItem>)
  {
    forall i, j :: 0 <= i < j < |cart| ==> cart[i].Id() != cart[j].Id()
  }

  /** Every line of the cart has a quantity of at least 1. */
  predicate PositiveQuantities(cart: seq<CartItem>)
  {
    forall i :: 0 <= i < |cart| ==> cart[i].quantity >= 1
  }

  /** The invariant every cart built by the updaters below satisfies. */
  predicate Valid(cart: seq<CartItem>)
  {
    UniqueIds(cart) && PositiveQuantities(cart)
  }

  /** `Math.max(1, q)`: a quantity never drops below 1. */
  function AtLeastOne(q: int): (r: int)
    ensures r >= 1 && r >= q
    ensures r == 1 || r == q
    ensures q >= 1 ==> r == q
  {
    if q < 1 then 1 else q
  }

  /**
   * `prev.find(item => item.id === id)`: the first line carrying `id`,
   * if there is one.
   */
  function Find(cart: seq<CartItem>, id: string): (r: Option<CartItem>)
    ensures r.Some? <==> Contains(cart, id)
    ensures r.Some? ==>
      exists k :: 0 <= k < |cart| && cart[k] == r.value && cart[k].Id() == id &&
        forall j :: 0 <= j < k ==> cart[j].Id() != id
  {
    if cart == [] then None
    else if cart[0].Id() == id then Some(cart[0])
    else
      var rest := Find(cart[1..], id);
      assert Contains(cart[1..], id) ==> Contains(cart, id) by {
        if Contains(cart[1..], id) {
          var i :| 0 <= i < |cart[1..]| && cart[1..][i].Id() == id;
          assert cart[i + 1].Id() == id;
        }
      }
      assert rest.Some? ==>
        exists k :: 0 <= k < |cart| && cart[k] == rest.value && cart[k].Id() == id &&
          forall j :: 0 <= j < k ==> cart[j].Id() != id
      by {
        if rest.Some? {
          var k :| 0 <= k < |cart[1..]| && cart[1..][k] == rest.value && cart[1..][k].Id() == id &&
            forall j :: 0 <= j < k ==> cart[1..][j].Id() != id;
          assert cart[k + 1] == rest.value;
          assert forall j :: 0 <= j < k + 1 ==> cart[j].Id() != id by {
            forall j | 0 <= j < k + 1 ensures cart[j].Id() != id {
              if j > 0 { assert cart[j] == cart[1..][j - 1]; }
            }
          }
        }
      }
      rest
  }

  /**
   * `addToCart`: when a line with the laptop's id exists, every such line's
   * quantity goes up by one; otherwise a new line with quantity 1 is
   * appended. The result keeps every existing line's product, in order, and
   * always holds the laptop's id.
   */
  function AddToCart(cart: seq<CartItem>, laptop: Laptop): (r: seq<CartItem>)
    ensures |cart| <= |r| <= |cart| + 1
    ensures forall i :: 0 <= i < |cart| ==> r[i].product == cart[i].product
    ensures Contains(r, laptop.id)
  {
    var existing := Find(cart, laptop.id);
    if existing.Some? then
      seq(|cart|, i requires 0 <= i < |cart| =>
        if cart[i].Id() == laptop.id then cart[i].(quantity := cart[i].quantity + 1) else cart[i])
    else
      assert (cart + [CartItem(laptop, 1)])[|cart|].Id() == laptop.id;
      cart + [CartItem(laptop, 1)]
  }

  /**
   * The quantity updater passed to the cart page: every line carrying `id`
   * gets `Math.max(1, quantity + delta)`; all other lines are untouched.
   * The new quantity is the least number that is both at least 1 and at
   * least `quantity + delta`.
   */
  function UpdateQuantity(cart: seq<CartItem>, id: string, delta: int): (r: seq<CartItem>)
    ensures |r| == |cart|
    ensures forall i :: 0 <= i < |cart| ==> r[i].product == cart[i].product
    ensures forall i :: 0 <= i < |cart| && cart[i].Id() != id ==> r[i] == cart[i]
    ensures forall i :: 0 <= i < |cart| && cart[i].Id() == id ==>
      r[i].quantity >= 1 && r[i].quantity >= cart[i].quantity + delta &&
      (r[i].quantity == 1 || r[i].quantity == cart[i].quantity + delta)
  {
    seq(|cart|, i requires 0 <= i < |cart| =>
      if cart[i].Id() == id then cart[i].(quantity := AtLeastOne(cart[i].quantity + delta)) else cart[i])
  }

  /**
   * The remove updater passed to the cart page, `prev.filter(i => i.id !== id)`.
   * No line carrying `id` is left, and a cart without `id` is unchanged;
   * `RemoveMembers` and `RemoveAppend` below say which lines are kept and
   * in what order.
   */
  function Remove(cart: seq<CartItem>, id: string): (r: seq<CartItem>)
    ensures |r| <= |cart|
    ensures !Contains(r, id)
    ensures !Contains(cart, id) ==> r == cart
  {
    if cart == [] then []
    else
      var rest := Remove(cart[1..], id);
      assert !Contains(cart, id) ==> !Contains(cart[1..], id) by {
        if Contains(cart[1..], id) {
          var i :| 0 <= i < |cart[1..]| && cart[1..][i].Id() == id;
          assert cart[i + 1].Id() == id;
        }
      }
      assert cart == [cart[0]] + cart[1..];
      Keep(cart[0], id) + rest
  }

  /**
   * The filter's test `i => i.id !== id` applied to one line: the line is
   * kept, as the only line of the result, exactly when its id differs.
   */
  function Keep(item: CartItem, id: string): (r: seq<CartItem>)
    ensures |r| <= 1
    ensures r != [] <==> item.Id() != id
    ensures r != [] ==> r[0] == item
  {
    if item.Id() == id then [] else [item]
  }

  /**
   * The badge count of the navigation bar, `cart.reduce((a, b) => a + b.quantity, 0)`,
   * folded from the left as `reduce` does. With positive quantities it is at
   * least the number of lines, and zero exactly for the empty cart.
   */
  function Count(cart: seq<CartItem>): (n: int)
    ensures PositiveQuantities(cart) ==> n >= |cart|
    ensures PositiveQuantities(cart) ==> (n == 0 <==> cart == [])
  {
    if cart == [] then 0 else Count(cart[..|cart| - 1]) + cart[|cart| - 1].quantity
  }

  /** The checkout total, `cart.reduce((acc, item) => acc + item.price * item.quantity, 0)`. */
  function Total(cart: seq<CartItem>): (t: int)
    ensures cart == [] ==> t == 0
  {
    if cart == [] then 0 else Total(cart[..|cart| - 1]) + cart[|cart| - 1].LineTotal()
  }

  // ---------------------------------------------------------------------------
  // The sums over concatenated carts

  lemma {:induction false} CountAppend(a: seq<CartItem>, b: seq<CartItem>)
    ensures Count(a + b) == Count(a) + Count(b)
    decreases |b|
  {
    if b == [] {
      assert a + b == a;
    } else {
      var b' := b[..|b| - 1];
      assert (a + b)[..|a + b| - 1] == a + b';
      assert (a + b)[|a + b| - 1] == b[|b| - 1];
      CountAppend(a, b');
    }
  }

  lemma {:induction false} TotalAppend(a: seq<CartItem>, b: seq<CartItem>)
    ensures Total(a + b) == Total(a) + Total(b)
    decreases |b|
  {
    if b == [] {
      assert a + b == a;
    } else {
      var b' := b[..|b| - 1];
      assert (a + b)[..|a + b| - 1] == a + b';
      assert (a + b)[|a + b| - 1] == b[|b| - 1];
      TotalAppend(a, b');
    }
  }

  /** A cart is the lines before `k`, line `k` and the lines after it. */
  lemma SplitAt(cart: seq<CartItem>, k: int)
    requires 0 <= k < |cart|
    ensures cart == cart[..k] + [cart[k]] + cart[k + 1..]
  {
  }

  /** The sums of a one-line cart are that line's quantity and amount. */
  lemma SingletonSums(item: CartItem)
    ensures Count([item]) == item.quantity && Total([item]) == item.LineTotal()
  {
    assert [item][..0] == [];
  }

  /** The sums of a cart split around one line. */
  lemma SumsAround(prefix: seq<CartItem>, item: CartItem, suffix: seq<CartItem>)
    ensures Count(prefix + [item] + suffix) == Count(prefix) + item.quantity + Count(suffix)
    ensures Total(prefix + [item] + suffix) == Total(prefix) + item.LineTotal() + Total(suffix)
  {
    SingletonSums(item);
    CountAppend(prefix + [item], suffix);
    CountAppend(prefix, [item]);
    TotalAppend(prefix + [item], suffix);
    TotalAppend(prefix, [item]);
  }

  /** Both sums of a cart that differs from `cart` only at line `k`. */
  lemma SumsAfterReplace(cart: seq<CartItem>, r: seq<CartItem>, k: int)
    requires 0 <= k < |cart| == |r|
    requires forall i :: 0 <= i < |cart| && i != k ==> r[i] == cart[i]
    ensures Count(r) == Count(cart) - cart[k].quantity + r[k].quantity
    ensures Total(r) == Total(cart) - cart[k].LineTotal() + r[k].LineTotal()
  {
    assert cart == cart[..k] + [cart[k]] + cart[k + 1..];
    assert r == cart[..k] + [r[k]] + cart[k + 1..];
    SumsAround(cart[..k], cart[k], cart[k + 1..]);
    SumsAround(cart[..k], r[k], cart[k + 1..]);
  }

  // ---------------------------------------------------------------------------
  // Add to cart

  /** One more of a line adds one unit price to its amount. */
  lemma LineTotalOfIncrement(item: CartItem)
    ensures item.(quantity := item.quantity + 1).LineTotal() == item.LineTotal() + item.product.price
  {
    var p, q := item.product.price, item.quantity;
    assert p * (q + 1) == p * q + p;
  }

  /** A cart whose line `k` has one more item gains one item and one unit price. */
  lemma SumsAfterIncrement(cart: seq<CartItem>, r: seq<CartItem>, k: int)
    requires 0 <= k < |cart| == |r|
    requires forall i :: 0 <= i < |cart| && i != k ==> r[i] == cart[i]
    requires r[k] == cart[k].(quantity := cart[k].quantity + 1)
    ensures Count(r) == Count(cart) + 1
    ensures Total(r) == Total(cart) + cart[k].product.price
  {
    LineTotalOfIncrement(cart[k]);
    SumsAfterReplace(cart, r, k);
  }

  /** Adding a laptop already in a cart with unique ids raises that line by exactly one. */
  lemma AddExisting(cart: seq<CartItem>, laptop: Laptop, k: int)
    requires UniqueIds(cart)
    requires 0 <= k < |cart| && cart[k].Id() == laptop.id
    ensures |AddToCart(cart, laptop)| == |cart|
    ensures AddToCart(cart, laptop)[k] == cart[k].(quantity := cart[k].quantity + 1)
    ensures forall i :: 0 <= i < |cart| && i != k ==> AddToCart(cart, laptop)[i] == cart[i]
  {
  }

  /** Adding a laptop not in the cart appends one line with quantity 1 and keeps the rest. */
  lemma AddAbsent(cart: seq<CartItem>, laptop: Laptop)
    requires !Contains(cart, laptop.id)
    ensures AddToCart(cart, laptop) == cart + [CartItem(laptop, 1)]
  {
  }

  lemma AddKeepsValid(cart: seq<CartItem>, laptop: Laptop)
    requires Valid(cart)
    ensures Valid(AddToCart(cart, laptop))
  {
    var r := AddToCart(cart, laptop);
    if !Contains(cart, laptop.id) {
      assert r == cart + [CartItem(laptop, 1)];
      forall i, j | 0 <= i < j < |r| ensures r[i].Id() != r[j].Id() {
        if j == |cart| {
          assert r[i] == cart[i];
        }
      }
    }
  }

  /**
   * In a cart with unique ids, adding a laptop raises the badge count by one
   * and the total by the unit price of the line that is raised: the stored
   * line's price when the laptop is already in the cart, the laptop's price
   * otherwise.
   */
  lemma AddSums(cart: seq<CartItem>, laptop: Laptop)
    requires UniqueIds(cart)
    ensures Count(AddToCart(cart, laptop)) == Count(cart) + 1
    ensures Total(AddToCart(cart, laptop)) ==
      Total(cart) + match Find(cart, laptop.id) case Some(item) => item.product.price case None => laptop.price
  {
    var found := Find(cart, laptop.id);
    if found.Some? {
      var k :| 0 <= k < |cart| && cart[k] == found.value && cart[k].Id() == laptop.id;
      AddSumsExisting(cart, laptop, k);
    } else {
      var line := [CartItem(laptop, 1)];
      CountAppend(cart, line);
      TotalAppend(cart, line);
      assert line[..0] == [];
    }
  }

  lemma AddSumsExisting(cart: seq<CartItem>, laptop: Laptop, k: int)
    requires UniqueIds(cart)
    requires 0 <= k < |cart| && cart[k].Id() == laptop.id
    ensures Count(AddToCart(cart, laptop)) == Count(cart) + 1
    ensures Total(AddToCart(cart, laptop)) == Total(cart) + cart[k].product.price
  {
    AddExisting(cart, laptop, k);
    SumsAfterIncrement(cart, AddToCart(cart, laptop), k);
  }

  // ---------------------------------------------------------------------------
  // Change quantity

  lemma UpdateKeepsValid(cart: seq<CartItem>, id: string, delta: int)
    requires Valid(cart)
    ensures Valid(UpdateQuantity(cart, id, delta))
  {
  }

  /** Changing the quantity of an id that is not in the cart changes nothing. */
  lemma UpdateAbsent(cart: seq<CartItem>, id: string, delta: int)
    requires !Contains(cart, id)
    ensures UpdateQuantity(cart, id, delta) == cart
  {
  }

  /** The plus button followed by the minus button restores the cart. */
  lemma UpdateRoundTrip(cart: seq<CartItem>, id: string)
    requires PositiveQuantities(cart)
    ensures UpdateQuantity(UpdateQuantity(cart, id, 1), id, -1) == cart
  {
    var once := UpdateQuantity(cart, id, 1);
    var twice := UpdateQuantity(once, id, -1);
    forall i | 0 <= i < |cart| ensures twice[i] == cart[i] {
      if cart[i].Id() == id {
        assert once[i].quantity == cart[i].quantity + 1;
      }
    }
  }

  /** Two changes in the same direction amount to one change by their sum. */
  lemma UpdateCompose(cart: seq<CartItem>, id: string, d1: int, d2: int)
    requires PositiveQuantities(cart)
    requires (d1 >= 0 && d2 >= 0) || (d1 <= 0 && d2 <= 0)
    ensures UpdateQuantity(UpdateQuantity(cart, id, d1), id, d2) == UpdateQuantity(cart, id, d1 + d2)
  {
    var once := UpdateQuantity(cart, id, d1);
    var twice := UpdateQuantity(once, id, d2);
    var direct := UpdateQuantity(cart, id, d1 + d2);
    forall i | 0 <= i < |cart| ensures twice[i] == direct[i] {
      if cart[i].Id() == id {
        assert once[i].quantity == AtLeastOne(cart[i].quantity + d1);
      }
    }
  }

  /** For an id already in the cart, adding the laptop again is the plus button. */
  lemma AddIsIncrement(cart: seq<CartItem>, laptop: Laptop)
    requires PositiveQuantities(cart) && Contains(cart, laptop.id)
    ensures AddToCart(cart, laptop) == UpdateQuantity(cart, laptop.id, 1)
  {
  }

  /** In a cart with unique ids, the sums move by the change of the one line addressed. */
  lemma UpdateSums(cart: seq<CartItem>, k: int, delta: int)
    requires UniqueIds(cart) && 0 <= k < |cart|
    ensures Count(UpdateQuantity(cart, cart[k].Id(), delta)) ==
      Count(cart) - cart[k].quantity + AtLeastOne(cart[k].quantity + delta)
    ensures Total(UpdateQuantity(cart, cart[k].Id(), delta)) ==
      Total(cart) - cart[k].LineTotal() + cart[k].product.price * AtLeastOne(cart[k].quantity + delta)
  {
    var r := UpdateQuantity(cart, cart[k].Id(), delta);
    assert forall i :: 0 <= i < |cart| && i != k ==> r[i] == cart[i];
    SumsAfterReplace(cart, r, k);
    assert r[k] == CartItem(cart[k].product, AtLeastOne(cart[k].quantity + delta));
  }

  // ---------------------------------------------------------------------------
  // Remove

  /** The lines `Remove` keeps are exactly those of the cart not carrying `id`. */
  lemma {:induction false} RemoveMembers(cart: seq<CartItem>, id: string)
    ensures forall x :: x in Remove(cart, id) <==> x in cart && x.Id() != id
  {
    if cart != [] {
      RemoveMembers(cart[1..], id);
      assert cart == [cart[0]] + cart[1..];
    }
  }

  /** Filtering distributes over concatenation: the kept lines stay in order. */
  lemma {:induction false} RemoveAppend(a: seq<CartItem>, b: seq<CartItem>, id: string)
    ensures Remove(a + b, id) == Remove(a, id) + Remove(b, id)
    decreases |a|
  {
    if a == [] {
      assert a + b == b;
    } else {
      calc {
        Remove(a + b, id);
      == { assert (a + b)[0] == a[0]; assert (a + b)[1..] == a[1..] + b; }
        Keep(a[0], id) + Remove(a[1..] + b, id);
      == { RemoveAppend(a[1..], b, id); }
        Keep(a[0], id) + (Remove(a[1..], id) + Remove(b, id));
      ==
        Remove(a, id) + Remove(b, id);
      }
    }
  }

  /** In a cart with unique ids, the lines before and after line `k` do not carry its id. */
  lemma OthersLackId(cart: seq<CartItem>, k: int)
    requires UniqueIds(cart) && 0 <= k < |cart|
    ensures !Contains(cart[..k], cart[k].Id()) && !Contains(cart[k + 1..], cart[k].Id())
  {
  }

  /** In a cart with unique ids, removing line `k`'s id deletes that line and only that one. */
  lemma RemoveExisting(cart: seq<CartItem>, k: int)
    requires UniqueIds(cart) && 0 <= k < |cart|
    ensures Remove(cart, cart[k].Id()) == cart[..k] + cart[k + 1..]
  {
    var id := cart[k].Id();
    var prefix, line, suffix := cart[..k], [cart[k]], cart[k + 1..];
    OthersLackId(cart, k);
    SplitAt(cart, k);
    calc {
      Remove(cart, id);
      Remove(prefix + line + suffix, id);
    == { RemoveAppend(prefix + line, suffix, id); }
      Remove(prefix + line, id) + Remove(suffix, id);
    == { RemoveAppend(prefix, line, id); }
      Remove(prefix, id) + Remove(line, id) + Remove(suffix, id);
    == { assert line[1..] == []; }
      prefix + [] + suffix;
    == { assert prefix + [] == prefix; }
      prefix + suffix;
    }
  }

  /** Dropping one line keeps the cart's invariant. */
  lemma ValidWithoutLine(cart: seq<CartItem>, k: int)
    requires Valid(cart) && 0 <= k < |cart|
    ensures Valid(cart[..k] + cart[k + 1..])
  {
    var r := cart[..k] + cart[k + 1..];
    assert forall i :: 0 <= i < |r| ==> r[i] == cart[if i < k then i else i + 1];
  }

  /** Both sums of a cart with one line taken out. */
  lemma SumsWithout(prefix: seq<CartItem>, item: CartItem, suffix: seq<CartItem>)
    ensures Count(prefix + suffix) == Count(prefix + [item] + suffix) - item.quantity
    ensures Total(prefix + suffix) == Total(prefix + [item] + suffix) - item.LineTotal()
  {
    SumsAround(prefix, item, suffix);
    CountAppend(prefix, suffix);
    TotalAppend(prefix, suffix);
  }

  lemma RemoveKeepsValid(cart: seq<CartItem>, id: string)
    requires Valid(cart)
    ensures Valid(Remove(cart, id))
  {
    if Contains(cart, id) {
      var k :| 0 <= k < |cart| && cart[k].Id() == id;
      RemoveExisting(cart, k);
      ValidWithoutLine(cart, k);
    }
  }

  /** In a cart with unique ids, removing a line takes its quantity and amount off the sums. */
  lemma RemoveSums(cart: seq<CartItem>, k: int)
    requires UniqueIds(cart) && 0 <= k < |cart|
    ensures Count(Remove(cart, cart[k].Id())) == Count(cart) - cart[k].quantity
    ensures Total(Remove(cart, cart[k].Id())) == Total(cart) - cart[k].LineTotal()
  {
    RemoveExisting(cart, k);
    SplitAt(cart, k);
    SumsWithout(cart[..k], cart[k], cart[k + 1..]);
  }

  /** Removing a laptop that was just added to a cart without it gives back that cart. */
  lemma RemoveUndoesAdd(cart: seq<CartItem>, laptop: Laptop)
    requires !Contains(cart, laptop.id)
    ensures Remove(AddToCart(cart, laptop), laptop.id) == cart
  {
    RemoveAppend(cart, [CartItem(laptop, 1)], laptop.id);
    assert [CartItem(laptop, 1)][1..] == [];
  }
}

/** The cart as both pages keep it: a list of items, and the updaters that
    the home page and the checkout page apply to it (`inc`, `dec`, `remove`),
    with the subtotal the checkout page, and the cart drawer, compute. */
module Cart {
  import opened JsValues

  datatype CartItem = CartItem(
    id: Num,
    name: string,
    sku: string,
    price: real,
    qty: int,
    image: Option<string>)

  /** The item carries the id, compared with strict equality. */
  predicate Matches(item: CartItem, id: Num): (m: bool)
    ensures m ==> item.id == id && !id.NaN?
    ensures item.id == id && !id.NaN? ==> m
  {
    StrictEq(item.id, id)
  }

  /** No two items carry ids that `===` considers equal (NaN ids may repeat). */
  ghost predicate UniqueIds(items: seq<CartItem>)
  {
    forall i, j :: 0 <= i < j < |items| ==> !StrictEq(items[i].id, items[j].id)
  }

  /** Every quantity is at least 1. */
  ghost predicate QtyAtLeastOne(items: seq<CartItem>)
  {
    forall k :: 0 <= k < |items| ==> items[k].qty >= 1
  }

  /** Two items that differ at most in their quantity. */
  predicate SameButQty(a: CartItem, b: CartItem)
  {
    a.id == b.id && a.name == b.name && a.sku == b.sku && a.price == b.price && a.image == b.image
  }

  /** The position of the first item carrying the id, as the cart's lookup finds it. */
  function FindItem(items: seq<CartItem>, id: Num): (r: Option<nat>)
    ensures r.None? <==> forall k :: 0 <= k < |items| ==> !Matches(items[k], id)
    ensures r.Some? ==> r.value < |items| && Matches(items[r.value], id)
    ensures r.Some? ==> forall k :: 0 <= k < r.value ==> !Matches(items[k], id)
  {
    if items == [] then None
    else if Matches(items[0], id) then Some(0)
    else match FindItem(items[1..], id)
      case None => None
      case Some(i) => Some(i + 1)
  }

  /** The `inc` updater of both pages (home.tsx:80, checkout.tsx:56-57).
      Same items in the same order; each matching item gains exactly one unit. */
  function Incremented(items: seq<CartItem>, id: Num): (r: seq<CartItem>)
    ensures |r| == |items|
    ensures forall k :: 0 <= k < |r| ==> SameButQty(r[k], items[k])
    ensures forall k :: 0 <= k < |r| ==> r[k].qty == if Matches(items[k], id) then items[k].qty + 1 else items[k].qty
  {
    if items == [] then []
    else
      [if Matches(items[0], id) then items[0].(qty := items[0].qty + 1) else items[0]]
        + Incremented(items[1..], id)
  }

  /** The `dec` updater of both pages (home.tsx:81, checkout.tsx:58-61).
      Same items in the same order; a matching item loses one unit but never goes below 1. */
  function Decremented(items: seq<CartItem>, id: Num): (r: seq<CartItem>)
    ensures |r| == |items|
    ensures forall k :: 0 <= k < |r| ==> SameButQty(r[k], items[k])
    ensures forall k :: 0 <= k < |r| ==> r[k].qty == if Matches(items[k], id) then Max(1, items[k].qty - 1) else items[k].qty
  {
    if items == [] then []
    else
      [if Matches(items[0], id) then items[0].(qty := Max(1, items[0].qty - 1)) else items[0]]
        + Decremented(items[1..], id)
  }

  /** The `remove` updater keeps the items whose id differs. No item that matches
      survives (see `RemovedMembers` for the exact set of survivors). */
  function Removed(items: seq<CartItem>, id: Num): (r: seq<CartItem>)
    ensures |r| <= |items|
    ensures forall k :: 0 <= k < |r| ==> !Matches(r[k], id)
  {
    if items == [] then []
    else (if Matches(items[0], id) then [] else [items[0]]) + Removed(items[1..], id)
  }

  /** Exactly the items that do not match survive `remove`, and nothing else. */
  lemma {:induction false} RemovedMembers(items: seq<CartItem>, id: Num)
    ensures forall x {:trigger x in Removed(items, id)} :: x in Removed(items, id) <==> x in items && !Matches(x, id)
  {
    if items != [] {
      RemovedMembers(items[1..], id);
      assert items == [items[0]] + items[1..];
    }
  }

  /** `remove` keeps order: filtering a concatenation filters each part. */
  lemma {:induction false} RemovedConcat(a: seq<CartItem>, b: seq<CartItem>, id: Num)
    ensures Removed(a + b, id) == Removed(a, id) + Removed(b, id)
  {
    if a == [] {
      assert a + b == b;
    } else {
      assert (a + b)[1..] == a[1..] + b;
      RemovedConcat(a[1..], b, id);
    }
  }

  /** With unique ids, an item that matches is the only one that does. */
  lemma {:induction false} OnlyMatch(items: seq<CartItem>, id: Num, k: nat)
    requires UniqueIds(items)
    requires k < |items| && Matches(items[k], id)
    ensures forall j :: 0 <= j < |items| && j != k ==> !Matches(items[j], id)
  {
    forall j | 0 <= j < |items| && j != k
      ensures !Matches(items[j], id)
    {
      if j < k {
        assert !StrictEq(items[j].id, items[k].id);
      } else {
        assert !StrictEq(items[k].id, items[j].id);
      }
    }
  }

  /** Updaters that keep every id in place keep the ids unique. */
  lemma {:induction false} SameIdsKeepUnique(items: seq<CartItem>, r: seq<CartItem>)
    requires |r| == |items|
    requires forall k :: 0 <= k < |r| ==> SameButQty(r[k], items[k])
    ensures UniqueIds(items) ==> UniqueIds(r)
  {
    if UniqueIds(items) {
      forall i, j | 0 <= i < j < |r| ensures !StrictEq(r[i].id, r[j].id) {
        assert SameButQty(r[i], items[i]) && SameButQty(r[j], items[j]);
      }
    }
  }

  /** `inc` keeps the ids, so it keeps them unique, and it keeps every
      quantity at least 1. */
  lemma {:induction false} IncrementKeepsInvariants(items: seq<CartItem>, id: Num)
    ensures UniqueIds(items) ==> UniqueIds(Incremented(items, id))
    ensures QtyAtLeastOne(items) ==> QtyAtLeastOne(Incremented(items, id))
  {
    SameIdsKeepUnique(items, Incremented(items, id));
  }

  /** `dec` keeps the ids, so it keeps them unique, and every quantity it
      leaves is at least 1, even on an item that had less. */
  lemma {:induction false} DecrementKeepsInvariants(items: seq<CartItem>, id: Num)
    ensures UniqueIds(items) ==> UniqueIds(Decremented(items, id))
    ensures QtyAtLeastOne(items) ==> QtyAtLeastOne(Decremented(items, id))
    ensures forall k :: 0 <= k < |items| && Matches(items[k], id) ==> Decremented(items, id)[k].qty >= 1
  {
    var r := Decremented(items, id);
    SameIdsKeepUnique(items, r);
    forall k | 0 <= k < |items| && Matches(items[k], id) ensures r[k].qty >= 1 {
      assert r[k].qty == Max(1, items[k].qty - 1);
    }
  }

  /** `dec` on an item whose quantity is already 1 changes nothing. */
  lemma {:induction false} DecrementAtOneIsNoOp(items: seq<CartItem>, id: Num)
    requires forall k :: 0 <= k < |items| && Matches(items[k], id) ==> items[k].qty == 1
    ensures Decremented(items, id) == items
  {
    var r := Decremented(items, id);
    forall k | 0 <= k < |items| ensures r[k] == items[k] {
      assert SameButQty(r[k], items[k]);
    }
  }

  /** An id no item matches leaves the cart as it is under every updater. */
  lemma {:induction false} AbsentIdIsNoOp(items: seq<CartItem>, id: Num)
    requires forall k :: 0 <= k < |items| ==> !Matches(items[k], id)
    ensures Incremented(items, id) == items
    ensures Decremented(items, id) == items
    ensures Removed(items, id) == items
  {
    if items != [] {
      AbsentIdIsNoOp(items[1..], id);
      assert items == [items[0]] + items[1..];
    }
  }

  /** `remove` leaves no item with that id, and keeps every quantity at least 1. */
  lemma {:induction false} RemovedLeavesNoMatch(items: seq<CartItem>, id: Num)
    ensures forall k :: 0 <= k < |Removed(items, id)| ==> !Matches(Removed(items, id)[k], id)
    ensures QtyAtLeastOne(items) ==> QtyAtLeastOne(Removed(items, id))
  {
    var r := Removed(items, id);
    RemovedMembers(items, id);
    forall k | 0 <= k < |r| ensures r[k] in items {
      assert r[k] in r;
    }
  }

  /** Dropping the first item keeps the ids unique. */
  lemma {:induction false} UniqueTail(items: seq<CartItem>)
    requires items != [] && UniqueIds(items)
    ensures UniqueIds(items[1..])
  {
    forall i, j | 0 <= i < j < |items| - 1 ensures !StrictEq(items[1..][i].id, items[1..][j].id) {
      assert items[1..][i] == items[i + 1] && items[1..][j] == items[j + 1];
    }
  }

  /** `remove` keeps the ids unique: what survives is a subsequence. */
  lemma {:induction false} RemovedKeepsUnique(items: seq<CartItem>, id: Num)
    requires UniqueIds(items)
    ensures UniqueIds(Removed(items, id))
  {
    if items != [] {
      var tail := Removed(items[1..], id);
      UniqueTail(items);
      RemovedKeepsUnique(items[1..], id);
      if !Matches(items[0], id) {
        var r := [items[0]] + tail;
        assert Removed(items, id) == r;
        RemovedMembers(items[1..], id);
        forall j | 0 <= j < |tail| ensures !StrictEq(items[0].id, tail[j].id) {
          assert tail[j] in tail;
          var m :| 0 <= m < |items[1..]| && items[1..][m] == tail[j];
          assert items[m + 1] == tail[j];
        }
        forall i, j | 0 <= i < j < |r| ensures !StrictEq(r[i].id, r[j].id) {
          if i > 0 {
            assert r[i] == tail[i - 1] && r[j] == tail[j - 1];
          } else {
            assert r[j] == tail[j - 1];
          }
        }
      }
    }
  }

  /** Removing the id of the first item, when no other item has it, leaves the rest. */
  lemma {:induction false} RemovedHead(items: seq<CartItem>, id: Num)
    requires UniqueIds(items)
    requires items != [] && Matches(items[0], id)
    ensures Removed(items, id) == items[1..]
  {
    var rest := items[1..];
    OnlyMatch(items, id, 0);
    forall j | 0 <= j < |rest| ensures !Matches(rest[j], id) {
      assert rest[j] == items[j + 1];
    }
    AbsentIdIsNoOp(rest, id);
  }

  /** With unique ids, removing a present id drops exactly that one item. */
  lemma {:induction false} RemovedAt(items: seq<CartItem>, id: Num, k: nat)
    requires UniqueIds(items)
    requires k < |items| && Matches(items[k], id)
    ensures Removed(items, id) == items[..k] + items[k + 1..]
  {
    if k == 0 {
      RemovedHead(items, id);
      assert items[..0] + items[1..] == items[1..];
    } else {
      var rest := items[1..];
      OnlyMatch(items, id, k);
      UniqueTail(items);
      assert rest[k - 1] == items[k];
      RemovedAt(rest, id, k - 1);
      assert Removed(items, id) == [items[0]] + Removed(rest, id);
      DropAtAfterHead(items, k);
    }
  }

  /** With unique ids, `inc` and `dec` on a present id touch that one item. */
  lemma {:induction false} UpdatedAt(items: seq<CartItem>, id: Num, k: nat)
    requires UniqueIds(items)
    requires k < |items| && Matches(items[k], id)
    ensures Incremented(items, id) == items[k := items[k].(qty := items[k].qty + 1)]
    ensures Decremented(items, id) == items[k := items[k].(qty := Max(1, items[k].qty - 1))]
  {
    OnlyMatch(items, id, k);
    var inc, dec := Incremented(items, id), Decremented(items, id);
    forall j | 0 <= j < |items| && j != k ensures inc[j] == items[j] && dec[j] == items[j] {
      assert SameButQty(inc[j], items[j]) && SameButQty(dec[j], items[j]);
    }
    assert SameButQty(inc[k], items[k]) && SameButQty(dec[k], items[k]);
  }

  // ---------------------------------------------------------------- subtotal

  /** `i.price * i.qty`. */
  function LineTotal(item: CartItem): (total: real)
    ensures item.price >= 0.0 && item.qty >= 0 ==> total >= 0.0
    ensures item.qty == 1 ==> total == item.price
    ensures item.qty == 0 ==> total == 0.0
  {
    NonNegativeProduct(item.price, item.qty as real);
    item.price * item.qty as real
  }

  /** The subtotal: the line totals added up from the left, starting at 0. */
  function Subtotal(items: seq<CartItem>): (total: real)
    ensures items == [] ==> total == 0.0
  {
    if items == [] then 0.0
    else Subtotal(items[..|items| - 1]) + LineTotal(items[|items| - 1])
  }

  lemma {:induction false} NonNegativeProduct(x: real, y: real)
    ensures x >= 0.0 && y >= 0.0 ==> x * y >= 0.0
  {
  }

  /** With no negative price or quantity, the subtotal is not negative. */
  lemma {:induction false} SubtotalNonNegative(items: seq<CartItem>)
    requires forall k :: 0 <= k < |items| ==> items[k].price >= 0.0 && items[k].qty >= 0
    ensures Subtotal(items) >= 0.0
  {
    if items != [] {
      var last := items[|items| - 1];
      SubtotalNonNegative(items[..|items| - 1]);
      NonNegativeProduct(last.price, last.qty as real);
    }
  }

  /** The subtotal of two carts laid end to end is the sum of their subtotals. */
  lemma {:induction false} SubtotalConcat(a: seq<CartItem>, b: seq<CartItem>)
    ensures Subtotal(a + b) == Subtotal(a) + Subtotal(b)
  {
    if b == [] {
      assert a + b == a;
    } else {
      var b' := b[..|b| - 1];
      assert (a + b)[..|a + b| - 1] == a + b';
      assert (a + b)[|a + b| - 1] == b[|b| - 1];
      SubtotalConcat(a, b');
    }
  }

  lemma {:induction false} SubtotalOfOne(item: CartItem)
    ensures Subtotal([item]) == LineTotal(item)
  {
    assert [item][..0] == [];
  }

  /** Replacing one item changes the subtotal by the difference of the line totals. */
  lemma {:induction false} SubtotalReplace(items: seq<CartItem>, k: nat, x: CartItem)
    requires k < |items|
    ensures Subtotal(items[k := x]) == Subtotal(items) - LineTotal(items[k]) + LineTotal(x)
  {
    var before, after := items[..k], items[k + 1..];
    assert items == before + [items[k]] + after;
    assert items[k := x] == before + [x] + after;
    SubtotalConcat(before + [items[k]], after);
    SubtotalConcat(before, [items[k]]);
    SubtotalConcat(before + [x], after);
    SubtotalConcat(before, [x]);
    SubtotalOfOne(items[k]);
    SubtotalOfOne(x);
  }

  lemma {:induction false} OneMoreUnit(price: real, qty: real, d: real)
    ensures price * (qty + d) == price * qty + price * d
  {
  }

  /** One more unit adds the unit price to the line total. */
  lemma {:induction false} LineTotalUp(item: CartItem)
    ensures LineTotal(item.(qty := item.qty + 1)) == LineTotal(item) + item.price
  {
    assert (item.qty + 1) as real == item.qty as real + 1.0;
    OneMoreUnit(item.price, item.qty as real, 1.0);
  }

  /** One unit fewer takes the unit price off the line total. */
  lemma {:induction false} LineTotalDown(item: CartItem)
    ensures LineTotal(item.(qty := item.qty - 1)) == LineTotal(item) - item.price
  {
    assert (item.qty - 1) as real == item.qty as real + -1.0;
    OneMoreUnit(item.price, item.qty as real, -1.0);
  }

  /** One more unit on line `k` adds its unit price to the subtotal. */
  lemma {:induction false} SubtotalOneMore(items: seq<CartItem>, k: nat)
    requires k < |items|
    ensures Subtotal(items[k := items[k].(qty := items[k].qty + 1)]) == Subtotal(items) + items[k].price
  {
    SubtotalReplace(items, k, items[k].(qty := items[k].qty + 1));
    LineTotalUp(items[k]);
  }

  /** One unit fewer on line `k` takes its unit price off the subtotal. */
  lemma {:induction false} SubtotalOneLess(items: seq<CartItem>, k: nat)
    requires k < |items|
    ensures Subtotal(items[k := items[k].(qty := items[k].qty - 1)]) == Subtotal(items) - items[k].price
  {
    SubtotalReplace(items, k, items[k].(qty := items[k].qty - 1));
    LineTotalDown(items[k]);
  }

  /** With unique ids, `inc` adds the item's unit price to the subtotal. */
  lemma {:induction false} SubtotalAfterIncrement(items: seq<CartItem>, id: Num, k: nat)
    requires UniqueIds(items)
    requires k < |items| && Matches(items[k], id)
    ensures Subtotal(Incremented(items, id)) == Subtotal(items) + items[k].price
  {
    UpdatedAt(items, id, k);
    SubtotalOneMore(items, k);
  }

  /** With unique ids, `dec` on an item with more than one unit takes its unit
      price off the subtotal. */
  lemma {:induction false} SubtotalAfterDecrement(items: seq<CartItem>, id: Num, k: nat)
    requires UniqueIds(items)
    requires k < |items| && Matches(items[k], id) && items[k].qty > 1
    ensures Subtotal(Decremented(items, id)) == Subtotal(items) - items[k].price
  {
    UpdatedAt(items, id, k);
    assert Max(1, items[k].qty - 1) == items[k].qty - 1;
    SubtotalOneLess(items, k);
  }

  /** With unique ids, `remove` takes the item's whole line off the subtotal. */
  lemma {:induction false} SubtotalAfterRemove(items: seq<CartItem>, id: Num, k: nat)
    requires UniqueIds(items)
    requires k < |items| && Matches(items[k], id)
    ensures Subtotal(Removed(items, id)) == Subtotal(items) - LineTotal(items[k])
  {
    RemovedAt(items, id, k);
    var pre, it, post := items[..k], items[k], items[k + 1..];
    assert items == pre + [it] + post;
    SubtotalConcat(pre + [it], post);
    SubtotalConcat(pre, [it]);
    SubtotalConcat(pre, post);
    SubtotalOfOne(it);
  }
}

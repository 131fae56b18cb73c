/** What each reducer action promises about the cart, and the invariants
    every action preserves. */
module CartProperties {
  import opened Cart

  // ---------------------------------------------------------------------
  // Sums over concatenations and point updates

  lemma {:induction false} SumsAppend(a: seq<CartItem>, b: seq<CartItem>)
    ensures Subtotal(a + b) == Subtotal(a) + Subtotal(b)
    ensures QuantitySum(a + b) == QuantitySum(a) + QuantitySum(b)
    decreases |a|
  {
    if |a| == 0 {
      assert a + b == b;
    } else {
      assert (a + b)[1..] == a[1..] + b;
      SumsAppend(a[1..], b);
    }
  }

  /** Removing the line at `k` takes its contribution out of both sums. */
  lemma SumsWithout(items: seq<CartItem>, k: int)
    requires 0 <= k < |items|
    ensures Subtotal(items[..k] + items[k + 1..]) == Subtotal(items) - LinePrice(items[k])
    ensures QuantitySum(items[..k] + items[k + 1..]) == QuantitySum(items) - items[k].quantity
  {
    var rest := [items[k]] + items[k + 1..];
    assert rest[1..] == items[k + 1..];
    assert items == items[..k] + rest;
    SumsAppend(items[..k], rest);
    SumsAppend(items[..k], items[k + 1..]);
  }

  /** Replacing the line at `k` swaps its contribution in both sums. */
  lemma SumsReplace(items: seq<CartItem>, k: int, x: CartItem)
    requires 0 <= k < |items|
    ensures Subtotal(items[k := x]) == Subtotal(items) - LinePrice(items[k]) + LinePrice(x)
    ensures QuantitySum(items[k := x]) == QuantitySum(items) - items[k].quantity + x.quantity
  {
    var u := items[k := x];
    assert u == items[..k] + ([x] + items[k + 1..]);
    assert items == items[..k] + ([items[k]] + items[k + 1..]);
    SumsAppend(items[..k], [x] + items[k + 1..]);
    SumsAppend(items[..k], [items[k]] + items[k + 1..]);
  }

  // ---------------------------------------------------------------------
  // Filters on inputs they leave alone

  lemma {:induction false} RemoveIdAbsent(items: seq<CartItem>, id: int)
    requires !ContainsId(items, id)
    ensures RemoveId(items, id) == items
    decreases |items|
  {
    if |items| > 0 {
      assert !ContainsId(items[1..], id) by {
        forall i | 0 <= i < |items[1..]| ensures items[1..][i].id != id {
          assert items[1..][i] == items[i + 1];
        }
      }
      RemoveIdAbsent(items[1..], id);
      assert items == [items[0]] + items[1..];
    }
  }

  /** With unique ids, the filter drops exactly the line at `k`. */
  lemma {:induction false} RemoveIdPresent(items: seq<CartItem>, id: int, k: int)
    requires UniqueIds(items)
    requires 0 <= k < |items| && items[k].id == id
    ensures RemoveId(items, id) == items[..k] + items[k + 1..]
    decreases |items|
  {
    var tail := items[1..];
    assert UniqueIds(tail) by {
      forall i, j | 0 <= i < j < |tail| ensures tail[i].id != tail[j].id {
        assert tail[i] == items[i + 1] && tail[j] == items[j + 1];
      }
    }
    if k == 0 {
      assert !ContainsId(tail, id) by {
        forall i | 0 <= i < |tail| ensures tail[i].id != id {
          assert tail[i] == items[i + 1];
        }
      }
      RemoveIdAbsent(tail, id);
    } else {
      assert items[0].id != id;
      assert tail[k - 1] == items[k];
      RemoveIdPresent(tail, id, k - 1);
      assert items[..k] + items[k + 1..] == [items[0]] + (tail[..k - 1] + tail[k..]);
    }
  }

  lemma {:induction false} KeepPositiveAll(items: seq<CartItem>)
    requires PositiveQuantities(items)
    ensures KeepPositive(items) == items
    decreases |items|
  {
    if |items| > 0 {
      assert PositiveQuantities(items[1..]) by {
        forall i | 0 <= i < |items[1..]| ensures items[1..][i].quantity >= 1 {
          assert items[1..][i] == items[i + 1];
        }
      }
      KeepPositiveAll(items[1..]);
      assert items == [items[0]] + items[1..];
    }
  }

  /** When only the line at `k` has a non-positive quantity, the filter
      drops exactly that line. */
  lemma {:induction false} KeepPositiveDropsOne(items: seq<CartItem>, k: int)
    requires 0 <= k < |items| && items[k].quantity <= 0
    requires forall i | 0 <= i < |items| && i != k :: items[i].quantity >= 1
    ensures KeepPositive(items) == items[..k] + items[k + 1..]
    decreases |items|
  {
    var tail := items[1..];
    if k == 0 {
      assert PositiveQuantities(tail) by {
        forall i | 0 <= i < |tail| ensures tail[i].quantity >= 1 {
          assert tail[i] == items[i + 1];
        }
      }
      KeepPositiveAll(tail);
    } else {
      forall i | 0 <= i < |tail| && i != k - 1 ensures tail[i].quantity >= 1 {
        assert tail[i] == items[i + 1];
      }
      KeepPositiveDropsOne(tail, k - 1);
      assert items[..k] + items[k + 1..] == [items[0]] + (tail[..k - 1] + tail[k..]);
    }
  }

  // ---------------------------------------------------------------------
  // ADD_ITEM

  /** Adding a product already in the cart adds one to that line's
      quantity (its stored name and price are kept) and changes nothing
      else: same length, same order, other lines untouched. */
  lemma AddExisting(s: CartState, p: Product, k: int)
    requires UniqueIds(s.items)
    requires 0 <= k < |s.items| && s.items[k].id == p.id
    ensures Add(s, p).items == s.items[k := s.items[k].(quantity := s.items[k].quantity + 1)]
    ensures TotalsConsistent(s) ==> Add(s, p).itemCount == s.itemCount + 1
    ensures TotalsConsistent(s) ==> Add(s, p).total == s.total + s.items[k].price
  {
    var target := s.items[k := s.items[k].(quantity := s.items[k].quantity + 1)];
    assert ContainsId(s.items, p.id);
    assert IncrementMatching(s.items, p.id) == target;
    SumsReplace(s.items, k, target[k]);
  }

  /** Adding a product not in the cart appends a line with quantity 1. */
  lemma AddNew(s: CartState, p: Product)
    requires !ContainsId(s.items, p.id)
    ensures Add(s, p).items == s.items + [NewLine(p)]
    ensures TotalsConsistent(s) ==> Add(s, p).itemCount == s.itemCount + 1
    ensures TotalsConsistent(s) ==> Add(s, p).total == s.total + p.price
  {
    SumsAppend(s.items, [NewLine(p)]);
  }

  /** Adding the same new product twice gives one line with quantity 2,
      not two lines. */
  lemma AddTwice(s: CartState, p: Product)
    requires UniqueIds(s.items) && !ContainsId(s.items, p.id)
    ensures Add(Add(s, p), p).items == s.items + [NewLine(p).(quantity := 2)]
  {
    var once := Add(s, p);
    AddNew(s, p);
    assert UniqueIds(once.items);
    AddExisting(once, p, |s.items|);
  }

  // ---------------------------------------------------------------------
  // REMOVE_ITEM

  /** Removing a present id drops exactly that line, keeps the others in
      order, and takes its price × quantity out of the total. */
  lemma RemovePresent(s: CartState, id: int, k: int)
    requires UniqueIds(s.items)
    requires 0 <= k < |s.items| && s.items[k].id == id
    ensures Remove(s, id).items == s.items[..k] + s.items[k + 1..]
    ensures TotalsConsistent(s) ==> Remove(s, id).total == s.total - LinePrice(s.items[k])
    ensures TotalsConsistent(s) ==> Remove(s, id).itemCount == s.itemCount - s.items[k].quantity
  {
    RemoveIdPresent(s.items, id, k);
    SumsWithout(s.items, k);
  }

  /** Removing an absent id leaves the lines as they were. */
  lemma RemoveAbsent(s: CartState, id: int)
    requires !ContainsId(s.items, id)
    ensures Remove(s, id).items == s.items
  {
    RemoveIdAbsent(s.items, id);
  }

  // ---------------------------------------------------------------------
  // UPDATE_QUANTITY

  /** Setting a present line's quantity to `q` stores `max(0, q)`, and a
      line whose quantity becomes 0 is removed; nothing else changes. */
  lemma UpdatePresent(s: CartState, id: int, q: int, k: int)
    requires UniqueIds(s.items) && PositiveQuantities(s.items)
    requires 0 <= k < |s.items| && s.items[k].id == id
    ensures q <= 0 ==> Update(s, id, q).items == s.items[..k] + s.items[k + 1..]
    ensures q > 0 ==> Update(s, id, q).items == s.items[k := s.items[k].(quantity := q)]
  {
    var updated := SetQuantity(s.items, id, q);
    assert updated == s.items[k := s.items[k].(quantity := Max0(q))];
    if q <= 0 {
      KeepPositiveDropsOne(updated, k);
      assert updated[..k] == s.items[..k] && updated[k + 1..] == s.items[k + 1..];
    } else {
      KeepPositiveAll(updated);
    }
  }

  /** An unknown id changes nothing when every quantity is at least 1. */
  lemma UpdateAbsent(s: CartState, id: int, q: int)
    requires PositiveQuantities(s.items) && !ContainsId(s.items, id)
    ensures Update(s, id, q).items == s.items
  {
    assert SetQuantity(s.items, id, q) == s.items;
    KeepPositiveAll(s.items);
  }

  // ---------------------------------------------------------------------
  // CLEAR_CART and the invariants

  /** `CLEAR_CART` yields the empty state from any state. */
  lemma ClearEmpties(s: CartState)
    ensures Reduce(s, ClearCart) == CartState([], 0, 0)
    ensures Valid(Reduce(s, ClearCart))
  {
  }

  lemma ValidInitial()
    ensures Valid(InitialState)
  {
  }

  lemma AddPreservesValid(s: CartState, p: Product)
    requires Valid(s)
    ensures Valid(Add(s, p))
  {
    if ContainsId(s.items, p.id) {
      var k :| 0 <= k < |s.items| && s.items[k].id == p.id;
      AddExisting(s, p, k);
      var r := Add(s, p).items;
      assert forall i | 0 <= i < |r| :: r[i].id == s.items[i].id && r[i].quantity >= s.items[i].quantity;
    } else {
      AddNew(s, p);
    }
  }

  lemma RemovePreservesValid(s: CartState, id: int)
    requires Valid(s)
    ensures Valid(Remove(s, id))
  {
    if ContainsId(s.items, id) {
      var k :| 0 <= k < |s.items| && s.items[k].id == id;
      RemovePresent(s, id, k);
      UniqueWithout(s.items, k);
    } else {
      RemoveAbsent(s, id);
    }
  }

  lemma UpdatePreservesValid(s: CartState, id: int, q: int)
    requires Valid(s)
    ensures Valid(Update(s, id, q))
  {
    if ContainsId(s.items, id) {
      var k :| 0 <= k < |s.items| && s.items[k].id == id;
      UpdatePresent(s, id, q, k);
      if q <= 0 {
        UniqueWithout(s.items, k);
      } else {
        var r := Update(s, id, q).items;
        assert forall i | 0 <= i < |r| :: r[i].id == s.items[i].id;
      }
    } else {
      UpdateAbsent(s, id, q);
    }
  }

  /** Every action keeps ids unique, quantities at least 1 and the
      derived fields equal to their sums. */
  lemma ReducePreservesValid(s: CartState, a: CartAction)
    requires Valid(s)
    ensures Valid(Reduce(s, a))
  {
    match a
    case AddItem(p) => AddPreservesValid(s, p);
    case RemoveItem(id) => RemovePreservesValid(s, id);
    case UpdateQuantity(id, q) => UpdatePreservesValid(s, id, q);
    case ClearCart =>
  }

  lemma UniqueWithout(items: seq<CartItem>, k: int)
    requires UniqueIds(items) && 0 <= k < |items|
    ensures UniqueIds(items[..k] + items[k + 1..])
  {
    var r := items[..k] + items[k + 1..];
    forall i, j | 0 <= i < j < |r| ensures r[i].id != r[j].id {
      var i' := if i < k then i else i + 1;
      var j' := if j < k then j else j + 1;
      assert r[i] == items[i'] && r[j] == items[j'];
    }
  }

  /** The invariants hold after any sequence of actions. */
  lemma {:induction false} RunPreservesValid(s: CartState, actions: seq<CartAction>)
    requires Valid(s)
    ensures Valid(Run(s, actions))
    decreases |actions|
  {
    if |actions| > 0 {
      ReducePreservesValid(s, actions[0]);
      RunPreservesValid(Reduce(s, actions[0]), actions[1..]);
    }
  }

  /** With non-negative prices a valid cart has a non-negative total and
      at least one unit per line. */
  lemma {:induction false} ValidBounds(items: seq<CartItem>)
    requires PositiveQuantities(items)
    requires forall i | 0 <= i < |items| :: items[i].price >= 0
    ensures Subtotal(items) >= 0
    ensures QuantitySum(items) >= |items|
    decreases |items|
  {
    if |items| > 0 {
      var tail := items[1..];
      forall i | 0 <= i < |tail| ensures tail[i].quantity >= 1 && tail[i].price >= 0 {
        assert tail[i] == items[i + 1];
      }
      ValidBounds(tail);
      assert items[0].quantity >= 1 && items[0].price >= 0;
    }
  }

  /** Empty cart, add product 1 (price 10) twice: one line, quantity 2,
      total 20; remove it: the cart is empty again. */
  lemma AddTwiceThenRemove()
    ensures var p := Product(1, "Widget", 10);
            var twice := Run(InitialState, [AddItem(p), AddItem(p)]);
            && twice.items == [CartItem(1, "Widget", 10, 2)]
            && twice.total == 20 && twice.itemCount == 2
            && Reduce(twice, RemoveItem(1)) == InitialState
  {
    var p := Product(1, "Widget", 10);
    AddTwice(InitialState, p);
    var twice := Add(Add(InitialState, p), p);
    assert Run(InitialState, [AddItem(p), AddItem(p)]) == twice by {
      var acts := [AddItem(p), AddItem(p)];
      assert acts[1..] == [AddItem(p)] && acts[1..][1..] == [];
      assert Run(InitialState, acts) == Run(Add(InitialState, p), [AddItem(p)]);
      assert Run(Add(InitialState, p), [AddItem(p)]) == Run(twice, []);
    }
    RemovePresent(twice, 1, 0);
  }

}

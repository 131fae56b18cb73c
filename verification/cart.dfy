/** The cart store: `cartReducer` over `ADD_ITEM`, `REMOVE_ITEM`,
    `UPDATE_QUANTITY` and `CLEAR_CART`, with the derived `total` and
    `itemCount` recomputed after every change. Prices are integers (cents). */
module Cart {

  datatype Product = Product(id: int, name: string, price: int)

  /** A cart line: the product's fields plus a quantity. */
  datatype CartItem = CartItem(id: int, name: string, price: int, quantity: int)

  datatype CartState = CartState(items: seq<CartItem>, total: int, itemCount: int)

  datatype CartAction =
    | AddItem(product: Product)
    | RemoveItem(id: int)
    | UpdateQuantity(id: int, quantity: int)
    | ClearCart

  /** The derived fields, as `calculateCartTotals` returns them. */
  datatype Totals = Totals(total: int, itemCount: int)

  const InitialState: CartState := CartState([], 0, 0)

  // ---------------------------------------------------------------------
  // Reference sums and invariants

  function LinePrice(item: CartItem): int {
    item.price * item.quantity
  }

  /** Σ price × quantity over the items. */
  function Subtotal(items: seq<CartItem>): int {
    if |items| == 0 then 0 else LinePrice(items[0]) + Subtotal(items[1..])
  }

  /** Σ quantity over the items. */
  function QuantitySum(items: seq<CartItem>): int {
    if |items| == 0 then 0 else items[0].quantity + QuantitySum(items[1..])
  }

  /** The derived fields equal their sums. */
  predicate TotalsConsistent(s: CartState) {
    s.total == Subtotal(s.items) && s.itemCount == QuantitySum(s.items)
  }

  predicate UniqueIds(items: seq<CartItem>) {
    forall i, j | 0 <= i < j < |items| :: items[i].id != items[j].id
  }

  predicate PositiveQuantities(items: seq<CartItem>) {
    forall i | 0 <= i < |items| :: items[i].quantity >= 1
  }

  /** What every reachable cart satisfies. */
  predicate Valid(s: CartState) {
    UniqueIds(s.items) && PositiveQuantities(s.items) && TotalsConsistent(s)
  }

  predicate ContainsId(items: seq<CartItem>, id: int) {
    exists i | 0 <= i < |items| :: items[i].id == id
  }

  // ---------------------------------------------------------------------
  // calculateCartTotals / createUpdatedState

  /** `items.reduce((sum, item) => sum + item.price * item.quantity, acc)`:
      a left fold that starts from `acc`. */
  function FoldTotal(items: seq<CartItem>, acc: int): (r: int)
    ensures r == acc + Subtotal(items)
    decreases |items|
  {
    if |items| == 0 then acc else FoldTotal(items[1..], acc + LinePrice(items[0]))
  }

  /** `items.reduce((sum, item) => sum + item.quantity, acc)`. */
  function FoldCount(items: seq<CartItem>, acc: int): (r: int)
    ensures r == acc + QuantitySum(items)
    decreases |items|
  {
    if |items| == 0 then acc else FoldCount(items[1..], acc + items[0].quantity)
  }

  function CalculateCartTotals(items: seq<CartItem>): (t: Totals)
    ensures t.total == Subtotal(items)
    ensures t.itemCount == QuantitySum(items)
  {
    Totals(FoldTotal(items, 0), FoldCount(items, 0))
  }

  /** A state holding `items`, with the derived fields recomputed. */
  function CreateUpdatedState(items: seq<CartItem>): (r: CartState)
    ensures r.items == items
    ensures TotalsConsistent(r)
  {
    var t := CalculateCartTotals(items);
    CartState(items, t.total, t.itemCount)
  }

  // ---------------------------------------------------------------------
  // Item transforms used by the reducer

  function NewLine(p: Product): CartItem {
    CartItem(p.id, p.name, p.price, 1)
  }

  /** `items.map(item => item.id === id ? {...item, quantity: item.quantity + 1} : item)` */
  function IncrementMatching(items: seq<CartItem>, id: int): (r: seq<CartItem>)
    ensures |r| == |items|
  {
    seq(|items|, i requires 0 <= i < |items| =>
      if items[i].id == id then items[i].(quantity := items[i].quantity + 1) else items[i])
  }

  /** `items.filter(item => item.id !== id)` */
  function RemoveId(items: seq<CartItem>, id: int): (r: seq<CartItem>)
    ensures |r| <= |items|
    ensures !ContainsId(r, id)
    ensures forall x | x in r :: x in items
    decreases |items|
  {
    if |items| == 0 then []
    else if items[0].id == id then RemoveId(items[1..], id)
    else [items[0]] + RemoveId(items[1..], id)
  }

  function Max0(q: int): int {
    if q < 0 then 0 else q
  }

  /** `items.map(item => item.id === id ? {...item, quantity: Math.max(0, q)} : item)` */
  function SetQuantity(items: seq<CartItem>, id: int, q: int): (r: seq<CartItem>)
    ensures |r| == |items|
  {
    seq(|items|, i requires 0 <= i < |items| =>
      if items[i].id == id then items[i].(quantity := Max0(q)) else items[i])
  }

  /** `items.filter(item => item.quantity > 0)` */
  function KeepPositive(items: seq<CartItem>): (r: seq<CartItem>)
    ensures |r| <= |items|
    ensures PositiveQuantities(r)
    ensures forall x | x in r :: x in items
    decreases |items|
  {
    if |items| == 0 then []
    else if items[0].quantity > 0 then [items[0]] + KeepPositive(items[1..])
    else KeepPositive(items[1..])
  }

  // ---------------------------------------------------------------------
  // cartReducer

  function Add(s: CartState, p: Product): (r: CartState)
    ensures TotalsConsistent(r)
    ensures ContainsId(r.items, p.id)
  {
    if ContainsId(s.items, p.id) then
      var items := IncrementMatching(s.items, p.id);
      var i :| 0 <= i < |s.items| && s.items[i].id == p.id;
      assert items[i].id == p.id;
      CreateUpdatedState(items)
    else
      var items := s.items + [NewLine(p)];
      assert items[|s.items|].id == p.id;
      CreateUpdatedState(items)
  }

  function Remove(s: CartState, id: int): (r: CartState)
    ensures TotalsConsistent(r)
    ensures !ContainsId(r.items, id)
  {
    CreateUpdatedState(RemoveId(s.items, id))
  }

  function Update(s: CartState, id: int, q: int): (r: CartState)
    ensures TotalsConsistent(r)
    ensures PositiveQuantities(r.items)
  {
    CreateUpdatedState(KeepPositive(SetQuantity(s.items, id, q)))
  }

  function Clear(s: CartState): (r: CartState)
    ensures r.items == [] && r.total == 0 && r.itemCount == 0
  {
    InitialState
  }

  /** `cartReducer(state, action)`. */
  function Reduce(s: CartState, a: CartAction): (r: CartState)
    ensures TotalsConsistent(r)
  {
    match a
    case AddItem(p) => Add(s, p)
    case RemoveItem(id) => Remove(s, id)
    case UpdateQuantity(id, q) => Update(s, id, q)
    case ClearCart => Clear(s)
  }

  /** Dispatching a sequence of actions, first to last. */
  function Run(s: CartState, actions: seq<CartAction>): CartState
    decreases |actions|
  {
    if |actions| == 0 then s else Run(Reduce(s, actions[0]), actions[1..])
  }

}

/**
 * The cart model: line items, the cart schema's bounds, the pre-save hook that recomputes
 * `totalItems` and `totalPrice` as folds over the items, the in-memory cart document, and
 * the cart collection, which keeps one saved cart per user.
 */
module Carts {
  import opened Wrappers
  import opened Lists
  import opened Text
  import opened Products

  /** The `_id` of a line item, assigned when the item is pushed onto a cart. */
  type ItemId = nat

  /** One entry of `items`: the product, how many, which size and color, and the unit
      price captured when the line was created. */
  datatype LineItem = LineItem(id: ItemId, product: ProductId, quantity: int, size: string,
                               color: string, price: int)

  function Quantity(it: LineItem): int { it.quantity }
  function LineTotal(it: LineItem): int { it.price * it.quantity }

  /** The pre-save fold `items.reduce((total, item) => total + item.quantity, 0)`. */
  function TotalItems(items: seq<LineItem>): (r: int)
    ensures items == [] ==> r == 0
    ensures |items| == 1 ==> r == items[0].quantity
  {
    assert |items| == 1 ==> Sum(items, Quantity) == Sum(items[..0], Quantity) + Quantity(items[0]) && items[..0] == [];
    Sum(items, Quantity)
  }

  /** The pre-save fold `items.reduce((total, item) => total + item.price * item.quantity, 0)`. */
  function TotalPrice(items: seq<LineItem>): (r: int)
    ensures items == [] ==> r == 0
    ensures |items| == 1 ==> r == items[0].price * items[0].quantity
  {
    assert |items| == 1 ==> Sum(items, LineTotal) == Sum(items[..0], LineTotal) + LineTotal(items[0]) && items[..0] == [];
    Sum(items, LineTotal)
  }

  /** The line-item bounds the cart schema checks on save: a quantity of at least one and
      the required size and color, which a string field only meets when non-empty. */
  predicate ItemSchemaValid(it: LineItem) {
    it.quantity >= 1 && it.size != "" && it.color != ""
  }

  predicate ItemsSchemaValid(items: seq<LineItem>) {
    forall i :: 0 <= i < |items| ==> ItemSchemaValid(items[i])
  }

  /** What the add operation merges on: the product, the exact size and the color compared
      without regard to case. */
  function Key(it: LineItem): (ProductId, string, string) {
    (it.product, it.size, Lower(it.color))
  }

  function Id(it: LineItem): ItemId { it.id }

  /** No two lines share a merge key. */
  predicate UniqueKeys(items: seq<LineItem>) { Distinct(items, Key) }

  /** No two lines share an `_id`. */
  predicate UniqueIds(items: seq<LineItem>) { Distinct(items, Id) }

  /** A cart as the collection stores it. */
  datatype CartRecord = CartRecord(items: seq<LineItem>, totalItems: int, totalPrice: int)

  /** What a save of `items` stores: the items with the totals the pre-save hook computes. */
  function Persisted(items: seq<LineItem>): CartRecord {
    CartRecord(items, TotalItems(items), TotalPrice(items))
  }

  /** The shape returned for a user who has no cart yet. */
  const EmptyCart: CartRecord := CartRecord([], 0, 0)

  /** What the operations keep true of a cart's items: within the schema, merge keys and
      ids unique, and every id one already handed out. */
  predicate ItemsConsistent(items: seq<LineItem>, nextId: nat) {
    && ItemsSchemaValid(items)
    && UniqueKeys(items)
    && UniqueIds(items)
    && (forall i :: 0 <= i < |items| ==> items[i].id < nextId)
  }

  /** What holds of every saved cart: consistent items and totals equal to the folds. */
  predicate Consistent(r: CartRecord, nextId: nat) {
    && r.totalItems == TotalItems(r.items)
    && r.totalPrice == TotalPrice(r.items)
    && ItemsConsistent(r.items, nextId)
  }

  /** A cart document loaded into memory, which the controllers change in place before
      saving it. */
  class Cart {
    const user: UserId
    var items: seq<LineItem>
    var totalItems: int
    var totalPrice: int

    /** `new Cart({ user, items: [] })`, with the schema's zero defaults for the totals. */
    constructor (user: UserId)
      ensures this.user == user && items == [] && totalItems == 0 && totalPrice == 0
    {
      this.user := user;
      items := [];
      totalItems := 0;
      totalPrice := 0;
    }

    /** The document for a stored cart, as `Cart.findOne` returns it. */
    constructor Hydrate(user: UserId, r: CartRecord)
      ensures this.user == user && Record() == r
    {
      this.user := user;
      items := r.items;
      totalItems := r.totalItems;
      totalPrice := r.totalPrice;
    }

    function Record(): CartRecord
      reads this
    {
      CartRecord(items, totalItems, totalPrice)
    }

    /** The pre-save hook: both totals become the folds over the current items. */
    method PreSave()
      modifies this`totalItems, this`totalPrice
      ensures totalItems == TotalItems(items) && totalPrice == TotalPrice(items)
      ensures Record() == Persisted(items)
    {
      totalItems := TotalItems(items);
      totalPrice := TotalPrice(items);
    }
  }

  /** The cart collection: at most one cart per user, and the source of fresh item ids. */
  class CartStore {
    var carts: map<UserId, CartRecord>
    var nextItemId: nat

    predicate Valid()
      reads this
    {
      forall u :: u in carts ==> Consistent(carts[u], nextItemId)
    }

    constructor ()
      ensures Valid() && carts == map[] && nextItemId == 0
    {
      carts := map[];
      nextItemId := 0;
    }

    /** `Cart.findOne({ user })`: a fresh document for the user's stored cart, or null. */
    method FindOne(user: UserId) returns (cart: Cart?)
      ensures cart == null <==> user !in carts
      ensures cart != null ==> fresh(cart) && cart.user == user && cart.Record() == carts[user]
    {
      cart := null;
      if user in carts {
        cart := new Cart.Hydrate(user, carts[user]);
      }
    }

    /** The `_id` given to a newly pushed line item: one never handed out before. */
    method NewItemId() returns (id: ItemId)
      requires Valid()
      modifies this`nextItemId
      ensures id == old(nextItemId) && nextItemId == id + 1
      ensures Valid()
    {
      id := nextItemId;
      nextItemId := nextItemId + 1;
    }

    /** `cart.save()`: the schema is validated first; a failure stores nothing (the caller
        answers 500), otherwise the pre-save hook runs and the cart replaces the user's
        stored one. */
    method Save(cart: Cart) returns (ok: bool)
      modifies this`carts, cart`totalItems, cart`totalPrice
      ensures ok == ItemsSchemaValid(cart.items)
      ensures ok ==> cart.Record() == Persisted(cart.items)
                     && carts == old(carts)[cart.user := Persisted(cart.items)]
      ensures !ok ==> carts == old(carts) && cart.Record() == old(cart.Record())
    {
      ok := ItemsSchemaValid(cart.items);
      if ok {
        cart.PreSave();
        carts := carts[cart.user := cart.Record()];
      }
    }
  }

  /** Storing a consistent cart for one user keeps every stored cart consistent, also when
      ids have been handed out in the meantime. */
  lemma {:induction false} PutKeepsConsistent(carts: map<UserId, CartRecord>, oldNext: nat, nextId: nat,
                           user: UserId, items: seq<LineItem>)
    requires oldNext <= nextId
    requires forall u :: u in carts ==> Consistent(carts[u], oldNext)
    requires ItemsConsistent(items, nextId)
    ensures var stored := carts[user := Persisted(items)];
            forall u :: u in stored ==> Consistent(stored[u], nextId)
  {
  }

  /** Setting one line's quantity to a value the schema accepts keeps the items consistent:
      keys and ids do not move. */
  lemma {:induction false} SetQuantityKeepsConsistent(items: seq<LineItem>, k: nat, quantity: int, nextId: nat)
    requires ItemsConsistent(items, nextId) && k < |items| && quantity >= 1
    ensures ItemsConsistent(items[k := items[k].(quantity := quantity)], nextId)
  {
    var r := items[k := items[k].(quantity := quantity)];
    assert forall i :: 0 <= i < |r| ==> Key(r[i]) == Key(items[i]) && Id(r[i]) == Id(items[i]);
    assert forall i :: 0 <= i < |r| ==> ItemSchemaValid(r[i]) && r[i].id < nextId;
  }

  /** Pushing a valid line with a new key and the next fresh id keeps the items consistent
      once that id counts as handed out. */
  lemma {:induction false} PushKeepsConsistent(items: seq<LineItem>, line: LineItem, nextId: nat)
    requires ItemsConsistent(items, nextId) && ItemSchemaValid(line) && line.id == nextId
    requires forall j :: 0 <= j < |items| ==> Key(items[j]) != Key(line)
    ensures ItemsConsistent(items + [line], nextId + 1)
  {
    var r := items + [line];
    assert forall i :: 0 <= i < |items| ==> r[i] == items[i];
    assert r[|items|] == line;
  }

  /** Pushing an item adds its quantity to `totalItems` and its line total to `totalPrice`. */
  lemma {:induction false} TotalsAppend(items: seq<LineItem>, it: LineItem)
    ensures TotalItems(items + [it]) == TotalItems(items) + it.quantity
    ensures TotalPrice(items + [it]) == TotalPrice(items) + it.price * it.quantity
  {
    SumAppend(items, it, Quantity);
    SumAppend(items, it, LineTotal);
  }

  /** Setting one line's quantity to `q` moves `totalItems` by the difference and
      `totalPrice` by that line's price times the difference. */
  lemma {:induction false} TotalsSetQuantity(items: seq<LineItem>, k: nat, q: int)
    requires k < |items|
    ensures TotalItems(items[k := items[k].(quantity := q)]) == TotalItems(items) - items[k].quantity + q
    ensures TotalPrice(items[k := items[k].(quantity := q)])
            == TotalPrice(items) + items[k].price * (q - items[k].quantity)
  {
    var it := items[k].(quantity := q);
    SumUpdate(items, k, it, Quantity);
    SumUpdate(items, k, it, LineTotal);
    assert LineTotal(it) - LineTotal(items[k]) == items[k].price * (q - items[k].quantity);
  }

  /** Every line has a quantity of at least one, so `totalItems` is at least the number of
      lines, and positive for a non-empty cart. */
  lemma {:induction false} TotalItemsAtLeastLineCount(items: seq<LineItem>)
    requires ItemsSchemaValid(items)
    ensures TotalItems(items) >= |items|
  {
    SumAtLeast(items, Quantity, 1);
  }

  /** With non-negative unit prices, `totalPrice` is non-negative. */
  lemma {:induction false} TotalPriceNonNegative(items: seq<LineItem>)
    requires ItemsSchemaValid(items)
    requires forall i :: 0 <= i < |items| ==> items[i].price >= 0
    ensures TotalPrice(items) >= 0
  {
    forall i | 0 <= i < |items| ensures LineTotal(items[i]) >= 0 {
      assert items[i].price >= 0 && items[i].quantity >= 1;
    }
    SumAtLeast(items, LineTotal, 0);
  }

  /** An empty cart has zero totals. */
  lemma {:induction false} EmptyTotals()
    ensures Persisted([]) == EmptyCart
  {
  }
}

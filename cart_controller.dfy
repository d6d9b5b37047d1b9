/**
 * The cart endpoints: get, add, update, remove and clear. Each endpoint is a method that
 * loads the user's cart document, changes it in place and saves it, exactly in the order the
 * controller does; each is proved against a function on values (`AddOutcome`,
 * `UpdateOutcome`, `RemoveOutcome`, `ClearOutcome`) that says which error the request meets
 * or which items the saved cart holds. The lemmas below state what those functions promise.
 */
module CartController {
  import opened Wrappers
  import opened Lists
  import opened Text
  import opened Products
  import opened Carts

  /** The reasons an endpoint answers with an error. `ServerError` covers every exception the
      handler turns into a 500: a failed schema validation on save, or a deleted product or
      size met while updating. */
  datatype CartError =
    | MissingFields                 // 400 "Product ID, size, and color are required"
    | ProductUnavailable            // 404 "Product not found or inactive"
    | SizeUnavailable               // 400 "Size not available"
    | ColorUnavailable              // 400 "Color not available"
    | InsufficientStock             // 400 "Insufficient stock"
    | InsufficientStockForQuantity  // 400 "Insufficient stock for requested quantity"
    | InvalidUpdate                 // 400 "Item ID and valid quantity are required"
    | CartNotFound                  // 404 "Cart not found"
    | ItemNotFound                  // 404 "Item not found in cart"
    | ServerError                   // 500 "Server error"

  function StatusOf(e: CartError): nat {
    match e
    case ProductUnavailable | CartNotFound | ItemNotFound => 404
    case ServerError => 500
    case _ => 400
  }

  /** What an endpoint answers: the cart with status 200, or an error. */
  datatype CartReply = Ok(cart: CartRecord) | Err(error: CartError)
  {
    function Status(): nat {
      if Ok? then 200 else StatusOf(error)
    }
  }

  /** The product collection, as the cart endpoints read it. */
  type Catalog = map<ProductId, Product>

  /** The body of `POST /api/cart/add`; a missing field is None. */
  datatype AddRequest = AddRequest(productId: Option<ProductId>, quantity: Option<int>,
                                   size: Option<string>, color: Option<string>)

  /** The body of `PUT /api/cart/update`; None stands for a missing or empty field. */
  datatype UpdateRequest = UpdateRequest(itemId: Option<ItemId>, quantity: Option<int>)

  /** JavaScript truthiness of an optional number: present and not zero. */
  predicate TruthyInt(v: Option<int>) {
    v.Some? && v.value != 0
  }

  /** The quantity an add request asks for: `quantity = 1` when the field is missing. */
  function AddQuantity(req: AddRequest): int {
    req.quantity.GetOr(1)
  }

  predicate HasAddFields(req: AddRequest) {
    Truthy(req.productId) && Truthy(req.size) && Truthy(req.color)
  }

  /** The merge key of the line an add request is about. */
  function LineKey(req: AddRequest): (ProductId, string, string)
    requires HasAddFields(req)
  {
    (req.productId.value, req.size.value, Lower(req.color.value))
  }

  /** The test `c => c.color.toLowerCase() === color.toLowerCase()`. */
  function ColorIs(color: string): ColorOption -> bool {
    (c: ColorOption) => Lower(c.color) == Lower(color)
  }

  /** The test the add endpoint uses to find an existing line: same product, same size and
      the same color up to case. */
  function SameLine(key: (ProductId, string, string)): LineItem -> bool {
    (it: LineItem) => Key(it) == key
  }

  function HasId(id: ItemId): LineItem -> bool {
    (it: LineItem) => it.id == id
  }

  function HasOtherId(id: ItemId): LineItem -> bool {
    (it: LineItem) => it.id != id
  }

  /** The existing line an add request merges into, if any. */
  function MergeIndex(items: seq<LineItem>, req: AddRequest): Option<nat>
    requires HasAddFields(req)
  {
    FindIndex(items, SameLine(LineKey(req)))
  }

  /** The items of the user's stored cart; a user without a cart starts from none. */
  function StoredItems(carts: map<UserId, CartRecord>, user: UserId): seq<LineItem> {
    if user in carts then carts[user].items else []
  }

  /** `cart.save()` on these items: the schema validation either passes or ends in a 500. */
  function Saved(items: seq<LineItem>): (r: Result<seq<LineItem>, CartError>)
    ensures r.Success? <==> ItemsSchemaValid(items)
    ensures r.Success? ==> r.value == items
    ensures r.Failure? ==> r.error == ServerError
  {
    if ItemsSchemaValid(items) then Success(items) else Failure(ServerError)
  }

  /** The reply for an outcome: the saved cart, or the error. */
  function Reply(out: Result<seq<LineItem>, CartError>): CartReply {
    if out.Success? then Ok(Persisted(out.value)) else Err(out.error)
  }

  /** The collection after an outcome: the user's cart replaced on success, else unchanged. */
  function Apply(carts: map<UserId, CartRecord>, user: UserId,
                 out: Result<seq<LineItem>, CartError>): map<UserId, CartRecord> {
    if out.Success? then carts[user := Persisted(out.value)] else carts
  }

  /** What the catalog offers an add request: the stock of the requested size, the catalog's
      spelling of the requested color, and the product's final price. */
  datatype Offer = Offer(stock: int, color: string, price: int)

  /** The validations `addToCart` makes before it touches the cart: the three fields, the product
      (present and active), the size (first entry with that label), the color (first entry
      equal up to case) and the stock against the requested quantity alone. */
  function AddOffer(catalog: Catalog, req: AddRequest): (r: Result<Offer, CartError>)
    reads catalog.Values
    ensures r.Success? ==>
      && HasAddFields(req) && req.productId.value in catalog
      && var product := catalog[req.productId.value];
         var s := FindIndex(product.sizes, SizeIs(req.size.value));
         var c := FindIndex(product.colors, ColorIs(req.color.value));
         && product.isActive && s.Some? && c.Some?
         && r.value == Offer(product.sizes[s.value].stock, product.colors[c.value].color,
                             product.GetFinalPrice())
         && AddQuantity(req) <= r.value.stock
    ensures r.Success? ==> Lower(r.value.color) == Lower(req.color.value)
    ensures !HasAddFields(req) ==> r == Failure(MissingFields)
    ensures HasAddFields(req) && (req.productId.value !in catalog || !catalog[req.productId.value].isActive)
            ==> r == Failure(ProductUnavailable)
    ensures HasAddFields(req) && req.productId.value in catalog && catalog[req.productId.value].isActive ==>
      var product := catalog[req.productId.value];
      var s := FindIndex(product.sizes, SizeIs(req.size.value));
      var c := FindIndex(product.colors, ColorIs(req.color.value));
      && (s.None? ==> r == Failure(SizeUnavailable))
      && (s.Some? && c.None? ==> r == Failure(ColorUnavailable))
      && (s.Some? && c.Some? && product.sizes[s.value].stock < AddQuantity(req) ==> r == Failure(InsufficientStock))
      && (s.Some? && c.Some? && AddQuantity(req) <= product.sizes[s.value].stock ==> r.Success?)
  {
    if !HasAddFields(req) then Failure(MissingFields)
    else
      var productId, size, color := req.productId.value, req.size.value, req.color.value;
      if productId !in catalog || !catalog[productId].isActive then Failure(ProductUnavailable)
      else
        var product := catalog[productId];
        match FindIndex(product.sizes, SizeIs(size))
        case None => Failure(SizeUnavailable)
        case Some(s) =>
          match FindIndex(product.colors, ColorIs(color))
          case None => Failure(ColorUnavailable)
          case Some(c) =>
            if product.sizes[s].stock < AddQuantity(req) then Failure(InsufficientStock)
            else Success(Offer(product.sizes[s].stock, product.colors[c].color, product.GetFinalPrice()))
  }

  /** What `addToCart` does to the items once its validations pass: raise the quantity of the line
      with the same merge key, provided the sum stays within stock, or push a new line with
      id `newId`; then save. */
  function AddLine(items: seq<LineItem>, req: AddRequest, offer: Offer, newId: ItemId)
    : (r: Result<seq<LineItem>, CartError>)
    requires HasAddFields(req)
    ensures r.Success? ==> ItemsSchemaValid(r.value)
  {
    var quantity := AddQuantity(req);
    match MergeIndex(items, req)
    case Some(k) =>
      if offer.stock < items[k].quantity + quantity then Failure(InsufficientStockForQuantity)
      else Saved(items[k := items[k].(quantity := items[k].quantity + quantity)])
    case None =>
      Saved(items + [LineItem(newId, req.productId.value, quantity, req.size.value, offer.color, offer.price)])
  }

  /** `addToCart` on the user's current items: the error it answers, or the items it saves.
      `newId` is the `_id` a pushed line receives. */
  function AddOutcome(items: seq<LineItem>, catalog: Catalog, req: AddRequest, newId: ItemId)
    : (r: Result<seq<LineItem>, CartError>)
    reads catalog.Values
    ensures r.Success? ==> AddOffer(catalog, req).Success? && ItemsSchemaValid(r.value)
    ensures AddOffer(catalog, req).Failure? ==> r == Failure(AddOffer(catalog, req).error)
  {
    match AddOffer(catalog, req)
    case Failure(e) => Failure(e)
    case Success(offer) => AddLine(items, req, offer, newId)
  }

  /** `updateCartItem`: the error it answers, or the items it saves. */
  function UpdateOutcome(carts: map<UserId, CartRecord>, user: UserId, catalog: Catalog,
                         req: UpdateRequest): (r: Result<seq<LineItem>, CartError>)
    reads catalog.Values
    ensures r.Success? ==> req.itemId.Some? && req.quantity.Some? && req.quantity.value >= 1
                           && user in carts && |r.value| == |carts[user].items|
    ensures r.Success? ==> ItemsSchemaValid(r.value)
  {
    if req.itemId.None? || !TruthyInt(req.quantity) || req.quantity.value < 1 then Failure(InvalidUpdate)
    else if user !in carts then Failure(CartNotFound)
    else
      var items, quantity := carts[user].items, req.quantity.value;
      match FindIndex(items, HasId(req.itemId.value))
      case None => Failure(ItemNotFound)
      case Some(k) =>
        if items[k].product !in catalog then Failure(ServerError)
        else
          match FindIndex(catalog[items[k].product].sizes, SizeIs(items[k].size))
          case None => Failure(ServerError)
          case Some(s) =>
            if catalog[items[k].product].sizes[s].stock < quantity then Failure(InsufficientStock)
            else Saved(items[k := items[k].(quantity := quantity)])
  }

  /** `removeFromCart`: every line except the one with `itemId` is kept, in order. */
  function RemoveOutcome(carts: map<UserId, CartRecord>, user: UserId, itemId: ItemId)
    : (r: Result<seq<LineItem>, CartError>)
    ensures user !in carts <==> r == Failure(CartNotFound)
    ensures r.Success? ==> |r.value| <= |carts[user].items|
    ensures r.Success? ==> forall i :: 0 <= i < |r.value| ==> r.value[i].id != itemId
  {
    if user !in carts then Failure(CartNotFound)
    else Saved(Filter(carts[user].items, HasOtherId(itemId)))
  }

  /** `clearCart`: an existing cart is emptied. */
  function ClearOutcome(carts: map<UserId, CartRecord>, user: UserId)
    : (r: Result<seq<LineItem>, CartError>)
    ensures user in carts <==> r == Success([])
    ensures user !in carts <==> r == Failure(CartNotFound)
  {
    if user !in carts then Failure(CartNotFound) else Saved([])
  }

  /** `GET /api/cart`: the stored cart, or the empty shell for a user who has none. */
  method GetCart(store: CartStore, user: UserId) returns (reply: CartReply)
    requires store.Valid()
    ensures user in store.carts ==> reply == Ok(store.carts[user])
    ensures user !in store.carts ==> reply == Ok(EmptyCart)
    ensures reply.Ok? && reply.cart.totalItems == TotalItems(reply.cart.items)
                      && reply.cart.totalPrice == TotalPrice(reply.cart.items)
  {
    var cart := store.FindOne(user);
    if cart == null {
      EmptyTotals();
      return Ok(EmptyCart);
    }
    reply := Ok(cart.Record());
  }

  /** The validations of `POST /api/cart/add` that read only the request and the catalog, in the
      order the handler makes them. */
  method CheckAdd(catalog: Catalog, req: AddRequest) returns (r: Result<Offer, CartError>)
    ensures r == AddOffer(catalog, req)
  {
    if !Truthy(req.productId) || !Truthy(req.size) || !Truthy(req.color) {
      return Failure(MissingFields);
    }
    var productId, size, color := req.productId.value, req.size.value, req.color.value;
    if productId !in catalog || !catalog[productId].isActive {
      return Failure(ProductUnavailable);
    }
    var product := catalog[productId];
    var sizeIndex := FindIndex(product.sizes, SizeIs(size));
    if sizeIndex.None? {
      return Failure(SizeUnavailable);
    }
    var sizeObj := product.sizes[sizeIndex.value];
    var colorIndex := FindIndex(product.colors, ColorIs(color));
    if colorIndex.None? {
      return Failure(ColorUnavailable);
    }
    var colorObj := product.colors[colorIndex.value];
    if sizeObj.stock < AddQuantity(req) {
      return Failure(InsufficientStock);
    }
    r := Success(Offer(sizeObj.stock, colorObj.color, product.GetFinalPrice()));
  }

  /** `POST /api/cart/add`. */
  method AddToCart(store: CartStore, catalog: Catalog, user: UserId, req: AddRequest)
    returns (reply: CartReply)
    requires store.Valid()
    modifies store
    ensures store.Valid()
    ensures var out := old(AddOutcome(StoredItems(store.carts, user), catalog, req, store.nextItemId));
            reply == Reply(out) && store.carts == Apply(old(store.carts), user, out)
  {
    var checked := CheckAdd(catalog, req);
    if checked.Failure? {
      return Err(checked.error);
    }
    reply := AddToStoredCart(store, user, req, checked.value);
  }

  /** The rest of `POST /api/cart/add` once its validations pass: find or create the user's cart,
      merge into the matching line or push a new one, and save. */
  method AddToStoredCart(store: CartStore, user: UserId, req: AddRequest, offer: Offer)
    returns (reply: CartReply)
    requires store.Valid()
    requires HasAddFields(req) && Lower(offer.color) == Lower(req.color.value)
    modifies store
    ensures store.Valid()
    ensures var out := old(AddLine(StoredItems(store.carts, user), req, offer, store.nextItemId));
            reply == Reply(out) && store.carts == Apply(old(store.carts), user, out)
  {
    ghost var before := StoredItems(store.carts, user);
    ghost var newId := store.nextItemId;
    var cart := store.FindOne(user);
    if cart == null {
      cart := new Cart(user);
    }
    var merged := MergeOrPush(store, cart, req, offer);
    if !merged {
      return Err(InsufficientStockForQuantity);
    }
    ghost var carts := store.carts;
    var saved := store.Save(cart);
    if !saved {
      return Err(ServerError);
    }
    AddKeepsConsistent(before, req, offer, newId);
    PutKeepsConsistent(carts, newId, store.nextItemId, user, cart.items);
    reply := Ok(cart.Record());
  }

  /** The middle of `POST /api/cart/add`: raise the quantity of the line with the same merge
      key when the sum stays within stock, else push a new line with a fresh id. `ok` is false
      only for the "Insufficient stock for requested quantity" refusal. */
  method MergeOrPush(store: CartStore, cart: Cart, req: AddRequest, offer: Offer) returns (ok: bool)
    requires store.Valid() && HasAddFields(req)
    modifies cart`items, store`nextItemId
    ensures store.Valid()
    ensures var out := AddLine(old(cart.items), req, offer, old(store.nextItemId));
            && (ok ==> out == Saved(cart.items))
            && (!ok ==> out == Failure(InsufficientStockForQuantity) && cart.items == old(cart.items))
    ensures store.nextItemId
            == if MergeIndex(old(cart.items), req).Some? then old(store.nextItemId) else old(store.nextItemId) + 1
  {
    var quantity := AddQuantity(req);
    var existing := FindIndex(cart.items, SameLine(LineKey(req)));
    if existing.Some? {
      var k := existing.value;
      var newQuantity := cart.items[k].quantity + quantity;
      if offer.stock < newQuantity {
        return false;
      }
      cart.items := cart.items[k := cart.items[k].(quantity := newQuantity)];
    } else {
      var id := store.NewItemId();
      cart.items := cart.items + [LineItem(id, req.productId.value, quantity, req.size.value,
                                           offer.color, offer.price)];
    }
    ok := true;
  }

  /** `PUT /api/cart/update`. */
  method UpdateCartItem(store: CartStore, catalog: Catalog, user: UserId, req: UpdateRequest)
    returns (reply: CartReply)
    requires store.Valid()
    modifies store
    ensures store.Valid() && store.nextItemId == old(store.nextItemId)
    ensures var out := UpdateOutcome(old(store.carts), user, catalog, req);
            reply == Reply(out) && store.carts == Apply(old(store.carts), user, out)
  {
    if req.itemId.None? || !TruthyInt(req.quantity) || req.quantity.value < 1 {
      return Err(InvalidUpdate);
    }
    var itemId, quantity := req.itemId.value, req.quantity.value;
    var cart := store.FindOne(user);
    if cart == null {
      return Err(CartNotFound);
    }
    var itemIndex := FindIndex(cart.items, HasId(itemId));
    if itemIndex.None? {
      return Err(ItemNotFound);
    }
    var k := itemIndex.value;
    // A product that no longer exists, or no longer has the line's size, makes the handler
    // throw on the next property access.
    if cart.items[k].product !in catalog {
      return Err(ServerError);
    }
    var product := catalog[cart.items[k].product];
    var sizeIndex := FindIndex(product.sizes, SizeIs(cart.items[k].size));
    if sizeIndex.None? {
      return Err(ServerError);
    }
    if product.sizes[sizeIndex.value].stock < quantity {
      return Err(InsufficientStock);
    }
    ghost var before, carts := cart.items, store.carts;
    cart.items := cart.items[k := cart.items[k].(quantity := quantity)];
    var saved := store.Save(cart);
    if !saved {
      return Err(ServerError);
    }
    UpdateKeepsConsistent(before, k, quantity, store.nextItemId);
    PutKeepsConsistent(carts, store.nextItemId, store.nextItemId, user, cart.items);
    reply := Ok(cart.Record());
  }

  /** `DELETE /api/cart/remove/:itemId`. */
  method RemoveFromCart(store: CartStore, user: UserId, itemId: ItemId) returns (reply: CartReply)
    requires store.Valid()
    modifies store
    ensures store.Valid() && store.nextItemId == old(store.nextItemId)
    ensures var out := RemoveOutcome(old(store.carts), user, itemId);
            reply == Reply(out) && store.carts == Apply(old(store.carts), user, out)
  {
    var cart := store.FindOne(user);
    if cart == null {
      return Err(CartNotFound);
    }
    ghost var before, carts := cart.items, store.carts;
    cart.items := Filter(cart.items, HasOtherId(itemId));
    var saved := store.Save(cart);
    if !saved {
      return Err(ServerError);
    }
    RemoveKeepsConsistent(before, itemId, store.nextItemId);
    PutKeepsConsistent(carts, store.nextItemId, store.nextItemId, user, cart.items);
    reply := Ok(cart.Record());
  }

  /** `DELETE /api/cart/clear`. */
  method ClearCart(store: CartStore, user: UserId) returns (reply: CartReply)
    requires store.Valid()
    modifies store
    ensures store.Valid() && store.nextItemId == old(store.nextItemId)
    ensures var out := ClearOutcome(old(store.carts), user);
            reply == Reply(out) && store.carts == Apply(old(store.carts), user, out)
  {
    var cart := store.FindOne(user);
    if cart == null {
      return Err(CartNotFound);
    }
    cart.items := [];
    var saved := store.Save(cart);
    if !saved {
      return Err(ServerError);
    }
    reply := Ok(cart.Record());
  }

  /** A successful add keeps the cart consistent: the merged or pushed line passes the schema,
      the merge keys stay unique, and the only new id is `newId`. */
  lemma {:induction false} AddKeepsConsistent(items: seq<LineItem>, req: AddRequest, offer: Offer, newId: ItemId)
    requires HasAddFields(req) && Lower(offer.color) == Lower(req.color.value)
    requires ItemsConsistent(items, newId)
    requires AddLine(items, req, offer, newId).Success?
    ensures var r := AddLine(items, req, offer, newId).value;
            ItemsConsistent(r, if MergeIndex(items, req).Some? then newId else newId + 1)
  {
    var r := AddLine(items, req, offer, newId).value;
    var key := LineKey(req);
    match MergeIndex(items, req)
    case Some(k) =>
      assert r[k].quantity >= 1;
      SetQuantityKeepsConsistent(items, k, r[k].quantity, newId);
    case None =>
      var line := r[|items|];
      assert ItemSchemaValid(line) && Key(line) == key;
      PushKeepsConsistent(items, line, newId);
  }

  /** A successful add puts the requested quantity on top of `totalItems`, and that quantity
      times the line's unit price on top of `totalPrice`. */
  lemma {:induction false} AddTotals(items: seq<LineItem>, catalog: Catalog, req: AddRequest, newId: ItemId)
    requires AddOutcome(items, catalog, req, newId).Success?
    ensures var r := AddOutcome(items, catalog, req, newId).value;
            var j := FindIndex(r, SameLine(LineKey(req)));
            && j.Some?
            && TotalItems(r) == TotalItems(items) + AddQuantity(req)
            && TotalPrice(r) == TotalPrice(items) + AddQuantity(req) * r[j.value].price
  {
    AddLineTotals(items, req, AddOffer(catalog, req).value, newId);
  }

  lemma {:induction false} AddLineTotals(items: seq<LineItem>, req: AddRequest, offer: Offer, newId: ItemId)
    requires HasAddFields(req) && Lower(offer.color) == Lower(req.color.value)
    requires AddLine(items, req, offer, newId).Success?
    ensures var r := AddLine(items, req, offer, newId).value;
            var j := FindIndex(r, SameLine(LineKey(req)));
            && j.Some?
            && TotalItems(r) == TotalItems(items) + AddQuantity(req)
            && TotalPrice(r) == TotalPrice(items) + AddQuantity(req) * r[j.value].price
  {
    var key, q := LineKey(req), AddQuantity(req);
    match MergeIndex(items, req)
    case Some(k) =>
      MergedLineTotals(items, k, q, key);
    case None =>
      AppendedLineTotals(items, LineItem(newId, req.productId.value, q, req.size.value, offer.color, offer.price), key);
  }

  /** Raising the quantity of the first line with a key by `q` adds `q` to `totalItems` and
      `q` times that line's price to `totalPrice`; the line is still the first with the key. */
  lemma {:induction false} MergedLineTotals(items: seq<LineItem>, k: nat, q: int, key: (ProductId, string, string))
    requires k < |items| && Key(items[k]) == key
    requires forall j :: 0 <= j < k ==> Key(items[j]) != key
    ensures var r := items[k := items[k].(quantity := items[k].quantity + q)];
            && FindIndex(r, SameLine(key)) == Some(k)
            && TotalItems(r) == TotalItems(items) + q
            && TotalPrice(r) == TotalPrice(items) + q * r[k].price
  {
    var newQuantity := items[k].quantity + q;
    var r := items[k := items[k].(quantity := newQuantity)];
    assert r[k].price == items[k].price;
    assert TotalItems(r) == TotalItems(items) + q by {
      TotalsSetQuantity(items, k, newQuantity);
    }
    assert TotalPrice(r) == TotalPrice(items) + q * r[k].price by {
      TotalsSetQuantity(items, k, newQuantity);
      assert items[k].price * (newQuantity - items[k].quantity) == q * r[k].price;
    }
    SetQuantityKeepsFirst(items, k, newQuantity, key);
  }

  /** Changing a line's quantity leaves it the first line with its key. */
  lemma {:induction false} SetQuantityKeepsFirst(items: seq<LineItem>, k: nat, quantity: int,
                                                 key: (ProductId, string, string))
    requires k < |items| && Key(items[k]) == key
    requires forall j :: 0 <= j < k ==> Key(items[j]) != key
    ensures FindIndex(items[k := items[k].(quantity := quantity)], SameLine(key)) == Some(k)
  {
    var r := items[k := items[k].(quantity := quantity)];
    assert Key(r[k]) == key;
    assert forall j :: 0 <= j < k ==> r[j] == items[j];
    FindIndexIs(r, SameLine(key), k);
  }

  /** Pushing a line with a key no existing line has adds its quantity to `totalItems` and
      its line total to `totalPrice`; it is the first line with that key. */
  lemma {:induction false} AppendedLineTotals(items: seq<LineItem>, line: LineItem, key: (ProductId, string, string))
    requires forall j :: 0 <= j < |items| ==> Key(items[j]) != key
    requires Key(line) == key
    ensures var r := items + [line];
            && FindIndex(r, SameLine(key)) == Some(|items|)
            && TotalItems(r) == TotalItems(items) + line.quantity
            && TotalPrice(r) == TotalPrice(items) + line.quantity * line.price
  {
    var r := items + [line];
    assert TotalItems(r) == TotalItems(items) + line.quantity by {
      TotalsAppend(items, line);
    }
    assert TotalPrice(r) == TotalPrice(items) + line.quantity * line.price by {
      TotalsAppend(items, line);
      assert line.price * line.quantity == line.quantity * line.price;
    }
    assert forall i :: 0 <= i < |items| ==> r[i] == items[i];
    FindIndexIs(r, SameLine(key), |items|);
  }

  /** When the cart already holds a line with the request's merge key, a successful add only
      raises that line's quantity by the requested amount. */
  lemma {:induction false} AddMergesExistingLine(items: seq<LineItem>, catalog: Catalog, req: AddRequest,
                              newId: ItemId, k: nat)
    requires UniqueKeys(items)
    requires AddOutcome(items, catalog, req, newId).Success?
    requires k < |items| && Key(items[k]) == LineKey(req)
    ensures AddOutcome(items, catalog, req, newId).value
            == items[k := items[k].(quantity := items[k].quantity + AddQuantity(req))]
  {
    var j := MergeIndex(items, req).value;
    assert Key(items[j]) == Key(items[k]);
  }

  /** When the cart holds no line with the request's merge key, a successful add appends one:
      id `newId`, the requested product, quantity and size, the catalog's spelling of the
      color, and the product's final price at this moment. */
  lemma {:induction false} AddAppendsNewLine(items: seq<LineItem>, catalog: Catalog, req: AddRequest, newId: ItemId)
    requires AddOutcome(items, catalog, req, newId).Success?
    requires forall i :: 0 <= i < |items| ==> Key(items[i]) != LineKey(req)
    ensures var r := AddOutcome(items, catalog, req, newId).value;
            var product := catalog[req.productId.value];
            && |r| == |items| + 1 && r[..|items|] == items
            && r[|items|].id == newId && r[|items|].product == req.productId.value
            && r[|items|].quantity == AddQuantity(req) && r[|items|].size == req.size.value
            && Lower(r[|items|].color) == Lower(req.color.value)
            && (exists c :: 0 <= c < |product.colors| && product.colors[c].color == r[|items|].color)
            && r[|items|].price == product.GetFinalPrice()
  {
    var product := catalog[req.productId.value];
    var c := FindIndex(product.colors, ColorIs(req.color.value)).value;
    assert MergeIndex(items, req).None?;
    assert product.colors[c].color == AddOutcome(items, catalog, req, newId).value[|items|].color;
  }

  /** A line the add creates or merges never holds more than the stock of the requested size
      (the first size entry with that label). */
  lemma {:induction false} AddWithinStock(items: seq<LineItem>, catalog: Catalog, req: AddRequest, newId: ItemId)
    requires UniqueKeys(items)
    requires AddOutcome(items, catalog, req, newId).Success?
    ensures var r := AddOutcome(items, catalog, req, newId).value;
            var sizes := catalog[req.productId.value].sizes;
            var s := FindIndex(sizes, SizeIs(req.size.value));
            && s.Some?
            && forall i :: 0 <= i < |r| && Key(r[i]) == LineKey(req) ==> r[i].quantity <= sizes[s.value].stock
  {
    var offer := AddOffer(catalog, req).value;
    var r := AddLine(items, req, offer, newId).value;
    var key := LineKey(req);
    match MergeIndex(items, req)
    case Some(k) =>
      assert forall i :: 0 <= i < |r| && i != k ==> r[i] == items[i];
    case None =>
      assert forall i :: 0 <= i < |items| ==> r[i] == items[i];
  }

  /** Asking for one more unit than the size has is refused with "Insufficient stock", whatever
      the cart holds, once the product, size and color are found. */
  lemma {:induction false} AddOverStockRefused(items: seq<LineItem>, catalog: Catalog, req: AddRequest, newId: ItemId)
    requires HasAddFields(req) && req.productId.value in catalog
    requires catalog[req.productId.value].isActive
    requires FindIndex(catalog[req.productId.value].colors, ColorIs(req.color.value)).Some?
    requires var sizes := catalog[req.productId.value].sizes;
             var s := FindIndex(sizes, SizeIs(req.size.value));
             s.Some? && sizes[s.value].stock < AddQuantity(req)
    ensures AddOutcome(items, catalog, req, newId) == Failure(InsufficientStock)
  {
  }

  /** Two successful adds of the same product, size and color to a cart without that line
      leave a single line whose quantity is the sum of the two requests. */
  lemma {:induction false} AddTwiceMerges(items: seq<LineItem>, catalog: Catalog, first: AddRequest,
                       second: AddRequest, id1: ItemId, id2: ItemId)
    requires ItemsConsistent(items, id1)
    requires HasAddFields(first) && HasAddFields(second) && LineKey(first) == LineKey(second)
    requires forall i :: 0 <= i < |items| ==> Key(items[i]) != LineKey(first)
    requires AddOutcome(items, catalog, first, id1).Success?
    requires AddOutcome(AddOutcome(items, catalog, first, id1).value, catalog, second, id2).Success?
    ensures var once := AddOutcome(items, catalog, first, id1).value;
            var twice := AddOutcome(once, catalog, second, id2).value;
            && |twice| == |items| + 1 && twice[..|items|] == items
            && twice[|items|] == once[|items|].(quantity := AddQuantity(first) + AddQuantity(second))
  {
    var once := AddOutcome(items, catalog, first, id1).value;
    AddAppendsNewLine(items, catalog, first, id1);
    AddKeepsConsistent(items, first, AddOffer(catalog, first).value, id1);
    assert Key(once[|items|]) == LineKey(second);
    AddMergesExistingLine(once, catalog, second, id2, |items|);
    assert once[..|items|] == items;
  }

  /** A successful update keeps the cart consistent; ids and merge keys do not change. */
  lemma {:induction false} UpdateKeepsConsistent(items: seq<LineItem>, k: nat, q: int, nextId: nat)
    requires k < |items| && q >= 1
    requires ItemsConsistent(items, nextId)
    ensures ItemsConsistent(items[k := items[k].(quantity := q)], nextId)
  {
    var r := items[k := items[k].(quantity := q)];
    assert forall i :: 0 <= i < |r| ==> Key(r[i]) == Key(items[i]) && r[i].id == items[i].id;
  }

  /** A successful update sets the quantity of the one line with that id and changes nothing
      else; the totals move by the difference. */
  lemma {:induction false} UpdateSetsOneQuantity(carts: map<UserId, CartRecord>, user: UserId, catalog: Catalog,
                              req: UpdateRequest, k: nat)
    requires user in carts && UniqueIds(carts[user].items)
    requires UpdateOutcome(carts, user, catalog, req).Success?
    requires k < |carts[user].items| && carts[user].items[k].id == req.itemId.value
    ensures var items := carts[user].items;
            var r := UpdateOutcome(carts, user, catalog, req).value;
            && r == items[k := items[k].(quantity := req.quantity.value)]
            && TotalItems(r) == TotalItems(items) - items[k].quantity + req.quantity.value
            && TotalPrice(r) == TotalPrice(items) + items[k].price * (req.quantity.value - items[k].quantity)
  {
    var items := carts[user].items;
    var j := FindIndex(items, HasId(req.itemId.value)).value;
    assert items[j].id == items[k].id;
    TotalsSetQuantity(items, k, req.quantity.value);
  }

  /** A successful update never sets a quantity above the stock of the line's size. */
  lemma {:induction false} UpdateWithinStock(carts: map<UserId, CartRecord>, user: UserId, catalog: Catalog,
                          req: UpdateRequest)
    requires UpdateOutcome(carts, user, catalog, req).Success?
    ensures var items := carts[user].items;
            var k := FindIndex(items, HasId(req.itemId.value));
            && k.Some? && items[k.value].product in catalog
            && var sizes := catalog[items[k.value].product].sizes;
               var s := FindIndex(sizes, SizeIs(items[k.value].size));
               s.Some? && req.quantity.value <= sizes[s.value].stock
  {
  }

  /** Update's refusals: a missing id or a quantity below one is 400, a missing cart or item
      404, a deleted product or size 500, and a quantity above the size's stock 400. */
  lemma {:induction false} UpdateRefusals(carts: map<UserId, CartRecord>, user: UserId, catalog: Catalog,
                       req: UpdateRequest)
    ensures req.itemId.None? || req.quantity.None? || req.quantity.value < 1
            ==> UpdateOutcome(carts, user, catalog, req) == Failure(InvalidUpdate)
    ensures req.itemId.Some? && req.quantity.Some? && req.quantity.value >= 1 && user !in carts
            ==> UpdateOutcome(carts, user, catalog, req) == Failure(CartNotFound)
    ensures req.itemId.Some? && req.quantity.Some? && req.quantity.value >= 1 && user in carts
            && (forall i :: 0 <= i < |carts[user].items| ==> carts[user].items[i].id != req.itemId.value)
            ==> UpdateOutcome(carts, user, catalog, req) == Failure(ItemNotFound)
    ensures req.itemId.Some? && req.quantity.Some? && req.quantity.value >= 1 && user in carts ==>
            var items := carts[user].items;
            var k := FindIndex(items, HasId(req.itemId.value));
            && (k.Some? && items[k.value].product !in catalog
                ==> UpdateOutcome(carts, user, catalog, req) == Failure(ServerError))
            && (k.Some? && items[k.value].product in catalog ==>
                var sizes := catalog[items[k.value].product].sizes;
                var s := FindIndex(sizes, SizeIs(items[k.value].size));
                && (s.None? ==> UpdateOutcome(carts, user, catalog, req) == Failure(ServerError))
                && (s.Some? && sizes[s.value].stock < req.quantity.value
                    ==> UpdateOutcome(carts, user, catalog, req) == Failure(InsufficientStock))
                && (s.Some? && req.quantity.value <= sizes[s.value].stock
                    ==> UpdateOutcome(carts, user, catalog, req) == Saved(items[k.value := items[k.value].(quantity := req.quantity.value)])))
  {
  }

  /** A successful remove keeps the cart consistent. */
  lemma {:induction false} RemoveKeepsConsistent(items: seq<LineItem>, itemId: ItemId, nextId: nat)
    requires ItemsConsistent(items, nextId)
    ensures ItemsConsistent(Filter(items, HasOtherId(itemId)), nextId)
  {
    var r := Filter(items, HasOtherId(itemId));
    FilterKeepsDistinct(items, HasOtherId(itemId), Key);
    FilterKeepsDistinct(items, HasOtherId(itemId), Id);
    FilterMembers(items, HasOtherId(itemId));
    forall i | 0 <= i < |r| ensures ItemSchemaValid(r[i]) && r[i].id < nextId {
      var j :| 0 <= j < |items| && items[j] == r[i];
    }
  }

  /** Removing an id the cart does not hold succeeds and leaves the cart as it was. */
  lemma {:induction false} RemoveAbsentIsNoOp(carts: map<UserId, CartRecord>, user: UserId, itemId: ItemId)
    requires user in carts && ItemsSchemaValid(carts[user].items)
    requires forall i :: 0 <= i < |carts[user].items| ==> carts[user].items[i].id != itemId
    ensures RemoveOutcome(carts, user, itemId) == Success(carts[user].items)
  {
    FilterAllKept(carts[user].items, HasOtherId(itemId));
  }

  /** Removing the line with a given id drops exactly that line, keeps the others in order,
      and lowers the totals by that line's quantity and line total. */
  lemma {:induction false} RemoveDropsOneLine(carts: map<UserId, CartRecord>, user: UserId, k: nat)
    requires user in carts && ItemsSchemaValid(carts[user].items) && UniqueIds(carts[user].items)
    requires k < |carts[user].items|
    ensures var items := carts[user].items;
            var out := RemoveOutcome(carts, user, items[k].id);
            && out == Success(items[..k] + items[k + 1..])
            && TotalItems(out.value) == TotalItems(items) - items[k].quantity
            && TotalPrice(out.value) == TotalPrice(items) - LineTotal(items[k])
  {
    var items := carts[user].items;
    var rest := items[..k] + items[k + 1..];
    FilterDropsOne(items, HasOtherId(items[k].id), k);
    assert forall i :: 0 <= i < |rest| ==> rest[i] == items[if i < k then i else i + 1];
    SumDropOne(items, k, Quantity);
    SumDropOne(items, k, LineTotal);
  }

  /** For an id the cart does not hold, remove succeeds as a no-op while update answers
      "Item not found in cart". */
  lemma {:induction false} RemoveAndUpdateOnMissingId(carts: map<UserId, CartRecord>, user: UserId,
                                   catalog: Catalog, itemId: ItemId, q: int)
    requires user in carts && ItemsSchemaValid(carts[user].items) && q >= 1
    requires forall i :: 0 <= i < |carts[user].items| ==> carts[user].items[i].id != itemId
    ensures RemoveOutcome(carts, user, itemId) == Success(carts[user].items)
    ensures UpdateOutcome(carts, user, catalog, UpdateRequest(Some(itemId), Some(q))) == Failure(ItemNotFound)
  {
    RemoveAbsentIsNoOp(carts, user, itemId);
  }

  /** Clearing an existing cart stores it with no items and zero totals. */
  lemma {:induction false} ClearGivesEmptyCart(carts: map<UserId, CartRecord>, user: UserId)
    requires user in carts
    ensures Reply(ClearOutcome(carts, user)) == Ok(EmptyCart)
    ensures Apply(carts, user, ClearOutcome(carts, user))[user] == EmptyCart
  {
    EmptyTotals();
  }
}

/** The per-user cart engine: getCart, addToCart, updateCartItem and
    removeFromCart over a store of cart documents, each re-deriving the
    cached total from current catalog prices (calculateTotal). */
module CartEngine {
  import opened Http
  import opened Seqs
  import opened CartModel
  import opened Text

  /** The catalog fields the cart reads for a product. */
  datatype Product = Product(price: int, stock: int)

  type Catalog = map<ProductId, Product>

  const MsgRequired: string := "Product ID and quantity are required"
  const MsgInvalidId: string := "Invalid product ID"
  const MsgProductNotFound: string := "Product not found"
  const MsgNotEnoughStock: string := "Not enough stock"
  const MsgExceedsStock: string := "Adding more would exceed available stock"
  const MsgCartNotFound: string := "Cart not found"
  const MsgItemNotFound: string := "Item not found in cart"
  /** The TypeError raised when a line's product has been deleted. */
  const MsgNullPrice: string := "Cannot read properties of null (reading 'price')"
  const MsgNullStock: string := "Cannot read properties of null (reading 'stock')"

  predicate IsHexDigit(c: char) {
    '0' <= c <= '9' || 'a' <= c <= 'f' || 'A' <= c <= 'F'
  }

  /** An object id in its 24-hex-digit string form. */
  predicate ValidObjectId(s: string) {
    |s| == 24 && forall i :: 0 <= i < |s| ==> IsHexDigit(s[i])
  }

  /** The string form of the object id a valid id string is cast to when it
      is looked up or stored: lower-case hex, whatever case it was sent in. */
  function CanonicalId(s: string): (r: string)
    ensures |r| == |s|
    ensures ValidObjectId(s) ==> ValidObjectId(r)
    ensures forall i :: 0 <= i < |r| ==> !('A' <= r[i] <= 'Z')
  {
    Lower(s)
  }

  // ---------------------------------------------------------------------
  // Line-sequence invariants

  predicate DistinctProducts(items: seq<CartItem>) {
    forall i, j :: 0 <= i < j < |items| ==> items[i].product != items[j].product
  }

  predicate DistinctIds(items: seq<CartItem>) {
    forall i, j :: 0 <= i < j < |items| ==> items[i].id != items[j].id
  }

  predicate IdsBelow(items: seq<CartItem>, bound: LineId) {
    forall i :: 0 <= i < |items| ==> items[i].id < bound
  }

  /** What every stored line sequence satisfies: schema-valid lines, at most
      one line per product, distinct line ids, all below the next unused id. */
  predicate LinesOk(items: seq<CartItem>, bound: LineId) {
    ItemsValid(items) && DistinctProducts(items) && DistinctIds(items) && IdsBelow(items, bound)
  }

  // ---------------------------------------------------------------------
  // Lookups (the `find` calls)

  function IndexOfProduct(items: seq<CartItem>, p: ProductId): int {
    FirstIndex(items, (it: CartItem) => it.product == p)
  }

  function IndexOfLine(items: seq<CartItem>, id: LineId): int {
    FirstIndex(items, (it: CartItem) => it.id == id)
  }

  // ---------------------------------------------------------------------
  // Totals (calculateTotal)

  /** Every line's product is still in the catalog. */
  predicate Resolves(items: seq<CartItem>, catalog: Catalog) {
    forall i :: 0 <= i < |items| ==> items[i].product in catalog
  }

  /** The sum over the lines of current price times quantity. */
  function Total(items: seq<CartItem>, catalog: Catalog): (r: int)
    requires Resolves(items, catalog)
    decreases |items|
  {
    if items == [] then 0
    else
      var last := items[|items| - 1];
      Total(items[..|items| - 1], catalog) + catalog[last.product].price * last.quantity
  }

  /** The running loop of calculateTotal: it fails on the first line whose
      product has been deleted, and otherwise yields the catalog total. */
  method CalculateTotal(items: seq<CartItem>, catalog: Catalog) returns (r: Result<int>)
    ensures r.Ok? <==> Resolves(items, catalog)
    ensures r.Ok? ==> r.value == Total(items, catalog)
    ensures r.Err? ==> r.error == Error(ServerError, MsgNullPrice)
  {
    var total := 0;
    var i := 0;
    while i < |items|
      invariant 0 <= i <= |items|
      invariant Resolves(items[..i], catalog)
      invariant total == Total(items[..i], catalog)
    {
      var item := items[i];
      if item.product !in catalog {
        return Err(Error(ServerError, MsgNullPrice));
      }
      assert items[..i + 1][..i] == items[..i];
      total := total + catalog[item.product].price * item.quantity;
      i := i + 1;
    }
    assert items[..i] == items;
    r := Ok(total);
  }

  lemma {:induction false} TotalAppend(a: seq<CartItem>, b: seq<CartItem>, catalog: Catalog)
    requires Resolves(a, catalog) && Resolves(b, catalog)
    ensures Resolves(a + b, catalog)
    ensures Total(a + b, catalog) == Total(a, catalog) + Total(b, catalog)
    decreases |b|
  {
    if b == [] {
      assert a + b == a;
    } else {
      var b' := b[..|b| - 1];
      assert (a + b)[..|a + b| - 1] == a + b';
      TotalAppend(a, b', catalog);
    }
  }

  /** One line totals its price times its quantity. */
  lemma TotalSingle(line: CartItem, catalog: Catalog)
    requires line.product in catalog
    ensures Resolves([line], catalog)
    ensures Total([line], catalog) == catalog[line.product].price * line.quantity
  {
    assert [line][..0] == [];
  }

  /** The total over lines split around one line. */
  lemma TotalAround(before: seq<CartItem>, line: CartItem, after: seq<CartItem>, catalog: Catalog)
    requires Resolves(before, catalog) && line.product in catalog && Resolves(after, catalog)
    ensures Resolves(before + [line] + after, catalog)
    ensures Total(before + [line] + after, catalog)
         == Total(before, catalog) + catalog[line.product].price * line.quantity + Total(after, catalog)
  {
    TotalAppend(before, [line], catalog);
    TotalAppend(before + [line], after, catalog);
    TotalSingle(line, catalog);
  }

  /** Setting one line's quantity to `q` moves the total by that line's price
      times the change in quantity. */
  lemma TotalWithQuantity(items: seq<CartItem>, k: int, q: int, catalog: Catalog)
    requires 0 <= k < |items| && Resolves(items, catalog)
    ensures Resolves(items[k := items[k].(quantity := q)], catalog)
    ensures Total(items[k := items[k].(quantity := q)], catalog)
         == Total(items, catalog) + catalog[items[k].product].price * (q - items[k].quantity)
  {
    var line := items[k];
    var before, after := items[..k], items[k + 1..];
    assert items == before + [line] + after;
    assert items[k := line.(quantity := q)] == before + [line.(quantity := q)] + after;
    TotalAround(before, line, after, catalog);
    TotalAround(before, line.(quantity := q), after, catalog);
  }

  // ---------------------------------------------------------------------
  // The line edits each handler makes

  /** The lines after adding `q` of product `p`: merged into the first line
      for `p`, or appended as a new line with id `newId`. */
  function Added(items: seq<CartItem>, p: ProductId, q: int, newId: LineId): (r: seq<CartItem>)
    ensures var k := IndexOfProduct(items, p);
            && |r| == |items| + (if k >= 0 then 0 else 1)
            && (forall i :: 0 <= i < |items| && i != k ==> r[i] == items[i])
            && (k >= 0 ==> r[k] == items[k].(quantity := items[k].quantity + q))
            && (k < 0 ==> r[|items|] == CartItem(newId, p, q))
  {
    var k := IndexOfProduct(items, p);
    if k >= 0 then items[k := items[k].(quantity := items[k].quantity + q)]
    else items + [CartItem(newId, p, q)]
  }

  /** The lines after updateCartItem sets line `k`'s quantity. */
  function WithQuantity(items: seq<CartItem>, k: int, q: int): (r: seq<CartItem>)
    requires 0 <= k < |items|
    ensures |r| == |items| && r[k].id == items[k].id && r[k].product == items[k].product
    ensures r[k].quantity == q
    ensures forall i :: 0 <= i < |items| && i != k ==> r[i] == items[i]
  {
    items[k := items[k].(quantity := q)]
  }

  /** The lines after removeFromCart: those whose id differs. */
  function Removed(items: seq<CartItem>, id: LineId): (r: seq<CartItem>)
    ensures |r| <= |items|
    ensures forall i :: 0 <= i < |r| ==> r[i] in items && r[i].id != id
    ensures forall i :: 0 <= i < |items| && items[i].id != id ==> items[i] in r
  {
    Filter(items, (it: CartItem) => it.id != id)
  }

  /** The lines getCart keeps: those whose product still exists. */
  function Resolved(items: seq<CartItem>, catalog: Catalog): (r: seq<CartItem>)
    ensures Resolves(r, catalog) && |r| <= |items|
    ensures forall i :: 0 <= i < |r| ==> r[i] in items
    ensures forall i :: 0 <= i < |items| && items[i].product in catalog ==> items[i] in r
  {
    Filter(items, (it: CartItem) => it.product in catalog)
  }

  /** The number of units of product `p` in the cart, over all its lines. */
  function Quantity(items: seq<CartItem>, p: ProductId): int
    decreases |items|
  {
    if items == [] then 0
    else
      var last := items[|items| - 1];
      Quantity(items[..|items| - 1], p) + (if last.product == p then last.quantity else 0)
  }

  lemma {:induction false} QuantityAppend(a: seq<CartItem>, b: seq<CartItem>, p: ProductId)
    ensures Quantity(a + b, p) == Quantity(a, p) + Quantity(b, p)
    decreases |b|
  {
    if b == [] {
      assert a + b == a;
    } else {
      var b' := b[..|b| - 1];
      assert (a + b)[..|a + b| - 1] == a + b';
      QuantityAppend(a, b', p);
    }
  }

  lemma QuantitySingle(line: CartItem, p: ProductId)
    ensures Quantity([line], p) == if line.product == p then line.quantity else 0
  {
    assert [line][..0] == [];
  }

  /** Adding grows the units of the added product by exactly `q` and leaves
      every other product's units unchanged, whether it merges or appends. */
  lemma AddedQuantity(items: seq<CartItem>, p: ProductId, q: int, newId: LineId, other: ProductId)
    ensures Quantity(Added(items, p, q, newId), other)
         == Quantity(items, other) + (if other == p then q else 0)
  {
    var k := IndexOfProduct(items, p);
    if k >= 0 {
      var line := items[k];
      var before, after := items[..k], items[k + 1..];
      assert items == before + [line] + after;
      var line' := line.(quantity := line.quantity + q);
      assert Added(items, p, q, newId) == before + [line'] + after;
      QuantityAppend(before, [line], other);
      QuantityAppend(before + [line], after, other);
      QuantityAppend(before, [line'], other);
      QuantityAppend(before + [line'], after, other);
      QuantitySingle(line, other);
      QuantitySingle(line', other);
    } else {
      QuantityAppend(items, [CartItem(newId, p, q)], other);
      QuantitySingle(CartItem(newId, p, q), other);
    }
  }

  /** Adding prices in at the current price of the added product, whether it
      merges or appends. */
  lemma AddedTotal(items: seq<CartItem>, p: ProductId, q: int, newId: LineId, catalog: Catalog)
    requires Resolves(items, catalog) && p in catalog
    ensures Resolves(Added(items, p, q, newId), catalog)
    ensures Total(Added(items, p, q, newId), catalog) == Total(items, catalog) + catalog[p].price * q
  {
    var k := IndexOfProduct(items, p);
    if k >= 0 {
      TotalWithQuantity(items, k, items[k].quantity + q, catalog);
    } else {
      var line := CartItem(newId, p, q);
      TotalAppend(items, [line], catalog);
      assert [line][..0] == [];
    }
  }

  /** Adding keeps one line per product and keeps line ids distinct when
      `newId` is above every existing id. */
  lemma AddedKeepsLines(items: seq<CartItem>, p: ProductId, q: int, newId: LineId)
    requires DistinctProducts(items) && DistinctIds(items) && IdsBelow(items, newId)
    ensures DistinctProducts(Added(items, p, q, newId))
    ensures DistinctIds(Added(items, p, q, newId))
    ensures IdsBelow(Added(items, p, q, newId), newId + 1)
    ensures |Added(items, p, q, newId)| == |items| + (if IndexOfProduct(items, p) >= 0 then 0 else 1)
  {
  }

  /** Adding `a` and then `b` of one product gives the lines adding `a + b`
      at once gives: one line whose quantity is the sum. */
  lemma AddedTwice(items: seq<CartItem>, p: ProductId, a: int, b: int, newId1: LineId, newId2: LineId)
    ensures Added(Added(items, p, a, newId1), p, b, newId2) == Added(items, p, a + b, newId1)
  {
    var once := Added(items, p, a, newId1);
    var k := IndexOfProduct(items, p);
    var k' := IndexOfProduct(once, p);
    if k >= 0 {
      assert once[k].product == p;
      assert forall j :: 0 <= j < k ==> once[j] == items[j];
      assert k' == k;
    } else {
      assert once[|items|].product == p;
      assert forall j :: 0 <= j < |items| ==> once[j] == items[j];
      assert k' == |items|;
    }
  }

  /** With 3 units in the cart and 5 in stock, adding 3 more is refused and
      adding 2 more merges into a single line of 5. */
  lemma StockLimitExample(p: ProductId, price: int, newId: LineId)
    ensures var items := [CartItem(0, p, 3)];
            var catalog := map[p := Product(price, 5)];
            && !MergeFits(items, p, 3, catalog)
            && MergeFits(items, p, 2, catalog)
            && Added(items, p, 2, newId) == [CartItem(0, p, 5)]
  {
    var items := [CartItem(0, p, 3)];
    assert IndexOfProduct(items, p) == 0;
  }

  /** A product's units are those of its one line when lines have distinct
      products. */
  lemma {:induction false} QuantityOfDistinct(items: seq<CartItem>, p: ProductId)
    requires DistinctProducts(items)
    ensures var k := IndexOfProduct(items, p);
            Quantity(items, p) == if k >= 0 then items[k].quantity else 0
    decreases |items|
  {
    if items != [] {
      var init, last := items[..|items| - 1], items[|items| - 1];
      assert DistinctProducts(init);
      QuantityOfDistinct(init, p);
      var j := IndexOfProduct(init, p);
      var k := IndexOfProduct(items, p);
      if j >= 0 {
        assert items[j] == init[j];
        assert last.product != p by {
          assert items[j].product == p;
        }
        assert k == j;
      } else if last.product == p {
        assert k == |init|;
      } else {
        assert k < 0;
      }
    }
  }

  /** The intended effect of the stock checks: with one line per product, a
      merge that fits and a quantity within stock, the cart never holds more
      units of the product than its stock. */
  lemma AddedWithinStock(items: seq<CartItem>, p: ProductId, q: int, newId: LineId, catalog: Catalog)
    requires p in catalog && DistinctProducts(items)
    requires catalog[p].stock >= q && MergeFits(items, p, q, catalog)
    ensures Quantity(Added(items, p, q, newId), p) <= catalog[p].stock
  {
    QuantityOfDistinct(items, p);
    AddedQuantity(items, p, q, newId, p);
  }

  /** addToCart's merge as written: the new line stores the canonical id,
      but `find` compares the stored lines with the id as sent. */
  function AddedAsWritten(items: seq<CartItem>, p: ProductId, q: int, newId: LineId): (r: seq<CartItem>)
    ensures |r| == |items| + (if IndexOfProduct(items, p) >= 0 then 0 else 1)
    ensures IndexOfProduct(items, p) < 0 ==> r[|items|] == CartItem(newId, CanonicalId(p), q)
  {
    var k := IndexOfProduct(items, p);
    if k >= 0 then items[k := items[k].(quantity := items[k].quantity + q)]
    else items + [CartItem(newId, CanonicalId(p), q)]
  }

  /** An id sent in upper case. */
  const UpperId: string := seq(24, _ => 'A')

  /** As written, an upper-case id never matches its own stored line: with
      3 of 5 units in the cart, adding 3 more passes every check and leaves
      two lines for one product holding 6 units. Matching on the canonical
      id refuses the same request. */
  lemma UpperCaseIdSplitsLine()
    ensures var c := CanonicalId(UpperId);
            var items := [CartItem(0, c, 3)];
            var catalog := map[c := Product(1, 5)];
            var after := AddedAsWritten(items, UpperId, 3, 1);
            && PassesGuards(UpperId, 3, catalog)
            && after == [CartItem(0, c, 3), CartItem(1, c, 3)]
            && !DistinctProducts(after)
            && Quantity(after, c) == 6 > catalog[c].stock
            && !MergeFits(items, c, 3, catalog)
  {
    var c := CanonicalId(UpperId);
    assert c[0] == 'a' && UpperId[0] == 'A';
    assert c != UpperId;
    var items := [CartItem(0, c, 3)];
    assert IndexOfProduct(items, UpperId) < 0;
    assert IndexOfProduct(items, c) == 0;
    var after := AddedAsWritten(items, UpperId, 3, 1);
    assert after == items + [CartItem(1, c, 3)];
    QuantityAppend(items, [CartItem(1, c, 3)], c);
    QuantitySingle(CartItem(0, c, 3), c);
    QuantitySingle(CartItem(1, c, 3), c);
  }

  /** Removing keeps exactly the lines with another id, in order; removing
      an absent id changes nothing, so removing twice is removing once. */
  lemma RemovedLines(items: seq<CartItem>, id: LineId)
    ensures forall i :: 0 <= i < |Removed(items, id)| ==> Removed(items, id)[i].id != id
    ensures forall i :: 0 <= i < |items| && items[i].id != id ==> items[i] in Removed(items, id)
    ensures IndexOfLine(items, id) < 0 ==> Removed(items, id) == items
    ensures Removed(Removed(items, id), id) == Removed(items, id)
  {
    var keep := (it: CartItem) => it.id != id;
    FilterIdempotent(items, keep);
    if IndexOfLine(items, id) < 0 {
      FilterAllKept(items, keep);
    }
  }

  /** Removal keeps the order of the remaining lines: it works on each part
      of a cart independently. */
  lemma RemovedAppend(a: seq<CartItem>, b: seq<CartItem>, id: LineId)
    ensures Removed(a + b, id) == Removed(a, id) + Removed(b, id)
  {
    FilterAppend(a, b, (it: CartItem) => it.id != id);
  }

  /** Filtering lines (remove, or drop deleted products) keeps every stored
      invariant. */
  lemma {:induction false} FilterKeepsLines(items: seq<CartItem>, keep: CartItem -> bool, bound: LineId)
    requires LinesOk(items, bound)
    ensures LinesOk(Filter(items, keep), bound)
    decreases |items|
  {
    if items != [] {
      var first, tail := items[0], items[1..];
      assert LinesOk(tail, bound);
      FilterKeepsLines(tail, keep, bound);
      var rest := Filter(tail, keep);
      if keep(first) {
        assert Filter(items, keep) == [first] + rest;
        forall i | 0 <= i < |rest|
          ensures rest[i].product != first.product && rest[i].id != first.id
        {
          var j :| 0 <= j < |tail| && tail[j] == rest[i];
          assert items[j + 1] == rest[i];
        }
        LinesCons(first, rest, bound);
      } else {
        assert Filter(items, keep) == rest;
      }
    }
  }

  /** A line put in front of valid lines keeps them valid when it is itself
      valid and shares neither product nor id with them. */
  lemma LinesCons(first: CartItem, rest: seq<CartItem>, bound: LineId)
    requires LinesOk(rest, bound)
    requires first.product != "" && first.quantity >= MinQuantity && first.id < bound
    requires forall i :: 0 <= i < |rest| ==> rest[i].product != first.product && rest[i].id != first.id
    ensures LinesOk([first] + rest, bound)
  {
    var r := [first] + rest;
    assert forall i :: 1 <= i < |r| ==> r[i] == rest[i - 1];
  }

  /** The stored form of a user's cart. */
  predicate WellFormed(c: Cart, u: UserId, bound: LineId) {
    c.user == u && LinesOk(c.items, bound)
  }

  // ---------------------------------------------------------------------
  // The store and the handlers

  /** The request passes every check addToCart makes before it reads the
      cart. */
  predicate PassesGuards(p: ProductId, q: int, catalog: Catalog) {
    p != "" && q != 0 && ValidObjectId(p) && CanonicalId(p) in catalog && catalog[CanonicalId(p)].stock >= q
  }

  /** The stock check on the merged quantity: either there is no line for the
      product, or the merged quantity fits the stock. */
  predicate MergeFits(items: seq<CartItem>, p: ProductId, q: int, catalog: Catalog)
    requires p in catalog
  {
    var k := IndexOfProduct(items, p);
    k < 0 || items[k].quantity + q <= catalog[p].stock
  }

  /** What adding does to the stored invariants: the added lines resolve
      exactly when the old ones did, and valid added lines keep every line
      invariant under the next unused id. */
  lemma AddedFacts(items: seq<CartItem>, p: ProductId, q: int, newId: LineId, catalog: Catalog)
    requires p in catalog && LinesOk(items, newId)
    ensures Resolves(Added(items, p, q, newId), catalog) <==> Resolves(items, catalog)
    ensures ItemsValid(Added(items, p, q, newId)) ==>
              LinesOk(Added(items, p, q, newId), if IndexOfProduct(items, p) >= 0 then newId else newId + 1)
  {
    var added := Added(items, p, q, newId);
    AddedKeepsLines(items, p, q, newId);
    assert forall i :: 0 <= i < |items| ==> added[i].product == items[i].product && added[i].id == items[i].id;
  }

  /** Raising the next unused id keeps every stored cart well formed. */
  lemma BoundRaised(carts: map<UserId, Cart>, bound: LineId)
    requires forall u | u in carts :: WellFormed(carts[u], u, bound)
    ensures forall u | u in carts :: WellFormed(carts[u], u, bound + 1)
  {
  }

  /** Storing a well-formed cart keeps every stored cart well formed. */
  lemma Stored(carts: map<UserId, Cart>, u: UserId, c: Cart, bound: LineId)
    requires forall v | v in carts :: WellFormed(carts[v], v, bound)
    requires WellFormed(c, u, bound)
    ensures var m := carts[u := c]; forall v | v in m :: WellFormed(m[v], v, bound)
  {
  }

  class CartStore {
    var carts: map<UserId, Cart>
    var nextLineId: LineId

    ghost predicate Valid()
      reads this
    {
      forall u | u in carts :: WellFormed(carts[u], u, nextLineId)
    }

    /** The lines of a user's cart, none when the user has no cart. */
    ghost function ItemsOf(u: UserId): seq<CartItem>
      reads this
    {
      if u in carts then carts[u].items else []
    }

    constructor ()
      ensures Valid() && carts == map[] && nextLineId == 0
    {
      carts := map[];
      nextLineId := 0;
    }

    /** getCart: create an empty cart for a user who has none; otherwise drop
        the lines whose product no longer exists, keep the cached total, and
        store the result. */
    method GetCart(user: UserId, catalog: Catalog) returns (cart: Cart)
      requires Valid()
      modifies this
      ensures Valid() && nextLineId == old(nextLineId)
      ensures carts == old(carts)[user := cart]
      ensures user !in old(carts) ==> cart == EmptyCart(user)
      ensures user in old(carts) ==>
                cart == old(carts[user]).(items := Resolved(old(carts[user]).items, catalog))
      ensures Resolves(cart.items, catalog)
    {
      if user !in carts {
        cart := EmptyCart(user);
      } else {
        cart := carts[user];
        FilterKeepsLines(cart.items, (it: CartItem) => it.product in catalog, nextLineId);
        cart := cart.(items := Resolved(cart.items, catalog));
      }
      carts := carts[user := cart];
    }

    /** The first step of addToCart past the guards: a user without a cart
        gets an empty one. */
    method EnsureCart(user: UserId)
      requires Valid()
      modifies this
      ensures Valid() && nextLineId == old(nextLineId) && user in carts
      ensures carts == if user in old(carts) then old(carts) else old(carts)[user := EmptyCart(user)]
      ensures ItemsOf(user) == old(ItemsOf(user))
    {
      if user !in carts {
        carts := carts[user := EmptyCart(user)];
      }
    }

    /** The rest of addToCart: the merge into the product's line or a new
        line, the stock check on a merged quantity, the recomputed total and
        the save. */
    method MergeLine(user: UserId, productId: ProductId, quantity: int, catalog: Catalog)
      returns (r: Result<Cart>)
      requires Valid() && user in carts && productId in catalog
      modifies this
      ensures Valid() && nextLineId >= old(nextLineId)
      ensures !MergeFits(old(ItemsOf(user)), productId, quantity, catalog) ==>
                r == Err(Error(BadRequest, MsgExceedsStock))
      ensures r.Err? ==> carts == old(carts)
      ensures r.Ok? <==>
                MergeFits(old(ItemsOf(user)), productId, quantity, catalog)
                && Resolves(old(ItemsOf(user)), catalog)
                && ItemsValid(Added(old(ItemsOf(user)), productId, quantity, old(nextLineId)))
      ensures r.Ok? ==>
                && carts == old(carts)[user := r.value]
                && r.value.user == user
                && r.value.items == Added(old(ItemsOf(user)), productId, quantity, old(nextLineId))
                && Resolves(r.value.items, catalog)
                && r.value.totalAmount == Total(r.value.items, catalog)
    {
      var items := carts[user].items;
      var k := IndexOfProduct(items, productId);
      if k >= 0 && items[k].quantity + quantity > catalog[productId].stock {
        return Err(Error(BadRequest, MsgExceedsStock));
      }
      var id := nextLineId;
      if k < 0 {
        BoundRaised(carts, nextLineId);
        nextLineId := nextLineId + 1;
      }
      AddedFacts(items, productId, quantity, id, catalog);
      items := Added(items, productId, quantity, id);
      var total := CalculateTotal(items, catalog);
      if total.Err? {
        return Err(total.error);
      }
      r := Validate(Cart(user, items, total.value));
      if r.Ok? {
        Stored(carts, user, r.value, nextLineId);
        carts := carts[user := r.value];
      }
    }

    /** addToCart: the guards in order, then the cart (created when
        missing), a merge into the product's line or a new line, the
        recomputed total and the save. The product is looked up, matched and
        stored under its canonical id (see UpperCaseIdSplitsLine for the
        match as written). */
    method AddToCart(user: UserId, productId: ProductId, quantity: int, catalog: Catalog)
      returns (r: Result<Cart>)
      requires Valid()
      modifies this
      ensures Valid() && nextLineId >= old(nextLineId)
      ensures productId == "" || quantity == 0 ==>
                r == Err(Error(BadRequest, MsgRequired)) && carts == old(carts)
      ensures productId != "" && quantity != 0 && !ValidObjectId(productId) ==>
                r == Err(Error(BadRequest, MsgInvalidId)) && carts == old(carts)
      ensures productId != "" && quantity != 0 && ValidObjectId(productId)
              && CanonicalId(productId) !in catalog ==>
                r == Err(Error(NotFound, MsgProductNotFound)) && carts == old(carts)
      ensures productId != "" && quantity != 0 && ValidObjectId(productId)
              && CanonicalId(productId) in catalog && catalog[CanonicalId(productId)].stock < quantity ==>
                r == Err(Error(BadRequest, MsgNotEnoughStock)) && carts == old(carts)
      ensures PassesGuards(productId, quantity, catalog) ==> user in carts
      ensures PassesGuards(productId, quantity, catalog)
              && !MergeFits(old(ItemsOf(user)), CanonicalId(productId), quantity, catalog) ==>
                r == Err(Error(BadRequest, MsgExceedsStock)) && carts == old(carts)
      ensures r.Err? ==>
                carts == old(carts) || (user !in old(carts) && carts == old(carts)[user := EmptyCart(user)])
      ensures r.Ok? <==>
                PassesGuards(productId, quantity, catalog)
                && MergeFits(old(ItemsOf(user)), CanonicalId(productId), quantity, catalog)
                && Resolves(old(ItemsOf(user)), catalog)
                && ItemsValid(Added(old(ItemsOf(user)), CanonicalId(productId), quantity, old(nextLineId)))
      ensures r.Ok? ==>
                && carts == old(carts)[user := r.value]
                && r.value.user == user
                && r.value.items == Added(old(ItemsOf(user)), CanonicalId(productId), quantity, old(nextLineId))
                && Resolves(r.value.items, catalog)
                && r.value.totalAmount == Total(r.value.items, catalog)
    {
      if productId == "" || quantity == 0 {
        return Err(Error(BadRequest, MsgRequired));
      }
      if !ValidObjectId(productId) {
        return Err(Error(BadRequest, MsgInvalidId));
      }
      var id := CanonicalId(productId);
      if id !in catalog {
        return Err(Error(NotFound, MsgProductNotFound));
      }
      if catalog[id].stock < quantity {
        return Err(Error(BadRequest, MsgNotEnoughStock));
      }
      EnsureCart(user);
      r := MergeLine(user, id, quantity, catalog);
    }

    /** updateCartItem: 404 without a cart or a line with that id; the
        line's product must still exist and have enough stock; then only that
        line's quantity changes and the total is recomputed. */
    method UpdateCartItem(user: UserId, lineId: LineId, quantity: int, catalog: Catalog)
      returns (r: Result<Cart>)
      requires Valid()
      modifies this
      ensures Valid() && nextLineId == old(nextLineId)
      ensures r.Err? ==> carts == old(carts)
      ensures user !in old(carts) ==> r == Err(Error(NotFound, MsgCartNotFound))
      ensures user in old(carts) ==>
                var items := old(carts[user].items);
                var k := IndexOfLine(items, lineId);
                && (k < 0 ==> r == Err(Error(NotFound, MsgItemNotFound)))
                && (k >= 0 && items[k].product !in catalog ==> r == Err(Error(ServerError, MsgNullStock)))
                && (k >= 0 && items[k].product in catalog && catalog[items[k].product].stock < quantity ==>
                      r == Err(Error(BadRequest, MsgNotEnoughStock)))
                && (r.Ok? <==> k >= 0 && items[k].product in catalog
                               && catalog[items[k].product].stock >= quantity
                               && Resolves(items, catalog) && quantity >= MinQuantity)
                && (r.Ok? ==>
                      && r.value.items == WithQuantity(items, k, quantity)
                      && Resolves(r.value.items, catalog)
                      && r.value.totalAmount == Total(r.value.items, catalog)
                      && r.value.user == user
                      && carts == old(carts)[user := r.value])
    {
      if user !in carts {
        return Err(Error(NotFound, MsgCartNotFound));
      }
      var cart := carts[user];
      var k := IndexOfLine(cart.items, lineId);
      if k < 0 {
        return Err(Error(NotFound, MsgItemNotFound));
      }
      var line := cart.items[k];
      if line.product !in catalog {
        return Err(Error(ServerError, MsgNullStock));
      }
      if catalog[line.product].stock < quantity {
        return Err(Error(BadRequest, MsgNotEnoughStock));
      }
      var items := WithQuantity(cart.items, k, quantity);
      assert forall i :: 0 <= i < |items| ==> items[i].product == cart.items[i].product;
      var total := CalculateTotal(items, catalog);
      if total.Err? {
        return Err(total.error);
      }
      r := Validate(cart.(items := items, totalAmount := total.value));
      if r.Ok? {
        carts := carts[user := r.value];
      }
    }

    /** removeFromCart: 404 without a cart; otherwise keep the lines with
        another id and recompute the total. */
    method RemoveFromCart(user: UserId, lineId: LineId, catalog: Catalog) returns (r: Result<Cart>)
      requires Valid()
      modifies this
      ensures Valid() && nextLineId == old(nextLineId)
      ensures r.Err? ==> carts == old(carts)
      ensures user !in old(carts) ==> r == Err(Error(NotFound, MsgCartNotFound))
      ensures user in old(carts) ==>
                var items := Removed(old(carts[user].items), lineId);
                && (Resolves(items, catalog) ==>
                      && r == Ok(old(carts[user]).(items := items, totalAmount := Total(items, catalog)))
                      && carts == old(carts)[user := r.value])
                && (!Resolves(items, catalog) ==> r == Err(Error(ServerError, MsgNullPrice)))
    {
      if user !in carts {
        return Err(Error(NotFound, MsgCartNotFound));
      }
      var cart := carts[user];
      var items := Removed(cart.items, lineId);
      FilterKeepsLines(cart.items, (it: CartItem) => it.id != lineId, nextLineId);
      var total := CalculateTotal(items, catalog);
      if total.Err? {
        return Err(total.error);
      }
      r := Ok(cart.(items := items, totalAmount := total.value));
      carts := carts[user := r.value];
    }
  }
}

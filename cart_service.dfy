/** The shopping-cart engine: one lazily created cart per user, whose lines
    snapshot the product price when they are added and whose quantities are
    checked against the product's stock on every add and update. */
module Carts {
  import opened Wrappers
  import opened JavaInt

  type UserId = int
  type ProductId = int
  type CartId = nat
  type LineId = nat

  /** The two product columns the cart engine reads (`precio`, `stock`). */
  datatype Product = Product(price: int, stock: int)

  /** A cart item: the price is the product's price when the line was created. */
  datatype CartLine = CartLine(id: LineId, productId: ProductId, quantity: int, unitPrice: int, cartId: CartId)

  datatype Cart = Cart(id: CartId, userId: UserId, lines: seq<CartLine>)

  datatype CartError =
    | ProductNotFound(productId: ProductId)
    | InsufficientStock(available: int)
    | LineNotFound(lineId: LineId)
    | NotOwner(lineId: LineId)

  /** What one line adds to the total: unit price times quantity. */
  function Subtotal(line: CartLine): int {
    line.unitPrice * line.quantity
  }

  /** No line has a negative price or quantity. */
  predicate NonNegativeLines(lines: seq<CartLine>) {
    forall k | 0 <= k < |lines| :: lines[k].unitPrice >= 0 && lines[k].quantity >= 0
  }

  /** The total of a cart: the stream `map(price * quantity).reduce(ZERO, add)`,
      a left fold over the lines that reads only the lines' price snapshots. */
  function LinesTotal(lines: seq<CartLine>): int {
    if lines == [] then 0 else LinesTotal(lines[..|lines| - 1]) + Subtotal(lines[|lines| - 1])
  }

  /** With no negative price or quantity the total is never negative. */
  lemma {:induction false} TotalNonNegative(lines: seq<CartLine>)
    requires NonNegativeLines(lines)
    ensures LinesTotal(lines) >= 0
  {
    if lines != [] {
      TotalNonNegative(lines[..|lines| - 1]);
      var last := lines[|lines| - 1];
      assert last.unitPrice >= 0 && last.quantity >= 0;
      assert Subtotal(last) >= 0;
    }
  }

  lemma {:induction false} TotalAppend(a: seq<CartLine>, b: seq<CartLine>)
    ensures LinesTotal(a + b) == LinesTotal(a) + LinesTotal(b)
    decreases |b|
  {
    if b == [] {
      assert a + b == a;
    } else {
      var b' := b[..|b| - 1];
      assert (a + b)[..|a + b| - 1] == a + b';
      TotalAppend(a, b');
    }
  }

  /** `s` with the element at index `i` taken out (`List.remove`). */
  function RemoveAt<T>(s: seq<T>, i: nat): (r: seq<T>)
    requires i < |s|
    ensures |r| == |s| - 1
    ensures forall k | 0 <= k < i :: r[k] == s[k]
    ensures forall k | i <= k < |r| :: r[k] == s[k + 1]
  {
    s[..i] + s[i + 1..]
  }

  /** The total splits around any one line. */
  lemma TotalSplit(lines: seq<CartLine>, i: nat)
    requires i < |lines|
    ensures LinesTotal(lines) == LinesTotal(lines[..i]) + Subtotal(lines[i]) + LinesTotal(lines[i + 1..])
  {
    var upTo := lines[..i + 1];
    assert upTo[..i] == lines[..i] && upTo[i] == lines[i];
    assert LinesTotal(upTo) == LinesTotal(lines[..i]) + Subtotal(lines[i]);
    assert lines == upTo + lines[i + 1..];
    TotalAppend(upTo, lines[i + 1..]);
  }

  /** Deleting a line lowers the total by exactly that line's contribution. */
  lemma TotalRemoveAt(lines: seq<CartLine>, i: nat)
    requires i < |lines|
    ensures LinesTotal(RemoveAt(lines, i)) == LinesTotal(lines) - Subtotal(lines[i])
  {
    TotalSplit(lines, i);
    TotalAppend(lines[..i], lines[i + 1..]);
  }

  /** Setting one line's quantity changes the total by its snapshot price times the difference. */
  lemma TotalSetQuantity(lines: seq<CartLine>, i: nat, quantity: int)
    requires i < |lines|
    ensures LinesTotal(lines[i := lines[i].(quantity := quantity)])
         == LinesTotal(lines) + lines[i].unitPrice * (quantity - lines[i].quantity)
  {
    var lines' := lines[i := lines[i].(quantity := quantity)];
    assert lines'[..i] == lines[..i] && lines'[i + 1..] == lines[i + 1..];
    TotalSplit(lines, i);
    TotalSplit(lines', i);
  }

  /** The first line for a product (`stream().filter(productId).findFirst()`). */
  function IndexOfProduct(lines: seq<CartLine>, productId: ProductId): (r: Option<nat>)
    ensures r.Some? ==> r.value < |lines| && lines[r.value].productId == productId
    ensures r.Some? ==> forall k | 0 <= k < r.value :: lines[k].productId != productId
    ensures r.None? <==> forall k | 0 <= k < |lines| :: lines[k].productId != productId
  {
    if lines == [] then None
    else if lines[0].productId == productId then Some(0)
    else match IndexOfProduct(lines[1..], productId)
      case None => None
      case Some(k) => Some(k + 1)
  }

  /** The position of the line with a given id. */
  function IndexOfLine(lines: seq<CartLine>, lineId: LineId): (r: Option<nat>)
    ensures r.Some? ==> r.value < |lines| && lines[r.value].id == lineId
    ensures r.None? <==> forall k | 0 <= k < |lines| :: lines[k].id != lineId
  {
    if lines == [] then None
    else if lines[0].id == lineId then Some(0)
    else match IndexOfLine(lines[1..], lineId)
      case None => None
      case Some(k) => Some(k + 1)
  }

  /** The increment branch's cumulative stock check with `int newQuantity =
      item.getQuantity() + quantity` evaluated as Java does, in 32 bits. */
  function IncrementAsWritten(current: int, quantity: int, stock: int): (r: Option<int>)
    requires IsInt(current) && IsInt(quantity) && IsInt(stock)
    ensures r.Some? ==> IsInt(r.value) && r.value <= stock
    ensures IsInt(current + quantity) ==> r == Increment(current, quantity, stock)
  {
    var newQuantity := Wrap(current + quantity);
    if stock < newQuantity then None else Some(newQuantity)
  }

  /** With the largest stock a Java `int` holds and a line already at that
      stock, adding one more unit passes the check and leaves a negative quantity. */
  lemma IncrementAsWrittenOverflows()
    ensures IncrementAsWritten(INT_MAX, 1, INT_MAX) == Some(INT_MIN)
    ensures Increment(INT_MAX, 1, INT_MAX) == None
  {
    assert Wrap(INT_MAX + 1) == INT_MIN;
  }

  /** The check as intended: the cumulative quantity is accepted exactly when
      the stock covers it, and then it is the new quantity. */
  function Increment(current: int, quantity: int, stock: int): (r: Option<int>)
    ensures r.None? <==> stock < current + quantity
    ensures r.Some? ==> r.value == current + quantity && r.value <= stock
  {
    if stock < current + quantity then None else Some(current + quantity)
  }

  /** Every line of a cart points back to that cart, has an id below the
      line counter and a different id from every other line of the cart, and
      names a product no other line of the cart names. */
  predicate WellFormedCart(c: Cart, lineBound: LineId) {
    && (forall k | 0 <= k < |c.lines| :: c.lines[k].cartId == c.id && c.lines[k].id < lineBound)
    && (forall j, k | 0 <= j < k < |c.lines| ::
          c.lines[j].id != c.lines[k].id && c.lines[j].productId != c.lines[k].productId)
  }

  predicate DisjointIds(a: seq<CartLine>, b: seq<CartLine>) {
    forall j, k | 0 <= j < |a| && 0 <= k < |b| :: a[j].id != b[k].id
  }

  /** One cart per user (the map key is its owner), cart ids below the cart
      counter and distinct, line ids unique across all carts. */
  ghost predicate StoreInvariant(carts: map<UserId, Cart>, cartBound: CartId, lineBound: LineId) {
    && (forall u | u in carts :: carts[u].userId == u && carts[u].id < cartBound && WellFormedCart(carts[u], lineBound))
    && (forall u, v | u in carts && v in carts && u != v ::
          carts[u].id != carts[v].id && DisjointIds(carts[u].lines, carts[v].lines))
  }

  /** Replacing (or adding) one user's cart by a well-formed cart with that
      user's cart id, whose line ids no other cart uses, keeps the invariant. */
  lemma StoreReplace(carts: map<UserId, Cart>, cartBound: CartId, lineBound: LineId,
                     userId: UserId, c: Cart, cartBound': CartId, lineBound': LineId)
    requires StoreInvariant(carts, cartBound, lineBound)
    requires cartBound <= cartBound' && lineBound <= lineBound'
    requires c.userId == userId && c.id < cartBound' && WellFormedCart(c, lineBound')
    requires userId in carts ==> c.id == carts[userId].id
    requires userId !in carts ==> c.id == cartBound
    requires forall v | v in carts && v != userId :: DisjointIds(c.lines, carts[v].lines)
    ensures StoreInvariant(carts[userId := c], cartBound', lineBound')
  {
    var m := carts[userId := c];
    forall u | u in m ensures m[u].userId == u && m[u].id < cartBound' && WellFormedCart(m[u], lineBound') {
      if u != userId {
        assert WellFormedCart(carts[u], lineBound);
      }
    }
    forall u, v | u in m && v in m && u != v ensures m[u].id != m[v].id && DisjointIds(m[u].lines, m[v].lines) {
      if u == userId {
        assert DisjointIds(c.lines, carts[v].lines);
      } else if v == userId {
        assert DisjointIds(c.lines, carts[u].lines);
      }
    }
  }

  /** Overwriting one line's quantity keeps the store invariant. */
  lemma SetQuantityKeepsStore(carts: map<UserId, Cart>, cartBound: CartId, lineBound: LineId,
                              userId: UserId, i: nat, quantity: int)
    requires StoreInvariant(carts, cartBound, lineBound)
    requires userId in carts && i < |carts[userId].lines|
    ensures var c := carts[userId];
      StoreInvariant(carts[userId := c.(lines := c.lines[i := c.lines[i].(quantity := quantity)])], cartBound, lineBound)
  {
    var c := carts[userId];
    var c' := c.(lines := c.lines[i := c.lines[i].(quantity := quantity)]);
    assert forall k | 0 <= k < |c.lines| :: c'.lines[k].id == c.lines[k].id;
    assert forall v | v in carts && v != userId :: DisjointIds(c'.lines, carts[v].lines) by {
      forall v | v in carts && v != userId ensures DisjointIds(c'.lines, carts[v].lines) {
        assert DisjointIds(c.lines, carts[v].lines);
      }
    }
    StoreReplace(carts, cartBound, lineBound, userId, c', cartBound, lineBound);
  }

  /** Deleting one line keeps the store invariant. */
  lemma RemoveKeepsStore(carts: map<UserId, Cart>, cartBound: CartId, lineBound: LineId, userId: UserId, i: nat)
    requires StoreInvariant(carts, cartBound, lineBound)
    requires userId in carts && i < |carts[userId].lines|
    ensures var c := carts[userId];
      StoreInvariant(carts[userId := c.(lines := RemoveAt(c.lines, i))], cartBound, lineBound)
  {
    var c := carts[userId];
    var c' := c.(lines := RemoveAt(c.lines, i));
    assert forall k | 0 <= k < |c'.lines| :: c'.lines[k] == c.lines[if k < i then k else k + 1];
    assert WellFormedCart(c', lineBound) by {
      forall j, k | 0 <= j < k < |c'.lines|
        ensures c'.lines[j].id != c'.lines[k].id && c'.lines[j].productId != c'.lines[k].productId
      {
        assert c'.lines[j] == c.lines[if j < i then j else j + 1];
        assert c'.lines[k] == c.lines[if k < i then k else k + 1];
      }
    }
    assert forall v | v in carts && v != userId :: DisjointIds(c'.lines, carts[v].lines) by {
      forall v | v in carts && v != userId ensures DisjointIds(c'.lines, carts[v].lines) {
        assert DisjointIds(c.lines, carts[v].lines);
      }
    }
    StoreReplace(carts, cartBound, lineBound, userId, c', cartBound, lineBound);
  }

  /** Appending a line with a fresh id, for a product the cart does not hold
      yet, keeps the store invariant once the line counter moves past it. */
  lemma AppendKeepsStore(carts: map<UserId, Cart>, cartBound: CartId, lineBound: LineId, userId: UserId, line: CartLine)
    requires StoreInvariant(carts, cartBound, lineBound)
    requires userId in carts && line.id == lineBound && line.cartId == carts[userId].id
    requires IndexOfProduct(carts[userId].lines, line.productId).None?
    ensures var c := carts[userId];
      StoreInvariant(carts[userId := c.(lines := c.lines + [line])], cartBound, lineBound + 1)
  {
    var c := carts[userId];
    var c' := c.(lines := c.lines + [line]);
    assert WellFormedCart(c', lineBound + 1);
    assert forall v | v in carts && v != userId :: DisjointIds(c'.lines, carts[v].lines) by {
      forall v | v in carts && v != userId ensures DisjointIds(c'.lines, carts[v].lines) {
        assert DisjointIds(c.lines, carts[v].lines);
        assert WellFormedCart(carts[v], lineBound);
      }
    }
    StoreReplace(carts, cartBound, lineBound, userId, c', cartBound, lineBound + 1);
  }


  /** Storing twice under one key keeps only the second value. */
  lemma UpdateTwice<K, V>(m: map<K, V>, k: K, a: V, b: V)
    ensures m[k := a][k := b] == m[k := b]
  {
  }

  /** The cart a call for `userId` works on: the stored one, or the empty
      cart `getOrCreateCartByUserId` would create with the next cart id. */
  function CartOf(carts: map<UserId, Cart>, nextCartId: CartId, userId: UserId): (c: Cart)
    ensures userId in carts ==> c == carts[userId]
    ensures userId !in carts ==> c == Cart(nextCartId, userId, [])
  {
    if userId in carts then carts[userId] else Cart(nextCartId, userId, [])
  }

  /** The cart counter after the caller's cart has been fetched or created. */
  function NextCartId(carts: map<UserId, Cart>, nextCartId: CartId, userId: UserId): (n: CartId)
    ensures n == nextCartId <==> userId in carts
    ensures nextCartId <= n <= nextCartId + 1
  {
    if userId in carts then nextCartId else nextCartId + 1
  }

  /** Fetching or creating the caller's cart keeps the store invariant, and
      the stored cart is the caller's and well formed. */
  lemma CreateKeepsStore(carts: map<UserId, Cart>, cartBound: CartId, lineBound: LineId, userId: UserId)
    requires StoreInvariant(carts, cartBound, lineBound)
    ensures StoreInvariant(carts[userId := CartOf(carts, cartBound, userId)], NextCartId(carts, cartBound, userId), lineBound)
    ensures CartOf(carts, cartBound, userId).userId == userId
    ensures WellFormedCart(CartOf(carts, cartBound, userId), lineBound)
  {
    if userId !in carts {
      StoreReplace(carts, cartBound, lineBound, userId, CartOf(carts, cartBound, userId), cartBound + 1, lineBound);
    } else {
      assert carts[userId := carts[userId]] == carts;
    }
  }

  /** Some cart, the caller's or another user's, has a line with this id (`cartItemRepository.findById`). */
  predicate AnyCartHasLine(carts: map<UserId, Cart>, lineId: LineId): (found: bool)
    ensures found <==> exists u, k | u in carts && 0 <= k < |carts[u].lines| :: carts[u].lines[k].id == lineId
  {
    exists u | u in carts :: IndexOfLine(carts[u].lines, lineId).Some?
  }

  /** Creating an empty cart does not make a line id appear or disappear. */
  lemma AddEmptyCartKeepsLines(carts: map<UserId, Cart>, userId: UserId, c: Cart, lineId: LineId)
    requires userId in carts ==> carts[userId] == c
    requires userId !in carts ==> c.lines == []
    ensures AnyCartHasLine(carts[userId := c], lineId) == AnyCartHasLine(carts, lineId)
  {
    var m := carts[userId := c];
    if AnyCartHasLine(m, lineId) {
      var u :| u in m && IndexOfLine(m[u].lines, lineId).Some?;
      assert u in carts && IndexOfLine(carts[u].lines, lineId).Some?;
    }
    if AnyCartHasLine(carts, lineId) {
      var u :| u in carts && IndexOfLine(carts[u].lines, lineId).Some?;
      assert u in m && IndexOfLine(m[u].lines, lineId).Some?;
    }
  }

  /** Under the store invariant, a line stored in any cart carries the caller's
      cart id exactly when it is one of the caller's lines, and then it is the
      line at its index there: the ownership test on `cartItem.getCart().getId()`
      and membership in the caller's cart agree. */
  lemma OwnershipByCartId(carts: map<UserId, Cart>, cartBound: CartId, lineBound: LineId, userId: UserId, line: CartLine)
    requires StoreInvariant(carts, cartBound, lineBound)
    requires userId in carts
    requires exists u | u in carts :: line in carts[u].lines
    ensures line.cartId == carts[userId].id <==> IndexOfLine(carts[userId].lines, line.id).Some?
    ensures IndexOfLine(carts[userId].lines, line.id).Some? ==>
              carts[userId].lines[IndexOfLine(carts[userId].lines, line.id).value] == line
  {
    var u :| u in carts && line in carts[u].lines;
    var k :| 0 <= k < |carts[u].lines| && carts[u].lines[k] == line;
    if u == userId {
      assert IndexOfLine(carts[u].lines, line.id).Some?;
    } else {
      assert line.cartId == carts[u].id;
    }
  }

  predicate LinesWithinStock(lines: seq<CartLine>, products: map<ProductId, Product>) {
    forall k | 0 <= k < |lines| ::
      lines[k].productId in products ==> lines[k].quantity <= products[lines[k].productId].stock
  }

  ghost predicate CartsWithinStock(carts: map<UserId, Cart>, products: map<ProductId, Product>) {
    forall u | u in carts :: LinesWithinStock(carts[u].lines, products)
  }

  lemma StockReplace(carts: map<UserId, Cart>, products: map<ProductId, Product>, userId: UserId, c: Cart)
    requires CartsWithinStock(carts, products) && LinesWithinStock(c.lines, products)
    ensures CartsWithinStock(carts[userId := c], products)
  {
  }

  /** Units of a product the cart holds: the quantity of its line, or zero. */
  function Held(lines: seq<CartLine>, productId: ProductId): int {
    match IndexOfProduct(lines, productId)
    case None => 0
    case Some(i) => lines[i].quantity
  }

  /** The product lookup reads only the product ids of the lines. */
  lemma IndexOfProductSameProducts(a: seq<CartLine>, b: seq<CartLine>, productId: ProductId)
    requires |a| == |b| && forall k | 0 <= k < |a| :: a[k].productId == b[k].productId
    ensures IndexOfProduct(a, productId) == IndexOfProduct(b, productId)
  {
    var ra, rb := IndexOfProduct(a, productId), IndexOfProduct(b, productId);
    if ra.Some? && rb.Some? {
      assert !(ra.value < rb.value) && !(rb.value < ra.value);
    }
  }

  /** Looking up a product in a cart with one more line at the end. */
  lemma IndexOfProductAppend(lines: seq<CartLine>, line: CartLine, productId: ProductId)
    ensures IndexOfProduct(lines + [line], productId) ==
      if IndexOfProduct(lines, productId).Some? then IndexOfProduct(lines, productId)
      else if line.productId == productId then Some(|lines|)
      else None
  {
    var extended := lines + [line];
    assert forall k | 0 <= k < |lines| :: extended[k] == lines[k];
    assert extended[|lines|] == line;
  }

  /** `addProductToCart` on the caller's cart `c` (already fetched or created):
      the product must exist and its stock cover the requested quantity; an
      existing line for the product grows, its cumulative quantity checked
      against the stock again; otherwise a new line with id `lineId` is
      appended at the product's current price. */
  function AddToCart(c: Cart, products: map<ProductId, Product>, productId: ProductId, quantity: int, lineId: LineId): (r: Result<Cart, CartError>)
    ensures r.Ok? ==> r.value.id == c.id && r.value.userId == c.userId
    ensures r.Ok? ==> |c.lines| <= |r.value.lines| <= |c.lines| + 1
    ensures r.Err? ==> r.error == ProductNotFound(productId) || r.error.InsufficientStock?
    ensures r.Err? && productId in products ==> r.error == InsufficientStock(products[productId].stock)
  {
    if productId !in products then Err(ProductNotFound(productId))
    else
      var product := products[productId];
      if product.stock < quantity then Err(InsufficientStock(product.stock))
      else match IndexOfProduct(c.lines, productId)
        case Some(i) =>
          (match Increment(c.lines[i].quantity, quantity, product.stock)
           case None => Err(InsufficientStock(product.stock))
           case Some(q) => Ok(c.(lines := c.lines[i := c.lines[i].(quantity := q)])))
        case None => Ok(c.(lines := c.lines + [CartLine(lineId, productId, quantity, product.price, c.id)]))
  }

  /** Adding fails exactly when the product is unknown, or when the stock is
      below the requested quantity or below what the cart would then hold. */
  lemma AddToCartFails(c: Cart, products: map<ProductId, Product>, productId: ProductId, quantity: int, lineId: LineId)
    ensures AddToCart(c, products, productId, quantity, lineId) == Err(ProductNotFound(productId)) <==> productId !in products
    ensures AddToCart(c, products, productId, quantity, lineId).Err? <==>
      productId !in products
      || products[productId].stock < quantity
      || products[productId].stock < Held(c.lines, productId) + quantity
  {
  }

  /** A successful add either grows the product's existing line by
      `quantity`, every other line untouched, or keeps every line and appends
      one with id `lineId`, the requested quantity and the product's current
      price. Either way the units held of that product rise by `quantity`,
      every other product's units stay, and the total rises by `quantity`
      times the line's price: the snapshot of an existing line, the current
      catalogue price for a new one. */
  lemma AddToCartEffect(c: Cart, products: map<ProductId, Product>, productId: ProductId, quantity: int, lineId: LineId)
    ensures var r := AddToCart(c, products, productId, quantity, lineId);
      r.Ok? && IndexOfProduct(c.lines, productId).Some? ==>
        var i := IndexOfProduct(c.lines, productId).value;
        r.value.lines == c.lines[i := c.lines[i].(quantity := c.lines[i].quantity + quantity)]
    ensures var r := AddToCart(c, products, productId, quantity, lineId);
      r.Ok? && IndexOfProduct(c.lines, productId).None? ==>
        && |r.value.lines| == |c.lines| + 1
        && r.value.lines[..|c.lines|] == c.lines
        && r.value.lines[|c.lines|] == CartLine(lineId, productId, quantity, products[productId].price, c.id)
    ensures var r := AddToCart(c, products, productId, quantity, lineId);
      r.Ok? ==>
        && Held(r.value.lines, productId) == Held(c.lines, productId) + quantity
        && (forall p | p != productId :: Held(r.value.lines, p) == Held(c.lines, p))
        && LinesTotal(r.value.lines) == LinesTotal(c.lines) +
             (match IndexOfProduct(c.lines, productId)
              case Some(i) => c.lines[i].unitPrice
              case None => products[productId].price) * quantity
  {
    var r := AddToCart(c, products, productId, quantity, lineId);
    if r.Ok? {
      match IndexOfProduct(c.lines, productId)
      case Some(i) =>
        var q := c.lines[i].quantity + quantity;
        var lines' := c.lines[i := c.lines[i].(quantity := q)];
        assert r.value.lines == lines';
        IndexOfProductSameProducts(c.lines, lines', productId);
        forall p | p != productId ensures Held(lines', p) == Held(c.lines, p) {
          IndexOfProductSameProducts(c.lines, lines', p);
        }
        TotalSetQuantity(c.lines, i, q);
      case None =>
        var line := CartLine(lineId, productId, quantity, products[productId].price, c.id);
        assert r.value.lines == c.lines + [line];
        IndexOfProductAppend(c.lines, line, productId);
        assert (c.lines + [line])[|c.lines|] == line;
        forall p | p != productId ensures Held(c.lines + [line], p) == Held(c.lines, p) {
          IndexOfProductAppend(c.lines, line, p);
          if IndexOfProduct(c.lines, p).Some? {
            assert (c.lines + [line])[IndexOfProduct(c.lines, p).value] == c.lines[IndexOfProduct(c.lines, p).value];
          }
        }
        TotalAppend(c.lines, [line]);
        assert [line][..0] == [];
        assert (c.lines + [line])[..|c.lines|] == c.lines;
    }
  }

  /** A successful add, stored back under the caller, keeps the store
      invariant with the counters advanced by the cart and line it created. */
  lemma AddToCartKeepsStore(carts: map<UserId, Cart>, cartBound: CartId, lineBound: LineId, userId: UserId,
                            products: map<ProductId, Product>, productId: ProductId, quantity: int, c: Cart, added: Cart,
                            carts': map<UserId, Cart>, cartBound': CartId, lineBound': LineId)
    requires StoreInvariant(carts, cartBound, lineBound)
    requires c == CartOf(carts, cartBound, userId)
    requires AddToCart(c, products, productId, quantity, lineBound) == Ok(added)
    requires carts' == carts[userId := added] && cartBound' == NextCartId(carts, cartBound, userId)
    requires lineBound' == lineBound + |added.lines| - |c.lines|
    ensures StoreInvariant(carts', cartBound', lineBound')
  {
    CreateKeepsStore(carts, cartBound, lineBound, userId);
    var carts1, cartBound1 := carts[userId := c], NextCartId(carts, cartBound, userId);
    UpdateTwice(carts, userId, c, added);
    match IndexOfProduct(c.lines, productId)
    case Some(i) =>
      var q := c.lines[i].quantity + quantity;
      assert added == c.(lines := c.lines[i := c.lines[i].(quantity := q)]);
      SetQuantityKeepsStore(carts1, cartBound1, lineBound, userId, i, q);
    case None =>
      var line := CartLine(lineBound, productId, quantity, products[productId].price, c.id);
      assert added == c.(lines := c.lines + [line]);
      AppendKeepsStore(carts1, cartBound1, lineBound, userId, line);
  }

  /** A successful add never puts more units on a line than its product's stock. */
  lemma AddToCartWithinStock(carts: map<UserId, Cart>, userId: UserId, products: map<ProductId, Product>,
                             productId: ProductId, quantity: int, lineId: LineId, c: Cart, added: Cart)
    requires CartsWithinStock(carts, products) && LinesWithinStock(c.lines, products)
    requires AddToCart(c, products, productId, quantity, lineId) == Ok(added)
    ensures CartsWithinStock(carts[userId := added], products)
  {
    assert LinesWithinStock(added.lines, products) by {
      forall k | 0 <= k < |added.lines| && added.lines[k].productId in products
        ensures added.lines[k].quantity <= products[added.lines[k].productId].stock
      {
        if k < |c.lines| && added.lines[k] != c.lines[k] {
          assert added.lines[k].productId == productId;
        }
      }
    }
    StockReplace(carts, products, userId, added);
  }

  /** `updateCartItemQuantity` against the stored carts: the line must exist
      somewhere and belong to the caller's cart, its product must exist and
      have stock for the new quantity; a quantity of zero or less deletes the
      line, any other overwrites its quantity. */
  function UpdateInStore(carts: map<UserId, Cart>, nextCartId: CartId, products: map<ProductId, Product>,
                         userId: UserId, lineId: LineId, newQuantity: int): (r: Result<Cart, CartError>)
    ensures r.Ok? ==> r.value.id == CartOf(carts, nextCartId, userId).id
    ensures r.Ok? ==> |r.value.lines| == |CartOf(carts, nextCartId, userId).lines| - (if newQuantity <= 0 then 1 else 0)
    ensures r == Err(LineNotFound(lineId)) <==> !AnyCartHasLine(carts, lineId)
    ensures AnyCartHasLine(carts, lineId) && IndexOfLine(CartOf(carts, nextCartId, userId).lines, lineId).None? ==>
              r == Err(NotOwner(lineId))
    ensures r.Ok? ==> IndexOfLine(CartOf(carts, nextCartId, userId).lines, lineId).Some?
    ensures var c := CartOf(carts, nextCartId, userId); var i := IndexOfLine(c.lines, lineId);
      r.Ok? <==> AnyCartHasLine(carts, lineId) && i.Some? && c.lines[i.value].productId in products
                 && newQuantity <= products[c.lines[i.value].productId].stock
    ensures var c := CartOf(carts, nextCartId, userId); var i := IndexOfLine(c.lines, lineId);
      AnyCartHasLine(carts, lineId) && i.Some? && c.lines[i.value].productId in products
      && products[c.lines[i.value].productId].stock < newQuantity ==>
        r == Err(InsufficientStock(products[c.lines[i.value].productId].stock))
    ensures var c := CartOf(carts, nextCartId, userId); var i := IndexOfLine(c.lines, lineId);
      AnyCartHasLine(carts, lineId) && i.Some? && c.lines[i.value].productId !in products ==>
        r == Err(ProductNotFound(c.lines[i.value].productId))
  {
    var c := CartOf(carts, nextCartId, userId);
    if !AnyCartHasLine(carts, lineId) then Err(LineNotFound(lineId))
    else match IndexOfLine(c.lines, lineId)
      case None => Err(NotOwner(lineId))
      case Some(i) =>
        var line := c.lines[i];
        if line.productId !in products then Err(ProductNotFound(line.productId))
        else if products[line.productId].stock < newQuantity then Err(InsufficientStock(products[line.productId].stock))
        else if newQuantity <= 0 then Ok(c.(lines := RemoveAt(c.lines, i)))
        else Ok(c.(lines := c.lines[i := line.(quantity := newQuantity)]))
  }

  /** `removeProductFromCart` against the stored carts: the same lookup and
      ownership test, then the line is deleted whatever its product's state. */
  function RemoveFromStore(carts: map<UserId, Cart>, nextCartId: CartId, userId: UserId, lineId: LineId): (r: Result<Cart, CartError>)
    ensures r.Ok? ==> r.value.id == CartOf(carts, nextCartId, userId).id
    ensures r.Ok? ==> |r.value.lines| == |CartOf(carts, nextCartId, userId).lines| - 1
    ensures r == Err(LineNotFound(lineId)) <==> !AnyCartHasLine(carts, lineId)
    ensures r.Err? ==> r.error == LineNotFound(lineId) || r.error == NotOwner(lineId)
    ensures AnyCartHasLine(carts, lineId) && IndexOfLine(CartOf(carts, nextCartId, userId).lines, lineId).None? ==>
              r == Err(NotOwner(lineId))
    ensures r.Ok? <==> AnyCartHasLine(carts, lineId) && IndexOfLine(CartOf(carts, nextCartId, userId).lines, lineId).Some?
  {
    var c := CartOf(carts, nextCartId, userId);
    if !AnyCartHasLine(carts, lineId) then Err(LineNotFound(lineId))
    else match IndexOfLine(c.lines, lineId)
      case None => Err(NotOwner(lineId))
      case Some(i) => Ok(c.(lines := RemoveAt(c.lines, i)))
  }

  /** Updating a line to zero units is removing it, once its product exists
      with no negative stock. */
  lemma UpdateToZeroRemoves(carts: map<UserId, Cart>, nextCartId: CartId, products: map<ProductId, Product>,
                            userId: UserId, lineId: LineId)
    requires forall p | p in products :: products[p].stock >= 0
    requires forall u | u in carts :: forall k | 0 <= k < |carts[u].lines| :: carts[u].lines[k].productId in products
    ensures UpdateInStore(carts, nextCartId, products, userId, lineId, 0) == RemoveFromStore(carts, nextCartId, userId, lineId)
  {
  }

  /** Under the store invariant, deleting the caller's line `lineId` leaves
      exactly the caller's other lines, in their order. */
  lemma RemoveLineEffect(carts: map<UserId, Cart>, cartBound: CartId, lineBound: LineId, userId: UserId, lineId: LineId)
    requires StoreInvariant(carts, cartBound, lineBound)
    ensures var c := CartOf(carts, cartBound, userId);
      var r := RemoveFromStore(carts, cartBound, userId, lineId);
      r.Ok? ==>
        && r.value.lines == RemoveAt(c.lines, IndexOfLine(c.lines, lineId).value)
        && (forall line :: line in r.value.lines <==> line in c.lines && line.id != lineId)
        && LinesTotal(r.value.lines) == LinesTotal(c.lines) - Subtotal(c.lines[IndexOfLine(c.lines, lineId).value])
  {
    var c := CartOf(carts, cartBound, userId);
    var r := RemoveFromStore(carts, cartBound, userId, lineId);
    if r.Ok? {
      CreateKeepsStore(carts, cartBound, lineBound, userId);
      var i := IndexOfLine(c.lines, lineId).value;
      var rest := RemoveAt(c.lines, i);
      assert r.value.lines == rest;
      TotalRemoveAt(c.lines, i);
      forall line ensures line in rest <==> line in c.lines && line.id != lineId {
        if line in rest {
          var k :| 0 <= k < |rest| && rest[k] == line;
          assert line == c.lines[if k < i then k else k + 1];
        }
        if line in c.lines && line.id != lineId {
          var k :| 0 <= k < |c.lines| && c.lines[k] == line;
          assert k != i;
          assert line == rest[if k < i then k else k - 1];
        }
      }
    }
  }

  /** Under the store invariant, a successful update to a positive quantity
      changes only the line `lineId`, to exactly that quantity, which the
      stock covers; one to zero or less is the removal of that line. */
  lemma UpdateLineEffect(carts: map<UserId, Cart>, cartBound: CartId, lineBound: LineId,
                         products: map<ProductId, Product>, userId: UserId, lineId: LineId, newQuantity: int)
    requires StoreInvariant(carts, cartBound, lineBound)
    ensures var c := CartOf(carts, cartBound, userId);
      var r := UpdateInStore(carts, cartBound, products, userId, lineId, newQuantity);
      r.Ok? ==>
        && (newQuantity <= 0 ==> r == RemoveFromStore(carts, cartBound, userId, lineId))
        && (newQuantity > 0 ==> forall k | 0 <= k < |c.lines| ::
              r.value.lines[k] == if c.lines[k].id == lineId then c.lines[k].(quantity := newQuantity) else c.lines[k])
        && newQuantity <= products[c.lines[IndexOfLine(c.lines, lineId).value].productId].stock
  {
    var c := CartOf(carts, cartBound, userId);
    var r := UpdateInStore(carts, cartBound, products, userId, lineId, newQuantity);
    if r.Ok? {
      CreateKeepsStore(carts, cartBound, lineBound, userId);
    }
  }

  /** A successful update moves the total by the line's snapshot price times
      the change in its quantity (a deleted line counts as zero units). */
  lemma UpdateLineTotal(carts: map<UserId, Cart>, cartBound: CartId,
                        products: map<ProductId, Product>, userId: UserId, lineId: LineId, newQuantity: int)
    ensures var c := CartOf(carts, cartBound, userId);
      var r := UpdateInStore(carts, cartBound, products, userId, lineId, newQuantity);
      r.Ok? ==>
        var line := c.lines[IndexOfLine(c.lines, lineId).value];
        LinesTotal(r.value.lines) == LinesTotal(c.lines) - Subtotal(line) + (if newQuantity <= 0 then 0 else line.unitPrice * newQuantity)
  {
    var c := CartOf(carts, cartBound, userId);
    var r := UpdateInStore(carts, cartBound, products, userId, lineId, newQuantity);
    if r.Ok? {
      var i := IndexOfLine(c.lines, lineId).value;
      if newQuantity <= 0 {
        TotalRemoveAt(c.lines, i);
      } else {
        TotalSetQuantity(c.lines, i, newQuantity);
      }
    }
  }

  /** A successful update or removal, stored back under the caller, keeps the
      store invariant and the stock bound. */
  lemma UpdateInStoreKeepsStore(carts: map<UserId, Cart>, cartBound: CartId, lineBound: LineId,
                                products: map<ProductId, Product>, userId: UserId, lineId: LineId, newQuantity: int)
    requires StoreInvariant(carts, cartBound, lineBound)
    ensures var r := UpdateInStore(carts, cartBound, products, userId, lineId, newQuantity);
      r.Ok? ==> StoreInvariant(carts[userId := r.value], NextCartId(carts, cartBound, userId), lineBound)
    ensures var r := UpdateInStore(carts, cartBound, products, userId, lineId, newQuantity);
      r.Ok? && CartsWithinStock(carts, products) ==> CartsWithinStock(carts[userId := r.value], products)
  {
    var c := CartOf(carts, cartBound, userId);
    var r := UpdateInStore(carts, cartBound, products, userId, lineId, newQuantity);
    if r.Ok? {
      CreateKeepsStore(carts, cartBound, lineBound, userId);
      var carts1, cartBound1 := carts[userId := c], NextCartId(carts, cartBound, userId);
      UpdateTwice(carts, userId, c, r.value);
      var i := IndexOfLine(c.lines, lineId).value;
      if newQuantity <= 0 {
        RemoveKeepsStore(carts1, cartBound1, lineBound, userId, i);
      } else {
        SetQuantityKeepsStore(carts1, cartBound1, lineBound, userId, i, newQuantity);
      }
      if CartsWithinStock(carts, products) {
        assert LinesWithinStock(c.lines, products);
        assert LinesWithinStock(r.value.lines, products) by {
          forall k | 0 <= k < |r.value.lines| && r.value.lines[k].productId in products
            ensures r.value.lines[k].quantity <= products[r.value.lines[k].productId].stock
          {
            if newQuantity <= 0 {
              assert r.value.lines[k] == c.lines[if k < i then k else k + 1];
            }
          }
        }
        StockReplace(carts, products, userId, r.value);
      }
    }
  }

  lemma RemoveFromStoreKeepsStore(carts: map<UserId, Cart>, cartBound: CartId, lineBound: LineId,
                                  products: map<ProductId, Product>, userId: UserId, lineId: LineId)
    requires StoreInvariant(carts, cartBound, lineBound)
    ensures var r := RemoveFromStore(carts, cartBound, userId, lineId);
      r.Ok? ==> StoreInvariant(carts[userId := r.value], NextCartId(carts, cartBound, userId), lineBound)
    ensures var r := RemoveFromStore(carts, cartBound, userId, lineId);
      r.Ok? && CartsWithinStock(carts, products) ==> CartsWithinStock(carts[userId := r.value], products)
  {
    var c := CartOf(carts, cartBound, userId);
    var r := RemoveFromStore(carts, cartBound, userId, lineId);
    if r.Ok? {
      CreateKeepsStore(carts, cartBound, lineBound, userId);
      var carts1, cartBound1 := carts[userId := c], NextCartId(carts, cartBound, userId);
      UpdateTwice(carts, userId, c, r.value);
      var i := IndexOfLine(c.lines, lineId).value;
      RemoveKeepsStore(carts1, cartBound1, lineBound, userId, i);
      if CartsWithinStock(carts, products) {
        assert LinesWithinStock(c.lines, products);
        assert LinesWithinStock(r.value.lines, products) by {
          forall k | 0 <= k < |r.value.lines| && r.value.lines[k].productId in products
            ensures r.value.lines[k].quantity <= products[r.value.lines[k].productId].stock
          {
            assert r.value.lines[k] == c.lines[if k < i then k else k + 1];
          }
        }
        StockReplace(carts, products, userId, r.value);
      }
    }
  }

  /** Fetching the caller's cart twice creates at most one cart: the second
      fetch returns the cart the first one stored and changes nothing. */
  lemma CreateIdempotent(carts: map<UserId, Cart>, nextCartId: CartId, userId: UserId)
    ensures var c := CartOf(carts, nextCartId, userId);
      var carts', next' := carts[userId := c], NextCartId(carts, nextCartId, userId);
      && CartOf(carts', next', userId) == c
      && carts'[userId := CartOf(carts', next', userId)] == carts'
      && NextCartId(carts', next', userId) == next'
  {
  }

  /** A product with stock 5 at price 1000: three units make a total of
      3000, three more are refused with the stock of 5 and leave the cart
      as it was, and setting the line to zero empties the cart. */
  lemma StockScenario(userId: UserId, productId: ProductId)
    ensures var products := map[productId := Product(1000, 5)];
      var empty := Cart(1, userId, []);
      var first := AddToCart(empty, products, productId, 3, 1);
      && first.Ok? && LinesTotal(first.value.lines) == 3000
      && AddToCart(first.value, products, productId, 3, 2) == Err(InsufficientStock(5))
      && var after := UpdateInStore(map[userId := first.value], 2, products, userId, 1, 0);
         after.Ok? && after.value.lines == [] && LinesTotal(after.value.lines) == 0
  {
    var products := map[productId := Product(1000, 5)];
    var line := CartLine(1, productId, 3, 1000, 1);
    var empty := Cart(1, userId, []);
    assert productId in products && products[productId] == Product(1000, 5);
    assert IndexOfProduct(empty.lines, productId) == None;
    assert empty.lines + [line] == [line];
    assert AddToCart(empty, products, productId, 3, 1) == Ok(empty.(lines := [line]));
    assert [line][..0] == [];
    var full := empty.(lines := [line]);
    assert IndexOfProduct(full.lines, productId) == Some(0);
    assert IndexOfLine(full.lines, 1) == Some(0);
    var store := map[userId := full];
    assert userId in store && IndexOfLine(store[userId].lines, 1).Some?;
  }

  /** The second half of `addProductToCart`, once the product is known to
      exist with enough stock for `quantity`: grow the product's line after
      checking the cumulative quantity, or append a new line with id `lineId`
      at the current price. */
  method IncrementOrAppend(cart: Cart, products: map<ProductId, Product>, productId: ProductId, quantity: int, lineId: LineId)
    returns (r: Result<Cart, CartError>)
    requires productId in products && quantity <= products[productId].stock
    ensures r == AddToCart(cart, products, productId, quantity, lineId)
  {
    var product := products[productId];
    match IndexOfProduct(cart.lines, productId) {
      case Some(i) =>
        var item := cart.lines[i];
        var newQuantity := Increment(item.quantity, quantity, product.stock);
        if newQuantity.None? {
          return Err(InsufficientStock(product.stock));
        }
        r := Ok(cart.(lines := cart.lines[i := item.(quantity := newQuantity.value)]));
      case None =>
        var newItem := CartLine(lineId, productId, quantity, product.price, cart.id);
        r := Ok(cart.(lines := cart.lines + [newItem]));
    }
  }

  /** The cart store: the product, cart and cart-item tables behind the
      repositories, and the identity counters the database would use. */
  class CartService {
    var products: map<ProductId, Product>
    var carts: map<UserId, Cart>
    var nextCartId: CartId
    var nextLineId: LineId

    ghost predicate Valid()
      reads this
    {
      StoreInvariant(carts, nextCartId, nextLineId)
    }

    /** No line holds more units than its product's stock (the catalogue is
        not changed by the cart engine). */
    ghost predicate StockRespected()
      reads this
    {
      CartsWithinStock(carts, products)
    }

    constructor (catalogue: map<ProductId, Product>)
      ensures Valid() && StockRespected()
      ensures products == catalogue && carts == map[]
    {
      products := catalogue;
      carts := map[];
      nextCartId := 1;
      nextLineId := 1;
    }

    /** `getOrCreateCartByUserId`: the user's cart, created empty on first use. */
    method GetOrCreateCart(userId: UserId) returns (cart: Cart)
      requires Valid()
      modifies this
      ensures Valid() && (old(StockRespected()) ==> StockRespected())
      ensures cart == CartOf(old(carts), old(nextCartId), userId) && cart.userId == userId
      ensures carts == old(carts)[userId := cart] && nextCartId == NextCartId(old(carts), old(nextCartId), userId)
      ensures userId in old(carts) ==> carts == old(carts)
      ensures products == old(products) && nextLineId == old(nextLineId)
    {
      CreateKeepsStore(carts, nextCartId, nextLineId, userId);
      if userId in carts {
        cart := carts[userId];
        assert carts[userId := cart] == carts;
      } else {
        cart := Cart(nextCartId, userId, []);
        ghost var withinStock := StockRespected();
        if withinStock {
          StockReplace(carts, products, userId, cart);
        }
        carts := carts[userId := cart];
        nextCartId := nextCartId + 1;
      }
    }

    /** `getCartByUserId`: the same lazy fetch, exposed to readers. */
    method GetCart(userId: UserId) returns (cart: Cart)
      requires Valid()
      modifies this
      ensures Valid() && (old(StockRespected()) ==> StockRespected())
      ensures cart == CartOf(old(carts), old(nextCartId), userId)
      ensures carts == old(carts)[userId := cart] && nextCartId == NextCartId(old(carts), old(nextCartId), userId)
      ensures products == old(products) && nextLineId == old(nextLineId)
    {
      cart := GetOrCreateCart(userId);
    }

    /** `findById` on the cart-item table: the line with that id, wherever it is. */
    method FindLine(lineId: LineId) returns (found: Option<CartLine>)
      ensures found.None? <==> !AnyCartHasLine(carts, lineId)
      ensures found.Some? ==> found.value.id == lineId
      ensures found.Some? ==> exists u | u in carts :: found.value in carts[u].lines
    {
      if AnyCartHasLine(carts, lineId) {
        var u :| u in carts && IndexOfLine(carts[u].lines, lineId).Some?;
        found := Some(carts[u].lines[IndexOfLine(carts[u].lines, lineId).value]);
      } else {
        found := None;
      }
    }

    /** `addProductToCart`, step by step as the service does it; a failed
        call leaves the tables and counters as they were (the transaction
        rolls back), a successful one stores the changed cart. */
    method AddProduct(userId: UserId, productId: ProductId, quantity: int) returns (r: Result<Cart, CartError>)
      requires Valid()
      modifies this
      ensures Valid() && (old(StockRespected()) ==> StockRespected())
      ensures products == old(products)
      ensures r == AddToCart(CartOf(old(carts), old(nextCartId), userId), products, productId, quantity, old(nextLineId))
      ensures r.Err? ==> carts == old(carts) && nextCartId == old(nextCartId) && nextLineId == old(nextLineId)
      ensures r.Ok? ==> carts == old(carts)[userId := r.value] && nextCartId == NextCartId(old(carts), old(nextCartId), userId)
      ensures r.Ok? ==> nextLineId == old(nextLineId) + |r.value.lines| - |CartOf(old(carts), old(nextCartId), userId).lines|
    {
      // the transaction's starting point, restored when the call throws
      var carts0, nextCartId0, nextLineId0 := carts, nextCartId, nextLineId;
      ghost var withinStock := StockRespected();
      ghost var c0 := CartOf(carts0, nextCartId0, userId);
      if productId !in products {
        return Err(ProductNotFound(productId));
      }
      var product := products[productId];
      if product.stock < quantity {
        return Err(InsufficientStock(product.stock));
      }
      var cart := GetOrCreateCart(userId);
      var added := IncrementOrAppend(cart, products, productId, quantity, nextLineId);
      if added.Err? {
        carts, nextCartId, nextLineId := carts0, nextCartId0, nextLineId0;
        return added;
      }
      if withinStock {
        AddToCartWithinStock(carts0, userId, products, productId, quantity, nextLineId0, c0, added.value);
      }
      if |added.value.lines| > |cart.lines| {
        nextLineId := nextLineId + 1;
      }
      cart := added.value;
      UpdateTwice(carts0, userId, c0, cart);
      carts := carts[userId := cart];
      AddToCartKeepsStore(carts0, nextCartId0, nextLineId0, userId, products, productId, quantity, c0, cart,
                          carts, nextCartId, nextLineId);
      r := Ok(cart);
    }

    /** `updateCartItemQuantity`, step by step: the ownership test compares
        cart ids, as the service does. */
    method UpdateQuantity(userId: UserId, lineId: LineId, newQuantity: int) returns (r: Result<Cart, CartError>)
      requires Valid()
      modifies this
      ensures Valid() && (old(StockRespected()) ==> StockRespected())
      ensures products == old(products)
      ensures r == UpdateInStore(old(carts), old(nextCartId), products, userId, lineId, newQuantity)
      ensures r.Err? ==> carts == old(carts) && nextCartId == old(nextCartId) && nextLineId == old(nextLineId)
      ensures r.Ok? ==> carts == old(carts)[userId := r.value] && nextCartId == NextCartId(old(carts), old(nextCartId), userId)
      ensures nextLineId == old(nextLineId)
    {
      var carts0, nextCartId0 := carts, nextCartId;
      ghost var withinStock := StockRespected();
      UpdateInStoreKeepsStore(carts0, nextCartId0, nextLineId, products, userId, lineId, newQuantity);
      var cart := GetOrCreateCart(userId);
      AddEmptyCartKeepsLines(carts0, userId, cart, lineId);
      var found := FindLine(lineId);
      if found.None? {
        carts, nextCartId := carts0, nextCartId0;
        return Err(LineNotFound(lineId));
      }
      var item := found.value;
      OwnershipByCartId(carts, nextCartId, nextLineId, userId, item);
      if item.cartId != cart.id {
        carts, nextCartId := carts0, nextCartId0;
        return Err(NotOwner(lineId));
      }
      var i := IndexOfLine(cart.lines, lineId).value;
      if item.productId !in products {
        carts, nextCartId := carts0, nextCartId0;
        return Err(ProductNotFound(item.productId));
      }
      var product := products[item.productId];
      if product.stock < newQuantity {
        carts, nextCartId := carts0, nextCartId0;
        return Err(InsufficientStock(product.stock));
      }
      if newQuantity <= 0 {
        cart := cart.(lines := RemoveAt(cart.lines, i));
      } else {
        cart := cart.(lines := cart.lines[i := item.(quantity := newQuantity)]);
      }
      UpdateTwice(carts0, userId, CartOf(carts0, nextCartId0, userId), cart);
      carts := carts[userId := cart];
      r := Ok(cart);
    }

    /** `removeProductFromCart`, step by step. */
    method RemoveLine(userId: UserId, lineId: LineId) returns (r: Result<Cart, CartError>)
      requires Valid()
      modifies this
      ensures Valid() && (old(StockRespected()) ==> StockRespected())
      ensures products == old(products)
      ensures r == RemoveFromStore(old(carts), old(nextCartId), userId, lineId)
      ensures r.Err? ==> carts == old(carts) && nextCartId == old(nextCartId) && nextLineId == old(nextLineId)
      ensures r.Ok? ==> carts == old(carts)[userId := r.value] && nextCartId == NextCartId(old(carts), old(nextCartId), userId)
      ensures nextLineId == old(nextLineId)
    {
      var carts0, nextCartId0 := carts, nextCartId;
      RemoveFromStoreKeepsStore(carts0, nextCartId0, nextLineId, products, userId, lineId);
      var cart := GetOrCreateCart(userId);
      AddEmptyCartKeepsLines(carts0, userId, cart, lineId);
      var found := FindLine(lineId);
      if found.None? {
        carts, nextCartId := carts0, nextCartId0;
        return Err(LineNotFound(lineId));
      }
      OwnershipByCartId(carts, nextCartId, nextLineId, userId, found.value);
      if found.value.cartId != cart.id {
        carts, nextCartId := carts0, nextCartId0;
        return Err(NotOwner(lineId));
      }
      var i := IndexOfLine(cart.lines, lineId).value;
      cart := cart.(lines := RemoveAt(cart.lines, i));
      UpdateTwice(carts0, userId, CartOf(carts0, nextCartId0, userId), cart);
      carts := carts[userId := cart];
      r := Ok(cart);
    }

    /** `clearCart`: the user's cart stays, with no lines. */
    method Clear(userId: UserId)
      requires Valid()
      modifies this
      ensures Valid() && (old(StockRespected()) ==> StockRespected())
      ensures carts == old(carts)[userId := CartOf(old(carts), old(nextCartId), userId).(lines := [])]
      ensures userId in carts && carts[userId].lines == [] && LinesTotal(carts[userId].lines) == 0
      ensures nextCartId == NextCartId(old(carts), old(nextCartId), userId)
      ensures products == old(products) && nextLineId == old(nextLineId)
    {
      ghost var withinStock := StockRespected();
      var cart := GetOrCreateCart(userId);
      cart := cart.(lines := []);
      StoreReplace(carts, nextCartId, nextLineId, userId, cart, nextCartId, nextLineId);
      if withinStock {
        StockReplace(carts, products, userId, cart);
      }
      UpdateTwice(old(carts), userId, CartOf(old(carts), old(nextCartId), userId), cart);
      carts := carts[userId := cart];
    }

    /** `calculateCartTotal`: fetch (or create) the cart and fold its lines. */
    method CartTotal(userId: UserId) returns (total: int)
      requires Valid()
      modifies this
      ensures Valid() && (old(StockRespected()) ==> StockRespected())
      ensures total == LinesTotal(CartOf(old(carts), old(nextCartId), userId).lines)
      ensures userId !in old(carts) ==> total == 0
      ensures carts == old(carts)[userId := CartOf(old(carts), old(nextCartId), userId)]
      ensures nextCartId == NextCartId(old(carts), old(nextCartId), userId)
      ensures products == old(products) && nextLineId == old(nextLineId)
    {
      var cart := GetOrCreateCart(userId);
      total := LinesTotal(cart.lines);
    }
  }
}

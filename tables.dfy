/**
 * The four tables of the store database (productos, carrito, pedidos,
 * detalles_pedidos) as row datatypes, and the effect of each SQL statement
 * of the data layer as a function over the rows. Tables are sequences in
 * rowid order. None of the queries has an ORDER BY, so SQL itself promises
 * no order; rowid order is what SQLite's plans for them give: a full scan
 * of the table, and for the join a scan of carrito with each product looked
 * up by its INTEGER PRIMARY KEY.
 *
 * Prices are whole cents: the schema's REAL columns hold currency amounts
 * with two decimals.
 */
module Tables {
  import opened Wrappers
  import opened SqlLike

  /** A row of `productos`; the nullable TEXT columns are options. */
  datatype Product = Product(
    id: int,
    name: string,
    category: string,
    price: int,
    description: Option<string>,
    stock: int,
    barcode: Option<string>,
    imageUrl: Option<string>)

  /** A row of `carrito`: the unit price is copied from the product when the line is created. */
  datatype CartLine = CartLine(id: int, productId: int, quantity: int, unitPrice: int)

  /** A row of `pedidos` (the creation timestamp is not modelled). */
  datatype Order = Order(id: int, total: int, status: string, address: string, gpsLocation: string)

  /** A row of `detalles_pedidos`. */
  datatype OrderDetail = OrderDetail(id: int, orderId: int, productId: int, quantity: int, unitPrice: int)

  /** A row of the cart view: (c.id, p.nombre, c.cantidad, c.precio_unitario, subtotal, p.id). */
  datatype CartRow = CartRow(lineId: int, productName: string, quantity: int, unitPrice: int, subtotal: int, productId: int)

  /** The default value of `pedidos.estado`. */
  const Pending: string := "pendiente"

  // ---------------------------------------------------------------------
  // Generic row selection: WHERE clauses and fetchone()

  /** r keeps some elements of s, in the order s has them. */
  ghost predicate IsSubsequence<T>(r: seq<T>, s: seq<T>)
    decreases |s|
  {
    if r == [] then true
    else if s == [] then false
    else if r[0] == s[0] then IsSubsequence(r[1..], s[1..])
    else IsSubsequence(r, s[1..])
  }

  /** The rows of s that satisfy the WHERE condition, in table order. */
  function Filter<T(!new)>(s: seq<T>, keep: T -> bool): (r: seq<T>)
    ensures forall x {:trigger x in r} {:trigger x in s} :: x in r <==> x in s && keep(x)
    ensures IsSubsequence(r, s)
  {
    if s == [] then []
    else if keep(s[0]) then [s[0]] + Filter(s[1..], keep)
    else
      var r := Filter(s[1..], keep);
      assert r != [] ==> r[0] != s[0] by {
        if r != [] { assert r[0] in r; }
      }
      r
  }

  /** `fetchone()` on a scan of s: the first row satisfying the condition. */
  function FindFirst<T>(s: seq<T>, pred: T -> bool): (r: Option<T>)
    ensures r.None? <==> forall i :: 0 <= i < |s| ==> !pred(s[i])
    ensures r.Some? ==>
      exists i :: 0 <= i < |s| && s[i] == r.value && pred(s[i]) &&
        forall j :: 0 <= j < i ==> !pred(s[j])
  {
    if s == [] then None
    else if pred(s[0]) then Some(s[0])
    else
      var r := FindFirst(s[1..], pred);
      assert forall i :: 1 <= i < |s| ==> s[1..][i - 1] == s[i];
      assert r.Some? ==>
        exists i :: 1 <= i < |s| && s[i] == r.value && pred(s[i]) &&
          forall j :: 0 <= j < i ==> !pred(s[j]);
      r
  }

  lemma {:induction false} FilterKeepsAll<T(!new)>(s: seq<T>, keep: T -> bool)
    requires forall x :: x in s ==> keep(x)
    ensures Filter(s, keep) == s
  {
    if s != [] {
      assert forall x :: x in s[1..] ==> x in s;
      FilterKeepsAll(s[1..], keep);
    }
  }

  lemma {:induction false} FilterKeepsNone<T(!new)>(s: seq<T>, keep: T -> bool)
    requires forall x :: x in s ==> !keep(x)
    ensures Filter(s, keep) == []
  {
    if s != [] {
      assert forall x :: x in s[1..] ==> x in s;
      FilterKeepsNone(s[1..], keep);
    }
  }

  /** Filtering a table scanned in two parts is filtering each part. */
  lemma {:induction false} FilterConcat<T(!new)>(a: seq<T>, b: seq<T>, keep: T -> bool)
    ensures Filter(a + b, keep) == Filter(a, keep) + Filter(b, keep)
  {
    if a != [] {
      assert (a + b)[1..] == a[1..] + b;
      FilterConcat(a[1..], b, keep);
    } else {
      assert a + b == b;
    }
  }

  /** Two WHERE conditions that agree on every row select the same rows. */
  lemma {:induction false} FilterAgrees<T(!new)>(s: seq<T>, f: T -> bool, g: T -> bool)
    requires forall x :: x in s ==> f(x) == g(x)
    ensures Filter(s, f) == Filter(s, g)
  {
    if s != [] {
      assert forall x :: x in s[1..] ==> x in s;
      FilterAgrees(s[1..], f, g);
    }
  }

  // ---------------------------------------------------------------------
  // get_productos and get_producto_por_codigo

  /** `if categoria and categoria != 'Todos'`: the category condition, skipped for None, '' or 'Todos'. */
  predicate CategoryPasses(p: Product, category: Option<string>)
  {
    match category
    case None => true
    case Some(c) => c == "" || c == "Todos" || p.category == c
  }

  /** `if busqueda`: `nombre LIKE '%t%' OR descripcion LIKE '%t%'`, skipped for None or ''. A NULL description never matches. */
  predicate SearchPasses(p: Product, search: Option<string>)
  {
    match search
    case None => true
    case Some(t) =>
      t == "" ||
      Like(p.name, ContainsPattern(t)) ||
      (p.description.Some? && Like(p.description.value, ContainsPattern(t)))
  }

  /** get_productos(categoria, busqueda): both conditions joined with AND, in table order. */
  function ListProducts(products: seq<Product>, category: Option<string>, search: Option<string>): (r: seq<Product>)
    ensures forall p :: p in r <==> p in products && CategoryPasses(p, category) && SearchPasses(p, search)
    ensures IsSubsequence(r, products)
  {
    Filter(products, p => CategoryPasses(p, category) && SearchPasses(p, search))
  }

  /** With neither filter, every product is listed, in table order. */
  lemma ListProductsUnfiltered(products: seq<Product>, category: Option<string>, search: Option<string>)
    requires category.None? || category == Some("") || category == Some("Todos")
    requires search.None? || search == Some("")
    ensures ListProducts(products, category, search) == products
  {
    FilterKeepsAll(products, p => CategoryPasses(p, category) && SearchPasses(p, search));
  }

  /** 'Todos' is the same as no category filter, whatever the search text. */
  lemma ListProductsTodos(products: seq<Product>, search: Option<string>)
    ensures ListProducts(products, Some("Todos"), search) == ListProducts(products, None, search)
  {
    FilterAgrees(products,
      p => CategoryPasses(p, Some("Todos")) && SearchPasses(p, search),
      p => CategoryPasses(p, None) && SearchPasses(p, search));
  }

  /** A category filter lists exactly the products of that category. */
  lemma ListProductsByCategory(products: seq<Product>, c: string, p: Product)
    requires c != "" && c != "Todos"
    ensures p in ListProducts(products, Some(c), None) <==> p in products && p.category == c
  {
  }

  /** When the products of category c come first in the table, the category filter lists exactly that block. */
  lemma ListProductsCategoryBlock(products: seq<Product>, c: string, k: nat)
    requires c != "" && c != "Todos" && k <= |products|
    requires forall i :: 0 <= i < |products| ==> (products[i].category == c <==> i < k)
    ensures ListProducts(products, Some(c), None) == products[..k]
  {
    var keep := (p: Product) => CategoryPasses(p, Some(c)) && SearchPasses(p, None);
    assert products == products[..k] + products[k..];
    FilterConcat(products[..k], products[k..], keep);
    forall p | p in products[..k] ensures keep(p) {
      var i :| 0 <= i < k && products[..k][i] == p;
      assert products[i] == p;
    }
    FilterKeepsAll(products[..k], keep);
    forall p | p in products[k..] ensures !keep(p) {
      var i :| 0 <= i < |products| - k && products[k..][i] == p;
      assert products[i + k] == p;
    }
    FilterKeepsNone(products[k..], keep);
  }

  /**
   * A search text with no wildcard characters lists exactly the products
   * whose name or description contains it, ignoring ASCII case.
   */
  lemma ListProductsBySearch(products: seq<Product>, t: string, p: Product)
    requires t != "" && Literal(t)
    ensures p in ListProducts(products, None, Some(t)) <==>
      p in products &&
      (ContainsFold(p.name, t) || (p.description.Some? && ContainsFold(p.description.value, t)))
  {
    LikeContainsIsSubstring(p.name, t);
    if p.description.Some? {
      LikeContainsIsSubstring(p.description.value, t);
    }
  }

  /** get_producto_por_codigo(codigo): the first product whose codigo_barras equals the code; NULL codes never match. */
  function FindByBarcode(products: seq<Product>, code: string): (r: Option<Product>)
    ensures r.None? <==> forall p {:trigger p in products} :: p in products ==> p.barcode != Some(code)
    ensures r.Some? ==> r.value in products && r.value.barcode == Some(code)
    ensures r.Some? ==>
      exists i :: 0 <= i < |products| && products[i] == r.value &&
        forall j :: 0 <= j < i ==> products[j].barcode != Some(code)
  {
    assert forall i :: 0 <= i < |products| ==> products[i] in products;
    FindFirst(products, (p: Product) => p.barcode == Some(code))
  }

  /** A code of a length no stored code has finds nothing. */
  lemma FindByBarcodeOtherLength(products: seq<Product>, code: string)
    requires forall i :: 0 <= i < |products| ==> products[i].barcode.Some? ==> |products[i].barcode.value| != |code|
    ensures FindByBarcode(products, code) == None
  {
    forall p | p in products ensures p.barcode != Some(code) {
      var i :| 0 <= i < |products| && products[i] == p;
    }
  }

  /** `SELECT precio FROM productos WHERE id = ?` followed by fetchone(): the first product with that id. */
  function ProductById(products: seq<Product>, id: int): (r: Option<Product>)
    ensures r.None? <==> forall p {:trigger p in products} :: p in products ==> p.id != id
    ensures r.Some? ==> r.value in products && r.value.id == id
  {
    if products == [] then None
    else if products[0].id == id then assert products[0] in products; Some(products[0])
    else
      assert forall p :: p in products <==> p == products[0] || p in products[1..];
      ProductById(products[1..], id)
  }

  /** The lookup by id returns the first product with that id, in table order. */
  lemma {:induction false} ProductByIdFirst(products: seq<Product>, id: int)
    requires ProductById(products, id).Some?
    ensures
      exists i :: 0 <= i < |products| && products[i] == ProductById(products, id).value &&
        forall j :: 0 <= j < i ==> products[j].id != id
  {
    if products[0].id != id {
      var tail := products[1..];
      ProductByIdFirst(tail, id);
      var k :| 0 <= k < |tail| && tail[k] == ProductById(tail, id).value &&
        forall j :: 0 <= j < k ==> tail[j].id != id;
      forall j | 0 <= j < k + 1 ensures products[j].id != id {
        if j > 0 { assert products[j] == tail[j - 1]; }
      }
      assert products[k + 1] == tail[k];
    } else {
      assert products[0] == ProductById(products, id).value;
    }
  }

  ghost predicate UniqueProductIds(products: seq<Product>)
  {
    forall i, j :: 0 <= i < |products| && 0 <= j < |products| && i != j ==> products[i].id != products[j].id
  }

  /** With the primary key unique, the lookup by id finds the one product with that id. */
  lemma {:induction false} ProductByIdUnique(products: seq<Product>, p: Product)
    requires UniqueProductIds(products)
    requires p in products
    ensures ProductById(products, p.id) == Some(p)
  {
    var i :| 0 <= i < |products| && products[i] == p;
    var r := ProductById(products, p.id);
    var j :| 0 <= j < |products| && products[j] == r.value && r.value.id == p.id;
    assert i == j;
  }

  // ---------------------------------------------------------------------
  // carrito: agregar_al_carrito, the cart view, DELETE statements

  /** `SELECT * FROM carrito WHERE producto_id = ?` followed by fetchone(): the first line of that product. */
  function LineFor(cart: seq<CartLine>, productId: int): (r: Option<CartLine>)
    ensures r.None? <==> forall l {:trigger l in cart} :: l in cart ==> l.productId != productId
    ensures r.Some? ==> r.value in cart && r.value.productId == productId
    ensures r.Some? ==>
      exists i :: 0 <= i < |cart| && cart[i] == r.value &&
        forall j :: 0 <= j < i ==> cart[j].productId != productId
  {
    assert forall i :: 0 <= i < |cart| ==> cart[i] in cart;
    FindFirst(cart, (l: CartLine) => l.productId == productId)
  }

  /** The invariant agregar_al_carrito keeps: at most one line per product. */
  ghost predicate OneLinePerProduct(cart: seq<CartLine>)
  {
    forall i, j :: 0 <= i < |cart| && 0 <= j < |cart| && i != j ==> cart[i].productId != cart[j].productId
  }

  /** `UPDATE carrito SET cantidad = ? WHERE producto_id = ?`: every line of the product gets the new quantity. */
  function SetQuantity(cart: seq<CartLine>, productId: int, quantity: int): (r: seq<CartLine>)
    ensures |r| == |cart|
    ensures forall i {:trigger r[i]} :: 0 <= i < |cart| ==>
      r[i].id == cart[i].id && r[i].productId == cart[i].productId && r[i].unitPrice == cart[i].unitPrice &&
      r[i].quantity == (if cart[i].productId == productId then quantity else cart[i].quantity)
  {
    if cart == [] then []
    else
      var l := cart[0];
      var rest := SetQuantity(cart[1..], productId, quantity);
      var r := [if l.productId == productId then l.(quantity := quantity) else l] + rest;
      assert forall i :: 1 <= i < |cart| ==> r[i] == rest[i - 1] && cart[i] == cart[1..][i - 1];
      r
  }

  /**
   * The cart table after agregar_al_carrito(productId, quantity), or None when
   * the call fails: a product without a cart line whose id names no product
   * makes `fetchone()[0]` raise, and nothing is committed.
   * nextId is the id AUTOINCREMENT gives the next inserted line.
   */
  function CartAfterAdd(products: seq<Product>, cart: seq<CartLine>, nextId: int, productId: int, quantity: int): (r: Option<seq<CartLine>>)
    ensures r.None? <==> LineFor(cart, productId).None? && ProductById(products, productId).None?
  {
    var existing := LineFor(cart, productId);
    if existing.Some? then Some(SetQuantity(cart, productId, existing.value.quantity + quantity))
    else
      var product := ProductById(products, productId);
      if product.None? then None
      else Some(cart + [CartLine(nextId, productId, quantity, product.value.price)])
  }

  /** When the product already has a line, the add is the UPDATE of that line's quantity to the sum. */
  lemma {:induction false} AddIsUpdate(products: seq<Product>, cart: seq<CartLine>, nextId: int, productId: int, quantity: int, line: CartLine, newQuantity: int)
    requires LineFor(cart, productId) == Some(line)
    requires newQuantity == line.quantity + quantity
    ensures CartAfterAdd(products, cart, nextId, productId, quantity) == Some(SetQuantity(cart, productId, newQuantity))
  {
  }

  /**
   * Adding a product that already has a line (the only one, by the invariant)
   * adds to that line's quantity and changes nothing else: same lines, same
   * ids, same frozen unit prices, and still one line per product.
   */
  lemma {:induction false} AddMergesIntoLine(products: seq<Product>, cart: seq<CartLine>, nextId: int, productId: int, quantity: int, line: CartLine, newQuantity: int)
    requires OneLinePerProduct(cart)
    requires LineFor(cart, productId) == Some(line)
    requires newQuantity == line.quantity + quantity
    ensures var r := SetQuantity(cart, productId, newQuantity);
      && CartAfterAdd(products, cart, nextId, productId, quantity) == Some(r)
      && |r| == |cart|
      && OneLinePerProduct(r)
      && LineFor(r, productId) == Some(line.(quantity := newQuantity))
      && forall i :: 0 <= i < |cart| ==>
           r[i].id == cart[i].id && r[i].unitPrice == cart[i].unitPrice &&
           (cart[i].productId != productId ==> r[i] == cart[i])
  {
    SetQuantityFindsLine(cart, productId, newQuantity, line);
    AddIsUpdate(products, cart, nextId, productId, quantity, line, newQuantity);
  }

  /** Setting a product's quantity keeps one line per product, and the lookup then finds its line with the new quantity. */
  lemma {:induction false} SetQuantityFindsLine(cart: seq<CartLine>, productId: int, newQuantity: int, line: CartLine)
    requires OneLinePerProduct(cart)
    requires LineFor(cart, productId) == Some(line)
    ensures OneLinePerProduct(SetQuantity(cart, productId, newQuantity))
    ensures LineFor(SetQuantity(cart, productId, newQuantity), productId) == Some(line.(quantity := newQuantity))
  {
    var r := SetQuantity(cart, productId, newQuantity);
    var k :| 0 <= k < |cart| && cart[k] == line;
    assert r[k] == line.(quantity := newQuantity);
    forall i, j | 0 <= i < |r| && 0 <= j < |r| && i != j ensures r[i].productId != r[j].productId {
      assert cart[i].productId != cart[j].productId;
    }
    LineForUnique(r, k);
  }

  /** With one line per product, the lookup by product finds that product's line. */
  lemma {:induction false} LineForUnique(cart: seq<CartLine>, k: nat)
    requires OneLinePerProduct(cart) && k < |cart|
    ensures LineFor(cart, cart[k].productId) == Some(cart[k])
  {
    assert cart[k] in cart;
    var l := LineFor(cart, cart[k].productId).value;
    var j :| 0 <= j < |cart| && cart[j] == l;
    assert j == k;
  }

  /**
   * Adding a product with no line appends exactly one line holding the
   * requested quantity and the product's current price, keeps the earlier
   * lines as they were, and keeps one line per product.
   */
  lemma {:induction false} AddInsertsLine(products: seq<Product>, cart: seq<CartLine>, nextId: int, productId: int, quantity: int)
    requires OneLinePerProduct(cart)
    requires LineFor(cart, productId).None?
    requires ProductById(products, productId).Some?
    ensures var r := CartAfterAdd(products, cart, nextId, productId, quantity);
      var added := CartLine(nextId, productId, quantity, ProductById(products, productId).value.price);
      && r == Some(cart + [added])
      && OneLinePerProduct(r.value)
      && LineFor(r.value, productId) == Some(added)
  {
    var added := CartLine(nextId, productId, quantity, ProductById(products, productId).value.price);
    var r := cart + [added];
    assert forall i :: 0 <= i < |cart| ==> r[i] == cart[i] && cart[i] in cart;
    assert OneLinePerProduct(r);
    LineForUnique(r, |cart|);
  }

  /** A failed add leaves nothing to write: the product has no line and does not exist. */
  lemma AddFailsOnlyForUnknownProduct(products: seq<Product>, cart: seq<CartLine>, nextId: int, productId: int, quantity: int)
    requires CartAfterAdd(products, cart, nextId, productId, quantity).None?
    ensures forall p :: p in products ==> p.id != productId
    ensures forall l :: l in cart ==> l.productId != productId
  {
  }

  /** Applying agregar_al_carrito(productId, q) for each q in qs, one after another. */
  function AddAll(products: seq<Product>, cart: seq<CartLine>, nextId: int, productId: int, qs: seq<int>): (r: Option<seq<CartLine>>)
    decreases |qs|
  {
    if qs == [] then Some(cart)
    else
      match CartAfterAdd(products, cart, nextId, productId, qs[0])
      case None => None
      case Some(cart') =>
        AddAll(products, cart', if |cart'| > |cart| then nextId + 1 else nextId, productId, qs[1..])
  }

  function SumOf(qs: seq<int>): int
  {
    if qs == [] then 0 else qs[0] + SumOf(qs[1..])
  }

  /**
   * Repeated adds of one product that already has a line leave exactly one
   * line for it, holding the first add's unit price and the sum of all
   * quantities, and the cart keeps its length.
   */
  lemma {:induction false} AddAllAccumulates(products: seq<Product>, cart: seq<CartLine>, nextId: int, productId: int, qs: seq<int>, line: CartLine)
    requires OneLinePerProduct(cart)
    requires LineFor(cart, productId) == Some(line)
    ensures AddAll(products, cart, nextId, productId, qs).Some?
    ensures |AddAll(products, cart, nextId, productId, qs).value| == |cart|
    ensures OneLinePerProduct(AddAll(products, cart, nextId, productId, qs).value)
    ensures LineFor(AddAll(products, cart, nextId, productId, qs).value, productId).Some?
    ensures var merged := LineFor(AddAll(products, cart, nextId, productId, qs).value, productId).value;
      merged.id == line.id && merged.quantity == line.quantity + SumOf(qs) && merged.unitPrice == line.unitPrice
    decreases |qs|
  {
    if qs != [] {
      var cart' := SetQuantity(cart, productId, line.quantity + qs[0]);
      var line' := CartLine(line.id, productId, line.quantity + qs[0], line.unitPrice);
      assert && |cart'| == |cart|
             && OneLinePerProduct(cart')
             && LineFor(cart', productId) == Some(line')
             && AddAll(products, cart, nextId, productId, qs) == AddAll(products, cart', nextId, productId, qs[1..])
      by {
        assert CartAfterAdd(products, cart, nextId, productId, qs[0]) == Some(cart');
        AddMergesIntoLine(products, cart, nextId, productId, qs[0], line, line.quantity + qs[0]);
      }
      AddAllAccumulates(products, cart', nextId, productId, qs[1..], line');
      assert SumOf(qs) == qs[0] + SumOf(qs[1..]);
    }
  }

  /**
   * From a cart without the product, a series of adds leaves one line for it
   * whose unit price is the product's price at the first add and whose
   * quantity is the sum of the requested quantities.
   */
  lemma {:induction false} FirstAddFreezesPrice(products: seq<Product>, cart: seq<CartLine>, nextId: int, productId: int, qs: seq<int>)
    requires OneLinePerProduct(cart)
    requires LineFor(cart, productId).None?
    requires ProductById(products, productId).Some?
    requires qs != []
    ensures var r := AddAll(products, cart, nextId, productId, qs);
      && r.Some?
      && |r.value| == |cart| + 1
      && OneLinePerProduct(r.value)
      && LineFor(r.value, productId) == Some(CartLine(nextId, productId, SumOf(qs), ProductById(products, productId).value.price))
  {
    AddInsertsLine(products, cart, nextId, productId, qs[0]);
    var cart' := CartAfterAdd(products, cart, nextId, productId, qs[0]).value;
    AddAllAccumulates(products, cart', nextId + 1, productId, qs[1..], LineFor(cart', productId).value);
  }

  /** Every cart line names an existing product, so the inner join drops none. */
  ghost predicate AllLinesJoin(products: seq<Product>, cart: seq<CartLine>)
  {
    forall l :: l in cart ==> ProductById(products, l.productId).Some?
  }

  /** The joined row of a line and its product; the subtotal is computed, never stored. */
  function RowOf(line: CartLine, p: Product): CartRow
  {
    CartRow(line.id, p.name, line.quantity, line.unitPrice, line.quantity * line.unitPrice, p.id)
  }

  /** The cart view joins one line with the product it names. */
  ghost predicate RowMatches(products: seq<Product>, cart: seq<CartLine>, row: CartRow)
  {
    && (exists l :: l in cart && l.id == row.lineId && l.productId == row.productId &&
          l.quantity == row.quantity && l.unitPrice == row.unitPrice)
    && (exists p :: p in products && p.id == row.productId && p.name == row.productName)
    && row.subtotal == row.quantity * row.unitPrice
  }

  /** get_carrito(): `carrito c JOIN productos p ON c.producto_id = p.id`, in cart order. */
  function CartView(products: seq<Product>, cart: seq<CartLine>): (r: seq<CartRow>)
    ensures |r| <= |cart|
    ensures forall row :: row in r ==> RowMatches(products, cart, row)
  {
    if cart == [] then []
    else
      var rest := CartView(products, cart[1..]);
      assert forall row :: row in rest ==> RowMatches(products, cart, row) by {
        forall row | row in rest ensures RowMatches(products, cart, row) {
          var l :| l in cart[1..] && l.id == row.lineId && l.productId == row.productId &&
            l.quantity == row.quantity && l.unitPrice == row.unitPrice;
          assert l in cart;
        }
      }
      match ProductById(products, cart[0].productId)
      case None => rest
      case Some(p) =>
        assert RowMatches(products, cart, RowOf(cart[0], p)) by { assert cart[0] in cart; }
        [RowOf(cart[0], p)] + rest
  }

  /** The inner join drops exactly the lines whose product is missing: the view is empty iff no line joins. */
  lemma {:induction false} CartViewEmpty(products: seq<Product>, cart: seq<CartLine>)
    ensures CartView(products, cart) == [] <==> forall l :: l in cart ==> ProductById(products, l.productId).None?
  {
    if cart != [] {
      CartViewEmpty(products, cart[1..]);
      assert forall l :: l in cart <==> l == cart[0] || l in cart[1..];
    }
  }

  /** When every line joins, the view is empty exactly when the cart is: checkout's emptiness test. */
  lemma {:induction false} CartViewEmptyIffCartEmpty(products: seq<Product>, cart: seq<CartLine>)
    requires AllLinesJoin(products, cart)
    ensures CartView(products, cart) == [] <==> cart == []
  {
    CartViewEmpty(products, cart);
    if cart != [] {
      assert cart[0] in cart;
    }
  }

  /** When every line joins, the view has one row per line, in cart order. */
  lemma {:induction false} CartViewPerLine(products: seq<Product>, cart: seq<CartLine>)
    requires AllLinesJoin(products, cart)
    ensures |CartView(products, cart)| == |cart|
    ensures forall i :: 0 <= i < |cart| ==>
      CartView(products, cart)[i] == RowOf(cart[i], ProductById(products, cart[i].productId).value)
  {
    if cart != [] {
      var tail := cart[1..];
      assert AllLinesJoin(products, tail) by {
        assert forall l :: l in tail ==> l in cart;
      }
      CartViewPerLine(products, tail);
      assert cart[0] in cart;
      var p := ProductById(products, cart[0].productId).value;
      var rest := CartView(products, tail);
      CartViewCons(products, cart, p);
      var r := [RowOf(cart[0], p)] + rest;
      forall i | 1 <= i < |cart| ensures r[i] == RowOf(cart[i], ProductById(products, cart[i].productId).value) {
        assert r[i] == rest[i - 1] && cart[i] == tail[i - 1];
      }
    }
  }

  /** A line whose product is missing is dropped by the inner join. */
  lemma {:induction false} CartViewSkip(products: seq<Product>, cart: seq<CartLine>)
    requires cart != [] && ProductById(products, cart[0].productId).None?
    ensures CartView(products, cart) == CartView(products, cart[1..])
  {
  }

  /** A line whose product exists puts its row at the head of the view. */
  lemma {:induction false} CartViewCons(products: seq<Product>, cart: seq<CartLine>, p: Product)
    requires cart != [] && ProductById(products, cart[0].productId) == Some(p)
    ensures CartView(products, cart) == [RowOf(cart[0], p)] + CartView(products, cart[1..])
  {
  }

  /** `sum(item[4] for item in items)`: the total of the cart view's subtotals. */
  function Total(rows: seq<CartRow>): (r: int)
    ensures (forall i :: 0 <= i < |rows| ==> rows[i].subtotal >= 0) ==> r >= 0
  {
    if rows == [] then 0 else rows[0].subtotal + Total(rows[1..])
  }

  /** The cart's worth: quantity times frozen unit price, summed over the lines. */
  function CartTotal(cart: seq<CartLine>): int
  {
    if cart == [] then 0 else cart[0].quantity * cart[0].unitPrice + CartTotal(cart[1..])
  }

  /** When every line joins, the view's total is the cart's worth. */
  lemma {:induction false} ViewTotalIsCartTotal(products: seq<Product>, cart: seq<CartLine>)
    requires AllLinesJoin(products, cart)
    ensures Total(CartView(products, cart)) == CartTotal(cart)
  {
    if cart != [] {
      assert forall l :: l in cart[1..] ==> l in cart;
      assert cart[0] in cart;
      ViewTotalIsCartTotal(products, cart[1..]);
    }
  }

  /** The WHERE condition of `DELETE FROM carrito WHERE id = ?`, negated: the lines that stay. */
  function OtherLine(lineId: int): CartLine -> bool
  {
    (l: CartLine) => l.id != lineId
  }

  /** `DELETE FROM carrito WHERE id = ?` */
  function WithoutLine(cart: seq<CartLine>, lineId: int): (r: seq<CartLine>)
    ensures forall l :: l in r <==> l in cart && l.id != lineId
    ensures IsSubsequence(r, cart)
  {
    Filter(cart, OtherLine(lineId))
  }

  /** Deleting an id no line has leaves the cart as it was. */
  lemma {:induction false} WithoutUnknownLine(cart: seq<CartLine>, lineId: int)
    requires forall l :: l in cart ==> l.id != lineId
    ensures WithoutLine(cart, lineId) == cart
  {
    FilterKeepsAll(cart, OtherLine(lineId));
  }

  /** A condition that fails on exactly one row removes that row and keeps the rest in order. */
  lemma {:induction false} FilterDropsOne<T(!new)>(s: seq<T>, keep: T -> bool, k: nat)
    requires k < |s| && !keep(s[k])
    requires forall i :: 0 <= i < |s| && i != k ==> keep(s[i])
    ensures Filter(s, keep) == s[..k] + s[k + 1..]
    decreases |s|
  {
    var tail := s[1..];
    if k == 0 {
      forall x | x in tail ensures keep(x) {
        var j :| 0 <= j < |tail| && tail[j] == x;
        assert s[j + 1] == x;
      }
      FilterKeepsAll(tail, keep);
      assert s[..0] + s[1..] == tail;
    } else {
      assert keep(s[0]);
      assert Filter(s, keep) == [s[0]] + Filter(tail, keep);
      assert !keep(tail[k - 1]) by { assert tail[k - 1] == s[k]; }
      forall i | 0 <= i < |tail| && i != k - 1 ensures keep(tail[i]) {
        assert tail[i] == s[i + 1];
      }
      FilterDropsOne(tail, keep, k - 1);
      assert s[..k] == [s[0]] + tail[..k - 1];
      assert s[k + 1..] == tail[k..];
    }
  }

  ghost predicate UniqueLineIds(cart: seq<CartLine>)
  {
    forall i, j :: 0 <= i < |cart| && 0 <= j < |cart| && i != j ==> cart[i].id != cart[j].id
  }

  /** With unique line ids, deleting an existing id removes exactly that one line. */
  lemma WithoutLineRemovesOne(cart: seq<CartLine>, k: nat)
    requires UniqueLineIds(cart)
    requires k < |cart|
    ensures WithoutLine(cart, cart[k].id) == cart[..k] + cart[k + 1..]
  {
    assert cart[k] in cart;
    FilterDropsOne(cart, OtherLine(cart[k].id), k);
  }

  /** With unique line ids, deleting the id of any line removes exactly that line. */
  lemma {:induction false} WithoutLineRemovesMatching(cart: seq<CartLine>, lineId: int)
    requires UniqueLineIds(cart)
    ensures forall k :: 0 <= k < |cart| && cart[k].id == lineId ==>
      WithoutLine(cart, lineId) == cart[..k] + cart[k + 1..]
  {
    forall k | 0 <= k < |cart| && cart[k].id == lineId
      ensures WithoutLine(cart, lineId) == cart[..k] + cart[k + 1..]
    {
      WithoutLineRemovesOne(cart, k);
    }
  }

  // ---------------------------------------------------------------------
  // crear_pedido: one detail row per cart-view row

  /** The detail rows crear_pedido inserts for the given view rows, with consecutive ids from firstId. */
  function DetailsFor(orderId: int, rows: seq<CartRow>, firstId: int): (r: seq<OrderDetail>)
    ensures |r| == |rows|
    ensures forall i :: 0 <= i < |rows| ==>
      r[i] == OrderDetail(firstId + i, orderId, rows[i].productId, rows[i].quantity, rows[i].unitPrice)
    decreases |rows|
  {
    if rows == [] then []
    else
      var rest := DetailsFor(orderId, rows[1..], firstId + 1);
      var r := [OrderDetail(firstId, orderId, rows[0].productId, rows[0].quantity, rows[0].unitPrice)] + rest;
      assert forall i :: 1 <= i < |rows| ==> r[i] == rest[i - 1] && rows[i] == rows[1..][i - 1];
      r
  }

  /** One more loop iteration appends one detail row, numbered firstId + i, after the rows already inserted. */
  lemma {:induction false} DetailsForSnoc(inserted: seq<OrderDetail>, orderId: int, rows: seq<CartRow>, firstId: int, i: nat, detailId: int)
    requires i < |rows| && detailId == firstId + i
    ensures inserted + DetailsFor(orderId, rows[..i + 1], firstId) ==
      inserted + DetailsFor(orderId, rows[..i], firstId) +
      [OrderDetail(detailId, orderId, rows[i].productId, rows[i].quantity, rows[i].unitPrice)]
  {
    var a := DetailsFor(orderId, rows[..i + 1], firstId);
    var b := DetailsFor(orderId, rows[..i], firstId) +
      [OrderDetail(detailId, orderId, rows[i].productId, rows[i].quantity, rows[i].unitPrice)];
    assert |a| == |b|;
    forall k | 0 <= k < |a| ensures a[k] == b[k] {
      assert rows[..i + 1][k] == rows[k];
      if k < i {
        assert rows[..i][k] == rows[k];
      }
    }
    assert a == b;
    assert inserted + DetailsFor(orderId, rows[..i], firstId) + [b[i]] == inserted + b;
  }

  /** The worth of the order's detail rows. */
  function DetailsTotal(details: seq<OrderDetail>): int
  {
    if details == [] then 0 else details[0].quantity * details[0].unitPrice + DetailsTotal(details[1..])
  }

  /** The details copy every view row, so the order total is the sum of the detail subtotals. */
  lemma {:induction false} DetailsTotalIsViewTotal(orderId: int, rows: seq<CartRow>, firstId: int)
    requires forall row :: row in rows ==> row.subtotal == row.quantity * row.unitPrice
    ensures DetailsTotal(DetailsFor(orderId, rows, firstId)) == Total(rows)
    decreases |rows|
  {
    if rows != [] {
      assert forall row :: row in rows[1..] ==> row in rows;
      DetailsTotalIsViewTotal(orderId, rows[1..], firstId + 1);
    }
  }

  /**
   * The order snapshot: when every line joins, the details of a new order
   * copy the cart line for line (product, quantity, frozen unit price), and
   * their worth is the cart's total.
   */
  lemma {:induction false} SnapshotOfCart(products: seq<Product>, cart: seq<CartLine>, orderId: int, firstId: int)
    requires AllLinesJoin(products, cart)
    ensures var ds := DetailsFor(orderId, CartView(products, cart), firstId);
      && |ds| == |cart|
      && (forall i :: 0 <= i < |cart| ==>
            ds[i].orderId == orderId && ds[i].productId == cart[i].productId &&
            ds[i].quantity == cart[i].quantity && ds[i].unitPrice == cart[i].unitPrice)
      && DetailsTotal(ds) == Total(CartView(products, cart)) == CartTotal(cart)
  {
    var rows := CartView(products, cart);
    CartViewPerLine(products, cart);
    forall i | 0 <= i < |cart| ensures rows[i].productId == cart[i].productId {
      assert cart[i] in cart;
    }
    DetailsTotalIsViewTotal(orderId, rows, firstId);
    ViewTotalIsCartTotal(products, cart);
  }
}

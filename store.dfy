/**
 * The data layer as state: DatabaseManager owns the four tables and the
 * AUTOINCREMENT counters, and its methods apply the SQL statements of
 * agregar_al_carrito, limpiar_carrito and crear_pedido to them. CartScreen
 * holds the two cart actions built on it: removing one line and checkout.
 * Each method is one committed transaction.
 */
module Store {
  import opened Wrappers
  import opened Tables
  import Seed

  /** The delivery address checkout gives every order. */
  const ShippingAddress: string := "Dirección de envío"

  ghost predicate ProductIdsIncreasing(products: seq<Product>)
  {
    forall i, j :: 0 <= i < j < |products| ==> products[i].id < products[j].id
  }

  /** Line ids are handed out in increasing order and each names a catalogue product; one line per product. */
  ghost predicate CartValid(products: seq<Product>, cart: seq<CartLine>, nextCartId: int)
  {
    && (forall i, j :: 0 <= i < j < |cart| ==> cart[i].id < cart[j].id)
    && (forall i :: 0 <= i < |cart| ==> cart[i].id < nextCartId)
    && OneLinePerProduct(cart)
    && AllLinesJoin(products, cart)
  }

  ghost predicate OrdersValid(orders: seq<Order>, nextOrderId: int)
  {
    && (forall i, j :: 0 <= i < j < |orders| ==> orders[i].id < orders[j].id)
    && (forall i :: 0 <= i < |orders| ==> orders[i].id < nextOrderId)
  }

  /** Detail ids increase, and every detail belongs to an order already created. */
  ghost predicate DetailsValid(details: seq<OrderDetail>, nextDetailId: int, nextOrderId: int)
  {
    && (forall i, j :: 0 <= i < j < |details| ==> details[i].id < details[j].id)
    && (forall i :: 0 <= i < |details| ==> details[i].id < nextDetailId && details[i].orderId < nextOrderId)
  }

  lemma CartIdsUnique(cart: seq<CartLine>)
    requires forall i, j :: 0 <= i < j < |cart| ==> cart[i].id < cart[j].id
    ensures UniqueLineIds(cart)
  {
    forall i, j | 0 <= i < |cart| && 0 <= j < |cart| && i != j ensures cart[i].id != cart[j].id {
      if i < j { assert cart[i].id < cart[j].id; } else { assert cart[j].id < cart[i].id; }
    }
  }

  class DatabaseManager {
    var products: seq<Product>
    var cart: seq<CartLine>
    var orders: seq<Order>
    var details: seq<OrderDetail>
    /** For each table that grows, the id AUTOINCREMENT gives its next row. */
    var nextCartId: int
    var nextOrderId: int
    var nextDetailId: int

    ghost predicate Valid()
      reads this
    {
      && ProductIdsIncreasing(products)
      && CartValid(products, cart, nextCartId)
      && OrdersValid(orders, nextOrderId)
      && DetailsValid(details, nextDetailId, nextOrderId)
    }

    /** init_database on a fresh file: empty tables, then the sample catalogue. */
    constructor ()
      ensures Valid()
      ensures products == Seed.Catalogue()
      ensures cart == [] && orders == [] && details == []
      ensures nextCartId == 1 && nextOrderId == 1 && nextDetailId == 1
    {
      Seed.CatalogueRows();
      products := Seed.Catalogue();
      cart := [];
      orders := [];
      details := [];
      nextCartId := 1;
      nextOrderId := 1;
      nextDetailId := 1;
    }

    /**
     * agregar_al_carrito(producto_id, cantidad=1). ok is false when the
     * product has no line and no row in productos: the source's
     * `fetchone()[0]` raises there and nothing is written.
     */
    method AddToCart(productId: int, quantity: int := 1) returns (ok: bool)
      requires Valid()
      modifies this`cart, this`nextCartId
      ensures Valid()
      ensures var after := CartAfterAdd(products, old(cart), old(nextCartId), productId, quantity);
        ok == after.Some? && cart == (if ok then after.value else old(cart))
      ensures nextCartId == (if |cart| > |old(cart)| then old(nextCartId) + 1 else old(nextCartId))
    {
      var existing := LineFor(cart, productId);
      if existing.Some? {
        var newQuantity := existing.value.quantity + quantity;
        AddIsUpdate(products, cart, nextCartId, productId, quantity, existing.value, newQuantity);
        MergeKeepsCartValid(products, cart, nextCartId, productId, newQuantity);
        cart := SetQuantity(cart, productId, newQuantity);
        ok := true;
      } else {
        var product := ProductById(products, productId);
        if product.None? {
          ok := false;
          return;
        }
        var line := CartLine(nextCartId, productId, quantity, product.value.price);
        InsertKeepsCartValid(products, cart, nextCartId, line);
        cart := cart + [line];
        nextCartId := nextCartId + 1;
        ok := true;
      }
    }

    /** limpiar_carrito(): `DELETE FROM carrito`. */
    method ClearCart()
      requires Valid()
      modifies this`cart
      ensures Valid()
      ensures cart == []
    {
      cart := [];
    }

    /**
     * crear_pedido(total, direccion, ubicacion_gps): insert the order with
     * status 'pendiente', then one detail per cart-view row. The cart is
     * left as it was. Returns the new order's id.
     */
    method CreateOrder(total: int, address: string, gpsLocation: string) returns (orderId: int)
      requires Valid()
      modifies this`orders, this`nextOrderId, this`details, this`nextDetailId
      ensures Valid()
      ensures orderId == old(nextOrderId) && nextOrderId == orderId + 1
      ensures orders == old(orders) + [Order(orderId, total, Pending, address, gpsLocation)]
      ensures details == old(details) + DetailsFor(orderId, CartView(products, cart), old(nextDetailId))
      ensures nextDetailId == old(nextDetailId) + |CartView(products, cart)|
    {
      orderId := nextOrderId;
      var items := CartView(products, cart);
      var order := Order(orderId, total, Pending, address, gpsLocation);
      var firstDetailId := nextDetailId;
      orders := orders + [order];
      nextOrderId := orderId + 1;
      InsertDetails(orderId, items);
      OrderAppendKeepsValid(old(orders), orderId, order, nextOrderId);
      DetailsAppendKeepsValid(old(details), firstDetailId, orderId, items, nextDetailId, nextOrderId);
    }

    /** The loop of crear_pedido: one `INSERT INTO detalles_pedidos` per view row, each taking the next detail id. */
    method InsertDetails(orderId: int, items: seq<CartRow>)
      modifies this`details, this`nextDetailId
      ensures details == old(details) + DetailsFor(orderId, items, old(nextDetailId))
      ensures nextDetailId == old(nextDetailId) + |items|
    {
      var firstId := nextDetailId;
      var i := 0;
      while i < |items|
        invariant 0 <= i <= |items|
        invariant details == old(details) + DetailsFor(orderId, items[..i], firstId)
        invariant nextDetailId == firstId + i
      {
        DetailsForSnoc(old(details), orderId, items, firstId, i, nextDetailId);
        details := details + [OrderDetail(nextDetailId, orderId, items[i].productId, items[i].quantity, items[i].unitPrice)];
        nextDetailId := nextDetailId + 1;
        i := i + 1;
      }
      assert items[..i] == items;
    }
  }

  /** The cart screen's actions on the shared database. */
  class CartScreen {
    const db: DatabaseManager

    constructor (db: DatabaseManager)
      ensures this.db == db
    {
      this.db := db;
    }

    /** remove_item(item_id): `DELETE FROM carrito WHERE id = ?`; an unknown id changes nothing. */
    method RemoveItem(itemId: int)
      requires db.Valid()
      modifies db`cart
      ensures db.Valid()
      ensures db.cart == WithoutLine(old(db.cart), itemId)
      ensures (forall l :: l in old(db.cart) ==> l.id != itemId) ==> db.cart == old(db.cart)
      ensures forall k :: 0 <= k < |old(db.cart)| && old(db.cart)[k].id == itemId ==>
        db.cart == old(db.cart)[..k] + old(db.cart)[k + 1..]
    {
      var cart := db.cart;
      CartIdsUnique(cart);
      WithoutLineRemovesMatching(cart, itemId);
      if forall l :: l in cart ==> l.id != itemId {
        WithoutUnknownLine(cart, itemId);
      }
      var remaining := WithoutLine(cart, itemId);
      RemainingLinesValid(db.products, cart, db.nextCartId, itemId);
      db.cart := remaining;
    }

    /**
     * checkout: an empty cart view creates no order and changes nothing;
     * otherwise the order records the view's total, its details copy the
     * cart line for line, and the cart is cleared. Returns the order id.
     */
    method Checkout(gpsLocation: string) returns (orderId: Option<int>)
      requires db.Valid()
      modifies db`cart, db`orders, db`nextOrderId, db`details, db`nextDetailId
      ensures db.Valid()
      ensures db.products == old(db.products)
      ensures old(db.cart) == [] ==>
        && orderId == None
        && db.cart == old(db.cart) && db.orders == old(db.orders) && db.details == old(db.details)
        && db.nextOrderId == old(db.nextOrderId) && db.nextDetailId == old(db.nextDetailId)
      ensures old(db.cart) != [] ==>
        && orderId == Some(old(db.nextOrderId))
        && db.orders == old(db.orders) + [Order(orderId.value, CartTotal(old(db.cart)), Pending, ShippingAddress, gpsLocation)]
        && db.cart == []
      ensures old(db.cart) != [] ==>
        db.nextOrderId == old(db.nextOrderId) + 1 && db.nextDetailId == old(db.nextDetailId) + |old(db.cart)|
      ensures old(db.cart) != [] ==>
        && |old(db.details)| <= |db.details|
        && db.details[..|old(db.details)|] == old(db.details)
      ensures old(db.cart) != [] && |old(db.details)| <= |db.details| ==>
        var added := db.details[|old(db.details)|..];
        && |added| == |old(db.cart)|
        && (forall i :: 0 <= i < |added| ==>
              added[i].id == old(db.nextDetailId) + i &&
              added[i].orderId == orderId.value && added[i].productId == old(db.cart)[i].productId &&
              added[i].quantity == old(db.cart)[i].quantity && added[i].unitPrice == old(db.cart)[i].unitPrice)
        && DetailsTotal(added) == CartTotal(old(db.cart))
    {
      var items := CartView(db.products, db.cart);
      CartViewEmptyIffCartEmpty(db.products, db.cart);
      if items == [] {
        orderId := None;
        return;
      }
      ghost var cart0 := db.cart;
      ghost var details0 := db.details;
      ghost var nextDetail0 := db.nextDetailId;
      var total := Total(items);
      ViewTotalIsCartTotal(db.products, db.cart);
      SnapshotOfCart(db.products, db.cart, db.nextOrderId, db.nextDetailId);
      var id := db.CreateOrder(total, ShippingAddress, gpsLocation);
      assert db.details[|details0|..] == DetailsFor(id, CartView(db.products, cart0), nextDetail0);
      db.ClearCart();
      orderId := Some(id);
    }
  }

  /** Appending an order with the next id keeps the orders invariant. */
  lemma OrderAppendKeepsValid(orders: seq<Order>, nextOrderId: int, order: Order, newNextOrderId: int)
    requires OrdersValid(orders, nextOrderId)
    requires order.id == nextOrderId && newNextOrderId == nextOrderId + 1
    ensures OrdersValid(orders + [order], newNextOrderId)
  {
    var r := orders + [order];
    forall i | 0 <= i < |orders| ensures r[i] == orders[i] && orders[i] in orders {
    }
  }

  /** Appending the details of the order with the next order id, numbered from the next detail id, keeps the details invariant. */
  lemma {:induction false} DetailsAppendKeepsValid(details: seq<OrderDetail>, nextDetailId: int, nextOrderId: int, rows: seq<CartRow>,
                                                   newNextDetailId: int, newNextOrderId: int)
    requires DetailsValid(details, nextDetailId, nextOrderId)
    requires newNextDetailId == nextDetailId + |rows| && newNextOrderId == nextOrderId + 1
    ensures DetailsValid(details + DetailsFor(nextOrderId, rows, nextDetailId), newNextDetailId, newNextOrderId)
  {
    var added := DetailsFor(nextOrderId, rows, nextDetailId);
    var r := details + added;
    forall i | 0 <= i < |r| ensures r[i].id < nextDetailId + |rows| && r[i].orderId < nextOrderId + 1
      && (i < |details| ==> r[i].id < nextDetailId)
      && (i >= |details| ==> r[i].id == nextDetailId + (i - |details|))
    {
      if i < |details| {
        assert r[i] == details[i] && details[i] in details;
      } else {
        assert r[i] == added[i - |details|];
      }
    }
    forall d | d in r ensures d.id < nextDetailId + |rows| && d.orderId < nextOrderId + 1 {
      var i :| 0 <= i < |r| && r[i] == d;
    }
    forall i, j | 0 <= i < j < |r| ensures r[i].id < r[j].id {
      if j < |details| {
        assert r[i] == details[i] && r[j] == details[j];
      }
    }
  }

  /** Updating the quantity of a product's lines keeps the cart invariant. */
  lemma {:induction false} MergeKeepsCartValid(products: seq<Product>, cart: seq<CartLine>, nextCartId: int, productId: int, quantity: int)
    requires CartValid(products, cart, nextCartId)
    ensures CartValid(products, SetQuantity(cart, productId, quantity), nextCartId)
  {
    SameKeysKeepCartValid(products, cart, SetQuantity(cart, productId, quantity), nextCartId);
  }

  /** Lines with the same ids and products as a valid cart, in the same order, form a valid cart. */
  lemma SameKeysKeepCartValid(products: seq<Product>, a: seq<CartLine>, b: seq<CartLine>, nextCartId: int)
    requires CartValid(products, a, nextCartId)
    requires |a| == |b| && forall i :: 0 <= i < |a| ==> b[i].id == a[i].id && b[i].productId == a[i].productId
    ensures CartValid(products, b, nextCartId)
  {
    forall i, j | 0 <= i < j < |b| ensures b[i].id < b[j].id {
      assert a[i].id < a[j].id;
    }
    forall i | 0 <= i < |b| ensures b[i].id < nextCartId {
      assert a[i].id < nextCartId;
    }
    forall i, j | 0 <= i < |b| && 0 <= j < |b| && i != j ensures b[i].productId != b[j].productId {
      assert a[i].productId != a[j].productId;
    }
    JoinKeptBySameProducts(products, a, b);
  }

  /** Lines naming the same products as joined lines join as well. */
  lemma JoinKeptBySameProducts(products: seq<Product>, a: seq<CartLine>, b: seq<CartLine>)
    requires AllLinesJoin(products, a)
    requires |a| == |b| && forall i :: 0 <= i < |a| ==> b[i].productId == a[i].productId
    ensures AllLinesJoin(products, b)
  {
    forall l | l in b ensures ProductById(products, l.productId).Some? {
      var i :| 0 <= i < |b| && b[i] == l;
      assert a[i] in a;
    }
  }

  /** Appending a line with the next id, for a catalogue product without a line, keeps the cart invariant. */
  lemma {:induction false} InsertKeepsCartValid(products: seq<Product>, cart: seq<CartLine>, nextCartId: int, line: CartLine)
    requires CartValid(products, cart, nextCartId)
    requires line.id == nextCartId
    requires LineFor(cart, line.productId).None?
    requires ProductById(products, line.productId).Some?
    ensures CartValid(products, cart + [line], nextCartId + 1)
  {
    var r := cart + [line];
    assert forall i :: 0 <= i < |cart| ==> r[i] == cart[i];
    assert r[|cart|] == line;
    forall i, j | 0 <= i < j < |r| ensures r[i].id < r[j].id {
      assert cart[i].id < nextCartId;
    }
    forall i, j | 0 <= i < |r| && 0 <= j < |r| && i != j ensures r[i].productId != r[j].productId {
      if i == |cart| {
        assert cart[j] in cart;
      } else if j == |cart| {
        assert cart[i] in cart;
      }
    }
    forall l | l in r ensures ProductById(products, l.productId).Some? {
      if l != line {
        assert l in cart;
      }
    }
  }

  /** Deleting a line keeps the cart invariant. */
  lemma RemainingLinesValid(products: seq<Product>, cart: seq<CartLine>, nextCartId: int, itemId: int)
    requires CartValid(products, cart, nextCartId)
    ensures CartValid(products, WithoutLine(cart, itemId), nextCartId)
  {
    var r := WithoutLine(cart, itemId);
    assert IsSubsequence(r, cart);
    SubsequenceKeepsOrder(r, cart);
  }

  /** A subsequence of a cart keeps its increasing ids and its one line per product. */
  lemma {:induction false} SubsequenceKeepsOrder(r: seq<CartLine>, cart: seq<CartLine>)
    requires IsSubsequence(r, cart)
    requires forall i, j :: 0 <= i < j < |cart| ==> cart[i].id < cart[j].id
    requires OneLinePerProduct(cart)
    ensures forall i, j :: 0 <= i < j < |r| ==> r[i].id < r[j].id
    ensures OneLinePerProduct(r)
    decreases |cart|
  {
    if r != [] && cart != [] {
      var tail := cart[1..];
      assert forall i, j :: 0 <= i < j < |tail| ==> tail[i].id < tail[j].id by {
        forall i, j | 0 <= i < j < |tail| ensures tail[i].id < tail[j].id {
          assert tail[i] == cart[i + 1] && tail[j] == cart[j + 1];
        }
      }
      assert OneLinePerProduct(tail) by {
        forall i, j | 0 <= i < |tail| && 0 <= j < |tail| && i != j ensures tail[i].productId != tail[j].productId {
          assert tail[i] == cart[i + 1] && tail[j] == cart[j + 1];
        }
      }
      if r[0] == cart[0] {
        SubsequenceKeepsOrder(r[1..], tail);
        SubsequenceElements(r[1..], tail);
        forall j | 0 < j < |r| ensures r[0].id < r[j].id && r[0].productId != r[j].productId {
          assert r[j] == r[1..][j - 1] && r[1..][j - 1] in r[1..];
          var k :| 0 <= k < |tail| && tail[k] == r[j];
          assert cart[k + 1] == r[j];
        }
        forall i, j | 0 <= i < j < |r| ensures r[i].id < r[j].id {
          if i > 0 { assert r[i] == r[1..][i - 1] && r[j] == r[1..][j - 1]; }
        }
        forall i, j | 0 <= i < |r| && 0 <= j < |r| && i != j ensures r[i].productId != r[j].productId {
          if i > 0 && j > 0 { assert r[i] == r[1..][i - 1] && r[j] == r[1..][j - 1]; }
        }
      } else {
        SubsequenceKeepsOrder(r, tail);
      }
    }
  }

  /** Every element of a subsequence is an element of the sequence. */
  lemma {:induction false} SubsequenceElements<T>(r: seq<T>, s: seq<T>)
    requires IsSubsequence(r, s)
    ensures forall x :: x in r ==> x in s
    decreases |s|
  {
    if r != [] && s != [] {
      if r[0] == s[0] {
        SubsequenceElements(r[1..], s[1..]);
        assert forall x :: x in r ==> x == r[0] || x in r[1..];
        assert forall x :: x in s[1..] ==> x in s;
      } else {
        SubsequenceElements(r, s[1..]);
        assert forall x :: x in s[1..] ==> x in s;
      }
    }
  }
}

/** The cart collection, the ticket log, and the cart API handlers that read
    and write them together with the product collection. */
module Carts {
  import opened Options
  import opened ProductModel
  import opened Http
  import opened CartLines
  import opened Checkout
  import opened Products

  class CartStore {
    /** The product collection the carts refer to. */
    const catalog: ProductStore
    var carts: map<CartId, seq<LineItem>>
    /** Completed purchases, oldest first; only ever appended to. */
    var tickets: seq<Ticket>
    /** Cart ids below this one have been handed out. */
    var nextId: nat

    ghost predicate Valid()
      reads this, catalog
    {
      && catalog.Valid()
      && forall cid :: cid in carts ==> cid < nextId
    }

    constructor (catalog: ProductStore)
      requires catalog.Valid()
      ensures Valid() && this.catalog == catalog
      ensures carts == map[] && tickets == []
    {
      this.catalog := catalog;
      carts := map[];
      tickets := [];
      nextId := 0;
    }

    /** POST /api/carts: a new cart with no lines. */
    method CreateCart() returns (r: Reply<CartId>)
      requires Valid()
      modifies this
      ensures Valid() && tickets == old(tickets)
      ensures r.Created? && r.payload !in old(carts)
      ensures carts == old(carts)[r.payload := []]
    {
      var cid := nextId;
      carts := carts[cid := []];
      nextId := nextId + 1;
      r := Created(cid);
    }

    /** GET /api/carts/:cid: the cart with its products looked up. */
    method GetCartById(cid: CartId) returns (r: Reply<seq<ResolvedLine>>)
      ensures cid !in carts ==> r == NotFound(CartMissing)
      ensures cid in carts ==> r == Ok(Populate(carts[cid], catalog.products))
    {
      if cid !in carts {
        return NotFound(CartMissing);
      }
      r := Ok(Populate(carts[cid], catalog.products));
    }

    /** POST /api/carts/:cid/product/:pid: one more unit of the product, with no
        look at its stock. */
    method AddProductToCart(cid: CartId, pid: ProductId) returns (r: Reply<seq<LineItem>>)
      requires Valid()
      modifies this
      ensures Valid() && tickets == old(tickets)
      ensures cid !in old(carts) ==> r == NotFound(CartMissing) && carts == old(carts)
      ensures cid in old(carts) && pid !in catalog.products ==>
                r == NotFound(ProductMissing) && carts == old(carts)
      ensures cid in old(carts) && pid in catalog.products ==>
                && carts == old(carts)[cid := AddOne(old(carts)[cid], pid)]
                && r == Ok(carts[cid])
    {
      if cid !in carts {
        return NotFound(CartMissing);
      }
      if pid !in catalog.products {
        return NotFound(ProductMissing);
      }
      var lines := carts[cid];
      var found := FindLine(lines, pid);
      if found.Some? {
        var i := found.value;
        lines := lines[i := lines[i].(quantity := lines[i].quantity + 1)];
      } else {
        lines := lines + [LineItem(pid, 1)];
      }
      carts := carts[cid := lines];
      r := Ok(lines);
    }

    /** DELETE /api/carts/:cid/products/:pid: every line for the product goes. */
    method DeleteProductFromCart(cid: CartId, pid: ProductId) returns (r: Reply<seq<LineItem>>)
      requires Valid()
      modifies this
      ensures Valid() && tickets == old(tickets)
      ensures cid !in old(carts) ==> r == NotFound(CartMissing) && carts == old(carts)
      ensures cid in old(carts) ==>
                carts == old(carts)[cid := Without(old(carts)[cid], pid)] && r == Ok(carts[cid])
    {
      if cid !in carts {
        return NotFound(CartMissing);
      }
      var lines := Without(carts[cid], pid);
      carts := carts[cid := lines];
      r := Ok(lines);
    }

    /** PUT /api/carts/:cid: the lines become exactly the given ones, unchecked. */
    method UpdateCart(cid: CartId, items: seq<LineItem>) returns (r: Reply<seq<LineItem>>)
      requires Valid()
      modifies this
      ensures Valid() && tickets == old(tickets)
      ensures cid !in old(carts) ==> r == NotFound(CartMissing) && carts == old(carts)
      ensures cid in old(carts) ==> carts == old(carts)[cid := items] && r == Ok(items)
    {
      if cid !in carts {
        return NotFound(CartMissing);
      }
      carts := carts[cid := items];
      r := Ok(items);
    }

    /** PUT /api/carts/:cid/products/:pid: the quantity is checked before any
        lookup; then the cart and the product's line must exist. */
    method UpdateProductQuantity(cid: CartId, pid: ProductId, quantity: Option<int>) returns (r: Reply<seq<LineItem>>)
      requires Valid()
      modifies this
      ensures Valid() && tickets == old(tickets)
      ensures quantity.None? || quantity.value < 1 ==> r == BadRequest(InvalidQuantity) && carts == old(carts)
      ensures quantity.Some? && quantity.value >= 1 && cid !in old(carts) ==>
                r == NotFound(CartMissing) && carts == old(carts)
      ensures quantity.Some? && quantity.value >= 1 && cid in old(carts) && FirstIndex(old(carts)[cid], pid).None? ==>
                r == NotFound(LineMissing) && carts == old(carts)
      ensures quantity.Some? && quantity.value >= 1 && cid in old(carts) && FirstIndex(old(carts)[cid], pid).Some? ==>
                && carts == old(carts)[cid := WithQuantity(old(carts)[cid], pid, quantity.value)]
                && r == Ok(carts[cid])
    {
      if quantity.None? || quantity.value == 0 || quantity.value < 1 {
        return BadRequest(InvalidQuantity);
      }
      if cid !in carts {
        return NotFound(CartMissing);
      }
      var lines := carts[cid];
      var found := FindLine(lines, pid);
      if found.None? {
        return NotFound(LineMissing);
      }
      var i := found.value;
      lines := lines[i := lines[i].(quantity := quantity.value)];
      carts := carts[cid := lines];
      r := Ok(lines);
    }

    /** DELETE /api/carts/:cid: the cart stays, with no lines. */
    method DeleteAllProductsFromCart(cid: CartId) returns (r: Reply<seq<LineItem>>)
      requires Valid()
      modifies this
      ensures Valid() && tickets == old(tickets)
      ensures cid !in old(carts) ==> r == NotFound(CartMissing) && carts == old(carts)
      ensures cid in old(carts) ==> carts == old(carts)[cid := []] && r == Ok([])
    {
      if cid !in carts {
        return NotFound(CartMissing);
      }
      carts := carts[cid := []];
      r := Ok([]);
    }

    /** The checkout's first pass over the lines: each line is checked against
        its product's stock, failures are collected, and the passing lines and
        their amount are accumulated. It stops at a line whose product no
        longer exists (`dangling`), where the handler throws. */
    method CheckStock(lines: seq<LineItem>) returns (dangling: bool, failed: seq<StockFailure>, toUpdate: seq<LineItem>, total: int)
      ensures dangling <==> !Resolves(lines, catalog.products)
      ensures !dangling ==>
                && failed == Shortfalls(lines, catalog.products)
                && toUpdate == Fulfillable(lines, catalog.products)
                && total == Total(toUpdate, catalog.products)
    {
      var ps := catalog.products;
      total, toUpdate, failed := 0, [], [];
      var i := 0;
      while i < |lines|
        invariant 0 <= i <= |lines|
        invariant Resolves(lines[..i], ps)
        invariant failed == Shortfalls(lines[..i], ps)
        invariant toUpdate == Fulfillable(lines[..i], ps)
        invariant Resolves(toUpdate, ps) && total == Total(toUpdate, ps)
      {
        var item := lines[i];
        if item.product !in ps {
          return true, failed, toUpdate, total;
        }
        var product := ps[item.product];
        assert lines[..i + 1] == lines[..i] + [item];
        assert lines[..i + 1][..i] == lines[..i];
        if product.stock < item.quantity {
          failed := failed + [StockFailure(product.title, item.quantity, product.stock)];
        } else {
          total := total + product.price * item.quantity;
          assert (toUpdate + [item])[..|toUpdate|] == toUpdate;
          toUpdate := toUpdate + [item];
        }
        i := i + 1;
      }
      assert lines[..i] == lines;
      dangling := false;
    }

    /** POST /api/carts/:cid/purchase: all or nothing. Every line is checked
        against its product's current stock; if any fails, all failures are
        reported and nothing changes. Otherwise each line's quantity is taken off
        its product's stock, one ticket for the total is logged, and the cart is
        emptied. `code` stands for the generated ticket code. */
    method PurchaseCart(cid: CartId, purchaser: Option<string>, code: string) returns (r: Reply<Ticket>)
      requires Valid()
      modifies this, catalog
      ensures Valid()
      ensures r.IsError() ==>
                carts == old(carts) && tickets == old(tickets) && catalog.products == old(catalog.products)
      ensures cid !in old(carts) <==> r == NotFound(CartMissing)
      ensures cid in old(carts) && old(carts)[cid] == [] ==> r == BadRequest(EmptyCart)
      ensures cid in old(carts) && old(carts)[cid] != [] && !Resolves(old(carts)[cid], old(catalog.products)) ==>
                r == ServerFault
      ensures cid in old(carts) && old(carts)[cid] != [] && Resolves(old(carts)[cid], old(catalog.products))
              && Shortfalls(old(carts)[cid], old(catalog.products)) != [] ==>
                r == BadRequest(InsufficientStock(Shortfalls(old(carts)[cid], old(catalog.products))))
      ensures cid in old(carts) && old(carts)[cid] != [] && Resolves(old(carts)[cid], old(catalog.products))
              && Shortfalls(old(carts)[cid], old(catalog.products)) == [] ==>
                && r == Ok(Ticket(code, Total(old(carts)[cid], old(catalog.products)), PurchaserLabel(purchaser)))
                && catalog.products == Decrement(old(catalog.products), old(carts)[cid])
                && carts == old(carts)[cid := []]
                && tickets == old(tickets) + [r.payload]
    {
      if cid !in carts {
        return NotFound(CartMissing);
      }
      var lines := carts[cid];
      if |lines| == 0 {
        return BadRequest(EmptyCart);
      }
      var dangling, failed, toUpdate, total := CheckStock(lines);
      if dangling {
        return ServerFault;
      }
      if |failed| > 0 {
        return BadRequest(InsufficientStock(failed));
      }
      StockCheckExact(lines, catalog.products);
      catalog.TakeStock(toUpdate);
      var ticket := Ticket(code, total, PurchaserLabel(purchaser));
      tickets := tickets + [ticket];
      carts := carts[cid := []];
      r := Ok(ticket);
    }
  }
}

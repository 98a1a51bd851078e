/** The server-rendered pages: the catalog page, which also binds the browser
    session to a cart, the single-product page and the cart page. */
module Views {
  import opened Options
  import opened ProductModel
  import opened Http
  import opened CartLines
  import opened CatalogQuery
  import opened Products
  import opened Carts

  /** The browser session; `cartId` is set once and then reused. */
  class Session {
    var cartId: Option<CartId>

    constructor ()
      ensures cartId == None
    {
      cartId := None;
    }
  }

  /** What the catalog page is rendered with, apart from the page of products. */
  datatype CatalogPage = CatalogPage(listing: Listing, cartId: CartId)

  /** What the product page is rendered with. */
  datatype ProductPage = ProductPage(product: Product, cartId: Option<CartId>)

  /** GET /products: the same listing as the API, with links under `/products`;
      a session without a cart gets exactly one new empty cart, a session with
      one keeps it and no cart is created. */
  method RenderProducts(store: CartStore, session: Session, q: ListingQuery, info: PageInfo)
    returns (page: CatalogPage)
    requires store.Valid()
    modifies store, session
    ensures store.Valid() && store.tickets == old(store.tickets)
    ensures page.listing == ListingFor(ViewPath, q, info)
    ensures old(session.cartId).Some? ==>
              && page.cartId == old(session.cartId).value
              && session.cartId == old(session.cartId)
              && store.carts == old(store.carts)
    ensures old(session.cartId).None? ==>
              && page.cartId !in old(store.carts)
              && store.carts == old(store.carts)[page.cartId := []]
              && session.cartId == Some(page.cartId)
  {
    var listing := ListingFor(ViewPath, q, info);
    var cartId: CartId;
    if session.cartId.None? {
      var created := store.CreateCart();
      cartId := created.payload;
      session.cartId := Some(cartId);
    } else {
      cartId := session.cartId.value;
    }
    page := CatalogPage(listing, cartId);
  }

  /** GET /products/:pid: never offers a cart. */
  method RenderProduct(catalog: ProductStore, pid: ProductId) returns (r: Reply<ProductPage>)
    ensures pid !in catalog.products ==> r == NotFound(ProductMissing)
    ensures pid in catalog.products ==> r == Ok(ProductPage(catalog.products[pid], None))
  {
    if pid !in catalog.products {
      return NotFound(ProductMissing);
    }
    r := Ok(ProductPage(catalog.products[pid], None));
  }

  /** GET /carts/:cid: the cart with its products looked up. */
  method RenderCart(store: CartStore, cid: CartId) returns (r: Reply<seq<ResolvedLine>>)
    ensures cid !in store.carts ==> r == NotFound(CartMissing)
    ensures cid in store.carts ==> r == Ok(Populate(store.carts[cid], store.catalog.products))
  {
    r := store.GetCartById(cid);
  }
}

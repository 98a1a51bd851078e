/** How a product-listing request's `limit`, `page`, `sort` and `query`
    parameters become the store filter, the pagination options and the
    previous/next links. The API handler and the catalog page compute this the
    same way and differ only in the path the links point to. */
module CatalogQuery {
  import opened Options
  import opened ProductModel
  import opened QueryString

  /** The document filter: everything, products on sale and in stock, or one category. */
  datatype Filter = Everything | Available | InCategory(category: string)

  datatype SortOrder = Unsorted | PriceAscending | PriceDescending

  /** The listing parameters of a request; an absent parameter is None. */
  datatype ListingQuery = ListingQuery(limit: Option<nat>, page: Option<nat>, sort: Option<string>, query: Option<string>)

  /** The pagination figures the paging library reports for the requested page. */
  datatype PageInfo = PageInfo(
    totalPages: nat, page: nat, prevPage: Option<nat>, nextPage: Option<nat>,
    hasPrevPage: bool, hasNextPage: bool)

  /** What the paging library is asked for. */
  datatype PageOptions = PageOptions(page: nat, limit: nat, sort: SortOrder)

  /** The listing response, apart from the page of documents itself. */
  datatype Listing = Listing(
    filter: Filter, options: PageOptions, info: PageInfo,
    prevLink: Option<string>, nextLink: Option<string>)

  const ApiPath := "/api/products"
  const ViewPath := "/products"
  const DefaultLimit: nat := 10
  const DefaultPage: nat := 1

  /** A query-string value counts as given when it is present and not empty. */
  predicate Given(s: Option<string>) {
    s.Some? && s.value != ""
  }

  function FilterFor(query: Option<string>): Filter {
    if !Given(query) then Everything
    else if query.value == "available" then Available
    else InCategory(query.value)
  }

  function SortFor(sort: Option<string>): SortOrder {
    if !Given(sort) then Unsorted
    else if sort.value == "asc" then PriceAscending
    else PriceDescending
  }

  /** Whether a product document satisfies a filter. */
  predicate Matches(f: Filter, p: Product) {
    match f
    case Everything => true
    case Available => p.status && p.stock > 0
    case InCategory(c) => p.category == c
  }

  /** Whether a page of products is in the order a sort option asks for. */
  predicate InOrder(order: SortOrder, ps: seq<Product>) {
    match order
    case Unsorted => true
    case PriceAscending => forall i, j :: 0 <= i < j < |ps| ==> ps[i].price <= ps[j].price
    case PriceDescending => forall i, j :: 0 <= i < j < |ps| ==> ps[i].price >= ps[j].price
  }

  function OptionsFor(q: ListingQuery): (o: PageOptions)
    ensures q.limit.None? ==> o.limit == 10
    ensures q.page.None? ==> o.page == 1
    ensures q.limit.Some? ==> o.limit == q.limit.value
    ensures q.page.Some? ==> o.page == q.page.value
    ensures o.sort == SortFor(q.sort)
  {
    PageOptions(q.page.GetOr(DefaultPage), q.limit.GetOr(DefaultLimit), SortFor(q.sort))
  }

  /** The page number as the link template prints it; an absent one prints as `null`. */
  function PageText(target: Option<nat>): string {
    match target
    case Some(n) => NatToString(n)
    case None => "null"
  }

  /** A previous/next link exactly as the handlers' template strings build it. */
  function PageLink(path: string, q: ListingQuery, has: bool, target: Option<nat>): Option<string> {
    if has then Some(path + LinkQuery(q, target)) else None
  }

  /** The part of a link after its path. */
  function LinkQuery(q: ListingQuery, target: Option<nat>): string {
    "?limit=" + NatToString(q.limit.GetOr(DefaultLimit)) + "&page=" + PageText(target) + OptionalText(q)
  }

  /** The optional pairs of a link: sort, then query, each only when given. */
  function OptionalParams(q: ListingQuery): seq<Param> {
    (if Given(q.sort) then [("sort", q.sort.value)] else [])
    + (if Given(q.query) then [("query", q.query.value)] else [])
  }

  /** The template's optional pieces: `&sort=` and `&query=` only when given. */
  function OptionalText(q: ListingQuery): string {
    (if Given(q.sort) then "&sort=" + q.sort.value else "")
    + (if Given(q.query) then "&query=" + q.query.value else "")
  }

  /** The parameters a link carries, in order: limit, page, then sort and query when given. */
  function LinkParams(q: ListingQuery, target: Option<nat>): (ps: seq<Param>)
    ensures |ps| >= 2
  {
    [("limit", NatToString(q.limit.GetOr(DefaultLimit))), ("page", PageText(target))] + OptionalParams(q)
  }

  function ListingFor(path: string, q: ListingQuery, info: PageInfo): Listing {
    Listing(FilterFor(q.query), OptionsFor(q), info,
            PageLink(path, q, info.hasPrevPage, info.prevPage),
            PageLink(path, q, info.hasNextPage, info.nextPage))
  }

  /** The product listing the API answers: the filter and paging options the
      query selects, the library's paging figures, and a link to the previous
      and next page exactly when the library reports one, each the API path
      followed by the rendering of the link's parameters. */
  function GetProducts(q: ListingQuery, info: PageInfo): (l: Listing)
    ensures l.filter == FilterFor(q.query) && l.options == OptionsFor(q) && l.info == info
    ensures l.prevLink.Some? <==> info.hasPrevPage
    ensures l.nextLink.Some? <==> info.hasNextPage
    ensures info.hasPrevPage ==> l.prevLink.value == ApiPath + "?" + Render(LinkParams(q, info.prevPage))
    ensures info.hasNextPage ==> l.nextLink.value == ApiPath + "?" + Render(LinkParams(q, info.nextPage))
  {
    LinkRendersParams(ApiPath, q, info.prevPage);
    LinkRendersParams(ApiPath, q, info.nextPage);
    ListingFor(ApiPath, q, info)
  }

  /** The filter matches every product when no query is given, products on sale
      with stock left for `available`, and products of that category otherwise. */
  lemma FilterForMeaning(query: Option<string>, p: Product)
    ensures !Given(query) ==> Matches(FilterFor(query), p)
    ensures Given(query) && query.value == "available" ==>
              (Matches(FilterFor(query), p) <==> p.status && p.stock > 0)
    ensures Given(query) && query.value != "available" ==>
              (Matches(FilterFor(query), p) <==> p.category == query.value)
  {
  }

  /** No sort without a sort parameter; `asc` sorts by rising price and any other
      given value by falling price. */
  lemma SortForMeaning(sort: Option<string>, ps: seq<Product>)
    ensures !Given(sort) ==> InOrder(SortFor(sort), ps)
    ensures Given(sort) && sort.value == "asc" ==>
              (InOrder(SortFor(sort), ps) <==> forall i, j :: 0 <= i < j < |ps| ==> ps[i].price <= ps[j].price)
    ensures Given(sort) && sort.value != "asc" ==>
              (InOrder(SortFor(sort), ps) <==> forall i, j :: 0 <= i < j < |ps| ==> ps[i].price >= ps[j].price)
  {
  }

  lemma {:induction false} PlainLinkParams(q: ListingQuery, target: Option<nat>)
    requires Given(q.sort) ==> '&' !in q.sort.value
    requires Given(q.query) ==> '&' !in q.query.value
    ensures Plain(LinkParams(q, target))
  {
    var ps := LinkParams(q, target);
    assert '&' !in "null";
    forall i | 0 <= i < |ps|
      ensures '&' !in ps[i].0 && '=' !in ps[i].0 && '&' !in ps[i].1
    {
      assert ps[i].0 in {"limit", "page", "sort", "query"};
    }
  }

  lemma ConcatShape(path: string, limit: string, page: string, rest: string)
    ensures path + "?" + (("limit" + "=" + limit) + "&" + (("page" + "=" + page) + rest))
         == path + ("?limit=" + limit + "&page=" + page + rest)
  {
    assert "?limit=" == "?" + "limit" + "=";
    assert "&page=" == "&" + "page" + "=";
  }

  lemma RenderCons(p: Param, rest: seq<Param>)
    requires rest != []
    ensures Render([p] + rest) == Assign(p) + "&" + Render(rest)
  {
    assert ([p] + rest)[1..] == rest;
  }

  /** The optional pairs render as the template's optional pieces. */
  lemma RenderOptional(q: ListingQuery)
    ensures OptionalParams(q) == [] <==> OptionalText(q) == ""
    ensures OptionalParams(q) != [] ==> "&" + Render(OptionalParams(q)) == OptionalText(q)
  {
    assert "&sort=" == "&" + "sort" + "=";
    assert "&query=" == "&" + "query" + "=";
    if Given(q.sort) && Given(q.query) {
      RenderCons(("sort", q.sort.value), [("query", q.query.value)]);
    }
  }

  lemma RenderAfterPage(pg: Param, q: ListingQuery)
    ensures Render([pg] + OptionalParams(q)) == Assign(pg) + OptionalText(q)
  {
    RenderOptional(q);
    if OptionalParams(q) != [] {
      RenderCons(pg, OptionalParams(q));
    } else {
      assert [pg] + OptionalParams(q) == [pg];
    }
  }

  lemma {:induction false} LinkRendersParams(path: string, q: ListingQuery, target: Option<nat>)
    ensures PageLink(path, q, true, target) == Some(path + "?" + Render(LinkParams(q, target)))
  {
    var lim := ("limit", NatToString(q.limit.GetOr(DefaultLimit)));
    var pg := ("page", PageText(target));
    var opt := OptionalParams(q);
    RenderAfterPage(pg, q);
    assert LinkParams(q, target) == [lim] + ([pg] + opt);
    RenderCons(lim, [pg] + opt);
    ConcatShape(path, lim.1, pg.1, OptionalText(q));
  }

  /** A link is present exactly when the library reports a page on that side;
      when present it is the path, `?`, and a query string that reads back as
      limit, page, then sort and query when they were given (provided neither
      holds an `&`, which the template does not escape). */
  lemma {:induction false} PageLinkEchoesQuery(path: string, q: ListingQuery, has: bool, target: Option<nat>)
    requires Given(q.sort) ==> '&' !in q.sort.value
    requires Given(q.query) ==> '&' !in q.query.value
    ensures PageLink(path, q, has, target).Some? <==> has
    ensures has ==>
      var link := PageLink(path, q, has, target).value;
      && |link| > |path|
      && link[..|path| + 1] == path + "?"
      && Parse(link[|path| + 1..]) == LinkParams(q, target)
  {
    if has {
      LinkRendersParams(path, q, target);
      PlainLinkParams(q, target);
      ParseRender(LinkParams(q, target));
      var link := PageLink(path, q, has, target).value;
      assert link == (path + "?") + Render(LinkParams(q, target));
      assert link[|path| + 1..] == Render(LinkParams(q, target));
    }
  }

  lemma PageLinkUnderPrefix(prefix: string, path: string, q: ListingQuery, has: bool, target: Option<nat>)
    ensures PageLink(prefix + path, q, has, target).Some? <==> PageLink(path, q, has, target).Some?
    ensures has ==> PageLink(prefix + path, q, has, target).value == prefix + PageLink(path, q, has, target).value
  {
  }

  /** The API links and the catalog-page links differ only by the `/api` prefix. */
  lemma ApiLinksExtendViewLinks(q: ListingQuery, info: PageInfo)
    ensures GetProducts(q, info).prevLink.Some? <==> ListingFor(ViewPath, q, info).prevLink.Some?
    ensures GetProducts(q, info).prevLink.Some? ==>
              GetProducts(q, info).prevLink.value == "/api" + ListingFor(ViewPath, q, info).prevLink.value
    ensures GetProducts(q, info).nextLink.Some? <==> ListingFor(ViewPath, q, info).nextLink.Some?
    ensures GetProducts(q, info).nextLink.Some? ==>
              GetProducts(q, info).nextLink.value == "/api" + ListingFor(ViewPath, q, info).nextLink.value
  {
    assert ApiPath == "/api" + ViewPath;
    PageLinkUnderPrefix("/api", ViewPath, q, info.hasPrevPage, info.prevPage);
    PageLinkUnderPrefix("/api", ViewPath, q, info.hasNextPage, info.nextPage);
  }
}

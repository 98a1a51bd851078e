/** The product document of the catalog: its fields, the constraints the schema
    declares on them and the defaults it fills in. */
module ProductModel {
  import opened Options

  type ProductId = nat
  type UserId = nat

  /** A catalog item. `price` is in integer cents so that sums are exact. */
  datatype Product = Product(
    title: string,
    description: string,
    price: int,
    thumbnail: Option<string>,
    code: string,
    stock: int,
    status: bool,
    category: string,
    owner: Option<UserId>)

  /** The fields the schema marks as required, named in the order the create
      handler lists them. */
  datatype Field = Title | Description | Price | Code | Stock | Category

  /** The declared constraints: required strings present (a required string may
      not be empty), price and stock at least 0. */
  predicate SchemaValid(p: Product) {
    && p.title != ""
    && p.description != ""
    && p.code != ""
    && p.category != ""
    && p.price >= 0
    && p.stock >= 0
  }

  /** `code` carries a unique index: no two stored products share a code. */
  predicate CodesUnique(ps: map<ProductId, Product>) {
    forall a, b :: a in ps && b in ps && a != b ==> ps[a].code != ps[b].code
  }

  /** The codes in use in a product collection. */
  function Codes(ps: map<ProductId, Product>): (cs: set<string>)
    ensures forall id :: id in ps ==> ps[id].code in cs
    ensures forall c :: c in cs ==> exists id :: id in ps && ps[id].code == c
  {
    set id | id in ps :: ps[id].code
  }

  /** A product document built from its supplied fields, with the schema's
      defaults for `status` (true) and `owner` (none) where they are absent. */
  function WithDefaults(title: string, description: string, price: int, thumbnail: Option<string>,
                        code: string, stock: int, status: Option<bool>, category: string,
                        owner: Option<Option<UserId>>): (p: Product)
    ensures p.title == title && p.description == description && p.price == price
    ensures p.thumbnail == thumbnail && p.code == code && p.stock == stock && p.category == category
    ensures status.None? ==> p.status
    ensures status.Some? ==> p.status == status.value
    ensures owner.None? ==> p.owner.None?
    ensures owner.Some? ==> p.owner == owner.value
    ensures SchemaValid(p) <==>
              title != "" && description != "" && code != "" && category != "" && price >= 0 && stock >= 0
  {
    Product(title, description, price, thumbnail, code, stock, status.GetOr(true), category, owner.GetOr(None))
  }
}

/** The product collection and the handlers of the product API that read and
    write it: fetch one, create, update, delete, and the stock increment the
    checkout applies. */
module Products {
  import opened ProductModel
  import opened Http
  import opened ProductValidation
  import opened CartLines
  import opened Checkout

  class ProductStore {
    var products: map<ProductId, Product>
    /** Ids below this one have been handed out. */
    var nextId: nat

    /** The unique index on `code` holds, and every stored id was handed out. */
    ghost predicate Valid()
      reads this
    {
      && CodesUnique(products)
      && forall id :: id in products ==> id < nextId
    }

    constructor ()
      ensures Valid() && products == map[]
    {
      products := map[];
      nextId := 0;
    }

    /** GET /api/products/:pid */
    method GetProductById(pid: ProductId) returns (r: Reply<Product>)
      ensures pid !in products ==> r == NotFound(ProductMissing)
      ensures pid in products ==> r == Ok(products[pid])
      ensures r.Status() == if pid in products then 200 else 404
    {
      if pid !in products {
        return NotFound(ProductMissing);
      }
      r := Ok(products[pid]);
    }

    /** POST /api/products: the body's checks, then the unique index on `code`. */
    method CreateProduct(body: ProductInput) returns (r: Reply<(ProductId, Product)>)
      requires Valid()
      modifies this
      ensures Valid()
      ensures r.Status() == 201 || r.Status() == 400
      ensures r.Status() == 201 <==> ValidateCreate(body).Success? && ValidateCreate(body).value.code !in Codes(old(products))
      ensures ValidateCreate(body).Failure? ==>
                r == BadRequest(ValidateCreate(body).error) && products == old(products)
      ensures ValidateCreate(body).Success? && ValidateCreate(body).value.code in Codes(old(products)) ==>
                r == BadRequest(DuplicateCode) && products == old(products)
      ensures ValidateCreate(body).Success? && ValidateCreate(body).value.code !in Codes(old(products)) ==>
                && r.Created?
                && r.payload.0 !in old(products)
                && r.payload.1 == ValidateCreate(body).value
                && products == old(products)[r.payload.0 := r.payload.1]
    {
      var checked := ValidateCreate(body);
      if checked.Failure? {
        return BadRequest(checked.error);
      }
      var product := checked.value;
      if product.code in Codes(products) {
        return BadRequest(DuplicateCode);
      }
      var id := nextId;
      products := products[id := product];
      nextId := nextId + 1;
      r := Created((id, product));
    }

    /** PUT /api/products/:pid: the body is merged in without re-checking the
        schema's bounds; only the unique index on `code` still refuses a write. */
    method UpdateProduct(pid: ProductId, patch: ProductPatch) returns (r: Reply<Product>)
      requires Valid()
      modifies this
      ensures Valid()
      ensures pid !in old(products) ==> r == NotFound(ProductMissing) && products == old(products)
      ensures pid in old(products) && Merge(old(products)[pid], patch).code in Codes(old(products) - {pid}) ==>
                r == ServerFault && products == old(products)
      ensures pid in old(products) && Merge(old(products)[pid], patch).code !in Codes(old(products) - {pid}) ==>
                r == Ok(Merge(old(products)[pid], patch)) && products == old(products)[pid := r.payload]
    {
      if pid !in products {
        return NotFound(ProductMissing);
      }
      var updated := Merge(products[pid], patch);
      if updated.code in Codes(products - {pid}) {
        return ServerFault;
      }
      forall b | b in products && b != pid
        ensures products[b].code != updated.code
      {
        assert b in products - {pid};
      }
      products := products[pid := updated];
      r := Ok(updated);
    }

    /** DELETE /api/products/:pid: removes that product only. Carts that refer
        to it keep their lines. */
    method DeleteProduct(pid: ProductId) returns (r: Reply<()>)
      requires Valid()
      modifies this
      ensures Valid()
      ensures pid !in old(products) ==> r == NotFound(ProductMissing) && products == old(products)
      ensures pid in old(products) ==> r == Ok(()) && products == old(products) - {pid}
    {
      if pid !in products {
        return NotFound(ProductMissing);
      }
      products := products - {pid};
      r := Ok(());
    }

    /** An `$inc` of a product's stock by `delta`: applied without the schema's
        bound; a missing product is left alone. */
    method IncrementStock(pid: ProductId, delta: int)
      requires Valid()
      modifies this
      ensures Valid() && nextId == old(nextId)
      ensures pid in old(products) ==>
                products == old(products)[pid := old(products)[pid].(stock := old(products)[pid].stock + delta)]
      ensures pid !in old(products) ==> products == old(products)
    {
      if pid in products {
        var p := products[pid];
        products := products[pid := p.(stock := p.stock + delta)];
      }
    }
  
    /** The checkout's second pass: each line's quantity is taken off its
        product's stock, one `$inc` after another. */
    method TakeStock(lines: seq<LineItem>)
      requires Valid()
      modifies this
      ensures Valid() && nextId == old(nextId)
      ensures products == Decrement(old(products), lines)
    {
      var j := 0;
      while j < |lines|
        invariant 0 <= j <= |lines|
        invariant Valid() && nextId == old(nextId)
        invariant products == Decrement(old(products), lines[..j])
      {
        var item := lines[j];
        assert lines[..j + 1] == lines[..j] + [item];
        assert lines[..j + 1][..j] == lines[..j];
        IncrementStock(item.product, -item.quantity);
        j := j + 1;
      }
      assert lines[..j] == lines;
    }
  }
}

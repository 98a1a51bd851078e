/** The checks the create handler makes on a request body before the document
    is saved, and the field merge the update handler performs without any check. */
module ProductValidation {
  import opened Options
  import opened ProductModel
  import opened Http

  /** The body of a create request; a field that was not sent is None. */
  datatype ProductInput = ProductInput(
    title: Option<string>,
    description: Option<string>,
    price: Option<int>,
    thumbnail: Option<string>,
    code: Option<string>,
    stock: Option<int>,
    status: Option<bool>,
    category: Option<string>)

  /** The body of an update request: the fields to overwrite. */
  datatype ProductPatch = ProductPatch(
    title: Option<string>,
    description: Option<string>,
    price: Option<int>,
    thumbnail: Option<string>,
    code: Option<string>,
    stock: Option<int>,
    status: Option<bool>,
    category: Option<string>,
    owner: Option<Option<UserId>>)

  /** The required fields, in the order a rejection lists them. */
  const RequiredFields: seq<Field> := [Title, Description, Price, Code, Stock, Category]

  function Rank(f: Field): nat {
    match f
    case Title => 0
    case Description => 1
    case Price => 2
    case Code => 3
    case Stock => 4
    case Category => 5
  }

  /** Fields listed in the fixed order of RequiredFields. */
  predicate Ascending(fs: seq<Field>) {
    forall i, j :: 0 <= i < j < |fs| ==> Rank(fs[i]) < Rank(fs[j])
  }

  /** An absent or empty string is falsy. */
  predicate FalsyText(s: Option<string>) {
    s.None? || s.value == ""
  }

  /** An absent number or zero is falsy. */
  predicate FalsyNumber(n: Option<int>) {
    n.None? || n.value == 0
  }

  /** A required field counts as missing when its value is falsy, so a price or
      stock of 0 is missing. */
  predicate IsMissing(body: ProductInput, f: Field) {
    match f
    case Title => FalsyText(body.title)
    case Description => FalsyText(body.description)
    case Price => FalsyNumber(body.price)
    case Code => FalsyText(body.code)
    case Stock => FalsyNumber(body.stock)
    case Category => FalsyText(body.category)
  }

  function MissingAmong(fields: seq<Field>, body: ProductInput): seq<Field> {
    if fields == [] then []
    else (if IsMissing(body, fields[0]) then [fields[0]] else []) + MissingAmong(fields[1..], body)
  }

  /** The required fields the body lacks. */
  function MissingRequired(body: ProductInput): seq<Field> {
    MissingAmong(RequiredFields, body)
  }

  lemma {:induction false} MissingAmongMembers(fields: seq<Field>, body: ProductInput)
    ensures forall f :: f in MissingAmong(fields, body) <==> f in fields && IsMissing(body, f)
  {
    if fields != [] {
      MissingAmongMembers(fields[1..], body);
      assert fields == [fields[0]] + fields[1..];
    }
  }

  lemma AscendingCons(x: Field, t: seq<Field>)
    requires Ascending(t)
    requires forall k :: 0 <= k < |t| ==> Rank(x) < Rank(t[k])
    ensures Ascending([x] + t)
  {
    var m := [x] + t;
    forall i, j | 0 <= i < j < |m|
      ensures Rank(m[i]) < Rank(m[j])
    {
      if i == 0 {
        assert m[j] == t[j - 1];
      } else {
        assert m[i] == t[i - 1] && m[j] == t[j - 1];
      }
    }
  }

  lemma {:induction false} MissingAmongAbove(fields: seq<Field>, body: ProductInput, r: int)
    requires forall i :: 0 <= i < |fields| ==> r < Rank(fields[i])
    ensures forall k :: 0 <= k < |MissingAmong(fields, body)| ==> r < Rank(MissingAmong(fields, body)[k])
  {
    if fields != [] {
      var rest := fields[1..];
      assert forall i :: 0 <= i < |rest| ==> rest[i] == fields[i + 1];
      MissingAmongAbove(rest, body, r);
    }
  }

  lemma {:induction false} MissingAmongOrder(fields: seq<Field>, body: ProductInput)
    requires Ascending(fields)
    ensures Ascending(MissingAmong(fields, body))
  {
    if fields != [] {
      var rest := fields[1..];
      assert Ascending(rest) by {
        forall i, j | 0 <= i < j < |rest|
          ensures Rank(rest[i]) < Rank(rest[j])
        {
          assert rest[i] == fields[i + 1] && rest[j] == fields[j + 1];
        }
      }
      MissingAmongOrder(rest, body);
      var tail := MissingAmong(rest, body);
      if IsMissing(body, fields[0]) {
        assert forall i :: 0 <= i < |rest| ==> Rank(fields[0]) < Rank(rest[i]) by {
          forall i | 0 <= i < |rest| ensures Rank(fields[0]) < Rank(rest[i]) {
            assert rest[i] == fields[i + 1];
          }
        }
        MissingAmongAbove(rest, body, Rank(fields[0]));
        AscendingCons(fields[0], tail);
      } else {
        assert MissingAmong(fields, body) == tail;
      }
    }
  }

  /** A field is listed exactly when it is missing, and the list keeps the
      fixed order title, description, price, code, stock, category. */
  lemma MissingRequiredExact(body: ProductInput)
    ensures forall f :: f in MissingRequired(body) <==> IsMissing(body, f)
    ensures Ascending(MissingRequired(body))
  {
    assert forall i :: 0 <= i < |RequiredFields| ==> Rank(RequiredFields[i]) == i;
    MissingAmongMembers(RequiredFields, body);
    MissingAmongOrder(RequiredFields, body);
    forall f ensures f in RequiredFields {
      assert RequiredFields[Rank(f)] == f;
    }
  }

  /** The checks of the create handler, in its order: missing fields first,
      then negative price or stock; a body that passes becomes a document with
      the schema defaults and no owner. */
  function ValidateCreate(body: ProductInput): (r: Result<Product, Rejection>)
    ensures r.Success? ==> SchemaValid(r.value) && r.value.owner.None?
    ensures r.Success? ==> body.code == Some(r.value.code) && body.price == Some(r.value.price)
                           && body.stock == Some(r.value.stock)
    ensures r.Success? ==> body.title == Some(r.value.title) && body.description == Some(r.value.description)
                           && body.category == Some(r.value.category) && r.value.thumbnail == body.thumbnail
                           && r.value.status == body.status.GetOr(true)
  {
    MissingRequiredExact(body);
    var missing := MissingRequired(body);
    if missing != [] then Failure(MissingFields(missing))
    else
      assert !IsMissing(body, Price) && !IsMissing(body, Stock);
      assert !IsMissing(body, Title) && !IsMissing(body, Description);
      assert !IsMissing(body, Code) && !IsMissing(body, Category);
      if body.price.value < 0 || body.stock.value < 0 then Failure(NegativePriceOrStock)
      else Success(WithDefaults(body.title.value, body.description.value, body.price.value, body.thumbnail,
                                body.code.value, body.stock.value, body.status, body.category.value, Some(None)))
  }

  /** A body is accepted exactly when its four strings are non-empty and its
      price and stock are at least 1: a zero is rejected as missing, a negative
      value by the second check. */
  lemma CreateAcceptsExactly(body: ProductInput)
    ensures ValidateCreate(body).Success? <==>
              && !FalsyText(body.title) && !FalsyText(body.description)
              && !FalsyText(body.code) && !FalsyText(body.category)
              && body.price.Some? && body.price.value > 0
              && body.stock.Some? && body.stock.value > 0
    ensures MissingRequired(body) != [] ==> ValidateCreate(body) == Failure(MissingFields(MissingRequired(body)))
    ensures ValidateCreate(body) == Failure(NegativePriceOrStock) <==>
              && MissingRequired(body) == []
              && body.price.Some? && body.stock.Some?
              && (body.price.value < 0 || body.stock.value < 0)
  {
    MissingRequiredExact(body);
    if MissingRequired(body) == [] {
      assert !IsMissing(body, Price) && !IsMissing(body, Stock);
      assert !IsMissing(body, Title) && !IsMissing(body, Description);
      assert !IsMissing(body, Code) && !IsMissing(body, Category);
    } else {
      var f := MissingRequired(body)[0];
      assert IsMissing(body, f);
    }
  }

  /** The update handler's merge: every field the body supplies overwrites the
      stored one, nothing is checked. */
  function Merge(p: Product, patch: ProductPatch): Product {
    Product(
      patch.title.GetOr(p.title),
      patch.description.GetOr(p.description),
      patch.price.GetOr(p.price),
      if patch.thumbnail.Some? then patch.thumbnail else p.thumbnail,
      patch.code.GetOr(p.code),
      patch.stock.GetOr(p.stock),
      patch.status.GetOr(p.status),
      patch.category.GetOr(p.category),
      patch.owner.GetOr(p.owner))
  }

  /** Applying the same update twice is the same as applying it once, and an
      empty update changes nothing. */
  lemma MergeIdempotent(p: Product, patch: ProductPatch)
    ensures Merge(Merge(p, patch), patch) == Merge(p, patch)
    ensures Merge(p, ProductPatch(None, None, None, None, None, None, None, None, None)) == p
  {
  }

  /** An update can take a product outside the schema's declared bounds. */
  lemma MergeSkipsValidation(p: Product)
    requires SchemaValid(p)
    ensures !SchemaValid(Merge(p, ProductPatch(None, None, None, None, None, Some(-1), None, None, None)))
    ensures !SchemaValid(Merge(p, ProductPatch(None, None, Some(-1), None, None, None, None, None, None)))
  {
  }
}

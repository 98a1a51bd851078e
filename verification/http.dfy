/** What a request handler answers: a payload with status 200 or 201, or an
    error with status 404, 400 or 500 and the reason the handler gives. */
module Http {
  import opened ProductModel

  /** One cart line that fails the checkout stock check: the product's title,
      the quantity asked for and the stock on hand. */
  datatype StockFailure = StockFailure(title: string, requested: int, available: int)

  /** What a 404 answer says could not be found. */
  datatype Missing = CartMissing | ProductMissing | LineMissing

  /** Why a 400 answer rejects the request. */
  datatype Rejection =
    | InvalidQuantity
    | EmptyCart
    | InsufficientStock(failed: seq<StockFailure>)
    | MissingFields(fields: seq<Field>)
    | NegativePriceOrStock
    | DuplicateCode

  datatype Reply<+T> =
    | Ok(payload: T)
    | Created(payload: T)
    | NotFound(missing: Missing)
    | BadRequest(rejection: Rejection)
    | ServerFault
  {
    /** The HTTP status the answer is sent with. */
    function Status(): (code: nat)
      ensures IsError() <==> code >= 400
      ensures Ok? || Created? <==> 200 <= code < 300
    {
      match this
      case Ok(_) => 200
      case Created(_) => 201
      case NotFound(_) => 404
      case BadRequest(_) => 400
      case ServerFault => 500
    }

    predicate IsError() {
      NotFound? || BadRequest? || ServerFault?
    }
  }
}

/** Values shared by every route: identifiers, optional values and the
    error responses the route handlers return. */
module Common {

  /** Document identifiers (ObjectIds) and user ids, as the strings the routes
      compare; the empty string stands for a missing value. */
  type Id = string

  datatype Option<+T> = None | Some(value: T)

  /** The error responses of the route handlers, by HTTP status. */
  datatype HttpError =
    | Unauthorized              // 401
    | BadRequest(reason: Reason) // 400
    | NotFound                  // 404
    | ServerError               // 500: a thrown exception or a failed save

  /** Which 400 a route returned. */
  datatype Reason =
    | IncompleteAddress    // checkout: a shipping field is blank
    | EmptyCart            // checkout: the user has no cart
    | InvalidCartItems     // checkout: no cart line resolves to a product
    | InvalidData          // cart: missing productId or bad quantity
    | MissingFields        // admin status update: orderID or status missing
    | InvalidStatus        // admin status update: status not in the route's list
    | MissingOrderId       // pay: orderId missing
    | MissingProductFields // admin product creation: name, slug or price missing

  datatype Result<+T> = Ok(value: T) | Err(error: HttpError)
}

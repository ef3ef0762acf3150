/** The JSON responses of the route handlers, by status. */
module Http {

  datatype Response<T> =
    | Ok(body: T)
    | BadRequest(error: string)
    | NotFound(error: string)
    | ServerError(error: string)
  {
    function Status(): (code: int)
      ensures Ok? <==> code == 200
    {
      match this
      case Ok(_) => 200
      case BadRequest(_) => 400
      case NotFound(_) => 404
      case ServerError(_) => 500
    }
  }
}

/** The part of an HTTP response that the route handlers decide: the status
    code and the JSON body. */
module Http {

  const OK: nat := 200
  const Created: nat := 201
  const BadRequest: nat := 400
  const Unauthorized: nat := 401
  const Forbidden: nat := 403
  const ServerError: nat := 500

  datatype Response<+B> = Response(status: nat, body: B)
}

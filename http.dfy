/** The HTTP status codes the controllers and the exception handler use
    (the numeric values of System.Net.HttpStatusCode). */
module Http {

  const OK := 200
  const Created := 201
  const NoContent := 204
  const BadRequest := 400
  const Unauthorized := 401
  const Forbidden := 403
  const NotFound := 404
  const MethodNotAllowed := 405
  const Conflict := 409
  const UnprocessableEntity := 422
  const InternalServerError := 500
}

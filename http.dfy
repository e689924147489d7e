/** HTTP responses the routes send: a status code and a body. */
module Http {
  import opened Json
  import opened Joi
  import opened Auth
  import opened RentalModel

  datatype Body =
    | Text(message: string)
    | Denied(reason: AuthError)
    | Invalid(violation: Violation)
    | RentalBody(rental: Rental)
    | Fields(fields: Object)

  datatype Response = Response(status: int, body: Body)

  /** The gate's answer to a caller it refuses. */
  function Refused(e: AuthError): Response
  {
    Response(Auth.Status(e), Denied(e))
  }

  /** `res.status(400).send(error.details[0].message)`. */
  function BadRequest(v: Violation): Response
  {
    Response(400, Invalid(v))
  }

  /** The error middleware's answer to anything a handler throws. */
  const InternalError: Response := Response(500, Text("Something failed"))
}

/**
 * What the two payment route handlers return: an HTTP status and a JSON
 * body, and what their `catch` blocks receive.
 */
module Http {

  /** A value thrown inside a handler's `try` block. */
  datatype Thrown =
    | ErrorObject(message: string)  // an `Error` instance (a failed `request.json()`, a TypeError, a gateway error)
    | OtherValue                    // anything thrown that is not an `Error`

  /** `error instanceof Error ? error.message : fallback` */
  function CaughtMessage(e: Thrown, fallback: string): string {
    match e
    case ErrorObject(msg) => msg
    case OtherValue => fallback
  }

  datatype Body =
    | MessageBody(message: string)                               // `{ message }`
    | SuccessBody(message: string)                               // `{ success: true, message }`
    | OrderBody(orderId: string, amount: int, currency: string)  // `{ orderId, amount, currency }`

  /** `NextResponse.json(body, { status })`; the status defaults to 200. */
  datatype Response = Response(status: nat, body: Body)
}

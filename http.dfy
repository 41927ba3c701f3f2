/** HTTP responses of the mock route handlers: a status code, the `success` flag of
    the JSON body, and either the data the body carries or its `message` text. */
module Http {

  datatype Payload<T> = Data(value: T) | Message(text: string)

  datatype Response<T> = Response(status: nat, success: bool, payload: Payload<T>)

  /** `NextResponse.json({ success: true, ... })`: status 200 with data. */
  function Ok<T>(value: T): (r: Response<T>)
    ensures r.status == 200 && r.success && r.payload == Data(value)
  {
    Response(200, true, Data(value))
  }

  /** `NextResponse.json({ success: false, message }, { status })`. */
  function Fail<T>(status: nat, message: string): (r: Response<T>)
    ensures !r.success && r.status == status && r.payload == Message(message)
  {
    Response(status, false, Message(message))
  }
}

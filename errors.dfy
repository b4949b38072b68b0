/** The errors the bridge reports, with the text Go's `fmt.Errorf` gives them. */
module Errors {
  import opened MethodIds

  datatype Error =
    | InvalidEvent                   // the delivered event is not an envelope
    | MissingService                 // envelope without "service"
    | MissingMethod                  // envelope without "method"
    | HandlerNotFound(id: MethodID)  // no registered method under `id`
    | InvalidInputData(id: MethodID) // the payload does not decode for `id`
    | Failure(text: string)          // raised by a handler or by the JSON encoder
  {
    /** The error's message. */
    function Text(): string {
      match this
      case InvalidEvent => "invalid event"
      case MissingService => "event missing service"
      case MissingMethod => "event missing method"
      case HandlerNotFound(id) => "method handler not found - " + id.String()
      case InvalidInputData(id) => "invalid input data for method (" + id.String() + ")"
      case Failure(text) => text
    }
  }
}

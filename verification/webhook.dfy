/** The Aircall webhook payload and the handler's first two tests on it
    (index.js lines 158-162, 204-210). */
module Webhook {
  import opened JsValues
  import opened Optional

  /** `req.body.data`: the fields of a call the handler reads. */
  datatype CallData = CallData(direction: Prop, rawDigits: Prop, id: string)

  /** `req.body`: the event name and the call it describes; `data` is `None`
      when the payload has no such object. */
  datatype WebhookEvent = WebhookEvent(event: Prop, data: Option<CallData>)

  /** How the handler treats an event before any lookup starts. */
  datatype Classification =
    | Inbound(rawDigits: string, callId: string)  // routed: a new inbound call
    | IgnoredEvent(event: Prop)                   // logged as "Event non-handled"
    | IgnoredDirection(direction: Prop)           // logged as "Event direction non-handled"
    | Throws                                      // a property read on a missing value throws

  const CallCreated := Str("call.created")
  const InboundDirection := Str("inbound")

  /** The nested tests of the handler. `data` is read only once the event
      name matched, and `raw_digits.replace` is called only on inbound calls,
      so only those reads can throw. */
  function Classify(e: WebhookEvent): Classification
  {
    if e.event != CallCreated then IgnoredEvent(e.event)
    else match e.data
      case None => Throws
      case Some(d) =>
        if d.direction != InboundDirection then IgnoredDirection(d.direction)
        else match d.rawDigits
          case Str(raw) => Inbound(raw, d.id)
          case _ => Throws
  }
}

/**
 * The telemetry collaborator `send_custom_event`, which lives outside the error
 * module: a sink that records every event it is handed, in order.
 */
module Telemetry {
  import opened Wrappers

  /** The payload of an event: `{}` or `{"message": message}`, where message may be None. */
  type EventPayload = map<string, Option<string>>

  datatype Event = Event(name: string, payload: EventPayload)

  class Sink {
    /** Every event sent so far, oldest first. */
    ghost var events: seq<Event>

    constructor ()
      ensures events == []
    {
      events := [];
    }

    /** `send_custom_event(event=name, payload=payload)`: one more event, nothing dropped. */
    method Send(name: string, payload: EventPayload)
      modifies this
      ensures events == old(events) + [Event(name, payload)]
    {
      events := events + [Event(name, payload)];
    }
  }
}

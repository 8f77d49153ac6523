/** The immutable event record handed to subscribers. */
module Messages {
  import opened Constants

  /** One server-sent event: its `event` name, its `id`, its `retry` delay in
      milliseconds (any 32-bit value, zero and negatives included) and its `data`
      lines in the order and number they arrived. A datatype value has no setters,
      so the record cannot change once built. */
  datatype EventMessage = EventMessage(event: string, id: string, retry: int32, data: seq<string>)

  /** The record holds nothing besides its four properties: two events that agree
      on all of them are the same event. */
  lemma SameFieldsSameEvent(a: EventMessage, b: EventMessage)
    requires a.event == b.event && a.id == b.id && a.retry == b.retry && a.data == b.data
    ensures a == b
  {
  }
}

/** Event.java: the immutable envelope carried on the three message channels. */
module Events {
  import opened Util

  /** `Event.Type`: a closed enumeration. */
  datatype EventType = CREATE | DELETE

  /** An event keyed by a product id; `data` is `null` for DELETE events. The
      creation timestamp is a clock reading and is left out. Being a datatype,
      an event cannot change after it is built, as the getter-only class cannot. */
  datatype Event<T> = Event(eventType: EventType, key: int, data: Option<T>)

  /** The name Java's `Enum.toString` gives a type. */
  function TypeName(t: EventType): (s: string)
    ensures s == "CREATE" || s == "DELETE"
  {
    match t
    case CREATE => "CREATE"
    case DELETE => "DELETE"
  }

  /** The constructor `Event(type, key, data)`: stores its three arguments verbatim. */
  function NewEvent<T>(eventType: EventType, key: int, data: Option<T>): (e: Event<T>)
    ensures e.eventType == eventType && e.key == key && e.data == data
  {
    Event(eventType, key, data)
  }

  /** The message both consumers throw from their `default` branch. */
  function IncorrectEventTypeMessage(t: EventType): string
  {
    "Incorrect event type: " + TypeName(t) + ", expected a CREATE or DELETE event"
  }

  /** The enumeration has exactly two members, and they print differently. */
  lemma TypeClosed(t: EventType)
    ensures t == CREATE || t == DELETE
    ensures TypeName(t) == "CREATE" <==> t == CREATE
  {
  }
}

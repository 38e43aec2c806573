/**
 * Values that cross the Socket.IO transport of the push server
 * (server/server.py): the loosely typed JSON payloads clients send, and
 * the messages the server emits, each tagged with its event name and
 * whether it goes to every client or only to the client whose event is
 * being handled.
 */
module Wire {

  datatype Option<+T> = None | Some(value: T)

  /** A decoded JSON value, as a Socket.IO handler receives it. */
  datatype Value =
    | Null
    | Bool(b: bool)
    | Number(n: real)
    | Str(s: string)
    | Array(items: seq<Value>)
    | Object(fields: map<string, Value>)

  /** Python's `dict.get(key, default)`. */
  function Get(fields: map<string, Value>, key: string, default: Value): (v: Value)
    ensures key in fields ==> v == fields[key]
    ensures key !in fields ==> v == default
  {
    if key in fields then fields[key] else default
  }

  /**
   * Who receives an emit: `socketio.emit(...)` goes to every connected
   * client, the handler-context `emit(...)` only to the client whose event
   * (connect, toggle_button, datetime_change) is being handled.
   */
  datatype Scope = Broadcast | Sender

  /** The bodies of the three server-to-client events. */
  datatype Payload =
    | Data(randomNumber: real, boolean: bool)
    | ButtonAck(received: bool, state: Value, timestamp: real)
    | DatetimeAck(received: bool, value: Value, inputType: Value, timestamp: real)

  datatype Emit = Emit(event: string, payload: Payload, scope: Scope)

  const MessageEvent := "message"
  const ButtonAckEvent := "button_ack"
  const DatetimeAckEvent := "datetime_ack"
}

/**
 * The client-event handlers of server/server.py: `toggle_button` and
 * `datetime_change` read a payload with `.get` defaults and reply with an
 * acknowledgment to the sending client only. Neither reads nor writes the
 * server's globals, so both are functions of the payload and of the clock
 * reading `now` (the value `time.time()` returned).
 *
 * A payload that is not a JSON object has no `.get`; the AttributeError is
 * caught by the handler's `except`, which only logs, so no ack is sent.
 */
module EventHandlers {
  import opened Wire

  const ToggleButtonEvent := "toggle_button"
  const DatetimeChangeEvent := "datetime_change"

  const ButtonStateKey := "buttonState"
  const DatetimeValueKey := "datetimeValue"
  const InputTypeKey := "inputType"

  /** Reply to `toggle_button`. */
  function HandleToggleButton(data: Value, now: real): (r: Option<Emit>)
    ensures r.Some? <==> data.Object?
    ensures r.Some? ==> r.value.event == ButtonAckEvent && r.value.scope == Sender
    ensures r.Some? ==> r.value.payload.ButtonAck? && r.value.payload.received
                        && r.value.payload.timestamp == now
    ensures data.Object? && ButtonStateKey in data.fields ==>
              r.value.payload.state == data.fields[ButtonStateKey]
    ensures data.Object? && ButtonStateKey !in data.fields ==>
              r.value.payload.state == Bool(false)
  {
    match data
    case Object(fields) =>
      Some(Emit(ButtonAckEvent, ButtonAck(true, Get(fields, ButtonStateKey, Bool(false)), now), Sender))
    case _ => None
  }

  /** Reply to `datetime_change`. */
  function HandleDatetimeChange(data: Value, now: real): (r: Option<Emit>)
    ensures r.Some? <==> data.Object?
    ensures r.Some? ==> r.value.event == DatetimeAckEvent && r.value.scope == Sender
    ensures r.Some? ==> r.value.payload.DatetimeAck? && r.value.payload.received
                        && r.value.payload.timestamp == now
    ensures data.Object? && DatetimeValueKey in data.fields ==>
              r.value.payload.value == data.fields[DatetimeValueKey]
    ensures data.Object? && DatetimeValueKey !in data.fields ==>
              r.value.payload.value == Str("")
    ensures data.Object? && InputTypeKey in data.fields ==>
              r.value.payload.inputType == data.fields[InputTypeKey]
    ensures data.Object? && InputTypeKey !in data.fields ==>
              r.value.payload.inputType == Str("datetime")
  {
    match data
    case Object(fields) =>
      Some(Emit(DatetimeAckEvent,
                DatetimeAck(true, Get(fields, DatetimeValueKey, Str("")),
                            Get(fields, InputTypeKey, Str("datetime")), now),
                Sender))
    case _ => None
  }

  /**
   * Routing of client events to the handlers registered with
   * `@socketio.on`; an event with no handler gets no reply.
   */
  function Dispatch(event: string, data: Value, now: real): (r: Option<Emit>)
    ensures r.Some? ==> r.value.scope == Sender
    ensures r.Some? ==> data.Object?
    ensures event != ToggleButtonEvent && event != DatetimeChangeEvent ==> r.None?
    ensures r.Some? ==> (event == ToggleButtonEvent && r.value.event == ButtonAckEvent)
                        || (event == DatetimeChangeEvent && r.value.event == DatetimeAckEvent)
    ensures (event == ToggleButtonEvent || event == DatetimeChangeEvent) && data.Object? ==> r.Some?
    ensures event == ToggleButtonEvent ==> r == HandleToggleButton(data, now)
    ensures event == DatetimeChangeEvent ==> r == HandleDatetimeChange(data, now)
  {
    if event == ToggleButtonEvent then HandleToggleButton(data, now)
    else if event == DatetimeChangeEvent then HandleDatetimeChange(data, now)
    else None
  }

  /**
   * The toggle ack depends on `buttonState` alone: the client id and any
   * other key of the payload do not change it.
   */
  lemma ToggleAckOnlyReadsButtonState(f1: map<string, Value>, f2: map<string, Value>, now: real)
    requires (ButtonStateKey in f1) == (ButtonStateKey in f2)
    requires ButtonStateKey in f1 ==> f1[ButtonStateKey] == f2[ButtonStateKey]
    ensures HandleToggleButton(Object(f1), now) == HandleToggleButton(Object(f2), now)
  {
  }

  /**
   * The datetime ack depends on `datetimeValue` and `inputType` alone.
   */
  lemma DatetimeAckOnlyReadsValueAndType(f1: map<string, Value>, f2: map<string, Value>, now: real)
    requires (DatetimeValueKey in f1) == (DatetimeValueKey in f2)
    requires DatetimeValueKey in f1 ==> f1[DatetimeValueKey] == f2[DatetimeValueKey]
    requires (InputTypeKey in f1) == (InputTypeKey in f2)
    requires InputTypeKey in f1 ==> f1[InputTypeKey] == f2[InputTypeKey]
    ensures HandleDatetimeChange(Object(f1), now) == HandleDatetimeChange(Object(f2), now)
  {
  }
}

# Push server connection and broadcast state, in Dafny

This project models the core of a small Flask-SocketIO push server
(`server/server.py`). The server keeps three module globals:

- `bool_state`, the toggle value;
- `running`, the flag of the background loop;
- `clients_connected`, a counter.

Four handlers update these globals in place:

- connect counts the client, starts the background task if `running` is
  false, and welcomes the client with the current toggle value;
- disconnect decrements the counter;
- the background task loops `while running`, broadcasting a random number
  and the toggle value, then negating the toggle;
- the termination signal handler clears `running`.

Two client events, `toggle_button` and `datetime_change`, are answered
with an acknowledgment to the sender only. Missing payload keys fall back
to fixed defaults. `/health` reports the counter and the flag.

Layout:

- `wire.dfy` (module `Wire`): JSON payload values (`Value`), Python's
  `dict.get`, and the emitted messages. An `Emit` is an event name, a
  payload and a scope. The scope is `Broadcast` for `socketio.emit` and
  `Sender` for the handler-context `emit`.
- `event_handlers.dfy` (module `EventHandlers`): the two acknowledgment
  builders as pure functions of the payload and the clock reading, plus
  the routing of event names to them.
- `broadcast_loop.dfy` (module `BroadcastLoop`): `Broadcasts`, the
  specification of what the background loop emits over a schedule of
  passes, and lemmas about it. The lemmas cover strict alternation,
  silence after the signal, failed emits being skipped, and extension by
  one pass.
- `server_state.dfy` (module `Server`): class `ServerState` holding the
  three globals and the ghost counters `tasksStarted`, `connects`,
  `disconnects` and `signals`. Its methods are the handlers and the loop itself
  (`BackgroundThread`). The loop is proved against `Broadcasts`.

Each pass of the background loop is an `Iteration`. It carries the number
`random.random()` returned, whether `socketio.emit` raised, and whether
the termination signal was handled while that pass slept. That is the
only interleaving modelled. Besides the signal handler, only the
`__main__` block clears `running` (server/server.py:190, 194), after the
server has stopped.

The comment at server/server.py:96 ties the background task to the first
client, but the code differs from what that suggests:

- The loop does not stop when the last client disconnects. Disconnect only
  decrements the counter, and `running` stays true.
- The counter has no lower bound.
- The toggle value is not reset when the loop restarts; it persists.
- So "running if and only if clients > 0" is not an invariant.

`Server.ServerState.Valid` states what does hold:

- the counter equals connects minus disconnects;
- `running` implies that a task was started;
- at most one task more than the number of signals handled was started, and
  none more while `running` is false, so only a signal makes a second task
  possible;
- no more tasks were started than connects were handled.

## Model

| member | source | states |
|---|---|---|
| `Server.ServerState.constructor` | server/server.py:35-38 | Initial globals: toggle true, not running, zero clients, no task started. |
| `Server.ServerState.HandleConnect` | server/server.py:90-106 | The counter goes up by exactly one. A task is started exactly when `running` was false, and `running` is true afterwards (single-flight start). The toggle is unchanged. The welcome is a `message` to the sender only, carrying the given random number and the current toggle value. |
| `Server.ServerState.HandleDisconnect` | server/server.py:108-112 | The counter goes down by exactly one, with no lower bound. `running`, the toggle and the task count are untouched, so the loop is not stopped. |
| `Server.ServerState.SignalHandler` | server/server.py:40-46 | `running` becomes false, the ghost signal count goes up by one, and nothing else changes. |
| `Server.ServerState.Tick` | server/server.py:59-86 | If the emit succeeds, one broadcast `message` carries the pre-tick toggle, and the toggle is then negated. If the emit raises, nothing is sent and the toggle is kept. |
| `Server.ServerState.BackgroundThread` | server/server.py:52-88 | The loop body runs only while `running` holds. The broadcasts are exactly `Broadcasts` of the entry toggle, or none if not running on entry. `count` equals the number of broadcasts. The toggle ends flipped once per broadcast. `running` ends true exactly when it was true and no signal arrived; the signal count rises by one exactly when the loop was stopped by a signal. |
| `Server.ServerState.LastDisconnectKeepsLoopRunning` | server/server.py:90-112 | After one connect and one disconnect, the counter is 0 while `running` is still true with one task started. |
| `Server.ServerState.ReconnectStartsNoTask` | server/server.py:96-106 | A reconnect after everyone left starts no second task. Its welcome carries the toggle value as one tick left it (false), not reset to true. |
| `Server.ServerState.DisconnectFirstGoesNegative` | server/server.py:108-112 | A disconnect with no earlier connect leaves the counter at -1. |
| `Server.ServerState.Health` | server/server.py:164-171 | The report gives status "running", the current counter, the `running` flag and async mode "threading". It only reads state. |
| `BroadcastLoop.BroadcastsAlternate` | server/server.py:58-76 | Every broadcast is a `message` to all clients. The n-th broadcast's boolean is the entry toggle flipped n times, so the values strictly alternate from the entry value. There is at most one broadcast per pass. |
| `BroadcastLoop.BroadcastsStopAtSignal` | server/server.py:40-46 | Passes after the one during which the signal cleared `running` emit nothing. |
| `BroadcastLoop.BroadcastsCarrySentRandoms` | server/server.py:59-86 | With no signal, the broadcasts carry the random numbers of exactly the passes whose emit did not raise, in order. |
| `BroadcastLoop.BroadcastsSnoc` | server/server.py:58-76 | One more pass after quiet passes appends that pass's send. That send uses the toggle flipped once per earlier broadcast. |
| `EventHandlers.HandleToggleButton` | server/server.py:114-131 | A `button_ack` goes to the sender exactly when the payload is an object, with `received` true and the given timestamp. `state` is `buttonState` if present, else false. |
| `EventHandlers.HandleDatetimeChange` | server/server.py:133-152 | A `datetime_ack` goes to the sender exactly when the payload is an object, with `received` true and the given timestamp. `value` is `datetimeValue`, else "". `type` is `inputType`, else "datetime". |
| `EventHandlers.Dispatch` | server/server.py:114-152 | `toggle_button` gets exactly the `HandleToggleButton` reply and `datetime_change` exactly the `HandleDatetimeChange` reply. Either one with an object payload is always answered. Replies go only to the sender, only for object payloads, and other events get no reply. |
| `EventHandlers.ToggleAckOnlyReadsButtonState` | server/server.py:117-128 | Payloads that agree on `buttonState` get the same ack; `clientId` and other keys do not change it (with the log print succeeding, see Left out). |
| `EventHandlers.DatetimeAckOnlyReadsValueAndType` | server/server.py:136-149 | Payloads that agree on `datetimeValue` and `inputType` get the same ack. |

## Left out

- Flask, CORS and Socket.IO setup, transports and delivery (server/server.py:19-33): an emit is a returned `Emit` value.
- `random.random()` and `time.time()` are floats and a clock; they are `real` parameters of the handlers and of each loop pass.
- `time.sleep` pacing and the real thread interleaving of the unsynchronized globals. Within the loop, the only modelled interleaving is the signal handler running during a pass's sleep.
- Server.ServerState.HandleConnect: assumes the welcome is built before the newly started task's first tick. In the source that task could flip `bool_state` before line 105 reads it.
- Server.ServerState.HandleConnect: the single-flight start holds only for connects handled one at a time. In the source, two concurrent connects can both pass `if not running` (server/server.py:97-99) and start two loops. Both loops then flip `bool_state` (line 75), so neither loop's broadcasts alternate. This double-start race is not modelled.
- Server.ServerState.BackgroundThread: a connect during the signalled pass's sleep would set `running` again, and the old loop would go on. This signal-then-connect re-arm is not modelled: the model stops the loop after the signalled pass.
- Server.ServerState.BackgroundThread: runs over a finite schedule of passes. The source loop has no bound and runs until `running` is false.
- Server.ServerState.Tick: a failure of the log `print` after a successful emit is not modelled. Such a failure would send the message without flipping the toggle. If stdout is closed or a broken pipe, the `except` branch's own print (server/server.py:82) fails too. The exception then leaves `background_thread` and the thread ends with `running` still true, so no later connect restarts it (line 97) and `/health` keeps reporting the thread as running.
- EventHandlers.HandleToggleButton: a failure of the log `print` at server/server.py:121 is not modelled. It runs inside the `try` before the `emit`, so in the source a string it cannot encode suppresses the ack. Examples are a lone surrogate in `clientId` or `buttonState`, or the emoji on a stdout that cannot represent them. Dafny's `string` holds only Unicode scalar values, so the model cannot represent a lone surrogate. Text encoding is not modelled.
- EventHandlers.HandleDatetimeChange: the same for the log `print` at server/server.py:141. A string it cannot encode in `clientId`, `datetimeValue` or `inputType` suppresses the ack in the source.
- EventHandlers.ToggleAckOnlyReadsButtonState: holds only over payloads the model represents and with a log print that succeeds. In the source, a `clientId` the print cannot encode decides that no ack is sent.
- EventHandlers.DatetimeAckOnlyReadsValueAndType: the same caveat, for `clientId` at server/server.py:141.
- `print` logging in every handler. `clientId` is read only for logging, so it appears in no reply.
- `sys.exit` in the signal handler, the signal registration, and the `__main__` run block (server/server.py:46-50, 173-195): process control.
- An exception raised by the handler-context `emit` in the ack handlers: such an exception is caught and only logged. The model sends no ack only for non-object payloads, where `.get` raises.
- The `/` status page, server/run_prod_server.py, server/run_server.py, server/diagnostic.py, server/gunicorn.conf.py and client/src/App.jsx: startup scripts, process supervision, environment checks, static configuration and UI.

# miro-board-telegram-bot, modelled in Dafny

The bot watches Miro boards for a Telegram chat. Three commands drive it:

- `/start` registers the board named by `BOARD_ID` and spawns a worker that polls the board's widgets every ten minutes.
- `/stop` signals that worker to stop.
- `/help` sends a help message.

A worker notifies the chat when a burst of edits has ended. That happens at the first poll that finds the widgets unchanged after a poll that found them changed.

The model covers the logic of `main.go`:

- `config.dfy`: the environment lookups `getTokenMiro` and `getBoardID`, over an environment map.
- `bytes.dfy`: `bytes.Compare`, the lexicographic order on byte strings, which is the worker's only comparison between two snapshots.
- `detector.dfy`: the change detector as specification functions over the sequence of polled snapshots.
  - `Changes` gives each tick's "differs" flag.
  - `FallingEdges` gives the ticks at which a notification fires.
  - `TrueToFalse` is an independent count of true-to-false transitions.
- `boards.dfy`: the `boards` table as a class `Registry`.
  - Its methods `StartMonitoringBoard` and `StopMonitoringBoard` update the table in place.
  - A log of spawned workers and of the stop signals sent stands in for the goroutines and their channels.
  - It also holds the notification text built by `sendNotification`.
- `monitor.dfy`: `notifyOnChangesWorker` as a method with a `while` loop.
  - The outside world is an input: at each turn of the loop, either the stop signal is waiting (`Quit`), or a poll returns a snapshot together with what sending a notification would return (`Poll`).
  - The method is proved against the detector's specification. Lemmas derive from it the properties a user sees: the first tick never notifies, a quiet board never notifies, and one notification is sent per true-to-false transition.
- `dispatch.dfy`: `tryToHandleMessage`, which routes a message on an exact match of its text.

Three behaviours of the code are worth knowing:

- `stopMonitoringBoard` never removes the board's entry.
- `startMonitoringBoard` overwrites an existing entry and spawns a second worker. The first worker's stop handle is then held by no entry (`OverwriteOrphans`).
- Stopping a board that was never registered sends on the zero Board's nil channel, which blocks for ever. It does not return a not-found error.

## Model

| member | source | states |
|---|---|---|
| Config.Getenv | main.go:18 | A set variable reads as its value; a variable that is not set reads as "". |
| Config.UnsetMessage | main.go:20 | The error message is "environmental variable ", then the variable's name, then " does not set". |
| Config.Required | main.go:17-31 | A required variable is an error exactly when it is unset or empty; otherwise the result is its value. The error names the variable. |
| Config.GetTokenMiro | main.go:17-23 | Errors exactly when TOKEN_MIRO is unset or ""; otherwise returns its non-empty value. |
| Config.GetBoardId | main.go:25-31 | Errors exactly when BOARD_ID is unset or ""; otherwise returns its non-empty value. |
| Bytes.Compare | main.go:93 | Returns -1, 0 or 1, and returns 0 exactly when the two byte strings are equal. |
| Bytes.CompareAntisymmetric | main.go:93 | Swapping the arguments of the comparison negates its result. |
| Bytes.ComparePrefix | main.go:93 | A proper prefix compares as less than the string it begins. |
| Bytes.CompareFirstDifference | main.go:93 | The first differing byte, read as an unsigned value, decides the order. |
| Detector.Differs | main.go:93-94 | `haveChangesNow` is true exactly when the new snapshot is not byte-equal to the old one. |
| Detector.Changes | main.go:92-94 | The detector's flags: one "differs" flag per polled snapshot. |
| Detector.ChangesExact | main.go:92-94 | Tick i's flag is set exactly when its snapshot differs from the one stored before it: the initial snapshot for tick 0, otherwise snapshot i-1. |
| Detector.ChangesSnoc | main.go:102-103 | One more poll appends exactly that tick's comparison with the last stored snapshot and leaves the earlier flags unchanged. |
| Detector.FallingEdges | main.go:95-96 | The ticks at which the edge rule notifies: no more entries than ticks, each a tick of the run, in strictly increasing order. |
| Detector.FallingEdgesExact | main.go:95-96 | The notified ticks are exactly the ticks where the previous flag is set and the current one is not. They are listed in increasing order, each once. |
| Detector.TrueToFalseSnoc | main.go:95-96 | Appending a flag adds one transition exactly when the last flag was set and the new one is not. |
| Detector.FallingEdgeCount | main.go:95-103 | The number of notifications equals the number of true-to-false transitions, counted front to back by an independent definition. |
| Detector.FirstTickNeverFires | main.go:83-95 | Tick 0 never notifies, whatever it observes. |
| Detector.UniformNeverFires | main.go:95-96 | A flag sequence that never changes value never notifies. |
| Detector.ConstantNeverDiffers | main.go:92-94 | When every snapshot equals the initial one, no tick's flag is set. |
| Detector.ConstantNeverFires | main.go:92-96 | A run whose snapshots all equal the initial one never notifies, whatever its length. |
| Detector.TwoEditBursts | main.go:92-103 | After an initial A, the snapshots A,B,B,A,A give the flags F,T,F,T,F, and notifications fire at ticks 2 and 4. |
| Boards.Lookup | main.go:72-73 | Reading a registered id gives its entry. Reading an absent id gives the zero Board: empty name and link and a nil stop channel. |
| Boards.NotificationText | main.go:74-77 | The text is "On board ", then the board's name, then " changes were made: ", then its link. |
| Boards.Notification | main.go:71-78 | The message goes to the worker's chat. Its text names the board registered under the id at sending time, or is built from empty strings when no board is registered. |
| Boards.HandlesDistinct | main.go:179-181 | Two registered boards never share a stop handle, so stopping one cannot stop another's worker. |
| Boards.OverwriteOrphans | main.go:178-182 | Re-registering a board keeps every entry tied to a worker of its own board. The earlier worker's handle is then held by no entry. |
| Boards.Registry.constructor | main.go:114 | The table starts empty, with no worker spawned and no signal sent. |
| Boards.Registry.StartMonitoringBoard | main.go:169-185 | Errors with BOARD_ID's message, then TOKEN_MIRO's, when the variable is missing, and leaves the table unchanged. On success it sets `boards[id]` to the fetched name and link with a fresh handle, changes no other key, records one spawned worker for that board, token and chat, and keeps the table consistent. |
| Boards.Registry.StopMonitoringBoard | main.go:187-200 | Never changes the table. Without BOARD_ID it errors and sends nothing. For an unregistered id it blocks. Otherwise it signals that board's handle, and only then checks TOKEN_MIRO and returns its error. |
| Monitor.FallingEdgesSnoc | main.go:95-96 | One more flag adds a notification at that tick exactly when the edge rule fires there. |
| Monitor.ExpectedStep | main.go:92-103 | The detector's state after k+1 ticks is the worker's state update applied to the state after k ticks. The update stores the new snapshot and flag, and notifies exactly on a falling edge. |
| Monitor.Tick | main.go:91-103 | A poll turn that delivers or sends nothing moves to the detector's state after k+1 ticks. A failed notification returns that same error, on a tick where the edge rule fired, with the notification recorded and the snapshot and flag not stored. |
| Monitor.NotifyOnChangesWorker | main.go:82-106 | The run returns nil on the stop signal and returns the notification's error on a failed send. Its notifications are exactly the falling edges of the ticks it ran, one message each, and every notification of a completed tick was delivered. After each completed tick, `widgetsOld` is that tick's snapshot and `haveChangesBefore` its flag. |
| Monitor.ExplainsNotified | main.go:95-100 | However a run ended, its notifications are the falling edges of the flags of the ticks it began, each carrying the board's message. |
| Monitor.PolledAt | main.go:92 | The i-th polled snapshot is the one fetched at turn i. |
| Monitor.FirstTickNeverNotifies | main.go:83-95 | No run of the worker notifies on its first tick. |
| Monitor.QuietBoardNeverNotifies | main.go:92-100 | A board whose widgets never change is never reported, so the run never fails on a send. |
| Monitor.NotificationCount | main.go:95-103 | A run sends one message per true-to-false transition of its flags. |
| Dispatch.Route | main.go:141-166 | Start, Stop and Help are chosen exactly when the text is "/start", "/stop" or "/help". Every other text, the empty one included, is ignored. |
| Dispatch.RouteIgnoresNearMisses | main.go:147-166 | "/start", "/stop" or "/help" with any text before or after it is ignored. |
| Dispatch.TryToHandleMessage | main.go:134-167 | A body that does not decode does nothing. Otherwise the routed command runs its own action only: start updates the table and the worker log as `StartMonitoringBoard` states, stop never changes the table, errors with BOARD_ID's message and sends nothing without it, blocks and sends nothing for an unregistered board, and otherwise sends that board's signal and then returns TOKEN_MIRO's error, if any. Help returns what sending the help message returns. Help and ignore leave the registry unchanged. |

## Left out

- HTTP requests (`getBoardName`, `getWidgets`, `sendMessage`) are not modelled. Their results are inputs: the name and link for a start, the snapshot of each poll, and what a send returns.
- The snapshot fetched before the loop is the `initial` parameter of the worker.
- The panic when a widget fetch fails is not modelled, because each fetch is an input that always succeeds.
- JSON decoding of the webhook body is not modelled. The decoded message, or the decoding error, is an input to `TryToHandleMessage`.
- The Telegram and Miro struct types, `main`, `handler`, `.env` loading and logging are not modelled: they carry no logic.
- `showHelp`'s text is a constant and is not modelled. What sending it returns is an input.
- Goroutines and channels are not modelled as concurrent objects.
  - A start records the worker it spawns; a stop records the handle it writes to.
  - The worker receives stop signals as `Quit` events.
  - Nothing links a recorded signal to a later `Quit` of that worker.
  - A channel's buffer of two, and the panic on sending to a channel the worker has closed, are not modelled.
- `time.Sleep` between polls is not modelled. One event stands for one turn of the loop.
- Monitor.NotifyOnChangesWorker: the loop in main.go runs forever; the model runs over a finite sequence of events and reports `Running` when they run out.
- Monitor.NotifyOnChangesWorker: the `boards` table is read once, when the run begins, to build the message. A concurrent start that renames the board during a run is not modelled.
- Boards.Registry.StopMonitoringBoard: for an unregistered board the nil-channel send blocks for ever. The model returns `blocked`, and `Dispatch.TryToHandleMessage` passes it on; nothing more happens. The goroutine left waiting is not modelled.
- Boards.Registry.StartMonitoringBoard: when the board-metadata reply decodes but has no string `name` or `viewLink`, the type assertions at main.go:50 panic. The handler then ends before main.go:181-182, so nothing is registered and no worker is spawned. The model takes `name` and `link` as inputs that always arrive, so it registers the board and logs a worker whenever both variables are set.
- Boards.Registry.StopMonitoringBoard: the same panic can happen at main.go:197, after the signal has been sent. The model returns the TOKEN_MIRO result there and does not model the panic.
- Concurrent access to the `boards` map from several handlers at once is not modelled; operations on the registry are sequential.

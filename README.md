# Docker log streamer: the stream table and its handlers

DockerLogStreamer is a small Flask-SocketIO server. A browser asks it for the
running containers of a Docker daemon and for the live logs of one of them.
A `start_logs` request starts a background thread only when a Docker client
exists, the payload names a `container_id` and the lookup of that container
succeeds. The thread reads the container's log chunks and emits every
non-empty, stripped chunk as a `log` event. The module-level dictionary
`active_streams` maps a container id to the thread registered for it.
Entries are deleted by the helper `stop_stream`, which the `stop_logs` and
`disconnect` handlers call for every key, and by `start_logs` itself, which
drops the container's old entry before its lookup (app.py:271-272). A
thread stops looping once its container id is no longer in the table. On
its way out, the thread deletes the table entry for that container id.

This project models that bookkeeping as a sequential state machine:

- `Registry` (registry.dfy) holds `stop_stream`, the key-by-key loop of
  `stop_logs`, `start_logs` and each of its parts, and each step of a
  thread's body as a transition on a `State`. `get_containers` and
  `disconnect` have no transition there; the methods for them state the
  new fields directly. A `State`
  has the table, the list of emitted events and a counter that gives each
  started stream its own id. The lemmas about those transitions are in the
  same module.
- `App.LogStreamer` (app.dfy) is a class. Its fields are the module-level
  state. Its methods are the handlers and the steps. `start_logs` is split
  at the two points where another thread can run: `BeginStart` (up to the
  lookup, including the deletion of the old entry), `Launch` (the lookup,
  the registration and `thread.start()`) and `Announce` (the "Connected"
  line). `StartLogs` runs the three with nothing in between. A thread's
  body is two methods: `ChunkStep` (one loop iteration) and `ExitStep`
  (the `except`/`finally`). `StreamLogs` runs one whole body with nothing
  in between. A caller interleaves these calls in any order, so each
  interleaving of whole steps is a sequence of calls; a step itself is
  atomic. Every handler and step method except `GetContainers`,
  `Disconnect` and the helper `Emit` is tied to its `Registry` transition
  through `Abs()`. Each handler and step method keeps the invariant `Valid()`:
  registered ids were handed out before, and no two containers share a
  stream. `Emit` is a helper that only appends one event.
- `Containers` (containers.dfy) holds the projection that `get_containers`
  applies to the container records.
- `Text` (text.dfy) holds Python's `str.strip()` over the characters that
  `str.isspace` accepts.
- `Events` (events.dfy) holds the emitted events and the message texts.

The table is keyed by container id alone. Giving each stream its own id
makes the consequences of that visible:

1. Suppose the same container is started a second time while its first
   thread is still running. The second start replaces the table entry.
   The first thread still passes the `container_id in active_streams`
   check, so its chunks that arrive after the re-registration are emitted
   after the new stream's "Connected" line.
2. When that first thread finishes, its `finally` deletes the entry of the
   second stream, even though the second stream is still running.
3. While the second start waits for its lookup, the container has no
   entry: a chunk of the first thread in that window ends its loop. If the
   first thread's exit then runs after the re-registration, it again
   deletes the second stream's entry.
4. The new thread runs from `thread.start()` on, so its first line, or its
   error and its exit, can be emitted before its own "Connected" line.

`Registry.SupersededStreamInterferes` proves the first two,
`Registry.LookupWindowBreaksOldStream` the third and
`Registry.NewStreamBeforeAnnouncement` the fourth. No event records which
viewer it is for, and the broadcast `socketio.emit` of the thread sends
lines to every connected viewer.

What the code does not do:

- It has no per-viewer stream keys. Any viewer's `stop_logs` or
  disconnect clears the whole table.
- It does not strip frame headers and does not reassemble lines across
  chunks. Each chunk is stripped and emitted on its own.
- It emits no "stream ended" or "Disconnected" event.
- It cannot interrupt a blocked read. A stopped thread notices the stop
  only when its next chunk arrives, as `Registry.StoppedStreamFallsSilent`
  shows.

## Model

| member | source | states |
|---|---|---|
| `Text.TrimStart` | app.py:283 | `strip()`'s left half: the result is a suffix of the text, everything dropped is whitespace, and the result does not start with whitespace |
| `Text.TrimEnd` | app.py:283 | `strip()`'s right half: the result is a prefix of the text, everything dropped is whitespace, and the result does not end with whitespace |
| `Text.Strip` | app.py:283 | the stripped message is no longer than the chunk, and when it is not empty it neither starts nor ends with whitespace |
| `Text.StripIsSlice` | app.py:283 | the stripped message is a contiguous slice of the chunk |
| `Text.StripCutsWhitespace` | app.py:283 | only whitespace is cut away, on either side of the stripped message |
| `Text.StripEmptyIff` | app.py:283-284 | the message is empty, so nothing is emitted, exactly when the chunk is all whitespace |
| `Text.StripIdempotent` | app.py:283 | stripping an already stripped message changes nothing |
| `Containers.Summarize` | app.py:250-255 | one summary per container, in input order, with the same id and name; the image is the first tag, or "unknown" when there are no tags |
| `Registry.StopStream` | app.py:320-322 | only key `cid` is removed; the other entries, the events and the id counter are unchanged |
| `Registry.StopKeys` | app.py:316-317 | stopping a list of keys one by one only removes entries and never touches the events or the id counter |
| `Registry.StopStreamIdempotent` | app.py:320-322 | stopping the same key twice is the same as stopping it once |
| `Registry.StopKeysAppend` | app.py:316-317 | stopping keys one after another composes: stopping `a + b` is stopping `a`, then `b` |
| `Registry.StopKeysRemoves` | app.py:316-317 | stopping a list of keys removes exactly those keys, whatever their order, and keeps every other entry, the events and the counter |
| `Registry.StopAllKeysEmpties` | app.py:313-317 | stopping every key of a snapshot of the table empties it and changes nothing else |
| `Registry.StartBegin` | app.py:263-272 | the start goes on to the lookup exactly when there is a client and the payload has a "container_id"; it then has dropped that container's old entry and changed nothing else. Otherwise the table is untouched, and a payload without "container_id" leaves the whole state unchanged |
| `Registry.StartLaunch` | app.py:274-310 | a stream is launched exactly when the lookup succeeds. It gets the next fresh id and is registered under the container, and the counter moves on. A failed lookup only emits "Failed to start logs: …" |
| `Registry.StartAnnounce` | app.py:303-307 | appends one `system` line "Connected to container: <name>" and changes nothing else |
| `Registry.StartLogs` | app.py:262-310 | a stream is launched exactly when there is a client, a "container_id" and a successful lookup, and it is then the stream registered for its container |
| `Registry.StartWithoutClient` | app.py:264-266 | with no Docker client, a start emits exactly one "Docker not connected" error, leaves the table unchanged and launches no stream |
| `Registry.StartLookupFails` | app.py:270-310 | when the container lookup raises, the old entry is already gone: the key is absent, the other entries are kept, one "Failed to start logs: …" error is emitted, and no stream is launched |
| `Registry.StartRegisters` | app.py:268-307 | a successful start leaves exactly one entry for the container, and that entry belongs to the new stream. The new stream's id is fresh. The stream it superseded is no longer registered anywhere. Other entries are unchanged. One `system` line "Connected to container: <name>" is emitted |
| `Registry.InitValid` | app.py:30 | the empty table at start-up satisfies the invariant |
| `Registry.StopStreamValid` | app.py:320-322 | stopping a stream keeps the invariant |
| `Registry.StartLogsValid` | app.py:262-310 | every outcome of a start keeps the invariant |
| `Registry.ChunkStep` | app.py:279-289 | one loop iteration never changes the table or the id counter; it goes on exactly when the stream's container is registered, and when it breaks it changes nothing |
| `Registry.Line` | app.py:283-289 | a chunk yields no event exactly when it is all whitespace; otherwise exactly one `stdout` line carrying the stripped chunk |
| `Registry.ChunkStepValid` | app.py:279-289 | a loop iteration keeps the invariant |
| `Registry.ExitStep` | app.py:291-295 | after the exit, whether the loop ended normally, broke out or raised, the key is absent. The other entries are unchanged, and the only event emitted is the "Log stream error: …" of an exception, if one was raised |
| `Registry.ExitStepValid` | app.py:293-295 | a stream's exit keeps the invariant |
| `Registry.ChunkStepIgnoresOwner` | app.py:280-281 | the membership check looks only at the container id: two streams for the same container behave alike whoever owns the entry |
| `Registry.Pump` | app.py:279-289 | the loop never changes the table or the counter; it runs to the end exactly when there are no chunks or the container is registered, and when it breaks it changes nothing |
| `Registry.Messages` | app.py:279-289 | the lines of a run of chunks are at most one per chunk |
| `Registry.MessagesAppend` | app.py:279-289 | the lines for two runs of chunks are the lines of the first run followed by those of the second, so lines follow chunk order |
| `Registry.MessagesAreLines` | app.py:283-289 | every line a registered stream emits is tagged `stdout`, non-empty, and neither starts nor ends with whitespace |
| `Registry.PumpRegistered` | app.py:279-289 | while its container is registered, the loop goes through every chunk and appends exactly the non-empty stripped chunks, in order, tagged `stdout` |
| `Registry.PumpUnregistered` | app.py:279-281 | once its container is not registered, the loop breaks at the next chunk and emits nothing |
| `Registry.RunStream` | app.py:277-295 | a whole stream body ends with its key absent, every other entry kept and the counter unchanged |
| `Registry.RunStreamOutcome` | app.py:277-295 | a whole stream body emits its lines and then the error of an exception, if any. It emits nothing if it finds its key gone |
| `Registry.StoppedStreamFallsSilent` | app.py:280-281 | after `stop_stream` on its container, a stream's next chunk step breaks without emitting |
| `Registry.SupersededStreamInterferes` | app.py:270-301 | after two starts for one container, the two streams have distinct ids and only the second is registered. A chunk from the first is still emitted after the second's "Connected" line. The first's exit then removes the second's entry |
| `Registry.LookupWindowBreaksOldStream` | app.py:270-301 | between a restart's deletion of the old entry and its registration, the old stream's next chunk ends its loop without emitting; the old stream's exit after the registration removes the new entry |
| `Registry.NewStreamBeforeAnnouncement` | app.py:298-307 | after `thread.start()` and before the "Connected" emit, the new stream's line, or its error and the removal of its entry, already come before the "Connected" line |
| `App.LogStreamer.constructor` | app.py:27-30 | the module state at start-up: whether a client exists, an empty table, no events |
| `App.LogStreamer.StopStream` | app.py:320-322 | removes only key `cid`, as `Registry.StopStream` |
| `App.LogStreamer.StopLogs` | app.py:313-317 | stops every key of a snapshot of the table, each key once and in some order; afterwards the table is empty and the events are unchanged |
| `App.LogStreamer.Disconnect` | app.py:325-328 | disconnecting leaves the table empty and changes nothing else |
| `App.LogStreamer.BeginStart` | app.py:263-272 | the part of a start before the lookup, as `Registry.StartBegin` |
| `App.LogStreamer.Launch` | app.py:274-310 | the lookup, the registration and `thread.start()`, as `Registry.StartLaunch` |
| `App.LogStreamer.Announce` | app.py:303-307 | appends the `system` line "Connected to container: <name>" and changes nothing else |
| `App.LogStreamer.StartLogs` | app.py:262-310 | a start run without interruption updates the table and events as `Registry.StartLogs`, and returns the launched stream |
| `App.LogStreamer.ChunkStep` | app.py:279-289 | one loop iteration, as `Registry.ChunkStep`; `more` is false exactly when the loop breaks |
| `App.LogStreamer.ExitStep` | app.py:291-295 | the `except`/`finally` of a stream, as `Registry.ExitStep` |
| `App.LogStreamer.StreamLogs` | app.py:277-295 | the whole stream body run without interruption, as `Registry.RunStream` |
| `App.LogStreamer.GetContainers` | app.py:240-259 | emits exactly one event and leaves the table unchanged. With no client it is "Docker not connected". If the listing raises it is "Failed to get containers: …". Otherwise it is the container list, built as by `Containers.Summarize` |

## Left out

- The HTML page and the `/` route (app.py:32-237): user interface.
- Building the Docker client and pinging it (app.py:12-27). Whether a client exists is the constructor's `hasClient` argument.
- The client calls `containers.list`, `containers.get` and `container.logs`. They are inputs: the listing outcome, the lookup outcome (container name or exception message), and the sequence of chunks followed by an optional exception.
- The status filter of `containers.list`: the listing given to `GetContainers` is already the running containers.
- An exception raised while a container record is read inside the projection loop (app.py:250-255) is not modelled. Only the listing call can fail.
- Threads, daemon flags and scheduling (app.py:298-301). A thread's body is the `ChunkStep` and `ExitStep` steps, called in any order the caller chooses. True parallelism within one step is not modelled.
- `bytes.decode('utf-8', errors='ignore')` (app.py:283): a chunk is given as already-decoded text. Dropping invalid bytes is not modelled. `str.strip()` is modelled exactly, over the code points that Python's `str.isspace` accepts.
- Timestamps (`datetime.now().isoformat()`, app.py:288, 306): clock values are not recorded in events.
- Recipients: the broadcast `socketio.emit` and the reply `emit` are both appended to one event list.
- A payload without "container_id" (app.py:268) raises `KeyError` out of the handler. The model leaves the state unchanged and emits nothing. What the socket library then does with the exception is not modelled.
- Exceptions from `thread.start()` or from `emit` itself are not modelled.
- Registry.StartLogs: the whole handler as one transition, valid only when no other thread runs during it. The two points where one can (during the lookup, app.py:275, and between `thread.start()` and the "Connected" emit, app.py:301-303) are modelled by the parts `StartBegin`, `StartLaunch` and `StartAnnounce` and the methods `BeginStart`, `Launch` and `Announce`, which a caller may interleave with stream steps.
- Each step is atomic. A deletion by another thread between a `container_id in active_streams` check and the `del` that follows it (app.py:271-272, 294-295, 321-322), which would raise `KeyError` in the program, is not modelled.
- App.LogStreamer.ChunkStep and App.LogStreamer.ExitStep accept any handle, including one that was never launched or whose body has already exited. Likewise App.LogStreamer.Launch can be called without a `BeginStart` before it, and App.LogStreamer.Announce without a `Launch` and with any name, where the program announces the `container.name` its lookup returned (app.py:275, 304). So the model admits call sequences the program cannot produce; `StartLogs` composes the parts in the program's order. The lemmas about interleavings take their handles from starts.

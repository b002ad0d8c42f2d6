/**
 The bookkeeping around the table of active streams, as transitions on a
 state value. Each background stream is identified by a `Handle`: the
 container id it was started for and a stream id unique to that start, so
 that two streams started for the same container can be told apart even
 though the table itself is keyed by container id alone.
 */
module Registry {
  import opened Text
  import opened Events

  type StreamId = nat

  /** One background stream: the container it reads and its own identity. */
  datatype Handle = Handle(container: ContainerId, id: StreamId)

  /**
   The table of active streams (container id to the stream registered for
   it), the events emitted so far, and the id the next stream will get.
   */
  datatype State = State(streams: map<ContainerId, StreamId>, events: seq<Event>, nextId: StreamId)

  /** The result of a start: the new state and the stream it launched, if any. */
  datatype Started = Started(state: State, handle: Option<Handle>)

  /** The result of one step of a stream's loop, and whether the loop goes on. */
  datatype Stepped = Stepped(state: State, more: bool)

  /** The key of the start request's payload that names the container. */
  const ContainerIdField := "container_id"

  const Init := State(map[], [], 0)

  /**
   Every registered stream id was handed out before (so the next one is
   fresh), and no two containers are registered to the same stream.
   */
  predicate Valid(st: State)
  {
    && (forall c :: c in st.streams ==> st.streams[c] < st.nextId)
    && (forall c, d :: c in st.streams && d in st.streams && c != d ==> st.streams[c] != st.streams[d])
  }

  function Emit(st: State, e: Event): State
  {
    st.(events := st.events + [e])
  }

  /** `stop_stream`: drop the entry for `cid` if there is one. */
  function StopStream(st: State, cid: ContainerId): (r: State)
    ensures r.streams.Keys == st.streams.Keys - {cid}
    ensures forall c :: c in r.streams ==> r.streams[c] == st.streams[c]
    ensures r.events == st.events && r.nextId == st.nextId
  {
    if cid in st.streams then st.(streams := st.streams - {cid}) else st
  }

  /** `stop_stream` applied to each key of `keys` in turn. */
  function StopKeys(st: State, keys: seq<ContainerId>): (r: State)
    ensures r.streams.Keys <= st.streams.Keys
    ensures r.events == st.events && r.nextId == st.nextId
    decreases |keys|
  {
    if keys == [] then st else StopKeys(StopStream(st, keys[0]), keys[1..])
  }

  /** The outcome of a start's first part: the state, and the container id if the start goes on. */
  datatype Begun = Begun(state: State, cid: Option<ContainerId>)

  /**
   The part of `start_logs(data)` up to the container lookup: without a
   Docker client, emit an error and stop; without a "container_id" in the
   payload, raise out of the handler with nothing touched; otherwise drop
   the container's old entry, if any, and go on.
   */
  function StartBegin(st: State, hasClient: bool, data: map<string, string>): (r: Begun)
    ensures r.cid.Some? <==> hasClient && ContainerIdField in data
    ensures r.cid.Some? ==> && r.cid.value == data[ContainerIdField]
                            && r.state == st.(streams := st.streams - {r.cid.value})
    ensures r.cid.None? ==> r.state.streams == st.streams
    ensures hasClient && ContainerIdField !in data ==> r == Begun(st, None)
  {
    if !hasClient then
      Begun(Emit(st, Error(NotConnected)), None)
    else if ContainerIdField !in data then
      Begun(st, None)
    else
      var cid := data[ContainerIdField];
      Begun(if cid in st.streams then StopStream(st, cid) else st, Some(cid))
  }

  /**
   The part of `start_logs` from the lookup to `thread.start()`: when the
   lookup raises, emit "Failed to start logs"; otherwise register a stream
   with a fresh id under `cid` and launch it.
   */
  function StartLaunch(st: State, cid: ContainerId, lookup: Outcome<string>): (r: Started)
    ensures r.handle.Some? <==> lookup.Ok?
    ensures r.handle.Some? ==> && r.handle.value == Handle(cid, st.nextId)
                               && r.state == st.(streams := st.streams[cid := st.nextId], nextId := st.nextId + 1)
    ensures lookup.Raised? ==> r.state == st.(events := st.events + [Error(FailedToStart + lookup.error)])
  {
    match lookup
    case Raised(e) =>
      Started(Emit(st, Error(FailedToStart + e)), None)
    case Ok(_) =>
      var h := Handle(cid, st.nextId);
      Started(st.(streams := st.streams[cid := h.id], nextId := st.nextId + 1), Some(h))
  }

  /** The last part of a successful `start_logs`: the "Connected" line. */
  function StartAnnounce(st: State, name: string): (r: State)
    ensures r.streams == st.streams && r.nextId == st.nextId
    ensures r.events == st.events + [Log(ConnectedTo + name, System)]
  {
    Emit(st, Log(ConnectedTo + name, System))
  }

  /**
   `start_logs(data)` with no other thread running in between, given
   whether the Docker client exists and what the client's lookup of the
   container returns (its name, or the exception). A stream is launched
   exactly when there is a client, a container id and a successful lookup,
   and it is then the one registered for its container.
   */
  function StartLogs(st: State, hasClient: bool, data: map<string, string>, lookup: Outcome<string>): (r: Started)
    ensures r.handle.Some? <==> hasClient && ContainerIdField in data && lookup.Ok?
    ensures r.handle.Some? ==> && r.handle.value.container == data[ContainerIdField]
                               && r.handle.value.container in r.state.streams
                               && r.state.streams[r.handle.value.container] == r.handle.value.id
  {
    var b := StartBegin(st, hasClient, data);
    if b.cid.None? then
      Started(b.state, None)
    else
      var l := StartLaunch(b.state, b.cid.value, lookup);
      if lookup.Ok? then Started(StartAnnounce(l.state, lookup.value), l.handle) else l
  }

  /**
   One iteration of the stream's loop over the log chunks: stop when the
   stream's container is no longer in the table; otherwise emit the
   stripped chunk as a `stdout` log line unless it is empty.
   */
  function ChunkStep(st: State, h: Handle, chunk: string): (r: Stepped)
    ensures r.state.streams == st.streams && r.state.nextId == st.nextId
    ensures r.more <==> h.container in st.streams
    ensures !r.more ==> r.state == st
  {
    if h.container !in st.streams then
      Stepped(st, false)
    else
      Stepped(st.(events := st.events + Line(chunk)), true)
  }

  /** What a registered stream emits for one chunk: its stripped text, unless that is empty. */
  function Line(chunk: string): (r: seq<Event>)
    ensures r == [] <==> forall i :: 0 <= i < |chunk| ==> IsSpace(chunk[i])
    ensures r != [] ==> r == [Log(Strip(chunk), Stdout)]
  {
    StripEmptyIff(chunk);
    var message := Strip(chunk);
    if message != [] then [Log(message, Stdout)] else []
  }

  /**
   The end of the stream's body: report the exception that ended the
   loop, if one did, then drop the table entry for the stream's container,
   whichever stream that entry belongs to.
   */
  function ExitStep(st: State, h: Handle, failure: Option<string>): (r: State)
    ensures h.container !in r.streams
    ensures r.streams == st.streams - {h.container}
    ensures r.nextId == st.nextId
    ensures r.events == st.events + (if failure.Some? then [Error(StreamError + failure.value)] else [])
  {
    var st1 := if failure.Some? then Emit(st, Error(StreamError + failure.value)) else st;
    if h.container in st1.streams then st1.(streams := st1.streams - {h.container}) else st1
  }

  /**
   The loop over `chunks` run without interruption; `more` says the loop
   reached the end of the chunks rather than breaking.
   */
  function Pump(st: State, h: Handle, chunks: seq<string>): (r: Stepped)
    ensures r.state.streams == st.streams && r.state.nextId == st.nextId
    ensures r.more <==> chunks == [] || h.container in st.streams
    ensures !r.more ==> r.state == st
    decreases |chunks|
  {
    if chunks == [] then
      Stepped(st, true)
    else
      var s := ChunkStep(st, h, chunks[0]);
      if !s.more then s else Pump(s.state, h, chunks[1..])
  }

  /**
   A whole stream body run without interruption: the loop, then the exit
   step. `failure` is the exception the chunk iterator raises once its
   chunks are exhausted, if any; a loop that broke out raises nothing.
   */
  function RunStream(st: State, h: Handle, chunks: seq<string>, failure: Option<string>): (r: State)
    ensures h.container !in r.streams
    ensures r.streams == st.streams - {h.container}
    ensures r.nextId == st.nextId
  {
    var p := Pump(st, h, chunks);
    ExitStep(p.state, h, if p.more then failure else None)
  }

  /**
   The log lines a stream emits for `chunks` while its container stays
   registered: one `stdout` line per chunk whose stripped text is not
   empty, in chunk order.
   */
  function Messages(chunks: seq<string>): (r: seq<Event>)
    ensures |r| <= |chunks|
    decreases |chunks|
  {
    if chunks == [] then
      []
    else
      Line(chunks[0]) + Messages(chunks[1..])
  }

  // ---------------------------------------------------------------------
  // Stopping

  /** Stopping a stream twice is stopping it once. */
  lemma StopStreamIdempotent(st: State, cid: ContainerId)
    ensures StopStream(StopStream(st, cid), cid) == StopStream(st, cid)
  {
  }

  /** Stopping the keys of `a` and then those of `b` is stopping `a + b`. */
  lemma {:induction false} StopKeysAppend(st: State, a: seq<ContainerId>, b: seq<ContainerId>)
    ensures StopKeys(st, a + b) == StopKeys(StopKeys(st, a), b)
    decreases |a|
  {
    if a == [] {
      assert a + b == b;
    } else {
      assert (a + b)[0] == a[0] && (a + b)[1..] == a[1..] + b;
      StopKeysAppend(StopStream(st, a[0]), a[1..], b);
    }
  }

  /**
   Stopping a list of keys, in any order, removes exactly those keys and
   leaves every other entry, the events and the id counter as they were.
   */
  lemma {:induction false} StopKeysRemoves(st: State, keys: seq<ContainerId>)
    ensures StopKeys(st, keys).streams.Keys == st.streams.Keys - (set k | k in keys)
    ensures forall c :: c in StopKeys(st, keys).streams ==> StopKeys(st, keys).streams[c] == st.streams[c]
    ensures StopKeys(st, keys).events == st.events
    ensures StopKeys(st, keys).nextId == st.nextId
    decreases |keys|
  {
    if keys != [] {
      var st1 := StopStream(st, keys[0]);
      StopKeysRemoves(st1, keys[1..]);
      assert (set k | k in keys) == {keys[0]} + (set k | k in keys[1..]);
    }
  }

  /**
   `stop_logs`: stopping every key of a snapshot of the table leaves the
   table empty and changes nothing else, whatever the order of the snapshot.
   */
  lemma StopAllKeysEmpties(st: State, keys: seq<ContainerId>)
    requires st.streams.Keys <= (set k | k in keys)
    ensures StopKeys(st, keys) == st.(streams := map[])
  {
    StopKeysRemoves(st, keys);
    assert StopKeys(st, keys).streams.Keys == {};
  }

  // ---------------------------------------------------------------------
  // Starting

  /** Without a Docker client a start emits one error and changes nothing else. */
  lemma StartWithoutClient(st: State, data: map<string, string>, lookup: Outcome<string>)
    ensures var r := StartLogs(st, false, data, lookup);
            && r.handle == None
            && r.state.streams == st.streams
            && r.state.events == st.events + [Error(NotConnected)]
  {
  }

  /**
   A start whose container lookup raises has already removed the old
   entry for the container: the key ends up absent, every other entry is
   kept, and exactly one "Failed to start logs" error is emitted.
   */
  lemma StartLookupFails(st: State, data: map<string, string>, e: string)
    requires ContainerIdField in data
    ensures var r, cid := StartLogs(st, true, data, Raised(e)), data[ContainerIdField];
            && r.handle == None
            && cid !in r.state.streams
            && r.state.streams == st.streams - {cid}
            && r.state.events == st.events + [Error(FailedToStart + e)]
  {
  }

  /**
   A successful start leaves exactly one entry for the container, owned by
   the new stream, whose id no stream registered before had; the stream it
   superseded, if any, is no longer registered for any container. Every
   other entry is kept, and one `system` log line naming the container is
   emitted.
   */
  lemma StartRegisters(st: State, data: map<string, string>, name: string)
    requires Valid(st)
    requires ContainerIdField in data
    ensures var r, cid := StartLogs(st, true, data, Ok(name)), data[ContainerIdField];
            && r.handle == Some(Handle(cid, st.nextId))
            && r.state.streams.Keys == st.streams.Keys + {cid}
            && r.state.streams[cid] == st.nextId
            && (forall c :: c in st.streams ==> st.streams[c] != r.state.streams[cid])
            && (forall c :: c in st.streams && c != cid ==> r.state.streams[c] == st.streams[c])
            && (cid in st.streams ==> st.streams[cid] !in r.state.streams.Values)
            && r.state.events == st.events + [Log(ConnectedTo + name, System)]
  {
    var r, cid := StartLogs(st, true, data, Ok(name)), data[ContainerIdField];
    if cid in st.streams {
      var old_id := st.streams[cid];
      forall c | c in r.state.streams
        ensures r.state.streams[c] != old_id
      {
        if c != cid {
          assert r.state.streams[c] == st.streams[c];
        }
      }
    }
  }

  // ---------------------------------------------------------------------
  // The invariant

  lemma InitValid()
    ensures Valid(Init)
  {
  }

  lemma StopStreamValid(st: State, cid: ContainerId)
    requires Valid(st)
    ensures Valid(StopStream(st, cid))
  {
  }

  lemma StartLogsValid(st: State, hasClient: bool, data: map<string, string>, lookup: Outcome<string>)
    requires Valid(st)
    ensures Valid(StartLogs(st, hasClient, data, lookup).state)
  {
  }

  lemma ChunkStepValid(st: State, h: Handle, chunk: string)
    requires Valid(st)
    ensures Valid(ChunkStep(st, h, chunk).state)
  {
  }

  lemma ExitStepValid(st: State, h: Handle, failure: Option<string>)
    requires Valid(st)
    ensures Valid(ExitStep(st, h, failure))
  {
  }

  // ---------------------------------------------------------------------
  // The stream body

  /**
   A chunk step looks only at the container id: every stream for the same
   container behaves alike, whoever owns the table entry.
   */
  lemma ChunkStepIgnoresOwner(st: State, c: ContainerId, i: StreamId, j: StreamId, chunk: string)
    ensures ChunkStep(st, Handle(c, i), chunk) == ChunkStep(st, Handle(c, j), chunk)
  {
  }

  /** The emitted lines of two runs of chunks are those of their concatenation. */
  lemma {:induction false} MessagesAppend(a: seq<string>, b: seq<string>)
    ensures Messages(a + b) == Messages(a) + Messages(b)
    decreases |a|
  {
    if a == [] {
      assert a + b == b;
    } else {
      assert (a + b)[0] == a[0] && (a + b)[1..] == a[1..] + b;
      assert Messages(a + b) == Line(a[0]) + Messages(a[1..] + b);
      MessagesAppend(a[1..], b);
      SeqAssoc(Line(a[0]), Messages(a[1..]), Messages(b));
    }
  }

  /**
   A line a registered stream emits: a non-empty `stdout` log line whose
   text neither starts nor ends with whitespace.
   */
  predicate IsStreamLine(e: Event)
  {
    && e.Log? && e.stream == Stdout && e.message != []
    && !IsSpace(e.message[0]) && !IsSpace(e.message[|e.message| - 1])
  }

  /** Every event a registered stream emits for its chunks is a stream line. */
  lemma {:induction false} MessagesAreLines(chunks: seq<string>)
    ensures forall e :: e in Messages(chunks) ==> IsStreamLine(e)
    decreases |chunks|
  {
    if chunks != [] {
      var c, rest := chunks[0], chunks[1..];
      assert Messages(chunks) == Line(c) + Messages(rest);
      MessagesAreLines(rest);
      forall e | e in Messages(chunks)
        ensures IsStreamLine(e)
      {
        if e in Line(c) {
          assert e == Log(Strip(c), Stdout);
        }
      }
    }
  }

  /**
   While the stream's container is registered, the loop runs through all
   the chunks and appends exactly `Messages(chunks)`: the non-empty stripped
   chunks, in order.
   */
  lemma {:induction false} PumpRegistered(st: State, h: Handle, chunks: seq<string>)
    requires h.container in st.streams
    ensures Pump(st, h, chunks) == Stepped(st.(events := st.events + Messages(chunks)), true)
    decreases |chunks|
  {
    if chunks == [] {
      assert st.events + Messages(chunks) == st.events;
    } else {
      var c, rest := chunks[0], chunks[1..];
      var next := st.(events := st.events + Line(c));
      assert Pump(st, h, chunks) == Pump(next, h, rest);
      PumpRegistered(next, h, rest);
      SeqAssoc(st.events, Line(c), Messages(rest));
    }
  }

  /**
   Concatenation is associative. Stated apart so that `PumpRegistered` and
   `MessagesAppend` regroup their events at one cheap step instead of
   searching for it, which keeps those proofs inside the resource limit.
   */
  lemma SeqAssoc<T>(a: seq<T>, b: seq<T>, c: seq<T>)
    ensures a + (b + c) == (a + b) + c
  {
  }

  /** Once the container is not registered, the loop breaks at its first chunk and emits nothing. */
  lemma PumpUnregistered(st: State, h: Handle, chunks: seq<string>)
    requires h.container !in st.streams
    requires chunks != []
    ensures Pump(st, h, chunks) == Stepped(st, false)
  {
  }

  /**
   The events of a whole stream body: while its container is registered,
   the lines it streamed followed by the error it reported, if any; once
   the container is gone, nothing.
   */
  lemma RunStreamOutcome(st: State, h: Handle, chunks: seq<string>, failure: Option<string>)
    ensures h.container in st.streams ==>
              RunStream(st, h, chunks, failure).events
              == st.events + Messages(chunks) + (if failure.Some? then [Error(StreamError + failure.value)] else [])
    ensures h.container !in st.streams && chunks != [] ==> RunStream(st, h, chunks, failure).events == st.events
  {
    if h.container in st.streams {
      PumpRegistered(st, h, chunks);
    } else if chunks != [] {
      PumpUnregistered(st, h, chunks);
    }
  }

  // ---------------------------------------------------------------------
  // Interleavings of two streams for the same container

  /**
   Stop then restart: a stream whose container was stopped falls silent
   at its next chunk, even before it runs its exit step.
   */
  lemma StoppedStreamFallsSilent(st: State, h: Handle, chunk: string)
    ensures var stopped := StopStream(st, h.container);
            ChunkStep(stopped, h, chunk) == Stepped(stopped, false)
  {
  }

  /**
   A second start for the same container supersedes the first stream, yet
   the first stream, still running, passes the registration check on the
   new entry: its next non-empty chunk is emitted after the new stream's
   "Connected" line, and its exit step then drops the new stream's entry.
   */
  lemma SupersededStreamInterferes(st: State, data: map<string, string>, n1: string, n2: string,
                                   chunk: string, failure: Option<string>)
    requires Valid(st)
    requires ContainerIdField in data
    requires Strip(chunk) != []
    ensures var first := StartLogs(st, true, data, Ok(n1));
            var second := StartLogs(first.state, true, data, Ok(n2));
            && first.handle.Some? && second.handle.Some?
            && first.handle.value.container == second.handle.value.container
            && first.handle.value.id != second.handle.value.id
            && second.state.streams[data[ContainerIdField]] == second.handle.value.id
            && var stale := ChunkStep(second.state, first.handle.value, chunk);
               && stale.state.events == first.state.events + [Log(ConnectedTo + n2, System), Log(Strip(chunk), Stdout)]
               && data[ContainerIdField] !in ExitStep(stale.state, first.handle.value, failure).streams
  {
    var first := StartLogs(st, true, data, Ok(n1));
    StartLogsValid(st, true, data, Ok(n1));
    StartRegisters(first.state, data, n2);
  }

  // ---------------------------------------------------------------------
  // Interleavings inside a start

  /**
   While a restart's lookup is in progress, the container has no entry:
   the old stream, at its next chunk, breaks out without emitting. If its
   exit step then runs after the new stream is registered, it drops the
   new stream's entry.
   */
  lemma LookupWindowBreaksOldStream(st: State, data: map<string, string>, old_stream: Handle,
                                    chunk: string, name: string, failure: Option<string>)
    requires ContainerIdField in data
    requires old_stream.container == data[ContainerIdField]
    ensures var b := StartBegin(st, true, data);
            && ChunkStep(b.state, old_stream, chunk) == Stepped(b.state, false)
            && var l := StartLaunch(b.state, old_stream.container, Ok(name));
               && l.handle.Some?
               && old_stream.container in l.state.streams
               && old_stream.container !in ExitStep(l.state, old_stream, failure).streams
  {
  }

  /**
   Between `thread.start()` and the "Connected" emit, the new stream can
   already run: a chunk's line, or its whole exit with the error it
   reports, can be emitted before its own "Connected" line.
   */
  lemma NewStreamBeforeAnnouncement(st: State, cid: ContainerId, name: string,
                                    chunk: string, failure: Option<string>)
    ensures var l := StartLaunch(st, cid, Ok(name));
            && l.handle.Some?
            && var s := ChunkStep(l.state, l.handle.value, chunk);
               && s.more
               && StartAnnounce(s.state, name).events
                  == st.events + Line(chunk) + [Log(ConnectedTo + name, System)]
    ensures var l := StartLaunch(st, cid, Ok(name));
            && l.handle.Some?
            && var a := StartAnnounce(ExitStep(l.state, l.handle.value, failure), name);
               && cid !in a.streams
               && a.events == st.events + (if failure.Some? then [Error(StreamError + failure.value)] else [])
                                        + [Log(ConnectedTo + name, System)]
  {
  }
}

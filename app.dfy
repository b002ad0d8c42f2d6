/**
 The socket handlers and the body of the background log stream, as methods
 of one object holding the module-level state: whether a Docker client
 exists, the table of active streams, and the events emitted so far. Each
 method is tied to the transition of the same name in `Registry`.
 */
module App {
  import opened Events
  import opened Containers
  import Registry
  import Text

  class LogStreamer {
    /** Whether a Docker client was obtained at start-up. */
    const hasClient: bool
    /** `active_streams`: container id to the stream registered for it. */
    var activeStreams: map<ContainerId, Registry.StreamId>
    /** Every event emitted, in order. */
    var events: seq<Event>
    /** The identity the next background stream will get. */
    var nextId: Registry.StreamId

    function Abs(): Registry.State
      reads this
    {
      Registry.State(activeStreams, events, nextId)
    }

    ghost predicate Valid()
      reads this
    {
      Registry.Valid(Abs())
    }

    constructor (hasClient: bool)
      ensures Valid()
      ensures this.hasClient == hasClient
      ensures Abs() == Registry.Init
    {
      this.hasClient := hasClient;
      activeStreams := map[];
      events := [];
      nextId := 0;
    }

    method Emit(e: Event)
      modifies this
      ensures activeStreams == old(activeStreams) && nextId == old(nextId)
      ensures events == old(events) + [e]
    {
      events := events + [e];
    }

    /** `stop_stream(container_id)`. */
    method StopStream(cid: ContainerId)
      requires Valid()
      modifies this
      ensures Valid()
      ensures Abs() == Registry.StopStream(old(Abs()), cid)
      ensures activeStreams == old(activeStreams) - {cid}
    {
      if cid in activeStreams {
        activeStreams := activeStreams - {cid};
      }
    }

    /**
     `stop_logs()`: stops every key of a snapshot of the table. `order` is
     the order in which the keys were stopped.
     */
    method StopLogs() returns (ghost order: seq<ContainerId>)
      requires Valid()
      modifies this
      ensures Valid()
      ensures (set c | c in order) == old(activeStreams).Keys
      ensures forall i, j :: 0 <= i < j < |order| ==> order[i] != order[j]
      ensures Abs() == Registry.StopKeys(old(Abs()), order)
      ensures Abs() == old(Abs()).(streams := map[])
    {
      var pending := activeStreams.Keys;
      order := [];
      while pending != {}
        invariant Valid()
        invariant pending <= old(activeStreams).Keys
        invariant (set c | c in order) == old(activeStreams).Keys - pending
        invariant forall i, j :: 0 <= i < j < |order| ==> order[i] != order[j]
        invariant Abs() == Registry.StopKeys(old(Abs()), order)
        decreases pending
      {
        var cid :| cid in pending;
        ghost var before := Abs();
        StopStream(cid);
        Registry.StopKeysAppend(old(Abs()), order, [cid]);
        assert Registry.StopKeys(before, [cid]) == Registry.StopStream(before, cid);
        assert (set c | c in order + [cid]) == (set c | c in order) + {cid};
        order := order + [cid];
        pending := pending - {cid};
      }
      Registry.StopAllKeysEmpties(old(Abs()), order);
    }

    /** `disconnect()`: the viewer went away; every stream is stopped. */
    method Disconnect()
      requires Valid()
      modifies this
      ensures Valid()
      ensures Abs() == old(Abs()).(streams := map[])
    {
      var _ := StopLogs();
    }

    /**
     `start_logs(data)` up to the container lookup. `cid` is the container
     id when the handler goes on to the lookup.
     */
    method BeginStart(data: map<string, string>) returns (cid: Option<ContainerId>)
      requires Valid()
      modifies this
      ensures Valid()
      ensures Registry.Begun(Abs(), cid) == Registry.StartBegin(old(Abs()), hasClient, data)
    {
      if !hasClient {
        Emit(Error(NotConnected));
        return None;
      }
      if Registry.ContainerIdField !in data {
        return None;
      }
      cid := Some(data[Registry.ContainerIdField]);
      if cid.value in activeStreams {
        StopStream(cid.value);
      }
    }

    /**
     `start_logs` from the lookup of `cid` to `thread.start()`. `lookup` is
     what the client's lookup answers: the container's name, or the
     exception it raised. The result is the stream launched, whose body the
     caller then runs step by step.
     */
    method Launch(cid: ContainerId, lookup: Outcome<string>) returns (stream: Option<Registry.Handle>)
      requires Valid()
      modifies this
      ensures Valid()
      ensures Registry.Started(Abs(), stream) == Registry.StartLaunch(old(Abs()), cid, lookup)
    {
      match lookup
      case Raised(e) =>
        Emit(Error(FailedToStart + e));
        stream := None;
      case Ok(_) =>
        var h := Registry.Handle(cid, nextId);
        nextId := nextId + 1;
        activeStreams := activeStreams[cid := h.id];
        stream := Some(h);
    }

    /** The "Connected" emit that ends a successful `start_logs`. */
    method Announce(name: string)
      requires Valid()
      modifies this
      ensures Valid()
      ensures Abs() == Registry.StartAnnounce(old(Abs()), name)
    {
      Emit(Log(ConnectedTo + name, System));
    }

    /**
     `start_logs(data)` run with no stream step in between its parts: the
     three parts above in order.
     */
    method StartLogs(data: map<string, string>, lookup: Outcome<string>) returns (stream: Option<Registry.Handle>)
      requires Valid()
      modifies this
      ensures Valid()
      ensures Registry.Started(Abs(), stream) == Registry.StartLogs(old(Abs()), hasClient, data, lookup)
    {
      var cid := BeginStart(data);
      if cid.None? {
        return None;
      }
      stream := Launch(cid.value, lookup);
      if lookup.Ok? {
        Announce(lookup.value);
      }
    }

    /**
     One iteration of `stream`'s loop, for the next chunk the client
     delivers; `more` is false when the loop breaks out.
     */
    method ChunkStep(stream: Registry.Handle, chunk: string) returns (more: bool)
      requires Valid()
      modifies this
      ensures Valid()
      ensures Registry.Stepped(Abs(), more) == Registry.ChunkStep(old(Abs()), stream, chunk)
    {
      if stream.container !in activeStreams {
        return false;
      }
      var message := Text.Strip(chunk);
      assert Registry.Line(chunk) == if message != [] then [Log(message, Stdout)] else [];
      if message != [] {
        Emit(Log(message, Stdout));
      }
      more := true;
    }

    /**
     The `except`/`finally` end of `stream`'s body; `failure` is the
     exception that ended the loop, if any.
     */
    method ExitStep(stream: Registry.Handle, failure: Option<string>)
      requires Valid()
      modifies this
      ensures Valid()
      ensures Abs() == Registry.ExitStep(old(Abs()), stream, failure)
    {
      if failure.Some? {
        Emit(Error(StreamError + failure.value));
      }
      if stream.container in activeStreams {
        activeStreams := activeStreams - {stream.container};
      }
    }

    /**
     `stream`'s whole body run without any other handler or stream in
     between: the loop over `chunks`, then the exit step. `failure` is the
     exception the client's iterator raises after the last chunk, if any.
     */
    method StreamLogs(stream: Registry.Handle, chunks: seq<string>, failure: Option<string>)
      requires Valid()
      modifies this
      ensures Valid()
      ensures Abs() == Registry.RunStream(old(Abs()), stream, chunks, failure)
    {
      var finished := true;
      var i := 0;
      while i < |chunks|
        invariant 0 <= i <= |chunks|
        invariant Valid()
        invariant Registry.Pump(old(Abs()), stream, chunks) == Registry.Pump(Abs(), stream, chunks[i..])
      {
        assert chunks[i..][0] == chunks[i] && chunks[i..][1..] == chunks[i + 1..];
        var more := ChunkStep(stream, chunks[i]);
        if !more {
          assert Registry.Pump(old(Abs()), stream, chunks) == Registry.Stepped(Abs(), false);
          finished := false;
          break;
        }
        i := i + 1;
      }
      assert Registry.Pump(old(Abs()), stream, chunks) == Registry.Stepped(Abs(), finished);
      ExitStep(stream, if finished then failure else None);
    }

    /**
     `get_containers()`. `listing` is what the client's listing of the
     running containers answers: their records, or the exception it raised.
     */
    method GetContainers(listing: Outcome<seq<Container>>)
      requires Valid()
      modifies this
      ensures Valid()
      ensures activeStreams == old(activeStreams) && nextId == old(nextId)
      ensures !hasClient ==> events == old(events) + [Error(NotConnected)]
      ensures hasClient && listing.Raised? ==> events == old(events) + [Error(FailedToGetContainers + listing.error)]
      ensures hasClient && listing.Ok? ==>
                && |events| == |old(events)| + 1
                && events[..|old(events)|] == old(events)
                && events[|old(events)|].ContainerList?
                && var list, containers := events[|old(events)|].summaries, listing.value;
                   && |list| == |containers|
                   && forall i :: 0 <= i < |containers| ==>
                        && list[i].id == containers[i].id
                        && list[i].name == containers[i].name
                        && (containers[i].imageTags != [] ==> list[i].image == containers[i].imageTags[0])
                        && (containers[i].imageTags == [] ==> list[i].image == UnknownImage)
    {
      if !hasClient {
        Emit(Error(NotConnected));
        return;
      }
      match listing
      case Raised(e) =>
        Emit(Error(FailedToGetContainers + e));
      case Ok(containers) =>
        var list := Summarize(containers);
        Emit(ContainerList(list));
    }
  }
}

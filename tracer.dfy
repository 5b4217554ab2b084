/**
 * The tracer session (core/trace/tracer.py): the start/stop lifecycle around
 * one writer, the registry of open spans keyed by token, the registry of open
 * async events keyed by correlation id, and the cache of async lanes.
 *
 * Each locked section of the source runs here as one atomic method. The clock,
 * the thread ident and the current task come in a `Runtime` value; fresh
 * tokens (`uuid4`) are parameters; the MD5 digest of an async id is `hash`.
 */
module TraceSession {
  import opened Wrappers
  import opened TraceEvents
  import opened TraceWriter

  /** The lane of the async operation whose id has the given digest. */
  function AsyncLane(digest: nat): (lane: int)
    ensures AsyncBase <= lane < AsyncBase + LaneWidth
    ensures lane - AsyncBase == digest % LaneWidth
  {
    AsyncBase + digest % LaneWidth
  }

  /** Async lanes never meet the lanes of cooperative tasks. */
  lemma LaneRangesDisjoint(taskDigest: nat, idDigest: nat)
    ensures CoroutineLane(taskDigest) != AsyncLane(idDigest)
  {
  }

  /** The arguments of the metadata event written on start. */
  function ProcessNameArgs(): (args: map<string, Value>)
    ensures "name" in args
    ensures forall k :: k in args ==> Primitive(args[k])
  {
    map["name" := Str("Habitat Process")]
  }

  /**
   * The thread ident as the optional process id `start` passes on. It only
   * widens the `nat` ident to the `int` that `write_metadata` takes.
   */
  function IdentArg(rt: Runtime): (pid: Option<int>)
    ensures pid.Some? <==> rt.threadIdent.Some?
    ensures pid.Some? ==> pid.value == rt.threadIdent.value
  {
    match rt.threadIdent
    case Some(n) => Some(n)
    case None => None
  }

  /** Every cached async lane is the one its id hashes to. */
  ghost predicate LanesFromHash(lanes: map<string, int>, hash: string -> nat) {
    forall id :: id in lanes ==> lanes[id] == AsyncLane(hash(id))
  }

  /**
   * Every open async event is the `b` event registered under its own id, and
   * its id still has the lane the event was written on.
   */
  ghost predicate AsyncRegistered(events: map<string, TraceEvent>, lanes: map<string, int>) {
    forall id :: id in events ==>
      && id in lanes
      && events[id].kind == AsyncStart
      && events[id].asyncId == Some(id)
      && events[id].threadId == lanes[id]
  }

  /** Dropping an open async event keeps the others registered. */
  lemma RegisteredWithoutEvent(events: map<string, TraceEvent>, lanes: map<string, int>, id: string)
    requires AsyncRegistered(events, lanes)
    ensures AsyncRegistered(events - {id}, lanes)
  {
  }

  /** Releasing the lane of an id with no open async event keeps both registries consistent. */
  lemma RegisteredWithoutLane(events: map<string, TraceEvent>, lanes: map<string, int>, hash: string -> nat, id: string)
    requires LanesFromHash(lanes, hash) && AsyncRegistered(events, lanes) && id !in events
    ensures LanesFromHash(lanes - {id}, hash) && AsyncRegistered(events, lanes - {id})
  {
  }

  /** Every open span is a `B` event. */
  ghost predicate SpansRegistered(spans: map<string, TraceEvent>) {
    forall token :: token in spans ==> spans[token].kind == DurationBegin
  }

  /** How the work wrapped by `span` ended; a raised error goes on to the caller. */
  datatype WorkExit = Returned | Raised(error: string)

  /** The error `json.dumps` raises on a value it cannot encode. */
  const SerializationFailure: string := "TypeError"

  /** A writer's events after `write_event(e)`: an event `json.dumps` refuses is not written. */
  function Recorded(events: seq<TraceEvent>, e: TraceEvent): seq<TraceEvent> {
    if Encodable(e) then events + [e] else events
  }

  class Tracer {
    const outputFile: string
    const enabled: bool
    const encode: map<string, Value> -> string
    /** `int(md5(s).hexdigest()[:8], 16)`. */
    const hash: string -> nat

    var writer: ChromeTraceWriter?
    var activeSpans: map<string, TraceEvent>
    var asyncEvents: map<string, TraceEvent>
    var asyncThreadIds: map<string, int>
    ghost var Repr: set<object>

    ghost predicate Valid()
      reads this, Repr
    {
      && this in Repr
      && (writer == null ==> Repr == {this})
      && (writer != null ==>
            && Repr == {this, writer}
            && writer.Valid() && writer.isOpen && writer.flushed == |writer.content|
            && writer.encode == encode && writer.filepath == outputFile && writer.autoFlush)
      && (!enabled ==> writer == null)
      && SpansRegistered(activeSpans)
      && LanesFromHash(asyncThreadIds, hash)
      && AsyncRegistered(asyncEvents, asyncThreadIds)
    }

    constructor (outputFile: string, enabled: bool, encode: map<string, Value> -> string, hash: string -> nat)
      ensures Valid() && fresh(Repr)
      ensures this.outputFile == outputFile && this.enabled == enabled
      ensures this.encode == encode && this.hash == hash
      ensures writer == null && activeSpans == map[] && asyncEvents == map[] && asyncThreadIds == map[]
    {
      this.outputFile := outputFile;
      this.enabled := enabled;
      this.encode := encode;
      this.hash := hash;
      writer := null;
      activeSpans := map[];
      asyncEvents := map[];
      asyncThreadIds := map[];
      Repr := {this};
    }

    /**
     * `start`: an enabled tracer without a writer opens a fresh one on the
     * output file and writes the `process_name` metadata event; otherwise
     * nothing happens.
     */
    method Start(rt: Runtime)
      requires Valid()
      modifies Repr
      ensures Valid() && fresh(Repr - old(Repr))
      ensures activeSpans == old(activeSpans) && asyncEvents == old(asyncEvents)
      ensures asyncThreadIds == old(asyncThreadIds)
      ensures !enabled || old(writer) != null ==> writer == old(writer) && unchanged(Repr)
      ensures enabled && old(writer) == null ==>
                && writer != null && fresh(writer)
                && writer.events == [NewEvent("process_name", EventType.Metadata, rt, processId := IdentArg(rt),
                                              threadId := Some(0), args := Some(ProcessNameArgs()))]
    {
      if !enabled {
        return;
      }
      if writer == null {
        var w := new ChromeTraceWriter(outputFile, true, encode);
        w.Open();
        PrimitiveArgsEncodable(ProcessNameArgs());
        var r := w.WriteMetadata("process_name", ProcessNameArgs(), IdentArg(rt), rt);
        assert w.Valid() && w.isOpen && w.encode == encode && w.filepath == outputFile && w.autoFlush;
        writer := w;
        Repr := {this, w};
      }
    }

    /**
     * `stop`: the writer, if any, is closed, which ends the array in the file,
     * and dropped; otherwise nothing happens.
     */
    method Stop()
      requires Valid()
      modifies Repr
      ensures Valid() && writer == null && Repr == {this}
      ensures activeSpans == old(activeSpans) && asyncEvents == old(asyncEvents)
      ensures asyncThreadIds == old(asyncThreadIds)
      ensures old(writer) != null ==>
                && !old(writer).isOpen
                && old(writer).events == old(writer.events)
                && old(writer).content == old(writer.content) + "\n]\n"
                && old(writer).content == ClosedArray(Lines(encode, old(writer.events)))
    {
      if !enabled {
        return;
      }
      if writer != null {
        writer.Close();
        writer := null;
        Repr := {this};
      }
    }

    /**
     * `_write_event`: the event goes to the writer when there is one, else
     * nowhere; `raised` tells whether the writer's `json.dumps` raised.
     */
    method WriteEvent(e: TraceEvent) returns (raised: bool)
      requires Valid()
      modifies Repr
      ensures Valid() && Repr == old(Repr) && writer == old(writer)
      ensures activeSpans == old(activeSpans) && asyncEvents == old(asyncEvents)
      ensures asyncThreadIds == old(asyncThreadIds)
      ensures raised <==> writer != null && !Encodable(e)
      ensures writer != null ==> writer.events == Recorded(old(writer.events), e)
    {
      if !enabled || writer == null {
        return false;
      }
      var r := writer.WriteEvent(e);
      raised := r == SerializationError;
    }

    /**
     * `metadata`: with a writer, one `M` event on lane 0 whose process id is
     * the given one or else the thread ident (or 0); without, nothing.
     */
    method Metadata(name: string, args: map<string, Value>, processId: Option<int>, rt: Runtime)
      requires Valid()
      modifies Repr
      ensures Valid() && Repr == old(Repr) && writer == old(writer)
      ensures activeSpans == old(activeSpans) && asyncEvents == old(asyncEvents)
      ensures asyncThreadIds == old(asyncThreadIds)
      ensures writer != null ==>
                writer.events ==
                  Recorded(old(writer.events),
                           NewEvent(name, EventType.Metadata, rt, processId := Some(processId.GetOr(rt.threadIdent.GetOr(0))),
                                    threadId := Some(0), args := Some(args)))
    {
      if !enabled || writer == null {
        return;
      }
      var pid := processId.GetOr(rt.threadIdent.GetOr(0));
      var r := writer.WriteMetadata(name, args, Some(pid), rt);
    }

    /**
     * `_get_async_thread_id`: the cached lane of `asyncId`, or a new one from
     * the reserved async range, cached from now on.
     */
    method GetAsyncThreadId(asyncId: string) returns (lane: int)
      requires Valid()
      modifies this`asyncThreadIds
      ensures Valid()
      ensures AsyncBase <= lane < AsyncBase + LaneWidth
      ensures lane == AsyncLane(hash(asyncId))
      ensures asyncThreadIds == old(asyncThreadIds)[asyncId := lane]
      ensures asyncId in old(asyncThreadIds) ==>
                lane == old(asyncThreadIds)[asyncId] && asyncThreadIds == old(asyncThreadIds)
    {
      if asyncId !in asyncThreadIds {
        asyncThreadIds := asyncThreadIds[asyncId := AsyncLane(hash(asyncId))];
      }
      lane := asyncThreadIds[asyncId];
    }

    /** `instant`: one `i` event on the caller's lane. */
    method Instant(name: string, category: string, args: Option<map<string, Value>>, rt: Runtime)
      requires Valid()
      modifies Repr
      ensures Valid() && Repr == old(Repr) && writer == old(writer)
      ensures activeSpans == old(activeSpans) && asyncEvents == old(asyncEvents)
      ensures asyncThreadIds == old(asyncThreadIds)
      ensures writer != null ==>
                writer.events == Recorded(old(writer.events), NewEvent(name, EventType.Instant, rt, category := category, args := args))
    {
      var event := NewEvent(name, EventType.Instant, rt, category := category, args := args);
      var raised := WriteEvent(event);
    }

    /** `counter`: one `C` event whose args are exactly `{"value": value}`. */
    method Counter(name: string, value: Value, category: string, rt: Runtime)
      requires Valid()
      modifies Repr
      ensures Valid() && Repr == old(Repr) && writer == old(writer)
      ensures activeSpans == old(activeSpans) && asyncEvents == old(asyncEvents)
      ensures asyncThreadIds == old(asyncThreadIds)
      ensures writer != null ==>
                writer.events ==
                  Recorded(old(writer.events),
                           NewEvent(name, EventType.Counter, rt, category := category, args := Some(map["value" := value])))
      ensures writer != null && (value.Int? || value.Float?) ==>
                writer.events == old(writer.events) +
                  [NewEvent(name, EventType.Counter, rt, category := category, args := Some(map["value" := value]))]
    {
      var event := NewEvent(name, EventType.Counter, rt, category := category, args := Some(map["value" := value]));
      if value.Int? || value.Float? {
        PrimitiveArgsEncodable(map["value" := value]);
      }
      var raised := WriteEvent(event);
    }

    /**
     * `span`, a context manager: `startUs` and `endUs` are the clock read on
     * entry and in the `finally` block around the caller's work. Whether the
     * work returned or raised, one `X` event stamped at the start with the
     * elapsed time as duration is written, and the work's outcome goes on to
     * the caller unchanged.
     */
    method Span(name: string, category: string, args: Option<map<string, Value>>,
                startUs: int, endUs: int, work: WorkExit, rt: Runtime)
      returns (outcome: WorkExit)
      requires Valid()
      modifies Repr
      ensures Valid() && Repr == old(Repr) && writer == old(writer)
      ensures activeSpans == old(activeSpans) && asyncEvents == old(asyncEvents)
      ensures asyncThreadIds == old(asyncThreadIds)
      ensures var event := NewEvent(name, Complete, rt, timestamp := Some(startUs), duration := Some(endUs - startUs),
                                    category := category, args := args);
              outcome == if writer != null && !Encodable(event) then Raised(SerializationFailure) else work
      ensures writer != null ==>
                writer.events ==
                  Recorded(old(writer.events),
                           NewEvent(name, Complete, rt, timestamp := Some(startUs), duration := Some(endUs - startUs),
                                    category := category, args := args))
    {
      var event := NewEvent(name, Complete, rt, timestamp := Some(startUs), duration := Some(endUs - startUs),
                            category := category, args := args);
      var raised := WriteEvent(event);
      // an error raised in the `finally` block replaces the work's own outcome
      outcome := if raised then Raised(SerializationFailure) else work;
    }

    /**
     * `begin_span`: registers a `B` event under the fresh token `token` (even
     * when the tracer is not started), writes it, and returns the token.
     */
    method BeginSpan(name: string, category: string, args: Option<map<string, Value>>, token: string, rt: Runtime)
      returns (spanId: string)
      requires Valid()
      requires token !in activeSpans
      modifies Repr
      ensures Valid() && Repr == old(Repr) && writer == old(writer)
      ensures spanId == token
      ensures activeSpans == old(activeSpans)[token := NewEvent(name, DurationBegin, rt, category := category, args := args)]
      ensures asyncEvents == old(asyncEvents) && asyncThreadIds == old(asyncThreadIds)
      ensures writer != null ==> writer.events == Recorded(old(writer.events), activeSpans[token])
    {
      spanId := token;
      var beginEvent := NewEvent(name, DurationBegin, rt, category := category, args := args);
      activeSpans := activeSpans[spanId := beginEvent];
      var raised := WriteEvent(beginEvent);
    }

    /**
     * `end_span`: a registered token is removed and an `E` event with its
     * begin event's name and category is written; an unknown or already used
     * token changes nothing and writes nothing.
     */
    method EndSpan(spanId: string, args: Option<map<string, Value>>, rt: Runtime)
      requires Valid()
      modifies Repr
      ensures Valid() && Repr == old(Repr) && writer == old(writer)
      ensures asyncEvents == old(asyncEvents) && asyncThreadIds == old(asyncThreadIds)
      ensures spanId !in activeSpans
      ensures spanId !in old(activeSpans) ==> unchanged(Repr)
      ensures spanId in old(activeSpans) ==>
                var begin := old(activeSpans)[spanId];
                && activeSpans == old(activeSpans) - {spanId}
                && (writer != null ==>
                      writer.events ==
                        Recorded(old(writer.events), NewEvent(begin.name, DurationEnd, rt, category := begin.category, args := args)))
    {
      if spanId !in activeSpans {
        return;
      }
      var beginEvent := activeSpans[spanId];
      activeSpans := activeSpans - {spanId};
      var endEvent := NewEvent(beginEvent.name, DurationEnd, rt, category := beginEvent.category, args := args);
      var raised := WriteEvent(endEvent);
    }

    /**
     * `async_begin`: the id is the supplied one, or the fresh `freshId` when
     * none is supplied; its lane is looked up or allocated, and a `b` event
     * carrying id and lane is registered under the id and written.
     */
    method AsyncBegin(name: string, asyncId: Option<string>, freshId: string, category: string,
                      args: Option<map<string, Value>>, rt: Runtime)
      returns (id: string)
      requires Valid()
      requires asyncId.None? ==> freshId !in asyncEvents && freshId !in asyncThreadIds
      modifies Repr
      ensures Valid() && Repr == old(Repr) && writer == old(writer)
      ensures id == asyncId.GetOr(freshId)
      ensures activeSpans == old(activeSpans)
      ensures asyncThreadIds == old(asyncThreadIds)[id := AsyncLane(hash(id))]
      ensures asyncEvents ==
                old(asyncEvents)[id := NewEvent(name, AsyncStart, rt, threadId := Some(AsyncLane(hash(id))),
                                                category := category, args := args, asyncId := Some(id))]
      ensures writer != null ==> writer.events == Recorded(old(writer.events), asyncEvents[id])
    {
      id := asyncId.GetOr(freshId);
      var threadId := GetAsyncThreadId(id);
      var event := NewEvent(name, AsyncStart, rt, threadId := Some(threadId),
                            category := category, args := args, asyncId := Some(id));
      asyncEvents := asyncEvents[id := event];
      var raised := WriteEvent(event);
    }

    /**
     * `async_instant`: an `n` event on the id's lane (allocated if the id is
     * unseen); the async registry is left alone.
     */
    method AsyncInstant(asyncId: string, name: string, category: string,
                        args: Option<map<string, Value>>, rt: Runtime)
      requires Valid()
      modifies Repr
      ensures Valid() && Repr == old(Repr) && writer == old(writer)
      ensures activeSpans == old(activeSpans) && asyncEvents == old(asyncEvents)
      ensures asyncThreadIds == old(asyncThreadIds)[asyncId := AsyncLane(hash(asyncId))]
      ensures writer != null ==>
                writer.events ==
                  Recorded(old(writer.events),
                           NewEvent(name, EventType.AsyncInstant, rt, threadId := Some(AsyncLane(hash(asyncId))),
                                    category := category, args := args, asyncId := Some(asyncId)))
    {
      var threadId := GetAsyncThreadId(asyncId);
      var event := NewEvent(name, EventType.AsyncInstant, rt, threadId := Some(threadId),
                            category := category, args := args, asyncId := Some(asyncId));
      var raised := WriteEvent(event);
    }

    /**
     * `async_end`: a registered id is removed, an `e` event with the begin
     * event's name, category, id and lane is written, and the id's lane is
     * released, unless writing the event raised, which skips the release. An
     * unregistered id changes nothing: not even a lane cached by an earlier
     * `async_instant` is released.
     */
    method AsyncEnd(asyncId: string, args: Option<map<string, Value>>, rt: Runtime) returns (raised: bool)
      requires Valid()
      modifies Repr
      ensures Valid() && Repr == old(Repr) && writer == old(writer)
      ensures activeSpans == old(activeSpans)
      ensures asyncId !in asyncEvents
      ensures asyncId in old(asyncEvents) ==>
                old(asyncEvents)[asyncId].asyncId == Some(asyncId)
                && old(asyncEvents)[asyncId].threadId == AsyncLane(hash(asyncId))
      ensures asyncId !in old(asyncEvents) ==> unchanged(Repr) && !raised
      ensures asyncId in old(asyncEvents) ==>
                var begin := old(asyncEvents)[asyncId];
                var end := NewEvent(begin.name, EventType.AsyncEnd, rt, threadId := Some(begin.threadId),
                                    category := begin.category, args := args, asyncId := begin.asyncId);
                && asyncEvents == old(asyncEvents) - {asyncId}
                && (raised <==> writer != null && !Encodable(end))
                && asyncThreadIds == (if raised then old(asyncThreadIds) else old(asyncThreadIds) - {asyncId})
                && (writer != null ==> writer.events == Recorded(old(writer.events), end))
    {
      var beginEvent: Option<TraceEvent> := None;
      if asyncId in asyncEvents {
        beginEvent := Some(asyncEvents[asyncId]);
        RegisteredWithoutEvent(asyncEvents, asyncThreadIds, asyncId);
        asyncEvents := asyncEvents - {asyncId};
      }
      var cached: Option<int> := None;
      if asyncId in asyncThreadIds {
        cached := Some(asyncThreadIds[asyncId]);
      }
      if beginEvent.None? {
        return false;
      }
      var begin := beginEvent.value;
      assert cached == Some(begin.threadId);
      var threadId := cached.GetOr(begin.threadId);
      var event := NewEvent(begin.name, EventType.AsyncEnd, rt, threadId := Some(threadId),
                            category := begin.category, args := args, asyncId := Some(asyncId));
      assert event == NewEvent(begin.name, EventType.AsyncEnd, rt, threadId := Some(begin.threadId),
                               category := begin.category, args := args, asyncId := begin.asyncId);
      raised := WriteEvent(event);
      if raised {
        return;
      }
      RegisteredWithoutLane(asyncEvents, asyncThreadIds, hash, asyncId);
      asyncThreadIds := asyncThreadIds - {asyncId};
    }
  }

  // ---------------------------------------------------------------------------
  // Whole sessions, as the tests drive them
  // ---------------------------------------------------------------------------

  /**
   * A span begun on one thread and ended on another (`begin_span` then
   * `end_span` inside `with tracer:`): the file holds the process metadata,
   * then a `B` and an `E` event with the same name and category.
   */
  method CrossThreadSpan(path: string, encode: map<string, Value> -> string, hash: string -> nat,
                         token: string, rt0: Runtime, rt1: Runtime, rt2: Runtime)
    returns (file: string)
    ensures file == ClosedArray(Lines(encode, [
      NewEvent("process_name", EventType.Metadata, rt0, processId := IdentArg(rt0),
               threadId := Some(0), args := Some(ProcessNameArgs())),
      NewEvent("cross_thread_span", DurationBegin, rt1),
      NewEvent("cross_thread_span", DurationEnd, rt2)]))
  {
    ghost var meta := NewEvent("process_name", EventType.Metadata, rt0, processId := IdentArg(rt0),
                               threadId := Some(0), args := Some(ProcessNameArgs()));
    ghost var begin := NewEvent("cross_thread_span", DurationBegin, rt1);
    ghost var end := NewEvent("cross_thread_span", DurationEnd, rt2);
    PrimitiveArgsEncodable(map[]);
    assert Encodable(begin) && Encodable(end);
    var tracer := new Tracer(path, true, encode, hash);
    tracer.Start(rt0);
    var w := tracer.writer;
    assert w.events == [meta];
    var spanId := tracer.BeginSpan("cross_thread_span", DefaultCategory, None, token, rt1);
    assert w.events == [meta, begin];
    tracer.EndSpan(spanId, None, rt2);
    assert w.events == [meta, begin, end];
    tracer.Stop();
    file := w.content;
  }

  /**
   * An async operation with a checkpoint (`async_begin` with a generated id,
   * `async_instant`, `async_end`): its three events share the id and the lane,
   * and the lane is released at the end.
   */
  method AsyncOperation(path: string, encode: map<string, Value> -> string, hash: string -> nat,
                        freshId: string, rt0: Runtime, rt1: Runtime, rt2: Runtime, rt3: Runtime)
    returns (file: string, laneReleased: bool)
    ensures laneReleased
    ensures file == ClosedArray(Lines(encode, [
      NewEvent("process_name", EventType.Metadata, rt0, processId := IdentArg(rt0),
               threadId := Some(0), args := Some(ProcessNameArgs())),
      NewEvent("async_operation", AsyncStart, rt1, threadId := Some(AsyncLane(hash(freshId))),
               asyncId := Some(freshId)),
      NewEvent("async_checkpoint", EventType.AsyncInstant, rt2, threadId := Some(AsyncLane(hash(freshId))),
               asyncId := Some(freshId)),
      NewEvent("async_operation", EventType.AsyncEnd, rt3, threadId := Some(AsyncLane(hash(freshId))),
               asyncId := Some(freshId))]))
  {
    ghost var lane := AsyncLane(hash(freshId));
    ghost var meta := NewEvent("process_name", EventType.Metadata, rt0, processId := IdentArg(rt0),
                               threadId := Some(0), args := Some(ProcessNameArgs()));
    ghost var begin := NewEvent("async_operation", AsyncStart, rt1, threadId := Some(lane), asyncId := Some(freshId));
    ghost var checkpoint := NewEvent("async_checkpoint", EventType.AsyncInstant, rt2, threadId := Some(lane),
                                     asyncId := Some(freshId));
    ghost var end := NewEvent("async_operation", EventType.AsyncEnd, rt3, threadId := Some(lane), asyncId := Some(freshId));
    PrimitiveArgsEncodable(map[]);
    assert Encodable(begin) && Encodable(checkpoint) && Encodable(end);
    var tracer := new Tracer(path, true, encode, hash);
    tracer.Start(rt0);
    var w := tracer.writer;
    assert w.events == [meta];
    var id := tracer.AsyncBegin("async_operation", None, freshId, DefaultCategory, None, rt1);
    assert id == freshId && tracer.asyncEvents[id] == begin;
    assert w.events == Recorded([meta], begin) == [meta, begin];
    tracer.AsyncInstant(id, "async_checkpoint", DefaultCategory, None, rt2);
    assert w.events == Recorded([meta, begin], checkpoint) == [meta, begin, checkpoint];
    assert tracer.asyncEvents[id] == begin;
    var raised := tracer.AsyncEnd(id, None, rt3);
    assert w.events == Recorded([meta, begin, checkpoint], end) == [meta, begin, checkpoint, end];
    laneReleased := id !in tracer.asyncThreadIds;
    tracer.Stop();
    file := w.content;
  }

  /**
   * `instant("start")`, a `span("work", args={"n": 3})` around work that
   * raises, then `instant("end")`: three events in that order after the
   * metadata, and the error still reaches the caller.
   */
  method FailingSpan(path: string, encode: map<string, Value> -> string, hash: string -> nat,
                     startUs: int, endUs: int, rt0: Runtime, rt1: Runtime, rt2: Runtime, rt3: Runtime)
    returns (file: string, outcome: WorkExit)
    ensures outcome == Raised("work failed")
    ensures file == ClosedArray(Lines(encode, [
      NewEvent("process_name", EventType.Metadata, rt0, processId := IdentArg(rt0),
               threadId := Some(0), args := Some(ProcessNameArgs())),
      NewEvent("start", EventType.Instant, rt1),
      NewEvent("work", Complete, rt2, timestamp := Some(startUs), duration := Some(endUs - startUs),
               args := Some(map["n" := Int(3)])),
      NewEvent("end", EventType.Instant, rt3)]))
  {
    ghost var meta := NewEvent("process_name", EventType.Metadata, rt0, processId := IdentArg(rt0),
                               threadId := Some(0), args := Some(ProcessNameArgs()));
    ghost var first := NewEvent("start", EventType.Instant, rt1);
    ghost var work := NewEvent("work", Complete, rt2, timestamp := Some(startUs), duration := Some(endUs - startUs),
                               args := Some(map["n" := Int(3)]));
    ghost var last := NewEvent("end", EventType.Instant, rt3);
    PrimitiveArgsEncodable(map[]);
    PrimitiveArgsEncodable(map["n" := Int(3)]);
    assert Encodable(first) && Encodable(work) && Encodable(last);
    var tracer := new Tracer(path, true, encode, hash);
    tracer.Start(rt0);
    var w := tracer.writer;
    assert w.events == [meta];
    tracer.Instant("start", DefaultCategory, None, rt1);
    assert w.events == [meta, first];
    outcome := tracer.Span("work", DefaultCategory, Some(map["n" := Int(3)]), startUs, endUs,
                           Raised("work failed"), rt2);
    assert w.events == [meta, first, work];
    tracer.Instant("end", DefaultCategory, None, rt3);
    assert w.events == [meta, first, work, last];
    tracer.Stop();
    file := w.content;
  }
}

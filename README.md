# Chrome trace recording: a verified model

This project models the tracing library of the repository and one small
configuration helper:

- **Event model** (`core/trace/event.py`, module `TraceEvents`, pure). It covers:
  - the twelve one-character phase codes;
  - the argument sanitiser `_serialize_args`;
  - the synthetic lane of a cooperative task;
  - the defaults of a freshly built `TraceEvent`;
  - `to_dict`, the wire dictionary written for each event.
- **Streaming writer** (`core/trace/writer.py`, module `TraceWriter`, class `ChromeTraceWriter`).
  - Its state is the open/closed state, the first-event flag and the text written to the file so far.
  - The class invariant says that an open file is always the beginning of a JSON array of the events written since it was opened.
  - A closed file is the whole array.
- **Tracer session** (`core/trace/tracer.py`, module `TraceSession`, class `Tracer`). It holds:
  - the start/stop lifecycle around one writer;
  - the registry of open spans, keyed by token;
  - the registry of open async events, keyed by id;
  - the cache of async lanes, keyed by id.

  The invariant says that the writer of a started tracer is open and has flushed everything written, so a partial trace can be read at any time. It also ties every open async event to its id and to the lane cached for that id, and every cached lane to the hash of its id. Three whole sessions are proved to leave exactly the expected array in the file. Two of them come from the tests: a span begun and ended on different threads, and an async operation with a checkpoint. The third is a span around work that raises, between two instant events; it exercises the error path of `span`.
- **Dependency environment** (`core/components/deps_env.py`, module `DepsEnv`, class `DepsEnvBuild`). It covers the set-once cache of the lower-cased system and machine names, and the per-call copy with the caller's overrides.

What the running program supplies enters as values:

- `Runtime` carries the clock in microseconds, the thread ident and the digest of the current task.
- `hash` stands for the first eight hex digits of an MD5 digest.
- `encode` stands for `json.dumps` on a dictionary it accepts.
- Fresh `uuid4` tokens are parameters.

Each locked section runs as one atomic method.

Where the prose documentation and the code disagree, the model follows the code:

- `to_dict` writes `dur` whenever a duration is set and `id` whenever an async id is set, whatever the event's kind.
- Values the sanitiser does not convert are passed through. The failure on a value `json.dumps` cannot encode happens at write time, in `write_event`.

There is one exception: the order of the steps in `write_event` (see "## Findings").
- The writer and the tracer are built on the corrected `WriteEvent`, which serialises first and writes nothing for a refused event.
- The order as written is modelled separately, as `WriteEventAsWritten`.

## Model

| member | source | states |
|---|---|---|
| TraceEvents.EventType.Code | core/trace/event.py:15-26 | every kind's phase code is one of the twelve characters B E X i C b n e s t f M |
| TraceEvents.FromCode | core/trace/event.py:12-26 | a character is a phase code exactly when it is one of the twelve listed, and then the kind read back has that code |
| TraceEvents.CodeRoundTrip | core/trace/event.py:15-26 | every kind is read back from its own code |
| TraceEvents.CodesDistinct | core/trace/event.py:15-26 | no two kinds share a phase code |
| TraceEvents.PathToStr | core/trace/event.py:79-81 | a list element that is a path becomes its string, any other element is kept |
| TraceEvents.SerializedValue | core/trace/event.py:74-83 | a path becomes its string, a dictionary is sanitised with the same keys, a list or tuple becomes a list in which only direct path elements become strings, anything else is unchanged; the result is sanitised |
| TraceEvents.SerializedArgs | core/trace/event.py:58-84 | the result has exactly the input's keys, every value sanitised, and an empty input gives the empty map |
| TraceEvents.SerializeArgs | core/trace/event.py:69-84 | the loop over the entries, recursing into nested dictionaries, builds exactly the sanitised map |
| TraceEvents.SerializedValueFixed | core/trace/event.py:74-83 | a value that is already sanitised comes through unchanged |
| TraceEvents.SerializedArgsFixed | core/trace/event.py:72-84 | a map that is already sanitised comes through unchanged |
| TraceEvents.SerializedArgsIdempotent | core/trace/event.py:58-84 | sanitising twice gives the same map as sanitising once |
| TraceEvents.PrimitiveArgsEncodable | core/trace/event.py:82-83 | args made only of null, booleans, numbers and strings are kept as they are, and `json.dumps` accepts them |
| TraceEvents.ForeignArgRefused | core/trace/event.py:82-83 | an argument that is some other object is passed through by the sanitiser, so `json.dumps` refuses the event |
| TraceEvents.JsonEncodable | core/trace/writer.py:78 | `json.dumps` refuses a path and any other object, and accepts null, booleans, numbers and strings |
| TraceEvents.JsonEncodableMap | core/trace/writer.py:78 | a dictionary is acceptable when all its values are; the empty dictionary always is |
| TraceEvents.CoroutineLane | core/trace/event.py:42-49 | a task's lane lies in [0x10000000, 0x20000000) and is the base plus the digest modulo 0x10000000 |
| TraceEvents.CurrentLane | core/trace/event.py:29-55 | inside a task the lane is the task's coroutine lane; outside one it is the thread ident, or 0 when that is unset |
| TraceEvents.NewEvent | core/trace/event.py:90-129 | supplied timestamp, duration, process id, thread id, category, args and async id are kept; the defaults are the clock, the thread ident or 0, the current lane, "default" and the empty map |
| TraceEvents.Header | core/trace/event.py:133-140 | the six fields name, ph, ts, pid, tid and cat, with ph the kind's code |
| TraceEvents.ToDict | core/trace/event.py:131-151 | the six header fields are always present, and nothing beyond dur, args and id is added |
| TraceEvents.ToDictFields | core/trace/event.py:131-151 | the header values; dur present exactly when a duration is set; args present exactly when the args are non-empty, and then sanitised; id present exactly when an async id is set, and then equal to it |
| TraceEvents.ToDictEncodable | core/trace/event.py:131-151 | `json.dumps` accepts the wire dictionary exactly when it accepts the sanitised args |
| TraceEvents.EncodableToDict | core/trace/event.py:133-149 | sanitised args that `json.dumps` accepts make the whole wire dictionary acceptable |
| TraceEvents.ToDictEncodableArgs | core/trace/event.py:145-146 | an acceptable wire dictionary has acceptable args |
| TraceEvents.FromDict | core/trace/event.py:131-151 | a dictionary is read back as an event only when all six header fields are present |
| TraceEvents.ToDictRoundTrip | core/trace/event.py:131-151 | reading the wire dictionary back gives the same event with its args sanitised: nothing else is lost |
| TraceWriter.Body | core/trace/writer.py:72-79 | the events part is empty exactly when no event was written, and otherwise starts with the first event, indented, with no separator before it |
| TraceWriter.OpenArray | core/trace/writer.py:41-79 | an open file is the opening bracket alone when no event was written, and otherwise the bracket followed directly by the first event |
| TraceWriter.ClosedArray | core/trace/writer.py:41-57 | a closed file starts with the opening bracket and ends with the closing bracket and a new line; with no events it is the empty array |
| TraceWriter.FirstRefused | core/trace/writer.py:84-91 | every event before the returned index is accepted by `json.dumps`, and the event at that index, if there is one, is refused |
| TraceWriter.FirstFailing | core/trace/writer.py:89-91 | the same search, from a given index, for any acceptance test |
| TraceWriter.LinesSnoc | core/trace/writer.py:78 | the lines of one more event are the old lines plus that event's line |
| TraceWriter.BodySnoc | core/trace/writer.py:72-79 | writing one more event appends a separator, except before the first event, then the indented event |
| TraceWriter.OpenArraySnoc | core/trace/writer.py:72-79 | the same for the whole open file, which starts with the opening bracket |
| TraceWriter.JoinSnoc | core/trace/writer.py:72-79 | joining one more item appends the separator and the item |
| TraceWriter.BodyIsJoin | core/trace/writer.py:72-79 | the incrementally written body is the indented events joined by a comma and a new line |
| TraceWriter.ClosedArrayIsJoin | core/trace/writer.py:41-79 | a closed file is the opening bracket, the joined events and the closing bracket |
| TraceWriter.ChromeTraceWriter.constructor | core/trace/writer.py:14-30 | a new writer is closed, with the first-event flag set and nothing written |
| TraceWriter.ChromeTraceWriter.Open | core/trace/writer.py:41-48 | a closed writer restarts the file with the opening bracket and sets the first-event flag; an open writer is unchanged |
| TraceWriter.ChromeTraceWriter.Close | core/trace/writer.py:50-57 | an open writer appends the closing bracket, flushes and leaves the complete array of its events; a closed writer is unchanged |
| TraceWriter.ChromeTraceWriter.WriteEvent | core/trace/writer.py:59-82 | a writer that is not open, or an event `json.dumps` refuses, changes nothing; otherwise the separator (none before the first event) and the indented event are appended, and the file is flushed when auto-flush is on; the file stays the start of a well-formed array |
| TraceWriter.ChromeTraceWriter.WriteEventAsWritten | core/trace/writer.py:65-82 | the source's order: the separator is written and the flag cleared before serialising, so a refused event leaves its separator behind and records nothing; an accepted event is appended after the separator and flushed when auto-flush is on |
| TraceWriter.ChromeTraceWriter.WriteEvents | core/trace/writer.py:84-91 | on an open writer the events are written in list order up to the first one `json.dumps` refuses, and that one stops the batch: the events written are exactly the list up to `FirstRefused`, and the result is success exactly when that is the whole list; under auto-flush everything is flushed once an event was written; on a closed writer a non-empty batch fails with the not-open error and changes nothing |
| TraceWriter.ChromeTraceWriter.WriteMetadata | core/trace/writer.py:93-110 | exactly one M event on lane 0 with the given name and args, and the given process id or else the thread ident or 0; under auto-flush the file is then flushed |
| TraceWriter.ChromeTraceWriter.Flush | core/trace/writer.py:112-116 | an open writer has pushed out everything written; a closed one is unchanged |
| TraceWriter.LeadingSeparatorNotOpenArray | core/trace/writer.py:72-79 | text with a separator right after the opening bracket is not the start of any array the writer produces |
| TraceWriter.StraySeparator | core/trace/writer.py:72-79 | with the source's order, a refused first event followed by an accepted one leaves text that no sequence of events produces |
| TraceWriter.WriteTraceFile | core/trace/writer.py:32-91 | open, write a list of acceptable events, close: the file is exactly the bracketed, comma-joined array of those events |
| TraceSession.AsyncLane | core/trace/tracer.py:106-112 | an async lane lies in [0x20000000, 0x30000000) and is the base plus the digest modulo 0x10000000 |
| TraceSession.LaneRangesDisjoint | core/trace/tracer.py:111-112 | no async lane equals any coroutine lane |
| TraceSession.ProcessNameArgs | core/trace/tracer.py:48-52 | the process-name args hold the key name, and every value is a primitive, so sanitising keeps them and `json.dumps` accepts them |
| TraceSession.IdentArg | core/trace/tracer.py:51 | the process id passed at start is the thread ident, unchanged, when it is set, and absent otherwise |
| TraceSession.Tracer.constructor | core/trace/tracer.py:20-35 | a new tracer has no writer and empty registries |
| TraceSession.Tracer.Start | core/trace/tracer.py:37-52 | an enabled tracer without a writer opens a fresh one and writes exactly the process_name metadata event with args {"name": "Habitat Process"}; otherwise nothing changes |
| TraceSession.Tracer.Stop | core/trace/tracer.py:54-62 | the writer, if any, is closed, leaving the complete array of its events, and dropped; a second stop changes nothing |
| TraceSession.Tracer.WriteEvent | core/trace/tracer.py:73-77 | the event reaches the writer when there is one and `json.dumps` accepts it; the error is reported exactly when a writer refused it; the registries are untouched |
| TraceSession.Tracer.Metadata | core/trace/tracer.py:79-95 | with a writer, one M event on lane 0 with the given process id or else the thread ident or 0; without, nothing |
| TraceSession.Tracer.GetAsyncThreadId | core/trace/tracer.py:97-113 | a cached lane is returned unchanged; otherwise the id's hashed async lane is cached and returned |
| TraceSession.Tracer.Instant | core/trace/tracer.py:115-131 | one i event on the caller's lane |
| TraceSession.Tracer.Counter | core/trace/tracer.py:133-147 | one C event whose args are exactly {"value": value}, always written when the value is a number |
| TraceSession.Tracer.Span | core/trace/tracer.py:149-179 | one X event stamped at the start with duration end minus start, whether the work returned or raised; the work's outcome goes on, unless writing the event raised |
| TraceSession.Tracer.BeginSpan | core/trace/tracer.py:181-207 | the fresh token is returned and registered with its B event, even when not started, and the event is written |
| TraceSession.Tracer.EndSpan | core/trace/tracer.py:209-228 | a registered token is removed and an E event with its begin event's name and category is written; an unknown or used token changes nothing |
| TraceSession.Tracer.AsyncBegin | core/trace/tracer.py:230-267 | the supplied id or else the fresh one is returned, its lane is cached, and its b event, carrying the id and the lane, is registered and written |
| TraceSession.Tracer.AsyncInstant | core/trace/tracer.py:269-295 | an n event on the id's lane, which is reused or allocated; the async registry is untouched |
| TraceSession.Tracer.AsyncEnd | core/trace/tracer.py:297-328 | a registered id is removed, and an e event with its begin event's name, category, id and lane is written; the lane is then released; an unregistered id changes nothing, not even a lane cached by an earlier async instant; the `json.dumps` error is reported exactly when the writer refused the e event |
| TraceSession.CrossThreadSpan | tests/test_trace.py:136-169 | a span begun and ended under different threads leaves exactly the metadata, B and E events in the file |
| TraceSession.AsyncOperation | tests/test_trace.py:171-196 | begin, checkpoint and end of an async operation share the id and the lane, the file holds exactly those events after the metadata, and the lane is released |
| TraceSession.FailingSpan | core/trace/tracer.py:163-179 | a span around work that raises still writes its X event between the surrounding events, and the error reaches the caller |
| DepsEnv.LowerChar | core/components/deps_env.py:15-16 | an upper-case ASCII letter becomes its lower-case letter, any other character is kept |
| DepsEnv.Lower | core/components/deps_env.py:15-16 | same length, no upper-case letter left, other characters kept |
| DepsEnv.LowerIdempotent | core/components/deps_env.py:15-16 | lower-casing twice is lower-casing once |
| DepsEnv.LowerFixesLowerCase | core/components/deps_env.py:15-16 | text without upper-case letters is unchanged |
| DepsEnv.NormalizeMachine | core/components/deps_env.py:17 | amd64 becomes x86_64, every other name is kept |
| DepsEnv.EnvOf | core/components/deps_env.py:14-21 | exactly the keys system and machine, both lower-case, with the machine normalised |
| DepsEnv.WindowsMachineIsX8664 | core/components/deps_env.py:16-17 | a machine reported as AMD64 is cached as x86_64 |
| DepsEnv.Overlay | core/components/deps_env.py:26-27 | every key of the overrides takes the override's value, every other key keeps the cached value |
| DepsEnv.DepsEnvBuild.constructor | core/components/deps_env.py:9-10 | the cache starts empty |
| DepsEnv.DepsEnvBuild.InitDepsEnv | core/components/deps_env.py:12-21 | the cache is filled only when empty, and then with the normalised environment |
| DepsEnv.DepsEnvBuild.GetDepsEnv | core/components/deps_env.py:23-28 | the cache is filled if needed and never changed by the overrides; the result is the cache with the overrides applied |

## Left out

- Locks: each locked section runs as one atomic method. `async_end`'s two locked sections and the write between them run as one method, so interleavings with other threads are not modelled.
- The MD5 digests of task identities and async ids are an abstract `hash` or a digest in `Runtime`. Task identities are not modelled. Nothing is proved about collisions.
- `uuid4` is a fresh-token parameter, required not to be registered already.
- Wall-clock floats and their `int()` truncation: the clock is an integer number of microseconds, and a span's duration is the difference of two integer readings.
- `json.dumps` is an abstract `encode` on dictionaries it accepts. Its output text, key order and escaping are not modelled. Which values it accepts is modelled as `JsonEncodable`.
- The file is the `content` string. Opening, closing and `os.makedirs` are not modelled, and neither are I/O errors. Flushing is tracked only as the length pushed out. Each writer's `content` stands for its own file: a `start` after `stop` opens a new writer on the same path, and the truncation of the earlier session's file on disk is not modelled.
- Python dictionaries are maps, so insertion order of keys is not modelled.
- TraceSession.Tracer.WriteEvent, TraceSession.Tracer.AsyncEnd: the error `json.dumps` raises is returned as a flag rather than raised.
- TraceSession.Tracer.Instant, Counter, Metadata, BeginSpan, EndSpan, AsyncBegin, AsyncInstant: these do not pass the `json.dumps` error on to their callers. They are built on the corrected `WriteEvent`, so for a refused event their contracts describe the intended behaviour: the event is not written and the file is left as it was. With the source's order a refused event would also leave a stray separator, or clear the first-event flag (see "## Findings"). `Span` and `AsyncEnd` pass the error on: the span's outcome is replaced, and `AsyncEnd` reports it in its `raised` result and skips the lane release.
- `Tracer.enabled` is a constant: the source never reassigns it.
- Real thread idents are not proved disjoint from the synthetic lane ranges. The source assumes it without enforcing it.
- Decorators `trace_function`/`trace_async_function`, the global-tracer accessors, the context-manager entry and exit of the tracer, and the example scripts are not part of this model. The writer's context manager appears only as `WriteTraceFile`.
- `platform.system()` and `platform.machine()` are parameters, and lower-casing is ASCII only.
- `get_deps_env`'s overrides are string-valued, and its mutable default argument is not modelled.
- `DepsEnvBuild`'s class-level field is a field of one object.

## Findings

| source | as written | input that shows it | evidently intended | confidence | as-written member | corrected member |
|---|---|---|---|---|---|---|
| core/trace/writer.py:72-79 | `write_event` writes the separator and clears the first-event flag before `json.dumps` runs, so an event it refuses leaves a separator in the file | open, then an event whose args hold an object `json.dumps` refuses (a `datetime`, or a `Path` inside a nested list), then a good event: the file starts `[\n,\n  {…}`, which is not the start of any array | serialise first, and write nothing when serialisation fails | not executed | TraceWriter.StraySeparator | TraceWriter.ChromeTraceWriter.WriteEvent |

/**
 * The event model of the tracing library (core/trace/event.py): the closed set
 * of Chrome trace phase codes, the sanitiser that makes argument maps
 * JSON-compatible, the synthetic lane of a cooperative task, the defaults of a
 * freshly built event and the dictionary an event becomes on the wire.
 */
module TraceEvents {
  import opened Wrappers

  // ---------------------------------------------------------------------------
  // Phase codes
  // ---------------------------------------------------------------------------

  /** The twelve kinds of Chrome trace event (`EventType`). */
  datatype EventType =
    | DurationBegin
    | DurationEnd
    | Complete
    | Instant
    | Counter
    | AsyncStart
    | AsyncInstant
    | AsyncEnd
    | FlowStart
    | FlowStep
    | FlowEnd
    | Metadata
  {
    /** The one-character `ph` code written for this kind. */
    function Code(): (c: char)
      ensures c in "BEXiCbnestfM"
    {
      match this
      case DurationBegin => 'B'
      case DurationEnd => 'E'
      case Complete => 'X'
      case Instant => 'i'
      case Counter => 'C'
      case AsyncStart => 'b'
      case AsyncInstant => 'n'
      case AsyncEnd => 'e'
      case FlowStart => 's'
      case FlowStep => 't'
      case FlowEnd => 'f'
      case Metadata => 'M'
    }
  }

  /** The kind whose code is `c`, if any: the reading side of `Code`. */
  function FromCode(c: char): (r: Option<EventType>)
    ensures r.Some? ==> r.value.Code() == c
    ensures c in "BEXiCbnestfM" <==> r.Some?
  {
    match c
    case 'B' => Some(DurationBegin)
    case 'E' => Some(DurationEnd)
    case 'X' => Some(Complete)
    case 'i' => Some(Instant)
    case 'C' => Some(Counter)
    case 'b' => Some(AsyncStart)
    case 'n' => Some(AsyncInstant)
    case 'e' => Some(AsyncEnd)
    case 's' => Some(FlowStart)
    case 't' => Some(FlowStep)
    case 'f' => Some(FlowEnd)
    case 'M' => Some(Metadata)
    case _ => None
  }

  /** Every kind is recovered from its code, so no two kinds share a code. */
  lemma CodeRoundTrip(t: EventType)
    ensures FromCode(t.Code()) == Some(t)
  {
  }

  lemma CodesDistinct(t: EventType, u: EventType)
    ensures t.Code() == u.Code() ==> t == u
  {
    CodeRoundTrip(t);
    CodeRoundTrip(u);
  }

  // ---------------------------------------------------------------------------
  // Argument values and their sanitiser
  // ---------------------------------------------------------------------------

  /**
   * A Python value found in an event's `args`. `PathV` is a `pathlib.Path`
   * whose `str()` is `path`; `Opaque` stands for any other object, which the
   * sanitiser passes through untouched.
   */
  datatype Value =
    | Null
    | Bool(b: bool)
    | Int(i: int)
    | Float(x: real)
    | Str(s: string)
    | PathV(path: string)
    | Dict(entries: map<string, Value>)
    | List(items: seq<Value>)
    | Tuple(items: seq<Value>)
    | Opaque(tag: string)

  /** A list element after sanitising: a direct `Path` becomes its string. */
  function PathToStr(v: Value): (r: Value)
    ensures !r.PathV?
    ensures v.PathV? ==> r == Str(v.path)
    ensures !v.PathV? ==> r == v
  {
    if v.PathV? then Str(v.path) else v
  }

  /**
   * No `Path` is left where the sanitiser looks: not as a value, not inside a
   * nested dictionary, not as a direct element of a list, and no tuple is
   * left (it has become a list).
   */
  ghost predicate Sanitized(v: Value)
    decreases v, 1
  {
    match v
    case PathV(_) => false
    case Tuple(_) => false
    case Dict(m) => SanitizedArgs(m)
    case List(xs) => forall i :: 0 <= i < |xs| ==> !xs[i].PathV?
    case _ => true
  }

  ghost predicate SanitizedArgs(m: map<string, Value>)
    decreases Dict(m), 0
  {
    forall k :: k in m ==> Sanitized(m[k])
  }

  /** What `_serialize_args` makes of one value. */
  function SerializedValue(v: Value): (r: Value)
    decreases v, 1
    ensures Sanitized(r)
    ensures v.PathV? ==> r == Str(v.path)
    ensures v.Dict? ==> r.Dict? && r.entries.Keys == v.entries.Keys
    ensures v.List? || v.Tuple? ==>
              r.List? && |r.items| == |v.items| &&
              forall i :: 0 <= i < |v.items| ==> r.items[i] == PathToStr(v.items[i])
    ensures !v.PathV? && !v.Dict? && !v.List? && !v.Tuple? ==> r == v
  {
    match v
    case PathV(p) => Str(p)
    case Dict(m) => Dict(SerializedArgs(m))
    case List(xs) => List(seq(|xs|, i requires 0 <= i < |xs| => PathToStr(xs[i])))
    case Tuple(xs) => List(seq(|xs|, i requires 0 <= i < |xs| => PathToStr(xs[i])))
    case _ => v
  }

  /** `_serialize_args`: the same keys, each value sanitised. */
  function SerializedArgs(args: map<string, Value>): (r: map<string, Value>)
    decreases Dict(args), 0
    ensures r.Keys == args.Keys
    ensures SanitizedArgs(r)
    ensures |args| == 0 ==> r == map[]
  {
    map k | k in args :: SerializedValue(args[k])
  }

  /**
   * The loop of `_serialize_args`: an empty map gives `{}`; otherwise each
   * entry is converted in turn into a fresh dictionary, recursing into nested
   * dictionaries.
   */
  method SerializeArgs(args: map<string, Value>) returns (serialized: map<string, Value>)
    decreases Dict(args)
    ensures serialized == SerializedArgs(args)
  {
    if |args| == 0 {
      return map[];
    }
    serialized := map[];
    var todo := args.Keys;
    while todo != {}
      invariant todo <= args.Keys
      invariant serialized.Keys == args.Keys - todo
      invariant forall k :: k in serialized ==> serialized[k] == SerializedValue(args[k])
      decreases todo
    {
      var key :| key in todo;
      var value := args[key];
      var converted: Value;
      if value.PathV? {
        converted := Str(value.path);
      } else if value.Dict? {
        var nested := SerializeArgs(value.entries);
        converted := Dict(nested);
      } else if value.List? || value.Tuple? {
        converted := List(seq(|value.items|, i requires 0 <= i < |value.items| => PathToStr(value.items[i])));
      } else {
        converted := value;
      }
      serialized := serialized[key := converted];
      todo := todo - {key};
    }
  }

  /** Sanitising twice is sanitising once: a sanitised value is a fixed point. */
  lemma {:induction false} SerializedValueFixed(v: Value)
    requires Sanitized(v)
    decreases v, 1
    ensures SerializedValue(v) == v
  {
    match v
    case Dict(m) =>
      SerializedArgsFixed(m);
    case List(xs) =>
      assert SerializedValue(v).items == xs;
    case _ =>
  }

  lemma {:induction false} SerializedArgsFixed(m: map<string, Value>)
    requires SanitizedArgs(m)
    decreases Dict(m), 0
    ensures SerializedArgs(m) == m
  {
    forall k | k in m
      ensures SerializedValue(m[k]) == m[k]
    {
      SerializedValueFixed(m[k]);
    }
  }

  lemma SerializedArgsIdempotent(m: map<string, Value>)
    ensures SerializedArgs(SerializedArgs(m)) == SerializedArgs(m)
  {
    SerializedArgsFixed(SerializedArgs(m));
  }

  /**
   * What `json.dumps` accepts: primitives, and dictionaries and lists or
   * tuples of acceptable values. A `Path` or any other object is refused
   * with a `TypeError`.
   */
  function JsonEncodable(v: Value): (ok: bool)
    decreases v, 1
    ensures v.PathV? || v.Opaque? ==> !ok
    ensures Primitive(v) ==> ok
  {
    match v
    case PathV(_) => false
    case Opaque(_) => false
    case Dict(m) => JsonEncodableMap(m)
    case List(xs) => forall i :: 0 <= i < |xs| ==> JsonEncodable(xs[i])
    case Tuple(xs) => forall i :: 0 <= i < |xs| ==> JsonEncodable(xs[i])
    case _ => true
  }

  function JsonEncodableMap(m: map<string, Value>): (ok: bool)
    decreases Dict(m), 0
    ensures m == map[] ==> ok
  {
    forall k :: k in m ==> JsonEncodable(m[k])
  }

  // ---------------------------------------------------------------------------
  // Lanes (the `tid` of an event)
  // ---------------------------------------------------------------------------

  /** Synthetic lanes of cooperative tasks start here. */
  const CoroutineBase: int := 0x1000_0000
  /** Synthetic lanes of async operations start here (used by the tracer). */
  const AsyncBase: int := 0x2000_0000
  /** Width of each reserved lane range. */
  const LaneWidth: int := 0x1000_0000

  /**
   * What the running program supplies when an event is built: the clock in
   * microseconds, the current thread's ident (`None` when unset) and, inside a
   * running task, the digest of that task (the first eight hex digits of the
   * MD5 of its identity, read as a number).
   */
  datatype Runtime = Runtime(nowUs: int, threadIdent: Option<nat>, taskDigest: Option<nat>)

  /** The lane of a task with the given digest. */
  function CoroutineLane(digest: nat): (lane: int)
    ensures CoroutineBase <= lane < CoroutineBase + LaneWidth
    ensures lane - CoroutineBase == digest % LaneWidth
  {
    CoroutineBase + digest % LaneWidth
  }

  /**
   * `_get_coroutine_thread_id`: inside a task its synthetic lane, otherwise
   * the thread's ident or 0.
   */
  function CurrentLane(rt: Runtime): (tid: int)
    ensures rt.taskDigest.Some? ==> CoroutineBase <= tid < CoroutineBase + LaneWidth
    ensures rt.taskDigest.Some? ==> tid == CoroutineLane(rt.taskDigest.value)
    ensures rt.taskDigest.None? && rt.threadIdent.Some? ==> tid == rt.threadIdent.value
    ensures rt.taskDigest.None? && rt.threadIdent.None? ==> tid == 0
  {
    match rt.taskDigest
    case Some(d) => CoroutineLane(d)
    case None => rt.threadIdent.GetOr(0)
  }

  // ---------------------------------------------------------------------------
  // Events
  // ---------------------------------------------------------------------------

  const DefaultCategory: string := "default"

  /** A recorded event; never changed once built. */
  datatype TraceEvent = TraceEvent(
    name: string,
    kind: EventType,
    timestamp: int,
    duration: Option<int>,
    processId: int,
    threadId: int,
    category: string,
    args: map<string, Value>,
    asyncId: Option<string>)

  /**
   * `TraceEvent(...)`: the supplied fields are kept as given; a missing
   * timestamp is the clock, a missing process id the thread ident (or 0), a
   * missing thread id the current lane, and missing args the empty map.
   */
  function NewEvent(
    name: string,
    kind: EventType,
    rt: Runtime,
    timestamp: Option<int> := None,
    duration: Option<int> := None,
    processId: Option<int> := None,
    threadId: Option<int> := None,
    category: string := DefaultCategory,
    args: Option<map<string, Value>> := None,
    asyncId: Option<string> := None): (e: TraceEvent)
    ensures e.name == name && e.kind == kind && e.category == category
    ensures e.duration == duration && e.asyncId == asyncId
    ensures timestamp.Some? ==> e.timestamp == timestamp.value
    ensures timestamp.None? ==> e.timestamp == rt.nowUs
    ensures processId.Some? ==> e.processId == processId.value
    ensures processId.None? ==> e.processId == rt.threadIdent.GetOr(0)
    ensures threadId.Some? ==> e.threadId == threadId.value
    ensures threadId.None? ==> e.threadId == CurrentLane(rt)
    ensures args.Some? ==> e.args == args.value
    ensures args.None? ==> e.args == map[]
  {
    TraceEvent(
      name, kind,
      timestamp.GetOr(rt.nowUs),
      duration,
      processId.GetOr(rt.threadIdent.GetOr(0)),
      threadId.GetOr(CurrentLane(rt)),
      category,
      args.GetOr(map[]),
      asyncId)
  }

  /** The fields every serialised event carries. */
  const HeaderKeys: set<string> := {"name", "ph", "ts", "pid", "tid", "cat"}
  /** The fields a serialised event carries only in some cases. */
  const OptionalKeys: set<string> := {"dur", "args", "id"}

  /** The six fields `to_dict` always writes. */
  function Header(e: TraceEvent): (d: map<string, Value>)
    ensures d.Keys == HeaderKeys
    ensures d["name"] == Str(e.name) && d["ph"] == Str([e.kind.Code()])
    ensures d["ts"] == Int(e.timestamp) && d["pid"] == Int(e.processId)
    ensures d["tid"] == Int(e.threadId) && d["cat"] == Str(e.category)
  {
    map[
      "name" := Str(e.name),
      "ph" := Str([e.kind.Code()]),
      "ts" := Int(e.timestamp),
      "pid" := Int(e.processId),
      "tid" := Int(e.threadId),
      "cat" := Str(e.category)]
  }

  /** `to_dict`: the event in the Chrome trace wire shape. */
  function ToDict(e: TraceEvent): (d: map<string, Value>)
    ensures HeaderKeys <= d.Keys <= HeaderKeys + OptionalKeys
  {
    var header := Header(e);
    var withDur := if e.duration.Some? then header["dur" := Int(e.duration.value)] else header;
    var withArgs := if e.args != map[] then withDur["args" := Dict(SerializedArgs(e.args))] else withDur;
    if e.asyncId.Some? then withArgs["id" := Str(e.asyncId.value)] else withArgs
  }

  /**
   * The fields of `to_dict`'s result: the six header fields always, `dur`
   * and `id` exactly when the event has them, `args` exactly when they are
   * non-empty, sanitised.
   */
  lemma ToDictFields(e: TraceEvent)
    ensures ToDict(e)["name"] == Str(e.name) && ToDict(e)["ph"] == Str([e.kind.Code()])
    ensures ToDict(e)["ts"] == Int(e.timestamp) && ToDict(e)["pid"] == Int(e.processId)
    ensures ToDict(e)["tid"] == Int(e.threadId) && ToDict(e)["cat"] == Str(e.category)
    ensures "dur" in ToDict(e) <==> e.duration.Some?
    ensures "dur" in ToDict(e) ==> ToDict(e)["dur"] == Int(e.duration.value)
    ensures "args" in ToDict(e) <==> e.args != map[]
    ensures "args" in ToDict(e) ==> ToDict(e)["args"] == Dict(SerializedArgs(e.args))
    ensures "id" in ToDict(e) <==> e.asyncId.Some?
    ensures "id" in ToDict(e) ==> ToDict(e)["id"] == Str(e.asyncId.value)
  {
    assert "dur" !in HeaderKeys && "args" !in HeaderKeys && "id" !in HeaderKeys;
    assert "dur" != "args" && "dur" != "id" && "args" != "id";
  }

  /** An event `json.dumps` can write: its sanitised args are acceptable. */
  predicate Encodable(e: TraceEvent) {
    JsonEncodableMap(SerializedArgs(e.args))
  }

  predicate Primitive(v: Value) {
    v.Null? || v.Bool? || v.Int? || v.Float? || v.Str?
  }

  /** Args made only of primitives come through sanitising unchanged and are accepted by `json.dumps`. */
  lemma PrimitiveArgsEncodable(m: map<string, Value>)
    requires forall k :: k in m ==> Primitive(m[k])
    ensures SerializedArgs(m) == m
    ensures JsonEncodableMap(SerializedArgs(m))
  {
    SerializedArgsFixed(m);
  }

  /** A `datetime` or other foreign object among the args makes the event unwritable. */
  lemma ForeignArgRefused(e: TraceEvent, key: string, tag: string)
    requires key in e.args && e.args[key] == Opaque(tag)
    ensures !Encodable(e)
  {
    assert key in SerializedArgs(e.args);
    assert SerializedValue(Opaque(tag)) == Opaque(tag);
    assert !JsonEncodable(SerializedArgs(e.args)[key]);
  }

  /** Only the args of an event's wire dictionary can make `json.dumps` fail. */
  lemma ToDictEncodable(e: TraceEvent)
    ensures JsonEncodableMap(ToDict(e)) <==> Encodable(e)
  {
    if Encodable(e) {
      EncodableToDict(e);
    }
    if JsonEncodableMap(ToDict(e)) {
      ToDictEncodableArgs(e);
    }
  }

  lemma EncodableToDict(e: TraceEvent)
    requires Encodable(e)
    ensures JsonEncodableMap(ToDict(e))
  {
    var header := Header(e);
    forall k | k in header
      ensures JsonEncodable(header[k])
    {
      assert k == "name" || k == "ph" || k == "ts" || k == "pid" || k == "tid" || k == "cat";
    }
    var withDur := if e.duration.Some? then header["dur" := Int(e.duration.value)] else header;
    EncodableUpdate(header, "dur", Int(0));
    if e.duration.Some? {
      EncodableUpdate(header, "dur", Int(e.duration.value));
    }
    var withArgs := if e.args != map[] then withDur["args" := Dict(SerializedArgs(e.args))] else withDur;
    if e.args != map[] {
      EncodableUpdate(withDur, "args", Dict(SerializedArgs(e.args)));
    }
    if e.asyncId.Some? {
      EncodableUpdate(withArgs, "id", Str(e.asyncId.value));
    }
  }

  lemma EncodableUpdate(m: map<string, Value>, k: string, v: Value)
    requires JsonEncodableMap(m) && JsonEncodable(v)
    ensures JsonEncodableMap(m[k := v])
  {
    var m' := m[k := v];
    forall k' | k' in m'
      ensures JsonEncodable(m'[k'])
    {
      if k' != k {
        assert m'[k'] == m[k'];
      }
    }
  }

  lemma ToDictEncodableArgs(e: TraceEvent)
    requires JsonEncodableMap(ToDict(e))
    ensures Encodable(e)
  {
    ToDictFields(e);
    var d := ToDict(e);
    if e.args != map[] {
      assert JsonEncodable(d["args"]);
    } else {
      assert SerializedArgs(e.args) == map[];
    }
  }

  /**
   * Reads a wire dictionary back into an event, as a trace viewer would;
   * `None` when a required field is missing or ill-typed.
   */
  function FromDict(d: map<string, Value>): (r: Option<TraceEvent>)
    ensures r.Some? ==> HeaderKeys <= d.Keys
  {
    if !(HeaderKeys <= d.Keys) then None
    else if !(d["name"].Str? && d["ph"].Str? && d["ts"].Int? && d["pid"].Int?
              && d["tid"].Int? && d["cat"].Str?) then None
    else if |d["ph"].s| != 1 || FromCode(d["ph"].s[0]).None? then None
    else if "dur" in d && !d["dur"].Int? then None
    else if "args" in d && !d["args"].Dict? then None
    else if "id" in d && !d["id"].Str? then None
    else
      Some(TraceEvent(
        d["name"].s,
        FromCode(d["ph"].s[0]).value,
        d["ts"].i,
        if "dur" in d then Some(d["dur"].i) else None,
        d["pid"].i,
        d["tid"].i,
        d["cat"].s,
        if "args" in d then d["args"].entries else map[],
        if "id" in d then Some(d["id"].s) else None))
  }

  /**
   * `to_dict` loses nothing but the unsanitised form of the arguments: reading
   * the dictionary back gives the same event with its args sanitised.
   */
  lemma ToDictRoundTrip(e: TraceEvent)
    ensures FromDict(ToDict(e)) == Some(e.(args := SerializedArgs(e.args)))
  {
    ToDictFields(e);
    var d := ToDict(e);
    assert [e.kind.Code()][0] == e.kind.Code();
    CodeRoundTrip(e.kind);
  }
}

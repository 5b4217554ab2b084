/**
 * The streaming writer (core/trace/writer.py): it owns the output file and
 * appends serialised events to it as one JSON array, written incrementally:
 * `[` on open, events separated by commas, `]` on close.
 */
module TraceWriter {
  import opened Wrappers
  import opened TraceEvents

  // ---------------------------------------------------------------------------
  // The text of the array, as the writer builds it and as a reader sees it
  // ---------------------------------------------------------------------------

  /**
   * The events part of the file after the serialised events `ws` were
   * written one by one: the first indented, each later one preceded by a
   * comma and a new line.
   */
  function Body(ws: seq<string>): (r: string)
    ensures ws == [] <==> r == ""
    ensures ws != [] ==> "  " + ws[0] <= r
  {
    if |ws| == 0 then ""
    else if |ws| == 1 then "  " + ws[0]
    else
      var init := ws[..|ws| - 1];
      assert init[0] == ws[0];
      Body(init) + ",\n  " + ws[|ws| - 1]
  }

  /** The file while the writer is open: the bracket, then the first event, if any, with no separator before it. */
  function OpenArray(ws: seq<string>): (r: string)
    ensures ws == [] <==> r == "[\n"
    ensures ws != [] ==> "[\n  " + ws[0] <= r
  {
    "[\n" + Body(ws)
  }

  /** The file once the writer is closed: it starts with `[` and ends with `]` and a new line. */
  function ClosedArray(ws: seq<string>): (r: string)
    ensures "[\n" <= r && |r| >= 5 && r[|r| - 3..] == "\n]\n"
    ensures ws == [] <==> r == "[\n\n]\n"
  {
    OpenArray(ws) + "\n]\n"
  }

  /** The usual join: the items with `sep` between neighbours and nowhere else. */
  function Join(items: seq<string>, sep: string): string
  {
    if |items| == 0 then ""
    else if |items| == 1 then items[0]
    else items[0] + sep + Join(items[1..], sep)
  }

  function Indented(ws: seq<string>): (r: seq<string>)
    ensures |r| == |ws|
  {
    seq(|ws|, i requires 0 <= i < |ws| => "  " + ws[i])
  }

  /** The serialised form of each event, in order (`json.dumps(event.to_dict())`). */
  function Lines(encode: map<string, Value> -> string, events: seq<TraceEvent>): (ws: seq<string>)
    ensures |ws| == |events|
  {
    seq(|events|, i requires 0 <= i < |events| => encode(ToDict(events[i])))
  }

  lemma LinesSnoc(encode: map<string, Value> -> string, events: seq<TraceEvent>, e: TraceEvent)
    ensures Lines(encode, events + [e]) == Lines(encode, events) + [encode(ToDict(e))]
  {
  }

  /** Writing one more event appends its separator (none before the first) and the event. */
  lemma BodySnoc(ws: seq<string>, w: string)
    ensures Body(ws + [w]) == Body(ws) + (if ws == [] then "" else ",\n") + "  " + w
  {
    if ws != [] {
      assert (ws + [w])[..|ws|] == ws;
    }
  }

  lemma OpenArraySnoc(ws: seq<string>, w: string)
    ensures OpenArray(ws + [w]) == OpenArray(ws) + (if ws == [] then "" else ",\n") + "  " + w
  {
    BodySnoc(ws, w);
  }

  lemma {:induction false} JoinSnoc(items: seq<string>, x: string, sep: string)
    requires items != []
    ensures Join(items + [x], sep) == Join(items, sep) + sep + x
  {
    if |items| == 1 {
      assert (items + [x])[1..] == [x];
    } else {
      assert (items + [x])[1..] == items[1..] + [x];
      JoinSnoc(items[1..], x, sep);
    }
  }

  /**
   * What the writer emits incrementally is the standard array layout: the
   * indented events joined by ",\n".
   */
  lemma {:induction false} BodyIsJoin(ws: seq<string>)
    ensures Body(ws) == Join(Indented(ws), ",\n")
  {
    if |ws| > 1 {
      var init, last := ws[..|ws| - 1], ws[|ws| - 1];
      BodyIsJoin(init);
      assert Indented(ws) == Indented(init) + ["  " + last];
      JoinSnoc(Indented(init), "  " + last, ",\n");
    }
  }

  /** The closed file is `[`, the events joined by commas, then `]`. */
  lemma ClosedArrayIsJoin(ws: seq<string>)
    ensures ClosedArray(ws) == "[\n" + Join(Indented(ws), ",\n") + "\n]\n"
  {
    BodyIsJoin(ws);
  }

  // ---------------------------------------------------------------------------
  // The writer
  // ---------------------------------------------------------------------------

  /** Extending a prefix of a batch by one event. */
  lemma PrefixSnoc(es: seq<TraceEvent>, i: nat)
    requires i < |es|
    ensures es[..i + 1] == es[..i] + [es[i]]
  {
  }

  /**
   * How far a batch gets on an open writer: the index of the first event that
   * `json.dumps` refuses, or the length of the batch when it accepts them all.
   */
  function FirstRefused(es: seq<TraceEvent>): (n: nat)
    ensures n <= |es|
    ensures forall j :: 0 <= j < n ==> Encodable(es[j])
    ensures n < |es| ==> !Encodable(es[n])
  {
    FirstFailing(es, Encodable, 0)
  }

  /** Within the accepted prefix, the next event is accepted exactly when the prefix goes on past it. */
  lemma FirstRefusedStep(es: seq<TraceEvent>, i: nat)
    requires i <= FirstRefused(es) && i < |es|
    ensures Encodable(es[i]) <==> i < FirstRefused(es)
  {
  }

  /** The index of the first element from `i` on that fails `ok`, or `|xs|`. */
  function FirstFailing<T>(xs: seq<T>, ok: T -> bool, i: nat): (n: nat)
    requires i <= |xs|
    ensures i <= n <= |xs|
    ensures forall j :: i <= j < n ==> ok(xs[j])
    ensures n < |xs| ==> !ok(xs[n])
    decreases |xs| - i
  {
    if i == |xs| || !ok(xs[i]) then i
    else FirstFailing(xs, ok, i + 1)
  }

  /**
   * The outcome of a write: `NotOpenError` is the source's `RuntimeError`,
   * `SerializationError` the `TypeError` raised by `json.dumps`.
   */
  datatype WriteResult = Written | NotOpenError | SerializationError

  /**
   * `ChromeTraceWriter`. `isOpen` stands for `_file is not None`, `content` for
   * the text of the output file as this writer has written it, and `flushed`
   * for how much of it has been pushed out of the file buffer.
   */
  class ChromeTraceWriter {
    const filepath: string
    const autoFlush: bool
    /** `json.dumps(..., separators=(",", ":"))`. */
    const encode: map<string, Value> -> string

    var isOpen: bool
    var firstEvent: bool
    var content: string
    var flushed: nat
    /** The events written since the last open. */
    ghost var events: seq<TraceEvent>

    ghost predicate Valid()
      reads this
    {
      && flushed <= |content|
      && firstEvent == (events == [])
      && (isOpen ==> content == OpenArray(Lines(encode, events)))
      && (!isOpen ==> (content == "" && events == []) || content == ClosedArray(Lines(encode, events)))
    }

    constructor (filepath: string, autoFlush: bool, encode: map<string, Value> -> string)
      ensures Valid()
      ensures this.filepath == filepath && this.autoFlush == autoFlush && this.encode == encode
      ensures !isOpen && firstEvent && content == "" && events == []
    {
      this.filepath := filepath;
      this.autoFlush := autoFlush;
      this.encode := encode;
      isOpen := false;
      firstEvent := true;
      content := "";
      flushed := 0;
      events := [];
    }

    /**
     * `open`: a closed writer truncates the file, starts the array and
     * resets the first-event flag; an open writer is left as it is.
     */
    method Open()
      requires Valid()
      modifies this
      ensures Valid() && isOpen
      ensures old(isOpen) ==> unchanged(this)
      ensures !old(isOpen) ==> content == "[\n" && firstEvent && events == [] && flushed == 0
    {
      if !isOpen {
        isOpen := true;
        content := "[\n";
        flushed := 0;
        firstEvent := true;
        events := [];
      }
    }

    /** `close`: an open writer ends the array and flushes; a closed one does nothing. */
    method Close()
      requires Valid()
      modifies this
      ensures Valid() && !isOpen
      ensures old(isOpen) ==> content == old(content) + "\n]\n" && flushed == |content|
      ensures old(isOpen) ==> content == ClosedArray(Lines(encode, events))
      ensures events == old(events) && firstEvent == old(firstEvent)
      ensures !old(isOpen) ==> unchanged(this)
    {
      if isOpen {
        content := content + "\n]\n";
        flushed := |content|;
        isOpen := false;
      }
    }

    /**
     * `write_event`: fails on a writer that is not open, and on an event
     * `json.dumps` refuses, changing nothing; otherwise appends a separator
     * (except before the first event) and the indented serialised event, and
     * flushes when `autoFlush` is set. The event is serialised before anything
     * is written (the source does it the other way round; see
     * `WriteEventAsWritten`).
     */
    method WriteEvent(e: TraceEvent) returns (r: WriteResult)
      requires Valid()
      modifies this
      ensures Valid() && isOpen == old(isOpen)
      ensures r == NotOpenError <==> !old(isOpen)
      ensures r == Written <==> old(isOpen) && Encodable(e)
      ensures r != Written ==> unchanged(this)
      ensures r == Written ==> !firstEvent && events == old(events) + [e]
      ensures r == Written ==>
                content == old(content) + (if old(firstEvent) then "" else ",\n") + "  " + encode(ToDict(e))
      ensures r == Written ==> flushed == if autoFlush then |content| else old(flushed)
    {
      if !isOpen {
        return NotOpenError;
      }
      var d := ToDict(e);
      ToDictEncodable(e);
      if !JsonEncodableMap(d) {
        return SerializationError;
      }
      var line := encode(d);
      ghost var ws := Lines(encode, events);
      LinesSnoc(encode, events, e);
      OpenArraySnoc(ws, line);
      var sep := if firstEvent then "" else ",\n";
      content := content + sep + "  " + line;
      firstEvent := false;
      events := events + [e];
      if autoFlush {
        flushed := |content|;
      }
      r := Written;
    }

    /**
     * `write_event` in the source's order: the separator is written and the
     * first-event flag cleared before `json.dumps` runs, so a refused event
     * leaves its separator behind (and, when it was the first event, makes
     * the next event start with a separator).
     */
    method WriteEventAsWritten(e: TraceEvent) returns (r: WriteResult)
      modifies this
      ensures !old(isOpen) ==> r == NotOpenError && unchanged(this)
      ensures old(isOpen) ==> isOpen && !firstEvent
      ensures old(isOpen) ==> r != NotOpenError && (r == Written <==> Encodable(e))
      ensures r == SerializationError ==> content == old(content) + (if old(firstEvent) then "" else ",\n")
      ensures r == SerializationError ==> events == old(events) && flushed == old(flushed)
      ensures r == Written ==>
                content == old(content) + (if old(firstEvent) then "" else ",\n") + "  " + encode(ToDict(e))
      ensures r == Written ==> events == old(events) + [e]
      ensures r == Written ==> flushed == if autoFlush then |content| else old(flushed)
    {
      if !isOpen {
        return NotOpenError;
      }
      var sep := if firstEvent then "" else ",\n";
      firstEvent := false;
      var d := ToDict(e);
      ToDictEncodable(e);
      if !JsonEncodableMap(d) {
        content := content + sep;
        return SerializationError;
      }
      content := content + sep + "  " + encode(d);
      events := events + [e];
      if autoFlush {
        flushed := |content|;
      }
      r := Written;
    }

    /**
     * `write_events`: `write_event` on each event in order. The first failure
     * ends the loop: on a writer that is not open nothing is written, and the
     * first refused event stops the batch after the events before it, so
     * exactly the events before `FirstRefused(es)` are written.
     */
    method WriteEvents(es: seq<TraceEvent>) returns (r: WriteResult)
      requires Valid()
      modifies this
      ensures Valid() && isOpen == old(isOpen)
      ensures !old(isOpen) ==> unchanged(this) && (r == Written <==> es == [])
      ensures !old(isOpen) && es != [] ==> r == NotOpenError
      ensures old(isOpen) ==> r != NotOpenError
      ensures old(isOpen) ==> events == old(events) + es[..FirstRefused(es)]
      ensures old(isOpen) ==> (r == Written <==> FirstRefused(es) == |es|)
      ensures old(isOpen) ==> flushed == if autoFlush && FirstRefused(es) > 0 then |content| else old(flushed)
    {
      if !isOpen {
        // the first `write_event` raises; an empty batch never calls it
        return if es == [] then Written else NotOpenError;
      }
      r := Written;
      var i := 0;
      while i < |es|
        invariant 0 <= i <= FirstRefused(es)
        invariant Valid() && isOpen && r == Written
        invariant events == old(events) + es[..i]
        invariant flushed == if autoFlush && i > 0 then |content| else old(flushed)
      {
        r := WriteEvent(es[i]);
        FirstRefusedStep(es, i);
        if r != Written {
          assert i == FirstRefused(es);
          return;
        }
        PrefixSnoc(es, i);
        i := i + 1;
      }
      assert i == FirstRefused(es) && es[..i] == es;
    }

    /**
     * `write_metadata`: one `M` event on lane 0 with the given name, args and
     * process id (the thread ident, or 0, when none is given).
     */
    method WriteMetadata(name: string, args: map<string, Value>, processId: Option<int>, rt: Runtime)
      returns (r: WriteResult)
      requires Valid()
      modifies this
      ensures Valid() && isOpen == old(isOpen)
      ensures r == NotOpenError <==> !old(isOpen)
      ensures r == Written <==>
                old(isOpen) && Encodable(NewEvent(name, Metadata, rt, processId := processId, threadId := Some(0), args := Some(args)))
      ensures r != Written ==> unchanged(this)
      ensures r == Written ==>
                events == old(events) + [NewEvent(name, Metadata, rt, processId := processId, threadId := Some(0), args := Some(args))]
      ensures r == Written ==>
                var m := events[|events| - 1];
                m.kind == Metadata && m.threadId == 0 && m.name == name && m.args == args
                && m.processId == processId.GetOr(rt.threadIdent.GetOr(0))
      ensures r == Written ==> flushed == if autoFlush then |content| else old(flushed)
    {
      var event := NewEvent(name, Metadata, rt, processId := processId, threadId := Some(0), args := Some(args));
      r := WriteEvent(event);
    }

    /** `flush`: on an open writer, everything written so far is pushed out. */
    method Flush()
      requires Valid()
      modifies this`flushed
      ensures Valid()
      ensures isOpen ==> flushed == |content|
      ensures !isOpen ==> flushed == old(flushed)
    {
      if isOpen {
        flushed := |content|;
      }
    }
  }

  /**
   * Text that starts with a separator right after the opening bracket is not
   * the beginning of any array the writer can produce.
   */
  lemma LeadingSeparatorNotOpenArray(line: string)
    ensures forall ws :: "[\n" + ",\n" + "  " + line != OpenArray(ws)
  {
    var text := "[\n" + ",\n" + "  " + line;
    assert text[2] == ',';
    forall ws
      ensures text != OpenArray(ws)
    {
      if ws != [] {
        assert OpenArray(ws)[2] == ' ';
      }
    }
  }

  /**
   * With the source's ordering, a refused first event followed by an
   * accepted one leaves a separator before the first element.
   */
  method StraySeparator(
    filepath: string, encode: map<string, Value> -> string, refused: TraceEvent, accepted: TraceEvent)
    returns (text: string)
    requires !Encodable(refused) && Encodable(accepted)
    ensures text == "[\n" + ",\n" + "  " + encode(ToDict(accepted))
    ensures forall ws :: text != OpenArray(ws)
  {
    var w := new ChromeTraceWriter(filepath, false, encode);
    w.Open();
    assert w.content == "[\n" && w.firstEvent;
    var r1 := w.WriteEventAsWritten(refused);
    assert r1 == SerializationError;
    assert w.isOpen && !w.firstEvent && w.content == "[\n";
    var r2 := w.WriteEventAsWritten(accepted);
    assert r2 == Written;
    text := w.content;
    LeadingSeparatorNotOpenArray(encode(ToDict(accepted)));
  }

  /**
   * A writer used as a context manager around `write_events` (`with
   * ChromeTraceWriter(path) as writer: writer.write_events(events)`) leaves
   * exactly the array of those events in the file.
   */
  method WriteTraceFile(w: ChromeTraceWriter, es: seq<TraceEvent>)
    requires w.Valid() && !w.isOpen
    requires forall i :: 0 <= i < |es| ==> Encodable(es[i])
    modifies w
    ensures w.Valid() && !w.isOpen
    ensures w.content == ClosedArray(Lines(w.encode, es))
    ensures w.content == "[\n" + Join(Indented(Lines(w.encode, es)), ",\n") + "\n]\n"
  {
    w.Open();
    var r := w.WriteEvents(es);
    assert w.events == es;
    w.Close();
    ClosedArrayIsJoin(Lines(w.encode, es));
  }
}

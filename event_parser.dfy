/** The event-stream line parser that `consume` wires between the raw
    stream and the hook: three pieces of state (the data buffer, the
    current id and the current event type) updated chunk by chunk, and an
    event record produced at each blank line that follows buffered data.
    It is a cut-down form of the event-stream interpretation rules of
    section 9.2.6 of the WHATWG HTML Living Standard: a field is recognised
    only with its "name: " prefix (space included), the event type keeps a
    leading space, and only the first line feed of a chunk is removed. */
module EventParser {
  import opened Wrappers
  import opened JsText

  /** The record pushed downstream: `{id, event, data}`. */
  datatype Event = Event(id: string, event: string, data: string)

  /** The three closure variables `dataBuf`, `id` and `event`. */
  datatype ParserState = ParserState(dataBuf: string, id: string, event: string)

  /** The state `consume` starts each new parser in. */
  const Initial := ParserState("", "", "")

  const DataPrefix := "data: "
  const IdPrefix := "id: "
  const EventPrefix := "event: "

  /** The value of a data line: everything after the six characters of "data: ". */
  function DataValue(line: string): string
    requires DataPrefix <= line
  {
    line[6..]
  }

  /** The value of an id line: everything after the four characters of "id: ". */
  function IdValue(line: string): string
    requires IdPrefix <= line
  {
    line[4..]
  }

  /** The value of an event line. The source slices at 6 although "event: "
      has seven characters, so the value keeps the prefix's space. */
  function EventValue(line: string): string
    requires EventPrefix <= line
  {
    line[6..]
  }

  /** One line, its first line feed already removed, through the parser:
      the new state and the record pushed, if any. */
  function StepLine(st: ParserState, line: string): (ParserState, Option<Event>)
  {
    if line == "" then
      if st.dataBuf == "" then (st, None)
      else (st.(dataBuf := ""), Some(Event(st.id, st.event, st.dataBuf)))
    else
      var buf :=
        if DataPrefix <= line
        then st.dataBuf + (if st.dataBuf != "" then "\n" else "") + DataValue(line)
        else st.dataBuf;
      var id := if IdPrefix <= line then IdValue(line) else st.id;
      var ev := if EventPrefix <= line then EventValue(line) else st.event;
      (ParserState(buf, id, ev), None)
  }

  /** One raw chunk through the parser: its first line feed is removed, then
      the line rules apply. */
  function Step(st: ParserState, raw: string): (ParserState, Option<Event>)
  {
    StepLine(st, StripFirstNewline(raw))
  }

  function Emitted(e: Option<Event>): seq<Event>
  {
    if e.Some? then [e.value] else []
  }

  /** The lines the parser sees for a sequence of raw chunks. No line
      splitter stands in front of the parser, so each chunk is one "line". */
  function Lines(chunks: seq<string>): (r: seq<string>)
    ensures |r| == |chunks|
    ensures forall i :: 0 <= i < |chunks| ==> r[i] == StripFirstNewline(chunks[i])
  {
    seq(|chunks|, i requires 0 <= i < |chunks| => StripFirstNewline(chunks[i]))
  }

  /** A sequence of lines through the parser, in order: the final state and
      every record pushed. */
  function RunLines(st: ParserState, lines: seq<string>): (ParserState, seq<Event>)
    decreases lines
  {
    if lines == [] then (st, [])
    else
      var first := StepLine(st, lines[0]);
      var rest := RunLines(first.0, lines[1..]);
      (rest.0, Emitted(first.1) + rest.1)
  }

  /** A sequence of raw chunks through the parser. */
  function Run(st: ParserState, chunks: seq<string>): (ParserState, seq<Event>)
  {
    RunLines(st, Lines(chunks))
  }

  /** The value of the last line among `lines` that carries the header
      `prefix` (its value starting at `offset`), or `init` when none does. */
  function LastHeader(init: string, lines: seq<string>, prefix: string, offset: nat): string
    requires offset <= |prefix|
  {
    if lines == [] then init
    else
      var line := lines[|lines| - 1];
      if prefix <= line then line[offset..]
      else LastHeader(init, lines[..|lines| - 1], prefix, offset)
  }

  /** The payloads of a run of data lines. */
  function Payloads(lines: seq<string>): seq<string>
    requires forall i :: 0 <= i < |lines| ==> DataPrefix <= lines[i]
  {
    if lines == [] then []
    else [DataValue(lines[0])] + Payloads(lines[1..])
  }

  /** Running two sequences of lines one after the other is running their
      concatenation. */
  lemma {:induction false} RunAppend(st: ParserState, a: seq<string>, b: seq<string>)
    ensures RunLines(st, a + b) ==
      (RunLines(RunLines(st, a).0, b).0, RunLines(st, a).1 + RunLines(RunLines(st, a).0, b).1)
    decreases a
  {
    if a == [] {
      assert a + b == b;
      assert RunLines(st, a).1 + RunLines(st, b).1 == RunLines(st, b).1;
    } else {
      assert (a + b)[0] == a[0];
      assert (a + b)[1..] == a[1..] + b;
      var first := StepLine(st, a[0]);
      RunAppend(first.0, a[1..], b);
      var tail := RunLines(first.0, a[1..]);
      assert Emitted(first.1) + (tail.1 + RunLines(tail.0, b).1) ==
        (Emitted(first.1) + tail.1) + RunLines(tail.0, b).1;
    }
  }

  /** One more line at the end: the parser goes on from where the earlier
      lines left it, and whatever that line emits comes after the earlier
      records. */
  lemma RunSnoc(st: ParserState, lines: seq<string>, line: string)
    ensures RunLines(st, lines + [line]) ==
      (StepLine(RunLines(st, lines).0, line).0,
       RunLines(st, lines).1 + Emitted(StepLine(RunLines(st, lines).0, line).1))
  {
    RunAppend(st, lines, [line]);
    var mid := RunLines(st, lines).0;
    var last := StepLine(mid, line);
    assert [line][0] == line && [line][1..] == [];
    assert RunLines(last.0, []) == (last.0, []);
    assert Emitted(last.1) + [] == Emitted(last.1);
  }

  /** One more raw chunk at the end of a sequence of chunks. */
  lemma RunChunkSnoc(st: ParserState, chunks: seq<string>, raw: string)
    ensures Run(st, chunks + [raw]) ==
      (Step(Run(st, chunks).0, raw).0, Run(st, chunks).1 + Emitted(Step(Run(st, chunks).0, raw).1))
  {
    assert Lines(chunks + [raw]) == Lines(chunks) + [StripFirstNewline(raw)];
    RunSnoc(st, Lines(chunks), StripFirstNewline(raw));
  }

  /** The id and the event type are sticky: after any sequence of lines they
      hold the values of the most recent id and event lines, across any
      number of dispatches, or their earlier values when there was none. */
  lemma {:induction false} RunHeaders(st: ParserState, lines: seq<string>)
    ensures RunLines(st, lines).0.id == LastHeader(st.id, lines, IdPrefix, 4)
    ensures RunLines(st, lines).0.event == LastHeader(st.event, lines, EventPrefix, 6)
    decreases |lines|
  {
    if lines != [] {
      var front := lines[..|lines| - 1];
      assert lines == front + [lines[|lines| - 1]];
      RunHeaders(st, front);
      RunSnoc(st, front, lines[|lines| - 1]);
    }
  }

  /** A blank line after buffered data emits exactly one record, whose id and
      type are those of the most recent header lines (or the starting ones)
      and whose data is the buffer; it clears the buffer and nothing else. */
  lemma Dispatch(st: ParserState, lines: seq<string>)
    requires RunLines(st, lines).0.dataBuf != ""
    ensures RunLines(st, lines + [""]) ==
      (RunLines(st, lines).0.(dataBuf := ""),
       RunLines(st, lines).1 + [Event(LastHeader(st.id, lines, IdPrefix, 4),
                                      LastHeader(st.event, lines, EventPrefix, 6),
                                      RunLines(st, lines).0.dataBuf)])
  {
    RunSnoc(st, lines, "");
    RunHeaders(st, lines);
  }

  /** A blank line while the buffer is empty emits nothing and changes nothing. */
  lemma BlankOnEmptyBuffer(st: ParserState, lines: seq<string>)
    requires RunLines(st, lines).0.dataBuf == ""
    ensures RunLines(st, lines + [""]) == RunLines(st, lines)
  {
    RunSnoc(st, lines, "");
    assert RunLines(st, lines).1 + [] == RunLines(st, lines).1;
  }

  /** Lines none of which is blank emit no record. */
  lemma {:induction false} NoBlankNoEvents(st: ParserState, lines: seq<string>)
    requires forall i :: 0 <= i < |lines| ==> lines[i] != ""
    ensures RunLines(st, lines).1 == []
    decreases lines
  {
    if lines != [] {
      NoBlankNoEvents(StepLine(st, lines[0]).0, lines[1..]);
    }
  }

  /** Appending one payload to the buffer the way a data line does agrees
      with joining the buffer and the payload after dropping empty strings
      in front. */
  lemma AppendPayloadJoin(buf: string, p: string, rest: seq<string>)
    ensures Join(DropLeadingEmpty([buf] + ([p] + rest)), "\n") ==
      Join(DropLeadingEmpty([buf + (if buf != "" then "\n" else "") + p] + rest), "\n")
  {
    var merged := buf + (if buf != "" then "\n" else "") + p;
    var all := [buf] + ([p] + rest);
    if buf == "" {
      assert merged == p;
      assert all[0] == "" && all[1..] == [p] + rest;
    } else {
      assert all[0] == buf && all[1..] == [p] + rest;
      assert DropLeadingEmpty(all) == all;
      assert ([merged] + rest)[0] == merged && ([merged] + rest)[1..] == rest;
      assert DropLeadingEmpty([merged] + rest) == [merged] + rest;
      JoinCons(buf, [p] + rest);
      if rest == [] {
        assert [p] + rest == [p];
        assert [merged] + rest == [merged];
      } else {
        JoinCons(p, rest);
        JoinCons(merged, rest);
      }
    }
  }

  lemma JoinCons(x: string, xs: seq<string>)
    requires xs != []
    ensures Join([x] + xs, "\n") == x + "\n" + Join(xs, "\n")
  {
    assert ([x] + xs)[0] == x && ([x] + xs)[1..] == xs;
  }

  /** A data line is no id line and no event line: it only appends its
      payload to the buffer and emits nothing. */
  lemma DataLineStep(st: ParserState, line: string)
    requires DataPrefix <= line
    ensures StepLine(st, line) ==
      (st.(dataBuf := st.dataBuf + (if st.dataBuf != "" then "\n" else "") + DataValue(line)), None)
  {
    assert line[0] == 'd';
    assert !(IdPrefix <= line) && !(EventPrefix <= line);
  }

  /** A run of data lines emits nothing, keeps the id and the type, and
      leaves in the buffer the earlier buffer and the payloads joined by
      line feeds, except that empty strings in front are dropped: the
      separator is added only when the buffer is already non-empty. */
  lemma {:induction false} DataLinesJoin(st: ParserState, lines: seq<string>)
    requires forall i :: 0 <= i < |lines| ==> DataPrefix <= lines[i]
    ensures RunLines(st, lines) ==
      (st.(dataBuf := Join(DropLeadingEmpty([st.dataBuf] + Payloads(lines)), "\n")), [])
    decreases lines
  {
    if lines == [] {
      if st.dataBuf == "" {
        assert DropLeadingEmpty([st.dataBuf]) == DropLeadingEmpty([]);
      }
    } else {
      var p := DataValue(lines[0]);
      DataLineStep(st, lines[0]);
      var next := StepLine(st, lines[0]).0;
      DataLinesJoin(next, lines[1..]);
      var tail := RunLines(next, lines[1..]);
      assert Emitted(None) + tail.1 == [];
      assert Payloads(lines) == [p] + Payloads(lines[1..]);
      AppendPayloadJoin(st.dataBuf, p, Payloads(lines[1..]));
    }
  }

  /** The values of the data lines among `lines`, in order; every other line
      contributes nothing. */
  function DataPayloads(lines: seq<string>): seq<string>
  {
    if lines == [] then []
    else (if DataPrefix <= lines[0] then [DataValue(lines[0])] else []) + DataPayloads(lines[1..])
  }

  /** Within a block (no blank line), `id: `, `event: ` and unrecognised lines
      leave the buffer alone, so the buffer ends as the earlier buffer and the
      values of the block's data lines joined by line feeds, empty strings in
      front dropped. */
  lemma {:induction false} BlockBuffer(st: ParserState, lines: seq<string>)
    requires forall i :: 0 <= i < |lines| ==> lines[i] != ""
    ensures RunLines(st, lines).0.dataBuf == Join(DropLeadingEmpty([st.dataBuf] + DataPayloads(lines)), "\n")
    decreases lines
  {
    if lines == [] {
      assert [st.dataBuf] + [] == [st.dataBuf];
      if st.dataBuf == "" {
        assert DropLeadingEmpty([st.dataBuf]) == DropLeadingEmpty([]);
      }
    } else {
      var next := StepLine(st, lines[0]).0;
      BlockBuffer(next, lines[1..]);
      assert RunLines(st, lines).0 == RunLines(next, lines[1..]).0;
      var rest := DataPayloads(lines[1..]);
      if DataPrefix <= lines[0] {
        DataLineStep(st, lines[0]);
        assert DataPayloads(lines) == [DataValue(lines[0])] + rest;
        AppendPayloadJoin(st.dataBuf, DataValue(lines[0]), rest);
      } else {
        assert next.dataBuf == st.dataBuf;
        assert DataPayloads(lines) == [] + rest;
        assert [] + rest == rest;
      }
    }
  }

  /** One whole block after a dispatch (empty buffer), closed by a blank
      line: it emits one record, with the block's data values joined by line
      feeds and the most recent headers, or nothing when that join is empty. */
  lemma BlockRecord(st: ParserState, lines: seq<string>)
    requires st.dataBuf == ""
    requires forall i :: 0 <= i < |lines| ==> lines[i] != ""
    ensures var data := Join(DropLeadingEmpty(DataPayloads(lines)), "\n");
      RunLines(st, lines + [""]).1 ==
        if data == "" then []
        else [Event(LastHeader(st.id, lines, IdPrefix, 4), LastHeader(st.event, lines, EventPrefix, 6), data)]
  {
    NoBlankNoEvents(st, lines);
    BlockBuffer(st, lines);
    var p := DataPayloads(lines);
    assert ([""] + p)[0] == "" && ([""] + p)[1..] == p;
    assert DropLeadingEmpty([""] + p) == DropLeadingEmpty(p);
    if RunLines(st, lines).0.dataBuf == "" {
      BlankOnEmptyBuffer(st, lines);
    } else {
      Dispatch(st, lines);
    }
  }

  /** The class the source's closure amounts to: the parser state as fields
      that each chunk updates in place. */
  class LineParser {
    var dataBuf: string
    var id: string
    var event: string

    function State(): ParserState
      reads this
    {
      ParserState(dataBuf, id, event)
    }

    constructor ()
      ensures State() == Initial
    {
      dataBuf, id, event := "", "", "";
    }

    /** Takes one chunk; returns the record pushed downstream, if any. */
    method Feed(raw: string) returns (out: Option<Event>)
      modifies this
      ensures (State(), out) == Step(old(State()), raw)
      ensures var line := StripFirstNewline(raw);
        line == "" && old(dataBuf) == "" ==> out == None && State() == old(State())
      ensures var line := StripFirstNewline(raw);
        line == "" && old(dataBuf) != "" ==>
          out == Some(Event(old(id), old(event), old(dataBuf))) &&
          dataBuf == "" && id == old(id) && event == old(event)
      ensures var line := StripFirstNewline(raw);
        line != "" ==>
          out == None &&
          (DataPrefix <= line ==> dataBuf == old(dataBuf) + (if old(dataBuf) == "" then "" else "\n") + line[6..]) &&
          (!(DataPrefix <= line) ==> dataBuf == old(dataBuf)) &&
          id == (if IdPrefix <= line then line[4..] else old(id)) &&
          event == (if EventPrefix <= line then line[6..] else old(event))
      ensures var line := StripFirstNewline(raw);
        line != "" && !(DataPrefix <= line) && !(IdPrefix <= line) && !(EventPrefix <= line) ==>
          State() == old(State())
    {
      var line := StripFirstNewline(raw);
      if line == "" {
        if dataBuf == "" {
          return None;
        }
        var data := dataBuf;
        dataBuf := "";
        return Some(Event(id, event, data));
      }
      if DataPrefix <= line {
        dataBuf := dataBuf + (if dataBuf != "" then "\n" else "") + line[6..];
      }
      if IdPrefix <= line {
        id := line[4..];
      }
      if EventPrefix <= line {
        event := line[6..];
      }
      out := None;
    }
  }
}

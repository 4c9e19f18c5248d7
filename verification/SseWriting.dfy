/** What a server writes as events, and that the framing reads just that back. */
module SseWriting {
  import opened Js
  import opened SseFraming

  /** An event as it is written: its name, and the lines of its data. */
  datatype Written = Written(name: string, data: seq<string>)

  function WriteData(lines: seq<string>, eol: string): string {
    if lines == [] then "" else ("data: " + lines[0] + eol) + WriteData(lines[1..], eol)
  }

  function WriteEvents(events: seq<Written>, eol: string): string {
    if events == [] then ""
    else ("event: " + events[0].name + eol) + (WriteData(events[0].data, eol) + (eol + WriteEvents(events[1..], eol)))
  }

  /** A line that can be written so: in one piece, and with nothing at its end that belongs to the ending. */
  predicate OneLine(line: string, eol: string) {
    '\n' !in line && (eol == "\r\n" || line == "" || line[|line| - 1] != '\r')
  }

  predicate CanWrite(event: Written, eol: string) {
    eol in {"\n", "\r\n"} && event.data != [] && OneLine(event.name, eol) &&
    forall i :: 0 <= i < |event.data| ==> IsData(event.data[i], eol)
  }

  predicate IsData(line: string, eol: string) {
    OneLine(line, eol) && (line == "" || !IsSpace(line[0]))
  }

  /** What an event says: its lines, put together. */
  function DataOf(events: seq<Written>): seq<string> {
    if events == [] then [] else [Join(events[0].data, "\n")] + DataOf(events[1..])
  }

  lemma {:induction false} NotThere(line: string, c: char)
    requires c !in line
    ensures IndexOf(line, c) == |line|
  {
    if line != "" { NotThere(line[1..], c); }
  }

  lemma {:induction false} EndOfLine(line: string, eol: string, rest: string)
    requires eol in {"\n", "\r\n"} && OneLine(line, eol)
    ensures var text := line + (eol + rest);
            IndexOf(text, '\n') == |line| + |eol| - 1 && text[|line| + |eol|..] == rest &&
            StripCr(text[..|line| + |eol| - 1]) == line
  {
    var text := line + (eol + rest);
    NotThere(line, '\n');
    IndexOfAppend(line, eol + rest, '\n');
    if eol == "\n" {
      assert text[..|line|] == line;
    } else {
      assert (eol + rest)[1..] == "\n" + rest;
      assert text[..|line| + 1] == line + "\r";
    }
  }

  /** A field that is not data says nothing; a data line is kept; a blank one ends the event. */
  lemma {:induction false} ReadField(name: string, eol: string, rest: string)
    requires eol in {"\n", "\r\n"} && OneLine(name, eol)
    ensures Payloads(("event: " + name + eol) + rest, []) == Payloads(rest, [])
  {
    var line := "event: " + name;
    assert OneLine(line, eol) && !("data:" <= line) by { assert line[0] == 'e'; }
    Assoc(line, eol, rest);
    EndOfLine(line, eol, rest);
  }

  lemma {:induction false} ReadLine(line: string, eol: string, rest: string, kept: seq<string>)
    requires eol in {"\n", "\r\n"} && IsData(line, eol)
    ensures Payloads(("data: " + line + eol) + rest, kept) == Payloads(rest, kept + [line])
  {
    var field := "data: " + line;
    assert OneLine(field, eol) && "data:" <= field;
    Assoc(field, eol, rest);
    EndOfLine(field, eol, rest);
    assert field[5..] == " " + line && (" " + line)[1..] == line;
    assert TrimStart(" " + line) == TrimStart(line) == line;
  }

  lemma {:induction false} ReadBlank(eol: string, rest: string, kept: seq<string>)
    requires eol in {"\n", "\r\n"} && kept != []
    ensures Payloads(eol + rest, kept) == [Join(kept, "\n")] + Payloads(rest, [])
  {
    EndOfLine("", eol, rest);
    assert "" + (eol + rest) == eol + rest;
  }

  lemma {:induction false} ReadData(lines: seq<string>, eol: string, rest: string, kept: seq<string>)
    requires eol in {"\n", "\r\n"} && forall i :: 0 <= i < |lines| ==> IsData(lines[i], eol)
    ensures Payloads(WriteData(lines, eol) + rest, kept) == Payloads(rest, kept + lines)
    decreases |lines|
  {
    if lines == [] {
      ConcatNothing(rest);
      ConcatNothing(kept);
    } else {
      var line, later := lines[0], lines[1..];
      WriteOne(line, later, eol, rest);
      assert lines == [line] + later;
      ReadLine(line, eol, WriteData(later, eol) + rest, kept);
      ReadData(later, eol, rest, kept + [line]);
      Assoc(kept, [line], later);
    }
  }

  lemma {:induction false} WriteOne(line: string, later: seq<string>, eol: string, rest: string)
    ensures WriteData([line] + later, eol) + rest == ("data: " + line + eol) + (WriteData(later, eol) + rest)
  {
    TailAppend([line], later);
    ConcatNothing(later);
    Assoc("data: " + line + eol, WriteData(later, eol), rest);
  }

  /**
    * The events a server writes are read as written, one payload for each, with either line ending: names are
    * passed over, and data of several lines is one payload of them all.
    */
  lemma {:induction false} EventsReadBack(events: seq<Written>, eol: string)
    requires forall i :: 0 <= i < |events| ==> CanWrite(events[i], eol)
    ensures Payloads(WriteEvents(events, eol), []) == DataOf(events)
    decreases |events|
  {
    if events != [] {
      var first, rest := events[0], WriteEvents(events[1..], eol);
      EventsReadBack(events[1..], eol);
      ReadField(first.name, eol, WriteData(first.data, eol) + (eol + rest));
      ReadData(first.data, eol, eol + rest, []);
      ConcatNothing(first.data);
      ReadBlank(eol, rest, first.data);
    }
  }
}

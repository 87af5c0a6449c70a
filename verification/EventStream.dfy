/** Decoding a buffered event stream (section 9.2.6 of the WHATWG HTML Living Standard, with the
    program's deviations: only `data` fields count, and the event type comes from the payload). */
module EventStream {
  import opened Json

  datatype Event = Event(eventType: string, data: string)

  /** The `type` a payload carries. */
  type TypeOf = string -> string

  // ----- lines -----

  /** strings.Split(s, "\n") */
  function Split(s: string): (lines: seq<string>)
    ensures |lines| > 0
  {
    if s == "" then [""]
    else
      var rest := Split(s[1..]);
      if s[0] == '\n' then [""] + rest else [[s[0]] + rest[0]] + rest[1..]
  }

  /** strings.Join(lines, "\n") */
  function Join(lines: seq<string>): string {
    if lines == [] then "" else if |lines| == 1 then lines[0] else lines[0] + "\n" + Join(lines[1..])
  }

  /** strings.TrimSuffix(line, "\r") */
  function TrimCr(line: string): string {
    if line != "" && line[|line| - 1] == '\r' then line[..|line| - 1] else line
  }

  /** strings.TrimPrefix(line, " ") */
  function TrimBlank(line: string): string {
    if line != "" && line[0] == ' ' then line[1..] else line
  }

  const DATA := "data:"

  predicate IsData(line: string) {
    DATA <= line
  }

  /** The value of a data line. */
  function DataOf(line: string): string
    requires IsData(line)
  {
    TrimBlank(line[|DATA|..])
  }

  // ----- decoding -----

  /** The payloads of the lines to come, given the data lines still pending. */
  function Payloads(lines: seq<string>, pending: seq<string>): seq<string> {
    if lines == [] then Flushed(pending)
    else
      var line := TrimCr(lines[0]);
      if line == "" then Flushed(pending) + Payloads(lines[1..], [])
      else if line[0] == ':' then Payloads(lines[1..], pending)
      else if IsData(line) then Payloads(lines[1..], pending + [DataOf(line)])
      else Payloads(lines[1..], pending)
  }

  function Flushed(pending: seq<string>): seq<string> {
    if pending == [] then [] else [Join(pending)]
  }

  function Decode(body: string): seq<string> {
    Payloads(Split(body), [])
  }

  function Events(payloads: seq<string>, typeOf: TypeOf): seq<Event> {
    seq(|payloads|, i requires 0 <= i < |payloads| => Event(typeOf(payloads[i]), payloads[i]))
  }

  /** The decoder as the program runs it: a loop over the lines with a buffer of data lines. */
  method DecodeSseBody(body: string, typeOf: TypeOf) returns (events: seq<Event>)
    ensures events == Events(Decode(body), typeOf)
  {
    hide Split, Join, Payloads, TrimCr, IsData, DataOf, Flushed, Events;
    var lines := Split(body);
    var dataLines: seq<string> := [];
    events := [];
    ghost var done: seq<string> := [];
    assert lines[0..] == lines;
    NoEvents(typeOf);
    for i := 0 to |lines|
      invariant events == Events(done, typeOf)
      invariant Decode(body) == done + Payloads(lines[i..], dataLines)
    {
      PayloadsStep(lines, i, dataLines);
      var line := TrimCr(lines[i]);
      if line == "" {
        events := FlushEvents(events, dataLines, typeOf, done);
        done := done + Flushed(dataLines);
        dataLines := [];
      } else if line[0] == ':' {
      } else if IsData(line) {
        dataLines := dataLines + [DataOf(line)];
      }
    }
    NoLines(lines, dataLines);
    events := FlushEvents(events, dataLines, typeOf, done);
  }

  lemma {:induction false} NoEvents(typeOf: TypeOf)
    ensures Events([], typeOf) == []
  {
  }

  lemma {:induction false} NoLines(lines: seq<string>, pending: seq<string>)
    ensures Payloads(lines[|lines|..], pending) == Flushed(pending)
  {
  }

  lemma {:induction false} PayloadsStep(lines: seq<string>, i: nat, pending: seq<string>)
    requires i < |lines|
    ensures var line := TrimCr(lines[i]);
            Payloads(lines[i..], pending)
              == if line == "" then Flushed(pending) + Payloads(lines[i + 1..], [])
                 else if line[0] == ':' then Payloads(lines[i + 1..], pending)
                 else if IsData(line) then Payloads(lines[i + 1..], pending + [DataOf(line)])
                 else Payloads(lines[i + 1..], pending)
  {
    hide TrimCr, IsData, DataOf, Flushed;
    assert lines[i..][1..] == lines[i + 1..];
  }

  method FlushEvents(events: seq<Event>, dataLines: seq<string>, typeOf: TypeOf, ghost done: seq<string>)
    returns (r: seq<Event>)
    requires events == Events(done, typeOf)
    ensures r == Events(done + Flushed(dataLines), typeOf)
  {
    if |dataLines| == 0 {
      assert done + [] == done;
      return events;
    }
    var data := Join(dataLines);
    return events + [Event(typeOf(data), data)];
  }

  // ----- lines and joining -----

  lemma {:induction false} SplitAppend(a: string, b: string)
    ensures Split(a + "\n" + b) == Split(a) + Split(b)
    decreases |a|
  {
    if a == "" {
      assert (a + "\n" + b)[1..] == b;
    } else {
      SplitAppend(a[1..], b);
      assert (a + "\n" + b)[1..] == a[1..] + "\n" + b;
      Prepend(a[0], Split(a[1..]), Split(b));
    }
  }

  /** How the first line changes when a character is put before it. */
  lemma {:induction false} Prepend(c: char, a: seq<string>, b: seq<string>)
    requires a != []
    ensures [[c] + (a + b)[0]] + (a + b)[1..] == ([[c] + a[0]] + a[1..]) + b
    ensures [""] + (a + b) == ([""] + a) + b
  {
    assert (a + b)[1..] == a[1..] + b;
  }

  lemma {:induction false} SplitOne(s: string)
    requires '\n' !in s
    ensures Split(s) == [s]
    decreases |s|
  {
    if s != "" {
      assert s[0] in s;
      SplitOne(s[1..]);
      assert [s[0]] + s[1..] == s;
    }
  }

  lemma {:induction false} SplitLines(s: string)
    ensures forall line | line in Split(s) :: '\n' !in line
    decreases |s|
  {
    if s != "" { SplitLines(s[1..]); }
  }

  lemma {:induction false} JoinSplit(s: string)
    ensures Join(Split(s)) == s
    decreases |s|
  {
    if s != "" {
      JoinSplit(s[1..]);
      var rest := Split(s[1..]);
      assert Split(s)[1..] == (if s[0] == '\n' then rest else rest[1..]);
    }
  }

  lemma {:induction false} SplitJoin(lines: seq<string>)
    requires lines != [] && forall line | line in lines :: '\n' !in line
    ensures Split(Join(lines)) == lines
    decreases |lines|
  {
    assert lines[0] in lines;
    SplitOne(lines[0]);
    if |lines| > 1 {
      SplitJoin(lines[1..]);
      SplitAppend(lines[0], Join(lines[1..]));
    }
  }

  // ----- decoding distributes at blank lines -----

  lemma {:induction false} PayloadsAppend(a: seq<string>, b: seq<string>, pending: seq<string>)
    requires a != [] && TrimCr(a[|a| - 1]) == ""
    ensures Payloads(a + b, pending) == Payloads(a, pending) + Payloads(b, [])
    decreases |a|
  {
    hide IsData;
    assert (a + b)[1..] == a[1..] + b;
    var line := TrimCr(a[0]);
    if |a| == 1 {
      assert a[1..] == [] && a[1..] + b == b;
    } else {
      PayloadsAppend(a[1..], b, if line == "" then [] else if line[0] == ':' || !IsData(line) then pending
        else pending + [DataOf(line)]);
    }
  }

  /** Where a body ends in a blank line, what follows is decoded by itself. */
  lemma {:induction false} DecodeAppend(a: string, b: string)
    requires TrimCr(Split(a)[|Split(a)| - 1]) == ""
    ensures Decode(a + "\n" + b) == Decode(a) + Decode(b)
  {
    SplitAppend(a, b);
    PayloadsAppend(Split(a), Split(b), []);
  }

  // ----- framing -----

  function DataLines(lines: seq<string>): seq<string> {
    seq(|lines|, i requires 0 <= i < |lines| => DATA + " " + lines[i])
  }

  /** One event as it is written: its name, one data line per line of the payload, and a blank line. */
  function FrameLines(name: string, payload: string): seq<string> {
    ["event: " + name] + DataLines(Split(payload)) + [""]
  }

  function Frame(name: string, payload: string): string {
    Join(FrameLines(name, payload)) + "\n"
  }

  /** The program's own writer puts a payload on one data line, which is this framing for payloads of one
      line, such as its JSON. */
  lemma {:induction false} WrittenOnOneLine(name: string, payload: string)
    requires '\n' !in payload
    ensures Frame(name, payload) == "event: " + name + "\n" + "data: " + payload + "\n" + "\n"
  {
    SplitOne(payload);
    hide Split;
    var lines := ["event: " + name, DATA + " " + payload, ""];
    assert DataLines([payload]) == [DATA + " " + payload];
    assert FrameLines(name, payload) == lines;
    var data := DATA + " " + payload;
    assert lines[1..] == [data, ""] && [data, ""][1..] == [""];
    assert Join([""]) == "" && Join([data, ""]) == data + "\n" + "";
    assert Join(lines) == "event: " + name + "\n" + (data + "\n" + "");
    assert DATA + " " == "data: ";
    assert data == "data: " + payload;
  }

  datatype Sent = Sent(name: string, payload: string)

  function Stream(events: seq<Sent>): string {
    if events == [] then "" else Frame(events[0].name, events[0].payload) + Stream(events[1..])
  }

  /** What a payload becomes: each of its lines loses one trailing carriage return. */
  function Unframed(payload: string): string {
    Join(Trimmed(Split(payload)))
  }

  function Trimmed(lines: seq<string>): seq<string> {
    seq(|lines|, i requires 0 <= i < |lines| => TrimCr(lines[i]))
  }

  predicate NoCrLines(payload: string) {
    forall line | line in Split(payload) :: TrimCr(line) == line
  }

  lemma {:induction false} DataLine(line: string)
    ensures var framed := TrimCr(DATA + " " + line);
            framed != "" && framed[0] != ':' && IsData(framed) && DataOf(framed) == TrimCr(line)
  {
    var framed := DATA + " " + line;
    assert |DATA| == 5 && DATA[0] == 'd';
    assert framed[|framed| - 1] == if line == "" then ' ' else line[|line| - 1];
    assert TrimCr(framed) == DATA + " " + TrimCr(line);
    assert (DATA + " " + TrimCr(line))[|DATA|..] == " " + TrimCr(line);
  }

  lemma {:induction false} NextData(lines: seq<string>, pending: seq<string>)
    requires lines != [] && TrimCr(lines[0]) != "" && TrimCr(lines[0])[0] != ':' && IsData(TrimCr(lines[0]))
    ensures Payloads(lines, pending) == Payloads(lines[1..], pending + [DataOf(TrimCr(lines[0]))])
  {
  }

  lemma {:induction false} DataPayloads(lines: seq<string>, pending: seq<string>, rest: seq<string>)
    ensures Payloads(DataLines(lines) + rest, pending) == Payloads(rest, pending + Trimmed(lines))
    decreases |lines|
  {
    hide Payloads, TrimCr, IsData, DataOf;
    if lines == [] {
      assert DataLines(lines) + rest == rest && pending + Trimmed(lines) == pending;
    } else {
      DataLine(lines[0]);
      DataPayloads(lines[1..], pending + [TrimCr(lines[0])], rest);
      var all := DataLines(lines) + rest;
      assert all[1..] == DataLines(lines[1..]) + rest;
      assert all[0] == DATA + " " + lines[0];
      NextData(all, pending);
      assert pending + [TrimCr(lines[0])] + Trimmed(lines[1..]) == pending + Trimmed(lines);
    }
  }

  lemma {:induction false} NameLine(name: string)
    ensures var line := TrimCr("event: " + name); line != "" && line[0] == 'e' && !IsData(line)
  {
    var line := "event: " + name;
    assert line[0] == 'e' && |line| >= 7 && DATA[0] == 'd';
    assert TrimCr(line)[0] == 'e';
  }

  lemma {:induction false} FramePayloads(name: string, payload: string, rest: seq<string>)
    ensures Payloads(FrameLines(name, payload) + rest, []) == [Unframed(payload)] + Payloads(rest, [])
  {
    NameLine(name);
    hide IsData, Split;
    var lines := Split(payload);
    var after := DataLines(lines) + ([""] + rest);
    assert FrameLines(name, payload) + rest == ["event: " + name] + after;
    assert (["event: " + name] + after)[1..] == after;
    DataPayloads(lines, [], [""] + rest);
    assert [] + Trimmed(lines) == Trimmed(lines);
    assert TrimCr("") == "" && ([""] + rest)[1..] == rest;
  }

  lemma {:induction false} FrameSplit(name: string, payload: string, rest: string)
    requires '\n' !in name
    ensures Split(Frame(name, payload) + rest) == FrameLines(name, payload) + Split(rest)
  {
    var lines := FrameLines(name, payload);
    SplitLines(payload);
    assert '\n' !in DATA && '\n' !in "event: ";
    forall line | line in lines ensures '\n' !in line {
    }
    hide Split, FrameLines;
    SplitJoin(lines);
    SplitAppend(Join(lines), rest);
    assert Frame(name, payload) + rest == Join(lines) + "\n" + rest;
  }

  function Contents(events: seq<Sent>): seq<string> {
    seq(|events|, i requires 0 <= i < |events| => Unframed(events[i].payload))
  }

  /** Decoding a written stream gives the payloads back in order, each without the carriage returns
      at the ends of its lines. */
  lemma {:induction false} DecodeStream(events: seq<Sent>)
    requires forall e | e in events :: '\n' !in e.name
    ensures Decode(Stream(events)) == Contents(events)
    decreases |events|
  {
    hide FrameLines, Frame, Unframed;
    if events == [] {
      assert Split("") == [""] && [""][1..] == [];
    } else {
      var e := events[0];
      assert e in events;
      DecodeStream(events[1..]);
      FrameSplit(e.name, e.payload, Stream(events[1..]));
      FramePayloads(e.name, e.payload, Split(Stream(events[1..])));
    }
  }

  lemma {:induction false} UnframedSame(payload: string)
    ensures Unframed(payload) == payload <==> NoCrLines(payload)
  {
    var lines := Split(payload);
    JoinSplit(payload);
    SplitLines(payload);
    if NoCrLines(payload) {
      assert forall i | 0 <= i < |lines| :: lines[i] in lines;
      assert Trimmed(lines) == lines;
    } else {
      TrimmedLines(lines);
      hide Split;
      SplitJoin(Trimmed(lines));
      var line :| line in lines && TrimCr(line) != line;
      var i :| 0 <= i < |lines| && lines[i] == line;
      assert Trimmed(lines)[i] != lines[i];
    }
  }

  lemma {:induction false} TrimmedLines(lines: seq<string>)
    requires forall line | line in lines :: '\n' !in line
    ensures forall line | line in Trimmed(lines) :: '\n' !in line
  {
    forall i | 0 <= i < |lines| ensures '\n' !in TrimCr(lines[i]) {
      assert lines[i] in lines;
    }
  }

  /** The round trip is exact exactly when no line of a payload ends in a carriage return. */
  lemma {:induction false} RoundTrip(events: seq<Sent>)
    requires forall e | e in events :: '\n' !in e.name
    ensures Decode(Stream(events)) == seq(|events|, i requires 0 <= i < |events| => events[i].payload)
      <==> forall e | e in events :: NoCrLines(e.payload)
  {
    DecodeStream(events);
    hide Unframed, NoCrLines, Decode, Stream;
    var payloads := seq(|events|, i requires 0 <= i < |events| => events[i].payload);
    forall e | e in events ensures Unframed(e.payload) == e.payload <==> NoCrLines(e.payload) {
      UnframedSame(e.payload);
    }
    if Contents(events) == payloads {
      forall e | e in events ensures NoCrLines(e.payload) {
        var i :| 0 <= i < |events| && events[i] == e;
        assert Contents(events)[i] == payloads[i];
      }
    } else {
      var i :| 0 <= i < |events| && Contents(events)[i] != payloads[i];
      assert events[i] in events;
    }
  }
}

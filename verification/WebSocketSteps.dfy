/** What every input makes a session do, told by its log alone: which frame it writes, what it delivers,
    and when it dies. */
module WebSocketSteps {
  import opened Json
  import opened WebSocketSession

  // ----- read off the log -----

  /** How many frames have been written. */
  function Frames(log: seq<Entry>): nat {
    if log == [] then 0 else Frames(log[..|log| - 1]) + if log[|log| - 1].Frame? then 1 else 0
  }

  predicate Dead(log: seq<Entry>) {
    Died in log
  }

  /** The command being answered: the last one written, unless it has been delivered a terminal event. */
  function Current(log: seq<Entry>): Option<nat> {
    if log == [] then None
    else match log[|log| - 1]
      case Frame(i, _) => Some(i)
      case Deliver(_, r) => if Finishes(r) then None else Current(log[..|log| - 1])
      case _ => Current(log[..|log| - 1])
  }

  predicate Finishes(r: Delivered) {
    r.Event?
    && r.event.name in {Lit("response.completed"), Lit("response.failed"), Lit("response.cancelled"), Lit("error")}
  }

  // ----- what an input does -----

  /** What reading an item gives the consumer of the current command. */
  function Gives(parse: Parser, item: Item): Option<Delivered> {
    match item
    case TextItem(text) => Some(FromText(parse, text))
    case BinaryItem(decoded) => if decoded.Some? then Some(FromText(parse, decoded.value)) else Some(Failure)
    case Ping(_) => None
    case Pong => None
    case Close => None
    case ReadFailed => None
    case EndOfStream => None
  }

  /** An event named by its `type`, carrying the whole text; what is not JSON is a failure. */
  function FromText(parse: Parser, text: Text): Delivered {
    var v := Decode(parse, text);
    if v.None? then Failure
    else if v.value.Obj? && "type" in v.value.fields && v.value.fields["type"].Str? then
      Event(BackendEvent(v.value.fields["type"].s, text))
    else Event(BackendEvent(Lit("message"), text))
  }

  /** The socket is lost: closed, unreadable, ended, or a ping could not be answered. */
  predicate Lost(item: Item) {
    item == Close || item == ReadFailed || item == EndOfStream || item == Ping(false)
  }

  /** When a living session dies. */
  predicate Kills(parse: Parser, log: seq<Entry>, queued: seq<Json>, input: Input) {
    var busy, waiting := Current(log).Some?, Frames(log) < |queued|;
    match input
    case Enqueue(_) => false
    case Take(sent, _) => !busy && waiting && !sent
    case SendersGone => !busy && !waiting
    case Tick(pinged) => !busy && !pinged
    case Incoming(item, heard) => Lost(item) || (busy && Gives(parse, item).Some? && !heard)
  }

  /** What a living session adds to its log. A command that dies with its session is told so, if it listens. */
  function Adds(parse: Parser, log: seq<Entry>, queued: seq<Json>, input: Input): seq<Entry> {
    var current, next := Current(log), Frames(log);
    match input
    case Take(sent, heard) =>
      if current.Some? || next >= |queued| then []
      else if sent then [Frame(next, queued[next])]
      else if heard then [Died, Deliver(next, Failure)] else [Died]
    case Incoming(item, heard) =>
      [Read(item)]
      + (if current.None? then if Lost(item) then [Died] else []
         else if Gives(parse, item).Some? then
           if heard then [Deliver(current.value, Gives(parse, item).value)] else [Died]
         else if !Lost(item) then []
         else if heard then [Died, Deliver(current.value, Failure)] else [Died])
    case _ => if Kills(parse, log, queued, input) then [Died] else []
  }

  // ----- the log says what the session holds -----

  lemma {:induction false} GivesRead(parse: Parser, item: Item)
    ensures Gives(parse, item) == Forwarded(parse, item)
  {
  }

  lemma {:induction false} FinishesRead(r: Delivered)
    ensures Finishes(r) <==> Ends(r)
  {
  }

  lemma {:induction false} WatchRead(parse: Parser, log: seq<Entry>)
    requires AcceptAll(parse, log).Some?
    ensures var w := AcceptAll(parse, log).value;
            && w.frames == Frames(log) && (w.dead <==> Dead(log)) && (!w.dead ==> w.current == Current(log))
    decreases |log|
  {
    hide Forwarded, Ends, Finishes;
    if log != [] {
      var before, e := log[..|log| - 1], log[|log| - 1];
      WatchRead(parse, before);
      assert log == before + [e];
      if e.Deliver? { FinishesRead(e.result); }
    }
  }

  lemma {:induction false} SessionRead(parse: Parser, s: Session)
    requires Follows(parse, s)
    ensures s.alive <==> !Dead(s.log)
    ensures s.phase.Stopped? <==> Dead(s.log)
    ensures s.alive ==> s.taken == Frames(s.log) && (s.phase.Forwarding? <==> Current(s.log).Some?)
    ensures s.phase.Forwarding? ==> s.taken > 0 && Current(s.log) == Some(s.taken - 1)
    ensures s.taken <= |s.queued|
  {
    WatchRead(parse, s.log);
    hide AcceptAll, Frames, Current, Dead;
  }

  lemma {:induction false} IdleAdds(parse: Parser, s: Session, item: Item)
    requires Follows(parse, s) && s.phase.Idle?
    ensures var t := HandleIdle(s, item);
            && t.log == s.log + [Read(item)] + (if Lost(item) then [Died] else [])
            && (t.alive <==> !Lost(item)) && t.queued == s.queued
  {
    SessionRead(parse, s);
    hide Follows;
    assert s.log + [Read(item), Died] == s.log + [Read(item)] + [Died];
    assert s.log + [Read(item)] + [] == s.log + [Read(item)];
  }

  lemma {:induction false} BusyAdds(parse: Parser, s: Session, item: Item, heard: bool)
    requires Follows(parse, s) && s.phase.Forwarding?
    ensures var t := Forward(parse, s, item, heard);
            && t.log == s.log + Adds(parse, s.log, s.queued, Incoming(item, heard))
            && (t.alive <==> !Kills(parse, s.log, s.queued, Incoming(item, heard))) && t.queued == s.queued
  {
    SessionRead(parse, s);
    GivesRead(parse, item);
    hide Follows, Forwarded, Gives, Ends, Frames, Current;
    var i := s.taken - 1;
    assert [Read(item)] + [Died] == [Read(item), Died];
    assert [Read(item)] + [Died, Deliver(i, Failure)] == [Read(item), Died] + [Deliver(i, Failure)];
    assert [Read(item), Died] + [] == [Read(item), Died] && [Read(item)] + [] == [Read(item)];
    if Gives(parse, item).Some? {
      var r := Gives(parse, item).value;
      assert [Read(item)] + [Deliver(i, r)] == [Read(item), Deliver(i, r)];
      GivenIsRead(parse, item);
    }
  }

  lemma {:induction false} GivenIsRead(parse: Parser, item: Item)
    ensures Gives(parse, item).Some? ==> !Lost(item)
  {
  }

  /** What a living session makes of an input. */
  ghost predicate Does(parse: Parser, s: Session, input: Input, t: Session) {
    && t.log == s.log + Adds(parse, s.log, s.queued, input)
    && (t.alive <==> !Kills(parse, s.log, s.queued, input))
    && t.queued == s.queued + if input.Enqueue? then [input.body] else []
  }

  lemma {:induction false} IncomingDoes(parse: Parser, s: Session, item: Item, heard: bool)
    requires Follows(parse, s) && s.alive
    ensures Does(parse, s, Incoming(item, heard), Step(parse, s, Incoming(item, heard)))
  {
    SessionRead(parse, s);
    assert s.queued + [] == s.queued;
    if s.phase.Idle? {
      IdleAdds(parse, s, item);
      var more := if Lost(item) then [Died] else [];
      assert s.log + [Read(item)] + more == s.log + ([Read(item)] + more);
    } else {
      BusyAdds(parse, s, item, heard);
    }
    hide Forward, HandleIdle, Follows, Frames, Current, Gives;
  }

  lemma {:induction false} TakeDoes(parse: Parser, s: Session, sent: bool, heard: bool)
    requires Follows(parse, s) && s.alive
    ensures Does(parse, s, Take(sent, heard), Step(parse, s, Take(sent, heard)))
  {
    SessionRead(parse, s);
    hide Follows, Frames, Current, Gives;
    assert s.log + [] == s.log && s.queued + [] == s.queued;
    assert [Died] + [] == [Died] && [Died] + [Deliver(s.taken, Failure)] == [Died, Deliver(s.taken, Failure)];
  }

  lemma {:induction false} OthersDo(parse: Parser, s: Session, input: Input)
    requires Follows(parse, s) && s.alive && !input.Take? && !input.Incoming?
    ensures Does(parse, s, input, Step(parse, s, input))
  {
    SessionRead(parse, s);
    hide Follows, Frames, Current, Gives;
    assert s.log + [] == s.log && s.queued + [] == s.queued;
  }

  lemma {:induction false} DeadDoesNothing(parse: Parser, s: Session, input: Input)
    requires Follows(parse, s) && !s.alive
    ensures Step(parse, s, input).log == s.log
  {
    SessionRead(parse, s);
  }

  /** For every run and input: a living session adds to its log exactly what the log so far, what has been queued
      and the input say, and dies exactly then; a dead one adds nothing. */
  lemma {:induction false} StepExactly(parse: Parser, inputs: seq<Input>, input: Input)
    ensures var s, t := Run(parse, inputs), Run(parse, inputs + [input]);
            && (Dead(s.log) ==> t.log == s.log)
            && (!Dead(s.log) ==>
                 && t.log == s.log + Adds(parse, s.log, s.queued, input)
                 && (Dead(t.log) <==> Kills(parse, s.log, s.queued, input))
                 && t.queued == s.queued + if input.Enqueue? then [input.body] else [])
  {
    hide Follows, Step, Dead, Adds, Kills;
    var s, t := Run(parse, inputs), Run(parse, inputs + [input]);
    assert (inputs + [input])[..|inputs|] == inputs;
    assert t == Step(parse, s, input);
    RunFollows(parse, inputs);
    RunFollows(parse, inputs + [input]);
    hide Run;
    SessionRead(parse, s);
    SessionRead(parse, t);
    if !s.alive {
      DeadDoesNothing(parse, s, input);
    } else if input.Incoming? {
      IncomingDoes(parse, s, input.item, input.heard);
    } else if input.Take? {
      TakeDoes(parse, s, input.sent, input.heard);
    } else {
      OthersDo(parse, s, input);
    }
  }

  /** A session that is alive and not answering writes the next queued command when it takes it. */
  lemma {:induction false} NextIsWritten(parse: Parser, inputs: seq<Input>, heard: bool)
    requires var s := Run(parse, inputs); !Dead(s.log) && Current(s.log).None? && Frames(s.log) < |s.queued|
    ensures var s := Run(parse, inputs);
            Run(parse, inputs + [Take(true, heard)]).log == s.log + [Frame(Frames(s.log), s.queued[Frames(s.log)])]
  {
    StepExactly(parse, inputs, Take(true, heard));
  }

  /** What is read for a command that listens is delivered to it. */
  lemma {:induction false} ReadIsDelivered(parse: Parser, inputs: seq<Input>, item: Item)
    requires var s := Run(parse, inputs); !Dead(s.log) && Current(s.log).Some?
    requires Gives(parse, item).Some?
    ensures var s := Run(parse, inputs);
            Run(parse, inputs + [Incoming(item, true)]).log
              == s.log + [Read(item), Deliver(Current(s.log).value, Gives(parse, item).value)]
  {
    StepExactly(parse, inputs, Incoming(item, true));
    hide Run, Gives, Current, Frames;
    var s := Run(parse, inputs);
    assert [Read(item)] + [Deliver(Current(s.log).value, Gives(parse, item).value)]
      == [Read(item), Deliver(Current(s.log).value, Gives(parse, item).value)];
  }
}

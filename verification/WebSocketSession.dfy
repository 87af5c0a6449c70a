/** One backend WebSocket session: a loop that takes queued commands one at a time, writes each as a
    frame and forwards what it reads until the response ends. Its steps are recorded in a log. */
module WebSocketSession {
  import opened Json

  datatype BackendEvent = BackendEvent(name: Text, data: Text)

  /** What reading the socket gives. A ping carries whether the pong it asks for could be sent. */
  datatype Item =
    | TextItem(text: Text)
    | BinaryItem(decoded: Option<Text>)
    | Ping(answered: bool)
    | Pong
    | Close
    | ReadFailed
    | EndOfStream

  datatype Delivered = Event(event: BackendEvent) | Failure

  datatype Entry =
    | Frame(i: nat, body: Json)
    | Read(item: Item)
    | Deliver(i: nat, result: Delivered)
    | Died

  datatype Phase = Idle | Forwarding | Stopped

  /** `queued` is every command ever queued; the first `taken` of them have been taken. */
  datatype Session = Session(alive: bool, phase: Phase, queued: seq<Json>, taken: nat, log: seq<Entry>)

  const FRESH := Session(true, Idle, [], 0, [])

  /** What the outside decides in a step. `heard` says whether the command's consumer still listens. */
  datatype Input =
    | Enqueue(body: Json)
    | Take(sent: bool, heard: bool)
    | SendersGone
    | Tick(pinged: bool)
    | Incoming(item: Item, heard: bool)

  // ----- events -----

  /** websocket_text_to_backend_event */
  function EventOf(parse: Parser, text: Text): Delivered {
    match Decode(parse, text)
    case None => Failure
    case Some(v) =>
      Event(BackendEvent(if v.Obj? && StringAt(v.fields, "type").Some? then StringAt(v.fields, "type").value
        else Lit("message"), text))
  }

  predicate IsTerminal(name: Text) {
    || name == Lit("response.completed") || name == Lit("response.failed")
    || name == Lit("response.cancelled") || name == Lit("error")
  }

  predicate Ends(r: Delivered) {
    r.Event? && IsTerminal(r.event.name)
  }

  /** What an item becomes for the consumer; None where nothing is forwarded. */
  function Forwarded(parse: Parser, item: Item): Option<Delivered> {
    match item
    case TextItem(text) => Some(EventOf(parse, text))
    case BinaryItem(Some(text)) => Some(EventOf(parse, text))
    case BinaryItem(None) => Some(Failure)
    case _ => None
  }

  // ----- steps -----

  function Die(s: Session, entries: seq<Entry>): Session {
    s.(alive := false, phase := Stopped, log := s.log + entries)
  }

  function Told(i: nat, heard: bool): seq<Entry> {
    if heard then [Deliver(i, Failure)] else []
  }

  function SendFrame(s: Session): Session
    requires s.taken < |s.queued|
  {
    s.(phase := Forwarding, taken := s.taken + 1, log := s.log + [Frame(s.taken, s.queued[s.taken])])
  }

  function Step(parse: Parser, s: Session, input: Input): Session {
    match input
    case Enqueue(body) => if s.phase.Stopped? then s else s.(queued := s.queued + [body])
    case Take(sent, heard) =>
      if !s.phase.Idle? || s.taken >= |s.queued| then s
      else if sent then SendFrame(s)
      else Die(s, [Died] + Told(s.taken, heard)).(taken := s.taken + 1)
    case SendersGone => if s.phase.Idle? && s.taken >= |s.queued| then Die(s, [Died]) else s
    case Tick(pinged) => if s.phase.Idle? && !pinged then Die(s, [Died]) else s
    case Incoming(item, heard) =>
      if s.phase.Stopped? then s
      else if s.phase.Idle? then HandleIdle(s, item)
      else Forward(parse, s, item, heard)
  }

  function HandleIdle(s: Session, item: Item): Session {
    match item
    case Close => Die(s, [Read(item), Died])
    case ReadFailed => Die(s, [Read(item), Died])
    case EndOfStream => Die(s, [Read(item), Died])
    case Ping(answered) => if answered then s.(log := s.log + [Read(item)]) else Die(s, [Read(item), Died])
    case _ => s.(log := s.log + [Read(item)])
  }

  function Forward(parse: Parser, s: Session, item: Item, heard: bool): Session {
    var i: nat := if s.taken > 0 then s.taken - 1 else 0;
    match Forwarded(parse, item)
    case Some(r) =>
      if !heard then Die(s, [Read(item), Died])
      else s.(phase := if Ends(r) then Idle else Forwarding, log := s.log + [Read(item), Deliver(i, r)])
    case None =>
      if item.Pong? || (item.Ping? && item.answered) then s.(log := s.log + [Read(item)])
      else Die(s, [Read(item), Died] + Told(i, heard))
  }

  function Run(parse: Parser, inputs: seq<Input>): Session {
    if inputs == [] then FRESH else Step(parse, Run(parse, inputs[..|inputs| - 1]), inputs[|inputs| - 1])
  }

  // ----- the protocol, as an acceptor of logs -----

  /** Frames so far, the command being answered, whether the session died, and the last item if it
      was just read. */
  datatype Watch = Watch(frames: nat, current: Option<nat>, dead: bool, justRead: Option<Item>)

  function Accept(parse: Parser, w: Watch, e: Entry): Option<Watch> {
    match e
    case Frame(i, _) => if !w.dead && w.current.None? && i == w.frames
      then Some(Watch(w.frames + 1, Some(i), false, None)) else None
    case Read(item) => if !w.dead then Some(w.(justRead := Some(item))) else None
    case Died => if !w.dead then Some(w.(dead := true, justRead := None)) else None
    case Deliver(i, r) =>
      if w.dead then if r.Failure? then Some(w.(justRead := None)) else None
      else if w.current == Some(i) && w.justRead.Some? && Forwarded(parse, w.justRead.value) == Some(r)
      then Some(w.(current := if Ends(r) then None else w.current, justRead := None))
      else None
  }

  function AcceptAll(parse: Parser, log: seq<Entry>): Option<Watch> {
    if log == [] then Some(Watch(0, None, false, None))
    else match AcceptAll(parse, log[..|log| - 1])
      case None => None
      case Some(w) => Accept(parse, w, log[|log| - 1])
  }

  lemma {:induction false} AcceptSnoc(parse: Parser, log: seq<Entry>, e: Entry, w: Watch)
    requires AcceptAll(parse, log) == Some(w)
    ensures AcceptAll(parse, log + [e]) == Accept(parse, w, e)
  {
    assert (log + [e])[..|log|] == log;
  }

  lemma {:induction false} AcceptTwo(parse: Parser, log: seq<Entry>, a: Entry, b: Entry, w: Watch)
    requires AcceptAll(parse, log) == Some(w) && Accept(parse, w, a).Some?
    ensures AcceptAll(parse, log + [a, b]) == Accept(parse, Accept(parse, w, a).value, b)
  {
    hide AcceptAll, Forwarded;
    AcceptSnoc(parse, log, a, w);
    AcceptSnoc(parse, log + [a], b, Accept(parse, w, a).value);
    assert log + [a] + [b] == log + [a, b];
  }

  /** The acceptor and the session agree. */
  ghost predicate Follows(parse: Parser, s: Session) {
    var w := AcceptAll(parse, s.log);
    && w.Some?
    && s.taken <= |s.queued|
    && (w.value.dead <==> !s.alive) && (s.phase.Stopped? <==> !s.alive)
    && (s.alive ==> w.value.frames == s.taken)
    && (s.phase.Idle? ==> w.value.current == None)
    && (s.phase.Forwarding? ==> s.taken > 0 && w.value.current == Some(s.taken - 1))
    && FramesQueued(s.log, s.queued)
  }

  predicate FramesQueued(log: seq<Entry>, queued: seq<Json>) {
    forall k | 0 <= k < |log| && log[k].Frame? :: log[k].i < |queued| && log[k].body == queued[log[k].i]
  }

  lemma {:induction false} DieFollows(parse: Parser, s: Session, entries: seq<Entry>, w: Watch)
    requires Follows(parse, s) && s.alive && AcceptAll(parse, s.log + entries) == Some(w) && w.dead
    requires forall k | 0 <= k < |entries| :: !entries[k].Frame?
    ensures Follows(parse, Die(s, entries))
  {
    hide AcceptAll, Forwarded;
  }

  /** A death, and the failure the consumer may be told. */
  lemma {:induction false} DeathAccepted(parse: Parser, log: seq<Entry>, w: Watch, i: nat, heard: bool)
    requires AcceptAll(parse, log) == Some(w) && !w.dead
    ensures AcceptAll(parse, log + ([Died] + Told(i, heard))) == Some(w.(dead := true, justRead := None))
  {
    hide AcceptAll, Forwarded;
    AcceptSnoc(parse, log, Died, w);
    if heard {
      AcceptSnoc(parse, log + [Died], Deliver(i, Failure), w.(dead := true, justRead := None));
      assert log + [Died] + [Deliver(i, Failure)] == log + ([Died] + Told(i, heard));
    } else {
      assert [Died] + [] == [Died];
    }
  }

  lemma {:induction false} ReadDeathAccepted(parse: Parser, log: seq<Entry>, w: Watch, item: Item, i: nat, heard: bool)
    requires AcceptAll(parse, log) == Some(w) && !w.dead
    ensures AcceptAll(parse, log + ([Read(item), Died] + Told(i, heard))) == Some(w.(dead := true, justRead := None))
  {
    hide AcceptAll, Forwarded;
    AcceptSnoc(parse, log, Read(item), w);
    DeathAccepted(parse, log + [Read(item)], w.(justRead := Some(item)), i, heard);
    assert log + [Read(item)] + ([Died] + Told(i, heard)) == log + ([Read(item), Died] + Told(i, heard));
  }

  lemma {:induction false} SentFollows(parse: Parser, s: Session)
    requires Follows(parse, s) && s.phase.Idle? && s.taken < |s.queued|
    ensures Follows(parse, SendFrame(s))
  {
    hide AcceptAll, Forwarded;
    var e := Frame(s.taken, s.queued[s.taken]);
    AcceptSnoc(parse, s.log, e, AcceptAll(parse, s.log).value);
    assert FramesQueued(s.log + [e], s.queued);
    hide FramesQueued;
  }

  lemma {:induction false} TakeFollows(parse: Parser, s: Session, sent: bool, heard: bool)
    requires Follows(parse, s)
    ensures Follows(parse, Step(parse, s, Take(sent, heard)))
  {
    hide AcceptAll, Forwarded;
    var w := AcceptAll(parse, s.log).value;
    if s.phase.Idle? && s.taken < |s.queued| {
      if sent {
        SentFollows(parse, s);
      } else {
        DeathAccepted(parse, s.log, w, s.taken, heard);
        DieFollows(parse, s, [Died] + Told(s.taken, heard), w.(dead := true, justRead := None));
      }
    }
  }

  lemma {:induction false} IdleFollows(parse: Parser, s: Session, item: Item)
    requires Follows(parse, s) && s.phase.Idle?
    ensures Follows(parse, HandleIdle(s, item))
  {
    hide AcceptAll;
    var w := AcceptAll(parse, s.log).value;
    AcceptSnoc(parse, s.log, Read(item), w);
    ReadDeathAccepted(parse, s.log, w, item, 0, false);
    assert [Read(item), Died] + Told(0, false) == [Read(item), Died];
    DieFollows(parse, s, [Read(item), Died], w.(dead := true, justRead := None));
  }

  lemma {:induction false} ForwardFollows(parse: Parser, s: Session, item: Item, heard: bool)
    requires Follows(parse, s) && s.phase.Forwarding?
    ensures Follows(parse, Forward(parse, s, item, heard))
  {
    hide AcceptAll, Forwarded, Ends;
    var w := AcceptAll(parse, s.log).value;
    var r := Forwarded(parse, item);
    var i := s.taken - 1;
    if r.Some? && heard {
      AcceptTwo(parse, s.log, Read(item), Deliver(i, r.value), w);
    } else if r.Some? {
      ReadDeathAccepted(parse, s.log, w, item, i, false);
      assert [Read(item), Died] + Told(i, false) == [Read(item), Died];
      DieFollows(parse, s, [Read(item), Died], w.(dead := true, justRead := None));
    } else if item.Pong? || (item.Ping? && item.answered) {
      AcceptSnoc(parse, s.log, Read(item), w);
    } else {
      ReadDeathAccepted(parse, s.log, w, item, i, heard);
      DieFollows(parse, s, [Read(item), Died] + Told(i, heard), w.(dead := true, justRead := None));
    }
  }

  lemma {:induction false} StepFollows(parse: Parser, s: Session, input: Input)
    requires Follows(parse, s)
    ensures Follows(parse, Step(parse, s, input))
  {
    hide Forward, HandleIdle;
    match input {
      case Enqueue(body) => hide AcceptAll;
      case Take(sent, heard) => TakeFollows(parse, s, sent, heard);
      case SendersGone => Expire(parse, s);
      case Tick(_) => Expire(parse, s);
      case Incoming(item, heard) =>
        if s.phase.Idle? { IdleFollows(parse, s, item); }
        if s.phase.Forwarding? { ForwardFollows(parse, s, item, heard); }
    }
  }

  lemma {:induction false} Expire(parse: Parser, s: Session)
    requires Follows(parse, s)
    ensures s.alive ==> Follows(parse, Die(s, [Died]))
  {
    hide AcceptAll, Forwarded;
    if s.alive {
      var w := AcceptAll(parse, s.log).value;
      DeathAccepted(parse, s.log, w, 0, false);
      assert [Died] + Told(0, false) == [Died];
      DieFollows(parse, s, [Died], w.(dead := true, justRead := None));
    }
  }

  lemma {:induction false} RunFollows(parse: Parser, inputs: seq<Input>)
    ensures Follows(parse, Run(parse, inputs))
    decreases |inputs|
  {
    if inputs != [] {
      RunFollows(parse, inputs[..|inputs| - 1]);
      hide Follows, Step;
      StepFollows(parse, Run(parse, inputs[..|inputs| - 1]), inputs[|inputs| - 1]);
    }
  }

  // ----- what acceptance means -----

  lemma {:induction false} PrefixAccepted(parse: Parser, log: seq<Entry>, k: nat)
    requires AcceptAll(parse, log).Some? && k <= |log|
    ensures AcceptAll(parse, log[..k]).Some?
    decreases |log|
  {
    if k < |log| {
      PrefixAccepted(parse, log[..|log| - 1], k);
      assert log[..|log| - 1][..k] == log[..k];
    } else {
      assert log[..k] == log;
    }
  }

  /** The acceptor before entry `k`, and how it takes that entry. */
  lemma {:induction false} WatchAt(parse: Parser, log: seq<Entry>, k: nat) returns (w: Watch)
    requires AcceptAll(parse, log).Some? && k < |log|
    ensures AcceptAll(parse, log[..k]) == Some(w)
    ensures AcceptAll(parse, log[..k + 1]) == Accept(parse, w, log[k]) && Accept(parse, w, log[k]).Some?
  {
    PrefixAccepted(parse, log, k);
    PrefixAccepted(parse, log, k + 1);
    w := AcceptAll(parse, log[..k]).value;
    AcceptSnoc(parse, log[..k], log[k], w);
    assert log[..k + 1] == log[..k] + [log[k]];
  }

  predicate FrameBefore(log: seq<Entry>, i: nat, n: nat)
    requires n <= |log|
  {
    exists k :: 0 <= k < n && log[k].Frame? && log[k].i == i
  }

  /** After n entries: the frames are numbered 0, 1, 2, ..., and the counter counts them. */
  lemma {:induction false} FramesCounted(parse: Parser, log: seq<Entry>, n: nat)
    requires AcceptAll(parse, log).Some? && n <= |log|
    ensures AcceptAll(parse, log[..n]).Some?
    ensures var w := AcceptAll(parse, log[..n]).value;
            && (forall k | 0 <= k < n && log[k].Frame? :: log[k].i < w.frames)
            && (forall i | 0 <= i < w.frames :: FrameBefore(log, i, n))
            && (w.current.Some? ==> w.current.value + 1 == w.frames)
    decreases n
  {
    hide Forwarded, Ends;
    if n > 0 {
      FramesCounted(parse, log, n - 1);
      var w := WatchAt(parse, log, n - 1);
      hide AcceptAll;
      var after := Accept(parse, w, log[n - 1]).value;
      forall i | 0 <= i < after.frames ensures FrameBefore(log, i, n) {
        if i < w.frames {
          assert FrameBefore(log, i, n - 1);
        } else {
          assert log[n - 1].Frame? && log[n - 1].i == i;
        }
      }
    } else {
      assert log[..0] == [];
    }
  }

  lemma {:induction false} FramesGrow(parse: Parser, log: seq<Entry>, j: nat, k: nat)
    requires AcceptAll(parse, log).Some? && j <= k <= |log|
    ensures AcceptAll(parse, log[..j]).Some? && AcceptAll(parse, log[..k]).Some?
    ensures AcceptAll(parse, log[..j]).value.frames <= AcceptAll(parse, log[..k]).value.frames
    ensures AcceptAll(parse, log[..j]).value.dead ==> AcceptAll(parse, log[..k]).value.dead
    decreases k - j
  {
    hide Forwarded, Ends;
    PrefixAccepted(parse, log, j);
    if j < k {
      FramesGrow(parse, log, j, k - 1);
      var w := WatchAt(parse, log, k - 1);
    }
  }

  predicate TerminalBetween(log: seq<Entry>, i: nat, j: nat, k: nat)
    requires k <= |log|
  {
    exists m :: j < m < k && log[m].Deliver? && log[m].i == i && Ends(log[m].result)
  }

  /** While no further frame is written, the command stays current until its response ends. */
  lemma {:induction false} CurrentUntilTerminal(parse: Parser, log: seq<Entry>, i: nat, j: nat, n: nat)
    requires AcceptAll(parse, log).Some? && j < n <= |log| && log[j].Frame? && log[j].i == i
    requires AcceptAll(parse, log[..n]).Some? && AcceptAll(parse, log[..n]).value.frames == i + 1
    ensures AcceptAll(parse, log[..n]).value.current == Some(i) || TerminalBetween(log, i, j, n)
    decreases n
  {
    hide Forwarded, Ends;
    if n == j + 1 {
      var w := WatchAt(parse, log, j);
    } else {
      var w := WatchAt(parse, log, n - 1);
      var first := WatchAt(parse, log, j);
      FramesGrow(parse, log, j + 1, n - 1);
      assert w.frames == i + 1;
      CurrentUntilTerminal(parse, log, i, j, n - 1);
      hide AcceptAll;
      if TerminalBetween(log, i, j, n - 1) {
        var m :| j < m < n - 1 && log[m].Deliver? && log[m].i == i && Ends(log[m].result);
      } else if Accept(parse, w, log[n - 1]).value.current != Some(i) {
        assert log[n - 1].Deliver? && log[n - 1].i == i && Ends(log[n - 1].result);
      }
    }
  }

  /** Frame i+1 is written only after command i has been delivered the end of its response. */
  lemma {:induction false} NextFrameAfterTerminal(parse: Parser, inputs: seq<Input>, i: nat, j: nat, k: nat)
    requires var log := Run(parse, inputs).log;
             && j < |log| && k < |log| && log[j].Frame? && log[j].i == i && log[k].Frame? && log[k].i == i + 1
    ensures j < k && TerminalBetween(Run(parse, inputs).log, i, j, k)
  {
    RunFollows(parse, inputs);
    var log := Run(parse, inputs).log;
    hide Run, Ends;
    FramesCounted(parse, log, k);
    var wj := WatchAt(parse, log, j);
    var wk := WatchAt(parse, log, k);
    if k < j {
      FramesGrow(parse, log, k + 1, j);
    }
    CurrentUntilTerminal(parse, log, i, j, k);
  }

  lemma {:induction false} JustRead(parse: Parser, log: seq<Entry>, m: nat, w: Watch)
    requires AcceptAll(parse, log).Some? && m < |log| && AcceptAll(parse, log[..m]) == Some(w) && w.justRead.Some?
    ensures m > 0 && log[m - 1] == Read(w.justRead.value)
  {
    assert log[..0] == [];
    if m > 0 {
      var before := WatchAt(parse, log, m - 1);
    }
  }

  /** Every event handed to command i was the item read just before, after frame i and before frame i+1. */
  lemma {:induction false} EventsBetweenFrames(parse: Parser, inputs: seq<Input>, i: nat, m: nat)
    requires var log := Run(parse, inputs).log;
             m < |log| && log[m].Deliver? && log[m].i == i && log[m].result.Event?
    ensures var log := Run(parse, inputs).log;
            && FrameBefore(log, i, m)
            && (forall k | 0 <= k < m && log[k].Frame? :: log[k].i <= i)
            && m > 0 && log[m - 1].Read? && Forwarded(parse, log[m - 1].item) == Some(log[m].result)
  {
    RunFollows(parse, inputs);
    var log := Run(parse, inputs).log;
    hide Run;
    FramesCounted(parse, log, m);
    var w := WatchAt(parse, log, m);
    assert w.current == Some(i) && w.frames == i + 1;
    JustRead(parse, log, m, w);
  }

  /** Frames go out in the order their commands were queued. */
  lemma {:induction false} FramesInOrder(parse: Parser, inputs: seq<Input>, j: nat, k: nat)
    requires var log := Run(parse, inputs).log; j < k < |log| && log[j].Frame? && log[k].Frame?
    ensures var s := Run(parse, inputs);
            && s.log[j].i < s.log[k].i < |s.queued|
            && s.log[j].body == s.queued[s.log[j].i] && s.log[k].body == s.queued[s.log[k].i]
  {
    RunFollows(parse, inputs);
    var s := Run(parse, inputs);
    hide Run;
    FramesCounted(parse, s.log, k);
    var w := WatchAt(parse, s.log, k);
  }

  /** A dead session stays dead and writes no further frame. */
  lemma {:induction false} DeadForever(parse: Parser, inputs: seq<Input>, more: seq<Input>)
    requires !Run(parse, inputs).alive
    ensures var before, after := Run(parse, inputs), Run(parse, inputs + more);
            !after.alive && after.log == before.log
    decreases |more|
  {
    RunFollows(parse, inputs);
    if more == [] {
      assert inputs + more == inputs;
    } else {
      var n := |more| - 1;
      DeadForever(parse, inputs, more[..n]);
      RunFollows(parse, inputs + more[..n]);
      assert (inputs + more)[..|inputs + more| - 1] == inputs + more[..n];
    }
  }

  /** And no frame comes after the death, which is recorded once. */
  lemma {:induction false} NoFrameAfterDeath(parse: Parser, inputs: seq<Input>, j: nat, k: nat)
    requires var log := Run(parse, inputs).log; j < k < |log| && log[j].Died?
    ensures !Run(parse, inputs).alive && !Run(parse, inputs).log[k].Frame? && !Run(parse, inputs).log[k].Died?
  {
    RunFollows(parse, inputs);
    var log := Run(parse, inputs).log;
    hide Run, Forwarded, Ends;
    var w := WatchAt(parse, log, j);
    FramesGrow(parse, log, j + 1, k);
    FramesGrow(parse, log, j + 1, |log|);
    assert log[..|log|] == log;
    var wk := WatchAt(parse, log, k);
  }
}

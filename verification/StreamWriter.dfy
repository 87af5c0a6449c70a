/** The channel between the producer of a stream and the writer that owns the client's response. */
module StreamWriter {
  import opened Json

  // ----- the writer -----

  datatype Chunk = Headers | Frame(event: string) | IdleError

  /** What one wait of the writer's loop ends with. */
  datatype Select = Received(event: string, writable: bool) | ChannelClosed | ClientGone | TimedOut(writable: bool)

  /** Why the loop ended. Where it does not end with the channel closed, somebody else must drain it. */
  datatype Ending = Drained | MustDrain

  /** Whether the loop goes on after a wait. */
  predicate GoesOn(s: Select) {
    s.Received? && s.writable
  }

  function EndsAt(selects: seq<Select>): nat {
    if selects == [] || !GoesOn(selects[0]) then 0 else 1 + EndsAt(selects[1..])
  }

  function Written(selects: seq<Select>): seq<Chunk> {
    if selects == [] then []
    else match selects[0]
      case Received(event, true) => [Frame(event)] + Written(selects[1..])
      case TimedOut(true) => [IdleError]
      case _ => []
  }

  function Frames(events: seq<string>): seq<Chunk> {
    seq(|events|, i requires 0 <= i < |events| => Frame(events[i]))
  }

  function EventsOf(selects: seq<Select>): seq<string> {
    if selects == [] then []
    else (if selects[0].Received? then [selects[0].event] else []) + EventsOf(selects[1..])
  }

  /** The client is sent the frames of the first events received, then perhaps the idle error. */
  lemma {:induction false} WrittenIsPrefix(selects: seq<Select>)
    ensures var n := EndsAt(selects);
            && n <= |EventsOf(selects)| && n <= |selects|
            && Written(selects) == Frames(EventsOf(selects)[..n])
                 + if n < |selects| && selects[n].TimedOut? && selects[n].writable then [IdleError] else []
    decreases |selects|
  {
    if selects != [] && GoesOn(selects[0]) {
      WrittenIsPrefix(selects[1..]);
      var n, events := EndsAt(selects), EventsOf(selects);
      assert events[..n] == [selects[0].event] + EventsOf(selects[1..])[..n - 1];
      assert Frames(events[..n]) == [Frame(selects[0].event)] + Frames(EventsOf(selects[1..])[..n - 1]);
    }
  }

  lemma {:induction false} WaitAt(selects: seq<Select>, i: nat)
    requires i < |selects|
    ensures EndsAt(selects[i..]) == if GoesOn(selects[i]) then 1 + EndsAt(selects[i + 1..]) else 0
    ensures Written(selects[i..]) == match selects[i]
      case Received(event, true) => [Frame(event)] + Written(selects[i + 1..])
      case TimedOut(true) => [IdleError]
      case _ => []
  {
    assert selects[i..][1..] == selects[i + 1..];
  }

  class Writer {
    var headersSent: bool
    ghost var chunks: seq<Chunk>

    ghost predicate Valid()
      reads this
    {
      && (headersSent <==> chunks != [])
      && (chunks != [] ==> chunks[0] == Headers)
      && forall i | 1 <= i < |chunks| :: chunks[i] != Headers
    }

    /** What the client has seen after the headers. */
    ghost function Body(): seq<Chunk>
      reads this
    {
      if chunks == [] then [] else chunks[1..]
    }

    constructor ()
      ensures Valid() && chunks == []
    {
      headersSent, chunks := false, [];
    }

    method EnsureHeaders()
      requires Valid()
      modifies this
      ensures Valid() && headersSent && Body() == old(Body())
    {
      if headersSent {
        return;
      }
      headersSent := true;
      chunks := [Headers];
    }

    method WriteChunk(c: Chunk, writable: bool) returns (ok: bool)
      requires Valid() && c != Headers
      modifies this
      ensures Valid() && headersSent && ok == writable
      ensures Body() == old(Body()) + if writable then [c] else []
    {
      EnsureHeaders();
      if writable {
        chunks := chunks + [c];
      }
      ok := writable;
    }

    /** The receive-and-write loop, over what its waits end with. */
    method Run(selects: seq<Select>) returns (ending: Ending)
      requires Valid() && chunks == []
      requires EndsAt(selects) < |selects|
      modifies this
      ensures Valid()
      ensures Body() == Written(selects)
      ensures ending == Drained <==> selects[EndsAt(selects)].ChannelClosed?
    {
      hide Written, EndsAt, Valid;
      var i := 0;
      assert selects[0..] == selects;
      while true
        invariant 0 <= i <= EndsAt(selects) && Valid()
        invariant EndsAt(selects) == i + EndsAt(selects[i..])
        invariant Written(selects) == Body() + Written(selects[i..])
        decreases |selects| - i
      {
        WaitAt(selects, i);
        match selects[i] {
          case ChannelClosed =>
            return Drained;
          case Received(event, writable) =>
            var ok := WriteChunk(Frame(event), writable);
            if !ok {
              return MustDrain;
            }
            i := i + 1;
          case ClientGone =>
            return MustDrain;
          case TimedOut(writable) =>
            var _ := WriteChunk(IdleError, writable);
            return MustDrain;
        }
      }
    }
  }

  // ----- producer, writer and drain, interleaved -----

  datatype Producer = Working | Offering(event: string) | Finishing | Finished
  datatype Consumer = Waiting | Writing(event: string) | WritingIdle | Returned
  datatype Drain = NotStarted | Draining | DrainDone

  /** `sent` is what has passed through the channel, `seen` what the client has been sent. */
  datatype State = State(
    producer: Producer,
    consumer: Consumer,
    drain: Drain,
    closes: nat,
    sentAtClose: nat,
    sent: seq<string>,
    seen: seq<Chunk>)

  const FRESH := State(Working, Waiting, NotStarted, 0, 0, [], [])

  datatype Action =
    | Offer(event: string)
    | GiveUp
    | StreamDone
    | CloseChannel
    | HandToWriter
    | HandToDrain
    | WriteDone(ok: bool)
    | SeeClosed
    | SeeClientGone
    | SeeTimeout
    | DrainSeesClosed

  function Step(s: State, a: Action): State {
    match a
    case Offer(event) => if s.producer.Working? then s.(producer := Offering(event)) else s
    case GiveUp => if s.producer.Offering? then s.(producer := Finishing) else s
    case StreamDone => if s.producer.Working? then s.(producer := Finishing) else s
    case CloseChannel =>
      if s.producer.Finishing? then s.(producer := Finished, closes := s.closes + 1, sentAtClose := |s.sent|) else s
    case HandToWriter =>
      if s.producer.Offering? && s.consumer.Waiting?
      then s.(producer := Working, consumer := Writing(s.producer.event), sent := s.sent + [s.producer.event]) else s
    case HandToDrain =>
      if s.producer.Offering? && s.drain.Draining?
      then s.(producer := Working, sent := s.sent + [s.producer.event]) else s
    case WriteDone(ok) =>
      if s.consumer.Writing? then
        if ok then s.(consumer := Waiting, seen := s.seen + [Frame(s.consumer.event)])
        else s.(consumer := Returned, drain := Draining)
      else if s.consumer.WritingIdle? then
        s.(consumer := Returned, drain := Draining, seen := if ok then s.seen + [IdleError] else s.seen)
      else s
    case SeeClosed => if s.consumer.Waiting? && s.closes > 0 then s.(consumer := Returned) else s
    case SeeClientGone => if s.consumer.Waiting? then s.(consumer := Returned, drain := Draining) else s
    case SeeTimeout => if s.consumer.Waiting? then s.(consumer := WritingIdle) else s
    case DrainSeesClosed => if s.drain.Draining? && s.closes > 0 then s.(drain := DrainDone) else s
  }

  function RunAll(actions: seq<Action>): State {
    if actions == [] then FRESH else Step(RunAll(actions[..|actions| - 1]), actions[|actions| - 1])
  }

  /** Somebody is waiting to receive. */
  predicate Receiving(s: State) {
    s.consumer.Waiting? || s.drain.Draining?
  }

  /** The client has seen the events of a prefix of what was sent, and then perhaps the idle error. */
  ghost predicate SeenPrefix(seen: seq<Chunk>, sent: seq<string>, events: nat, idle: bool) {
    events <= |sent| && seen == Frames(sent[..events]) + if idle then [IdleError] else []
  }

  ghost predicate Inv(s: State) {
    && (s.producer.Finished? <==> s.closes == 1) && s.closes <= 1
    && (s.closes == 1 ==> s.sentAtClose == |s.sent|)
    && (s.consumer.Returned? ==> s.closes == 1 || s.drain.Draining?)
    && (!s.consumer.Returned? ==> s.drain.NotStarted?)
    && (s.consumer.Waiting? || s.consumer.WritingIdle? ==> SeenPrefix(s.seen, s.sent, |s.sent|, false))
    && (s.consumer.Writing? ==>
         && s.sent != [] && s.sent[|s.sent| - 1] == s.consumer.event
         && SeenPrefix(s.seen, s.sent, |s.sent| - 1, false))
    && (exists n, idle :: SeenPrefix(s.seen, s.sent, n, idle))
  }

  lemma {:induction false} PrefixKept(seen: seq<Chunk>, sent: seq<string>, n: nat, idle: bool, event: string)
    requires SeenPrefix(seen, sent, n, idle)
    ensures SeenPrefix(seen, sent + [event], n, idle)
  {
    assert (sent + [event])[..n] == sent[..n];
  }

  lemma {:induction false} FramesSnoc(sent: seq<string>)
    requires sent != []
    ensures Frames(sent) == Frames(sent[..|sent| - 1]) + [Frame(sent[|sent| - 1])]
  {
  }

  lemma {:induction false} StepInv(s: State, a: Action)
    requires Inv(s)
    ensures Inv(Step(s, a))
  {
    hide Frames;
    var n, idle :| SeenPrefix(s.seen, s.sent, n, idle);
    assert s.sent[..|s.sent|] == s.sent;
    match a {
      case HandToWriter =>
        if s.producer.Offering? && s.consumer.Waiting? {
          PrefixKept(s.seen, s.sent, |s.sent|, false, s.producer.event);
          PrefixKept(s.seen, s.sent, n, idle, s.producer.event);
        }
      case HandToDrain =>
        if s.producer.Offering? && s.drain.Draining? { PrefixKept(s.seen, s.sent, n, idle, s.producer.event); }
      case WriteDone(ok) => WriteInv(s, ok, n, idle);
      case _ =>
        assert SeenPrefix(Step(s, a).seen, Step(s, a).sent, n, idle);
    }
  }

  lemma {:induction false} WriteInv(s: State, ok: bool, n: nat, idle: bool)
    requires Inv(s) && SeenPrefix(s.seen, s.sent, n, idle)
    ensures Inv(Step(s, WriteDone(ok)))
  {
    var t := Step(s, WriteDone(ok));
    if s.consumer.Writing? && ok {
      FramesSnoc(s.sent);
      assert SeenPrefix(t.seen, t.sent, |t.sent|, false) by { assert s.sent[..|s.sent|] == s.sent; }
    } else if s.consumer.WritingIdle? && ok {
      assert SeenPrefix(t.seen, t.sent, |t.sent|, true);
    } else {
      assert SeenPrefix(t.seen, t.sent, n, idle);
    }
  }

  lemma {:induction false} RunInv(actions: seq<Action>)
    ensures Inv(RunAll(actions))
    decreases |actions|
  {
    if actions != [] {
      RunInv(actions[..|actions| - 1]);
      StepInv(RunAll(actions[..|actions| - 1]), actions[|actions| - 1]);
    } else {
      assert SeenPrefix([], [], 0, false);
    }
  }

  /** The state once somebody receives: at once, or after the write that is under way. */
  function Ready(s: State, ok: bool): State {
    if Receiving(s) then s else Step(s, WriteDone(ok))
  }

  /** While the channel is open somebody receives, or the writer is in the middle of a write after which,
      however it goes, somebody does; so an event on offer passes within two steps of the receiving side,
      and the producer is never left blocked. */
  lemma {:induction false} ProducerNeverStuck(actions: seq<Action>, ok: bool)
    requires RunAll(actions).closes == 0
    ensures var s := RunAll(actions);
            var ready := Ready(s, ok);
            && Receiving(ready) && ready.producer == s.producer && ready.sent == s.sent
            && (s.producer.Offering? ==>
                 var t := Step(ready, if ready.consumer.Waiting? then HandToWriter else HandToDrain);
                 t.producer.Working? && t.sent == s.sent + [s.producer.event])
  {
    RunInv(actions);
  }

  /** The channel is closed at most once, exactly when the producer has finished, and nothing is sent
      after that. */
  lemma {:induction false} ClosedOnce(actions: seq<Action>)
    ensures var s := RunAll(actions);
            && s.closes == (if s.producer.Finished? then 1 else 0)
            && (s.producer.Finished? ==> |s.sent| == s.sentAtClose)
  {
    RunInv(actions);
  }

  /** The client sees the frames of a prefix of the events sent, and after them at most one idle error. */
  lemma {:induction false} ClientSeesPrefix(actions: seq<Action>)
    ensures exists n, idle :: SeenPrefix(RunAll(actions).seen, RunAll(actions).sent, n, idle)
  {
    RunInv(actions);
  }

  // ----- nothing is lost, and everything ends -----

  /** The writer has left because the channel was closed: nobody was asked to drain it. */
  predicate LeftOrderly(s: State) {
    s.consumer.Returned? && s.drain.NotStarted?
  }

  ghost predicate Complete(s: State) {
    (s.consumer.Waiting? || s.consumer.WritingIdle? || LeftOrderly(s)) ==> s.seen == Frames(s.sent)
  }

  lemma {:induction false} AllSeen(s: State)
    requires SeenPrefix(s.seen, s.sent, |s.sent|, false)
    ensures s.seen == Frames(s.sent)
  {
    assert s.sent[..|s.sent|] == s.sent && Frames(s.sent) + [] == Frames(s.sent);
  }

  lemma {:induction false} StepComplete(s: State, a: Action)
    requires Inv(s) && Complete(s)
    ensures Complete(Step(s, a))
  {
    var t := Step(s, a);
    StepInv(s, a);
    if t.consumer.Waiting? || t.consumer.WritingIdle? { AllSeen(t); }
    hide Frames;
  }

  /** In every interleaving the client has seen all that passed through the channel whenever the writer is waiting for
      more, and when it has left because the channel was closed. */
  lemma {:induction false} NothingLost(actions: seq<Action>)
    ensures var s := RunAll(actions);
            s.consumer.Waiting? || LeftOrderly(s) ==> s.seen == Frames(s.sent)
    decreases |actions|
  {
    RunComplete(actions);
  }

  lemma {:induction false} RunComplete(actions: seq<Action>)
    ensures Inv(RunAll(actions)) && Complete(RunAll(actions))
    decreases |actions|
  {
    RunInv(actions);
    if actions != [] {
      var before := RunAll(actions[..|actions| - 1]);
      RunComplete(actions[..|actions| - 1]);
      hide Inv, Complete, Step;
      StepComplete(before, actions[|actions| - 1]);
    }
  }

  /** The producer stops offering or has no more to offer, and closes the channel. */
  function Closing(s: State): State {
    Step(if s.producer.Offering? then Step(s, GiveUp) else Step(s, StreamDone), CloseChannel)
  }

  /** The write under way ends, and writer and drain find the channel closed. */
  function Leaving(s: State, ok: bool): State {
    Step(Step(if Receiving(s) then s else Step(s, WriteDone(ok)), SeeClosed), DrainSeesClosed)
  }

  /** From every state the producer can close the channel in two steps, and then writer and drain end within three,
      however the write under way goes. */
  lemma {:induction false} EverythingEnds(actions: seq<Action>, ok: bool)
    ensures var closed := Closing(RunAll(actions));
            var left := Leaving(closed, ok);
            && closed.producer.Finished? && closed.closes == 1
            && left.consumer.Returned? && !left.drain.Draining?
  {
    hide SeenPrefix, Frames, RunAll, Closing, Leaving, Inv;
    RunInv(actions);
    ClosesChannel(RunAll(actions));
    LeavesEnded(Closing(RunAll(actions)), ok);
  }

  lemma {:induction false} ClosesChannel(s: State)
    requires Inv(s)
    ensures Closing(s).producer.Finished? && Closing(s).closes == 1
    ensures !Closing(s).consumer.Returned? ==> Closing(s).drain.NotStarted?
  {
    hide SeenPrefix;
  }

  lemma {:induction false} LeavesEnded(s: State, ok: bool)
    requires s.closes == 1 && (!s.consumer.Returned? ==> s.drain.NotStarted?)
    ensures var left := Leaving(s, ok); left.consumer.Returned? && !left.drain.Draining?
  {
  }
}

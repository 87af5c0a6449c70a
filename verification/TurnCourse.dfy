/** What becomes of one request, read off its own inputs: whether it commits, and how it releases its
    lease, whatever other requests do in between. */
module TurnCourse {
  import opened Json
  import opened Lease
  import opened Turn

  // ----- read off the events -----

  /** The inputs of the request's own steps. */
  function Own(events: seq<Event>, r: string): seq<Input> {
    if events == [] then []
    else
      var n := |events| - 1;
      Own(events[..n], r) + if events[n].requestId == r then [events[n].input] else []
  }

  /** How many events come before its first step. */
  function Others(events: seq<Event>, r: string): (k: nat)
    ensures k <= |events|
  {
    if events == [] then 0
    else
      var n := |events| - 1;
      if Others(events[..n], r) < n || events[n].requestId == r then Others(events[..n], r) else n + 1
  }

  /** No lease is stored under its key when it takes its first step. */
  predicate KeyFree(w: World, events: seq<Event>, r: string)
    requires r in w.turns
  {
    w.turns[r].key !in Run(w, events[..Others(events, r)]).leases
  }

  // ----- the course of a request -----

  /** Prepared and, for a persisted visible-main turn, with the lease. */
  predicate Admitted(t: Turn, free: bool, own: seq<Input>) {
    |own| >= 1 && own[0].ok && (CommitsTurn(t) ==> free)
  }

  predicate Sent(t: Turn, free: bool, own: seq<Input>) {
    Admitted(t, free, own) && |own| >= 2 && own[1].ok
  }

  /** The relaying loop neither stops nor is stopped before step `e`. */
  predicate Relaying(own: seq<Input>, e: nat) {
    2 <= e <= |own| && forall k | 2 <= k < e :: !own[k].clientGone && !own[k].ended
  }

  /** The step after the one at which the stream has ended with the client still there, or after sending. */
  predicate Ended(t: Turn, free: bool, own: seq<Input>, j: nat) {
    && Sent(t, free, own)
    && if !t.stream then j == 2
       else 3 <= j <= |own| && Relaying(own, j - 1) && own[j - 1].ended && !own[j - 1].clientGone
  }

  /** The step that builds the response: with a lease, the live chain has been read, and written if there is one. */
  function BuildStep(t: Turn, own: seq<Input>, j: nat): nat
    requires j < |own|
  {
    if !CommitsTurn(t) then j else if own[j].liveChain.Some? then j + 2 else j + 1
  }

  /** A unary turn also looks for its client here. */
  predicate Built(t: Turn, i: Input) {
    i.ok && (t.stream || !i.clientGone)
  }

  /** The response is built at step `b`, the stream or the send having ended before step `j`. */
  predicate BuiltAt(t: Turn, free: bool, own: seq<Input>, j: nat, b: nat) {
    Ended(t, free, own, j) && j < |own| && b == BuildStep(t, own, j) && b < |own| && Built(t, own[b])
  }

  /** Validation has been asked, and found the chain that was read at promotion. */
  predicate ChainKept(own: seq<Input>, j: nat, b: nat) {
    j < b && b + 2 < |own| && own[b + 1].liveChain == own[j].liveChain
  }

  /** Or another. */
  predicate ChainLost(own: seq<Input>, j: nat, b: nat) {
    j < b && b + 2 < |own| && own[b + 1].liveChain != own[j].liveChain
  }

  /** It is time to commit: without a lease, right after building; with one, after the live chain has been read
      again, is the same as before, and validation has been asked. */
  predicate CommitsAt(t: Turn, free: bool, own: seq<Input>, j: nat, b: nat) {
    && BuiltAt(t, free, own, j, b)
    && if CommitsTurn(t) then |own| == b + 3 && ChainKept(own, j, b) else |own| == b + 1
  }

  ghost predicate IsCommitting(t: Turn, free: bool, own: seq<Input>) {
    exists j: nat, b: nat :: CommitsAt(t, free, own, j, b)
  }

  /** The same without counting what comes later. */
  ghost predicate Commits(t: Turn, free: bool, own: seq<Input>) {
    exists j: nat, b: nat :: BuiltAt(t, free, own, j, b) && (CommitsTurn(t) ==> ChainKept(own, j, b))
  }

  /** How a request that does not commit, or has committed, gives back its lease. */
  ghost predicate Exits(t: Turn, free: bool, own: seq<Input>, transition: LeaseState) {
    var n := |own| - 1;
    && n >= 1
    && match transition
       case InFlight => false
       case CompletedCommitted => IsCommitting(t, free, own[..n])
       case ClientAbortedBeforeFirstEvent => StreamAborted(t, free, own) && forall k | 2 <= k <= n :: !own[k].sent
       case ClientAbortedAfterVisibleOutput =>
         || (StreamAborted(t, free, own) && exists k :: 2 <= k <= n && own[k].sent)
         || (!t.stream && own[n].ok && own[n].clientGone && AtBuilding(t, free, own))
       case BackendFailedBeforeCommit =>
         (n == 1 && Admitted(t, free, own) && !own[1].ok) || (!own[n].ok && AtBuilding(t, free, own))
       case CommitSuppressedAfterAbort =>
         CommitsTurn(t) && SuppressedAt(t, free, own)
  }

  ghost predicate SuppressedAt(t: Turn, free: bool, own: seq<Input>) {
    exists j: nat, b: nat :: BuiltAt(t, free, own, j, b) && |own| == b + 3 && ChainLost(own, j, b)
  }

  /** The last step found the client gone while relaying. */
  predicate StreamAborted(t: Turn, free: bool, own: seq<Input>) {
    t.stream && Sent(t, free, own) && |own| >= 3 && Relaying(own, |own| - 1) && own[|own| - 1].clientGone
  }

  /** The last step was to build. */
  ghost predicate AtBuilding(t: Turn, free: bool, own: seq<Input>) {
    exists j: nat :: Ended(t, free, own, j) && j < |own| && |own| - 1 == BuildStep(t, own, j)
  }

  // ----- a request by itself -----

  const ME := "r"
  const OTHER := "s"

  /** A store that looks to the request like the one it runs with. */
  function StoreFor(t: Turn, free: bool): Leases {
    if t.held && !t.phase.ReleaseSecond? && !t.phase.Done? then
      map[t.key := Lease(ME, t.previousResponse, Promised(t), InFlight)]
    else if free then map[]
    else map[t.key := Lease(OTHER, None, None, InFlight)]
  }

  function Alone(t: Turn, free: bool, own: seq<Input>): Turn {
    if own == [] then t
    else
      var before := Alone(t, free, own[..|own| - 1]);
      Act(StoreFor(before, free), ME, before, own[|own| - 1]).turn
  }

  lemma {:induction false} AloneStep(t: Turn, free: bool, own: seq<Input>, n: nat)
    requires n < |own|
    ensures var before := Alone(t, free, own[..n]);
            Alone(t, free, own[..n + 1]) == Act(StoreFor(before, free), ME, before, own[n]).turn
  {
    hide Act;
    assert own[..n + 1][..n] == own[..n];
  }

  /** Its next step depends on the store only through what StoreFor shows. */
  lemma {:induction false} SameStep(leases: Leases, r: string, t: Turn, free: bool, i: Input)
    requires TurnOk(leases, r, t) && PhaseOk(t)
    requires t.phase.Preparing? ==> (free <==> t.key !in leases)
    ensures Act(leases, r, t, i).turn == Act(StoreFor(t, free), ME, t, i).turn
  {
    if t.phase.Validating? {
      ValidateMeans(leases, t.key, r, t.phase.live);
      ValidateMeans(StoreFor(t, free), t.key, ME, t.phase.live);
      hide Validate;
    }
  }

  lemma {:induction false} OwnLast(events: seq<Event>, r: string)
    requires events != []
    ensures var n := |events| - 1;
            Own(events, r) == Own(events[..n], r) + if events[n].requestId == r then [events[n].input] else []
  {
  }

  lemma {:induction false} OthersLast(events: seq<Event>, r: string)
    requires events != []
    ensures Others(events, r) <= |events|
    ensures var n := |events| - 1;
            && (Own(events, r) == [] <==> Others(events, r) == |events|)
            && (Own(events[..n], r) != [] ==> Others(events, r) == Others(events[..n], r) < n)
            && (Own(events[..n], r) == [] && events[n].requestId == r ==> Others(events, r) == n)
    decreases |events|
  {
    var n := |events| - 1;
    if n > 0 { OthersLast(events[..n], r); }
  }

  lemma {:induction false} FreeKept(w: World, events: seq<Event>, r: string)
    requires r in w.turns && events != []
    ensures var n := |events| - 1;
            && (Own(events[..n], r) != [] ==> (KeyFree(w, events, r) <==> KeyFree(w, events[..n], r)))
            && (Own(events[..n], r) == [] && events[n].requestId == r
                ==> (KeyFree(w, events, r) <==> w.turns[r].key !in Run(w, events[..n]).leases))
  {
    hide Run;
    var n := |events| - 1;
    OthersLast(events, r);
    if Own(events[..n], r) != [] {
      assert events[..n][..Others(events, r)] == events[..Others(events, r)];
    }
  }

  lemma {:induction false} AloneStart(t: Turn, free: bool, free': bool)
    ensures Alone(t, free, []) == Alone(t, free', []) == t
  {
  }

  lemma {:induction false} FreshTurn(w: World, r: string)
    requires Fresh(w) && r in w.turns
    ensures w.turns[r].phase.Preparing? && !w.turns[r].held && !w.turns[r].visible && w.turns[r].promoted == None
  {
  }

  /** Whatever the interleaving, a request does what its own inputs and the state of its key at its first step
      make it do. */
  lemma {:induction false} OwnCourse(w: World, events: seq<Event>, r: string)
    requires Fresh(w) && r in w.turns
    ensures var now := Run(w, events);
            && r in now.turns
            && now.turns[r] == Alone(w.turns[r], KeyFree(w, events, r), Own(events, r))
            && (now.turns[r].phase.Preparing? ==> Own(events, r) == [])
    decreases |events|
  {
    hide Next, Act, Alone, KeyFree, Fresh;
    var t := w.turns[r];
    if events == [] {
      AloneStart(t, KeyFree(w, events, r), true);
    } else {
      var n := |events| - 1;
      var before, e, own := Run(w, events[..n]), events[n], Own(events[..n], r);
      OwnCourse(w, events[..n], r);
      RunInv(w, events[..n]);
      FreeKept(w, events, r);
      OwnLast(events, r);
      AloneStart(t, KeyFree(w, events, r), KeyFree(w, events[..n], r));
      if e.requestId == r {
        OwnCourseStep(before, r, KeyFree(w, events, r), e.input);
        var all := Own(events, r);
        assert all == own + [e.input] && all[..|all| - 1] == own && all[..|all|] == all;
        AloneStep(t, KeyFree(w, events, r), all, |own|);
        KeyKept(w, events[..n], r);
      } else {
        OtherStep(before, r, e.requestId, e.input);
        assert Own(events, r) == own;
      }
    }
  }

  lemma {:induction false} OtherStep(w: World, r: string, other: string, i: Input)
    requires r in w.turns && other != r
    ensures r in Next(w, other, i).turns && Next(w, other, i).turns[r] == w.turns[r]
  {
    hide Act;
  }

  lemma {:induction false} OwnCourseStep(w: World, r: string, free: bool, i: Input)
    requires Inv(w) && r in w.turns
    requires w.turns[r].phase.Preparing? ==> (free <==> w.turns[r].key !in w.leases)
    ensures var t := w.turns[r];
            && r in Next(w, r, i).turns
            && Next(w, r, i).turns[r] == Act(StoreFor(t, free), ME, t, i).turn
            && !Next(w, r, i).turns[r].phase.Preparing?
  {
    assert TurnOk(w.leases, r, w.turns[r]);
    SameStep(w.leases, r, w.turns[r], free, i);
    LeavesPreparing(w.leases, r, w.turns[r], i);
    hide Act, TurnOk, PhaseOk, StoreFor;
  }

  lemma {:induction false} LeavesPreparing(leases: Leases, r: string, t: Turn, i: Input)
    ensures !Act(leases, r, t, i).turn.phase.Preparing? && Act(leases, r, t, i).turn.key == t.key
  {
    if t.phase.Preparing? {
      hide Prepare, RunStream;
      PrepareLeaves(leases, r, t, i);
    } else if t.phase.Streaming? {
      hide Prepare, RunStream;
      StreamLeaves(leases, t, i);
    } else {
      OthersLeave(leases, r, t, i);
    }
  }

  lemma {:induction false} OthersLeave(leases: Leases, r: string, t: Turn, i: Input)
    requires !t.phase.Preparing? && !t.phase.Streaming?
    ensures !Act(leases, r, t, i).turn.phase.Preparing? && Act(leases, r, t, i).turn.key == t.key
  {
    hide Act;
    if t.phase.Sending? || t.phase.ReadPromotion? || t.phase.Promoting? {
      EarlyLeave(leases, r, t, i);
    } else if t.phase.Building? || t.phase.ReadValidation? || t.phase.Validating? {
      MiddleLeave(leases, r, t, i);
    } else {
      LateLeave(leases, r, t, i);
    }
  }

  lemma {:induction false} EarlyLeave(leases: Leases, r: string, t: Turn, i: Input)
    requires t.phase.Sending? || t.phase.ReadPromotion? || t.phase.Promoting?
    ensures !Act(leases, r, t, i).turn.phase.Preparing? && Act(leases, r, t, i).turn.key == t.key
  {
    hide Promote;
  }

  lemma {:induction false} MiddleLeave(leases: Leases, r: string, t: Turn, i: Input)
    requires t.phase.Building? || t.phase.ReadValidation? || t.phase.Validating?
    ensures !Act(leases, r, t, i).turn.phase.Preparing? && Act(leases, r, t, i).turn.key == t.key
  {
    hide Validate;
  }

  lemma {:induction false} LateLeave(leases: Leases, r: string, t: Turn, i: Input)
    requires t.phase.Committing? || Releasing(t.phase)
    ensures !Act(leases, r, t, i).turn.phase.Preparing? && Act(leases, r, t, i).turn.key == t.key
  {
    hide Commit, Release;
  }

  lemma {:induction false} PrepareLeaves(leases: Leases, r: string, t: Turn, i: Input)
    ensures !Prepare(leases, r, t, i).turn.phase.Preparing? && Prepare(leases, r, t, i).turn.key == t.key
  {
    hide Acquire;
  }

  lemma {:induction false} StreamLeaves(leases: Leases, t: Turn, i: Input)
    ensures !RunStream(leases, t, i).turn.phase.Preparing? && RunStream(leases, t, i).turn.key == t.key
  {
  }

  lemma {:induction false} KeyKept(w: World, events: seq<Event>, r: string)
    requires r in w.turns
    ensures r in Run(w, events).turns && Run(w, events).turns[r].key == w.turns[r].key
    decreases |events|
  {
    hide Act;
    if events != [] {
      var n := |events| - 1;
      KeyKept(w, events[..n], r);
      var before := Run(w, events[..n]);
      if events[n].requestId == r { LeavesPreparing(before.leases, r, before.turns[r], events[n].input); }
    }
  }

  // ----- what the phase says about the inputs -----

  /** What has been read off the inputs is what the request holds. */
  ghost predicate Fields(t: Turn, free: bool, own: seq<Input>, now: Turn) {
    && now.key == t.key && now.persisted == t.persisted && now.visibleMain == t.visibleMain && now.stream == t.stream
    && now.held == (CommitsTurn(t) && Admitted(t, free, own))
  }

  ghost predicate Seen(t: Turn, own: seq<Input>, now: Turn) {
    now.visible <==> t.visible || exists k :: 2 <= k < |own| && own[k].sent
  }

  /** With a lease: the live chain has been read before step `j + 1`. */
  predicate Promoted(own: seq<Input>, j: nat, now: Turn) {
    j < |own| && now.promoted == own[j].liveChain
  }

  ghost predicate PhaseMeans(t: Turn, free: bool, own: seq<Input>, now: Turn) {
    match now.phase
    case Preparing => own == []
    case Sending => Admitted(t, free, own) && |own| == 1 && now.visible == t.visible
    case Streaming => t.stream && Sent(t, free, own) && Relaying(own, |own|) && Seen(t, own, now)
    case ReadPromotion => CommitsTurn(t) && Ended(t, free, own, |own|)
    case Promoting(chain) =>
      CommitsTurn(t) && exists j: nat ::
        Ended(t, free, own, j) && |own| == j + 1 && own[j].liveChain == Some(chain) && Promoted(own, j, now)
    case Building =>
      if CommitsTurn(t) then
        exists j: nat :: Ended(t, free, own, j) && Promoted(own, j, now) && |own| == BuildStep(t, own, j)
      else Ended(t, free, own, |own|)
    case ReadValidation =>
      CommitsTurn(t) && exists j: nat, b: nat :: BuiltAt(t, free, own, j, b) && Promoted(own, j, now) && |own| == b + 1
    case Validating(live) =>
      CommitsTurn(t) && exists j: nat, b: nat ::
        && BuiltAt(t, free, own, j, b) && Promoted(own, j, now)
        && j < b && |own| == b + 2 && live == own[b + 1].liveChain
    case Committing => IsCommitting(t, free, own)
    case ReleaseFirst(transition) => Exits(t, free, own, transition)
    case ReleaseSecond => own != []
    case Done => own != []
  }

  ghost predicate Course(t: Turn, free: bool, own: seq<Input>, now: Turn) {
    Fields(t, free, own, now) && PhaseMeans(t, free, own, now)
  }

  lemma {:induction false} EndedKept(t: Turn, free: bool, own: seq<Input>, i: Input, j: nat)
    requires Ended(t, free, own, j)
    ensures Ended(t, free, own + [i], j)
  {
  }

  lemma {:induction false} BuiltKept(t: Turn, free: bool, own: seq<Input>, i: Input, j: nat, b: nat)
    requires BuiltAt(t, free, own, j, b)
    ensures BuiltAt(t, free, own + [i], j, b)
  {
    EndedKept(t, free, own, i, j);
    hide Ended;
  }

  predicate Early(p: Phase) {
    p.Preparing? || p.Sending? || p.Streaming?
  }

  lemma {:induction false} CoursePrepares(t: Turn, free: bool, own: seq<Input>, now: Turn, i: Input)
    requires Course(t, free, own, now) && now.phase.Preparing? && now == t && !t.held
    ensures Course(t, free, own + [i], Act(StoreFor(now, free), ME, now, i).turn)
  {
    assert own + [i] == [i];
    hide Acquire, Exits, Ended;
  }

  lemma {:induction false} CourseSends(t: Turn, free: bool, own: seq<Input>, now: Turn, i: Input)
    requires Course(t, free, own, now) && now.phase.Sending?
    ensures Course(t, free, own + [i], Act(StoreFor(now, free), ME, now, i).turn)
  {
    var all := own + [i];
    assert |all| == 2 && all[0] == own[0] && all[1] == i && Admitted(t, free, all);
    if !i.ok {
      assert Exits(t, free, all, BackendFailedBeforeCommit);
    } else {
      assert Sent(t, free, all) && Relaying(all, 2);
    }
    hide Exits;
  }

  lemma {:induction false} CourseRelays(t: Turn, free: bool, own: seq<Input>, now: Turn, i: Input)
    requires Course(t, free, own, now) && now.phase.Streaming? && !t.visible
    ensures Course(t, free, own + [i], Act(StoreFor(now, free), ME, now, i).turn)
  {
    var all, next := own + [i], Act(StoreFor(now, free), ME, now, i).turn;
    var n := |own|;
    assert Sent(t, free, all) && Relaying(all, n) && all[n] == i && |all| - 1 == n;
    SeenNext(t, own, now, i, next);
    if i.clientGone {
      AbortedHere(t, free, all, next);
    } else if i.ended {
      assert Ended(t, free, all, n + 1);
      hide Ended;
    } else {
      assert Relaying(all, n + 1);
    }
  }

  lemma {:induction false} AbortedHere(t: Turn, free: bool, own: seq<Input>, now: Turn)
    requires StreamAborted(t, free, own) && !t.visible && Seen(t, own, now)
    ensures Exits(t, free, own, if now.visible then ClientAbortedAfterVisibleOutput else ClientAbortedBeforeFirstEvent)
  {
    assert |own| >= 3;
    hide StreamAborted, AtBuilding, Admitted;
    if now.visible {
      var k :| 2 <= k < |own| && own[k].sent;
      assert 2 <= k <= |own| - 1;
    }
  }

  lemma {:induction false} SeenNext(t: Turn, own: seq<Input>, now: Turn, i: Input, next: Turn)
    requires Seen(t, own, now) && |own| >= 2 && next.visible == (now.visible || i.sent)
    ensures Seen(t, own + [i], next)
  {
    var all := own + [i];
    forall k | 2 <= k < |own| ensures all[k] == own[k] {
    }
    assert all[|own|] == i;
    if exists k :: 2 <= k < |own| && own[k].sent {
      var k :| 2 <= k < |own| && own[k].sent;
      assert 2 <= k < |all| && all[k].sent;
    }
  }

  lemma {:induction false} CoursePromotes(t: Turn, free: bool, own: seq<Input>, now: Turn, i: Input)
    requires Course(t, free, own, now) && (now.phase.ReadPromotion? || now.phase.Promoting?)
    ensures Course(t, free, own + [i], Act(StoreFor(now, free), ME, now, i).turn)
  {
    var all := own + [i];
    if now.phase.ReadPromotion? {
      EndedKept(t, free, own, i, |own|);
      assert Promoted(all, |own|, Act(StoreFor(now, free), ME, now, i).turn);
    } else {
      var j: nat :| Ended(t, free, own, j) && |own| == j + 1 && own[j].liveChain == Some(now.phase.chain)
        && Promoted(own, j, now);
      EndedKept(t, free, own, i, j);
    }
    hide Ended;
  }

  lemma {:induction false} CourseBuilds(t: Turn, free: bool, own: seq<Input>, now: Turn, i: Input)
    requires Course(t, free, own, now) && now.phase.Building?
    ensures Course(t, free, own + [i], Act(StoreFor(now, free), ME, now, i).turn)
  {
    var all := own + [i];
    var j: nat := |own|;
    if CommitsTurn(t) {
      j :| Ended(t, free, own, j) && Promoted(own, j, now) && |own| == BuildStep(t, own, j);
    }
    EndedKept(t, free, own, i, j);
    hide Ended, Admitted;
    assert Ended(t, free, all, j) && j < |all| && |all| - 1 == BuildStep(t, all, j);
    assert Built(t, i) ==> BuiltAt(t, free, all, j, |own|);
    assert AtBuilding(t, free, all);
    if Built(t, i) && !CommitsTurn(t) { assert CommitsAt(t, free, all, j, |own|); }
  }

  lemma {:induction false} CourseReads(t: Turn, free: bool, own: seq<Input>, now: Turn, i: Input)
    requires Course(t, free, own, now) && now.phase.ReadValidation?
    ensures Course(t, free, own + [i], Act(StoreFor(now, free), ME, now, i).turn)
  {
    var all := own + [i];
    var j: nat, b: nat :| BuiltAt(t, free, own, j, b) && Promoted(own, j, now) && |own| == b + 1;
    BuiltKept(t, free, own, i, j, b);
    hide Ended;
    assert Promoted(all, j, Act(StoreFor(now, free), ME, now, i).turn) && j < b && all[b + 1] == i;
  }

  lemma {:induction false} CourseValidates(t: Turn, free: bool, own: seq<Input>, now: Turn, i: Input)
    requires Course(t, free, own, now) && now.phase.Validating?
    ensures Course(t, free, own + [i], Act(StoreFor(now, free), ME, now, i).turn)
  {
    var all := own + [i];
    var j: nat, b: nat :|
      && BuiltAt(t, free, own, j, b) && Promoted(own, j, now) && j < b && |own| == b + 2
      && now.phase.live == own[b + 1].liveChain;
    BuiltKept(t, free, own, i, j, b);
    BuiltAdmitted(t, free, own, j, b);
    hide BuiltAt, Exits, IsCommitting, StoreFor;
    var next := Act(StoreFor(now, free), ME, now, i).turn;
    ActValidating(t, free, now, i);
    OnlyPhase(StoreFor(now, free), now, i);
    hide Act;
    ValidatedAt(t, free, all, j, b);
  }

  lemma {:induction false} OnlyPhase(leases: Leases, now: Turn, i: Input)
    requires now.phase.Validating?
    ensures var next := Act(leases, ME, now, i).turn; next == now.(phase := next.phase)
  {
    hide Validate;
  }

  lemma {:induction false} ValidatedAt(t: Turn, free: bool, own: seq<Input>, j: nat, b: nat)
    requires CommitsTurn(t) && BuiltAt(t, free, own, j, b) && j < b && |own| == b + 3
    ensures own[b + 1].liveChain == own[j].liveChain ==> IsCommitting(t, free, own)
    ensures own[b + 1].liveChain != own[j].liveChain ==> Exits(t, free, own, CommitSuppressedAfterAbort)
  {
    hide BuiltAt;
    if own[b + 1].liveChain == own[j].liveChain {
      assert CommitsAt(t, free, own, j, b);
    } else {
      assert ChainLost(own, j, b) && SuppressedAt(t, free, own);
    }
  }

  lemma {:induction false} FieldsKept(t: Turn, free: bool, own: seq<Input>, now: Turn, i: Input, phase: Phase)
    requires Fields(t, free, own, now) && own != []
    ensures Fields(t, free, own + [i], now.(phase := phase))
  {
  }

  lemma {:induction false} CourseEnds(t: Turn, free: bool, own: seq<Input>, now: Turn, i: Input)
    requires Course(t, free, own, now)
    requires now.phase.Committing? || Releasing(now.phase)
    ensures Course(t, free, own + [i], Act(StoreFor(now, free), ME, now, i).turn)
  {
    hide Act, StoreFor, Fields, Exits, IsCommitting;
    var all, next := own + [i], Act(StoreFor(now, free), ME, now, i).turn;
    if now.phase.Committing? {
      CommitHasInputs(t, free, own);
      CommitsQuietly(StoreFor(now, free), now, i);
      CommittedExits(t, free, own, i);
    } else {
      EndHasInputs(t, free, own, now);
      EndsQuietly(StoreFor(now, free), now, i);
    }
    FieldsKept(t, free, own, now, i, next.phase);
  }

  lemma {:induction false} CommittedExits(t: Turn, free: bool, own: seq<Input>, i: Input)
    requires IsCommitting(t, free, own) && own != []
    ensures Exits(t, free, own + [i], CompletedCommitted)
  {
    hide IsCommitting;
    assert (own + [i])[..|own|] == own;
  }

  lemma {:induction false} EndHasInputs(t: Turn, free: bool, own: seq<Input>, now: Turn)
    requires PhaseMeans(t, free, own, now) && Releasing(now.phase)
    ensures own != []
  {
    hide IsCommitting, StreamAborted, AtBuilding, SuppressedAt;
  }

  lemma {:induction false} CommitsQuietly(leases: Leases, now: Turn, i: Input)
    requires now.phase.Committing?
    ensures Act(leases, ME, now, i).turn == now.(phase := ReleaseFirst(CompletedCommitted))
  {
  }

  lemma {:induction false} EndsQuietly(leases: Leases, now: Turn, i: Input)
    requires Releasing(now.phase)
    ensures var next := Act(leases, ME, now, i).turn;
            next == now.(phase := next.phase) && (next.phase.ReleaseSecond? || next.phase.Done?)
  {
    hide Commit, Release;
  }

  lemma {:induction false} CommitHasInputs(t: Turn, free: bool, own: seq<Input>)
    requires IsCommitting(t, free, own)
    ensures |own| >= 1
  {
  }

  predicate Starts(t: Turn) {
    t.phase.Preparing? && !t.held && !t.visible && t.promoted == None
  }

  lemma {:induction false} AloneCourse(t: Turn, free: bool, own: seq<Input>)
    requires Starts(t)
    ensures Course(t, free, own, Alone(t, free, own))
    decreases |own|
  {
    hide Act, Fields, PhaseMeans, Course;
    if own == [] {
      StartCourse(t, free);
    } else {
      var n := |own| - 1;
      AloneCourse(t, free, own[..n]);
      assert own[..n] + [own[n]] == own;
      var now := Alone(t, free, own[..n]);
      if now.phase.Preparing? {
        PreparingIsStart(t, free, own[..n], now);
        CoursePrepares(t, free, own[..n], now, own[n]);
      } else if now.phase.Sending? {
        CourseSends(t, free, own[..n], now, own[n]);
      } else if now.phase.Streaming? {
        CourseRelays(t, free, own[..n], now, own[n]);
      } else if now.phase.ReadPromotion? || now.phase.Promoting? {
        CoursePromotes(t, free, own[..n], now, own[n]);
      } else if now.phase.Building? {
        CourseBuilds(t, free, own[..n], now, own[n]);
      } else if now.phase.ReadValidation? {
        CourseReads(t, free, own[..n], now, own[n]);
      } else if now.phase.Validating? {
        CourseValidates(t, free, own[..n], now, own[n]);
      } else {
        CourseEnds(t, free, own[..n], now, own[n]);
      }
    }
  }

  lemma {:induction false} StartCourse(t: Turn, free: bool)
    requires Starts(t)
    ensures Course(t, free, [], Alone(t, free, []))
  {
  }

  lemma {:induction false} PreparingIsStart(t: Turn, free: bool, own: seq<Input>, now: Turn)
    requires Course(t, free, own, now) && now.phase.Preparing? && now == Alone(t, free, own)
    ensures own == [] && now == t
  {
  }

  // ----- what the inputs say about the phase -----

  /** The phase after the first `n` inputs. */
  function At(t: Turn, free: bool, own: seq<Input>, n: nat): Phase
    requires n <= |own|
  {
    Alone(t, free, own[..n]).phase
  }

  lemma {:induction false} Steps(t: Turn, free: bool, own: seq<Input>, n: nat) returns (now: Turn, next: Turn)
    requires n < |own| && Starts(t)
    ensures now == Alone(t, free, own[..n]) && next == Alone(t, free, own[..n + 1])
    ensures next == Act(StoreFor(now, free), ME, now, own[n]).turn
    ensures Fields(t, free, own[..n], now) && Course(t, free, own[..n], now)
  {
    now, next := Alone(t, free, own[..n]), Alone(t, free, own[..n + 1]);
    AloneCourse(t, free, own[..n]);
    AloneStep(t, free, own, n);
    hide Act, Alone, PhaseMeans, Fields;
  }

  // ----- single steps -----

  lemma {:induction false} ActSending(leases: Leases, now: Turn, i: Input)
    requires now.phase.Sending?
    ensures Act(leases, ME, now, i).turn.phase
      == if !i.ok then ReleaseFirst(BackendFailedBeforeCommit) else if now.stream then Streaming
         else if now.held then ReadPromotion else Building
  {
  }

  lemma {:induction false} ActStreaming(leases: Leases, now: Turn, i: Input)
    requires now.phase.Streaming?
    ensures var next := Act(leases, ME, now, i).turn;
            && next.visible == (now.visible || i.sent)
            && next.phase == if i.clientGone then ReleaseFirst(if next.visible then ClientAbortedAfterVisibleOutput
                                                               else ClientAbortedBeforeFirstEvent)
                             else if !i.ended then Streaming else if now.held then ReadPromotion else Building
  {
  }

  lemma {:induction false} ActBuilding(leases: Leases, now: Turn, i: Input)
    requires now.phase.Building?
    ensures Act(leases, ME, now, i).turn.phase
      == if !i.ok then ReleaseFirst(BackendFailedBeforeCommit)
         else if !now.stream && i.clientGone then ReleaseFirst(ClientAbortedAfterVisibleOutput)
         else if now.held then ReadValidation else Committing
  {
  }

  lemma {:induction false} ActPromotion(leases: Leases, now: Turn, i: Input)
    requires now.phase.ReadPromotion?
    ensures Act(leases, ME, now, i).turn.phase
      == if i.liveChain.Some? then Promoting(i.liveChain.value) else Building
  {
  }

  lemma {:induction false} ActPromoting(leases: Leases, now: Turn, i: Input)
    requires now.phase.Promoting?
    ensures Act(leases, ME, now, i).turn.phase == Building
  {
    hide Promote;
  }

  lemma {:induction false} ActReading(leases: Leases, now: Turn, i: Input)
    requires now.phase.ReadValidation?
    ensures Act(leases, ME, now, i).turn.phase == Validating(i.liveChain)
  {
  }

  lemma {:induction false} ActValidating(t: Turn, free: bool, now: Turn, i: Input)
    requires now.phase.Validating? && now.held
    ensures Act(StoreFor(now, free), ME, now, i).turn.phase
      == if now.phase.live == now.promoted then Committing else ReleaseFirst(CommitSuppressedAfterAbort)
  {
    ValidateMeans(StoreFor(now, free), now.key, ME, now.phase.live);
    hide Validate;
  }

  lemma {:induction false} ActCommitting(leases: Leases, now: Turn, i: Input)
    requires now.phase.Committing?
    ensures Act(leases, ME, now, i).turn.phase == ReleaseFirst(CompletedCommitted)
  {
  }

  lemma {:induction false} CourseParts(t: Turn, free: bool, own: seq<Input>, now: Turn)
    requires Course(t, free, own, now)
    ensures Fields(t, free, own, now) && PhaseMeans(t, free, own, now)
  {
  }

  lemma {:induction false} BuiltAdmitted(t: Turn, free: bool, own: seq<Input>, j: nat, b: nat)
    requires BuiltAt(t, free, own, j, b)
    ensures Admitted(t, free, own) && 2 <= j <= b
  {
    EndedAdmitted(t, free, own, j);
    hide Ended;
  }

  lemma {:induction false} AbortedParts(t: Turn, free: bool, own: seq<Input>)
    requires StreamAborted(t, free, own)
    ensures |own| >= 3 && t.stream && Sent(t, free, own) && Relaying(own, |own| - 1) && own[|own| - 1].clientGone
  {
  }

  lemma {:induction false} SeenWhileRelaying(t: Turn, free: bool, own: seq<Input>, now: Turn)
    requires PhaseMeans(t, free, own, now) && now.phase.Streaming?
    ensures Seen(t, own, now)
  {
  }

  lemma {:induction false} SeenMeans(t: Turn, own: seq<Input>, now: Turn)
    requires Seen(t, own, now)
    ensures now.visible <==> t.visible || exists k :: 2 <= k < |own| && own[k].sent
  {
  }

  lemma {:induction false} ReachesSending(t: Turn, free: bool, own: seq<Input>)
    requires Starts(t) && Admitted(t, free, own)
    ensures At(t, free, own, 1) == Sending
  {
    assert own[..0] == [];
    var now, next := Steps(t, free, own, 0);
    assert now == t;
    hide PhaseMeans, Acquire;
  }

  lemma {:induction false} ReachesSent(t: Turn, free: bool, own: seq<Input>)
    requires Starts(t) && Sent(t, free, own)
    ensures At(t, free, own, 2) == if t.stream then Streaming else if CommitsTurn(t) then ReadPromotion else Building
  {
    hide Alone, Act, PhaseMeans, StoreFor, Course;
    ReachesSending(t, free, own);
    var now, next := Steps(t, free, own, 1);
    assert Admitted(t, free, own[..1]);
    ActSending(StoreFor(now, free), now, own[1]);
  }

  lemma {:induction false} ReachesRelaying(t: Turn, free: bool, own: seq<Input>, e: nat)
    requires Starts(t) && Sent(t, free, own) && t.stream && Relaying(own, e)
    ensures At(t, free, own, e) == Streaming
    decreases e
  {
    hide Alone, Act, PhaseMeans, Fields, StoreFor, Course, Sent;
    if e == 2 {
      ReachesSent(t, free, own);
    } else {
      assert Relaying(own, e - 1);
      ReachesRelaying(t, free, own, e - 1);
      var now, next := Steps(t, free, own, e - 1);
      ActStreaming(StoreFor(now, free), now, own[e - 1]);
    }
  }

  lemma {:induction false} HeldWhenAdmitted(t: Turn, free: bool, own: seq<Input>, n: nat, now: Turn)
    requires Admitted(t, free, own) && 1 <= n <= |own| && Fields(t, free, own[..n], now)
    ensures now.held == CommitsTurn(t)
  {
  }

  lemma {:induction false} ReachesEnd(t: Turn, free: bool, own: seq<Input>, j: nat)
    requires Starts(t) && Ended(t, free, own, j)
    ensures At(t, free, own, j) == if CommitsTurn(t) then ReadPromotion else Building
  {
    hide Alone, Act, PhaseMeans, Fields, StoreFor, Course;
    if t.stream {
      ReachesRelaying(t, free, own, j - 1);
      var now, next := Steps(t, free, own, j - 1);
      HeldWhenAdmitted(t, free, own, j - 1, now);
      ActStreaming(StoreFor(now, free), now, own[j - 1]);
    } else {
      ReachesSent(t, free, own);
    }
  }

  lemma {:induction false} ReachesBuilding(t: Turn, free: bool, own: seq<Input>, j: nat)
    requires Starts(t) && Ended(t, free, own, j) && j < |own| && BuildStep(t, own, j) <= |own|
    ensures At(t, free, own, BuildStep(t, own, j)) == Building
  {
    hide Alone, Act, PhaseMeans, Fields, StoreFor, Course, Ended;
    ReachesEnd(t, free, own, j);
    if CommitsTurn(t) {
      var now, next := Steps(t, free, own, j);
      ActPromotion(StoreFor(now, free), now, own[j]);
      if own[j].liveChain.Some? {
        var later, last := Steps(t, free, own, j + 1);
        ActPromoting(StoreFor(later, free), later, own[j + 1]);
      }
    }
  }

  lemma {:induction false} EndedAdmitted(t: Turn, free: bool, own: seq<Input>, j: nat)
    requires Ended(t, free, own, j)
    ensures Admitted(t, free, own) && 2 <= j
  {
  }

  lemma {:induction false} ReachesBuilt(t: Turn, free: bool, own: seq<Input>, j: nat, b: nat)
    requires Starts(t) && BuiltAt(t, free, own, j, b)
    ensures At(t, free, own, b + 1) == if CommitsTurn(t) then ReadValidation else Committing
  {
    hide Alone, Act, PhaseMeans, Fields, StoreFor, Ended, Course;
    ReachesBuilding(t, free, own, j);
    EndedAdmitted(t, free, own, j);
    var now, next := Steps(t, free, own, b);
    HeldWhenAdmitted(t, free, own, b, now);
    SameStream(t, free, own[..b], now);
    ActBuilding(StoreFor(now, free), now, own[b]);
  }

  lemma {:induction false} EndedPrefix(t: Turn, free: bool, own: seq<Input>, j: nat, n: nat)
    requires Ended(t, free, own, j) && j <= n <= |own|
    ensures Ended(t, free, own[..n], j)
  {
  }

  /** There is one place only where the stream has ended. */
  lemma {:induction false} EndedOnce(t: Turn, free: bool, a: seq<Input>, b: seq<Input>, j: nat, k: nat)
    requires a <= b && Ended(t, free, a, j) && Ended(t, free, b, k)
    ensures j == k
  {
    assert forall x: nat | x < |a| :: a[x] == b[x];
  }

  lemma {:induction false} ReachesValidated(t: Turn, free: bool, own: seq<Input>, j: nat, b: nat)
    requires Starts(t) && CommitsTurn(t) && BuiltAt(t, free, own, j, b) && b + 2 < |own|
    ensures At(t, free, own, b + 3)
      == if own[b + 1].liveChain == own[j].liveChain then Committing else ReleaseFirst(CommitSuppressedAfterAbort)
  {
    hide Alone, Act, Fields, StoreFor, BuiltAt, Validate, Course;
    ReachesBuilt(t, free, own, j, b);
    var now, next := Steps(t, free, own, b + 1);
    ActReading(StoreFor(now, free), now, own[b + 1]);
    var later, last := Steps(t, free, own, b + 2);
    AloneCourse(t, free, own[..b + 2]);
    CourseParts(t, free, own[..b + 2], later);
    ChainPromised(t, free, own, j, b, later);
    BuiltAdmitted(t, free, own, j, b);
    HeldWhenAdmitted(t, free, own, b + 2, later);
    ActValidating(t, free, later, own[b + 2]);
  }

  lemma {:induction false} ChainPromised(t: Turn, free: bool, own: seq<Input>, j: nat, b: nat, now: Turn)
    requires CommitsTurn(t) && BuiltAt(t, free, own, j, b) && b + 2 < |own|
    requires PhaseMeans(t, free, own[..b + 2], now) && now.phase.Validating?
    ensures now.promoted == own[j].liveChain
  {
    var some := own[..b + 2];
    var j': nat, b': nat :|
      && BuiltAt(t, free, some, j', b') && Promoted(some, j', now) && j' < b' && |some| == b' + 2
      && now.phase.live == some[b' + 1].liveChain;
    EndedOnce(t, free, some, own, j', j);
    hide Ended;
  }

  // ----- the theorems -----

  lemma {:induction false} OwnPrefix(events: seq<Event>, r: string, n: nat)
    requires n <= |events|
    ensures Own(events[..n], r) <= Own(events, r)
    ensures KeyFreeSame(events, r, n)
    decreases |events|
  {
    if n < |events| {
      var m := |events| - 1;
      assert events[..m][..n] == events[..n];
      OwnPrefix(events[..m], r, n);
      OthersLast(events, r);
    } else {
      assert events[..n] == events;
    }
  }

  predicate KeyFreeSame(events: seq<Event>, r: string, n: nat)
    requires n <= |events|
  {
    Own(events[..n], r) != [] ==> Others(events[..n], r) == Others(events, r) <= n
  }

  /** Every number of own steps is reached. */
  lemma {:induction false} OwnReached(events: seq<Event>, r: string, k: nat) returns (n: nat)
    requires k <= |Own(events, r)|
    ensures n <= |events| && Own(events[..n], r) == Own(events, r)[..k]
    decreases |events|
  {
    if k == |Own(events, r)| {
      n := |events|;
      assert events[..n] == events && Own(events, r)[..k] == Own(events, r);
    } else {
      var m := |events| - 1;
      n := OwnReached(events[..m], r, k);
      assert events[..m][..n] == events[..n];
    }
  }

  lemma {:induction false} FreeAtPrefix(w: World, events: seq<Event>, r: string, n: nat)
    requires r in w.turns && n <= |events| && Own(events[..n], r) != []
    ensures KeyFree(w, events[..n], r) <==> KeyFree(w, events, r)
  {
    OwnPrefix(events, r, n);
    assert events[..n][..Others(events, r)] == events[..Others(events, r)];
    hide Run;
  }

  /** A request is committing exactly when its own inputs say so: preparation, sending and building succeeded, its
      key was free if it needs the lease, its stream ended and its client was there wherever the code looks, and
      with a lease the live chain read at validation is the one read at promotion. */
  lemma {:induction false} CommittingExactly(w: World, events: seq<Event>, r: string)
    requires Fresh(w) && r in w.turns
    ensures r in Run(w, events).turns
    ensures Run(w, events).turns[r].phase.Committing?
      <==> IsCommitting(w.turns[r], KeyFree(w, events, r), Own(events, r))
  {
    FreshTurn(w, r);
    OwnCourse(w, events, r);
    hide Run, Alone, Fresh, KeyFree, Own;
    AloneCommits(w.turns[r], KeyFree(w, events, r), Own(events, r));
  }

  lemma {:induction false} AloneCommits(t: Turn, free: bool, own: seq<Input>)
    requires Starts(t)
    ensures Alone(t, free, own).phase.Committing? <==> IsCommitting(t, free, own)
  {
    hide Alone, BuiltAt, ChainKept, Course;
    AloneCourse(t, free, own);
    CommittingMeans(t, free, own, Alone(t, free, own));
    assert own[..|own|] == own;
    if IsCommitting(t, free, own) {
      var j: nat, b: nat :| CommitsAt(t, free, own, j, b);
      if CommitsTurn(t) {
        KeptMeans(own, j, b);
        ReachesValidated(t, free, own, j, b);
      } else {
        ReachesBuilt(t, free, own, j, b);
      }
    }
  }

  lemma {:induction false} CommittingMeans(t: Turn, free: bool, own: seq<Input>, now: Turn)
    requires Course(t, free, own, now)
    ensures now.phase.Committing? ==> IsCommitting(t, free, own)
    ensures now.phase.ReleaseFirst? ==> Exits(t, free, own, now.phase.transition)
  {
  }

  lemma {:induction false} KeptMeans(own: seq<Input>, j: nat, b: nat)
    requires ChainKept(own, j, b)
    ensures j < b && b + 2 < |own| && own[b + 1].liveChain == own[j].liveChain
  {
  }

  /** It reaches its commit, at some point of the interleaving, exactly when its inputs carry it there. */
  lemma {:induction false} CommitsExactly(w: World, events: seq<Event>, r: string)
    requires Fresh(w) && r in w.turns
    ensures (exists n :: 0 <= n <= |events| && r in Run(w, events[..n]).turns
                         && Run(w, events[..n]).turns[r].phase.Committing?)
      <==> Commits(w.turns[r], KeyFree(w, events, r), Own(events, r))
  {
    hide Run, Fresh, Own, KeyFree, IsCommitting, Commits;
    var t, free, own := w.turns[r], KeyFree(w, events, r), Own(events, r);
    CommitsAtSome(t, free, own);
    if n :| 0 <= n <= |events| && r in Run(w, events[..n]).turns && Run(w, events[..n]).turns[r].phase.Committing? {
      CommittingExactly(w, events[..n], r);
      CommitHasInputs(t, KeyFree(w, events[..n], r), Own(events[..n], r));
      FreeAtPrefix(w, events, r, n);
      OwnPrefix(events, r, n);
      var k := |Own(events[..n], r)|;
      assert own[..k] == Own(events[..n], r);
    }
    if Commits(t, free, own) {
      var k: nat :| k <= |own| && IsCommitting(t, free, own[..k]);
      CommitHasInputs(t, free, own[..k]);
      var n := OwnReached(events, r, k);
      FreeAtPrefix(w, events, r, n);
      CommittingExactly(w, events[..n], r);
    }
  }

  lemma {:induction false} CommitsAtSome(t: Turn, free: bool, own: seq<Input>)
    ensures Commits(t, free, own) <==> exists k: nat :: k <= |own| && IsCommitting(t, free, own[..k])
  {
    if Commits(t, free, own) {
      var j: nat, b: nat :| BuiltAt(t, free, own, j, b) && (CommitsTurn(t) ==> ChainKept(own, j, b));
      var k := if CommitsTurn(t) then b + 3 else b + 1;
      BuiltPrefix(t, free, own, j, b, k);
      assert CommitsAt(t, free, own[..k], j, b);
    }
    if k: nat :| k <= |own| && IsCommitting(t, free, own[..k]) {
      var j: nat, b: nat :| CommitsAt(t, free, own[..k], j, b);
      BuiltLonger(t, free, own, j, b, k);
      assert CommitsTurn(t) ==> ChainKept(own, j, b);
    }
  }

  lemma {:induction false} BuiltPrefix(t: Turn, free: bool, own: seq<Input>, j: nat, b: nat, k: nat)
    requires BuiltAt(t, free, own, j, b) && b < k <= |own|
    ensures BuiltAt(t, free, own[..k], j, b)
  {
    EndedPrefix(t, free, own, j, k);
    hide Ended;
  }

  lemma {:induction false} BuiltLonger(t: Turn, free: bool, own: seq<Input>, j: nat, b: nat, k: nat)
    requires k <= |own| && BuiltAt(t, free, own[..k], j, b)
    ensures BuiltAt(t, free, own, j, b)
  {
    assert Ended(t, free, own, j);
    hide Ended;
  }

  /** A request is about to give back its lease with a transition exactly when its inputs say so. */
  lemma {:induction false} ReleasesExactly(w: World, events: seq<Event>, r: string, transition: LeaseState)
    requires Fresh(w) && r in w.turns
    ensures r in Run(w, events).turns
    ensures Run(w, events).turns[r].phase == ReleaseFirst(transition)
      <==> Exits(w.turns[r], KeyFree(w, events, r), Own(events, r), transition)
  {
    FreshTurn(w, r);
    OwnCourse(w, events, r);
    hide Run, Alone, Fresh, KeyFree, Own, Exits;
    AloneReleases(w.turns[r], KeyFree(w, events, r), Own(events, r), transition);
  }

  lemma {:induction false} AloneReleases(t: Turn, free: bool, own: seq<Input>, transition: LeaseState)
    requires Starts(t)
    ensures Alone(t, free, own).phase == ReleaseFirst(transition) <==> Exits(t, free, own, transition)
  {
    hide Alone, Course;
    AloneCourse(t, free, own);
    CommittingMeans(t, free, own, Alone(t, free, own));
    if Exits(t, free, own, transition) {
      match transition {
        case InFlight =>
        case CompletedCommitted => ReleasesCommitted(t, free, own);
        case CommitSuppressedAfterAbort => ReleasesSuppressed(t, free, own);
        case ClientAbortedBeforeFirstEvent => ReleasesAborted(t, free, own);
        case ClientAbortedAfterVisibleOutput =>
          if StreamAborted(t, free, own) && exists k :: 2 <= k < |own| && own[k].sent {
            ReleasesAborted(t, free, own);
          } else {
            ReleasesUnbuilt(t, free, own);
          }
        case BackendFailedBeforeCommit =>
          if |own| == 2 && Admitted(t, free, own) && !own[1].ok {
            ReleasesUnsent(t, free, own);
          } else {
            ReleasesUnbuilt(t, free, own);
          }
      }
    }
  }

  lemma {:induction false} ReleasesUnsent(t: Turn, free: bool, own: seq<Input>)
    requires Starts(t) && |own| == 2 && Admitted(t, free, own) && !own[1].ok
    ensures Alone(t, free, own).phase == ReleaseFirst(BackendFailedBeforeCommit)
  {
    ReachesSending(t, free, own);
    assert own[..|own|] == own;
    var now, next := Steps(t, free, own, 1);
    hide Alone, PhaseMeans, Fields;
  }

  lemma {:induction false} ReleasesUnbuilt(t: Turn, free: bool, own: seq<Input>)
    requires Starts(t) && AtBuilding(t, free, own) && !Built(t, own[|own| - 1])
    ensures Alone(t, free, own).phase
      == ReleaseFirst(if own[|own| - 1].ok then ClientAbortedAfterVisibleOutput else BackendFailedBeforeCommit)
  {
    hide Alone, Act, PhaseMeans, Fields, StoreFor, Ended, Course;
    var j: nat :| Ended(t, free, own, j) && j < |own| && |own| - 1 == BuildStep(t, own, j);
    ReachesBuilding(t, free, own, j);
    assert own[..|own|] == own;
    var now, next := Steps(t, free, own, |own| - 1);
    SameStream(t, free, own[..|own| - 1], now);
    ActBuilding(StoreFor(now, free), now, own[|own| - 1]);
  }

  lemma {:induction false} SameStream(t: Turn, free: bool, own: seq<Input>, now: Turn)
    requires Fields(t, free, own, now)
    ensures now.stream == t.stream
  {
  }

  lemma {:induction false} ReleasesCommitted(t: Turn, free: bool, own: seq<Input>)
    requires Starts(t) && Exits(t, free, own, CompletedCommitted)
    ensures Alone(t, free, own).phase == ReleaseFirst(CompletedCommitted)
  {
    hide Alone, Act, PhaseMeans, Fields, StoreFor, Course;
    AloneCommits(t, free, own[..|own| - 1]);
    assert own[..|own|] == own;
    var now, next := Steps(t, free, own, |own| - 1);
    ActCommitting(StoreFor(now, free), now, own[|own| - 1]);
  }

  lemma {:induction false} ReleasesSuppressed(t: Turn, free: bool, own: seq<Input>)
    requires Starts(t) && Exits(t, free, own, CommitSuppressedAfterAbort)
    ensures Alone(t, free, own).phase == ReleaseFirst(CommitSuppressedAfterAbort)
  {
    hide Alone, BuiltAt;
    var j: nat, b: nat :| BuiltAt(t, free, own, j, b) && |own| == b + 3 && ChainLost(own, j, b);
    ReachesValidated(t, free, own, j, b);
    assert own[..|own|] == own;
  }

  lemma {:induction false} ReleasesAborted(t: Turn, free: bool, own: seq<Input>)
    requires Starts(t) && StreamAborted(t, free, own)
    ensures Alone(t, free, own).phase.ReleaseFirst?
    ensures var transition := Alone(t, free, own).phase.transition;
            Exits(t, free, own, transition)
              && transition == if exists k :: 2 <= k < |own| && own[k].sent then ClientAbortedAfterVisibleOutput
                               else ClientAbortedBeforeFirstEvent
  {
    hide Alone, Act, PhaseMeans, Fields, StoreFor, Seen, Exits, Course;
    var n := |own| - 1;
    AbortedParts(t, free, own);
    ReachesRelaying(t, free, own, n);
    assert own[..|own|] == own && own[..n] + [own[n]] == own;
    var now, next := Steps(t, free, own, n);
    AloneCourse(t, free, own[..n]);
    CourseParts(t, free, own[..n], now);
    SeenWhileRelaying(t, free, own[..n], now);
    ActStreaming(StoreFor(now, free), now, own[n]);
    SeenNext(t, own[..n], now, own[n], next);
    AbortedHere(t, free, own, next);
    SeenMeans(t, own, next);
  }
}

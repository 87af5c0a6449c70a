/** Turns of many requests, interleaved: each request takes its lease, talks to the backend, promotes
    the live chain, validates, commits and releases, one atomic step at a time, while any other
    request may take steps in between. */
module Turn {
  import opened Json
  import opened Lease

  /** Where a request is. Between ReleaseFirst and ReleaseSecond the lease is gone, and another
      request may take the key. */
  datatype Phase =
    | Preparing
    | Sending
    | Streaming
    | ReadPromotion
    | Promoting(chain: Chain)
    | Building
    | ReadValidation
    | Validating(live: Option<Chain>)
    | Committing
    | ReleaseFirst(transition: LeaseState)
    | ReleaseSecond
    | Done

  /** `promoted` and `validated` are the live chains read at promotion and at validation. */
  datatype Turn = Turn(
    key: string,
    previousResponse: Option<string>,
    persisted: bool,
    visibleMain: bool,
    stream: bool,
    phase: Phase,
    held: bool,
    visible: bool,
    promoted: Option<Chain>,
    validated: Option<Chain>)

  /** Requests by their ids, which are distinct. */
  datatype World = World(leases: Leases, turns: map<string, Turn>)

  /** What the outside decides in a step: whether the call made succeeds, whether the client is gone,
      whether the backend stream has ended, whether an event was sent on, and the live chain read. */
  datatype Input = Input(ok: bool, clientGone: bool, ended: bool, sent: bool, liveChain: Option<Chain>)

  predicate CommitsTurn(t: Turn) {
    t.persisted && t.visibleMain
  }

  predicate Releasing(p: Phase) {
    p.ReleaseFirst? || p.ReleaseSecond? || p.Done?
  }

  /** The store and the request after one of its steps. */
  datatype Moved = Moved(leases: Leases, turn: Turn)

  /** One atomic step of request `r`. */
  function Act(leases: Leases, r: string, t: Turn, i: Input): Moved {
    match t.phase
    case Preparing => Prepare(leases, r, t, i)
    case Sending =>
      Goto(leases, t, if !i.ok then ReleaseFirst(BackendFailedBeforeCommit)
                      else if t.stream then Streaming
                      else AfterSend(t))
    case Streaming => RunStream(leases, t, i)
    case ReadPromotion =>
      Goto(leases, t.(promoted := i.liveChain), if i.liveChain.Some? then Promoting(i.liveChain.value) else Building)
    case Promoting(chain) => Goto(Promote(leases, t.key, r, Some(chain)), t, Building)
    case Building =>
      Goto(leases, t, if !i.ok then ReleaseFirst(BackendFailedBeforeCommit)
                      else if !t.stream && i.clientGone then ReleaseFirst(ClientAbortedAfterVisibleOutput)
                      else if t.held then ReadValidation
                      else Committing)
    case ReadValidation => Goto(leases, t.(validated := i.liveChain), Validating(i.liveChain))
    case Validating(live) =>
      Goto(leases, t, if Validate(leases, t.key, r, live).None? then Committing
        else ReleaseFirst(CommitSuppressedAfterAbort))
    case Committing => Goto(leases, t, ReleaseFirst(CompletedCommitted))
    case ReleaseFirst(transition) =>
      if !t.held then Goto(leases, t, Done) else Goto(Commit(leases, t.key, r, transition), t, ReleaseSecond)
    case ReleaseSecond => Goto(Release(leases, t.key, r), t, Done)
    case Done => Moved(leases, t)
  }

  function Next(w: World, r: string, i: Input): World {
    if r !in w.turns then w
    else
      var moved := Act(w.leases, r, w.turns[r], i);
      World(moved.leases, w.turns[r := moved.turn])
  }

  function Goto(leases: Leases, t: Turn, phase: Phase): Moved {
    Moved(leases, t.(phase := phase))
  }

  function AfterSend(t: Turn): Phase {
    if t.held then ReadPromotion else Building
  }

  /** Only a persisted visible-main turn takes a lease; a busy key turns the request away. */
  function Prepare(leases: Leases, r: string, t: Turn, i: Input): Moved {
    if !i.ok then Goto(leases, t, Done)
    else if !CommitsTurn(t) then Goto(leases, t, Sending)
    else if t.key in leases then Goto(leases, t, Done)
    else Goto(Acquire(leases, t.key, r, t.previousResponse), t.(held := true), Sending)
  }

  /** One turn of the relaying loop, or its end. */
  function RunStream(leases: Leases, t: Turn, i: Input): Moved {
    var t1 := t.(visible := t.visible || i.sent);
    if i.clientGone then
      Goto(leases, t1, ReleaseFirst(if t1.visible then ClientAbortedAfterVisibleOutput
        else ClientAbortedBeforeFirstEvent))
    else if i.ended then Goto(leases, t1, AfterSend(t))
    else Goto(leases, t1, Streaming)
  }

  datatype Event = Event(requestId: string, input: Input)

  /** Any interleaving. */
  function Run(w: World, events: seq<Event>): World
    decreases |events|
  {
    if events == [] then w
    else
      var n := |events| - 1;
      Next(Run(w, events[..n]), events[n].requestId, events[n].input)
  }

  ghost predicate Fresh(w: World) {
    && w.leases == map[]
    && forall r | r in w.turns ::
         w.turns[r].phase == Preparing && !w.turns[r].held && !w.turns[r].visible && w.turns[r].promoted == None
  }

  // ----- the invariant -----

  ghost predicate HoldsNone(leases: Leases, r: string) {
    forall k :: !Owns(leases, k, r)
  }

  /** What one request's phase says about the store. */
  ghost predicate TurnOk(leases: Leases, r: string, t: Turn) {
    if t.held && !t.phase.ReleaseSecond? && !t.phase.Done? then
      && Owns(leases, t.key, r)
      && leases[t.key].state == InFlight
      && (!t.phase.ReleaseFirst? ==> leases[t.key].chain == Promised(t))
      && (t.phase.Validating? ==> t.phase.live == t.validated)
      && (t.phase.Committing? ==> t.validated == t.promoted)
    else
      && HoldsNone(leases, r)
      && (CommitsTurn(t) ==> t.phase.Preparing? || Releasing(t.phase))
  }

  /** The chain the lease must carry. */
  function Promised(t: Turn): Option<Chain> {
    if t.phase.Promoting? then None else t.promoted
  }

  ghost predicate PhaseOk(t: Turn) {
    && (t.phase.Promoting? ==> t.held && t.promoted == Some(t.phase.chain))
    && (t.phase.Preparing? ==> !t.held && t.promoted == None)
    && (t.phase.Sending? || t.phase.Streaming? || t.phase.ReadPromotion? ==> t.promoted == None)
    && (t.phase.ReadPromotion? || t.phase.ReadValidation? || t.phase.Validating? || t.phase.ReleaseSecond? ==> t.held)
  }

  ghost predicate Inv(w: World) {
    && (forall r | r in w.turns :: TurnOk(w.leases, r, w.turns[r]) && PhaseOk(w.turns[r]))
    && (forall k | k in w.leases :: w.leases[k].requestId in w.turns && w.turns[w.leases[k].requestId].key == k)
  }

  // ----- steps of others -----

  lemma {:induction false} ActLeavesOthers(leases: Leases, key: string, mine: string, other: string, t: Turn, i: Input)
    requires other != mine
    ensures var after := Act(leases, other, t, i).leases;
            && (Owns(after, key, mine) <==> Owns(leases, key, mine))
            && (Owns(leases, key, mine) ==> after[key] == leases[key])
  {
  }

  /** No step of another request changes the lease a request holds, or gives it one. */
  lemma {:induction false} OthersLeaveMyLease(w: World, key: string, mine: string, other: string, i: Input)
    requires other != mine
    ensures var after := Next(w, other, i).leases;
            && (Owns(after, key, mine) <==> Owns(w.leases, key, mine))
            && (Owns(w.leases, key, mine) ==> after[key] == w.leases[key])
  {
    hide Act;
    if other in w.turns { ActLeavesOthers(w.leases, key, mine, other, w.turns[other], i); }
  }

  lemma {:induction false} OtherTurnsKept(w: World, mine: string, other: string, i: Input)
    requires other != mine && mine in w.turns && TurnOk(w.leases, mine, w.turns[mine])
    ensures TurnOk(Next(w, other, i).leases, mine, w.turns[mine])
  {
    hide Next;
    var after := Next(w, other, i).leases;
    forall k ensures Owns(after, k, mine) <==> Owns(w.leases, k, mine) {
      OthersLeaveMyLease(w, k, mine, other, i);
    }
    OthersLeaveMyLease(w, w.turns[mine].key, mine, other, i);
  }

  // ----- own steps -----

  /** Steps that touch the store. */
  predicate TouchesStore(p: Phase) {
    p.Preparing? || p.Promoting? || p.ReleaseFirst? || p.ReleaseSecond?
  }

  lemma {:induction false} OwnStep(leases: Leases, r: string, t: Turn, i: Input)
    requires TurnOk(leases, r, t) && PhaseOk(t) && forall k | Owns(leases, k, r) :: k == t.key
    ensures var moved := Act(leases, r, t, i);
            TurnOk(moved.leases, r, moved.turn) && PhaseOk(moved.turn) && moved.turn.key == t.key
  {
    hide Act, TurnOk, PhaseOk;
    if TouchesStore(t.phase) {
      StoreStep(leases, r, t, i);
    } else {
      QuietStep(leases, r, t, i);
    }
  }

  lemma {:induction false} QuietStep(leases: Leases, r: string, t: Turn, i: Input)
    requires TurnOk(leases, r, t) && PhaseOk(t) && !TouchesStore(t.phase)
    ensures var moved := Act(leases, r, t, i);
            TurnOk(moved.leases, r, moved.turn) && PhaseOk(moved.turn) && moved.turn.key == t.key
  {
    hide HoldsNone, Owns, Validate;
    if t.phase.Sending? || t.phase.Streaming? || t.phase.ReadPromotion? {
      EarlyStep(leases, r, t, i);
    } else if t.phase.Building? || t.phase.ReadValidation? {
      MiddleStep(leases, r, t, i);
    } else {
      if t.phase.Validating? { ValidateMeans(leases, t.key, r, t.phase.live); }
      LateStep(leases, r, t, i);
    }
  }

  lemma {:induction false} MiddleStep(leases: Leases, r: string, t: Turn, i: Input)
    requires TurnOk(leases, r, t) && PhaseOk(t) && (t.phase.Building? || t.phase.ReadValidation?)
    ensures var moved := Act(leases, r, t, i);
            TurnOk(moved.leases, r, moved.turn) && PhaseOk(moved.turn) && moved.turn.key == t.key
  {
    hide HoldsNone, Owns, Validate;
  }

  lemma {:induction false} LateStep(leases: Leases, r: string, t: Turn, i: Input)
    requires TurnOk(leases, r, t) && PhaseOk(t) && (t.phase.Validating? || t.phase.Committing? || t.phase.Done?)
    requires t.phase.Validating? && Validate(leases, t.key, r, t.phase.live).None?
      ==> Owns(leases, t.key, r) && leases[t.key].chain == t.phase.live
    ensures var moved := Act(leases, r, t, i);
            TurnOk(moved.leases, r, moved.turn) && PhaseOk(moved.turn) && moved.turn.key == t.key
  {
    hide HoldsNone, Validate;
  }

  lemma {:induction false} EarlyStep(leases: Leases, r: string, t: Turn, i: Input)
    requires TurnOk(leases, r, t) && PhaseOk(t) && (t.phase.Sending? || t.phase.Streaming? || t.phase.ReadPromotion?)
    ensures var moved := Act(leases, r, t, i);
            TurnOk(moved.leases, r, moved.turn) && PhaseOk(moved.turn) && moved.turn.key == t.key
  {
    hide HoldsNone, Owns, Validate;
  }

  lemma {:induction false} ValidateMeans(leases: Leases, key: string, r: string, live: Option<Chain>)
    ensures Validate(leases, key, r, live).None?
      <==> Owns(leases, key, r) && AllowsCommit(leases[key].state) && leases[key].chain == live
  {
  }

  lemma {:induction false} StoreStep(leases: Leases, r: string, t: Turn, i: Input)
    requires TurnOk(leases, r, t) && PhaseOk(t) && TouchesStore(t.phase)
    requires forall k | Owns(leases, k, r) :: k == t.key
    ensures var moved := Act(leases, r, t, i);
            TurnOk(moved.leases, r, moved.turn) && PhaseOk(moved.turn) && moved.turn.key == t.key
  {
    match t.phase {
      case Preparing =>
      case Promoting(chain) =>
      case ReleaseFirst(transition) =>
        if t.held {
          assert leases[t.key].state == InFlight;
          forall k ensures !Owns(leases - {t.key}, k, r) {
            assert Owns(leases, k, r) ==> k == t.key;
          }
        }
      case ReleaseSecond =>
        assert Release(leases, t.key, r) == leases;
    }
  }

  lemma {:induction false} ActLeases(leases: Leases, r: string, t: Turn, i: Input, k: string)
    requires k in Act(leases, r, t, i).leases
    ensures var after := Act(leases, r, t, i).leases;
            (k in leases && after[k].requestId == leases[k].requestId) || (k == t.key && after[k].requestId == r)
  {
  }

  lemma {:induction false} InvKept(w: World, r: string, i: Input)
    requires Inv(w)
    ensures Inv(Next(w, r, i))
  {
    if r in w.turns {
      var t, after := w.turns[r], Next(w, r, i);
      OwnStep(w.leases, r, t, i);
      hide Act, TurnOk, PhaseOk;
      forall x | x in after.turns ensures TurnOk(after.leases, x, after.turns[x]) && PhaseOk(after.turns[x]) {
        if x != r { OtherTurnsKept(w, x, r, i); }
      }
      forall k | k in after.leases
        ensures after.leases[k].requestId in after.turns && after.turns[after.leases[k].requestId].key == k
      {
        ActLeases(w.leases, r, t, i, k);
      }
    }
  }

  lemma {:induction false} RunInv(w: World, events: seq<Event>)
    requires Fresh(w)
    ensures Inv(Run(w, events))
    decreases |events|
  {
    hide Next;
    if events != [] {
      var n := |events| - 1;
      RunInv(w, events[..n]);
      InvKept(Run(w, events[..n]), events[n].requestId, events[n].input);
    }
  }

  // ----- what holds in every interleaving -----

  /** Some interleaving of requests that all start from nothing leads here. */
  ghost predicate Reachable(now: World) {
    exists w, events :: Fresh(w) && Run(w, events) == now
  }

  lemma {:induction false} ReachableInv(now: World)
    requires Reachable(now)
    ensures Inv(now)
  {
    hide Run, Fresh, Inv;
    var w, events :| Fresh(w) && Run(w, events) == now;
    RunInv(w, events);
  }

  /** A request that is committing a main turn holds its lease, the lease would still be accepted,
      and the live chain it read at validation is the one it read at promotion. */
  lemma {:induction false} CommitIsGated(now: World, r: string)
    requires Reachable(now) && r in now.turns && now.turns[r].phase.Committing? && CommitsTurn(now.turns[r])
    ensures var t := now.turns[r];
            && Owns(now.leases, t.key, r)
            && Validate(now.leases, t.key, r, t.validated).None?
            && t.promoted == t.validated
  {
    hide Reachable;
    ReachableInv(now);
    assert TurnOk(now.leases, r, now.turns[r]);
  }

  /** Main-turn commits on one key never overlap. */
  lemma {:induction false} CommitsNeverOverlap(now: World, a: string, b: string)
    requires Reachable(now) && a in now.turns && b in now.turns && now.turns[a].key == now.turns[b].key
    requires now.turns[a].phase.Committing? && CommitsTurn(now.turns[a])
    requires now.turns[b].phase.Committing? && CommitsTurn(now.turns[b])
    ensures a == b
  {
    hide Reachable;
    CommitIsGated(now, a);
    CommitIsGated(now, b);
  }

  /** However a request ends, it leaves no lease of its own behind, under any key. */
  lemma {:induction false} DoneHoldsNothing(now: World, r: string, k: string)
    requires Reachable(now) && r in now.turns && now.turns[r].phase.Done?
    ensures !Owns(now.leases, k, r)
  {
    hide Reachable;
    ReachableInv(now);
    assert TurnOk(now.leases, r, now.turns[r]);
  }

  /** And every lease in the store is in flight and belongs to a request that has yet to release it. */
  lemma {:induction false} StoredLeasesInFlight(now: World, k: string)
    requires Reachable(now) && k in now.leases
    ensures var r := now.leases[k].requestId;
            && now.leases[k].state == InFlight
            && r in now.turns && now.turns[r].key == k && now.turns[r].held
            && !now.turns[r].phase.ReleaseSecond? && !now.turns[r].phase.Done?
  {
    hide Reachable;
    ReachableInv(now);
    var r := now.leases[k].requestId;
    assert TurnOk(now.leases, r, now.turns[r]);
    assert Owns(now.leases, k, r);
  }

  // ----- a validation that was accepted stays accepted -----

  lemma {:induction false} OthersKeepValidation(w: World, mine: string, key: string, chain: Option<Chain>,
                                                events: seq<Event>)
    requires Validate(w.leases, key, mine, chain).None?
    requires forall e | e in events :: e.requestId != mine
    ensures Validate(Run(w, events).leases, key, mine, chain).None?
    decreases |events|
  {
    hide Next;
    if events != [] {
      var n := |events| - 1;
      assert events[n] in events && forall e | e in events[..n] :: e in events;
      OthersKeepValidation(w, mine, key, chain, events[..n]);
      OthersLeaveMyLease(Run(w, events[..n]), key, mine, events[n].requestId, events[n].input);
    }
  }

  // ----- the gap between Commit and Release -----

  const GO := Input(true, false, true, true, None)

  function Steps(r: string, n: nat): seq<Event> {
    seq(n, i => Event(r, GO))
  }

  lemma {:induction false} OneMore(w: World, events: seq<Event>, r: string, i: Input)
    ensures Run(w, events + [Event(r, i)]) == Next(Run(w, events), r, i)
  {
    assert (events + [Event(r, i)])[..|events|] == events;
  }

  /** Request "a" at a phase, request "b" not yet started. */
  function At(leases: Leases, a: Turn, b: Turn, phase: Phase): World {
    World(leases, map["a" := a.(phase := phase), "b" := b])
  }

  /** Request "a" takes one more step. */
  lemma {:induction false} StepTo(w: World, n: nat, leases: Leases, a: Turn, b: Turn, phase: Phase, leases': Leases,
                                  phase': Phase)
    requires Run(w, Steps("a", n)) == At(leases, a, b, phase)
    requires Act(leases, "a", a.(phase := phase), GO) == Moved(leases', a.(phase := phase'))
    ensures Run(w, Steps("a", n + 1)) == At(leases', a, b, phase')
  {
    hide Act, Next, At, Run;
    OneMore(w, Steps("a", n), "a", GO);
    assert Steps("a", n + 1) == Steps("a", n) + [Event("a", GO)];
    NextAt(leases, a, b, phase, leases', phase');
  }

  lemma {:induction false} NextAt(leases: Leases, a: Turn, b: Turn, phase: Phase, leases': Leases, phase': Phase)
    requires Act(leases, "a", a.(phase := phase), GO) == Moved(leases', a.(phase := phase'))
    ensures Next(At(leases, a, b, phase), "a", GO) == At(leases', a, b, phase')
  {
    hide Act;
    assert At(leases, a, b, phase).turns["a" := a.(phase := phase')] == At(leases', a, b, phase').turns;
  }

  /** Another request can take the key between the two halves of a release, and the second half
      leaves its lease alone. */
  lemma {:induction false} KeyTakenBetweenReleases(key: string)
    ensures var t := Turn(key, None, true, true, false, Preparing, false, false, None, None);
            var w := World(map[], map["a" := t, "b" := t]);
            var mid := Run(w, Steps("a", 8) + [Event("b", GO)]);
            && Fresh(w)
            && "a" in mid.turns && mid.turns["a"].phase.ReleaseSecond? && Owns(mid.leases, key, "b")
            && Owns(Next(mid, "a", GO).leases, key, "b")
  {
    assert "a" != "b";
    var t := Turn(key, None, true, true, false, Preparing, false, false, None, None);
    var h := t.(held := true);
    var w := World(map[], map["a" := t, "b" := t]);
    var mine := map[key := Lease("a", None, None, InFlight)];
    hide Run, At, Act, Next;
    FirstStep(w, key, t);
    FirstMoves(w, h, t, mine);
    LastMoves(w, h, t, mine);
    OneMore(w, Steps("a", 8), "b", GO);
    SecondTakes(key, h, t);
    FreshPair(key, t);
  }

  lemma {:induction false} FreshPair(key: string, t: Turn)
    requires t == Turn(key, None, true, true, false, Preparing, false, false, None, None)
    ensures Fresh(World(map[], map["a" := t, "b" := t]))
  {
  }

  lemma {:induction false} FirstMoves(w: World, h: Turn, t: Turn, mine: Leases)
    requires h.held && !h.stream && Run(w, Steps("a", 1)) == At(mine, h, t, Sending) && h.promoted == None
    ensures Run(w, Steps("a", 4)) == At(mine, h, t, ReadValidation)
  {
    hide Run, At;
    StepTo(w, 1, mine, h, t, Sending, mine, ReadPromotion);
    StepTo(w, 2, mine, h, t, ReadPromotion, mine, Building);
    StepTo(w, 3, mine, h, t, Building, mine, ReadValidation);
  }

  lemma {:induction false} LastMoves(w: World, h: Turn, t: Turn, mine: Leases)
    requires h.held && h.validated == None && mine == map[h.key := Lease("a", None, None, InFlight)]
    requires Run(w, Steps("a", 4)) == At(mine, h, t, ReadValidation)
    ensures Run(w, Steps("a", 8)) == At(map[], h, t, ReleaseSecond)
  {
    hide Run, At;
    StepTo(w, 4, mine, h, t, ReadValidation, mine, Validating(None));
    StepTo(w, 5, mine, h, t, Validating(None), mine, Committing);
    StepTo(w, 6, mine, h, t, Committing, mine, ReleaseFirst(CompletedCommitted));
    StepTo(w, 7, mine, h, t, ReleaseFirst(CompletedCommitted), map[], ReleaseSecond);
  }

  lemma {:induction false} FirstStep(w: World, key: string, t: Turn)
    requires t == Turn(key, None, true, true, false, Preparing, false, false, None, None)
    requires w == World(map[], map["a" := t, "b" := t])
    ensures Run(w, Steps("a", 1)) == At(map[key := Lease("a", None, None, InFlight)], t.(held := true), t, Sending)
  {
    OneMore(w, [], "a", GO);
    assert Steps("a", 1) == [] + [Event("a", GO)];
    assert "a" != "b";
  }

  lemma {:induction false} SecondTakes(key: string, h: Turn, t: Turn)
    requires t == Turn(key, None, true, true, false, Preparing, false, false, None, None) && h == t.(held := true)
    ensures var mid := Next(At(map[], h, t, ReleaseSecond), "b", GO);
            && "a" in mid.turns && mid.turns["a"].phase.ReleaseSecond? && Owns(mid.leases, key, "b")
            && Owns(Next(mid, "a", GO).leases, key, "b")
  {
    assert "a" != "b";
  }
}

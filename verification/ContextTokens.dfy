/** Edits that count tokens: when a pass of them is idempotent, and when their order does not matter. */
module ContextTokens {
  import opened Json
  import opened Context
  import opened ContextPairs
  import opened ContextLaws
  import opened ContextAccounts
  import opened ContextLimits

  // ----- an edit either paints its marks or does nothing -----

  /** What an edit marks if neither its trigger nor its gate keeps it from it. */
  function Potential(ms: seq<Message>, edit: Edit): set<Mark> {
    if IsThinkingEdit(edit) then ThinkingEditMarks(ms, edit.keep)
    else if IsToolEdit(edit) then ToolPolicyMarks(ms, PolicyOf(edit))
    else {}
  }

  /** Whether trigger and gate let the edit through. */
  predicate Open(size: Size, ms: seq<Message>, edit: Edit) {
    IsThinkingEdit(edit) || !IsToolEdit(edit) || ToolEditOpen(size, ms, edit)
  }

  predicate ToolEditOpen(size: Size, ms: seq<Message>, edit: Edit) {
    var xs, policy := Collect(ms), PolicyOf(edit);
    CollectIn(ms);
    && TriggerActive(size, ms, xs, edit.trigger)
    && !GateCloses(edit.clearAtLeast, PickedChars(size, ms, xs, Candidates(xs, policy), policy.clearInputs))
  }

  lemma {:induction false} EditOpensOrNot(size: Size, ms: seq<Message>, edit: Edit)
    ensures ApplyEdit(size, ms, edit).messages == if Open(size, ms, edit) then Paint(ms, Potential(ms, edit)) else ms
  {
    hide Paint, Collect, Candidates, KeepThinkingTurns, PolicyOf;
    hide TurnMarks, OldTurns, PickedMarks, PickedChars, TriggerActive, GateCloses;
    PaintNothing(ms);
    if !IsThinkingEdit(edit) && IsToolEdit(edit) {
      CollectIn(ms);
      PolicyKeepsGate(edit);
      if Collect(ms) == [] { NothingPicked(PolicyOf(edit)); }
    }
  }

  lemma {:induction false} PotentialShape(a: seq<Message>, b: seq<Message>, edit: Edit)
    requires SameShape(a, b)
    ensures Potential(a, edit) == Potential(b, edit)
  {
    hide ThinkingEditMarks, ToolPolicyMarks, SameShape;
    ThinkingMarksShape(a, b, edit.keep);
    ToolMarksShape(a, b, PolicyOf(edit));
  }

  /** Any single edit is idempotent, whatever it counts. */
  lemma {:induction false} SingleEditIdempotent(size: Size, ms: seq<Message>, edit: Edit)
    ensures var once := ApplyEdit(size, ms, edit).messages;
            ApplyEdit(size, once, edit).messages == once
  {
    hide Paint, Potential, Open, ApplyEdit;
    EditOpensOrNot(size, ms, edit);
    var marks := Potential(ms, edit);
    var once := ApplyEdit(size, ms, edit).messages;
    EditOpensOrNot(size, once, edit);
    PaintKeepsShape(ms, marks);
    if Open(size, ms, edit) {
      PotentialShape(ms, once, edit);
      PaintTwice(ms, marks, marks);
      assert marks + marks == marks;
    }
  }

  // ----- marks that do not make anything longer -----

  predicate Grows(size: Size, ms: seq<Message>, m: Mark)
    requires IsRef(ms, m.at)
  {
    var b := BlockAt(ms, m.at);
    match m.part
    case Result => ToolResultChars(size, b) < size(TOOL_RESULT_PLACEHOLDER)
    case Input => JsonChars(size, b.input) < size(Obj(map[]))
    case Thinking => ThinkingChars(b) < |THINKING_PLACEHOLDER.s|
  }

  /** Marks on blocks of the kinds they are for, none of which grows. */
  predicate Shrinks(size: Size, ms: seq<Message>, marks: set<Mark>) {
    forall m | m in marks ::
      && IsRef(ms, m.at) && !Grows(size, ms, m)
      && (m.part.Result? ==> BlockAt(ms, m.at).blockType == "tool_result")
      && (m.part.Thinking? ==> IsThinking(BlockAt(ms, m.at).blockType))
  }

  /** The four things that are counted in a block. */
  predicate NotMore(size: Size, a: Block, b: Block) {
    && ToolResultChars(size, a) <= ToolResultChars(size, b) && RuneLen(a.text) <= RuneLen(b.text)
    && JsonChars(size, a.input) <= JsonChars(size, b.input) && ThinkingChars(a) <= ThinkingChars(b)
  }

  lemma {:induction false} PaintedNotMore(size: Size, ms: seq<Message>, some: set<Mark>, more: set<Mark>, r: Ref)
    requires some <= more && Shrinks(size, ms, more) && IsRef(ms, r)
    ensures NotMore(size, PaintAt(BlockAt(ms, r), r, more), PaintAt(BlockAt(ms, r), r, some))
  {
    var b := BlockAt(ms, r);
    KindsApart(b.blockType);
    assert Mark(r, Result) in more ==> !(Mark(r, Thinking) in more);
  }

  lemma {:induction false} KindsApart(t: string)
    ensures !(t == "tool_result" && IsThinking(t))
  {
    assert |"tool_result"| == 11 && |"thinking"| == 8 && |"redacted_thinking"| == 17;
  }

  /** Of two paintings of one history the one with more marks counts no more, in total or for a choice of
      interactions. */
  ghost predicate AllNotMore(size: Size, a: seq<Message>, b: seq<Message>) {
    && |a| == |b|
    && (forall i | 0 <= i < |a| :: a[i].text == b[i].text && |a[i].blocks| == |b[i].blocks|)
    && forall r | IsRef(a, r) :: NotMore(size, BlockAt(a, r), BlockAt(b, r))
  }

  lemma {:induction false} PaintingsNotMore(size: Size, ms: seq<Message>, some: set<Mark>, more: set<Mark>)
    requires some <= more && Shrinks(size, ms, more)
    ensures AllNotMore(size, Paint(ms, more), Paint(ms, some))
  {
    forall r | IsRef(Paint(ms, more), r)
      ensures NotMore(size, BlockAt(Paint(ms, more), r), BlockAt(Paint(ms, some), r))
    {
      hide NotMore;
      PaintedAt(ms, some, r);
      PaintedAt(ms, more, r);
      PaintedNotMore(size, ms, some, more, r);
    }
  }

  lemma {:induction false} BlocksNotMore(size: Size, a: seq<Block>, b: seq<Block>)
    requires |a| == |b| && forall j | 0 <= j < |a| :: NotMore(size, a[j], b[j])
    ensures BlocksChars(size, a) <= BlocksChars(size, b)
    decreases |a|
  {
    if a != [] {
      var n := |a| - 1;
      BlocksNotMore(size, a[..n], b[..n]);
      assert NotMore(size, a[n], b[n]);
    }
  }

  lemma {:induction false} MessagesNotMore(size: Size, a: seq<Message>, b: seq<Message>)
    requires AllNotMore(size, a, b)
    ensures MessagesChars(size, a) <= MessagesChars(size, b)
    decreases |a|
  {
    hide NotMore;
    if a != [] {
      var n := |a| - 1;
      forall j | 0 <= j < |a[n].blocks| ensures NotMore(size, a[n].blocks[j], b[n].blocks[j]) {
        assert IsRef(a, Ref(n, j)) && BlockAt(a, Ref(n, j)) == a[n].blocks[j];
      }
      BlocksNotMore(size, a[n].blocks, b[n].blocks);
      forall r | IsRef(a[..n], r) ensures NotMore(size, BlockAt(a[..n], r), BlockAt(b[..n], r)) {
        assert IsRef(a, r) && BlockAt(a, r) == BlockAt(a[..n], r) && BlockAt(b, r) == BlockAt(b[..n], r);
      }
      MessagesNotMore(size, a[..n], b[..n]);
    }
  }

  lemma {:induction false} ResultsNotMore(size: Size, a: seq<Message>, b: seq<Message>, refs: seq<Ref>)
    requires AllNotMore(size, a, b) && AreRefs(a, refs) && AreRefs(b, refs)
    ensures ResultChars(size, a, refs) <= ResultChars(size, b, refs)
    decreases |refs|
  {
    if refs != [] {
      ResultsNotMore(size, a, b, refs[..|refs| - 1]);
      assert NotMore(size, BlockAt(a, refs[|refs| - 1]), BlockAt(b, refs[|refs| - 1]));
    }
  }

  lemma {:induction false} PickedNotMore(size: Size, a: seq<Message>, b: seq<Message>, xs: seq<Interaction>,
                                         picked: seq<nat>, inputs: bool)
    requires AllNotMore(size, a, b) && AllIn(a, xs) && AllIn(b, xs) && Picks(xs, picked)
    ensures PickedChars(size, a, xs, picked, inputs) <= PickedChars(size, b, xs, picked, inputs)
    decreases |picked|
  {
    hide AllNotMore;
    if picked != [] {
      var n := |picked| - 1;
      var x := xs[picked[n]];
      PickedNotMore(size, a, b, xs, picked[..n], inputs);
      ResultsNotMore(size, a, b, x.toolResults);
      InputNotMore(size, a, b, x.toolUse);
    }
  }

  lemma {:induction false} InputNotMore(size: Size, a: seq<Message>, b: seq<Message>, r: Ref)
    requires AllNotMore(size, a, b) && IsRef(a, r) && IsRef(b, r)
    ensures JsonChars(size, BlockAt(a, r).input) <= JsonChars(size, BlockAt(b, r).input)
  {
    assert NotMore(size, BlockAt(a, r), BlockAt(b, r));
  }

  /** What is open after more painting was open after less. */
  lemma {:induction false} OpenBefore(size: Size, ms: seq<Message>, some: set<Mark>, more: set<Mark>, edit: Edit)
    requires some <= more && Shrinks(size, ms, more) && Open(size, Paint(ms, more), edit)
    ensures Open(size, Paint(ms, some), edit)
  {
    var a, b := Paint(ms, more), Paint(ms, some);
    PaintingsNotMore(size, ms, some, more);
    PaintKeepsShape(ms, some);
    PaintKeepsShape(ms, more);
    ScanShape(ms, a, Scanned([], map[]), 0, 0);
    ScanShape(ms, b, Scanned([], map[]), 0, 0);
    CollectIn(a);
    CollectIn(b);
    hide Paint, Collect, Candidates, AllNotMore, Shrinks, SameShape, PolicyOf, PickedChars, MessagesChars;
    if !IsThinkingEdit(edit) && IsToolEdit(edit) {
      var xs, policy := Collect(a), PolicyOf(edit);
      CandidatesIncreasing(xs, policy);
      PickedNotMore(size, a, b, xs, Candidates(xs, policy), policy.clearInputs);
      MessagesNotMore(size, a, b);
    }
  }

  // ----- a pass of any edits -----

  /** All that the edits might mark. */
  function PotentialAll(ms: seq<Message>, edits: seq<Edit>): set<Mark> {
    set e, m | e in edits && m in Potential(ms, e) :: m
  }

  /** All that a pass might mark. */
  function PassMarks(size: Size, ms: seq<Message>, edits: seq<Edit>, limits: HardLimits): set<Mark> {
    PotentialAll(ms, edits) + LimitShapeMarks(ms, limits) + LimitSizeMarks(size, ms, limits)
  }

  /** The condition on the input: nothing the pass might clear has fewer characters than what replaces it. */
  predicate NothingGrows(size: Size, ms: seq<Message>, edits: seq<Edit>, limits: HardLimits) {
    forall m | m in PassMarks(size, ms, edits, limits) :: IsRef(ms, m.at) && !Grows(size, ms, m)
  }

  /** Marks on blocks of the kinds they are for. */
  predicate Sane(ms: seq<Message>, m: Mark) {
    && IsRef(ms, m.at)
    && (m.part.Result? ==> BlockAt(ms, m.at).blockType == "tool_result")
    && (m.part.Thinking? ==> IsThinking(BlockAt(ms, m.at).blockType))
  }

  lemma {:induction false} ToolMarksSane(ms: seq<Message>, policy: ToolPolicy, m: Mark)
    requires m in ToolPolicyMarks(ms, policy)
    ensures Sane(ms, m)
  {
    CollectPairs(ms);
    hide Collect, Candidates, Answers;
    var xs, picked := Collect(ms), Candidates(Collect(ms), policy);
    PickedMarkFrom(xs, picked, policy.clearInputs, m);
    var i :| 0 <= i < |picked| && m in InteractionMarks(xs[picked[i]], policy.clearInputs);
    var x := xs[picked[i]];
    if m.part.Result? {
      AnswerIsResult(ms, m.at, x.toolUse);
    } else {
      assert m.at == x.toolUse && IsUse(ms, x.toolUse);
    }
  }

  lemma {:induction false} AnswerIsResult(ms: seq<Message>, result: Ref, use: Ref)
    requires Answers(ms, result, use)
    ensures IsRef(ms, result) && BlockAt(ms, result).blockType == "tool_result"
  {
  }

  lemma {:induction false} TurnMarksSane(ms: seq<Message>, turns: seq<nat>, m: Mark)
    requires AreTurns(ms, turns) && m in TurnMarks(ms, turns)
    ensures Sane(ms, m)
  {
    hide IsThinking;
  }

  lemma {:induction false} PotentialSane(ms: seq<Message>, edit: Edit, m: Mark)
    requires m in Potential(ms, edit)
    ensures Sane(ms, m)
  {
    hide ToolPolicyMarks, TurnMarks, OldTurns, KeepThinkingTurns, Sane, IsThinkingEdit, IsToolEdit, PolicyOf;
    if IsThinkingEdit(edit) {
      var keep := KeepThinkingTurns(edit.keep).value;
      TurnMarksSane(ms, OldTurns(ms, keep), m);
    } else {
      ToolMarksSane(ms, PolicyOf(edit), m);
    }
  }

  lemma {:induction false} LimitMarksSane(size: Size, ms: seq<Message>, limits: HardLimits, m: Mark)
    requires m in LimitShapeMarks(ms, limits) + LimitSizeMarks(size, ms, limits)
    ensures Sane(ms, m)
  {
    hide ToolPolicyMarks, TurnMarks, OldTurns;
    if limits.toolUses.Some? && m in ToolPolicyMarks(ms, LimitPolicy(limits.toolUses.value)) {
      ToolMarksSane(ms, LimitPolicy(limits.toolUses.value), m);
    } else if limits.thinkingTurns.Some? && m in TurnMarks(ms, OldTurns(ms, limits.thinkingTurns.value)) {
      TurnMarksSane(ms, OldTurns(ms, limits.thinkingTurns.value), m);
    }
  }

  lemma {:induction false} PassShrinks(size: Size, ms: seq<Message>, edits: seq<Edit>, limits: HardLimits)
    requires NothingGrows(size, ms, edits, limits)
    ensures Shrinks(size, ms, PassMarks(size, ms, edits, limits))
  {
    hide Potential, LimitShapeMarks, LimitSizeMarks, Grows;
    forall m | m in PassMarks(size, ms, edits, limits) ensures Sane(ms, m) {
      hide Sane;
      if m in PotentialAll(ms, edits) {
        var e :| e in edits && m in Potential(ms, e);
        PotentialSane(ms, e, m);
      } else {
        LimitMarksSane(size, ms, limits, m);
      }
    }
  }

  // ----- what a pass takes -----

  /** The marks taken by the first `n` edits. */
  function Taken(size: Size, ms: seq<Message>, edits: seq<Edit>, n: nat): set<Mark>
    requires n <= |edits|
  {
    if n == 0 then {}
    else
      var before := Taken(size, ms, edits, n - 1);
      before + if Open(size, Paint(ms, before), edits[n - 1]) then Potential(ms, edits[n - 1]) else {}
  }

  lemma {:induction false} TakenPaints(size: Size, ms: seq<Message>, edits: seq<Edit>, ignored: seq<string>, n: nat)
    requires n <= |edits|
    ensures ApplyEdits(size, ms, edits, ignored, n).messages == Paint(ms, Taken(size, ms, edits, n))
  {
    hide Paint, Open, Potential, ApplyEdit;
    if n == 0 {
      PaintNothing(ms);
    } else {
      TakenPaints(size, ms, edits, ignored, n - 1);
      var before := Taken(size, ms, edits, n - 1);
      var now, edit := Paint(ms, before), edits[n - 1];
      EditOpensOrNot(size, now, edit);
      PaintKeepsShape(ms, before);
      PotentialShape(ms, now, edit);
      PaintTwice(ms, before, Potential(ms, edit));
      assert before + {} == before;
    }
  }

  lemma {:induction false} TakenGrows(size: Size, ms: seq<Message>, edits: seq<Edit>, n: nat, m: nat)
    requires n <= m <= |edits|
    ensures Taken(size, ms, edits, n) <= Taken(size, ms, edits, m)
    decreases m
  {
    hide Open, Potential, Paint;
    if n < m { TakenGrows(size, ms, edits, n, m - 1); }
  }

  lemma {:induction false} TakenPotential(size: Size, ms: seq<Message>, edits: seq<Edit>, n: nat)
    requires n <= |edits|
    ensures Taken(size, ms, edits, n) <= PotentialAll(ms, edits)
  {
    hide Open, Potential, Paint;
    if n > 0 {
      TakenPotential(size, ms, edits, n - 1);
      assert edits[n - 1] in edits;
    }
  }

  /** The marks of a whole pass before the size limit, and those of the size limit. */
  function PassShape(size: Size, ms: seq<Message>, edits: seq<Edit>, limits: HardLimits): set<Mark> {
    Taken(size, ms, edits, |edits|) + LimitShapeMarks(ms, limits)
  }

  function PassBig(size: Size, ms: seq<Message>, edits: seq<Edit>, limits: HardLimits): set<Mark> {
    LimitSizeMarks(size, Paint(ms, PassShape(size, ms, edits, limits)), limits)
  }

  lemma {:induction false} PassPaints(size: Size, ms: seq<Message>, edits: seq<Edit>, ignored: seq<string>,
                                      limits: HardLimits)
    ensures Apply(size, ms, edits, ignored, limits).messages
      == Paint(ms, PassShape(size, ms, edits, limits) + PassBig(size, ms, edits, limits))
  {
    hide Paint, Taken, LimitShapeMarks, LimitSizeMarks, ApplyEdits, ApplyLimits;
    TakenPaints(size, ms, edits, ignored, |edits|);
    var taken := Taken(size, ms, edits, |edits|);
    var edited := Paint(ms, taken);
    PaintKeepsShape(ms, taken);
    LimitShapeMarksShape(ms, edited, limits);
    LimitsPaint(size, edited, limits);
    PaintTwice(ms, taken, LimitShapeMarks(ms, limits));
    PaintTwice(ms, PassShape(size, ms, edits, limits), PassBig(size, ms, edits, limits));
  }

  /** A result that is oversized after painting was oversized before, or has been painted. */
  lemma {:induction false} BigBefore(size: Size, ms: seq<Message>, marks: set<Mark>, limits: HardLimits)
    requires forall m | m in marks :: Sane(ms, m)
    ensures LimitSizeMarks(size, Paint(ms, marks), limits) <= marks + LimitSizeMarks(size, ms, limits)
  {
    if limits.resultChars.Some? {
      var limit := limits.resultChars.value;
      var after := Paint(ms, marks);
      forall m | m in OversizedMarks(size, after, limit) && m !in marks ensures m in OversizedMarks(size, ms, limit) {
        PaintedAt(ms, marks, m.at);
        hide Paint;
        var b := BlockAt(ms, m.at);
        PaintKeepsFrame(b, m.at, marks);
        FrameFields(PaintAt(b, m.at, marks), b);
        KindsApart(b.blockType);
        ElsewhereKept(b, m.at, marks);
        assert Oversized(size, ms[m.at.message].blocks[m.at.block], limit);
      }
    }
  }

  lemma {:induction false} PassMarksIn(size: Size, ms: seq<Message>, edits: seq<Edit>, limits: HardLimits)
    ensures PassShape(size, ms, edits, limits) + PassBig(size, ms, edits, limits) <= PassMarks(size, ms, edits, limits)
  {
    hide Taken, LimitShapeMarks, LimitSizeMarks, Paint, Sane, Potential;
    TakenPotential(size, ms, edits, |edits|);
    var shape := PassShape(size, ms, edits, limits);
    forall m | m in shape ensures Sane(ms, m) {
      if m in PotentialAll(ms, edits) {
        var e :| e in edits && m in Potential(ms, e);
        PotentialSane(ms, e, m);
      } else {
        LimitMarksSane(size, ms, limits, m);
      }
    }
    BigBefore(size, ms, shape, limits);
  }

  /** On the result of a pass in which nothing grows, the edits find nothing more to do. */
  lemma {:induction false} EditsDone(size: Size, ms: seq<Message>, edits: seq<Edit>, ignored: seq<string>,
                                     all: set<Mark>, n: nat)
    requires n <= |edits| && Shrinks(size, ms, all) && Taken(size, ms, edits, |edits|) <= all
    ensures ApplyEdits(size, Paint(ms, all), edits, ignored, n).messages == Paint(ms, all)
  {
    hide Paint, Open, Potential, ApplyEdit, Shrinks;
    var done := Paint(ms, all);
    if n > 0 {
      var edit := edits[n - 1];
      EditsDone(size, ms, edits, ignored, all, n - 1);
      EditOpensOrNot(size, done, edit);
      PaintKeepsShape(ms, all);
      PotentialShape(ms, done, edit);
      if Open(size, done, edit) {
        TakenGrows(size, ms, edits, n - 1, |edits|);
        TakenGrows(size, ms, edits, n, |edits|);
        OpenBefore(size, ms, Taken(size, ms, edits, n - 1), all, edit);
        PaintTwice(ms, all, Potential(ms, edit));
        assert all + Potential(ms, edit) == all;
      }
    }
  }

  lemma {:induction false} LimitsDone(size: Size, ms: seq<Message>, shape: set<Mark>, limits: HardLimits)
    requires LimitShapeMarks(ms, limits) <= shape
    ensures var done := Paint(ms, shape + LimitSizeMarks(size, Paint(ms, shape), limits));
            ApplyLimits(size, done, limits).0 == done
  {
    hide Paint, LimitShapeMarks, OversizedMarks, ApplyLimits;
    var shaped := Paint(ms, shape);
    var big := LimitSizeMarks(size, shaped, limits);
    var done := Paint(ms, shape + big);
    PaintTwice(ms, shape, big);
    PaintKeepsShape(ms, shape + big);
    LimitShapeMarksShape(ms, done, limits);
    PaintTwice(ms, shape + big, LimitShapeMarks(ms, limits));
    assert shape + big + LimitShapeMarks(ms, limits) == shape + big;
    LimitsPaint(size, done, limits);
    if limits.resultChars.Some? {
      StillOversized(size, shaped, limits.resultChars.value);
    } else {
      PaintNothing(done);
    }
  }

  /** A second pass changes nothing, for any edits and limits, if nothing the pass might clear has fewer
      characters than what replaces it: whatever a gate or trigger kept out stays out. */
  lemma {:induction false} PassIdempotentUnlessGrowing(size: Size, ms: seq<Message>, edits: seq<Edit>,
                                                       ignored: seq<string>,
                                                       limits: HardLimits)
    requires NothingGrows(size, ms, edits, limits)
    ensures var once := Apply(size, ms, edits, ignored, limits).messages;
            Apply(size, once, edits, ignored, limits).messages == once
  {
    hide Paint, NothingGrows, PassMarks, Taken, LimitShapeMarks, LimitSizeMarks, ApplyEdits, ApplyLimits, Shrinks;
    PassPaints(size, ms, edits, ignored, limits);
    PassMarksIn(size, ms, edits, limits);
    PassShrinks(size, ms, edits, limits);
    var shape, big := PassShape(size, ms, edits, limits), PassBig(size, ms, edits, limits);
    ShrinksLess(size, ms, shape + big, PassMarks(size, ms, edits, limits));
    EditsDone(size, ms, edits, ignored, shape + big, |edits|);
    LimitsDone(size, ms, shape, limits);
  }

  lemma {:induction false} ShrinksLess(size: Size, ms: seq<Message>, some: set<Mark>, more: set<Mark>)
    requires some <= more && Shrinks(size, ms, more)
    ensures Shrinks(size, ms, some)
  {
    hide Grows;
  }

  // ----- the order of edits -----

  /** The condition on the input: nothing the edits might clear grows, and an edit that is let through at
      first still is when all the edits have been applied. */
  predicate Settled(size: Size, ms: seq<Message>, edits: seq<Edit>) {
    && (forall m | m in PotentialAll(ms, edits) :: IsRef(ms, m.at) && !Grows(size, ms, m))
    && (forall e | e in edits && Open(size, ms, e) :: Open(size, Paint(ms, PotentialAll(ms, edits)), e))
  }

  /** The marks of the edits that are let through at first. */
  function OpenMarks(size: Size, ms: seq<Message>, edits: seq<Edit>): set<Mark> {
    set e, m | e in edits && Open(size, ms, e) && m in Potential(ms, e) :: m
  }

  lemma {:induction false} PotentialShrinks(size: Size, ms: seq<Message>, edits: seq<Edit>)
    requires Settled(size, ms, edits)
    ensures Shrinks(size, ms, PotentialAll(ms, edits))
  {
    hide Potential, Grows, Open, Paint;
    forall m | m in PotentialAll(ms, edits) ensures Sane(ms, m) {
      hide Sane;
      var e :| e in edits && m in Potential(ms, e);
      PotentialSane(ms, e, m);
    }
  }

  lemma {:induction false} OpenThroughout(size: Size, ms: seq<Message>, edits: seq<Edit>, some: set<Mark>, e: Edit)
    requires Settled(size, ms, edits) && some <= PotentialAll(ms, edits) && e in edits
    ensures Open(size, Paint(ms, some), e) <==> Open(size, ms, e)
  {
    PotentialShrinks(size, ms, edits);
    hide Paint, Open, Potential, Grows, Shrinks;
    var all := PotentialAll(ms, edits);
    PaintNothing(ms);
    if Open(size, Paint(ms, some), e) {
      ShrinksLess(size, ms, some, all);
      OpenBefore(size, ms, {}, some, e);
    }
    if Open(size, ms, e) { OpenBefore(size, ms, some, all, e); }
  }

  lemma {:induction false} TakenOpen(size: Size, ms: seq<Message>, edits: seq<Edit>, n: nat)
    requires Settled(size, ms, edits) && n <= |edits|
    ensures Taken(size, ms, edits, n) == OpenMarks(size, ms, edits[..n])
  {
    hide Paint, Open, Potential, Settled;
    if n > 0 {
      TakenOpen(size, ms, edits, n - 1);
      TakenPotential(size, ms, edits, n - 1);
      OpenThroughout(size, ms, edits, Taken(size, ms, edits, n - 1), edits[n - 1]);
      assert edits[..n] == edits[..n - 1] + [edits[n - 1]];
    }
  }

  /** The same edits in another order, or repeated, leave the same messages, hard limits included. */
  lemma {:induction false} OrderIrrelevantWhenSettled(size: Size, ms: seq<Message>, edits: seq<Edit>, others: seq<Edit>,
                                                      ignored: seq<string>, limits: HardLimits)
    requires (forall e :: e in edits <==> e in others) && Settled(size, ms, edits)
    ensures Apply(size, ms, edits, ignored, limits).messages == Apply(size, ms, others, ignored, limits).messages
  {
    hide Paint, Open, Potential, Taken, LimitShapeMarks, LimitSizeMarks, Apply;
    assert PotentialAll(ms, others) == PotentialAll(ms, edits);
    assert Settled(size, ms, others);
    hide Settled;
    TakenOpen(size, ms, edits, |edits|);
    TakenOpen(size, ms, others, |others|);
    assert edits[..|edits|] == edits && others[..|others|] == others;
    assert OpenMarks(size, ms, edits) == OpenMarks(size, ms, others);
    PassPaints(size, ms, edits, ignored, limits);
    PassPaints(size, ms, others, ignored, limits);
  }
}

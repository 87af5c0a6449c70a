/** Laws of context management: painting, what edits may depend on, idempotence, order of edits,
    the hard limits, and the two passes that count and clear. */
module ContextLaws {
  import opened Json
  import opened Context
  import opened ContextPairs

  // ----- painting -----

  lemma {:induction false} SameMessages(a: seq<Message>, b: seq<Message>)
    requires |a| == |b|
    requires forall i | 0 <= i < |a| ::
      a[i].role == b[i].role && a[i].text == b[i].text && |a[i].blocks| == |b[i].blocks|
    requires forall r | IsRef(a, r) :: BlockAt(a, r) == BlockAt(b, r)
    ensures a == b
  {
    forall i | 0 <= i < |a| ensures a[i] == b[i] {
      forall j | 0 <= j < |a[i].blocks| ensures a[i].blocks[j] == b[i].blocks[j] {
        assert IsRef(a, Ref(i, j)) && BlockAt(a, Ref(i, j)) == a[i].blocks[j];
      }
      assert a[i].blocks == b[i].blocks;
    }
  }

  lemma {:induction false} PaintedAt(ms: seq<Message>, marks: set<Mark>, r: Ref)
    ensures IsRef(Paint(ms, marks), r) <==> IsRef(ms, r)
    ensures IsRef(ms, r) ==> BlockAt(Paint(ms, marks), r) == PaintAt(BlockAt(ms, r), r, marks)
  {
  }

  lemma {:induction false} PaintBlockTwice(b: Block, r: Ref, first: set<Mark>, second: set<Mark>)
    ensures PaintAt(PaintAt(b, r, first), r, second) == PaintAt(b, r, first + second)
  {
  }

  /** Painting twice is painting the union. */
  lemma {:induction false} PaintTwice(ms: seq<Message>, first: set<Mark>, second: set<Mark>)
    ensures Paint(Paint(ms, first), second) == Paint(ms, first + second)
  {
    hide PaintAt;
    var once := Paint(ms, first);
    forall r | IsRef(ms, r) ensures BlockAt(Paint(once, second), r) == BlockAt(Paint(ms, first + second), r) {
      PaintedAt(ms, first, r);
      PaintedAt(once, second, r);
      PaintedAt(ms, first + second, r);
      PaintBlockTwice(BlockAt(ms, r), r, first, second);
    }
    SameMessages(Paint(once, second), Paint(ms, first + second));
  }

  lemma {:induction false} PaintNothing(ms: seq<Message>)
    ensures Paint(ms, {}) == ms
  {
    forall r | IsRef(ms, r) ensures BlockAt(Paint(ms, {}), r) == BlockAt(ms, r) {
      PaintedAt(ms, {}, r);
    }
    SameMessages(Paint(ms, {}), ms);
  }

  // ----- shape -----

  /** All of a block but the parts that clearing overwrites. */
  function Frame(b: Block): Block {
    b.(text := None, input := Null, content := Null, extra := b.extra - {"thinking"})
  }

  ghost predicate SameShape(a: seq<Message>, b: seq<Message>) {
    && |a| == |b|
    && (forall i | 0 <= i < |a| :: a[i].role == b[i].role && a[i].text == b[i].text && |a[i].blocks| == |b[i].blocks|)
    && (forall i, j | 0 <= i < |a| && 0 <= j < |a[i].blocks| :: Frame(a[i].blocks[j]) == Frame(b[i].blocks[j]))
  }

  /** Clearing keeps the messages, roles and blocks, and of each block its type, ids, name, and every
      field it does not overwrite. */
  lemma {:induction false} PaintKeepsShape(ms: seq<Message>, marks: set<Mark>)
    ensures SameShape(ms, Paint(ms, marks))
  {
    forall i, j | 0 <= i < |ms| && 0 <= j < |ms[i].blocks|
      ensures Frame(ms[i].blocks[j]) == Frame(Paint(ms, marks)[i].blocks[j])
    {
      PaintKeepsFrame(ms[i].blocks[j], Ref(i, j), marks);
    }
  }

  lemma {:induction false} PaintKeepsFrame(b: Block, r: Ref, marks: set<Mark>)
    ensures Frame(PaintAt(b, r, marks)) == Frame(b)
  {
  }

  lemma {:induction false} FrameFields(a: Block, b: Block)
    requires Frame(a) == Frame(b)
    ensures a.blockType == b.blockType && a.id == b.id && a.name == b.name && a.toolUseId == b.toolUseId
  {
  }

  lemma {:induction false} VisitFrame(acc: Scanned, r: Ref, a: Block, b: Block)
    requires Indexed(acc) && Frame(a) == Frame(b)
    ensures Visit(acc, r, a) == Visit(acc, r, b)
  {
    FrameFields(a, b);
  }

  lemma {:induction false} ScanShape(a: seq<Message>, b: seq<Message>, acc: Scanned, mi: nat, bi: nat)
    requires SameShape(a, b) && Indexed(acc)
    ensures Scan(a, acc, mi, bi) == Scan(b, acc, mi, bi)
    decreases |a| - mi, if mi < |a| then |a[mi].blocks| - bi else 0
  {
    hide Visit, Frame;
    if mi < |a| {
      if bi >= |a[mi].blocks| {
        ScanShape(a, b, acc, mi + 1, 0);
      } else {
        VisitFrame(acc, Ref(mi, bi), a[mi].blocks[bi], b[mi].blocks[bi]);
        ScanShape(a, b, Visit(acc, Ref(mi, bi), a[mi].blocks[bi]), mi, bi + 1);
      }
    }
  }

  lemma {:induction false} HasThinkingShape(a: Message, b: Message)
    requires |a.blocks| == |b.blocks| && forall j | 0 <= j < |a.blocks| ::
      a.blocks[j].blockType == b.blocks[j].blockType
    ensures HasThinking(a) == HasThinking(b)
  {
    forall j | 0 <= j < |a.blocks| && IsThinking(a.blocks[j].blockType) ensures HasThinking(b) {
      assert b.blocks[j] in b.blocks;
    }
    forall j | 0 <= j < |b.blocks| && IsThinking(b.blocks[j].blockType) ensures HasThinking(a) {
      assert a.blocks[j] in a.blocks;
    }
  }

  lemma {:induction false} TurnsShape(a: seq<Message>, b: seq<Message>, n: nat)
    requires SameShape(a, b) && n <= |a|
    ensures ThinkingTurns(a, n) == ThinkingTurns(b, n)
  {
    if n > 0 {
      TurnsShape(a, b, n - 1);
      hide Frame, HasThinking;
      var x, y := a[n - 1].blocks, b[n - 1].blocks;
      forall j | 0 <= j < |x| ensures x[j].blockType == y[j].blockType {
        FrameFields(x[j], y[j]);
      }
      HasThinkingShape(a[n - 1], b[n - 1]);
    }
  }

  lemma {:induction false} TurnMarksShape(a: seq<Message>, b: seq<Message>, turns: seq<nat>)
    requires SameShape(a, b) && AreTurns(a, turns)
    ensures TurnMarks(a, turns) == TurnMarks(b, turns)
  {
    hide Frame, IsThinking;
    forall i, j | 0 <= i < |a| && 0 <= j < |a[i].blocks| ensures a[i].blocks[j].blockType == b[i].blocks[j].blockType {
      FrameFields(a[i].blocks[j], b[i].blocks[j]);
    }
  }

  /** The tool pairing and the thinking turns are read off the shape alone. */
  lemma {:induction false} ShapeDecides(a: seq<Message>, b: seq<Message>)
    requires SameShape(a, b)
    ensures Collect(a) == Collect(b) && ThinkingTurns(a, |a|) == ThinkingTurns(b, |b|)
    ensures forall turns | AreTurns(a, turns) :: TurnMarks(a, turns) == TurnMarks(b, turns)
  {
    ScanShape(a, b, Scanned([], map[]), 0, 0);
    TurnsShape(a, b, |a|);
    forall turns | AreTurns(a, turns) ensures TurnMarks(a, turns) == TurnMarks(b, turns) {
      TurnMarksShape(a, b, turns);
    }
  }

  // ----- edits that do not look at content -----

  predicate ByTokens(t: Option<Threshold>) {
    t.Some? && t.value.thresholdType == "input_tokens"
  }

  /** Neither the trigger nor the gate of a tool edit counts tokens. */
  predicate Structural(edit: Edit) {
    IsToolEdit(edit) && !IsThinkingEdit(edit) ==> !ByTokens(edit.trigger) && !ByTokens(edit.clearAtLeast)
  }

  predicate StructuralTrigger(uses: nat, trigger: Option<Threshold>) {
    trigger.None? || (trigger.value.thresholdType == "tool_uses" && uses > ThresholdToInt(trigger.value))
  }

  function ThinkingEditMarks(ms: seq<Message>, keep: Json): set<Mark> {
    match KeepThinkingTurns(keep)
    case None => {}
    case Some(n) => TurnMarks(ms, OldTurns(ms, n))
  }

  function ToolPolicyMarks(ms: seq<Message>, policy: ToolPolicy): set<Mark> {
    PickedMarks(Collect(ms), Candidates(Collect(ms), policy), policy.clearInputs)
  }

  /** What a structural edit marks. */
  function EditMarks(ms: seq<Message>, edit: Edit): set<Mark> {
    if IsThinkingEdit(edit) then ThinkingEditMarks(ms, edit.keep)
    else if IsToolEdit(edit) && StructuralTrigger(|Collect(ms)|, edit.trigger) then ToolPolicyMarks(ms, PolicyOf(edit))
    else {}
  }

  lemma {:induction false} EditPaints(size: Size, ms: seq<Message>, edit: Edit)
    requires Structural(edit)
    ensures ApplyEdit(size, ms, edit).messages == Paint(ms, EditMarks(ms, edit))
  {
    hide Paint, Collect, Candidates, KeepThinkingTurns, PolicyOf, TurnMarks, OldTurns, PickedMarks;
    PaintNothing(ms);
    if !IsThinkingEdit(edit) && IsToolEdit(edit) {
      CollectIn(ms);
      PolicyKeepsGate(edit);
      if Collect(ms) == [] { NothingPicked(PolicyOf(edit)); }
    }
  }

  lemma {:induction false} PolicyKeepsGate(edit: Edit)
    ensures PolicyOf(edit).clearAtLeast == edit.clearAtLeast && PolicyOf(edit).clearInputs == edit.clearToolInputs
  {
  }

  lemma {:induction false} NothingPicked(policy: ToolPolicy)
    ensures PickedMarks([], Candidates([], policy), policy.clearInputs) == {}
  {
    assert Candidates([], policy) == [];
  }

  lemma {:induction false} EditMarksShape(a: seq<Message>, b: seq<Message>, edit: Edit)
    requires SameShape(a, b)
    ensures EditMarks(a, edit) == EditMarks(b, edit)
  {
    hide ThinkingEditMarks, ToolPolicyMarks, SameShape;
    ThinkingMarksShape(a, b, edit.keep);
    ToolMarksShape(a, b, PolicyOf(edit));
  }

  lemma {:induction false} ThinkingMarksShape(a: seq<Message>, b: seq<Message>, keep: Json)
    requires SameShape(a, b)
    ensures ThinkingEditMarks(a, keep) == ThinkingEditMarks(b, keep)
  {
    hide KeepThinkingTurns, SameShape, TurnMarks, OldTurns;
    if KeepThinkingTurns(keep).Some? { OldTurnsShape(a, b, KeepThinkingTurns(keep).value); }
  }

  lemma {:induction false} ToolMarksShape(a: seq<Message>, b: seq<Message>, policy: ToolPolicy)
    requires SameShape(a, b)
    ensures Collect(a) == Collect(b) && ToolPolicyMarks(a, policy) == ToolPolicyMarks(b, policy)
  {
    ScanShape(a, b, Scanned([], map[]), 0, 0);
  }

  function EditsMarks(ms: seq<Message>, edits: seq<Edit>): set<Mark> {
    set e, m | e in edits && m in EditMarks(ms, e) :: m
  }

  /** A list of structural edits paints the union of what each of them marks at the start. */
  lemma {:induction false} EditsPaint(size: Size, ms: seq<Message>, edits: seq<Edit>, ignored: seq<string>, n: nat)
    requires n <= |edits| && forall e | e in edits :: Structural(e)
    ensures ApplyEdits(size, ms, edits, ignored, n).messages == Paint(ms, EditsMarks(ms, edits[..n]))
  {
    hide Paint, EditMarks, ApplyEdit, Structural;
    if n == 0 {
      assert EditsMarks(ms, edits[..0]) == {};
      PaintNothing(ms);
    } else {
      EditsPaint(size, ms, edits, ignored, n - 1);
      var before := EditsMarks(ms, edits[..n - 1]);
      var edit := edits[n - 1];
      EditPaints(size, Paint(ms, before), edit);
      PaintKeepsShape(ms, before);
      EditMarksShape(ms, Paint(ms, before), edit);
      PaintTwice(ms, before, EditMarks(ms, edit));
      assert edits[..n] == edits[..n - 1] + [edit];
      assert EditsMarks(ms, edits[..n]) == before + EditMarks(ms, edit);
    }
  }

  // ----- the hard limits as marks -----

  function LimitShapeMarks(ms: seq<Message>, limits: HardLimits): set<Mark> {
    (if limits.toolUses.None? then {} else ToolPolicyMarks(ms, LimitPolicy(limits.toolUses.value)))
    + (if limits.thinkingTurns.None? then {} else TurnMarks(ms, OldTurns(ms, limits.thinkingTurns.value)))
  }

  function LimitSizeMarks(size: Size, ms: seq<Message>, limits: HardLimits): set<Mark> {
    if limits.resultChars.None? then {} else OversizedMarks(size, ms, limits.resultChars.value)
  }

  lemma {:induction false} OldTurnsShape(a: seq<Message>, b: seq<Message>, keep: nat)
    requires SameShape(a, b)
    ensures OldTurns(a, keep) == OldTurns(b, keep) && AreTurns(a, OldTurns(a, keep))
    ensures TurnMarks(a, OldTurns(a, keep)) == TurnMarks(b, OldTurns(b, keep))
  {
    TurnsShape(a, b, |a|);
    TurnMarksShape(a, b, OldTurns(a, keep));
  }

  lemma {:induction false} LimitShapeMarksShape(a: seq<Message>, b: seq<Message>, limits: HardLimits)
    requires SameShape(a, b)
    ensures LimitShapeMarks(a, limits) == LimitShapeMarks(b, limits)
  {
    ScanShape(a, b, Scanned([], map[]), 0, 0);
    if limits.thinkingTurns.Some? { OldTurnsShape(a, b, limits.thinkingTurns.value); }
  }

  lemma {:induction false} LimitsPaint(size: Size, ms: seq<Message>, limits: HardLimits)
    ensures var shaped := Paint(ms, LimitShapeMarks(ms, limits));
            ApplyLimits(size, ms, limits).0 == Paint(shaped, LimitSizeMarks(size, shaped, limits))
  {
    hide Paint, Collect, Candidates, TurnMarks, OldTurns, PickedMarks, OversizedMarks;
    CollectIn(ms);
    var toolMarks := if limits.toolUses.None? then {} else ToolPolicyMarks(ms, LimitPolicy(limits.toolUses.value));
    var tools := LimitToolUses(size, ms, limits).messages;
    PaintNothing(ms);
    assert tools == Paint(ms, toolMarks);
    PaintKeepsShape(ms, toolMarks);
    var turnMarks := if limits.thinkingTurns.None? then {} else TurnMarks(ms, OldTurns(ms, limits.thinkingTurns.value));
    if limits.thinkingTurns.Some? { OldTurnsShape(ms, tools, limits.thinkingTurns.value); }
    PaintNothing(tools);
    assert LimitThinking(tools, limits).messages == Paint(tools, turnMarks);
    PaintTwice(ms, toolMarks, turnMarks);
    PaintNothing(Paint(ms, toolMarks + turnMarks));
  }

  // ----- one pass of structural edits -----

  function ShapeMarks(ms: seq<Message>, edits: seq<Edit>, limits: HardLimits): set<Mark> {
    EditsMarks(ms, edits) + LimitShapeMarks(ms, limits)
  }

  lemma {:induction false} StructuralPass(size: Size, ms: seq<Message>, edits: seq<Edit>, ignored: seq<string>,
                                          limits: HardLimits)
    requires forall e | e in edits :: Structural(e)
    ensures var shaped := Paint(ms, ShapeMarks(ms, edits, limits));
            Apply(size, ms, edits, ignored, limits).messages == Paint(shaped, LimitSizeMarks(size, shaped, limits))
  {
    hide Paint, EditsMarks, LimitShapeMarks, LimitSizeMarks, ApplyEdits, ApplyLimits;
    EditsPaint(size, ms, edits, ignored, |edits|);
    assert edits[..|edits|] == edits;
    var edited := Paint(ms, EditsMarks(ms, edits));
    PaintKeepsShape(ms, EditsMarks(ms, edits));
    LimitShapeMarksShape(ms, edited, limits);
    LimitsPaint(size, edited, limits);
    PaintTwice(ms, EditsMarks(ms, edits), LimitShapeMarks(ms, limits));
  }

  /** The same edits in another order, or repeated, leave the same messages. */
  lemma {:induction false} OrderOfEditsIrrelevant(size: Size, ms: seq<Message>, edits: seq<Edit>, others: seq<Edit>,
                                                  ignored: seq<string>, limits: HardLimits)
    requires forall e :: e in edits <==> e in others
    requires forall e | e in edits :: Structural(e)
    ensures Apply(size, ms, edits, ignored, limits).messages == Apply(size, ms, others, ignored, limits).messages
  {
    hide Paint, EditMarks, LimitShapeMarks, LimitSizeMarks, Apply, Structural;
    StructuralPass(size, ms, edits, ignored, limits);
    StructuralPass(size, ms, others, ignored, limits);
    assert EditsMarks(ms, edits) == EditsMarks(ms, others);
  }

  lemma {:induction false} EditsMarksShape(a: seq<Message>, b: seq<Message>, edits: seq<Edit>)
    requires SameShape(a, b)
    ensures EditsMarks(a, edits) == EditsMarks(b, edits)
  {
    forall e | e in edits ensures EditMarks(a, e) == EditMarks(b, e) {
      EditMarksShape(a, b, e);
    }
    hide EditMarks, SameShape;
  }

  predicate Cleared(b: Block) {
    b.content == TOOL_RESULT_PLACEHOLDER && b.text == None
  }

  /** After painting, an oversized result is one that was painted already. */
  lemma {:induction false} StillOversized(size: Size, ms: seq<Message>, limit: nat)
    ensures var marks := OversizedMarks(size, ms, limit);
            Paint(Paint(ms, marks), OversizedMarks(size, Paint(ms, marks), limit)) == Paint(ms, marks)
  {
    var marks := OversizedMarks(size, ms, limit);
    var once := Paint(ms, marks);
    var again := OversizedMarks(size, once, limit);
    forall m | m in again ensures m in marks {
      if m !in marks {
        PaintedAt(ms, marks, m.at);
        OversizedUnmarked(size, ms, limit, m.at);
      }
    }
    hide OversizedMarks, Paint;
    PaintTwice(ms, marks, again);
    assert marks + again == marks;
  }

  lemma {:induction false} OversizedUnmarked(size: Size, ms: seq<Message>, limit: nat, r: Ref)
    requires IsRef(ms, r) && Mark(r, Result) !in OversizedMarks(size, ms, limit)
    ensures PaintAt(BlockAt(ms, r), r, OversizedMarks(size, ms, limit)) == BlockAt(ms, r)
    ensures !Oversized(size, BlockAt(ms, r), limit)
  {
    var marks := OversizedMarks(size, ms, limit);
    assert Mark(r, Input) !in marks && Mark(r, Thinking) !in marks;
    assert Oversized(size, ms[r.message].blocks[r.block], limit) ==> Mark(r, Result) in marks;
  }

  /** A second pass changes nothing. */
  lemma {:induction false} PassIdempotent(size: Size, ms: seq<Message>, edits: seq<Edit>, ignored: seq<string>,
                                          limits: HardLimits)
    requires forall e | e in edits :: Structural(e)
    ensures var once := Apply(size, ms, edits, ignored, limits).messages;
            Apply(size, once, edits, ignored, limits).messages == once
  {
    hide Paint, EditsMarks, LimitShapeMarks, OversizedMarks, Apply, Structural;
    var once := Apply(size, ms, edits, ignored, limits).messages;
    var shape := ShapeMarks(ms, edits, limits);
    var shaped := Paint(ms, shape);
    var big := LimitSizeMarks(size, shaped, limits);
    StructuralPass(size, ms, edits, ignored, limits);
    PaintTwice(ms, shape, big);
    PaintKeepsShape(ms, shape + big);
    EditsMarksShape(ms, once, edits);
    LimitShapeMarksShape(ms, once, limits);
    PaintTwice(ms, shape + big, shape);
    assert shape + big + shape == shape + big;
    StructuralPass(size, once, edits, ignored, limits);
    assert Paint(once, ShapeMarks(once, edits, limits)) == once;
    if limits.resultChars.Some? {
      StillOversized(size, shaped, limits.resultChars.value);
    } else {
      PaintNothing(once);
    }
  }

  // ----- the hard limits hold -----

  ghost predicate ToolLimitHolds(ms: seq<Message>, keep: nat) {
    var xs := Collect(ms);
    forall i | 0 <= i < |xs| - keep :: forall r | r in xs[i].toolResults && IsRef(ms, r) :: Cleared(BlockAt(ms, r))
  }

  predicate ThinkingCleared(b: Block) {
    b.text == None && "thinking" in b.extra && b.extra["thinking"] == THINKING_PLACEHOLDER
  }

  ghost predicate ThinkingLimitHolds(ms: seq<Message>, keep: nat) {
    var turns := ThinkingTurns(ms, |ms|);
    forall i, j | 0 <= i < |turns| - keep && 0 <= j < |ms[turns[i]].blocks|
      && IsThinking(ms[turns[i]].blocks[j].blockType) ::
      ThinkingCleared(ms[turns[i]].blocks[j])
  }

  ghost predicate ResultLimitHolds(size: Size, ms: seq<Message>, limit: nat) {
    forall r | IsRef(ms, r) && BlockAt(ms, r).blockType == "tool_result" ::
      ToolResultChars(size, BlockAt(ms, r)) <= limit || Cleared(BlockAt(ms, r))
  }

  ghost predicate LimitsHold(size: Size, ms: seq<Message>, limits: HardLimits) {
    && (limits.toolUses.Some? ==> ToolLimitHolds(ms, limits.toolUses.value))
    && (limits.thinkingTurns.Some? ==> ThinkingLimitHolds(ms, limits.thinkingTurns.value))
    && (limits.resultChars.Some? ==> ResultLimitHolds(size, ms, limits.resultChars.value))
  }

  lemma {:induction false} EligibleAll(xs: seq<Interaction>, n: nat)
    requires n <= |xs|
    ensures Eligible(xs, {}, n) == seq(n, i => i)
  {
    if n > 0 { EligibleAll(xs, n - 1); }
  }

  lemma {:induction false} PickedMark(xs: seq<Interaction>, picked: seq<nat>, clearInputs: bool, i: nat, r: Ref)
    requires Picks(xs, picked) && i < |picked| && r in xs[picked[i]].toolResults
    ensures Mark(r, Result) in PickedMarks(xs, picked, clearInputs)
    decreases |picked|
  {
    if i < |picked| - 1 { PickedMark(xs, picked[..|picked| - 1], clearInputs, i, r); }
  }

  lemma {:induction false} LimitMarks(xs: seq<Interaction>, keep: nat, i: nat, r: Ref)
    requires i < |xs| - keep && r in xs[i].toolResults
    ensures Mark(r, Result) in PickedMarks(xs, Candidates(xs, LimitPolicy(keep)), false)
  {
    EligibleAll(xs, |xs|);
    PickedMark(xs, Candidates(xs, LimitPolicy(keep)), false, i, r);
  }

  lemma {:induction false} PaintedResult(ms: seq<Message>, marks: set<Mark>, r: Ref)
    requires IsRef(ms, r) && Mark(r, Result) in marks
    ensures Cleared(BlockAt(Paint(ms, marks), r))
  {
    PaintedAt(ms, marks, r);
  }

  lemma {:induction false} PaintedThinking(ms: seq<Message>, marks: set<Mark>, r: Ref)
    requires IsRef(ms, r) && Mark(r, Thinking) in marks
    ensures ThinkingCleared(BlockAt(Paint(ms, marks), r))
  {
    PaintedAt(ms, marks, r);
  }

  lemma {:induction false} ToolLimitPainted(ms: seq<Message>, marks: set<Mark>, keep: nat)
    requires ToolPolicyMarks(ms, LimitPolicy(keep)) <= marks
    ensures ToolLimitHolds(Paint(ms, marks), keep)
  {
    var after := Paint(ms, marks);
    PaintKeepsShape(ms, marks);
    ScanShape(ms, after, Scanned([], map[]), 0, 0);
    hide Scan, Candidates, PickedMarks, Paint;
    var xs := Collect(ms);
    forall i, r | 0 <= i < |xs| - keep && r in xs[i].toolResults && IsRef(after, r) ensures Cleared(BlockAt(after, r)) {
      PaintedAt(ms, marks, r);
      LimitMarks(xs, keep, i, r);
      PaintedResult(ms, marks, r);
    }
  }

  lemma {:induction false} ThinkingLimitPainted(ms: seq<Message>, marks: set<Mark>, keep: nat)
    requires TurnMarks(ms, OldTurns(ms, keep)) <= marks
    ensures ThinkingLimitHolds(Paint(ms, marks), keep)
  {
    var after := Paint(ms, marks);
    PaintKeepsShape(ms, marks);
    OldTurnsShape(ms, after, keep);
    TurnsShape(ms, after, |ms|);
    var turns := ThinkingTurns(ms, |ms|);
    forall i, j | 0 <= i < |turns| - keep && 0 <= j < |after[turns[i]].blocks|
      && IsThinking(after[turns[i]].blocks[j].blockType)
      ensures ThinkingCleared(after[turns[i]].blocks[j])
    {
      var r := Ref(turns[i], j);
      assert OldTurns(after, keep)[i] == turns[i];
      assert Mark(r, Thinking) in TurnMarks(after, OldTurns(after, keep));
      PaintedThinking(ms, marks, r);
    }
  }

  lemma {:induction false} ResultLimitPainted(size: Size, ms: seq<Message>, limit: nat)
    ensures ResultLimitHolds(size, Paint(ms, OversizedMarks(size, ms, limit)), limit)
  {
    var marks := OversizedMarks(size, ms, limit);
    var after := Paint(ms, marks);
    forall r | IsRef(after, r) && BlockAt(after, r).blockType == "tool_result"
      ensures ToolResultChars(size, BlockAt(after, r)) <= limit || Cleared(BlockAt(after, r))
    {
      hide OversizedMarks, Paint;
      PaintedAt(ms, marks, r);
      if Mark(r, Result) in marks {
        PaintedResult(ms, marks, r);
      } else {
        OversizedUnmarked(size, ms, limit, r);
      }
    }
  }

  /** After any pass, whatever the edits, all three limits hold at once. */
  lemma {:induction false} HardLimitsHold(size: Size, ms: seq<Message>, edits: seq<Edit>, ignored: seq<string>,
                                          limits: HardLimits)
    ensures LimitsHold(size, Apply(size, ms, edits, ignored, limits).messages, limits)
  {
    hide Paint, OversizedMarks, ToolPolicyMarks, TurnMarks, OldTurns;
    hide ToolLimitHolds, ThinkingLimitHolds, ResultLimitHolds, ApplyEdits, ApplyLimits;
    var edited := ApplyEdits(size, ms, edits, ignored, |edits|).messages;
    var shape := LimitShapeMarks(edited, limits);
    var shaped := Paint(edited, shape);
    var big := LimitSizeMarks(size, shaped, limits);
    LimitsPaint(size, edited, limits);
    PaintTwice(edited, shape, big);
    if limits.toolUses.Some? { ToolLimitPainted(edited, shape + big, limits.toolUses.value); }
    if limits.thinkingTurns.Some? { ThinkingLimitPainted(edited, shape + big, limits.thinkingTurns.value); }
    if limits.resultChars.Some? { ResultLimitPainted(size, shaped, limits.resultChars.value); }
  }

  // ----- what no pass changes -----

  lemma {:induction false} SameShapeTransitive(a: seq<Message>, b: seq<Message>, c: seq<Message>)
    requires SameShape(a, b) && SameShape(b, c)
    ensures SameShape(a, c)
  {
    hide Frame;
  }

  lemma {:induction false} EditKeepsShape(size: Size, ms: seq<Message>, edit: Edit)
    ensures SameShape(ms, ApplyEdit(size, ms, edit).messages)
  {
    hide Paint, SameShape, Collect, Candidates, TurnMarks, OldTurns, PickedMarks, TriggerActive, GateCloses, PolicyOf;
    forall marks ensures SameShape(ms, Paint(ms, marks)) { PaintKeepsShape(ms, marks); }
    PaintNothing(ms);
    assert SameShape(ms, Paint(ms, {}));
  }

  lemma {:induction false} EditsKeepShape(size: Size, ms: seq<Message>, edits: seq<Edit>, ignored: seq<string>, n: nat)
    requires n <= |edits|
    ensures SameShape(ms, ApplyEdits(size, ms, edits, ignored, n).messages)
  {
    hide SameShape, ApplyEdit, Paint;
    if n == 0 {
      PaintNothing(ms);
      PaintKeepsShape(ms, {});
    } else {
      EditsKeepShape(size, ms, edits, ignored, n - 1);
      var before := ApplyEdits(size, ms, edits, ignored, n - 1).messages;
      EditKeepsShape(size, before, edits[n - 1]);
      SameShapeTransitive(ms, before, ApplyEdit(size, before, edits[n - 1]).messages);
    }
  }

  /** No pass, gated or not, changes the shape of the history or how its tool calls pair up. */
  lemma {:induction false} PassKeepsShape(size: Size, ms: seq<Message>, edits: seq<Edit>, ignored: seq<string>,
                                          limits: HardLimits)
    ensures var after := Apply(size, ms, edits, ignored, limits).messages;
            SameShape(ms, after) && Collect(ms) == Collect(after)
  {
    hide SameShape, Paint, ApplyEdits, ApplyLimits, LimitShapeMarks, LimitSizeMarks, Collect;
    var edited := ApplyEdits(size, ms, edits, ignored, |edits|).messages;
    EditsKeepShape(size, ms, edits, ignored, |edits|);
    LimitsPaint(size, edited, limits);
    var shape := LimitShapeMarks(edited, limits);
    var big := LimitSizeMarks(size, Paint(edited, shape), limits);
    PaintTwice(edited, shape, big);
    PaintKeepsShape(edited, shape + big);
    SameShapeTransitive(ms, edited, Paint(edited, shape + big));
    ShapeDecides(ms, Paint(edited, shape + big));
  }
}

/** One edit of any kind, gated or triggered by token counts, among any number of edits that do not count
    tokens: over every history, encoding and limits, exactly when a pass is idempotent and when its order
    matters. */
module ContextGates {
  import opened Json
  import opened Context
  import opened ContextPairs
  import opened ContextLaws
  import opened ContextAccounts
  import opened ContextLimits
  import opened ContextTokens

  predicate AllStructural(edits: seq<Edit>) {
    forall e | e in edits :: Structural(e)
  }

  /** What the other edits and the limits mark, whatever the gate does. */
  function Rest(size: Size, ms: seq<Message>, others: seq<Edit>, limits: HardLimits): set<Mark> {
    var shape := ShapeMarks(ms, others, limits);
    shape + LimitSizeMarks(size, Paint(ms, shape), limits)
  }

  /** Whether the gate lets the edit through when it is its turn: after the edits before it. */
  predicate OpenFirst(size: Size, ms: seq<Message>, before: seq<Edit>, edit: Edit) {
    Open(size, Paint(ms, EditsMarks(ms, before)), edit)
  }

  /** Whether it would once the others and the limits have cleared what they clear. */
  predicate OpenLater(size: Size, ms: seq<Message>, others: seq<Edit>, edit: Edit, limits: HardLimits) {
    Open(size, Paint(ms, Rest(size, ms, others, limits)), edit)
  }

  /** A part that does not look cleared. */
  predicate Uncleared(b: Block, part: Part) {
    match part
    case Result => !Cleared(b)
    case Input => b.input != Obj(map[])
    case Thinking => !ThinkingCleared(b)
  }

  /** The edit would clear something that the others leave. */
  predicate LeftToClear(size: Size, ms: seq<Message>, others: seq<Edit>, edit: Edit, limits: HardLimits) {
    exists m | m in Potential(ms, edit) - Rest(size, ms, others, limits) ::
      IsRef(ms, m.at) && Uncleared(BlockAt(ms, m.at), m.part)
  }

  // ----- what a structural edit takes -----

  lemma {:induction false} StructuralOpens(size: Size, ms: seq<Message>, edit: Edit)
    requires Structural(edit)
    ensures EditMarks(ms, edit) == if Open(size, ms, edit) then Potential(ms, edit) else {}
  {
    hide Collect, Candidates, PickedChars, PickedMarks, PolicyOf, ThinkingEditMarks, ToolPolicyMarks;
    CollectIn(ms);
  }

  lemma {:induction false} TakenStructural(size: Size, ms: seq<Message>, edits: seq<Edit>, from: nat, n: nat)
    requires from <= n <= |edits| && AllStructural(edits[from..n])
    ensures Taken(size, ms, edits, n) == Taken(size, ms, edits, from) + EditsMarks(ms, edits[from..n])
    decreases n
  {
    hide Paint, Open, Potential, EditMarks, Structural;
    if n == from {
      assert EditsMarks(ms, edits[from..n]) == {};
    } else {
      var edit, some := edits[n - 1], Taken(size, ms, edits, n - 1);
      assert edits[from..n] == edits[from..n - 1] + [edit];
      assert edit in edits[from..n];
      TakenStructural(size, ms, edits, from, n - 1);
      PaintKeepsShape(ms, some);
      StructuralOpens(size, Paint(ms, some), edit);
      EditMarksShape(ms, Paint(ms, some), edit);
      PotentialShape(ms, Paint(ms, some), edit);
      assert EditsMarks(ms, edits[from..n]) == EditsMarks(ms, edits[from..n - 1]) + EditMarks(ms, edit);
    }
  }

  lemma {:induction false} MarksOfBoth(ms: seq<Message>, a: seq<Edit>, b: seq<Edit>)
    ensures EditsMarks(ms, a + b) == EditsMarks(ms, a) + EditsMarks(ms, b)
  {
    hide EditMarks;
  }

  /** The gated edit's marks, if it is let through. */
  function GateMarks(size: Size, ms: seq<Message>, before: seq<Edit>, edit: Edit): set<Mark> {
    if OpenFirst(size, ms, before, edit) then Potential(ms, edit) else {}
  }

  lemma {:induction false} TakenOneGate(size: Size, ms: seq<Message>, before: seq<Edit>, edit: Edit, after: seq<Edit>)
    requires AllStructural(before + after)
    ensures var edits := before + [edit] + after;
            Taken(size, ms, edits, |edits|) == EditsMarks(ms, before + after) + GateMarks(size, ms, before, edit)
  {
    hide Paint, Open, Potential, EditsMarks, Structural;
    var edits, k := before + [edit] + after, |before|;
    assert edits[..k] == before && edits[0..k] == before && edits[k] == edit && edits[k + 1..|edits|] == after;
    assert forall e | e in before :: e in before + after;
    assert forall e | e in after :: e in before + after;
    TakenStructural(size, ms, edits, 0, k);
    TakenStructural(size, ms, edits, k + 1, |edits|);
    MarksOfBoth(ms, before, after);
    assert Taken(size, ms, edits, 0) == {};
    assert {} + EditsMarks(ms, before) == EditsMarks(ms, before);
    assert Taken(size, ms, edits, k) == EditsMarks(ms, before);
    assert Taken(size, ms, edits, k + 1) == EditsMarks(ms, before) + GateMarks(size, ms, before, edit);
  }

  // ----- the size limit beside the gate -----

  /** A result oversized at first still is after painting, unless it has been painted. */
  lemma {:induction false} BigAfter(size: Size, ms: seq<Message>, marks: set<Mark>, limits: HardLimits)
    requires forall m | m in marks :: Sane(ms, m)
    ensures LimitSizeMarks(size, ms, limits) <= marks + LimitSizeMarks(size, Paint(ms, marks), limits)
  {
    if limits.resultChars.Some? {
      var limit := limits.resultChars.value;
      var after := Paint(ms, marks);
      forall m | m in OversizedMarks(size, ms, limit) && m !in marks ensures m in OversizedMarks(size, after, limit) {
        PaintedAt(ms, marks, m.at);
        hide Paint;
        var b := BlockAt(ms, m.at);
        PaintKeepsFrame(b, m.at, marks);
        FrameFields(PaintAt(b, m.at, marks), b);
        KindsApart(b.blockType);
        ElsewhereKept(b, m.at, marks);
        assert Oversized(size, after[m.at.message].blocks[m.at.block], limit);
      }
    }
  }

  lemma {:induction false} BigBeside(size: Size, ms: seq<Message>, shape: set<Mark>, more: set<Mark>,
                                     limits: HardLimits)
    requires forall m | m in more :: Sane(Paint(ms, shape), m)
    ensures shape + more + LimitSizeMarks(size, Paint(ms, shape + more), limits)
      == shape + LimitSizeMarks(size, Paint(ms, shape), limits) + more
  {
    hide Paint, LimitSizeMarks, Sane;
    PaintTwice(ms, shape, more);
    BigBefore(size, Paint(ms, shape), more, limits);
    BigAfter(size, Paint(ms, shape), more, limits);
  }

  lemma {:induction false} GateSane(size: Size, ms: seq<Message>, shape: set<Mark>, before: seq<Edit>, edit: Edit)
    ensures forall m | m in GateMarks(size, ms, before, edit) :: Sane(Paint(ms, shape), m)
  {
    hide Paint, Potential, Sane, OpenFirst;
    PaintKeepsShape(ms, shape);
    PotentialShape(ms, Paint(ms, shape), edit);
    forall m | m in GateMarks(size, ms, before, edit) ensures Sane(Paint(ms, shape), m) {
      PotentialSane(Paint(ms, shape), edit, m);
    }
  }

  /** A pass paints what the others and the limits mark, and the edit's own marks if it is let through. */
  lemma {:induction false} OneGatePaints(size: Size, ms: seq<Message>, before: seq<Edit>, edit: Edit, after: seq<Edit>,
                                         ignored: seq<string>, limits: HardLimits)
    requires AllStructural(before + after)
    ensures Apply(size, ms, before + [edit] + after, ignored, limits).messages
      == Paint(ms, Rest(size, ms, before + after, limits) + GateMarks(size, ms, before, edit))
  {
    hide Paint, Taken, LimitShapeMarks, LimitSizeMarks, EditsMarks, GateMarks, Apply, Sane, AllStructural;
    var edits, gate := before + [edit] + after, GateMarks(size, ms, before, edit);
    var shape := ShapeMarks(ms, before + after, limits);
    PassPaints(size, ms, edits, ignored, limits);
    TakenOneGate(size, ms, before, edit, after);
    assert PassShape(size, ms, edits, limits) == shape + gate;
    GateSane(size, ms, shape, before, edit);
    BigBeside(size, ms, shape, gate, limits);
  }

  // ----- the second pass -----

  lemma {:induction false} RestOnceMore(size: Size, ms: seq<Message>, others: seq<Edit>, gate: set<Mark>,
                                        limits: HardLimits)
    requires forall m | m in gate :: Sane(Paint(ms, ShapeMarks(ms, others, limits)), m)
    ensures var marks := Rest(size, ms, others, limits) + gate;
            Rest(size, Paint(ms, marks), others, limits) <= marks
  {
    hide Paint, LimitShapeMarks, LimitSizeMarks, EditsMarks, Sane;
    var shape := ShapeMarks(ms, others, limits);
    var big := LimitSizeMarks(size, Paint(ms, shape + gate), limits);
    var marks := Rest(size, ms, others, limits) + gate;
    BigBeside(size, ms, shape, gate, limits);
    assert marks == shape + gate + big;
    PaintKeepsShape(ms, marks);
    EditsMarksShape(ms, Paint(ms, marks), others);
    LimitShapeMarksShape(ms, Paint(ms, marks), limits);
    PaintTwice(ms, marks, shape);
    assert marks + shape == marks;
    PaintTwice(ms, shape + gate, big);
    forall m | m in big ensures Sane(Paint(ms, shape + gate), m) {
      LimitMarksSane(size, Paint(ms, shape + gate), limits, m);
    }
    BigBefore(size, Paint(ms, shape + gate), big, limits);
  }

  /** Of the marks that the edit adds, the ones that matter are on parts that do not look cleared. */
  lemma {:induction false} GateMatters(size: Size, ms: seq<Message>, others: seq<Edit>, edit: Edit, limits: HardLimits)
    ensures var rest := Rest(size, ms, others, limits);
            Paint(ms, rest + Potential(ms, edit)) == Paint(ms, rest) <==> !LeftToClear(size, ms, others, edit, limits)
  {
    hide Paint, Potential, Rest, Sane, Uncleared, PaintAt;
    var rest, own := Rest(size, ms, others, limits), Potential(ms, edit);
    RestSane(size, ms, others, limits);
    forall m | m in own ensures Sane(ms, m) { PotentialSane(ms, edit, m); }
    PaintsAgree(ms, rest + own, rest);
    MattersSomewhere(size, ms, others, edit, limits);
    forall r
      ensures Alike(ms, rest + own, rest, r) <==> (IsRef(ms, r)
        ==> forall part :: Mark(r, part) in own && Mark(r, part) !in rest ==> !Uncleared(BlockAt(ms, r), part))
    {
      if IsRef(ms, r) { BlocksDiffer(ms, r, rest, own); }
    }
    hide Alike;
    if LeftToClear(size, ms, others, edit, limits) {
      var r, part :| IsRef(ms, r) && Mark(r, part) in own && Mark(r, part) !in rest
        && Uncleared(BlockAt(ms, r), part);
      assert !Alike(ms, rest + own, rest, r);
    }
  }

  lemma {:induction false} MattersSomewhere(size: Size, ms: seq<Message>, others: seq<Edit>, edit: Edit,
                                            limits: HardLimits)
    ensures LeftToClear(size, ms, others, edit, limits)
      <==> exists r, part :: IsRef(ms, r) && Mark(r, part) in Potential(ms, edit)
             && Mark(r, part) !in Rest(size, ms, others, limits) && Uncleared(BlockAt(ms, r), part)
  {
    hide Potential, Rest, Uncleared;
    var rest, own := Rest(size, ms, others, limits), Potential(ms, edit);
    if r, part :| IsRef(ms, r) && Mark(r, part) in own && Mark(r, part) !in rest && Uncleared(BlockAt(ms, r), part) {
      assert Mark(r, part) in own - rest;
    }
    if m :| m in own - rest && IsRef(ms, m.at) && Uncleared(BlockAt(ms, m.at), m.part) {
      assert m == Mark(m.at, m.part);
    }
  }

  lemma {:induction false} BlocksDiffer(ms: seq<Message>, r: Ref, rest: set<Mark>, own: set<Mark>)
    requires IsRef(ms, r) && forall m | m in rest + own :: Sane(ms, m)
    ensures PaintAt(BlockAt(ms, r), r, rest + own) == PaintAt(BlockAt(ms, r), r, rest)
      <==> forall part :: Mark(r, part) in own && Mark(r, part) !in rest ==> !Uncleared(BlockAt(ms, r), part)
  {
    var b := BlockAt(ms, r);
    KindsApart(b.blockType);
    assert Mark(r, Result) in rest + own ==> Mark(r, Thinking) !in rest + own;
    hide Sane;
    var x, y := PaintAt(b, r, rest + own), PaintAt(b, r, rest);
    assert x == y <==> x.content == y.content && x.text == y.text && x.input == y.input && x.extra == y.extra by {
      OnlyPainted(b, r, rest + own);
      OnlyPainted(b, r, rest);
    }
    ThinkingPainted(b);
  }

  lemma {:induction false} OnlyPainted(b: Block, r: Ref, marks: set<Mark>)
    ensures var x := PaintAt(b, r, marks);
            x == b.(content := x.content, text := x.text, input := x.input, extra := x.extra)
  {
  }

  lemma {:induction false} ThinkingPainted(b: Block)
    ensures ThinkingCleared(b) <==> b.text == None && b.extra["thinking" := THINKING_PLACEHOLDER] == b.extra
  {
    if "thinking" in b.extra && b.extra["thinking"] == THINKING_PLACEHOLDER {
      assert b.extra["thinking" := THINKING_PLACEHOLDER] == b.extra;
    }
    if b.extra["thinking" := THINKING_PLACEHOLDER] == b.extra {
      assert "thinking" in b.extra["thinking" := THINKING_PLACEHOLDER];
    }
  }

  lemma {:induction false} RestSane(size: Size, ms: seq<Message>, others: seq<Edit>, limits: HardLimits)
    ensures forall m | m in Rest(size, ms, others, limits) :: Sane(ms, m)
  {
    hide Paint, LimitShapeMarks, LimitSizeMarks, EditMarks, Sane, Potential;
    var shape := ShapeMarks(ms, others, limits);
    forall m | m in shape ensures Sane(ms, m) {
      if m in EditsMarks(ms, others) {
        var e :| e in others && m in EditMarks(ms, e);
        EditMarksSane(ms, e, m);
      } else {
        LimitMarksSane(size, ms, limits, m);
      }
    }
    BigBefore(size, ms, shape, limits);
    forall m | m in LimitSizeMarks(size, ms, limits) ensures Sane(ms, m) { LimitMarksSane(size, ms, limits, m); }
  }

  lemma {:induction false} EditMarksSane(ms: seq<Message>, edit: Edit, m: Mark)
    requires m in EditMarks(ms, edit)
    ensures Sane(ms, m)
  {
    hide ThinkingEditMarks, ToolPolicyMarks, Sane;
    PotentialSane(ms, edit, m);
  }

  /** The two paintings leave the block alike. */
  predicate Alike(ms: seq<Message>, a: set<Mark>, b: set<Mark>, r: Ref) {
    IsRef(ms, r) ==> PaintAt(BlockAt(ms, r), r, a) == PaintAt(BlockAt(ms, r), r, b)
  }

  lemma {:induction false} PaintsAgree(ms: seq<Message>, a: set<Mark>, b: set<Mark>)
    ensures Paint(ms, a) == Paint(ms, b) <==> forall r :: Alike(ms, a, b, r)
  {
    forall r
      ensures Alike(ms, a, b, r) <==> (IsRef(ms, r)
        ==> IsRef(Paint(ms, a), r) && BlockAt(Paint(ms, a), r) == PaintAt(BlockAt(ms, r), r, b))
    {
      PaintedAt(ms, a, r);
    }
    forall r | IsRef(ms, r)
      ensures IsRef(Paint(ms, b), r) && BlockAt(Paint(ms, b), r) == PaintAt(BlockAt(ms, r), r, b)
    {
      PaintedAt(ms, b, r);
    }
    if forall r :: Alike(ms, a, b, r) {
      forall r | IsRef(Paint(ms, a), r) ensures BlockAt(Paint(ms, a), r) == BlockAt(Paint(ms, b), r) {
        PaintedAt(ms, a, r);
        assert Alike(ms, a, b, r);
      }
      SameMessages(Paint(ms, a), Paint(ms, b));
    }
  }

  // ----- both laws -----

  /** A second pass changes something exactly when the edit is not let through at its first turn, would be once
      the others and the limits have cleared what they clear, and has something left to clear. */
  lemma {:induction false} GateIdempotentExactly(size: Size, ms: seq<Message>, before: seq<Edit>, edit: Edit,
                                                 after: seq<Edit>, ignored: seq<string>, limits: HardLimits)
    requires AllStructural(before + after)
    ensures var edits := before + [edit] + after;
            var once := Apply(size, ms, edits, ignored, limits).messages;
            Apply(size, once, edits, ignored, limits).messages == once
            <==> !(&& !OpenFirst(size, ms, before, edit) && OpenLater(size, ms, before + after, edit, limits)
                   && LeftToClear(size, ms, before + after, edit, limits))
  {
    hide Paint, Apply, Open, Potential, LeftToClear, Rest, AllStructural;
    var others, gate := before + after, GateMarks(size, ms, before, edit);
    var rest := Rest(size, ms, others, limits);
    OneGatePaints(size, ms, before, edit, after, ignored, limits);
    var once := Paint(ms, rest + gate);
    OneGatePaints(size, once, before, edit, after, ignored, limits);
    SecondPass(size, ms, before, edit, after, limits);
    GateMatters(size, ms, others, edit, limits);
    if OpenFirst(size, ms, before, edit) {
      assert rest + gate + gate == rest + gate && rest + gate + {} == rest + gate;
    } else {
      assert rest + gate == rest && rest + {} == rest;
    }
  }

  /** On the result of a pass, another one paints the edit's own marks if it is let through there. */
  lemma {:induction false} SecondPass(size: Size, ms: seq<Message>, before: seq<Edit>, edit: Edit, after: seq<Edit>,
                                      limits: HardLimits)
    ensures var others := before + after;
            var marks := Rest(size, ms, others, limits) + GateMarks(size, ms, before, edit);
            var once := Paint(ms, marks);
            Paint(once, Rest(size, once, others, limits) + GateMarks(size, once, before, edit))
              == Paint(ms, marks + if Open(size, once, edit) then Potential(ms, edit) else {})
  {
    hide Paint, Open, Potential, LimitSizeMarks, LimitShapeMarks, EditsMarks, Rest, Sane;
    var others := before + after;
    var marks := Rest(size, ms, others, limits) + GateMarks(size, ms, before, edit);
    var once := Paint(ms, marks);
    GateSane(size, ms, ShapeMarks(ms, others, limits), before, edit);
    RestOnceMore(size, ms, others, GateMarks(size, ms, before, edit), limits);
    PaintKeepsShape(ms, marks);
    PotentialShape(ms, once, edit);
    OthersDone(size, ms, before, after, marks, limits);
    var again := GateMarks(size, once, before, edit);
    PaintTwice(ms, marks, Rest(size, once, others, limits) + again);
    assert marks + (Rest(size, once, others, limits) + again) == marks + again;
  }

  lemma {:induction false} OthersDone(size: Size, ms: seq<Message>, before: seq<Edit>, after: seq<Edit>,
                                      marks: set<Mark>, limits: HardLimits)
    requires Rest(size, ms, before + after, limits) <= marks
    ensures var once := Paint(ms, marks); Paint(once, EditsMarks(once, before)) == once
  {
    hide Paint, LimitSizeMarks, LimitShapeMarks, EditsMarks;
    MarksOfBoth(ms, before, after);
    PaintKeepsShape(ms, marks);
    EditsMarksShape(ms, Paint(ms, marks), before);
    PaintTwice(ms, marks, EditsMarks(ms, before));
    assert marks + EditsMarks(ms, before) == marks;
  }

  /** Where the edit stands among the others matters exactly when it is let through at one of the two places
      only, and has something left to clear. */
  lemma {:induction false} GateOrderExactly(size: Size, ms: seq<Message>, before: seq<Edit>, after: seq<Edit>,
                                            before': seq<Edit>, after': seq<Edit>, edit: Edit,
                                            ignored: seq<string>, limits: HardLimits)
    requires AllStructural(before + after)
    requires forall e :: e in before + after <==> e in before' + after'
    ensures Apply(size, ms, before + [edit] + after, ignored, limits).messages
      == Apply(size, ms, before' + [edit] + after', ignored, limits).messages
      <==> !(&& OpenFirst(size, ms, before, edit) != OpenFirst(size, ms, before', edit)
             && LeftToClear(size, ms, before + after, edit, limits))
  {
    hide Paint, Apply, OpenFirst, Potential, LeftToClear, LimitShapeMarks, LimitSizeMarks, EditMarks, Structural;
    OneGatePaints(size, ms, before, edit, after, ignored, limits);
    OneGatePaints(size, ms, before', edit, after', ignored, limits);
    assert EditsMarks(ms, before + after) == EditsMarks(ms, before' + after');
    GateMatters(size, ms, before + after, edit, limits);
    var rest := Rest(size, ms, before + after, limits);
    assert rest + {} == rest;
  }
}

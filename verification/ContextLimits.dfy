/** What the hard limits leave alone, and why edits that count tokens are not idempotent. */
module ContextLimits {
  import opened Json
  import opened Context
  import opened ContextPairs
  import opened ContextLaws
  import opened ContextAccounts

  /** The block is a result of an interaction that is not among the newest `keep`. */
  ghost predicate OverToolLimit(ms: seq<Message>, limit: Option<nat>, r: Ref) {
    var xs := Collect(ms);
    limit.Some? && exists i :: 0 <= i < |xs| - limit.value && r in xs[i].toolResults
  }

  /** The block is thinking in an assistant message that is not among the newest `keep` with thinking. */
  ghost predicate OverThinkingLimit(ms: seq<Message>, limit: Option<nat>, r: Ref) {
    var turns := ThinkingTurns(ms, |ms|);
    && limit.Some? && IsRef(ms, r) && IsThinking(BlockAt(ms, r).blockType)
    && exists i :: 0 <= i < |turns| - limit.value && turns[i] == r.message
  }

  ghost predicate OverLimit(size: Size, ms: seq<Message>, limits: HardLimits, r: Ref) {
    || OverToolLimit(ms, limits.toolUses, r)
    || OverThinkingLimit(ms, limits.thinkingTurns, r)
    || (limits.resultChars.Some? && IsRef(ms, r) && Oversized(size, BlockAt(ms, r), limits.resultChars.value))
  }

  lemma {:induction false} UnmarkedByTools(ms: seq<Message>, keep: nat, r: Ref, part: Part)
    requires !OverToolLimit(ms, Some(keep), r)
    ensures Mark(r, part) !in ToolPolicyMarks(ms, LimitPolicy(keep))
  {
    var xs := Collect(ms);
    var picked := Candidates(xs, LimitPolicy(keep));
    EligibleAll(xs, |xs|);
    hide Collect, PickedMarks, Eligible;
    PickedMarkFrom(xs, picked, false, Mark(r, part));
    forall i | 0 <= i < |picked| ensures Mark(r, part) !in InteractionMarks(xs[picked[i]], false) {
      assert picked[i] == i;
    }
  }

  lemma {:induction false} UnmarkedByThinking(ms: seq<Message>, keep: nat, r: Ref, part: Part)
    requires !OverThinkingLimit(ms, Some(keep), r)
    ensures Mark(r, part) !in TurnMarks(ms, OldTurns(ms, keep))
  {
    hide ThinkingTurns, IsThinking, HasThinking;
    var turns, stale := ThinkingTurns(ms, |ms|), OldTurns(ms, keep);
    forall i, j | 0 <= i < |stale| && 0 <= j < |ms[stale[i]].blocks| && IsThinking(ms[stale[i]].blocks[j].blockType)
      ensures Ref(stale[i], j) != r
    {
      assert turns[i] == stale[i];
    }
  }

  lemma {:induction false} UnmarkedByShape(ms: seq<Message>, limits: HardLimits, r: Ref)
    requires !OverToolLimit(ms, limits.toolUses, r) && !OverThinkingLimit(ms, limits.thinkingTurns, r)
    ensures forall part :: Mark(r, part) !in LimitShapeMarks(ms, limits)
  {
    hide OverToolLimit, OverThinkingLimit, ToolPolicyMarks, TurnMarks, OldTurns;
    forall part ensures Mark(r, part) !in LimitShapeMarks(ms, limits) {
      if limits.toolUses.Some? { UnmarkedByTools(ms, limits.toolUses.value, r, part); }
      if limits.thinkingTurns.Some? { UnmarkedByThinking(ms, limits.thinkingTurns.value, r, part); }
    }
  }

  lemma {:induction false} UnmarkedSame(ms: seq<Message>, marks: set<Mark>, r: Ref)
    requires IsRef(ms, r) && forall part :: Mark(r, part) !in marks
    ensures IsRef(Paint(ms, marks), r) && BlockAt(Paint(ms, marks), r) == BlockAt(ms, r)
  {
    PaintedAt(ms, marks, r);
  }

  /** The hard limits change no block but those over a limit: with HardLimitsHold, the newest
      interactions and turns, and results within the size limit, stay exactly as they were. */
  lemma {:induction false} LimitsSpareTheRest(size: Size, ms: seq<Message>, limits: HardLimits, r: Ref)
    requires IsRef(ms, r) && !OverLimit(size, ms, limits, r)
    ensures var after := ApplyLimits(size, ms, limits).0;
            IsRef(after, r) && BlockAt(after, r) == BlockAt(ms, r)
  {
    hide Paint, ApplyLimits, LimitShapeMarks, OverToolLimit, OverThinkingLimit, Oversized;
    LimitsPaint(size, ms, limits);
    UnmarkedByShape(ms, limits, r);
    var shaped := Paint(ms, LimitShapeMarks(ms, limits));
    UnmarkedSame(ms, LimitShapeMarks(ms, limits), r);
    forall part ensures Mark(r, part) !in LimitSizeMarks(size, shaped, limits) {
      assert BlockAt(shaped, r) == shaped[r.message].blocks[r.block];
    }
    UnmarkedSame(shaped, LimitSizeMarks(size, shaped, limits), r);
  }

  // ----- edits that count tokens -----

  /** One call whose result is empty. */
  const CALL := Block("tool_use", Some("a"), None, None, None, Null, None, Null, Null, map[])
  const ANSWER := Block("tool_result", None, None, Some("a"), None, Null, None, Null, Null, map[])
  const HISTORY := [Message("assistant", None, [CALL]), Message("user", None, [ANSWER])]

  const KEEP_NONE := Obj(map["type" := Str(Lit("tool_uses")), "value" := Num(0.0)])

  /** Clears inputs too, once ten tokens can be cleared. */
  const GATED := Edit("clear_tool_uses", None, KEEP_NONE, Some(Threshold("input_tokens", 10)), [], true)
  const PLAIN := Edit("clear_tool_uses", None, KEEP_NONE, None, [], false)

  const NO_LIMITS := HardLimits(None, None, None)

  lemma {:induction false} OneCall(call: Block, answer: Block)
    requires Frame(call) == Frame(CALL) && Frame(answer) == Frame(ANSWER)
    ensures Collect([Message("assistant", None, [call]), Message("user", None, [answer])])
      == [Interaction(None, Ref(0, 0), [Ref(1, 0)])]
  {
    FrameFields(call, CALL);
    FrameFields(answer, ANSWER);
    var ms := [Message("assistant", None, [call]), Message("user", None, [answer])];
    var one := Scanned([Interaction(None, Ref(0, 0), [])], map["a" := 0]);
    var two := Scanned([Interaction(None, Ref(0, 0), [Ref(1, 0)])], map["a" := 0]);
    assert Visit(Scanned([], map[]), Ref(0, 0), call) == one;
    assert one.interactions[0 := two.interactions[0]] == two.interactions && [] + [Ref(1, 0)] == [Ref(1, 0)];
    assert Visit(one, Ref(1, 0), answer) == two;
    hide Visit;
    assert Scan(ms, two, 2, 0) == two;
    assert Scan(ms, two, 1, 1) == two;
    assert Scan(ms, one, 1, 0) == two;
    assert Scan(ms, one, 0, 1) == two;
  }

  /** What the two edits make of this history when the call and the answer are as given. */
  function History(call: Block, answer: Block): seq<Message> {
    [Message("assistant", None, [call]), Message("user", None, [answer])]
  }

  lemma {:induction false} PolicyOfKeepNone(edit: Edit)
    requires edit == GATED || edit == PLAIN
    ensures PolicyOf(edit) == ToolPolicy("clear_tool_uses", 0, {}, edit.clearToolInputs, edit.clearAtLeast)
    ensures IsToolEdit(edit) && !IsThinkingEdit(edit)
  {
    assert KeepValue(KEEP_NONE, "tool_uses") == Some(0);
    assert !("clear_thinking" <= "clear_tool_uses") by {
      assert "clear_thinking"[7] == 'h' && "clear_tool_uses"[7] == 'o';
    }
  }

  lemma {:induction false} EditOnHistory(size: Size, call: Block, answer: Block, edit: Edit)
    requires Frame(call) == Frame(CALL) && Frame(answer) == Frame(ANSWER)
    requires edit == GATED || edit == PLAIN
    ensures var chars := ToolResultChars(size, answer) + if edit.clearToolInputs then JsonChars(size, call.input)
      else 0;
            ApplyEdit(size, History(call, answer), edit).messages
              == if GateCloses(edit.clearAtLeast, chars) then History(call, answer)
                 else History(if edit.clearToolInputs then call.(input := Obj(map[])) else call,
                              answer.(content := TOOL_RESULT_PLACEHOLDER, text := None))
  {
    var ms := History(call, answer);
    var x := Interaction(None, Ref(0, 0), [Ref(1, 0)]);
    OneCall(call, answer);
    PolicyOfKeepNone(edit);
    CollectIn(ms);
    var policy := PolicyOf(edit);
    EligibleAll([x], 1);
    assert Candidates([x], policy) == [0];
    hide Collect, Frame, PolicyOf, Eligible, Candidates;
    PickOne(size, ms, x, policy.clearInputs);
    PaintHistory(call, answer, policy.clearInputs);
  }

  lemma {:induction false} PickOne(size: Size, ms: seq<Message>, x: Interaction, clearInputs: bool)
    requires InteractionIn(ms, x) && |x.toolResults| == 1
    ensures PickedChars(size, ms, [x], [0], clearInputs) == InteractionChars(size, ms, x, clearInputs)
    ensures PickedMarks([x], [0], clearInputs) == InteractionMarks(x, clearInputs)
    ensures InteractionChars(size, ms, x, clearInputs)
      == ToolResultChars(size, BlockAt(ms, x.toolResults[0])) + if clearInputs
        then JsonChars(size, BlockAt(ms, x.toolUse).input) else 0
  {
    assert [0][..0] == [] && x.toolResults[..0] == [];
    assert PickedChars(size, ms, [x], [], clearInputs) == 0 && PickedMarks([x], [], clearInputs) == {};
    assert ResultChars(size, ms, []) == 0;
  }

  lemma {:induction false} PaintHistory(call: Block, answer: Block, clearInputs: bool)
    ensures Paint(History(call, answer), InteractionMarks(Interaction(None, Ref(0, 0), [Ref(1, 0)]), clearInputs))
      == History(if clearInputs then call.(input := Obj(map[]))
        else call, answer.(content := TOOL_RESULT_PLACEHOLDER, text := None))
  {
    var ms := History(call, answer);
    var marks := InteractionMarks(Interaction(None, Ref(0, 0), [Ref(1, 0)]), clearInputs);
    var after := History(if clearInputs then call.(input := Obj(map[]))
      else call, answer.(content := TOOL_RESULT_PLACEHOLDER, text := None));
    forall r | IsRef(ms, r) ensures BlockAt(Paint(ms, marks), r) == BlockAt(after, r) {
      PaintedAt(ms, marks, r);
      assert r == Ref(0, 0) || r == Ref(1, 0);
    }
    SameMessages(Paint(ms, marks), after);
  }

  lemma {:induction false} TwoEdits(size: Size, ms: seq<Message>, first: Edit, second: Edit)
    ensures Apply(size, ms, [first, second], [], NO_LIMITS).messages
      == ApplyEdit(size, ApplyEdit(size, ms, first).messages, second).messages
  {
    hide ApplyEdit;
    var edits := [first, second];
    assert ApplyEdits(size, ms, edits, [], 0).messages == ms;
    assert ApplyEdits(size, ms, edits, [], 1).messages == ApplyEdit(size, ms, first).messages;
    CollectIn(ApplyEdits(size, ms, edits, [], 2).messages);
  }

  /** With a gate that counts tokens neither law holds in general: a second pass can clear more, because the
      placeholders written by the first count, and the order of the edits matters. The placeholder has 58
      characters, 60 with its quotes, which count as 15 tokens. */
  lemma {:induction false} TokenGatesBreakTheLaws(size: Size)
    requires EstimateTokens(size(TOOL_RESULT_PLACEHOLDER)) >= 10
    ensures var once := Apply(size, HISTORY, [GATED, PLAIN], [], NO_LIMITS).messages;
            && Apply(size, once, [GATED, PLAIN], [], NO_LIMITS).messages != once
            && Apply(size, HISTORY, [PLAIN, GATED], [], NO_LIMITS).messages != once
  {
    hide ApplyEdit, Frame, Apply;
    var filled := ANSWER.(content := TOOL_RESULT_PLACEHOLDER);
    var emptied := CALL.(input := Obj(map[]));
    assert Frame(filled) == Frame(ANSWER) && Frame(emptied) == Frame(CALL) by { FramesSame(); }
    forall ms, first, second
      ensures Apply(size, ms, [first, second], [], NO_LIMITS).messages
        == ApplyEdit(size, ApplyEdit(size, ms, first).messages, second).messages
    {
      TwoEdits(size, ms, first, second);
    }
    EditOnHistory(size, CALL, ANSWER, GATED);
    EditOnHistory(size, CALL, ANSWER, PLAIN);
    EditOnHistory(size, CALL, filled, GATED);
    EditOnHistory(size, emptied, filled, PLAIN);
    assert ApplyEdit(size, HISTORY, GATED).messages == HISTORY;
    assert ApplyEdit(size, HISTORY, PLAIN).messages == History(CALL, filled);
    assert ApplyEdit(size, History(CALL, filled), GATED).messages == History(emptied, filled);
    assert History(emptied, filled)[0].blocks[0].input != History(CALL, filled)[0].blocks[0].input;
  }

  lemma {:induction false} FramesSame()
    ensures Frame(ANSWER.(content := TOOL_RESULT_PLACEHOLDER)) == Frame(ANSWER)
    ensures Frame(CALL.(input := Obj(map[]))) == Frame(CALL)
  {
  }
}

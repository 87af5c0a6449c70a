/** What an edit clears, in its own fields: which interactions and turns it spares, when it is let through,
    and every block afterwards. */
module ContextFields {
  import opened Json
  import opened Context
  import opened ContextPairs
  import opened ContextLaws
  import opened ContextAccounts
  import opened ContextLimits
  import opened ContextTokens

  // ----- the fields of an edit -----

  /** A `keep` object of the right type, with a value that is a number and not negative. */
  predicate NamesKeep(keep: Json, kind: string) {
    && keep.Obj? && "type" in keep.fields && keep.fields["type"] == Str(Lit(kind))
    && "value" in keep.fields && keep.fields["value"].Num? && keep.fields["value"].n >= 0.0
  }

  /** How many interactions to keep: three unless the edit says. */
  function KeptUses(edit: Edit): nat {
    if NamesKeep(edit.keep, "tool_uses") then edit.keep.fields["value"].n.Floor else 3
  }

  /** How many thinking turns to keep: one unless the edit says; None keeps them all. */
  function KeptTurns(edit: Edit): Option<nat> {
    if edit.keep == Null then Some(1)
    else if NamesKeep(edit.keep, "thinking_turns") then Some(edit.keep.fields["value"].n.Floor)
    else None
  }

  predicate Shielded(edit: Edit, x: Interaction) {
    x.name.Some? && x.name.value in edit.excludeTools
  }

  /** How many interactions after position `i` are not shielded. */
  function Newer(edit: Edit, xs: seq<Interaction>, i: nat): nat
    decreases |xs|
  {
    if |xs| <= i + 1 then 0
    else
      var last := xs[|xs| - 1];
      Newer(edit, xs[..|xs| - 1], i) + if Shielded(edit, last) then 0 else 1
  }

  /** Shielded tools are spared, and of the others the newest. */
  predicate Spares(edit: Edit, xs: seq<Interaction>, i: nat)
    requires i < |xs|
  {
    Shielded(edit, xs[i]) || Newer(edit, xs, i) < KeptUses(edit)
  }

  // ----- when it is let through -----

  function Chars(size: Size, v: Json): nat {
    if v == Null then 0 else size(v)
  }

  function Length(text: Option<string>): nat {
    if text.Some? then |text.value| else 0
  }

  function CharsOfResults(size: Size, ms: seq<Message>, refs: seq<Ref>): nat
    requires AreRefs(ms, refs)
  {
    if refs == [] then 0
    else
      var b := BlockAt(ms, refs[0]);
      Chars(size, b.content) + Length(b.text) + CharsOfResults(size, ms, refs[1..])
  }

  /** What there is to clear in one interaction. */
  function CharsOf(size: Size, ms: seq<Message>, edit: Edit, x: Interaction): nat
    requires InteractionIn(ms, x)
  {
    CharsOfResults(size, ms, x.toolResults)
    + if edit.clearToolInputs then Chars(size, BlockAt(ms, x.toolUse).input) else 0
  }

  /** What there is to clear in the interactions before position `n` that are not spared. */
  function Clearable(size: Size, ms: seq<Message>, edit: Edit, xs: seq<Interaction>, n: nat): nat
    requires AllIn(ms, xs) && n <= |xs|
  {
    if n == 0 then 0
    else Clearable(size, ms, edit, xs, n - 1)
         + if Spares(edit, xs, n - 1) then 0 else CharsOf(size, ms, edit, xs[n - 1])
  }

  /** Four characters to a token, rounded up. */
  function Tokens(chars: nat): nat {
    if chars % 4 == 0 then chars / 4 else chars / 4 + 1
  }

  function Capped(t: Threshold): nat {
    if t.value <= 9223372036854775807 then t.value else 9223372036854775807
  }

  function CharsOfBlocks(size: Size, blocks: seq<Block>): nat {
    if blocks == [] then 0
    else
      var b := blocks[0];
      2 * Length(b.text) + Chars(size, b.input) + Chars(size, b.content)
      + (if "thinking" in b.extra && b.extra["thinking"].StringValue? then |b.extra["thinking"].s| else 0)
      + CharsOfBlocks(size, blocks[1..])
  }

  /** All that is counted in a history: a text block's text counts twice. */
  function CharsOfAll(size: Size, ms: seq<Message>): nat {
    if ms == [] then 0
    else
      (if ms[0].text.Some? then |ms[0].text.value| else CharsOfBlocks(size, ms[0].blocks))
      + CharsOfAll(size, ms[1..])
  }

  predicate Triggered(size: Size, ms: seq<Message>, edit: Edit) {
    || edit.trigger == None
    || (edit.trigger.value.thresholdType == "tool_uses" && |Collect(ms)| > Capped(edit.trigger.value))
    || (edit.trigger.value.thresholdType == "input_tokens" && Tokens(CharsOfAll(size, ms)) > Capped(edit.trigger.value))
  }

  /** The edit clears at least as many tokens as it asks for. */
  predicate Worthwhile(size: Size, ms: seq<Message>, edit: Edit) {
    CollectIn(ms);
    edit.clearAtLeast.Some? && edit.clearAtLeast.value.thresholdType == "input_tokens" ==>
      Tokens(Clearable(size, ms, edit, Collect(ms), |Collect(ms)|)) >= Capped(edit.clearAtLeast.value)
  }

  predicate LetThrough(size: Size, ms: seq<Message>, edit: Edit) {
    Triggered(size, ms, edit) && Worthwhile(size, ms, edit)
  }

  // ----- every block afterwards -----

  predicate ClearsResult(size: Size, ms: seq<Message>, edit: Edit, r: Ref) {
    LetThrough(size, ms, edit)
    && exists i :: 0 <= i < |Collect(ms)| && !Spares(edit, Collect(ms), i) && r in Collect(ms)[i].toolResults
  }

  predicate ClearsInput(size: Size, ms: seq<Message>, edit: Edit, r: Ref) {
    LetThrough(size, ms, edit) && edit.clearToolInputs
    && exists i :: 0 <= i < |Collect(ms)| && !Spares(edit, Collect(ms), i) && r == Collect(ms)[i].toolUse
  }

  function Rewritten(b: Block, result: bool, input: bool): Block {
    b.(content := if result then Str(Lit("Tool result content cleared by gateway context management.")) else b.content,
       text := if result then None else b.text,
       input := if input then Obj(map[]) else b.input)
  }

  /** An assistant message with a block of thinking. */
  predicate Thinks(m: Message) {
    m.role == "assistant"
    && exists j :: 0 <= j < |m.blocks| && (m.blocks[j].blockType == "thinking"
                                           || m.blocks[j].blockType == "redacted_thinking")
  }

  function LaterThoughts(ms: seq<Message>, i: nat): nat
    decreases |ms|
  {
    if |ms| <= i + 1 then 0
    else LaterThoughts(ms[..|ms| - 1], i) + if Thinks(ms[|ms| - 1]) then 1 else 0
  }

  predicate ClearsThought(ms: seq<Message>, edit: Edit, r: Ref)
    requires IsRef(ms, r)
  {
    && KeptTurns(edit).Some? && Thinks(ms[r.message]) && LaterThoughts(ms, r.message) >= KeptTurns(edit).value
    && (BlockAt(ms, r).blockType == "thinking" || BlockAt(ms, r).blockType == "redacted_thinking")
  }

  // ----- the fields mean what the policies say -----

  lemma {:induction false} KeepMeans(edit: Edit)
    ensures PolicyOf(edit).keep == KeptUses(edit) && KeepThinkingTurns(edit.keep) == KeptTurns(edit)
  {
  }

  lemma {:induction false} ShieldedMeans(edit: Edit, x: Interaction)
    ensures Excluded(x, PolicyOf(edit).exclude) <==> Shielded(edit, x)
  {
  }

  lemma {:induction false} NewerMeans(edit: Edit, xs: seq<Interaction>, i: nat, n: nat)
    requires i < n <= |xs|
    ensures Newer(edit, xs, i) == Newer(edit, xs[..n], i) + EligibleFrom(xs, PolicyOf(edit).exclude, n)
    decreases |xs| - n
  {
    hide Excluded, Shielded, PolicyOf;
    if n == |xs| {
      assert xs[..n] == xs;
    } else {
      NewerMeans(edit, xs, i, n + 1);
      ShieldedMeans(edit, xs[n]);
      assert xs[..n + 1][..n] == xs[..n];
    }
  }

  lemma {:induction false} SparesMeans(edit: Edit, xs: seq<Interaction>, i: nat)
    requires i < |xs|
    ensures i in Candidates(xs, PolicyOf(edit)) <==> !Spares(edit, xs, i)
  {
    hide Candidates, Excluded, Shielded, PolicyOf, KeptUses;
    CandidateIff(xs, PolicyOf(edit), i);
    ShieldedMeans(edit, xs[i]);
    KeepMeans(edit);
    NewerMeans(edit, xs, i, i + 1);
    assert Newer(edit, xs[..i + 1], i) == 0;
  }

  lemma {:induction false} ResultsMean(size: Size, ms: seq<Message>, refs: seq<Ref>)
    requires AreRefs(ms, refs)
    ensures ResultChars(size, ms, refs) == CharsOfResults(size, ms, refs)
    decreases |refs|
  {
    if refs != [] {
      ResultsMean(size, ms, refs[..|refs| - 1]);
      ResultsLast(size, ms, refs);
    }
  }

  lemma {:induction false} ResultsLast(size: Size, ms: seq<Message>, refs: seq<Ref>)
    requires AreRefs(ms, refs) && refs != []
    ensures var b := BlockAt(ms, refs[|refs| - 1]);
            CharsOfResults(size, ms, refs)
              == CharsOfResults(size, ms, refs[..|refs| - 1]) + Chars(size, b.content) + Length(b.text)
    decreases |refs|
  {
    hide Chars, Length;
    if |refs| > 1 {
      ResultsLast(size, ms, refs[1..]);
      assert refs[1..][..|refs| - 2] == refs[..|refs| - 1][1..];
    } else {
      assert refs[1..] == [] && refs[..0] == [];
    }
  }

  lemma {:induction false} InteractionMeans(size: Size, ms: seq<Message>, edit: Edit, x: Interaction)
    requires InteractionIn(ms, x)
    ensures InteractionChars(size, ms, x, edit.clearToolInputs) == CharsOf(size, ms, edit, x)
  {
    ResultsMean(size, ms, x.toolResults);
  }

  /** Summing over the picked interactions is summing over those that are not spared. */
  lemma {:induction false} ClearableMeans(size: Size, ms: seq<Message>, edit: Edit, xs: seq<Interaction>,
                                          picked: seq<nat>, n: nat)
    requires AllIn(ms, xs) && Picks(xs, picked) && Increasing(picked) && n <= |xs|
    requires forall k | 0 <= k < |picked| :: picked[k] < n
    requires forall i: nat | i < n :: i in picked <==> !Spares(edit, xs, i)
    ensures PickedChars(size, ms, xs, picked, edit.clearToolInputs) == Clearable(size, ms, edit, xs, n)
    decreases n
  {
    hide Spares, CharsOf, InteractionChars;
    if n > 0 {
      if n - 1 in picked {
        var last := |picked| - 1;
        LastPicked(picked, n - 1);
        assert forall i: nat | i < n - 1 :: i in picked[..last] <==> i in picked by {
          WithoutLast(picked, n - 1);
        }
        ClearableMeans(size, ms, edit, xs, picked[..last], n - 1);
        InteractionMeans(size, ms, edit, xs[n - 1]);
      } else {
        forall k | 0 <= k < |picked| ensures picked[k] < n - 1 {
          assert picked[k] in picked;
        }
        ClearableMeans(size, ms, edit, xs, picked, n - 1);
      }
    } else {
      assert picked == [];
    }
  }

  lemma {:induction false} LastPicked(picked: seq<nat>, top: nat)
    requires Increasing(picked) && top in picked && forall k | 0 <= k < |picked| :: picked[k] <= top
    ensures picked[|picked| - 1] == top
    ensures forall k | 0 <= k < |picked| - 1 :: picked[k] < top
  {
    var k :| 0 <= k < |picked| && picked[k] == top;
    assert picked[k] <= picked[|picked| - 1];
  }

  lemma {:induction false} WithoutLast(picked: seq<nat>, top: nat)
    requires picked != [] && picked[|picked| - 1] == top
    ensures forall i: nat | i < top :: i in picked[..|picked| - 1] <==> i in picked
  {
    assert picked == picked[..|picked| - 1] + [top];
  }

  lemma {:induction false} TokensMean(chars: nat)
    ensures EstimateTokens(chars) == Tokens(chars)
  {
  }

  lemma {:induction false} BlocksLast(size: Size, blocks: seq<Block>)
    requires blocks != []
    ensures CharsOfBlocks(size, blocks)
      == CharsOfBlocks(size, blocks[..|blocks| - 1]) + CharsOfBlocks(size, [blocks[|blocks| - 1]])
    decreases |blocks|
  {
    hide Chars, Length;
    if |blocks| > 1 {
      BlocksLast(size, blocks[1..]);
      assert blocks[1..][..|blocks| - 2] == blocks[..|blocks| - 1][1..];
      assert blocks[1..][|blocks| - 2] == blocks[|blocks| - 1];
    } else {
      assert blocks == [blocks[0]] && blocks[..0] == [];
    }
  }

  lemma {:induction false} BlocksMean(size: Size, blocks: seq<Block>)
    ensures BlocksChars(size, blocks) == CharsOfBlocks(size, blocks)
    decreases |blocks|
  {
    if blocks != [] {
      BlocksMean(size, blocks[..|blocks| - 1]);
      BlocksLast(size, blocks);
      assert [blocks[|blocks| - 1]][1..] == [];
    }
  }

  lemma {:induction false} AllLast(size: Size, ms: seq<Message>)
    requires ms != []
    ensures CharsOfAll(size, ms) == CharsOfAll(size, ms[..|ms| - 1]) + CharsOfAll(size, [ms[|ms| - 1]])
    decreases |ms|
  {
    hide CharsOfBlocks;
    if |ms| > 1 {
      AllLast(size, ms[1..]);
      assert ms[1..][..|ms| - 2] == ms[..|ms| - 1][1..];
      assert ms[1..][|ms| - 2] == ms[|ms| - 1];
    } else {
      assert ms == [ms[0]] && ms[..0] == [];
    }
  }

  lemma {:induction false} AllMean(size: Size, ms: seq<Message>)
    ensures MessagesChars(size, ms) == CharsOfAll(size, ms)
    decreases |ms|
  {
    hide CharsOfBlocks, BlocksChars;
    if ms != [] {
      AllMean(size, ms[..|ms| - 1]);
      AllLast(size, ms);
      assert [ms[|ms| - 1]][1..] == [];
      BlocksMean(size, ms[|ms| - 1].blocks);
    }
  }

  lemma {:induction false} TriggerMeans(size: Size, ms: seq<Message>, edit: Edit)
    ensures TriggerActive(size, ms, Collect(ms), edit.trigger) <==> Triggered(size, ms, edit)
  {
    hide Collect, CharsOfAll, MessagesChars;
    AllMean(size, ms);
    TokensMean(MessagesChars(size, ms));
    assert "tool_uses" != "input_tokens" by { assert |"tool_uses"| == 9 && |"input_tokens"| == 12; }
  }

  lemma {:induction false} OpenMeans(size: Size, ms: seq<Message>, edit: Edit)
    ensures ToolEditOpen(size, ms, edit) <==> LetThrough(size, ms, edit)
  {
    hide Collect, Candidates, PickedChars, Clearable, Spares, Triggered, TriggerActive, PolicyOf;
    CollectIn(ms);
    TriggerMeans(size, ms, edit);
    PolicyKeepsGate(edit);
    var xs := Collect(ms);
    var picked := Candidates(xs, PolicyOf(edit));
    CandidatesIncreasing(xs, PolicyOf(edit));
    forall i: nat | i < |xs| ensures i in picked <==> !Spares(edit, xs, i) { SparesMeans(edit, xs, i); }
    ClearableMeans(size, ms, edit, xs, picked, |xs|);
    TokensMean(Clearable(size, ms, edit, xs, |xs|));
  }

  // ----- tool edits -----

  lemma {:induction false} MarkedResult(ms: seq<Message>, edit: Edit, r: Ref)
    ensures Mark(r, Result) in ToolPolicyMarks(ms, PolicyOf(edit))
      <==> exists i :: 0 <= i < |Collect(ms)| && !Spares(edit, Collect(ms), i) && r in Collect(ms)[i].toolResults
  {
    hide Collect, Candidates, Spares, PolicyOf;
    var xs := Collect(ms);
    var picked := Candidates(xs, PolicyOf(edit));
    PolicyKeepsGate(edit);
    PickedMarkFrom(xs, picked, PolicyOf(edit).clearInputs, Mark(r, Result));
    hide PickedMarks;
    if k :| 0 <= k < |picked| && Mark(r, Result) in InteractionMarks(xs[picked[k]], PolicyOf(edit).clearInputs) {
      SparesMeans(edit, xs, picked[k]);
      assert picked[k] in picked;
    }
    if i :| 0 <= i < |xs| && !Spares(edit, xs, i) && r in xs[i].toolResults {
      SparesMeans(edit, xs, i);
      var k :| 0 <= k < |picked| && picked[k] == i;
      assert Mark(r, Result) in InteractionMarks(xs[picked[k]], PolicyOf(edit).clearInputs);
    }
  }

  lemma {:induction false} MarkedInput(ms: seq<Message>, edit: Edit, r: Ref)
    ensures Mark(r, Input) in ToolPolicyMarks(ms, PolicyOf(edit))
      <==> && edit.clearToolInputs
           && exists i :: 0 <= i < |Collect(ms)| && !Spares(edit, Collect(ms), i) && r == Collect(ms)[i].toolUse
  {
    hide Collect, Candidates, Spares, PolicyOf;
    var xs := Collect(ms);
    var picked := Candidates(xs, PolicyOf(edit));
    PolicyKeepsGate(edit);
    PickedMarkFrom(xs, picked, PolicyOf(edit).clearInputs, Mark(r, Input));
    hide PickedMarks;
    if k :| 0 <= k < |picked| && Mark(r, Input) in InteractionMarks(xs[picked[k]], PolicyOf(edit).clearInputs) {
      SparesMeans(edit, xs, picked[k]);
      assert picked[k] in picked;
    }
    if edit.clearToolInputs {
      if i :| 0 <= i < |xs| && !Spares(edit, xs, i) && r == xs[i].toolUse {
        SparesMeans(edit, xs, i);
        var k :| 0 <= k < |picked| && picked[k] == i;
        assert Mark(r, Input) in InteractionMarks(xs[picked[k]], PolicyOf(edit).clearInputs);
      }
    }
  }

  lemma {:induction false} NoThoughtMarked(ms: seq<Message>, edit: Edit, r: Ref)
    ensures Mark(r, Thinking) !in ToolPolicyMarks(ms, PolicyOf(edit))
  {
    hide Collect, Candidates, PolicyOf;
    var xs := Collect(ms);
    PickedMarkFrom(xs, Candidates(xs, PolicyOf(edit)), PolicyOf(edit).clearInputs, Mark(r, Thinking));
  }

  /** Every block after a tool edit, for any history and edit: results are replaced exactly in the interactions that
      are not spared, inputs exactly there and if the edit asks for it, and nothing at all unless trigger and
      gate let the edit through. */
  lemma {:induction false} ToolEditExactly(size: Size, ms: seq<Message>, edit: Edit, r: Ref)
    requires IsToolEdit(edit) && !IsThinkingEdit(edit) && IsRef(ms, r)
    ensures var after := ApplyEdit(size, ms, edit).messages;
            && IsRef(after, r)
            && BlockAt(after, r)
                 == Rewritten(BlockAt(ms, r), ClearsResult(size, ms, edit, r), ClearsInput(size, ms, edit, r))
  {
    hide ApplyEdit, Collect, ToolPolicyMarks, PolicyOf, Spares, LetThrough, ToolEditOpen, Paint;
    EditOpensOrNot(size, ms, edit);
    OpenMeans(size, ms, edit);
    var marks := ToolPolicyMarks(ms, PolicyOf(edit));
    MarkedResult(ms, edit, r);
    MarkedInput(ms, edit, r);
    NoThoughtMarked(ms, edit, r);
    PaintedAt(ms, marks, r);
  }

  /** In particular a spared interaction keeps its results and its input. */
  lemma {:induction false} SparedKept(size: Size, ms: seq<Message>, edit: Edit, i: nat, r: Ref)
    requires IsToolEdit(edit) && !IsThinkingEdit(edit) && i < |Collect(ms)| && Spares(edit, Collect(ms), i)
    requires r == Collect(ms)[i].toolUse || r in Collect(ms)[i].toolResults
    ensures IsRef(ms, r) && IsRef(ApplyEdit(size, ms, edit).messages, r)
    ensures BlockAt(ApplyEdit(size, ms, edit).messages, r) == BlockAt(ms, r)
  {
    CollectIn(ms);
    CollectDisjoint(ms);
    CollectPairs(ms);
    ToolEditExactly(size, ms, edit, r);
    UseIsNoResult(ms, i, r);
    hide ApplyEdit, Collect, Spares, LetThrough;
    forall j | 0 <= j < |Collect(ms)| && j != i
      ensures r !in Collect(ms)[j].toolResults && r != Collect(ms)[j].toolUse
    {
      UseIsNoResult(ms, j, r);
      if r in Collect(ms)[i].toolResults { assert Apart(Collect(ms)[i].toolResults, Collect(ms)[j].toolResults); }
    }
  }

  /** A use is of another type than a result. */
  lemma {:induction false} UseIsNoResult(ms: seq<Message>, i: nat, r: Ref)
    requires i < |Collect(ms)|
    ensures r == Collect(ms)[i].toolUse ==> IsUse(ms, r)
    ensures r in Collect(ms)[i].toolResults ==> IsResult(ms, r)
    ensures !(IsUse(ms, r) && IsResult(ms, r))
  {
    CollectPairs(ms);
    hide Collect;
    assert |"tool_use"| == 8 && |"tool_result"| == 11;
    if r in Collect(ms)[i].toolResults { assert Answers(ms, r, Collect(ms)[i].toolUse); }
  }

  /** And where trigger and gate let the edit through, all the others are cleared. */
  lemma {:induction false} OthersCleared(size: Size, ms: seq<Message>, edit: Edit, i: nat, r: Ref)
    requires IsToolEdit(edit) && !IsThinkingEdit(edit) && LetThrough(size, ms, edit)
    requires i < |Collect(ms)| && !Spares(edit, Collect(ms), i)
    requires r == Collect(ms)[i].toolUse || r in Collect(ms)[i].toolResults
    ensures IsRef(ms, r) && IsRef(ApplyEdit(size, ms, edit).messages, r)
    ensures var b := BlockAt(ApplyEdit(size, ms, edit).messages, r);
            && (r in Collect(ms)[i].toolResults ==> Cleared(b))
            && (r == Collect(ms)[i].toolUse && edit.clearToolInputs ==> b.input == Obj(map[]))
  {
    CollectIn(ms);
    ToolEditExactly(size, ms, edit, r);
    hide ApplyEdit, Collect, Spares, LetThrough;
  }

  // ----- thinking edits -----

  lemma {:induction false} ThinksMeans(m: Message)
    ensures m.role == "assistant" && HasThinking(m) <==> Thinks(m)
  {
    if b :| b in m.blocks && IsThinking(b.blockType) {
      var j :| 0 <= j < |m.blocks| && m.blocks[j] == b;
    }
    if Thinks(m) {
      var j :| 0 <= j < |m.blocks| && (m.blocks[j].blockType == "thinking"
                                       || m.blocks[j].blockType == "redacted_thinking");
      assert m.blocks[j] in m.blocks;
    }
  }

  lemma {:induction false} TurnsStep(ms: seq<Message>, n: nat)
    requires 0 < n <= |ms|
    ensures ThinkingTurns(ms, n) == ThinkingTurns(ms, n - 1) + if Thinks(ms[n - 1]) then [n - 1] else []
  {
    ThinksMeans(ms[n - 1]);
    hide HasThinking, Thinks;
  }

  lemma {:induction false} TurnsBelow(ms: seq<Message>, n: nat)
    requires n <= |ms|
    ensures forall k | 0 <= k < |ThinkingTurns(ms, n)| :: ThinkingTurns(ms, n)[k] < n
    ensures Increasing(ThinkingTurns(ms, n))
  {
    hide HasThinking, Thinks;
    if n > 0 {
      TurnsBelow(ms, n - 1);
      TurnsStep(ms, n);
      hide ThinkingTurns;
    }
  }

  lemma {:induction false} TurnAmong(ms: seq<Message>, n: nat, i: nat)
    requires n <= |ms|
    ensures i in ThinkingTurns(ms, n) <==> i < n && Thinks(ms[i])
  {
    hide HasThinking, Thinks;
    if n > 0 {
      TurnAmong(ms, n - 1, i);
      TurnsStep(ms, n);
      hide ThinkingTurns;
    }
  }

  lemma {:induction false} OldAmong(ms: seq<Message>, keep: nat, i: nat)
    requires i in OldTurns(ms, keep)
    ensures i in ThinkingTurns(ms, |ms|)
  {
    hide ThinkingTurns;
  }

  /** The thinking turns up to a place, and the later ones. */
  lemma {:induction false} TurnsSplit(ms: seq<Message>, i: nat, n: nat)
    requires i < n <= |ms|
    ensures ThinkingTurns(ms, i) <= ThinkingTurns(ms, n)
    ensures |ThinkingTurns(ms, n)| == |ThinkingTurns(ms, i + 1)| + LaterThoughts(ms[..n], i)
    decreases n
  {
    hide HasThinking, Thinks;
    if n > i + 1 {
      TurnsSplit(ms, i, n - 1);
      ThinksMeans(ms[n - 1]);
      assert ms[..n][..n - 1] == ms[..n - 1];
    }
  }

  lemma {:induction false} OldTurnExactly(ms: seq<Message>, keep: nat, i: nat)
    requires i < |ms|
    ensures i in OldTurns(ms, keep) <==> Thinks(ms[i]) && LaterThoughts(ms, i) >= keep
  {
    hide HasThinking, Thinks;
    TurnsBelow(ms, |ms|);
    TurnsSplit(ms, i, |ms|);
    ThinksMeans(ms[i]);
    assert ms[..|ms|] == ms;
    var all, before := ThinkingTurns(ms, |ms|), ThinkingTurns(ms, i);
    if Thinks(ms[i]) {
      TurnHere(ms, i);
      hide ThinkingTurns;
      PrefixPosition(all, before, i, keep);
    } else {
      TurnAmong(ms, |ms|, i);
      hide ThinkingTurns;
      if i in OldTurns(ms, keep) { OldAmong(ms, keep, i); }
    }
  }

  lemma {:induction false} TurnHere(ms: seq<Message>, i: nat)
    requires i < |ms| && Thinks(ms[i])
    ensures ThinkingTurns(ms, i + 1) == ThinkingTurns(ms, i) + [i]
    ensures ThinkingTurns(ms, i) + [i] <= ThinkingTurns(ms, |ms|)
  {
    hide HasThinking, Thinks;
    ThinksMeans(ms[i]);
    if i + 1 < |ms| { TurnsSplit(ms, i + 1, |ms|); }
  }

  lemma {:induction false} ThoughtMarked(ms: seq<Message>, turns: seq<nat>, r: Ref)
    requires AreTurns(ms, turns) && IsRef(ms, r)
    ensures Mark(r, Thinking) in TurnMarks(ms, turns) <==> r.message in turns && IsThinking(BlockAt(ms, r).blockType)
    ensures Mark(r, Result) !in TurnMarks(ms, turns) && Mark(r, Input) !in TurnMarks(ms, turns)
  {
    if r.message in turns && IsThinking(BlockAt(ms, r).blockType) {
      var i :| 0 <= i < |turns| && turns[i] == r.message;
      assert Mark(Ref(turns[i], r.block), Thinking) in TurnMarks(ms, turns);
    }
  }

  const THOUGHT_CLEARED := "Thinking content cleared by gateway context management."

  /** Every block after a thinking edit: the thinking of the older turns is replaced, and nothing else. */
  lemma {:induction false} ThinkingEditExactly(size: Size, ms: seq<Message>, edit: Edit, r: Ref)
    requires IsThinkingEdit(edit) && IsRef(ms, r)
    ensures var after, b := ApplyEdit(size, ms, edit).messages, BlockAt(ms, r);
            && IsRef(after, r)
            && BlockAt(after, r) == if ClearsThought(ms, edit, r)
                 then b.(extra := b.extra["thinking" := StringValue(THOUGHT_CLEARED)], text := None) else b
  {
    hide Collect, KeepThinkingTurns, TurnMarks, OldTurns, Thinks, LaterThoughts, Paint, TurnChars, KeptTurns;
    KeepMeans(edit);
    if KeptTurns(edit).Some? {
      var keep := KeptTurns(edit).value;
      OldTurnExactly(ms, keep, r.message);
      ThoughtMarked(ms, OldTurns(ms, keep), r);
      PaintedAt(ms, TurnMarks(ms, OldTurns(ms, keep)), r);
    }
  }
}

/** Context management as the program runs it: loops that overwrite blocks of the message array in
    place. Each is proved to give the messages and the report that module Context describes. */
module ContextManager {
  import opened Json
  import opened Context
  import opened ContextPairs
  import opened ContextLaws
  import opened ContextAccounts

  class Manager {
    const enabled: bool
    const limits: HardLimits
    const size: Size

    constructor (enabled: bool, limits: HardLimits, size: Size)
      ensures this.enabled == enabled && this.limits == limits && this.size == size
    {
      this.enabled, this.limits, this.size := enabled, limits, size;
    }

    method Apply(messages: array<Message>, edits: seq<Edit>, ignored: seq<string>) returns (report: Report)
      modifies messages
      ensures !enabled ==> messages[..] == old(messages[..]) && report == Report([], [])
      ensures enabled ==> Pass(messages[..], report) == Context.Apply(size, old(messages[..]), edits, ignored, limits)
    {
      if !enabled {
        return Report([], []);
      }
      hide ApplyEdits, ApplyLimits;
      report := ApplyAll(messages, edits, ignored);
      var limited := ApplyHardLimits(messages);
      report := report.(applied := report.applied + limited);
    }

    method ApplyAll(messages: array<Message>, edits: seq<Edit>, ignored: seq<string>) returns (report: Report)
      modifies messages
      ensures Pass(messages[..], report) == ApplyEdits(size, old(messages[..]), edits, ignored, |edits|)
    {
      hide ApplyEdit, IsThinkingEdit, IsToolEdit;
      ghost var was := messages[..];
      report := Report([], ignored);
      for i := 0 to |edits|
        invariant Pass(messages[..], report) == ApplyEdits(size, was, edits, ignored, i)
      {
        var edit := edits[i];
        if IsThinkingEdit(edit) {
          var step := ApplyThinkingEdit(messages, edit);
          report := report.(applied := report.applied + Listed(step));
        } else if IsToolEdit(edit) {
          var step := ApplyToolUseEdit(messages, edit);
          report := report.(applied := report.applied + Listed(step));
        } else {
          SkippedEdit(size, messages[..], edit);
          report := report.(ignored := report.ignored + [edit.editType]);
        }
      }
    }

    method ApplyThinkingEdit(messages: array<Message>, edit: Edit) returns (applied: Option<Applied>)
      requires IsThinkingEdit(edit)
      modifies messages
      ensures Outcome(messages[..], applied) == ApplyEdit(size, old(messages[..]), edit)
    {
      hide ClearThinking, KeepThinkingTurns;
      var keep := KeepThinkingTurns(edit.keep);
      if keep.None? {
        return None;
      }
      applied := ClearThinkingTurns(messages, edit.editType, keep.value);
    }

    method ApplyToolUseEdit(messages: array<Message>, edit: Edit) returns (applied: Option<Applied>)
      requires !IsThinkingEdit(edit) && IsToolEdit(edit)
      modifies messages
      ensures Outcome(messages[..], applied) == ApplyEdit(size, old(messages[..]), edit)
    {
      hide Collect, PolicyOf, ClearTools, TriggerActive;
      CollectIn(messages[..]);
      var interactions := CollectToolInteractions(messages);
      if |interactions| == 0 {
        return None;
      }
      var active := ToolTriggerIsActive(messages, interactions, edit.trigger);
      if !active {
        return None;
      }
      applied := ClearToolInteractions(messages, interactions, PolicyOf(edit));
    }

    method ApplyHardLimits(messages: array<Message>) returns (applied: seq<Applied>)
      modifies messages
      ensures (messages[..], applied) == ApplyLimits(size, old(messages[..]), limits)
    {
      hide Collect, ClearTools, ClearThinking, ClearOversized;
      ghost var was := messages[..];
      applied := [];
      if limits.toolUses.Some? {
        CollectIn(messages[..]);
        var interactions := CollectToolInteractions(messages);
        var edit := ClearToolInteractions(messages, interactions, LimitPolicy(limits.toolUses.value));
        applied := applied + Listed(edit);
      }
      ghost var tools := messages[..];
      ghost var first := Listed(LimitToolUses(size, was, limits).applied);
      assert tools == LimitToolUses(size, was, limits).messages && applied == first;
      if limits.thinkingTurns.Some? {
        var edit := ClearThinkingTurns(messages, "clear_thinking_gateway_hard_limit", limits.thinkingTurns.value);
        applied := applied + Listed(edit);
      }
      ghost var thinking := messages[..];
      ghost var second := Listed(LimitThinking(tools, limits).applied);
      assert thinking == LimitThinking(tools, limits).messages && applied == first + second;
      if limits.resultChars.Some? {
        var edit := ClearOversizedToolResults(messages, limits.resultChars.value);
        applied := applied + Listed(edit);
      }
      ghost var third := Listed(LimitResults(size, thinking, limits).applied);
      assert messages[..] == LimitResults(size, thinking, limits).messages && applied == first + second + third;
    }

    // ----- tool interactions -----

    method CollectToolInteractions(messages: array<Message>) returns (interactions: seq<Interaction>)
      ensures interactions == Collect(messages[..])
    {
      hide Visit;
      interactions := [];
      var byCallId: map<string, nat> := map[];
      ghost var ms := messages[..];
      for mi := 0 to messages.Length
        invariant Indexed(Scanned(interactions, byCallId))
        invariant Scan(ms, Scanned(interactions, byCallId), mi, 0).interactions == Collect(ms)
      {
        var blocks := messages[mi].blocks;
        for bi := 0 to |blocks|
          invariant Indexed(Scanned(interactions, byCallId))
          invariant Scan(ms, Scanned(interactions, byCallId), mi, bi).interactions == Collect(ms)
        {
          interactions, byCallId := VisitBlock(interactions, byCallId, Ref(mi, bi), blocks[bi]);
        }
      }
    }

    method VisitBlock(interactions: seq<Interaction>, byCallId: map<string, nat>, r: Ref, block: Block)
      returns (interactions': seq<Interaction>, byCallId': map<string, nat>)
      requires Indexed(Scanned(interactions, byCallId))
      ensures Scanned(interactions', byCallId') == Visit(Scanned(interactions, byCallId), r, block)
    {
      interactions', byCallId' := interactions, byCallId;
      if block.blockType == "tool_use" {
        if block.id.Some? {
          interactions' := interactions + [Interaction(block.name, r, [])];
          byCallId' := byCallId[block.id.value := |interactions|];
        }
      } else if block.blockType == "tool_result" {
        if block.toolUseId.Some? && block.toolUseId.value in byCallId {
          var index := byCallId[block.toolUseId.value];
          var found := interactions[index];
          interactions' := interactions[index := found.(toolResults := found.toolResults + [r])];
        }
      }
    }

    method ToolTriggerIsActive(messages: array<Message>, interactions: seq<Interaction>, trigger: Option<Threshold>)
      returns (active: bool)
      ensures active == TriggerActive(size, messages[..], interactions, trigger)
    {
      if trigger.None? {
        return true;
      }
      if trigger.value.thresholdType == "tool_uses" {
        return |interactions| > ThresholdToInt(trigger.value);
      }
      if trigger.value.thresholdType == "input_tokens" {
        var tokens := EstimatedMessageTokens(messages);
        return tokens > ThresholdToInt(trigger.value);
      }
      return false;
    }

    method EstimatedMessageTokens(messages: array<Message>) returns (tokens: nat)
      ensures tokens == EstimateTokens(MessagesChars(size, messages[..]))
    {
      ghost var ms := messages[..];
      var total := 0;
      for i := 0 to messages.Length
        invariant total == MessagesChars(size, ms[..i])
      {
        assert ms[..i + 1][..i] == ms[..i];
        var chars := CountMessage(messages[i]);
        total := total + chars;
      }
      assert ms[..|ms|] == ms;
      tokens := EstimateTokens(total);
    }

    method CountMessage(message: Message) returns (chars: nat)
      ensures chars == MessageChars(size, message)
    {
      if message.text.Some? {
        return |message.text.value|;
      }
      var blocks := message.blocks;
      chars := 0;
      for i := 0 to |blocks|
        invariant chars == BlocksChars(size, blocks[..i])
      {
        assert blocks[..i + 1][..i] == blocks[..i];
        var b := blocks[i];
        chars := chars + RuneLen(b.text) + JsonChars(size, b.input) + ToolResultChars(size, b) + ThinkingChars(b);
      }
      assert blocks[..|blocks|] == blocks;
    }

    method EligibleIndices(interactions: seq<Interaction>, exclude: set<string>) returns (eligible: seq<nat>)
      ensures eligible == Eligible(interactions, exclude, |interactions|)
    {
      eligible := [];
      for i := 0 to |interactions|
        invariant eligible == Eligible(interactions, exclude, i)
      {
        if interactions[i].name.None? || interactions[i].name.value !in exclude {
          eligible := eligible + [i];
        }
      }
    }

    /** Counts, asks the gate, and then clears; the two counts agree. */
    method ClearToolInteractions(messages: array<Message>, interactions: seq<Interaction>, policy: ToolPolicy)
      returns (applied: Option<Applied>)
      requires interactions == Collect(messages[..]) && AllIn(messages[..], interactions)
      modifies messages
      ensures Outcome(messages[..], applied) == ClearTools(size, old(messages[..]), interactions, policy)
    {
      hide Collect, Paint, Eligible, PickedMarks, PickedChars, PickedUses, ClearPicked, GateCloses, Disjoint, SameShape;
      ghost var was := messages[..];
      NothingToClear(size, was, interactions, policy);
      if policy.keep >= |interactions| {
        return None;
      }
      var eligible := EligibleIndices(interactions, policy.exclude);
      if policy.keep >= |eligible| {
        return None;
      }
      var candidates := eligible[..|eligible| - policy.keep];
      CandidatesIncreasing(interactions, policy);
      var clearableChars := ClearableChars(messages, interactions, candidates, policy.clearInputs);
      if GateCloses(policy.clearAtLeast, clearableChars) {
        return None;
      }
      var clearedToolUses, clearedChars := ClearCandidates(messages, interactions, candidates, policy.clearInputs);
      CollectDisjoint(was);
      TwoPassesAgree(size, was, interactions, candidates, policy.clearInputs);
      if clearedToolUses == 0 {
        return None;
      }
      applied := Some(Applied(policy.editType, clearedToolUses, 0, EstimateTokens(clearedChars), clearedChars));
    }

    method ClearableChars(messages: array<Message>, interactions: seq<Interaction>, picked: seq<nat>, clearInputs: bool)
      returns (chars: nat)
      requires AllIn(messages[..], interactions) && Picks(interactions, picked)
      ensures chars == PickedChars(size, messages[..], interactions, picked, clearInputs)
    {
      hide InteractionChars;
      chars := 0;
      for i := 0 to |picked|
        invariant chars == PickedChars(size, messages[..], interactions, picked[..i], clearInputs)
      {
        assert picked[..i + 1][..i] == picked[..i];
        var more := InteractionClearableChars(messages, interactions[picked[i]], clearInputs);
        chars := chars + more;
      }
      assert picked[..|picked|] == picked;
    }

    method InteractionClearableChars(messages: array<Message>, x: Interaction, clearInputs: bool) returns (chars: nat)
      requires InteractionIn(messages[..], x)
      ensures chars == InteractionChars(size, messages[..], x, clearInputs)
    {
      ghost var ms := messages[..];
      chars := 0;
      var refs := x.toolResults;
      for i := 0 to |refs|
        invariant chars == ResultChars(size, ms, refs[..i])
      {
        assert refs[..i + 1][..i] == refs[..i];
        var r := refs[i];
        assert BlockAt(ms, r) == messages[r.message].blocks[r.block];
        chars := chars + ToolResultChars(size, messages[r.message].blocks[r.block]);
      }
      assert refs[..|refs|] == refs;
      if clearInputs {
        assert BlockAt(ms, x.toolUse) == messages[x.toolUse.message].blocks[x.toolUse.block];
        chars := chars + JsonChars(size, messages[x.toolUse.message].blocks[x.toolUse.block].input);
      }
    }

    method ClearCandidates(messages: array<Message>, interactions: seq<Interaction>, picked: seq<nat>,
                           clearInputs: bool)
      returns (uses: nat, chars: nat)
      requires AllIn(messages[..], interactions) && Picks(interactions, picked)
      modifies messages
      ensures Tally(messages[..], uses, chars)
        == ClearPicked(size, old(messages[..]), interactions, picked, clearInputs)
    {
      hide SameShape, ClearInteraction;
      ghost var was := messages[..];
      uses, chars := 0, 0;
      for i := 0 to |picked|
        invariant Tally(messages[..], uses, chars) == ClearPicked(size, was, interactions, picked[..i], clearInputs)
      {
        assert picked[..i + 1][..i] == picked[..i];
        StillIn(was, messages[..], interactions);
        var changed := ClearToolInteraction(messages, interactions[picked[i]], clearInputs);
        if changed > 0 {
          uses := uses + 1;
          chars := chars + changed;
        }
      }
      assert picked[..|picked|] == picked;
    }

    method ClearToolInteraction(messages: array<Message>, x: Interaction, clearInputs: bool) returns (chars: nat)
      requires InteractionIn(messages[..], x)
      modifies messages
      ensures Tally(messages[..], 0, chars) == ClearInteraction(size, old(messages[..]), x, clearInputs)
    {
      hide SameShape, Paint;
      ghost var was := messages[..];
      chars := 0;
      var refs := x.toolResults;
      for i := 0 to |refs|
        invariant Tally(messages[..], 0, chars) == ClearResults(size, was, refs[..i])
      {
        assert refs[..i + 1][..i] == refs[..i];
        ShapeSteps(was, messages[..], {});
        var cleared := ClearResult(messages, refs[i]);
        chars := chars + cleared;
      }
      assert refs[..|refs|] == refs;
      if clearInputs {
        ShapeSteps(was, messages[..], {});
        var cleared := ClearInput(messages, x.toolUse);
        chars := chars + cleared;
      }
    }

    method ClearResult(messages: array<Message>, r: Ref) returns (chars: nat)
      requires IsRef(messages[..], r)
      modifies messages
      ensures messages[..] == Paint(old(messages[..]), {Mark(r, Result)})
      ensures chars == ToolResultChars(size, BlockAt(old(messages[..]), r))
    {
      PaintOne(messages[..], Mark(r, Result));
      var block := messages[r.message].blocks[r.block];
      chars := ToolResultChars(size, block);
      SetBlock(messages, r, block.(content := TOOL_RESULT_PLACEHOLDER, text := None));
    }

    method ClearInput(messages: array<Message>, r: Ref) returns (chars: nat)
      requires IsRef(messages[..], r)
      modifies messages
      ensures messages[..] == Paint(old(messages[..]), {Mark(r, Input)})
      ensures chars == JsonChars(size, BlockAt(old(messages[..]), r).input)
    {
      PaintOne(messages[..], Mark(r, Input));
      var block := messages[r.message].blocks[r.block];
      chars := JsonChars(size, block.input);
      SetBlock(messages, r, block.(input := Obj(map[])));
    }

    // ----- oversized results -----

    method ClearOversizedToolResults(messages: array<Message>, limit: nat) returns (applied: Option<Applied>)
      modifies messages
      ensures Outcome(messages[..], applied) == ClearOversized(size, old(messages[..]), limit)
    {
      hide Paint, OversizedMarks, OversizedIn;
      ghost var was := messages[..];
      ghost var after := Paint(was, OversizedMarks(size, was, limit));
      var uses, chars := 0, 0;
      for mi := 0 to messages.Length
        invariant forall k | 0 <= k < |was| :: messages[k] == if k < mi then after[k] else was[k]
        invariant (uses, chars) == OversizedInAll(size, was[..mi], limit)
      {
        assert was[..mi + 1][..mi] == was[..mi];
        ShortenedPaint(size, was, limit, mi);
        var moreUses, moreChars := ClearOversizedIn(messages, mi, limit);
        uses, chars := uses + moreUses, chars + moreChars;
      }
      assert was[..|was|] == was;
      assert messages[..] == after;
      if uses == 0 {
        return None;
      }
      applied := Some(Applied("clear_tool_uses_gateway_hard_limit_chars", uses, 0, EstimateTokens(chars), chars));
    }

    method ClearIfOversized(messages: array<Message>, r: Ref, limit: nat) returns (oversized: bool, chars: nat)
      requires IsRef(messages[..], r)
      modifies messages
      ensures var b := BlockAt(old(messages[..]), r);
              && oversized == Oversized(size, b, limit) && (oversized ==> chars == ToolResultChars(size, b))
              && messages[..] == WithBlock(old(messages[..]), r, Shortened(size, b, limit))
    {
      WithSameBlock(messages[..], r);
      var block := messages[r.message].blocks[r.block];
      oversized, chars := false, 0;
      if block.blockType == "tool_result" {
        chars := ToolResultChars(size, block);
        if chars > limit {
          SetBlock(messages, r, block.(content := TOOL_RESULT_PLACEHOLDER, text := None));
          oversized := true;
        }
      }
    }

    method ClearOversizedIn(messages: array<Message>, mi: nat, limit: nat) returns (uses: nat, chars: nat)
      requires mi < messages.Length
      modifies messages
      ensures var m := old(messages[mi]);
              && messages[..] == old(messages[..])[mi := m.(blocks := AllShortened(size, m.blocks, limit))]
              && (uses, chars) == OversizedIn(size, m.blocks, limit)
    {
      hide *;
      ghost var before, blocks := messages[..], messages[mi].blocks;
      ghost var target := AllShortened(size, blocks, limit);
      NoneOversized(size, blocks, limit);
      Begun(before, mi, target);
      uses, chars := 0, 0;
      for bi := 0 to |messages[mi].blocks|
        invariant Halfway(before, messages[..], mi, target, bi)
        invariant (uses, chars) == OversizedIn(size, blocks[..bi], limit)
      {
        Spliced(before, messages[..], mi, target, bi);
        ShortenedAt(size, blocks, limit, bi);
        OversizedSoFar(size, blocks, limit, bi);
        var oversized, blockChars := ClearIfOversized(messages, Ref(mi, bi), limit);
        if oversized {
          uses, chars := uses + 1, chars + blockChars;
        }
      }
      assert blocks[..|blocks|] == blocks;
      Done(before, messages[..], mi, target);
    }

    // ----- thinking turns -----

    method CollectThinkingTurns(messages: array<Message>) returns (turns: seq<nat>)
      ensures turns == ThinkingTurns(messages[..], messages.Length)
    {
      ghost var ms := messages[..];
      turns := [];
      for mi := 0 to messages.Length
        invariant turns == ThinkingTurns(ms, mi)
      {
        if messages[mi].role == "assistant" {
          var has := MessageHasThinking(messages[mi]);
          if has {
            turns := turns + [mi];
          }
        }
      }
    }

    method MessageHasThinking(message: Message) returns (has: bool)
      ensures has == HasThinking(message)
    {
      for i := 0 to |message.blocks|
        invariant forall j | 0 <= j < i :: !IsThinking(message.blocks[j].blockType)
      {
        if IsThinking(message.blocks[i].blockType) {
          assert message.blocks[i] in message.blocks;
          return true;
        }
      }
      return false;
    }

    method ClearThinkingTurns(messages: array<Message>, editType: string, keep: nat) returns (applied: Option<Applied>)
      modifies messages
      ensures Outcome(messages[..], applied) == ClearThinking(old(messages[..]), editType, keep)
    {
      hide Paint, TurnMarks, HasThinking, ThinkingCharsOf;
      ghost var was := messages[..];
      var turns := CollectThinkingTurns(messages);
      NoTurns(was);
      if keep >= |turns| {
        return None;
      }
      var stale := turns[..|turns| - keep];
      TurnsIncreasing(was, |was|);
      var clearedTurns, chars := ClearStale(messages, stale);
      applied := Some(Applied(editType, 0, clearedTurns, EstimateTokens(chars), chars));
    }

    method ClearStale(messages: array<Message>, stale: seq<nat>) returns (clearedTurns: nat, chars: nat)
      requires AreTurns(messages[..], stale) && Increasing(stale)
      requires forall i | 0 <= i < |stale| :: HasThinking(messages[stale[i]])
      modifies messages
      ensures messages[..] == Paint(old(messages[..]), TurnMarks(old(messages[..]), stale))
      ensures clearedTurns == |stale| && chars == TurnChars(old(messages[..]), stale)
    {
      hide Paint, TurnMarks, HasThinking, ThinkingCharsOf;
      ghost var was := messages[..];
      ghost var after := Paint(was, TurnMarks(was, stale));
      clearedTurns, chars := 0, 0;
      for i := 0 to |stale|
        invariant forall k | 0 <= k < |was| :: messages[k] == if k in stale[..i] then after[k] else was[k]
        invariant clearedTurns == i && chars == TurnChars(was, stale[..i])
      {
        assert stale[..i + 1][..i] == stale[..i];
        assert stale[i] !in stale[..i];
        assert forall k :: k in stale[..i + 1] <==> k in stale[..i] || k == stale[i];
        ThoughtlessPaint(was, stale, stale[i]);
        var changed, more := ClearTurn(messages, stale[i]);
        chars := chars + more;
        if changed {
          clearedTurns := clearedTurns + 1;
        }
      }
      assert stale[..|stale|] == stale;
      forall k | 0 <= k < |was| ensures messages[k] == after[k] {
        if k !in stale { UnmarkedTurn(was, stale, k); }
      }
      assert messages[..] == after;
    }

    method ClearIfThinking(messages: array<Message>, r: Ref) returns (thinking: bool, chars: nat)
      requires IsRef(messages[..], r)
      modifies messages
      ensures var b := BlockAt(old(messages[..]), r);
              && thinking == IsThinking(b.blockType) && (thinking ==> chars == ThinkingChars(b))
              && messages[..] == WithBlock(old(messages[..]), r, Thoughtless(b))
    {
      WithSameBlock(messages[..], r);
      var block := messages[r.message].blocks[r.block];
      thinking, chars := IsThinking(block.blockType), 0;
      if thinking {
        chars := ThinkingChars(block);
        SetBlock(messages, r, block.(extra := block.extra["thinking" := THINKING_PLACEHOLDER], text := None));
      }
    }

    method ClearTurn(messages: array<Message>, mi: nat) returns (changed: bool, chars: nat)
      requires mi < messages.Length && HasThinking(messages[mi])
      modifies messages
      ensures var m := old(messages[mi]);
              && messages[..] == old(messages[..])[mi := m.(blocks := AllThoughtless(m.blocks))]
              && changed && chars == ThinkingCharsOf(m.blocks)
    {
      hide *;
      ghost var before, m, blocks := messages[..], messages[mi], messages[mi].blocks;
      ghost var target := AllThoughtless(blocks);
      Begun(before, mi, target);
      NoThinking(m);
      changed, chars := false, 0;
      for bi := 0 to |messages[mi].blocks|
        invariant Halfway(before, messages[..], mi, target, bi)
        invariant chars == ThinkingCharsOf(blocks[..bi])
        invariant changed == HasThinking(m.(blocks := blocks[..bi]))
      {
        ThinkingSoFar(m, bi);
        ThoughtlessAt(blocks, bi);
        Spliced(before, messages[..], mi, target, bi);
        var thinking, more := ClearIfThinking(messages, Ref(mi, bi));
        if thinking {
          chars := chars + more;
          changed := true;
        }
      }
      assert blocks[..|blocks|] == blocks;
      Done(before, messages[..], mi, target);
    }
  }

  // ----- what is written over a block -----

  function Shortened(size: Size, b: Block, limit: nat): Block {
    if Oversized(size, b, limit) then b.(content := TOOL_RESULT_PLACEHOLDER, text := None) else b
  }

  function AllShortened(size: Size, blocks: seq<Block>, limit: nat): (r: seq<Block>)
    ensures |r| == |blocks|
  {
    seq(|blocks|, j requires 0 <= j < |blocks| => Shortened(size, blocks[j], limit))
  }

  lemma {:induction false} ShortenedAt(size: Size, blocks: seq<Block>, limit: nat, i: nat)
    requires i < |blocks|
    ensures AllShortened(size, blocks, limit)[i] == Shortened(size, blocks[i], limit)
  {
  }

  function Thoughtless(b: Block): Block {
    if IsThinking(b.blockType) then b.(extra := b.extra["thinking" := THINKING_PLACEHOLDER], text := None) else b
  }

  function AllThoughtless(blocks: seq<Block>): (r: seq<Block>)
    ensures |r| == |blocks|
  {
    seq(|blocks|, j requires 0 <= j < |blocks| => Thoughtless(blocks[j]))
  }

  lemma {:induction false} ThoughtlessAt(blocks: seq<Block>, i: nat)
    requires i < |blocks|
    ensures AllThoughtless(blocks)[i] == Thoughtless(blocks[i])
  {
  }

  lemma {:induction false} ShortenedPaint(size: Size, ms: seq<Message>, limit: nat, mi: nat)
    requires mi < |ms|
    ensures Paint(ms, OversizedMarks(size, ms, limit))[mi]
      == ms[mi].(blocks := AllShortened(size, ms[mi].blocks, limit))
  {
    hide OversizedMarks, Paint, PaintAt, Oversized;
    var marks, blocks := OversizedMarks(size, ms, limit), ms[mi].blocks;
    PaintedMessage(ms, marks, mi);
    forall j | 0 <= j < |blocks| ensures PaintBlocks(blocks, mi, marks)[j] == Shortened(size, blocks[j], limit) {
      PaintedBlock(blocks, mi, marks, j);
      OversizedMarked(size, ms, limit, Ref(mi, j));
    }
    assert PaintBlocks(blocks, mi, marks) == AllShortened(size, blocks, limit);
  }

  lemma {:induction false} ThoughtlessPaint(ms: seq<Message>, turns: seq<nat>, mi: nat)
    requires AreTurns(ms, turns) && mi in turns
    ensures Paint(ms, TurnMarks(ms, turns))[mi] == ms[mi].(blocks := AllThoughtless(ms[mi].blocks))
  {
    hide TurnMarks, Paint, PaintAt, IsThinking;
    var marks, blocks := TurnMarks(ms, turns), ms[mi].blocks;
    PaintedMessage(ms, marks, mi);
    forall j | 0 <= j < |blocks| ensures PaintBlocks(blocks, mi, marks)[j] == Thoughtless(blocks[j]) {
      PaintedBlock(blocks, mi, marks, j);
      TurnMarked(ms, turns, Ref(mi, j));
    }
    assert PaintBlocks(blocks, mi, marks) == AllThoughtless(blocks);
  }

  method SetBlock(messages: array<Message>, r: Ref, block: Block)
    requires IsRef(messages[..], r)
    modifies messages
    ensures messages[..] == WithBlock(old(messages[..]), r, block)
  {
    var m := messages[r.message];
    messages[r.message] := m.(blocks := m.blocks[r.block := block]);
  }

  // ----- single steps -----

  /** Working through the blocks of message `mi` from the left, turning them into `to`: the first
      `i` are done. */
  ghost predicate Halfway(was: seq<Message>, now: seq<Message>, mi: nat, to: seq<Block>, i: nat)
    requires mi < |was|
  {
    var from := was[mi].blocks;
    i <= |to| == |from| && now == was[mi := was[mi].(blocks := to[..i] + from[i..])]
  }

  lemma {:induction false} Begun(was: seq<Message>, mi: nat, to: seq<Block>)
    requires mi < |was| && |to| == |was[mi].blocks|
    ensures Halfway(was, was, mi, to, 0)
  {
    assert was[mi].blocks == to[..0] + was[mi].blocks[0..];
  }

  lemma {:induction false} Spliced(was: seq<Message>, now: seq<Message>, mi: nat, to: seq<Block>, i: nat)
    requires mi < |was| && i < |to| && Halfway(was, now, mi, to, i)
    ensures IsRef(now, Ref(mi, i)) && i < |was[mi].blocks| && BlockAt(now, Ref(mi, i)) == was[mi].blocks[i]
    ensures Halfway(was, WithBlock(now, Ref(mi, i), to[i]), mi, to, i + 1)
  {
    var from := was[mi].blocks;
    assert (to[..i] + from[i..])[i := to[i]] == to[..i + 1] + from[i + 1..];
  }

  lemma {:induction false} Done(was: seq<Message>, now: seq<Message>, mi: nat, to: seq<Block>)
    requires mi < |was| && Halfway(was, now, mi, to, |to|)
    ensures now == was[mi := was[mi].(blocks := to)]
  {
    assert to[..|to|] + was[mi].blocks[|to|..] == to;
  }

  function WithBlock(ms: seq<Message>, r: Ref, block: Block): seq<Message>
    requires IsRef(ms, r)
  {
    ms[r.message := ms[r.message].(blocks := ms[r.message].blocks[r.block := block])]
  }

  lemma {:induction false} WithSameBlock(ms: seq<Message>, r: Ref)
    requires IsRef(ms, r)
    ensures WithBlock(ms, r, BlockAt(ms, r)) == ms
  {
    var m := ms[r.message];
    assert m.blocks[r.block := m.blocks[r.block]] == m.blocks;
  }

  lemma {:induction false} PaintedMessage(ms: seq<Message>, marks: set<Mark>, mi: nat)
    requires mi < |ms|
    ensures Paint(ms, marks)[mi] == ms[mi].(blocks := PaintBlocks(ms[mi].blocks, mi, marks))
  {
  }

  lemma {:induction false} NoThinking(m: Message)
    ensures !HasThinking(m.(blocks := m.blocks[..0])) && ThinkingCharsOf(m.blocks[..0]) == 0
  {
  }

  lemma {:induction false} ThinkingSoFar(m: Message, i: nat)
    requires i < |m.blocks|
    ensures HasThinking(m.(blocks := m.blocks[..i + 1]))
      <==> HasThinking(m.(blocks := m.blocks[..i])) || IsThinking(m.blocks[i].blockType)
    ensures ThinkingCharsOf(m.blocks[..i + 1])
      == ThinkingCharsOf(m.blocks[..i]) + if IsThinking(m.blocks[i].blockType) then ThinkingChars(m.blocks[i]) else 0
  {
    hide IsThinking, ThinkingChars;
    assert m.blocks[..i + 1] == m.blocks[..i] + [m.blocks[i]];
    assert m.blocks[i] in m.blocks[..i + 1];
    assert m.blocks[..i + 1][..i] == m.blocks[..i];
  }

  lemma {:induction false} NoneOversized(size: Size, blocks: seq<Block>, limit: nat)
    ensures OversizedIn(size, blocks[..0], limit) == (0, 0)
  {
  }

  lemma {:induction false} OversizedSoFar(size: Size, blocks: seq<Block>, limit: nat, i: nat)
    requires i < |blocks|
    ensures var (uses, chars) := OversizedIn(size, blocks[..i], limit);
            OversizedIn(size, blocks[..i + 1], limit)
              == if Oversized(size, blocks[i], limit) then (uses + 1, chars + ToolResultChars(size, blocks[i]))
                 else (uses, chars)
  {
    hide Oversized, ToolResultChars;
    assert blocks[..i + 1][..i] == blocks[..i];
  }

  lemma {:induction false} PaintedBlock(blocks: seq<Block>, mi: nat, marks: set<Mark>, i: nat)
    requires i < |blocks|
    ensures PaintBlocks(blocks, mi, marks)[i] == PaintAt(blocks[i], Ref(mi, i), marks)
  {
  }

  lemma {:induction false} SkippedEdit(size: Size, ms: seq<Message>, edit: Edit)
    requires !IsThinkingEdit(edit) && !IsToolEdit(edit)
    ensures ApplyEdit(size, ms, edit) == Outcome(ms, None)
  {
  }

  lemma {:induction false} PaintOne(ms: seq<Message>, mark: Mark)
    requires IsRef(ms, mark.at)
    ensures var m, j := ms[mark.at.message], mark.at.block;
            Paint(ms, {mark}) == ms[mark.at.message := m.(blocks := m.blocks[j := PaintAt(m.blocks[j], mark.at,
              {mark})])]
  {
    var m, j := ms[mark.at.message], mark.at.block;
    var after := ms[mark.at.message := m.(blocks := m.blocks[j := PaintAt(m.blocks[j], mark.at, {mark})])];
    forall r | IsRef(ms, r) ensures BlockAt(Paint(ms, {mark}), r) == BlockAt(after, r) {
      PaintedAt(ms, {mark}, r);
    }
    SameMessages(Paint(ms, {mark}), after);
  }

  lemma {:induction false} NothingToClear(size: Size, ms: seq<Message>, xs: seq<Interaction>, policy: ToolPolicy)
    requires AllIn(ms, xs)
    ensures policy.keep >= |xs| || policy.keep >= |Eligible(xs, policy.exclude, |xs|)|
      ==> ClearTools(size, ms, xs, policy) == Outcome(ms, None)
  {
    PaintNothing(ms);
  }

  lemma {:induction false} NoTurns(ms: seq<Message>)
    ensures Paint(ms, TurnMarks(ms, [])) == ms
  {
    PaintNothing(ms);
    assert TurnMarks(ms, []) == {};
  }

  lemma {:induction false} TurnsIncreasing(ms: seq<Message>, n: nat)
    requires n <= |ms|
    ensures Increasing(ThinkingTurns(ms, n))
  {
    hide HasThinking;
    if n > 0 { TurnsIncreasing(ms, n - 1); }
  }

  lemma {:induction false} UnmarkedTurn(ms: seq<Message>, turns: seq<nat>, k: nat)
    requires AreTurns(ms, turns) && k < |ms| && k !in turns
    ensures Paint(ms, TurnMarks(ms, turns))[k] == ms[k]
  {
    var marks := TurnMarks(ms, turns);
    forall j | 0 <= j < |ms[k].blocks| ensures PaintAt(ms[k].blocks[j], Ref(k, j), marks) == ms[k].blocks[j] {
      assert Mark(Ref(k, j), Result) !in marks && Mark(Ref(k, j), Input) !in marks
        && Mark(Ref(k, j), Thinking) !in marks;
    }
    hide TurnMarks, PaintAt;
    assert PaintBlocks(ms[k].blocks, k, marks) == ms[k].blocks;
  }

  lemma {:induction false} OversizedMarked(size: Size, ms: seq<Message>, limit: nat, r: Ref)
    requires IsRef(ms, r)
    ensures PaintAt(BlockAt(ms, r), r, OversizedMarks(size, ms, limit)) == Shortened(size, BlockAt(ms, r), limit)
  {
    var b, marks := BlockAt(ms, r), OversizedMarks(size, ms, limit);
    assert Mark(r, Input) !in marks && Mark(r, Thinking) !in marks;
    assert Mark(r, Result) in marks <==> Oversized(size, ms[r.message].blocks[r.block], limit);
  }

  lemma {:induction false} TurnMarked(ms: seq<Message>, turns: seq<nat>, r: Ref)
    requires IsRef(ms, r) && AreTurns(ms, turns) && r.message in turns
    ensures PaintAt(BlockAt(ms, r), r, TurnMarks(ms, turns)) == Thoughtless(BlockAt(ms, r))
  {
    var b, marks := BlockAt(ms, r), TurnMarks(ms, turns);
    assert Mark(r, Input) !in marks && Mark(r, Result) !in marks;
    var i :| 0 <= i < |turns| && turns[i] == r.message;
    assert IsThinking(ms[turns[i]].blocks[r.block].blockType) ==> Mark(Ref(turns[i], r.block), Thinking) in marks;
    assert Mark(r, Thinking) in marks <==> IsThinking(b.blockType);
  }
}

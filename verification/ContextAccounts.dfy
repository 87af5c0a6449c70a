/** The two passes of a tool edit: what is counted up front is what is cleared one block at a time. */
module ContextAccounts {
  import opened Json
  import opened Context
  import opened ContextPairs
  import opened ContextLaws

  // ----- clearing one block after the other -----

  datatype Tally = Tally(messages: seq<Message>, uses: nat, chars: nat)

  /** Clears results in order, counting each one just before it is overwritten. */
  function ClearResults(size: Size, ms: seq<Message>, refs: seq<Ref>): (t: Tally)
    requires AreRefs(ms, refs)
    ensures SameShape(ms, t.messages)
  {
    if refs == [] then ShapeSelf(ms); Tally(ms, 0, 0)
    else
      var last := refs[|refs| - 1];
      var before := ClearResults(size, ms, refs[..|refs| - 1]);
      var marks := {Mark(last, Result)};
      ShapeSteps(ms, before.messages, marks);
      Tally(Paint(before.messages, marks), 0, before.chars + ToolResultChars(size, BlockAt(before.messages, last)))
  }

  lemma {:induction false} ShapeSelf(ms: seq<Message>)
    ensures SameShape(ms, ms)
  {
  }

  lemma {:induction false} ShapeSteps(ms: seq<Message>, before: seq<Message>, marks: set<Mark>)
    requires SameShape(ms, before)
    ensures SameShape(ms, Paint(before, marks))
    ensures forall r :: IsRef(ms, r) <==> IsRef(before, r)
  {
    hide Frame, Paint;
    PaintKeepsShape(before, marks);
    SameShapeTransitive(ms, before, Paint(before, marks));
  }

  /** clearToolInteraction */
  function ClearInteraction(size: Size, ms: seq<Message>, x: Interaction, clearInputs: bool): (t: Tally)
    requires InteractionIn(ms, x)
    ensures SameShape(ms, t.messages)
  {
    var cleared := ClearResults(size, ms, x.toolResults);
    var marks := {Mark(x.toolUse, Input)};
    ShapeSteps(ms, cleared.messages, marks);
    if !clearInputs then cleared
    else Tally(Paint(cleared.messages, marks), 0, cleared.chars
      + JsonChars(size, BlockAt(cleared.messages, x.toolUse).input))
  }

  lemma {:induction false} StillIn(a: seq<Message>, b: seq<Message>, xs: seq<Interaction>)
    requires SameShape(a, b) && AllIn(a, xs)
    ensures AllIn(b, xs)
  {
  }

  /** The clearing loop: an interaction counts as cleared if it held any characters. */
  function ClearPicked(size: Size, ms: seq<Message>, xs: seq<Interaction>, picked: seq<nat>,
                       clearInputs: bool): (t: Tally)
    requires AllIn(ms, xs) && Picks(xs, picked)
    ensures SameShape(ms, t.messages)
  {
    if picked == [] then ShapeSelf(ms); Tally(ms, 0, 0)
    else
      var n := |picked| - 1;
      var before := ClearPicked(size, ms, xs, picked[..n], clearInputs);
      StillIn(ms, before.messages, xs);
      var step := ClearInteraction(size, before.messages, xs[picked[n]], clearInputs);
      SameShapeTransitive(ms, before.messages, step.messages);
      Tally(step.messages, before.uses + if step.chars > 0 then 1 else 0, before.chars + step.chars)
  }

  // ----- disjointness -----

  /** Blocks that are all different. */
  predicate Distinct(refs: seq<Ref>) {
    forall i, j | 0 <= i < j < |refs| :: refs[i] != refs[j]
  }

  ghost predicate Disjoint(xs: seq<Interaction>) {
    && (forall i | 0 <= i < |xs| :: Distinct(xs[i].toolResults))
    && (forall i, j | 0 <= i < |xs| && 0 <= j < |xs| && i != j :: xs[i].toolUse != xs[j].toolUse)
    && (forall i, j | 0 <= i < |xs| && 0 <= j < |xs| && i != j :: Apart(xs[i].toolResults, xs[j].toolResults))
  }

  ghost predicate Apart(a: seq<Ref>, b: seq<Ref>) {
    forall r :: !(r in a && r in b)
  }

  /** The blocks of the collected interactions never overlap. */
  lemma {:induction false} CollectDisjoint(ms: seq<Message>)
    ensures Disjoint(Collect(ms))
  {
    CollectPairs(ms);
    hide Collect, IsUse;
    var xs := Collect(ms);
    forall i, j | 0 <= i < |xs| && 0 <= j < |xs| && i != j ensures Apart(xs[i].toolResults, xs[j].toolResults) {
      forall r ensures !(r in xs[i].toolResults && r in xs[j].toolResults) {
        if r in xs[i].toolResults && r in xs[j].toolResults {
          AnswersOne(ms, r, xs[i].toolUse, xs[j].toolUse);
        }
      }
    }
    forall i | 0 <= i < |xs| ensures Distinct(xs[i].toolResults) {
      assert Ascending(xs[i].toolResults);
    }
  }

  // ----- counting is not disturbed by clearing elsewhere -----

  lemma {:induction false} ResultCharsKept(size: Size, ms: seq<Message>, marks: set<Mark>, refs: seq<Ref>)
    requires AreRefs(ms, refs)
    requires forall r | r in refs :: Mark(r, Result) !in marks && Mark(r, Thinking) !in marks
    ensures AreRefs(Paint(ms, marks), refs) && ResultChars(size, Paint(ms, marks), refs) == ResultChars(size, ms, refs)
    decreases |refs|
  {
    if refs != [] {
      var last := refs[|refs| - 1];
      assert last in refs;
      PaintedAt(ms, marks, last);
      ResultCharsKept(size, ms, marks, refs[..|refs| - 1]);
    }
  }

  lemma {:induction false} ClearResultsCounts(size: Size, ms: seq<Message>, refs: seq<Ref>)
    requires AreRefs(ms, refs) && Distinct(refs)
    ensures ClearResults(size, ms, refs)
      == Tally(Paint(ms, set r | r in refs :: Mark(r, Result)), 0, ResultChars(size, ms, refs))
    decreases |refs|
  {
    hide Paint, SameShape;
    if refs == [] {
      PaintNothing(ms);
      assert (set r | r in refs :: Mark(r, Result)) == {};
    } else {
      var n, last := |refs| - 1, refs[|refs| - 1];
      var marks := set r | r in refs[..n] :: Mark(r, Result);
      ClearResultsCounts(size, ms, refs[..n]);
      assert last !in refs[..n];
      PaintedAt(ms, marks, last);
      ElsewhereKept(BlockAt(ms, last), last, marks);
      PaintTwice(ms, marks, {Mark(last, Result)});
      assert marks + {Mark(last, Result)} == set r | r in refs :: Mark(r, Result);
    }
  }

  lemma {:induction false} ElsewhereKept(b: Block, r: Ref, marks: set<Mark>)
    requires Mark(r, Result) !in marks && Mark(r, Thinking) !in marks
    ensures PaintAt(b, r, marks).content == b.content && PaintAt(b, r, marks).text == b.text
    ensures Mark(r, Input) !in marks ==> PaintAt(b, r, marks).input == b.input
  {
  }

  lemma {:induction false} InputKept(ms: seq<Message>, marks: set<Mark>, r: Ref)
    requires IsRef(ms, r) && Mark(r, Input) !in marks
    ensures IsRef(Paint(ms, marks), r) && BlockAt(Paint(ms, marks), r).input == BlockAt(ms, r).input
  {
    PaintedAt(ms, marks, r);
  }

  lemma {:induction false} ClearInteractionCounts(size: Size, ms: seq<Message>, x: Interaction, clearInputs: bool)
    requires InteractionIn(ms, x) && Distinct(x.toolResults)
    ensures ClearInteraction(size, ms, x, clearInputs)
      == Tally(Paint(ms, InteractionMarks(x, clearInputs)), 0, InteractionChars(size, ms, x, clearInputs))
  {
    hide Paint, SameShape;
    ClearResultsCounts(size, ms, x.toolResults);
    var marks := set r | r in x.toolResults :: Mark(r, Result);
    InputKept(ms, marks, x.toolUse);
    PaintTwice(ms, marks, {Mark(x.toolUse, Input)});
    assert marks + {} == marks;
  }

  /** Marks that leave an interaction's own blocks alone leave its count alone. */
  lemma {:induction false} InteractionCharsKept(size: Size, ms: seq<Message>, marks: set<Mark>, x: Interaction,
                                                clearInputs: bool)
    requires InteractionIn(ms, x)
    requires forall r | r in x.toolResults :: Mark(r, Result) !in marks && Mark(r, Thinking) !in marks
    requires Mark(x.toolUse, Input) !in marks
    ensures InteractionIn(Paint(ms, marks), x)
    ensures InteractionChars(size, Paint(ms, marks), x, clearInputs) == InteractionChars(size, ms, x, clearInputs)
  {
    hide Paint;
    ResultCharsKept(size, ms, marks, x.toolResults);
    InputKept(ms, marks, x.toolUse);
  }

  lemma {:induction false} PickedMarkFrom(xs: seq<Interaction>, picked: seq<nat>, clearInputs: bool, m: Mark)
    requires Picks(xs, picked)
    ensures m in PickedMarks(xs, picked, clearInputs)
      <==> exists i :: 0 <= i < |picked| && m in InteractionMarks(xs[picked[i]], clearInputs)
    decreases |picked|
  {
    if picked != [] {
      var n := |picked| - 1;
      PickedMarkFrom(xs, picked[..n], clearInputs, m);
      assert forall i | 0 <= i < n :: picked[..n][i] == picked[i];
    }
  }

  lemma {:induction false} PickedElsewhere(xs: seq<Interaction>, picked: seq<nat>, clearInputs: bool, k: nat)
    requires Picks(xs, picked) && Disjoint(xs) && k < |xs| && k !in picked
    ensures var marks := PickedMarks(xs, picked, clearInputs);
            && (forall r | r in xs[k].toolResults :: Mark(r, Result) !in marks && Mark(r, Thinking) !in marks)
            && Mark(xs[k].toolUse, Input) !in marks
  {
    hide PickedMarks;
    forall r | r in xs[k].toolResults
      ensures Mark(r, Result) !in PickedMarks(xs, picked, clearInputs)
        && Mark(r, Thinking) !in PickedMarks(xs, picked, clearInputs)
    {
      PickedMarkFrom(xs, picked, clearInputs, Mark(r, Result));
      PickedMarkFrom(xs, picked, clearInputs, Mark(r, Thinking));
      forall i | 0 <= i < |picked| ensures r !in xs[picked[i]].toolResults {
        assert picked[i] in picked && Apart(xs[picked[i]].toolResults, xs[k].toolResults);
      }
    }
    PickedMarkFrom(xs, picked, clearInputs, Mark(xs[k].toolUse, Input));
    forall i | 0 <= i < |picked| ensures xs[picked[i]].toolUse != xs[k].toolUse {
      assert picked[i] in picked;
    }
  }

  predicate Increasing(picked: seq<nat>) {
    forall i, j | 0 <= i < j < |picked| :: picked[i] < picked[j]
  }

  /** Clearing one interaction after the other, each counted just before it is cleared, gives the
      messages and the amounts computed up front. */
  lemma {:induction false} TwoPassesAgree(size: Size, ms: seq<Message>, xs: seq<Interaction>, picked: seq<nat>,
                                          clearInputs: bool)
    requires AllIn(ms, xs) && Picks(xs, picked) && Disjoint(xs) && Increasing(picked)
    ensures ClearPicked(size, ms, xs, picked, clearInputs)
      == Tally(Paint(ms, PickedMarks(xs, picked, clearInputs)),
               PickedUses(size, ms, xs, picked, clearInputs), PickedChars(size, ms, xs, picked, clearInputs))
    decreases |picked|
  {
    hide Paint, SameShape, InteractionMarks, InteractionChars, ClearInteraction;
    if picked == [] {
      PaintNothing(ms);
    } else {
      var n := |picked| - 1;
      var k := picked[n];
      TwoPassesAgree(size, ms, xs, picked[..n], clearInputs);
      var marks := PickedMarks(xs, picked[..n], clearInputs);
      var before := Paint(ms, marks);
      assert k !in picked[..n];
      PickedElsewhere(xs, picked[..n], clearInputs, k);
      InteractionCharsKept(size, ms, marks, xs[k], clearInputs);
      StillIn(ms, before, xs) by { PaintKeepsShape(ms, marks); }
      DistinctAt(xs, k);
      hide Disjoint;
      ClearInteractionCounts(size, before, xs[k], clearInputs);
      PaintTwice(ms, marks, InteractionMarks(xs[k], clearInputs));
    }
  }

  lemma {:induction false} DistinctAt(xs: seq<Interaction>, k: nat)
    requires Disjoint(xs) && k < |xs|
    ensures Distinct(xs[k].toolResults)
  {
  }

  lemma {:induction false} EligibleIncreasing(xs: seq<Interaction>, exclude: set<string>, n: nat)
    requires n <= |xs|
    ensures Increasing(Eligible(xs, exclude, n))
  {
    if n > 0 { EligibleIncreasing(xs, exclude, n - 1); }
  }

  lemma {:induction false} CandidatesIncreasing(xs: seq<Interaction>, policy: ToolPolicy)
    ensures Increasing(Candidates(xs, policy)) && Picks(xs, Candidates(xs, policy))
  {
    EligibleIncreasing(xs, policy.exclude, |xs|);
  }

  /** Whatever a gated edit reports as cleared reaches its threshold. */
  lemma {:induction false} GateHonoured(size: Size, ms: seq<Message>, xs: seq<Interaction>, policy: ToolPolicy)
    requires xs == Collect(ms) && AllIn(ms, xs) && ByTokens(policy.clearAtLeast)
    requires ClearTools(size, ms, xs, policy).applied.Some?
    ensures Picks(xs, Candidates(xs, policy))
    ensures var reported := ClearTools(size, ms, xs, policy).applied.value;
            var done := ClearPicked(size, ms, xs, Candidates(xs, policy), policy.clearInputs);
            && reported.inputTokens >= ThresholdToInt(policy.clearAtLeast.value)
            && reported.chars == done.chars && reported.toolUses == done.uses
            && ClearTools(size, ms, xs, policy).messages == done.messages
  {
    CollectDisjoint(ms);
    CandidatesIncreasing(xs, policy);
    TwoPassesAgree(size, ms, xs, Candidates(xs, policy), policy.clearInputs);
    hide Paint, Collect, Candidates, ClearPicked, PickedUses, PickedChars, PickedMarks;
  }

  // ----- what goes unreported -----

  predicate HoldsNothing(size: Size, ms: seq<Message>, x: Interaction, clearInputs: bool)
    requires InteractionIn(ms, x)
  {
    InteractionChars(size, ms, x, clearInputs) == 0
  }

  lemma {:induction false} NoUses(size: Size, ms: seq<Message>, xs: seq<Interaction>, picked: seq<nat>,
                                  clearInputs: bool)
    requires AllIn(ms, xs) && Picks(xs, picked)
    ensures PickedUses(size, ms, xs, picked, clearInputs) == 0
      <==> forall i | 0 <= i < |picked| :: HoldsNothing(size, ms, xs[picked[i]], clearInputs)
    decreases |picked|
  {
    hide InteractionChars;
    if picked != [] {
      var n := |picked| - 1;
      NoUses(size, ms, xs, picked[..n], clearInputs);
      assert forall i | 0 <= i < n :: picked[..n][i] == picked[i];
    }
  }

  /** A tool edit reports nothing exactly when its gate closes or no interaction it picks holds a character. */
  lemma {:induction false} UnreportedExactly(size: Size, ms: seq<Message>, xs: seq<Interaction>, policy: ToolPolicy)
    requires AllIn(ms, xs)
    ensures var picked := Candidates(xs, policy);
            ClearTools(size, ms, xs, policy).applied.None?
            <==> GateCloses(policy.clearAtLeast, PickedChars(size, ms, xs, picked, policy.clearInputs))
                 || forall i | 0 <= i < |picked| :: HoldsNothing(size, ms, xs[picked[i]], policy.clearInputs)
  {
    NoUses(size, ms, xs, Candidates(xs, policy), policy.clearInputs);
    hide Paint, Candidates, PickedUses, PickedChars, PickedMarks;
  }

  lemma {:induction false} NothingInResult(size: Size, ms: seq<Message>, refs: seq<Ref>, i: nat)
    requires AreRefs(ms, refs) && i < |refs| && ResultChars(size, ms, refs) == 0
    ensures ToolResultChars(size, BlockAt(ms, refs[i])) == 0
    decreases |refs|
  {
    if i < |refs| - 1 { NothingInResult(size, ms, refs[..|refs| - 1], i); }
  }

  lemma {:induction false} MarkedHoldsNothing(size: Size, ms: seq<Message>, xs: seq<Interaction>, picked: seq<nat>,
                                              clearInputs: bool, r: Ref)
    requires AllIn(ms, xs) && Picks(xs, picked) && IsRef(ms, r)
    requires forall i | 0 <= i < |picked| :: HoldsNothing(size, ms, xs[picked[i]], clearInputs)
    ensures var marks, b := PickedMarks(xs, picked, clearInputs), BlockAt(ms, r);
            && (Mark(r, Result) in marks ==> ToolResultChars(size, b) == 0)
            && (Mark(r, Input) in marks ==> clearInputs && JsonChars(size, b.input) == 0)
            && Mark(r, Thinking) !in marks
  {
    hide PickedMarks;
    PickedMarkFrom(xs, picked, clearInputs, Mark(r, Result));
    PickedMarkFrom(xs, picked, clearInputs, Mark(r, Input));
    PickedMarkFrom(xs, picked, clearInputs, Mark(r, Thinking));
    forall i | 0 <= i < |picked| && Mark(r, Result) in InteractionMarks(xs[picked[i]], clearInputs)
      ensures ToolResultChars(size, BlockAt(ms, r)) == 0
    {
      var refs := xs[picked[i]].toolResults;
      assert HoldsNothing(size, ms, xs[picked[i]], clearInputs);
      var j :| 0 <= j < |refs| && refs[j] == r;
      NothingInResult(size, ms, refs, j);
    }
    forall i | 0 <= i < |picked| && Mark(r, Input) in InteractionMarks(xs[picked[i]], clearInputs)
      ensures JsonChars(size, BlockAt(ms, r).input) == 0
    {
      assert HoldsNothing(size, ms, xs[picked[i]], clearInputs);
    }
  }

  /** What an edit that reports nothing may still change: blocks that held no character in the part that is
      replaced, and only if the gate did not close. */
  lemma {:induction false} UnreportedChanges(size: Size, ms: seq<Message>, xs: seq<Interaction>, policy: ToolPolicy,
                                             r: Ref)
    requires AllIn(ms, xs) && IsRef(ms, r) && ClearTools(size, ms, xs, policy).applied.None?
    ensures var after := ClearTools(size, ms, xs, policy).messages;
            var b := BlockAt(ms, r);
            && IsRef(after, r)
            && var c := BlockAt(after, r);
            && c == b.(content := c.content, text := c.text, input := c.input)
            && (c.content != b.content || c.text != b.text ==> ToolResultChars(size, b) == 0)
            && (c.input != b.input ==> policy.clearInputs && JsonChars(size, b.input) == 0)
    ensures GateCloses(policy.clearAtLeast, PickedChars(size, ms, xs, Candidates(xs, policy), policy.clearInputs))
      ==> ClearTools(size, ms, xs, policy).messages == ms
  {
    var picked := Candidates(xs, policy);
    var marks := PickedMarks(xs, picked, policy.clearInputs);
    UnreportedExactly(size, ms, xs, policy);
    hide Paint, Candidates, PickedUses, PickedChars, PickedMarks, GateCloses;
    hide InteractionMarks, HoldsNothing;
    PaintedAt(ms, marks, r);
    if !GateCloses(policy.clearAtLeast, PickedChars(size, ms, xs, picked, policy.clearInputs)) {
      MarkedHoldsNothing(size, ms, xs, picked, policy.clearInputs, r);
    }
  }

  // ----- which interactions a policy clears -----

  /** The eligible interactions at or after position `from`. */
  function EligibleFrom(xs: seq<Interaction>, exclude: set<string>, from: nat): nat
    decreases |xs| - from
  {
    if from >= |xs| then 0 else (if Excluded(xs[from], exclude) then 0 else 1) + EligibleFrom(xs, exclude, from + 1)
  }

  lemma {:induction false} EligibleCount(xs: seq<Interaction>, exclude: set<string>, n: nat)
    requires n <= |xs|
    ensures |Eligible(xs, exclude, n)| + EligibleFrom(xs, exclude, n) == |Eligible(xs, exclude, |xs|)|
    decreases |xs| - n
  {
    if n < |xs| { EligibleCount(xs, exclude, n + 1); }
  }

  lemma {:induction false} EligiblePrefix(xs: seq<Interaction>, exclude: set<string>, k: nat, n: nat)
    requires k <= n <= |xs|
    ensures Eligible(xs, exclude, k) <= Eligible(xs, exclude, n)
    decreases n
  {
    hide Eligible, Excluded;
    if k < n {
      EligibleStep(xs, exclude, n - 1);
      EligiblePrefix(xs, exclude, k, n - 1);
    }
  }

  lemma {:induction false} EligibleStep(xs: seq<Interaction>, exclude: set<string>, k: nat)
    requires k < |xs|
    ensures Eligible(xs, exclude, k + 1) == Eligible(xs, exclude, k) + if Excluded(xs[k], exclude) then [] else [k]
  {
  }

  /** A policy clears an interaction exactly when its tool is not excluded and at least `keep`
      newer interactions are not excluded either. */
  lemma {:induction false} CandidateIff(xs: seq<Interaction>, policy: ToolPolicy, k: nat)
    requires k < |xs|
    ensures k in Candidates(xs, policy)
      <==> !Excluded(xs[k], policy.exclude) && EligibleFrom(xs, policy.exclude, k + 1) >= policy.keep
  {
    EligibleIncreasing(xs, policy.exclude, |xs|);
    if !Excluded(xs[k], policy.exclude) {
      EligibleStep(xs, policy.exclude, k);
      EligiblePrefix(xs, policy.exclude, k + 1, |xs|);
      EligibleCount(xs, policy.exclude, k + 1);
      hide Eligible, EligibleFrom, Excluded;
      PrefixPosition(Eligible(xs, policy.exclude, |xs|), Eligible(xs, policy.exclude, k), k, policy.keep);
    } else {
      hide Eligible, EligibleFrom;
    }
  }

  lemma {:induction false} PrefixPosition(all: seq<nat>, before: seq<nat>, k: nat, keep: nat)
    requires Increasing(all) && before + [k] <= all
    ensures k in (if keep >= |all| then [] else all[..|all| - keep]) <==> |all| - |before| - 1 >= keep
  {
    assert all[|before|] == k by { assert (before + [k])[|before|] == k; }
    if keep < |all| {
      var kept := all[..|all| - keep];
      if |before| < |kept| {
        assert kept[|before|] == k;
      }
    }
  }
}

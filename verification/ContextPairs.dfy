/** What collecting tool interactions finds: every tool_use block that has an id, in document order,
    each with exactly the tool_result blocks that answer it. */
module ContextPairs {
  import opened Json
  import opened Context

  /** Document order. */
  predicate Before(a: Ref, b: Ref) {
    a.message < b.message || (a.message == b.message && a.block < b.block)
  }

  predicate IsUse(ms: seq<Message>, r: Ref) {
    IsRef(ms, r) && BlockAt(ms, r).blockType == "tool_use" && BlockAt(ms, r).id.Some?
  }

  predicate IsResult(ms: seq<Message>, r: Ref) {
    IsRef(ms, r) && BlockAt(ms, r).blockType == "tool_result" && BlockAt(ms, r).toolUseId.Some?
  }

  /** The use is earlier and carries the id the result asks for. */
  predicate Matches(ms: seq<Message>, result: Ref, use: Ref) {
    IsResult(ms, result) && IsUse(ms, use) && Before(use, result)
      && BlockAt(ms, use).id == BlockAt(ms, result).toolUseId
  }

  /** The result belongs to the latest such use. */
  ghost predicate Answers(ms: seq<Message>, result: Ref, use: Ref) {
    Matches(ms, result, use) && forall other | Matches(ms, result, other) :: !Before(use, other)
  }

  lemma {:induction false} AnswersOne(ms: seq<Message>, result: Ref, a: Ref, b: Ref)
    requires Answers(ms, result, a) && Answers(ms, result, b)
    ensures a == b
  {
    assert !Before(a, b) && !Before(b, a);
  }

  // ----- the invariant of a scan that has reached `at` -----

  ghost predicate UsesFound(ms: seq<Message>, xs: seq<Interaction>, at: Ref) {
    && (forall i | 0 <= i < |xs| ::
         IsUse(ms, xs[i].toolUse) && Before(xs[i].toolUse, at) && xs[i].name == BlockAt(ms, xs[i].toolUse).name)
    && (forall i, j | 0 <= i < j < |xs| :: Before(xs[i].toolUse, xs[j].toolUse))
    && (forall u | IsUse(ms, u) && Before(u, at) :: exists i :: 0 <= i < |xs| && xs[i].toolUse == u)
  }

  /** The index holds the latest use of every id. */
  ghost predicate LatestIndexed(ms: seq<Message>, acc: Scanned) {
    var xs := acc.interactions;
    && (forall i | 0 <= i < |xs| :: IsUse(ms, xs[i].toolUse))
    && (forall c | c in acc.byCallId ::
         acc.byCallId[c] < |xs| && BlockAt(ms, xs[acc.byCallId[c]].toolUse).id == Some(c))
    && (forall i | 0 <= i < |xs| ::
         var c := BlockAt(ms, xs[i].toolUse).id.value;
         c in acc.byCallId && i <= acc.byCallId[c])
  }

  ghost predicate ResultsFound(ms: seq<Message>, x: Interaction, at: Ref) {
    && (forall r | r in x.toolResults :: Before(r, at) && Answers(ms, r, x.toolUse))
    && (forall r | Before(r, at) && Answers(ms, r, x.toolUse) :: r in x.toolResults)
    && (forall i, j | 0 <= i < j < |x.toolResults| :: Before(x.toolResults[i], x.toolResults[j]))
  }

  ghost predicate Found(ms: seq<Message>, acc: Scanned, at: Ref) {
    && UsesFound(ms, acc.interactions, at)
    && LatestIndexed(ms, acc)
    && forall i | 0 <= i < |acc.interactions| :: ResultsFound(ms, acc.interactions[i], at)
  }

  /** No block lies between the two positions but the one at `at`, if it is one. */
  ghost predicate Next(ms: seq<Message>, at: Ref, next: Ref) {
    Before(at, next) && forall r | IsRef(ms, r) && Before(r, next) :: Before(r, at) || r == at
  }

  lemma {:induction false} FoundSkip(ms: seq<Message>, acc: Scanned, at: Ref, next: Ref)
    requires Found(ms, acc, at) && Next(ms, at, next)
    requires !IsUse(ms, at) && forall i | 0 <= i < |acc.interactions| :: !Answers(ms, at, acc.interactions[i].toolUse)
    ensures Found(ms, acc, next)
  {
    var xs := acc.interactions;
    hide LatestIndexed;
    forall i | 0 <= i < |xs| ensures ResultsFound(ms, xs[i], next) {
      assert ResultsFound(ms, xs[i], at);
    }
  }

  lemma {:induction false} UseAdded(ms: seq<Message>, xs: seq<Interaction>, x: Interaction, at: Ref, next: Ref)
    requires UsesFound(ms, xs, at) && Next(ms, at, next) && IsUse(ms, at) && x.toolUse == at
      && x.name == BlockAt(ms, at).name
    ensures UsesFound(ms, xs + [x], next)
  {
    var xs' := xs + [x];
    forall u | IsUse(ms, u) && Before(u, next) ensures exists i :: 0 <= i < |xs'| && xs'[i].toolUse == u {
      if u == at {
        assert xs'[|xs|].toolUse == u;
      } else {
        var i :| 0 <= i < |xs| && xs[i].toolUse == u;
        assert xs'[i].toolUse == u;
      }
    }
  }

  lemma {:induction false} FoundUse(ms: seq<Message>, acc: Scanned, at: Ref, next: Ref)
    requires Found(ms, acc, at) && Next(ms, at, next) && IsUse(ms, at)
    ensures Indexed(acc) && Found(ms, Visit(acc, at, BlockAt(ms, at)), next)
  {
    hide Visit, IsUse, Answers, Next, UsesFound, LatestIndexed, ResultsFound, Found;
    FoundParts(ms, acc, at);
    IndexedBy(ms, acc);
    VisitUse(ms, acc, at);
    UseNoAnswer(ms, at, at);
    var b, xs := BlockAt(ms, at), acc.interactions;
    var x := Interaction(b.name, at, []);
    var xs' := xs + [x];
    UseAdded(ms, xs, x, at, next);
    IndexAdded(ms, acc, x);
    NothingEarlier(ms, x, at, next);
    forall i | 0 <= i < |xs'| ensures ResultsFound(ms, xs'[i], next) {
      if i < |xs| {
        UseNoAnswer(ms, at, xs[i].toolUse);
        ResultAdded(ms, xs[i], xs[i], at, next, false);
      }
    }
    FoundWhole(ms, Visit(acc, at, b), next);
  }

  lemma {:induction false} IndexedBy(ms: seq<Message>, acc: Scanned)
    requires LatestIndexed(ms, acc)
    ensures Indexed(acc)
  {
    hide IsUse;
  }

  lemma {:induction false} VisitUse(ms: seq<Message>, acc: Scanned, at: Ref)
    requires IsUse(ms, at) && Indexed(acc)
    ensures var b := BlockAt(ms, at);
            Visit(acc, at, b)
              == Scanned(acc.interactions + [Interaction(b.name, at, [])],
                acc.byCallId[b.id.value := |acc.interactions|])
  {
  }

  lemma {:induction false} VisitResult(ms: seq<Message>, acc: Scanned, at: Ref)
    requires IsResult(ms, at) && Indexed(acc) && BlockAt(ms, at).toolUseId.value in acc.byCallId
    ensures var index := acc.byCallId[BlockAt(ms, at).toolUseId.value];
            var x := acc.interactions[index];
            Visit(acc, at, BlockAt(ms, at))
              == Scanned(acc.interactions[index := x.(toolResults := x.toolResults + [at])], acc.byCallId)
  {
  }

  lemma {:induction false} UseNoAnswer(ms: seq<Message>, at: Ref, use: Ref)
    requires IsUse(ms, at)
    ensures IsRef(ms, at) && !Answers(ms, at, use)
  {
    assert !IsResult(ms, at);
  }

  lemma {:induction false} IndexAdded(ms: seq<Message>, acc: Scanned, x: Interaction)
    requires LatestIndexed(ms, acc) && IsUse(ms, x.toolUse)
    ensures LatestIndexed(ms, Scanned(acc.interactions + [x],
      acc.byCallId[BlockAt(ms, x.toolUse).id.value := |acc.interactions|]))
  {
  }

  lemma {:induction false} IndexKept(ms: seq<Message>, acc: Scanned, index: nat, x: Interaction)
    requires LatestIndexed(ms, acc) && index < |acc.interactions| && x.toolUse == acc.interactions[index].toolUse
    ensures LatestIndexed(ms, acc.(interactions := acc.interactions[index := x]))
  {
    var xs, xs' := acc.interactions, acc.interactions[index := x];
    assert forall i | 0 <= i < |xs| :: xs'[i].toolUse == xs[i].toolUse;
  }

  lemma {:induction false} NothingEarlier(ms: seq<Message>, x: Interaction, at: Ref, next: Ref)
    requires x.toolUse == at && x.toolResults == [] && Next(ms, at, next)
    ensures ResultsFound(ms, x, next)
  {
    forall r | Before(r, next) ensures !Answers(ms, r, at) {
      if IsRef(ms, r) { assert Before(r, at) || r == at; }
    }
  }

  lemma {:induction false} LatestAnswers(ms: seq<Message>, acc: Scanned, at: Ref, i: nat)
    requires Found(ms, acc, at) && IsResult(ms, at) && i < |acc.interactions|
    ensures Answers(ms, at, acc.interactions[i].toolUse)
      <==> BlockAt(ms, at).toolUseId.value in acc.byCallId && acc.byCallId[BlockAt(ms, at).toolUseId.value] == i
  {
    hide ResultsFound;
    var xs, c := acc.interactions, BlockAt(ms, at).toolUseId.value;
    var use := xs[i].toolUse;
    if c in acc.byCallId && acc.byCallId[c] == i {
      assert Matches(ms, at, use);
      forall other | Matches(ms, at, other) ensures !Before(use, other) {
        var j :| 0 <= j < |xs| && xs[j].toolUse == other;
        assert BlockAt(ms, xs[j].toolUse).id.value == c;
        assert j <= i;
      }
    } else if Matches(ms, at, use) {
      assert BlockAt(ms, use).id.value == c;
      var k := acc.byCallId[c];
      assert i < k && Matches(ms, at, xs[k].toolUse) && Before(use, xs[k].toolUse);
    }
  }

  lemma {:induction false} UsesKept(ms: seq<Message>, xs: seq<Interaction>, xs': seq<Interaction>, at: Ref, next: Ref)
    requires UsesFound(ms, xs, at) && Next(ms, at, next) && !IsUse(ms, at) && |xs'| == |xs|
    requires forall i | 0 <= i < |xs| :: xs'[i].toolUse == xs[i].toolUse && xs'[i].name == xs[i].name
    ensures UsesFound(ms, xs', next)
  {
    forall u | IsUse(ms, u) && Before(u, next) ensures exists i :: 0 <= i < |xs'| && xs'[i].toolUse == u {
      var i :| 0 <= i < |xs| && xs[i].toolUse == u;
      assert xs'[i].toolUse == u;
    }
  }

  lemma {:induction false} FoundResult(ms: seq<Message>, acc: Scanned, at: Ref, next: Ref)
    requires Found(ms, acc, at) && Next(ms, at, next) && IsResult(ms, at)
      && BlockAt(ms, at).toolUseId.value in acc.byCallId
    ensures Indexed(acc) && Found(ms, Visit(acc, at, BlockAt(ms, at)), next)
  {
    hide Visit, IsUse, Answers, Next, UsesFound, LatestIndexed, ResultsFound, Found;
    FoundParts(ms, acc, at);
    IndexedBy(ms, acc);
    VisitResult(ms, acc, at);
    var index, xs := acc.byCallId[BlockAt(ms, at).toolUseId.value], acc.interactions;
    var x := xs[index].(toolResults := xs[index].toolResults + [at]);
    ResultNoUse(ms, at);
    var xs' := xs[index := x];
    UsesKept(ms, xs, xs', at, next);
    IndexKept(ms, acc, index, x);
    forall i | 0 <= i < |xs'| ensures ResultsFound(ms, xs'[i], next) {
      LatestAnswers(ms, acc, at, i);
      ResultAdded(ms, xs[i], xs'[i], at, next, i == index);
    }
    FoundWhole(ms, Scanned(xs', acc.byCallId), next);
  }

  lemma {:induction false} FoundParts(ms: seq<Message>, acc: Scanned, at: Ref)
    requires Found(ms, acc, at)
    ensures UsesFound(ms, acc.interactions, at) && LatestIndexed(ms, acc)
    ensures forall i | 0 <= i < |acc.interactions| :: ResultsFound(ms, acc.interactions[i], at)
  {
  }

  lemma {:induction false} FoundWhole(ms: seq<Message>, acc: Scanned, at: Ref)
    requires UsesFound(ms, acc.interactions, at) && LatestIndexed(ms, acc)
    requires forall i | 0 <= i < |acc.interactions| :: ResultsFound(ms, acc.interactions[i], at)
    ensures Found(ms, acc, at)
  {
  }

  lemma {:induction false} ResultNoUse(ms: seq<Message>, at: Ref)
    requires IsResult(ms, at)
    ensures !IsUse(ms, at)
  {
  }

  lemma {:induction false} ResultAdded(ms: seq<Message>, x: Interaction, x': Interaction, at: Ref, next: Ref,
                                       added: bool)
    requires ResultsFound(ms, x, at) && Next(ms, at, next) && IsRef(ms, at)
    requires x'.toolUse == x.toolUse && x'.toolResults == x.toolResults + if added then [at] else []
    requires added <==> Answers(ms, at, x.toolUse)
    ensures ResultsFound(ms, x', next)
  {
    assert forall r | Answers(ms, r, x.toolUse) :: IsRef(ms, r);
    hide Answers;
    assert forall r :: r in x'.toolResults <==> r in x.toolResults || (added && r == at);
  }

  lemma {:induction false} ScanFound(ms: seq<Message>, acc: Scanned, mi: nat, bi: nat)
    requires Indexed(acc) && Found(ms, acc, Ref(mi, bi)) && (mi < |ms| ==> bi <= |ms[mi].blocks|)
    ensures Found(ms, Scan(ms, acc, mi, bi), Ref(|ms|, 0)) || (mi >= |ms| && Scan(ms, acc, mi, bi) == acc)
    decreases |ms| - mi, if mi < |ms| then |ms[mi].blocks| - bi else 0
  {
    var at := Ref(mi, bi);
    if mi < |ms| {
      if bi >= |ms[mi].blocks| {
        assert Found(ms, acc, Ref(mi + 1, 0)) by {
          hide LatestIndexed;
          FoundSkip(ms, acc, at, Ref(mi + 1, 0));
        }
        hide Found;
        if mi + 1 < |ms| { ScanFound(ms, acc, mi + 1, 0); }
      } else {
        var next := Ref(mi, bi + 1);
        assert Next(ms, at, next);
        var b := BlockAt(ms, at);
        if IsUse(ms, at) {
          FoundUse(ms, acc, at, next);
        } else if IsResult(ms, at) && b.toolUseId.value in acc.byCallId {
          FoundResult(ms, acc, at, next);
        } else {
          NoAnswer(ms, acc, at);
          FoundSkip(ms, acc, at, next);
        }
        hide Found;
        ScanFound(ms, Visit(acc, at, b), mi, bi + 1);
      }
    }
  }

  lemma {:induction false} NoAnswer(ms: seq<Message>, acc: Scanned, at: Ref)
    requires Found(ms, acc, at) && !(IsResult(ms, at) && BlockAt(ms, at).toolUseId.value in acc.byCallId)
    ensures forall i | 0 <= i < |acc.interactions| :: !Answers(ms, at, acc.interactions[i].toolUse)
  {
    forall i | 0 <= i < |acc.interactions| ensures !Answers(ms, at, acc.interactions[i].toolUse) {
      if IsResult(ms, at) { LatestAnswers(ms, acc, at, i); }
    }
  }

  /** Collecting finds exactly the tool_use blocks with ids, in document order, each with exactly
      the results that answer it, in document order. */
  ghost predicate Paired(ms: seq<Message>, xs: seq<Interaction>) {
    && (forall u :: IsUse(ms, u) <==> exists i :: 0 <= i < |xs| && xs[i].toolUse == u)
    && (forall i | 0 <= i < |xs| :: IsUse(ms, xs[i].toolUse) && xs[i].name == BlockAt(ms, xs[i].toolUse).name)
    && (forall i, j | 0 <= i < j < |xs| :: Before(xs[i].toolUse, xs[j].toolUse))
    && (forall i | 0 <= i < |xs| :: forall r :: r in xs[i].toolResults <==> Answers(ms, r, xs[i].toolUse))
    && (forall i | 0 <= i < |xs| :: Ascending(xs[i].toolResults))
  }

  predicate Ascending(refs: seq<Ref>) {
    forall i, j | 0 <= i < j < |refs| :: Before(refs[i], refs[j])
  }

  lemma {:induction false} CollectPairs(ms: seq<Message>)
    ensures Paired(ms, Collect(ms))
  {
    var at := Ref(0, 0);
    var acc := Scanned([], map[]);
    assert Found(ms, acc, at);
    ScanFound(ms, acc, 0, 0);
    var end, last := Ref(|ms|, 0), Scan(ms, acc, 0, 0);
    assert Found(ms, last, end);
    FoundPairs(ms, last, end);
  }

  lemma {:induction false} FoundPairs(ms: seq<Message>, acc: Scanned, end: Ref)
    requires Found(ms, acc, end) && end.message == |ms|
    ensures Paired(ms, acc.interactions)
  {
    hide LatestIndexed;
    var xs := acc.interactions;
    forall u ensures IsUse(ms, u) <==> exists i :: 0 <= i < |xs| && xs[i].toolUse == u {
      if IsUse(ms, u) { assert Before(u, end); }
    }
    forall i | 0 <= i < |xs| ensures forall r :: r in xs[i].toolResults <==> Answers(ms, r, xs[i].toolUse) {
      assert ResultsFound(ms, xs[i], end);
      assert forall r | Answers(ms, r, xs[i].toolUse) :: Before(r, end);
    }
    forall i | 0 <= i < |xs| ensures Ascending(xs[i].toolResults) {
      assert ResultsFound(ms, xs[i], end);
    }
  }
}

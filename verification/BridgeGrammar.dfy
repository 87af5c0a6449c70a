/** The grammar of the outgoing stream, as an acceptor that knows nothing of the bridge's state,
    and the proof that every run of a fresh bridge is accepted. */
module BridgeGrammar {
  import opened Json
  import ResponseGate
  import opened ToolCalls
  import opened Bridge

  /** A Gap is an index whose block was never shown. */
  datatype BlockKind = TextKind | ThinkingKind | ToolKind(callId: Text) | SearchKind | Gap

  /** Streaming, then the closing summary, then the end. */
  datatype Phase = Streaming | Summed | Ended

  /** `kinds[i]` and `stops[i]`: the kind of block i and how often it has been stopped. A stream in which
      a bad-arguments error was sent is torn: the error swallowed what was pending with it, so indices may
      be missing from then on. */
  datatype Grammar = Grammar(kinds: seq<BlockKind>, stops: seq<nat>, phase: Phase, torn: bool)

  const FRESH := Grammar([], [], Streaming, false)

  function KindOf(b: BlockStart): BlockKind {
    match b
    case TextStart => TextKind
    case ThinkingStart => ThinkingKind
    case ToolUseStart(c, _) => ToolKind(c)
    case ServerToolUseStart(_, _) => SearchKind
    case SearchResultStart(_, _) => SearchKind
  }

  /** A block's stops in a finished stream: web-search blocks are stopped twice. */
  function FinalStops(k: BlockKind): nat {
    if k.SearchKind? then 2 else 1
  }

  predicate Open(g: Grammar, i: nat) {
    i < |g.kinds| == |g.stops| && g.stops[i] == 0
  }

  /** In a torn stream, all indices below `n` that have not been shown are gaps. */
  function Pad(g: Grammar, n: nat): (r: Grammar)
    ensures g.torn && |g.kinds| == |g.stops| ==> |r.kinds| == |r.stops| && |r.kinds| >= n
    ensures |g.kinds| >= n ==> r == g
  {
    if !g.torn || |g.kinds| >= n then g
    else g.(kinds := g.kinds + seq(n - |g.kinds|, i => Gap), stops := g.stops + seq(n - |g.kinds|, i => 0))
  }

  function Started(g: Grammar, i: nat, k: BlockKind): Option<Grammar> {
    if i == |g.kinds| then Some(g.(kinds := g.kinds + [k], stops := g.stops + [0])) else None
  }

  function Stopped(g: Grammar, i: nat): Option<Grammar> {
    if i < |g.kinds| == |g.stops| && g.stops[i] < FinalStops(g.kinds[i])
      then Some(g.(stops := g.stops[i := g.stops[i] + 1]))
    else None
  }

  /** One outgoing event; None when the event is not allowed. */
  function Accept(g: Grammar, e: Sse): Option<Grammar> {
    if g.phase.Ended? then None
    else if g.phase.Summed? then if e.MessageStop? then Some(g.(phase := Ended)) else None
    else match e
      case Start(i, b) => Started(Pad(g, i), i, KindOf(b))
      case TextDelta(i, _) => if Open(g, i) && g.kinds[i].TextKind? then Some(g) else None
      case ThinkingDelta(i, _) => if Open(g, i) && g.kinds[i].ThinkingKind? then Some(g) else None
      case InputDelta(i, _) => if Open(g, i) && g.kinds[i].ToolKind? then Some(g) else None
      case Stop(i) => Stopped(Pad(g, i + 1), i)
      case MessageDelta(_, _, _) => if Finished(g) then Some(g.(phase := Summed)) else None
      case MessageStop => None
      case Error(BackendFailed) => Some(g.(phase := Ended))
      case Error(BadArguments) => Some(g.(torn := true))
  }

  predicate Finished(g: Grammar) {
    |g.kinds| == |g.stops| && forall i | 0 <= i < |g.kinds| :: g.stops[i] == FinalStops(g.kinds[i])
  }

  function AcceptAll(g: Grammar, out: seq<Sse>): Option<Grammar>
    decreases |out|
  {
    if out == [] then Some(g)
    else match Accept(g, out[0])
      case None => None
      case Some(g1) => AcceptAll(g1, out[1..])
  }

  lemma {:induction false} AcceptAppend(g: Grammar, a: seq<Sse>, b: seq<Sse>)
    requires AcceptAll(g, a).Some?
    ensures AcceptAll(g, a + b) == AcceptAll(AcceptAll(g, a).value, b)
    decreases |a|
  {
    if a == [] {
      assert a + b == b;
    } else {
      AcceptAppend(Accept(g, a[0]).value, a[1..], b);
      assert (a + b)[1..] == a[1..] + b;
    }
  }

  // ----- the invariant tying the bridge to the acceptor -----

  ghost predicate Tracks(g: Grammar, s: State) {
    && g.phase.Streaming?
    && |s.blocks| == s.nextIndex == |g.kinds| == |g.stops|
    && (forall i | 0 <= i < s.nextIndex :: s.blocks[i] == Block(i, false))
    && (forall i | 0 <= i < s.nextIndex :: g.stops[i] == if g.kinds[i].SearchKind? then 1 else 0)
    && (s.activeText.Some? ==> s.activeText.value < s.nextIndex && g.kinds[s.activeText.value].TextKind?)
    && (s.activeThinking.Some? ==>
         s.activeThinking.value < s.nextIndex && g.kinds[s.activeThinking.value].ThinkingKind?)
    && (forall c | c in s.toolBlocks :: s.toolBlocks[c] < s.nextIndex && g.kinds[s.toolBlocks[c]] == ToolKind(c))
  }

  /** A step keeps the acceptor and the bridge together. */
  ghost predicate Keeps(g: Grammar, t: Step) {
    var g' := AcceptAll(g, t.out);
    && g'.Some?
    && if g'.value.phase.Streaming? then !t.s.completed && Tracks(Pad(g'.value, t.s.nextIndex), t.s)
       else g'.value.phase.Ended? && t.s.completed
  }

  lemma {:induction false} DeltasAccepted(g: Grammar, out: seq<Sse>)
    requires g.phase.Streaming? && forall e | e in out :: Accept(g, e) == Some(g)
    ensures AcceptAll(g, out) == Some(g)
    decreases |out|
  {
    if out != [] {
      assert out[0] in out;
      DeltasAccepted(g, out[1..]);
    }
  }

  lemma {:induction false} KeepsTexts(g: Grammar, s: State, texts: seq<Text>)
    requires Tracks(g, s) && !s.completed
    ensures Keeps(g, EmitTexts(s, texts))
  {
    var i := OpenText(s).activeText.value;
    var g1 := OpensText(g, s);
    DeltasAccepted(g1, TextDeltas(i, texts));
    AcceptAppend(g, Opening(s), TextDeltas(i, texts));
  }

  function Opening(s: State): seq<Sse> {
    if s.activeText.None? then [Start(s.nextIndex, TextStart)] else []
  }

  lemma {:induction false} OpensText(g: Grammar, s: State) returns (g1: Grammar)
    requires Tracks(g, s)
    ensures AcceptAll(g, Opening(s)) == Some(g1) && Tracks(g1, OpenText(s))
  {
    g1 := g;
    if s.activeText.None? {
      g1 := Accept(g, Start(s.nextIndex, TextStart)).value;
      assert AcceptAll(g, Opening(s)) == AcceptAll(g1, []);
    }
  }

  lemma {:induction false} KeepsTextDelta(parse: Parser, g: Grammar, s: State, data: Text)
    requires Tracks(g, s) && !s.completed
    ensures Keeps(g, HandleTextDelta(parse, s, data))
  {
    var text := DeltaText(parse, data);
    if text.Some? && !Blank(text.value) && s.schema == Null {
      KeepsTexts(g, s.(sawText := true), [text.value]);
    }
  }

  lemma {:induction false} KeepsReasoning(parse: Parser, g: Grammar, s: State, data: Text)
    requires Tracks(g, s) && !s.completed
    ensures Keeps(g, HandleReasoning(parse, s, data))
  {
    if ParseDelta(parse, data).Delta? {
      var s1 := OpenThinking(s);
      var i := s1.activeThinking.value;
      var opening := if s.activeThinking.None? then [Start(i, ThinkingStart)] else [];
      var g1 := if s.activeThinking.Some? then g else Accept(g, Start(i, ThinkingStart)).value;
      assert Tracks(g1, s1) && AcceptAll(g, opening) == Some(g1);
      DeltasAccepted(g1, [ThinkingDelta(i, ParseDelta(parse, data).delta)]);
      AcceptAppend(g, opening, [ThinkingDelta(i, ParseDelta(parse, data).delta)]);
    }
  }

  lemma {:induction false} KeepsToolStart(g: Grammar, s: State, callId: Text, name: Text)
    requires Tracks(g, s) && !s.completed && callId !in s.toolBlocks
    ensures Keeps(g, Step(EnsureTool(s, callId), [Start(s.nextIndex, ToolUseStart(callId, name))]))
  {
    var e := Start(s.nextIndex, ToolUseStart(callId, name));
    var g1 := Accept(g, e).value;
    assert AcceptAll(g, [e]) == Some(g1);
    assert Tracks(g1, EnsureTool(s, callId));
  }

  /** The grammar only looks at these fields. */
  lemma {:induction false} KeepsRelabel(g: Grammar, t: Step, s: State)
    requires Keeps(g, t)
    requires s.nextIndex == t.s.nextIndex && s.blocks == t.s.blocks && s.activeText == t.s.activeText
    requires s.activeThinking == t.s.activeThinking && s.toolBlocks == t.s.toolBlocks && s.completed == t.s.completed
    ensures Keeps(g, Step(s, t.out))
  {
  }

  lemma {:induction false} KeepsToolCall(g: Grammar, s: State, tc: ToolCall, finalItem: bool)
    requires Tracks(g, s) && !s.completed
    ensures Keeps(g, HandleToolCall(s, tc, finalItem))
  {
    if tc.callId !in s.toolBlocks {
      KeepsToolStart(g, s, tc.callId, tc.name);
      KeepsRelabel(g, Step(EnsureTool(s, tc.callId), [Start(s.nextIndex, ToolUseStart(tc.callId, tc.name))]),
                   HandleToolCall(s, tc, finalItem).s);
    }
  }

  lemma {:induction false} KeepsNothing(g: Grammar, s: State)
    requires Tracks(g, s) && !s.completed
    ensures Keeps(g, Step(s, []))
  {
  }

  lemma {:induction false} KeepsArgDelta(parse: Parser, g: Grammar, s: State, data: Text)
    requires Tracks(g, s) && !s.completed
    ensures Keeps(g, HandleArgDelta(parse, s, data))
  {
    hide Tracks, Accept, AcceptAll, Keeps;
    KeepsNothing(g, s);
    var d := ParseDelta(parse, data);
    if d.Delta? && (d.callId.Some? || s.lastTool.Some?) {
      var callId := if d.callId.Some? then d.callId.value else s.lastTool.value;
      var handled := HandleArgDelta(parse, s, data);
      if callId in s.toolBlocks {
        KeepsRelabel(g, Step(s, []), handled.s);
      } else {
        KeepsToolStart(g, s, callId, []);
        KeepsRelabel(g, Step(EnsureTool(s, callId), handled.out), handled.s);
      }
    }
  }

  lemma {:induction false} KeepsSearch(g: Grammar, s: State, call: SearchCall)
    requires Tracks(g, s) && !s.completed
    ensures Keeps(g, EmitSearch(s, call)) && !EmitSearch(s, call).s.completed
    ensures var g' := AcceptAll(g, EmitSearch(s, call).out).value;
      g'.phase.Streaming? && Tracks(g', EmitSearch(s, call).s)
  {
    if call.callId !in s.emittedSearches {
      var i := s.nextIndex;
      var use, found := ServerToolUseStart(call.toolUseId, call.query), SearchResultStart(call.toolUseId, call.results);
      var g1 := SearchBlockAccepted(g, i, use);
      var g2 := SearchBlockAccepted(g1, i + 1, found);
      AcceptAppend(g, [Start(i, use), Stop(i)], [Start(i + 1, found), Stop(i + 1)]);
      assert EmitSearch(s, call).out == [Start(i, use), Stop(i)] + [Start(i + 1, found), Stop(i + 1)];
    }
  }

  lemma {:induction false} SearchBlockAccepted(g: Grammar, i: nat, block: BlockStart) returns (g2: Grammar)
    requires g.phase.Streaming? && i == |g.kinds| == |g.stops|
    requires block.ServerToolUseStart? || block.SearchResultStart?
    ensures AcceptAll(g, [Start(i, block), Stop(i)]) == Some(g2)
    ensures g2 == g.(kinds := g.kinds + [SearchKind], stops := g.stops + [1])
  {
    var g1 := g.(kinds := g.kinds + [SearchKind], stops := g.stops + [0]);
    g2 := g.(kinds := g.kinds + [SearchKind], stops := g.stops + [1]);
    assert Accept(g, Start(i, block)) == Some(g1);
    assert g1.stops[i := 1] == g2.stops;
    assert Accept(g1, Stop(i)) == Some(g2);
    hide Accept;
    var out := [Start(i, block), Stop(i)];
    assert out[1..] == [Stop(i)] && out[1..][1..] == [];
    assert AcceptAll(g1, out[1..]) == AcceptAll(g2, []);
  }

  lemma {:induction false} KeepsSearches(g: Grammar, s: State, calls: seq<SearchCall>)
    requires Tracks(g, s) && !s.completed
    ensures Keeps(g, EmitSearches(s, calls)) && !EmitSearches(s, calls).s.completed
    ensures var g' := AcceptAll(g, EmitSearches(s, calls).out).value;
      g'.phase.Streaming? && Tracks(g', EmitSearches(s, calls).s)
    decreases |calls|
  {
    if calls != [] {
      KeepsSearch(g, s, calls[0]);
      var first := EmitSearch(s, calls[0]);
      var g1 := AcceptAll(g, first.out).value;
      KeepsSearches(g1, first.s, calls[1..]);
      AcceptAppend(g, first.out, EmitSearches(first.s, calls[1..]).out);
    }
  }

  lemma {:induction false} KeepsItem(parse: Parser, g: Grammar, s: State, ev: Event)
    requires Tracks(g, s) && !s.completed
    ensures Keeps(g, HandleItem(parse, s, ev))
  {
    var tc := ItemToolCall(parse, ev.data);
    if tc.Some? {
      KeepsToolCall(g, s, tc.value, ev.name == "response.output_item.done");
    } else if DecodeObject(parse, ev.data).Some? && ObjectAt(DecodeObject(parse, ev.data).value, "item").Some? {
      var item := ObjectAt(DecodeObject(parse, ev.data).value, "item").value;
      if HasString(item, "type", "web_search_call") {
        var id := ItemSearchId(item, "output_item");
        if id.Some? { KeepsSearch(g, s, MakeSearch(id.value, item)); }
      } else if HasString(item, "type", "message") {
        KeepsMessageItem(g, s, item);
      }
    }
  }

  lemma {:induction false} KeepsMessageItem(g: Grammar, s: State, item: Fields)
    requires Tracks(g, s) && !s.completed
    ensures Keeps(g, HandleMessageItem(s, item))
  {
    var texts := if "content" in item && item["content"].Arr? then OutputTexts(item["content"].items) else [];
    if !s.sawText && texts != [] && s.schema == Null { KeepsTexts(g, s, texts); }
  }

  lemma {:induction false} KeepsSearchEvent(parse: Parser, g: Grammar, s: State, ev: Event)
    requires Tracks(g, s) && !s.completed
    ensures Keeps(g, HandleSearchEvent(parse, s, ev))
  {
    if DecodeObject(parse, ev.data).Some? {
      var v := DecodeObject(parse, ev.data).value;
      if EventSearchId(v, ev.name).Some? { KeepsSearch(g, s, MakeSearch(EventSearchId(v, ev.name).value, v)); }
    }
  }

  // ----- completion -----

  /** Stopping every block, once the first `i` have been stopped. */
  lemma {:induction false} StopsAccepted(g: Grammar, blocks: seq<Block>, i: nat) returns (g': Grammar)
    requires g.phase.Streaming? && i <= |blocks| == |g.kinds| == |g.stops|
    requires forall j | 0 <= j < |blocks| :: blocks[j] == Block(j, false)
    requires forall j | 0 <= j < |blocks| :: g.stops[j] == FinalStops(g.kinds[j]) - if j < i then 0 else 1
    ensures AcceptAll(g, StopsOf(blocks[i..])) == Some(g')
    ensures g'.phase.Streaming? && g'.kinds == g.kinds && Finished(g')
    decreases |blocks| - i
  {
    if i == |blocks| {
      g' := g;
    } else {
      var g1 := g.(stops := g.stops[i := g.stops[i] + 1]);
      assert Accept(g, Stop(i)) == Some(g1);
      g' := StopsAccepted(g1, blocks, i + 1);
      assert blocks[i..][1..] == blocks[i + 1..];
      assert StopsOf(blocks[i..]) == [Stop(i)] + StopsOf(blocks[i + 1..]);
    }
  }

  lemma {:induction false} SummaryAccepted(g: Grammar, delta: Sse)
    requires g.phase.Streaming? && Finished(g) && delta.MessageDelta?
    ensures AcceptAll(g, [delta, MessageStop]) == Some(g.(phase := Ended))
  {
    var g1 := g.(phase := Summed);
    var g2 := g.(phase := Ended);
    assert Accept(g, delta) == Some(g1) && Accept(g1, MessageStop) == Some(g2);
    assert AcceptAll(g2, []) == Some(g2);
    assert [delta, MessageStop][1..] == [MessageStop] && [MessageStop][1..] == [];
    assert AcceptAll(g1, [MessageStop]) == Some(g2);
  }

  lemma {:induction false} KeepsFinalize(parse: Parser, g: Grammar, s: State)
    requires Tracks(g, s)
    ensures Keeps(g, Finalize(parse, s)) && AcceptAll(g, Finalize(parse, s).out).value.phase.Ended?
  {
    var completed := s.(completed := true);
    var flushed := FlushStructured(parse, completed);
    var g1 := AcceptFlush(parse, g, completed);
    var blocks := flushed.s.blocks;
    var stops := StopsOf(blocks);
    assert blocks[0..] == blocks;
    var g2 := StopsAccepted(g1, blocks, 0);
    hide Accept, AcceptAll, StopsOf, FlushStructured, Tracks;
    var out := Finalize(parse, s).out;
    var summary := out[|flushed.out| + |stops|..];
    assert summary == [summary[0], MessageStop] && summary[0].MessageDelta?;
    SummaryAccepted(g2, summary[0]);
    AcceptAppend(g1, stops, summary);
    AcceptAppend(g, flushed.out, stops + summary);
    assert out == flushed.out + (stops + summary);
  }

  lemma {:induction false} AcceptFlush(parse: Parser, g: Grammar, s: State) returns (g': Grammar)
    requires Tracks(g, s)
    ensures AcceptAll(g, FlushStructured(parse, s).out) == Some(g')
    ensures Tracks(g', FlushStructured(parse, s).s)
  {
    FlushShape(parse, s);
    hide FlushStructured, OpenText, Accept, Opening;
    g' := g;
    var flushed := FlushStructured(parse, s);
    if flushed != Step(s, []) {
      g' := OpensText(g, s);
      var delta := flushed.out[|Opening(s)|..];
      TracksSaw(g', OpenText(s));
      TextDeltaAccepted(g', OpenText(s), delta[0]);
      DeltasAccepted(g', delta);
      AcceptAppend(g, Opening(s), delta);
      assert flushed.out == Opening(s) + delta;
    }
  }

  /** The flush shows nothing, or opens the text block if needed and puts one delta into it. */
  lemma {:induction false} FlushShape(parse: Parser, s: State)
    ensures var flushed := FlushStructured(parse, s);
            || flushed == Step(s, [])
            || (&& flushed.s == OpenText(s).(sawText := true)
                && OpenText(s).activeText.Some?
                && exists text :: flushed.out == Opening(s) + [TextDelta(OpenText(s).activeText.value, text)])
  {
    hide ResponseGate.Cleanup, Blank;
    var text := ResponseGate.Cleanup(parse, s.schema, s.structured);
    if FlushStructured(parse, s) != Step(s, []) {
      assert FlushStructured(parse, s).out == Opening(s) + [TextDelta(OpenText(s).activeText.value, text)];
    }
  }

  lemma {:induction false} TracksSaw(g: Grammar, s: State)
    requires Tracks(g, s)
    ensures Tracks(g, s.(sawText := true))
  {
  }

  lemma {:induction false} TextDeltaAccepted(g: Grammar, s: State, e: Sse)
    requires Tracks(g, s) && s.activeText.Some? && e.TextDelta? && e.index == s.activeText.value
    ensures g.phase.Streaming? && Accept(g, e) == Some(g)
  {
  }

  lemma {:induction false} KeepsInputs(parse: Parser, g: Grammar, s: State, calls: seq<Text>)
    requires Tracks(g, s) && forall c | c in calls :: c in s.toolBlocks
    requires InputDeltas(parse, s, calls).Some?
    ensures AcceptAll(g, InputDeltas(parse, s, calls).value) == Some(g)
  {
    hide CallInput, InputDeltas, AcceptAll;
    var out := InputDeltas(parse, s, calls).value;
    forall e | e in out ensures Accept(g, e) == Some(g) {
      var i :| 0 <= i < |out| && out[i] == e;
      assert calls[i] in s.toolBlocks;
    }
    DeltasAccepted(g, out);
  }

  /** Searches leave the blocks of text, thinking and tools where they are. */
  ghost predicate SameHolders(s: State, t: State) {
    && t.toolBlocks == s.toolBlocks && t.activeText == s.activeText && t.activeThinking == s.activeThinking
    && t.completed == s.completed && t.nextIndex >= s.nextIndex
  }

  lemma {:induction false} SearchesKeepHolders(s: State, calls: seq<SearchCall>)
    ensures SameHolders(s, EmitSearches(s, calls).s)
    decreases |calls|
  {
    if calls != [] {
      SearchesKeepHolders(EmitSearch(s, calls[0]).s, calls[1..]);
    }
  }

  /** After a bad-arguments error the blocks that were pending are gaps to the client. */
  lemma {:induction false} TornAccepted(g: Grammar, g1: Grammar, s: State, t: State)
    requires Tracks(g, s) && Tracks(g1, t) && SameHolders(s, t) && !s.completed
    ensures Keeps(g, Step(t, [Error(BadArguments)]))
  {
    var torn := g.(torn := true);
    assert AcceptAll(torn, []) == Some(torn);
    assert Accept(g, Error(BadArguments)) == Some(torn);
    var padded := Pad(torn, t.nextIndex);
    assert forall i | 0 <= i < |g.kinds| :: padded.kinds[i] == g.kinds[i] && padded.stops[i] == g.stops[i];
  }

  lemma {:induction false} KeepsFinish(parse: Parser, g: Grammar, g1: Grammar, s: State, searched: Step)
    requires Tracks(g, s) && !s.completed && SameHolders(s, searched.s)
    requires AcceptAll(g, searched.out) == Some(g1) && Tracks(g1, searched.s)
    ensures Keeps(g, FinishCall(parse, searched))
  {
    hide Finalize, InputDeltas, Tracks, Accept, AcceptAll, CallOrder, CallInput, SameHolders, Pad;
    var order := CallOrder(searched.s.toolBlocks);
    if InputDeltas(parse, searched.s, order).None? {
      TornAccepted(g, g1, s, searched.s);
    } else {
      var inputs := InputDeltas(parse, searched.s, order).value;
      KeepsInputs(parse, g1, searched.s, order);
      KeepsFinalize(parse, g1, searched.s);
      var finished := Finalize(parse, searched.s);
      AcceptAppend(g1, inputs, finished.out);
      AcceptAppend(g, searched.out, inputs + finished.out);
      assert FinishCall(parse, searched).out == searched.out + (inputs + finished.out);
    }
  }

  lemma {:induction false} KeepsCompleted(parse: Parser, g: Grammar, s: State, data: Text)
    requires Tracks(g, s) && !s.completed
    ensures Keeps(g, HandleCompleted(parse, s, data))
  {
    hide OutputSearches, CompletedOutput, UsageOf, FinishCall, Accept, AcceptAll;
    var s1 := RecordUsage(parse, s, data);
    assert Tracks(g, s1);
    var calls := OutputSearches(CompletedOutput(parse, data), 0);
    KeepsSearches(g, s1, calls);
    SearchesKeepHolders(s1, calls);
    var searched := EmitSearches(s1, calls);
    KeepsFinish(parse, g, AcceptAll(g, searched.out).value, s1, searched);
  }

  // ----- runs -----

  lemma {:induction false} KeepsEvent(parse: Parser, g: Grammar, s: State, ev: Event)
    requires Tracks(g, s) && !s.completed
    ensures Keeps(g, MapEvent(parse, s, ev))
  {
    hide HandleTextDelta, HandleItem, HandleSearchEvent, HandleArgDelta, HandleReasoning, HandleCompleted;
    if IsFailure(parse, ev) {
      assert AcceptAll(g, [Error(BackendFailed)]).Some?;
    } else {
      var s1 := s.(completedSearches := s.completedSearches + SearchesShown(parse, ev));
      assert Tracks(g, s1);
      KeepsTextDelta(parse, g, s1, ev.data);
      KeepsItem(parse, g, s1, ev);
      KeepsSearchEvent(parse, g, s1, ev);
      KeepsArgDelta(parse, g, s1, ev.data);
      KeepsReasoning(parse, g, s1, ev.data);
      KeepsCompleted(parse, g, s1, ev.data);
    }
  }

  // ----- gaps make no difference to what is accepted -----

  lemma {:induction false} PadTwice(g: Grammar, n: nat, m: nat)
    requires n <= m && |g.kinds| == |g.stops|
    ensures Pad(Pad(g, n), m) == Pad(g, m)
  {
    if g.torn && |g.kinds| < n {
      assert Pad(Pad(g, n), m).kinds == Pad(g, m).kinds;
      assert Pad(Pad(g, n), m).stops == Pad(g, m).stops;
    }
  }

  ghost predicate PaddedFrom(h: Grammar, g: Grammar) {
    |g.kinds| == |g.stops| && |g.kinds| <= |h.kinds| && h == Pad(g, |h.kinds|)
  }

  /** An acceptor with its gaps filled in accepts no more than one that fills them in when it meets them. */
  lemma {:induction false} PadAccept(g: Grammar, h: Grammar, e: Sse)
    requires PaddedFrom(h, g) && Accept(h, e).Some?
    ensures Accept(g, e).Some? && PaddedFrom(Accept(h, e).value, Accept(g, e).value)
  {
    match e {
      case Start(i, b) => PadTwice(g, |h.kinds|, if i < |h.kinds| then |h.kinds| else i);
      case Stop(i) => PadStop(g, h, i);
      case MessageDelta(_, _, _) =>
        if g.phase.Streaming? {
          assert forall i | 0 <= i < |g.kinds| :: g.kinds[i] == h.kinds[i] && g.stops[i] == h.stops[i];
        }
      case _ =>
    }
  }

  lemma {:induction false} PadStop(g: Grammar, h: Grammar, i: nat)
    requires PaddedFrom(h, g) && Accept(h, Stop(i)).Some? && g.phase.Streaming?
    ensures Accept(g, Stop(i)).Some? && PaddedFrom(Accept(h, Stop(i)).value, Accept(g, Stop(i)).value)
  {
    var n := if i + 1 < |h.kinds| then |h.kinds| else i + 1;
    PadTwice(g, |h.kinds|, n);
    PadTwice(g, i + 1, n);
    var g1, h1 := Accept(g, Stop(i)).value, Accept(h, Stop(i)).value;
    assert h1.kinds == Pad(g1, |h1.kinds|).kinds && h1.stops == Pad(g1, |h1.kinds|).stops;
  }

  lemma {:induction false} PadAcceptAll(g: Grammar, h: Grammar, out: seq<Sse>)
    requires PaddedFrom(h, g) && AcceptAll(h, out).Some?
    ensures AcceptAll(g, out).Some? && PaddedFrom(AcceptAll(h, out).value, AcceptAll(g, out).value)
    decreases |out|
  {
    hide Accept, PaddedFrom;
    if out != [] {
      PadAccept(g, h, out[0]);
      PadAcceptAll(Accept(g, out[0]).value, Accept(h, out[0]).value, out[1..]);
    }
  }

  ghost predicate Follows(g: Grammar, s: State) {
    && |g.kinds| == |g.stops|
    && (g.phase.Streaming? ==> |g.kinds| <= s.nextIndex && Tracks(Pad(g, s.nextIndex), s) && !s.completed)
    && (g.phase.Ended? ==> s.completed)
    && !g.phase.Summed?
  }

  lemma {:induction false} EventFollowed(parse: Parser, g: Grammar, s: State, ev: Event)
    requires Follows(g, s)
    ensures var t := Translate(parse, s, ev);
            AcceptAll(g, t.out).Some? && Follows(AcceptAll(g, t.out).value, t.s)
  {
    hide MapEvent, Accept;
    var t := Translate(parse, s, ev);
    if g.phase.Streaming? {
      var h := Pad(g, s.nextIndex);
      KeepsEvent(parse, h, s, ev);
      assert PaddedFrom(h, g) by { hide AcceptAll; }
      PadAcceptAll(g, h, t.out);
      var g1, h1 := AcceptAll(g, t.out).value, AcceptAll(h, t.out).value;
      hide AcceptAll;
      if g1.phase.Streaming? { PadTwice(g1, |h1.kinds|, t.s.nextIndex); }
    }
  }

  lemma {:induction false} RunAccepted(parse: Parser, g: Grammar, s: State, evs: seq<Event>)
    requires Follows(g, s)
    ensures AcceptAll(g, Run(parse, s, evs).out).Some?
    ensures Follows(AcceptAll(g, Run(parse, s, evs).out).value, Run(parse, s, evs).s)
    decreases |evs|
  {
    hide MapEvent, Follows, Accept, Translate;
    if evs != [] {
      var first := Translate(parse, s, evs[0]);
      EventFollowed(parse, g, s, evs[0]);
      var g1 := AcceptAll(g, first.out).value;
      RunAccepted(parse, g1, first.s, evs[1..]);
      AcceptAppend(g, first.out, Run(parse, first.s, evs[1..]).out);
    }
  }

  /** Every stream of a fresh bridge is accepted from its first event to its last, for every list of
      backend events, bad-arguments errors included. */
  lemma {:induction false} StreamAccepted(parse: Parser, schema: Json, contextManagement: Json, evs: seq<Event>)
    ensures AcceptAll(FRESH, Stream(parse, schema, contextManagement, evs).out).Some?
    ensures var t := Stream(parse, schema, contextManagement, evs);
            var phase := AcceptAll(FRESH, t.out).value.phase;
            && (phase.Streaming? <==> !t.s.completed)
            && (phase.Ended? <==> t.s.completed)
            && !phase.Summed?
  {
    RunAccepted(parse, FRESH, NewState(schema, contextManagement), evs);
  }

  // ----- what acceptance means -----

  function Starts(out: seq<Sse>): seq<nat> {
    if out == [] then [] else (if out[0].Start? then [out[0].index] else []) + Starts(out[1..])
  }

  function StopCount(out: seq<Sse>, i: nat): nat {
    if out == [] then 0 else (if out[0] == Stop(i) then 1 else 0) + StopCount(out[1..], i)
  }

  predicate ErrorFree(out: seq<Sse>) {
    forall e | e in out :: !e.Error?
  }

  lemma {:induction false} NotErrorFree(out: seq<Sse>)
    requires out != [] && out[0].Error?
    ensures !ErrorFree(out)
  {
    assert out[0] in out;
  }

  /** The acceptor's books agree with the events. */
  lemma {:induction false} BooksBalance(g: Grammar, out: seq<Sse>)
    requires !g.torn && |g.kinds| == |g.stops| && ErrorFree(out) && AcceptAll(g, out).Some?
    ensures var g' := AcceptAll(g, out).value;
            && |g'.kinds| == |g'.stops| == |g.kinds| + |Starts(out)|
            && (forall j | 0 <= j < |Starts(out)| :: Starts(out)[j] == |g.kinds| + j)
            && (forall i | 0 <= i < |g'.kinds| ::
                 g'.stops[i] == (if i < |g.stops| then g.stops[i] else 0) + StopCount(out, i))
            && (forall i | 0 <= i < |g.kinds| :: g'.kinds[i] == g.kinds[i])
            && !g'.torn
    decreases |out|
  {
    if out != [] {
      BooksBalance(Accept(g, out[0]).value, out[1..]);
    }
  }

  lemma {:induction false} PrefixAccepted(g: Grammar, out: seq<Sse>, k: nat)
    requires AcceptAll(g, out).Some? && k < |out|
    ensures AcceptAll(g, out[..k]).Some? && Accept(AcceptAll(g, out[..k]).value, out[k]).Some?
    decreases k
  {
    if k > 0 {
      PrefixAccepted(Accept(g, out[0]).value, out[1..], k - 1);
      assert out[..k][1..] == out[1..][..k - 1];
    }
  }

  /** A stream that ends without an error ends in its summary, which comes after the last stop. */
  lemma {:induction false} EndedTail(g: Grammar, out: seq<Sse>)
    requires g.phase.Streaming? && ErrorFree(out) && AcceptAll(g, out).Some? && AcceptAll(g, out).value.phase.Ended?
    ensures |out| >= 2 && out[|out| - 2].MessageDelta? && out[|out| - 1].MessageStop?
    ensures forall j | 0 <= j < |out| - 2 :: !out[j].MessageDelta? && !out[j].MessageStop?
    ensures Finished(AcceptAll(g, out).value)
    decreases |out|
  {
    var g1 := Accept(g, out[0]).value;
    assert out[0] in out;
    if out[0].MessageDelta? {
      assert Accept(g1, out[1]).Some? && out[1].MessageStop?;
      var g2 := Accept(g1, out[1]).value;
      assert out[1].MessageStop? && out[1..][1..] == out[2..];
      assert AcceptAll(g, out) == AcceptAll(g1, out[1..]) == AcceptAll(g2, out[2..]);
    } else {
      EndedTail(g1, out[1..]);
      assert forall j | 1 <= j < |out| :: out[j] == out[1..][j - 1];
    }
  }

  predicate IsDelta(e: Sse) {
    e.TextDelta? || e.ThinkingDelta? || e.InputDelta?
  }

  /** A delta's block is started before it and not stopped before it; a start takes the next index. */
  predicate InOrder(out: seq<Sse>, k: nat)
    requires k < |out|
  {
    && (IsDelta(out[k]) ==> out[k].index < |Starts(out[..k])| && StopCount(out[..k], out[k].index) == 0)
    && (out[k].Start? ==> out[k].index == |Starts(out[..k])|)
  }

  /** And a started block gets the stops of its kind. */
  predicate WellPlaced(out: seq<Sse>, k: nat)
    requires k < |out|
  {
    InOrder(out, k) && (out[k].Start? ==> StopCount(out, out[k].index) == FinalStops(KindOf(out[k].block)))
  }

  lemma {:induction false} EventInOrder(out: seq<Sse>, k: nat)
    requires k < |out| && ErrorFree(out[..k]) && AcceptAll(FRESH, out).Some?
    ensures InOrder(out, k)
  {
    PrefixAccepted(FRESH, out, k);
    BooksBalance(FRESH, out[..k]);
  }

  /** On every run, completed or not: all the way to the first error, blocks start with the next
      index and deltas name blocks that are started and not yet stopped. */
  lemma {:induction false} StreamInOrder(parse: Parser, schema: Json, contextManagement: Json, evs: seq<Event>, k: nat)
    requires k < |Stream(parse, schema, contextManagement, evs).out|
    requires ErrorFree(Stream(parse, schema, contextManagement, evs).out[..k])
    ensures InOrder(Stream(parse, schema, contextManagement, evs).out, k)
  {
    StreamAccepted(parse, schema, contextManagement, evs);
    EventInOrder(Stream(parse, schema, contextManagement, evs).out, k);
  }

  lemma {:induction false} EventWellPlaced(out: seq<Sse>, k: nat)
    requires k < |out| && ErrorFree(out) && AcceptAll(FRESH, out).Some? && Finished(AcceptAll(FRESH, out).value)
    ensures WellPlaced(out, k)
  {
    EventInOrder(out, k);
    if out[k].Start? {
      PrefixAccepted(FRESH, out, k);
      BooksBalance(FRESH, out[..k]);
      var g := AcceptAll(FRESH, out[..k]).value;
      var end := AcceptAll(FRESH, out).value;
      var g1 := Accept(g, out[k]).value;
      AcceptAppend(FRESH, out[..k], out[k..]);
      assert out == out[..k] + out[k..] && out[k..][1..] == out[k + 1..];
      assert end == AcceptAll(g1, out[k + 1..]).value;
      BooksBalance(g1, out[k + 1..]);
      BooksBalance(FRESH, out);
      assert g1.kinds[out[k].index] == end.kinds[out[k].index];
    }
  }

  /** What a client sees of a request that completes without error: blocks are started in order
      0, 1, 2, ...; every delta names a block that is started and not yet stopped; every text,
      thinking and tool block is stopped exactly once and every web-search block exactly twice;
      then one message_delta, one message_stop, and nothing else. */
  lemma {:induction false} CleanStreamGrammar(parse: Parser, schema: Json, contextManagement: Json, evs: seq<Event>)
    requires Stream(parse, schema, contextManagement, evs).s.completed
    requires ErrorFree(Stream(parse, schema, contextManagement, evs).out)
    ensures var out := Stream(parse, schema, contextManagement, evs).out;
            && (forall j | 0 <= j < |Starts(out)| :: Starts(out)[j] == j)
            && (forall k | 0 <= k < |out| :: WellPlaced(out, k))
            && |out| >= 2 && out[|out| - 2].MessageDelta? && out[|out| - 1].MessageStop?
            && forall k | 0 <= k < |out| - 2 :: !out[k].MessageDelta? && !out[k].MessageStop?
  {
    var out := Stream(parse, schema, contextManagement, evs).out;
    StreamAccepted(parse, schema, contextManagement, evs);
    BooksBalance(FRESH, out);
    EndedTail(FRESH, out);
    forall k | 0 <= k < |out| ensures WellPlaced(out, k) {
      EventWellPlaced(out, k);
    }
  }

  // ----- what holds whatever errors are sent -----

  /** The acceptor's books for any stream, torn or not. */
  ghost predicate Books(g: Grammar, out: seq<Sse>, g': Grammar) {
    && |g'.kinds| == |g'.stops| >= |g.kinds|
    && (forall i | 0 <= i < |g'.kinds| :: g'.stops[i] == (if i < |g.stops| then g.stops[i] else 0) + StopCount(out, i))
    && (forall i | i >= |g'.kinds| :: StopCount(out, i) == 0)
    && (forall i | 0 <= i < |g.kinds| :: g'.kinds[i] == g.kinds[i])
    && (forall e | e in out && e.Start? :: |g.kinds| <= e.index < |g'.kinds| && g'.kinds[e.index] == KindOf(e.block))
    && (forall i | |g.kinds| <= i < |g'.kinds| && !g'.kinds[i].Gap? :: ShownAs(out, i, g'.kinds[i]))
  }

  predicate ShownAs(out: seq<Sse>, i: nat, k: BlockKind) {
    exists e :: e in out && e.Start? && e.index == i && KindOf(e.block) == k
  }

  lemma {:induction false} OneBook(g: Grammar, e: Sse)
    requires |g.kinds| == |g.stops| && Accept(g, e).Some?
    ensures Books(g, [e], Accept(g, e).value)
  {
    assert e in [e];
    assert StopCount([e][1..], 0) == 0;
    assert forall i: nat :: StopCount([e], i) == if e == Stop(i) then 1 else 0;
    if e.Start? && g.phase.Streaming? {
      assert ShownAs([e], e.index, KindOf(e.block));
    }
  }

  lemma {:induction false} BooksJoin(g: Grammar, a: Sse, g1: Grammar, rest: seq<Sse>, g2: Grammar)
    requires |g.kinds| == |g.stops| && Books(g, [a], g1) && Books(g1, rest, g2)
    ensures Books(g, [a] + rest, g2)
  {
    var out := [a] + rest;
    assert out[1..] == rest && [a][1..] == [];
    assert forall i: nat :: StopCount(out, i) == StopCount([a], i) + StopCount(rest, i);
    forall i | |g.kinds| <= i < |g2.kinds| && !g2.kinds[i].Gap? ensures ShownAs(out, i, g2.kinds[i]) {
      if i < |g1.kinds| {
        assert ShownAs([a], i, g1.kinds[i]);
      } else {
        assert ShownAs(rest, i, g2.kinds[i]);
      }
    }
  }

  lemma {:induction false} BooksKept(g: Grammar, out: seq<Sse>)
    requires |g.kinds| == |g.stops| && AcceptAll(g, out).Some?
    ensures Books(g, out, AcceptAll(g, out).value)
    decreases |out|
  {
    hide Accept, Books;
    if out == [] {
      NoBooks(g);
    } else {
      var g1 := Accept(g, out[0]).value;
      OneBook(g, out[0]);
      assert |g1.kinds| == |g1.stops| by { BooksSized(g, [out[0]], g1); }
      BooksKept(g1, out[1..]);
      BooksJoin(g, out[0], g1, out[1..], AcceptAll(g1, out[1..]).value);
      assert [out[0]] + out[1..] == out;
    }
  }

  lemma {:induction false} NoBooks(g: Grammar)
    requires |g.kinds| == |g.stops|
    ensures Books(g, [], g)
  {
  }

  lemma {:induction false} BooksSized(g: Grammar, out: seq<Sse>, g': Grammar)
    requires Books(g, out, g')
    ensures |g'.kinds| == |g'.stops|
  {
  }

  predicate DeltaOf(e: Sse, k: BlockKind) {
    (e.TextDelta? && k.TextKind?) || (e.ThinkingDelta? && k.ThinkingKind?) || (e.InputDelta? && k.ToolKind?)
  }

  /** What no error disturbs: starts go up, a delta's block was shown, is of the delta's kind and has not
      been stopped, nothing is stopped more often than its kind allows. */
  ghost predicate Survives(out: seq<Sse>, k: nat)
    requires k < |out|
  {
    && (out[k].Start? ==> forall j | 0 <= j < k && out[j].Start? :: out[j].index < out[k].index)
    && (IsDelta(out[k]) ==>
         && (exists kind :: DeltaOf(out[k], kind) && ShownAs(out[..k], out[k].index, kind))
         && StopCount(out[..k], out[k].index) == 0)
    && (out[k].Stop? ==>
         && StopCount(out[..k], out[k].index) <= 1
         && (StopCount(out[..k], out[k].index) == 1 ==> ShownAs(out[..k], out[k].index, SearchKind)))
    && (out[k].MessageDelta? ==> |out| == k + 2 && out[k + 1].MessageStop?)
    && (out[k].MessageStop? ==> |out| == k + 1)
  }

  lemma {:induction false} AcceptedSurvives(out: seq<Sse>, k: nat)
    requires k < |out| && AcceptAll(FRESH, out).Some? && !AcceptAll(FRESH, out).value.phase.Summed?
    ensures Survives(out, k)
  {
    PrefixAccepted(FRESH, out, k);
    var g := AcceptAll(FRESH, out[..k]).value;
    BooksKept(FRESH, out[..k]);
    EndingSurvives(out, k);
    hide AcceptAll;
    if out[k].Start? {
      forall j | 0 <= j < k && out[j].Start? ensures out[j].index < out[k].index {
        assert out[..k][j] in out[..k];
      }
    }
  }

  lemma {:induction false} NothingAfterEnd(g: Grammar, out: seq<Sse>)
    requires g.phase.Ended?
    ensures AcceptAll(g, out).Some? ==> out == []
  {
  }

  /** After the summary comes its stop, and after that nothing. */
  lemma {:induction false} EndingSurvives(out: seq<Sse>, k: nat)
    requires k < |out| && AcceptAll(FRESH, out).Some? && !AcceptAll(FRESH, out).value.phase.Summed?
    ensures out[k].MessageDelta? ==> |out| == k + 2 && out[k + 1].MessageStop?
    ensures out[k].MessageStop? ==> |out| == k + 1
    ensures out[k] == Error(BackendFailed) ==> |out| == k + 1
  {
    PrefixAccepted(FRESH, out, k);
    var g := AcceptAll(FRESH, out[..k]).value;
    var rest := out[k..];
    AcceptAppend(FRESH, out[..k], rest);
    assert out[..k] + rest == out && rest[0] == out[k] && rest[1..] == out[k + 1..];
    var g1 := Accept(g, out[k]).value;
    assert AcceptAll(g, rest) == AcceptAll(g1, out[k + 1..]);
    if |out| > k + 1 {
      assert out[k + 1..][0] == out[k + 1] && out[k + 1..][1..] == out[k + 2..];
      if out[k].MessageDelta? { NothingAfterEnd(g1.(phase := Ended), out[k + 2..]); }
    } else {
      assert out[k + 1..] == [];
    }
  }

  /** The grammar that survives bad-arguments errors: it holds at every event of every stream. */
  lemma {:induction false} EveryStreamSurvives(parse: Parser, schema: Json, contextManagement: Json, evs: seq<Event>,
                                               k: nat)
    requires k < |Stream(parse, schema, contextManagement, evs).out|
    ensures Survives(Stream(parse, schema, contextManagement, evs).out, k)
  {
    StreamAccepted(parse, schema, contextManagement, evs);
    hide Stream, AcceptAll, Survives;
    AcceptedSurvives(Stream(parse, schema, contextManagement, evs).out, k);
  }

  /** A backend failure is the last thing sent, whatever was sent before it. */
  lemma {:induction false} NothingAfterBackendFailure(parse: Parser, schema: Json, contextManagement: Json,
                                                      evs: seq<Event>, k: nat)
    requires var out := Stream(parse, schema, contextManagement, evs).out; k < |out| && out[k] == Error(BackendFailed)
    ensures k == |Stream(parse, schema, contextManagement, evs).out| - 1
  {
    StreamAccepted(parse, schema, contextManagement, evs);
    hide Stream, AcceptAll;
    EndingSurvives(Stream(parse, schema, contextManagement, evs).out, k);
  }
}

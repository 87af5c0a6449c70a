/** The bridge as the program runs it: an object whose fields each backend event updates in place.
    Every method is proved to take the step that the functions of module Bridge describe. */
module BridgeMachine {
  import opened Json
  import opened ToolCalls
  import opened ResponseGate
  import opened Bridge
  import opened BridgeOrder

  class BridgeState {
    const parse: Parser
    const schema: Json
    const contextManagement: Json

    var nextIndex: nat
    var blocks: seq<Block>
    var activeText: Option<nat>
    var sawText: bool
    var structured: Text
    var final: Text
    var activeThinking: Option<nat>
    var toolBlocks: map<Text, nat>
    var toolNames: map<Text, Text>
    var toolKinds: map<Text, Kind>
    var toolArgs: map<Text, Text>
    var lastTool: Option<Text>
    var usage: Option<Usage>
    var completedSearches: set<Text>
    var emittedSearches: set<Text>
    var completed: bool

    ghost function View(): State
      reads this
    {
      State(nextIndex, blocks, activeText, sawText, schema, structured, final, activeThinking, toolBlocks, toolNames,
            toolKinds, toolArgs, lastTool, usage, contextManagement, completedSearches, emittedSearches, completed)
    }

    /** No two calls share a block. */
    ghost predicate Valid()
      reads this
    {
      Indices(toolBlocks, nextIndex)
    }

    constructor (parse: Parser, schema: Json, contextManagement: Json)
      ensures Valid() && this.parse == parse && this.schema == schema && View() == NewState(schema, contextManagement)
    {
      this.parse, this.schema, this.contextManagement := parse, schema, contextManagement;
      nextIndex, blocks := 0, [];
      activeText, sawText, structured, final, activeThinking := None, false, [], [], None;
      toolBlocks, toolNames, toolKinds, toolArgs, lastTool := map[], map[], map[], map[], None;
      usage, completedSearches, emittedSearches, completed := None, {}, {}, false;
    }

    // ----- blocks -----

    method AddBlock() returns (index: nat)
      requires Valid()
      modifies this
      ensures Valid() && index == old(nextIndex) && View() == Bridge.AddBlock(old(View()))
    {
      index := nextIndex;
      nextIndex := nextIndex + 1;
      blocks := blocks + [Block(index, false)];
    }

    method OpenThinkingBlockIfNeeded() returns (index: nat, started: bool)
      requires Valid()
      modifies this
      ensures Valid() && View() == OpenThinking(old(View())) && activeThinking == Some(index)
      ensures started <==> old(activeThinking).None?
    {
      if activeThinking.Some? {
        return activeThinking.value, false;
      }
      index := AddBlock();
      activeThinking := Some(index);
      started := true;
    }

    method OpenTextBlockIfNeeded() returns (index: nat, started: bool)
      requires Valid()
      modifies this
      ensures Valid() && View() == OpenText(old(View())) && activeText == Some(index)
      ensures started <==> old(activeText).None?
    {
      if activeText.Some? {
        return activeText.value, false;
      }
      index := AddBlock();
      activeText := Some(index);
      started := true;
    }

    method EnsureToolBlock(callId: Text) returns (index: nat, isNew: bool)
      requires Valid()
      modifies this
      ensures Valid() && View() == EnsureTool(old(View()), callId)
      ensures callId in toolBlocks && index == toolBlocks[callId]
      ensures (isNew <==> callId !in old(toolBlocks)) && (isNew ==> index == old(nextIndex))
    {
      if callId in toolBlocks {
        return toolBlocks[callId], false;
      }
      index := AddBlock();
      toolBlocks := toolBlocks[callId := index];
      if callId !in toolArgs {
        toolArgs := toolArgs[callId := []];
      }
      isNew := true;
    }

    // ----- text -----

    method HandleOutputTextDelta(data: Text) returns (out: seq<Sse>)
      requires Valid()
      modifies this
      ensures Valid() && Step(View(), out) == HandleTextDelta(parse, old(View()), data)
    {
      hide Blank, DeltaText;
      var text := DeltaText(parse, data);
      if text.None? || Blank(text.value) {
        return [];
      }
      if schema != Null {
        structured := structured + text.value;
        final := final + text.value;
        sawText := true;
        return [];
      }
      var index, started := OpenTextBlockIfNeeded();
      sawText := true;
      final := final + text.value;
      out := if started then [Start(index, TextStart)] else [];
      out := out + [TextDelta(index, text.value)];
      assert Concat([text.value]) == text.value;
      assert TextDeltas(index, [text.value]) == [TextDelta(index, text.value)];
    }

    method HandleMessageItem(item: Fields) returns (out: seq<Sse>)
      requires Valid()
      modifies this
      ensures Valid() && Step(View(), out) == Bridge.HandleMessageItem(old(View()), item)
    {
      hide Blank;
      if sawText {
        return [];
      }
      var texts := [];
      if "content" in item && item["content"].Arr? {
        texts := CollectOutputTexts(item["content"].items);
      }
      if texts == [] {
        return [];
      }
      if schema != Null {
        AppendStructured(texts);
        return [];
      }
      out := EmitMessageTexts(texts);
    }

    method AppendStructured(texts: seq<Text>)
      requires Valid()
      modifies this
      ensures Valid()
      ensures View() == old(View()).(structured := old(structured) + Concat(texts), final := old(final) + Concat(texts),
        sawText := true)
    {
      hide Indices, Concat;
      ghost var s := View();
      ConcatNone(texts);
      for i := 0 to |texts|
        modifies this
        invariant Valid()
        invariant structured == s.structured + Concat(texts[..i]) && final == s.final + Concat(texts[..i])
        invariant View() == s.(structured := structured, final := final)
      {
        ConcatSnoc(texts, i);
        structured := structured + texts[i];
        final := final + texts[i];
      }
      assert texts[..|texts|] == texts;
      sawText := true;
    }

    method EmitMessageTexts(texts: seq<Text>) returns (out: seq<Sse>)
      requires Valid()
      modifies this
      ensures Valid() && Step(View(), out) == EmitTexts(old(View()), texts)
    {
      hide Indices, Concat;
      var index, started := OpenTextBlockIfNeeded();
      out := if started then [Start(index, TextStart)] else [];
      var deltas := WriteDeltas(index, texts);
      out := out + deltas;
    }

    method WriteDeltas(index: nat, texts: seq<Text>) returns (deltas: seq<Sse>)
      requires Valid()
      modifies this
      ensures Valid() && deltas == TextDeltas(index, texts)
      ensures View() == old(View()).(final := old(final) + Concat(texts))
    {
      hide Indices, Concat;
      ghost var s, all := View(), TextDeltas(index, texts);
      deltas := [];
      ConcatNone(texts);
      for i := 0 to |texts|
        modifies this
        invariant Valid() && deltas == all[..i]
        invariant final == s.final + Concat(texts[..i]) && View() == s.(final := final)
      {
        ConcatSnoc(texts, i);
        final := final + texts[i];
        deltas := deltas + [TextDelta(index, texts[i])];
      }
      assert texts[..|texts|] == texts;
    }

    // ----- thinking and tool calls -----

    method HandleReasoningDelta(data: Text) returns (out: seq<Sse>)
      requires Valid()
      modifies this
      ensures Valid() && Step(View(), out) == HandleReasoning(parse, old(View()), data)
    {
      hide ParseDelta;
      var fields := ParseDelta(parse, data);
      if fields.NoDelta? {
        return [];
      }
      var index, started := OpenThinkingBlockIfNeeded();
      out := if started then [Start(index, ThinkingStart)] else [];
      out := out + [ThinkingDelta(index, fields.delta)];
    }

    method HandleToolCallItem(tc: ToolCall, finalItem: bool) returns (out: seq<Sse>)
      requires Valid()
      modifies this
      ensures Valid() && Step(View(), out) == HandleToolCall(old(View()), tc, finalItem)
    {
      var index, isNew := EnsureToolBlock(tc.callId);
      lastTool := Some(tc.callId);
      toolNames := toolNames[tc.callId := tc.name];
      toolKinds := toolKinds[tc.callId := tc.kind];
      if finalItem {
        toolArgs := toolArgs[tc.callId := tc.arguments];
      }
      out := if isNew then [Start(index, ToolUseStart(tc.callId, tc.name))] else [];
    }

    method HandleToolArgDelta(data: Text) returns (out: seq<Sse>)
      requires Valid()
      modifies this
      ensures Valid() && Step(View(), out) == HandleArgDelta(parse, old(View()), data)
    {
      hide ParseDelta;
      var fields := ParseDelta(parse, data);
      if fields.NoDelta? {
        return [];
      }
      var callId: Text;
      if fields.callId.Some? {
        callId := fields.callId.value;
      } else if lastTool.Some? {
        callId := lastTool.value;
      } else {
        return [];
      }
      var index, isNew := EnsureToolBlock(callId);
      toolArgs := toolArgs[callId := (if callId in toolArgs then toolArgs[callId] else []) + fields.delta];
      out := if isNew then [Start(index, ToolUseStart(callId, []))] else [];
    }

    // ----- web searches -----

    method EmitWebSearchCallBlocks(call: SearchCall) returns (out: seq<Sse>)
      requires Valid()
      modifies this
      ensures Valid() && Step(View(), out) == EmitSearch(old(View()), call)
    {
      if call.callId in emittedSearches {
        return [];
      }
      emittedSearches := emittedSearches + {call.callId};
      var toolIndex := AddBlock();
      var resultIndex := AddBlock();
      out := [Start(toolIndex, ServerToolUseStart(call.toolUseId, call.query)), Stop(toolIndex),
              Start(resultIndex, SearchResultStart(call.toolUseId, call.results)), Stop(resultIndex)];
    }

    method HandleWebSearchCallEvent(ev: Event) returns (out: seq<Sse>)
      requires Valid()
      modifies this
      ensures Valid() && Step(View(), out) == HandleSearchEvent(parse, old(View()), ev)
    {
      hide EmitSearch, MakeSearch, EventSearchId, DecodeObject;
      var v := DecodeObject(parse, ev.data);
      if v.None? {
        return [];
      }
      var id := EventSearchId(v.value, ev.name);
      if id.None? {
        return [];
      }
      out := EmitWebSearchCallBlocks(MakeSearch(id.value, v.value));
    }

    method HandleOutputItem(ev: Event) returns (out: seq<Sse>)
      requires Valid()
      modifies this
      ensures Valid() && Step(View(), out) == HandleItem(parse, old(View()), ev)
    {
      hide EmitSearch, MakeSearch, ItemSearchId, DecodeObject;
      hide Bridge.HandleMessageItem, HandleToolCall, ItemToolCall, HasString;
      var tc := ItemToolCall(parse, ev.data);
      if tc.Some? {
        out := HandleToolCallItem(tc.value, ev.name == "response.output_item.done");
        return;
      }
      var v := DecodeObject(parse, ev.data);
      if v.None? || ObjectAt(v.value, "item").None? {
        return [];
      }
      var item := ObjectAt(v.value, "item").value;
      if HasString(item, "type", "web_search_call") {
        var id := ItemSearchId(item, "output_item");
        if id.None? {
          return [];
        }
        out := EmitWebSearchCallBlocks(MakeSearch(id.value, item));
      } else if HasString(item, "type", "message") {
        out := HandleMessageItem(item);
      } else {
        out := [];
      }
    }

    // ----- completion -----

    method FlushStructuredText() returns (out: seq<Sse>)
      requires Valid()
      modifies this
      ensures Valid() && Step(View(), out) == FlushStructured(parse, old(View()))
    {
      hide Cleanup, Blank;
      out := [];
      if schema != Null && !Blank(structured) {
        var text := Cleanup(parse, schema, structured);
        if !Blank(text) {
          var index, started := OpenTextBlockIfNeeded();
          sawText := true;
          out := if started then [Start(index, TextStart)] else [];
          out := out + [TextDelta(index, text)];
        }
      }
    }

    /** Stops every block that is not marked closed, and marks it. */
    method CloseBlocks() returns (out: seq<Sse>)
      requires Valid()
      modifies this
      ensures Valid() && out == StopsOf(old(blocks)) && View() == old(View()).(blocks := CloseAll(old(blocks)))
    {
      hide Indices, StopsOf, CloseAll, ClosedUpto;
      out := [];
      ghost var was, s := blocks, View();
      assert was[0..] == was;
      NoneClosed(was);
      for i := 0 to |blocks|
        modifies this
        invariant |blocks| == |was|
        invariant ClosedUpto(was, blocks, i) && Valid()
        invariant View() == s.(blocks := blocks)
        invariant out + StopsOf(was[i..]) == StopsOf(was)
      {
        StopsStep(was, i);
        ClosesNext(was, blocks, i);
        if !blocks[i].closed {
          out := out + [Stop(blocks[i].index)];
          blocks := blocks[i := blocks[i].(closed := true)];
        }
      }
      assert was[|was|..] == [];
      NoStops();
      AllClosed(was, blocks);
    }

    method FinalizeMessage() returns (out: seq<Sse>)
      requires Valid()
      modifies this
      ensures Valid() && Step(View(), out) == Finalize(parse, old(View()))
    {
      hide FlushStructured, StopsOf, CloseAll;
      completed := true;
      out := FlushStructuredText();
      ghost var s1 := View();
      var stops := CloseBlocks();
      var reason := if |toolBlocks| > 0 then StopReason.ToolUse else EndTurn;
      out := out + stops + [MessageDelta(reason, usage, contextManagement), MessageStop];
    }

    method EmitCompletedSearches(data: Text) returns (out: seq<Sse>)
      requires Valid()
      modifies this
      ensures Valid() && Step(View(), out) == EmitSearches(old(View()), OutputSearches(CompletedOutput(parse, data), 0))
    {
      hide EmitSearch, OutputSearches, CompletedOutput, Indices;
      var calls := CollectOutputSearches(CompletedOutput(parse, data));
      ghost var s := View();
      out := [];
      assert calls[..0] == [];
      for i := 0 to |calls|
        modifies this
        invariant Valid()
        invariant Step(View(), out) == EmitSearches(s, calls[..i])
      {
        EmitSearchesSnoc(s, calls, i);
        var more := EmitWebSearchCallBlocks(calls[i]);
        out := out + more;
      }
      assert calls[..|calls|] == calls;
    }

    /** None where the source gives up with an error. */
    method CollectInputs(calls: seq<Text>) returns (out: Option<seq<Sse>>)
      requires forall c | c in calls :: c in toolBlocks
      ensures out == InputDeltas(parse, View(), calls)
    {
      hide CallInput;
      var deltas := [];
      for i := 0 to |calls|
        invariant |deltas| == i
        invariant forall j | 0 <= j < i ::
          && CallInput(parse, View(), calls[j]).Some?
          && deltas[j] == InputDelta(toolBlocks[calls[j]], CallInput(parse, View(), calls[j]).value)
      {
        var input := InputOf(calls[i]);
        if input.None? {
          return None;
        }
        assert calls[i] in calls;
        deltas := deltas + [InputDelta(toolBlocks[calls[i]], input.value)];
      }
      out := Some(deltas);
      assert forall c :: c in calls ==> exists i :: 0 <= i < |calls| && calls[i] == c;
      assert deltas == InputDeltas(parse, View(), calls).value;
    }

    method InputOf(callId: Text) returns (input: Option<Fields>)
      ensures input == CallInput(parse, View(), callId)
    {
      var kind := if callId in toolKinds then Some(toolKinds[callId]) else None;
      var args := ParseArgsForKind(parse, kind, if callId in toolArgs then toolArgs[callId] else []);
      if args.None? {
        return None;
      }
      var held := new ToolArgs(args.value);
      var _ := held.ApplyPolicies(if callId in toolNames then toolNames[callId] else []);
      return Some(held.args);
    }

    method HandleCompleted(data: Text) returns (out: seq<Sse>)
      requires Valid()
      modifies this
      ensures Valid() && Step(View(), out) == Bridge.HandleCompleted(parse, old(View()), data)
    {
      hide EmitSearches, InputDeltas, Finalize, OutputSearches, CompletedOutput, UsageOf, CallOrder, Indices;
      usage := UsageOf(parse, data);
      if usage.Some? {
        usage := Some(usage.value.(searches := |completedSearches|));
      }
      out := EmitCompletedSearches(data);
      ghost var searched := View();
      var calls := SortByIndex(toolBlocks, nextIndex);
      var inputs := CollectInputs(calls);
      if inputs.None? {
        return [Error(BadArguments)];
      }
      var end := FinalizeMessage();
      out := out + inputs.value + end;
    }

    // ----- dispatch -----

    method MapBackendEvent(ev: Event) returns (out: seq<Sse>)
      requires Valid()
      modifies this
      ensures Valid() && Step(View(), out) == MapEvent(parse, old(View()), ev)
    {
      hide HandleTextDelta, HandleItem, HandleSearchEvent, HandleArgDelta;
      hide HandleReasoning, Bridge.HandleCompleted, SearchesShown, IsFailure, Indices;
      if IsFailure(parse, ev) {
        completed := true;
        return [Error(BackendFailed)];
      }
      completedSearches := completedSearches + SearchesShown(parse, ev);
      if ev.name == "response.output_text.delta" {
        out := HandleOutputTextDelta(ev.data);
      } else if ev.name == "response.output_item.added" || ev.name == "response.output_item.done" {
        out := HandleOutputItem(ev);
      } else if ev.name == "response.web_search_call.completed" {
        out := HandleWebSearchCallEvent(ev);
      } else if ev.name == "response.function_call_arguments.delta"
        || ev.name == "response.custom_tool_call_input.delta" {
        out := HandleToolArgDelta(ev.data);
      } else if ev.name == "response.reasoning_text.delta" || ev.name == "response.reasoning_summary_text.delta" {
        out := HandleReasoningDelta(ev.data);
      } else if ev.name == "response.completed" {
        out := HandleCompleted(ev.data);
      } else {
        out := [];
      }
    }
  }

  // ----- loops that only collect -----

  method CollectOutputTexts(content: seq<Json>) returns (texts: seq<Text>)
    ensures texts == OutputTexts(content)
  {
    texts := [];
    for i := 0 to |content|
      invariant texts + OutputTexts(content[i..]) == OutputTexts(content)
    {
      assert content[i..][1..] == content[i + 1..];
      var c := content[i];
      if c.Obj? && HasString(c.fields, "type", "output_text") {
        var text := StringAt(c.fields, "text");
        if text.Some? && !Blank(text.value) {
          texts := texts + [text.value];
        }
      }
    }
    assert content[|content|..] == [];
  }

  method CollectOutputSearches(items: seq<Json>) returns (calls: seq<SearchCall>)
    ensures calls == OutputSearches(items, 0)
  {
    hide ItemSearchId, MakeSearch, Decimal;
    calls := [];
    for i := 0 to |items|
      invariant calls + OutputSearches(items, i) == OutputSearches(items, 0)
    {
      if items[i].Obj? {
        var id := ItemSearchId(items[i].fields, "response_output_" + Decimal(i));
        if id.Some? {
          calls := calls + [MakeSearch(id.value, items[i].fields)];
        }
      }
    }
  }

  lemma {:induction false} NoStops()
    ensures StopsOf([]) == []
  {
  }

  /** The first `i` blocks are closed, the others as they were. */
  ghost predicate ClosedUpto(was: seq<Block>, now: seq<Block>, i: nat) {
    |now| == |was| && forall j | 0 <= j < |was| :: now[j] == if j < i then was[j].(closed := true) else was[j]
  }

  lemma {:induction false} NoneClosed(was: seq<Block>)
    ensures ClosedUpto(was, was, 0)
  {
  }

  lemma {:induction false} ClosesNext(was: seq<Block>, now: seq<Block>, i: nat)
    requires ClosedUpto(was, now, i) && i < |was|
    ensures |now| == |was| && now[i] == was[i]
    ensures ClosedUpto(was, now[i := now[i].(closed := true)], i + 1)
    ensures now[i].closed ==> ClosedUpto(was, now, i + 1)
  {
  }

  lemma {:induction false} AllClosed(was: seq<Block>, blocks: seq<Block>)
    requires ClosedUpto(was, blocks, |was|)
    ensures blocks == CloseAll(was)
  {
  }

  lemma {:induction false} StopsStep(blocks: seq<Block>, i: nat)
    requires i < |blocks|
    ensures StopsOf(blocks[i..]) == (if blocks[i].closed then [] else [Stop(blocks[i].index)])
      + StopsOf(blocks[i + 1..])
  {
    assert blocks[i..][1..] == blocks[i + 1..];
  }

  lemma {:induction false} ConcatNone(texts: seq<Text>)
    ensures Concat(texts[..0]) == []
  {
  }

  lemma {:induction false} ConcatSnoc(texts: seq<Text>, i: nat)
    requires i < |texts|
    ensures Concat(texts[..i + 1]) == Concat(texts[..i]) + texts[i]
  {
    assert texts[..i + 1] == texts[..i] + [texts[i]];
    ConcatAppend(texts[..i], [texts[i]]);
    assert Concat([texts[i]]) == texts[i] + Concat([]);
  }

  lemma {:induction false} EmitSearchesSnoc(s: State, calls: seq<SearchCall>, i: nat)
    requires i < |calls|
    ensures var before := EmitSearches(s, calls[..i]);
            var last := EmitSearch(before.s, calls[i]);
            EmitSearches(s, calls[..i + 1]) == Step(last.s, before.out + last.out)
    decreases i
  {
    hide EmitSearch;
    if i > 0 {
      EmitSearchesSnoc(EmitSearch(s, calls[0]).s, calls[1..], i - 1);
      assert calls[..i + 1][1..] == calls[1..][..i] && calls[..i][1..] == calls[1..][..i - 1];
    } else {
      assert calls[..1][1..] == [] && calls[..0] == [];
    }
  }

  // ----- one translator per request -----

  class Translator {
    const parse: Parser
    const schema: Json
    const contextManagement: Json
    var stream: BridgeState?

    ghost predicate Valid()
      reads this, stream
    {
      stream != null ==> stream.Valid() && stream.parse == parse
    }

    /** The streaming state; before the first event it is a fresh one. */
    ghost function View(): State
      reads this, stream
    {
      if stream == null then NewState(schema, contextManagement) else stream.View()
    }

    constructor (parse: Parser, schema: Json, contextManagement: Json)
      ensures Valid() && View() == NewState(schema, contextManagement)
      ensures this.parse == parse && this.schema == schema && stream == null
    {
      this.parse, this.schema, this.contextManagement, stream := parse, schema, contextManagement, null;
    }

    method TranslateResponseEvent(ev: Event) returns (out: seq<Sse>)
      requires Valid()
      modifies this, stream
      ensures Valid() && (fresh(stream) || stream == old(stream))
      ensures Step(View(), out) == Translate(parse, old(View()), ev)
    {
      hide MapEvent, NewState;
      if stream == null {
        stream := new BridgeState(parse, schema, contextManagement);
      }
      if stream.completed {
        return [];
      }
      out := stream.MapBackendEvent(ev);
    }

    /** Replays the events through a state of its own. */
    method BuildUnaryResponse(evs: seq<Event>) returns (unary: Unary)
      ensures unary == BuildUnary(parse, schema, evs)
    {
      hide MapEvent, NewState, CallOrder, Cleanup, CallInput, Indices;
      var st := new BridgeState(parse, schema, Null);
      ghost var s0 := st.View();
      var i := 0;
      while i < |evs| && !st.completed
        invariant 0 <= i <= |evs| && st.parse == parse && st.schema == schema && fresh(st) && st.Valid()
        invariant Run(parse, s0, evs).s == Run(parse, st.View(), evs[i..]).s
      {
        assert evs[i..][1..] == evs[i + 1..];
        var _ := st.MapBackendEvent(evs[i]);
        i := i + 1;
      }
      if st.completed { CompletedRun(parse, st.View(), evs[i..]); }
      unary := Assemble(st);
    }

    method Assemble(st: BridgeState) returns (unary: Unary)
      requires st.Valid() && st.parse == parse && st.schema == schema
      ensures unary == UnaryOf(parse, st.View())
    {
      hide CallOrder, Cleanup, CallInput, Indices, Blank, ToolUses;
      var text := Cleanup(parse, schema, st.final);
      var input, output, searches := 0, 0, 0;
      if st.usage.Some? {
        input, output, searches := st.usage.value.input, st.usage.value.output, st.usage.value.searches;
      }
      if |st.toolBlocks| == 0 {
        return Unary([TextBlock(text)], EndTurn, input, output, searches);
      }
      var calls := SortByIndex(st.toolBlocks, st.nextIndex);
      var content := if Blank(text) then [] else [TextBlock(text)];
      var uses := CollectToolUses(st, calls);
      unary := Unary(content + uses, StopReason.ToolUse, input, output, searches);
    }

    method CollectToolUses(st: BridgeState, calls: seq<Text>) returns (uses: seq<ContentBlock>)
      requires st.parse == parse
      ensures uses == ToolUses(parse, st.View(), calls)
    {
      hide CallInput;
      uses := [];
      ghost var all := ToolUses(parse, st.View(), calls);
      for i := 0 to |calls|
        invariant uses == all[..i]
      {
        var held := st.InputOf(calls[i]);
        var arguments := if held.Some? then held.value else map[];
        var name := if calls[i] in st.toolNames then st.toolNames[calls[i]] else [];
        uses := uses + [ToolUseBlock(calls[i], name, arguments)];
        assert all[..i + 1] == all[..i] + [all[i]];
      }
      assert all[..|calls|] == all;
    }
  }
}

/** Sorting calls by their block index. */
module BridgeOrder {
  import opened Json
  import opened Bridge

  /** Block indices are handed out once, below `next`. */
  ghost predicate Indices(m: map<Text, nat>, next: nat) {
    && (forall c | c in m :: m[c] < next)
    && (forall c, d | c in m && d in m && m[c] == m[d] :: c == d)
  }

  ghost predicate Ascending(m: map<Text, nat>, calls: seq<Text>) {
    && (forall c | c in calls :: c in m)
    && forall i, j | 0 <= i < j < |calls| :: m[calls[i]] < m[calls[j]]
  }

  ghost predicate Listing(m: map<Text, nat>, calls: seq<Text>) {
    Ascending(m, calls) && forall c | c in m :: c in calls
  }

  /** There is only one ascending listing. */
  lemma {:induction false} ListingIsCallOrder(m: map<Text, nat>, calls: seq<Text>)
    requires Listing(m, calls)
    ensures calls == CallOrder(m)
    decreases |calls|
  {
    CallOrderStep(m);
    hide CallOrder, LastCall;
    if calls == [] {
      NothingListed(m);
    } else {
      hide Listing;
      var n := |calls| - 1;
      LastListed(m, calls);
      RestListed(m, calls);
      ListingIsCallOrder(m - {calls[n]}, calls[..n]);
    }
  }

  lemma {:induction false} CallOrderStep(m: map<Text, nat>)
    ensures m == map[] ==> CallOrder(m) == []
    ensures m != map[] ==> CallOrder(m) == CallOrder(m - {LastCall(m)}) + [LastCall(m)]
  {
  }

  lemma {:induction false} NothingListed(m: map<Text, nat>)
    requires Listing(m, [])
    ensures m == map[]
  {
  }

  lemma {:induction false} LastListed(m: map<Text, nat>, calls: seq<Text>)
    requires calls != [] && Listing(m, calls)
    ensures m != map[] && calls[|calls| - 1] == LastCall(m)
  {
    hide CallOrder;
    var last := calls[|calls| - 1];
    assert last in calls && last in m;
    var i :| 0 <= i < |calls| && calls[i] == LastCall(m);
  }

  lemma {:induction false} RestListed(m: map<Text, nat>, calls: seq<Text>)
    requires calls != [] && Listing(m, calls)
    ensures Listing(m - {calls[|calls| - 1]}, calls[..|calls| - 1])
  {
    var n := |calls| - 1;
    var rest := m - {calls[n]};
    assert calls[n] in calls;
    forall d | d in rest ensures d in calls[..n] {
      var k :| 0 <= k < |calls| && calls[k] == d;
      assert calls[..n][k] == d;
    }
    forall d | d in calls[..n] ensures d in rest {
      var k :| 0 <= k < n && calls[k] == d;
      assert calls[k] in calls && m[calls[k]] < m[calls[n]];
    }
  }

  method SortByIndex(m: map<Text, nat>, ghost next: nat) returns (calls: seq<Text>)
    requires Indices(m, next)
    ensures calls == CallOrder(m)
  {
    hide CallOrder;
    calls := [];
    var rest := m.Keys;
    while rest != {}
      invariant rest <= m.Keys && Ascending(m, calls)
      invariant forall c :: c in calls <==> c in m.Keys - rest
    {
      var c :| c in rest;
      calls := Insert(m, calls, c, next);
      rest := rest - {c};
    }
    ListingIsCallOrder(m, calls);
  }

  method Insert(m: map<Text, nat>, calls: seq<Text>, c: Text, ghost next: nat) returns (r: seq<Text>)
    requires Indices(m, next) && Ascending(m, calls) && c in m && c !in calls
    ensures Ascending(m, r) && forall d :: d in r <==> d in calls || d == c
  {
    var i := 0;
    while i < |calls| && m[calls[i]] < m[c]
      invariant 0 <= i <= |calls|
      invariant forall j | 0 <= j < i :: m[calls[j]] < m[c]
    {
      i := i + 1;
    }
    InsertAscends(m, calls, c, next, i);
    r := calls[..i] + [c] + calls[i..];
    hide Ascending, Indices;
    assert forall d :: d in calls ==> d in calls[..i] || d in calls[i..];
  }

  lemma {:induction false} InsertAscends(m: map<Text, nat>, calls: seq<Text>, c: Text, next: nat, i: nat)
    requires Indices(m, next) && Ascending(m, calls) && c in m && c !in calls && i <= |calls|
    requires forall j | 0 <= j < i :: m[calls[j]] < m[c]
    requires i < |calls| ==> m[calls[i]] >= m[c]
    ensures Ascending(m, calls[..i] + [c] + calls[i..])
  {
    assert forall j | 0 <= j < |calls| :: calls[j] in calls;
    assert forall j | i <= j < |calls| :: m[c] < m[calls[j]];
    var r := calls[..i] + [c] + calls[i..];
    forall j, k | 0 <= j < k < |r| ensures r[j] in m && r[k] in m && m[r[j]] < m[r[k]] {
      assert r[j] == if j < i then calls[j] else if j == i then c else calls[j - 1];
      assert r[k] == if k < i then calls[k] else if k == i then c else calls[k - 1];
    }
  }
}

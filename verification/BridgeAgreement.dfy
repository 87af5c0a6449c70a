/** Streamed and unary answers agree: both are read off the same machine, one from the events it
    emits along the way, the other from the state it ends in. */
module BridgeAgreement {
  import opened Json
  import opened ToolCalls
  import opened ResponseGate
  import opened Bridge
  import opened BridgeGrammar

  // ----- reading an answer off a stream -----

  function TextPart(e: Sse): Text {
    if e.TextDelta? then e.text else []
  }

  function ToolStartPart(e: Sse): seq<(nat, Text)> {
    if e.Start? && e.block.ToolUseStart? then [(e.index, e.block.callId)] else []
  }

  function InputPart(e: Sse): seq<(nat, Fields)> {
    if e.InputDelta? then [(e.index, e.input)] else []
  }

  function TextOf(out: seq<Sse>): Text {
    if out == [] then [] else TextPart(out[0]) + TextOf(out[1..])
  }

  /** The tool_use blocks started, as (block index, call id). */
  function ToolStarts(out: seq<Sse>): seq<(nat, Text)> {
    if out == [] then [] else ToolStartPart(out[0]) + ToolStarts(out[1..])
  }

  function InputsOf(out: seq<Sse>): seq<(nat, Fields)> {
    if out == [] then [] else InputPart(out[0]) + InputsOf(out[1..])
  }

  lemma {:induction false} TextAppend(a: seq<Sse>, b: seq<Sse>)
    ensures TextOf(a + b) == TextOf(a) + TextOf(b)
    decreases |a|
  {
    hide TextPart;
    if a == [] {
      assert a + b == b;
    } else {
      TextAppend(a[1..], b);
      assert (a + b)[1..] == a[1..] + b;
    }
  }

  lemma {:induction false} StartsAppend(a: seq<Sse>, b: seq<Sse>)
    ensures ToolStarts(a + b) == ToolStarts(a) + ToolStarts(b)
    decreases |a|
  {
    hide ToolStartPart;
    if a == [] {
      assert a + b == b;
    } else {
      StartsAppend(a[1..], b);
      assert (a + b)[1..] == a[1..] + b;
    }
  }

  lemma {:induction false} InputsAppend(a: seq<Sse>, b: seq<Sse>)
    ensures InputsOf(a + b) == InputsOf(a) + InputsOf(b)
    decreases |a|
  {
    hide InputPart;
    if a == [] {
      assert a + b == b;
    } else {
      InputsAppend(a[1..], b);
      assert (a + b)[1..] == a[1..] + b;
    }
  }

  lemma {:induction false} ReadAppend(a: seq<Sse>, b: seq<Sse>)
    ensures TextOf(a + b) == TextOf(a) + TextOf(b)
    ensures ToolStarts(a + b) == ToolStarts(a) + ToolStarts(b)
    ensures InputsOf(a + b) == InputsOf(a) + InputsOf(b)
  {
    hide TextOf, ToolStarts, InputsOf;
    TextAppend(a, b);
    StartsAppend(a, b);
    InputsAppend(a, b);
  }

  // ----- reading it off a unary response -----

  function UnaryText(content: seq<ContentBlock>): Text {
    if content == [] then [] else (if content[0].TextBlock? then content[0].text else []) + UnaryText(content[1..])
  }

  function UnaryCalls(content: seq<ContentBlock>): seq<ContentBlock> {
    if content == [] then [] else (if content[0].ToolUseBlock? then [content[0]] else []) + UnaryCalls(content[1..])
  }

  // ----- the order of calls -----

  ghost function Indexed(m: map<Text, nat>): seq<(nat, Text)> {
    seq(|CallOrder(m)|, i requires 0 <= i < |CallOrder(m)| => (m[CallOrder(m)[i]], CallOrder(m)[i]))
  }

  lemma {:induction false} CallOrderAppend(m: map<Text, nat>, c: Text, index: nat)
    requires c !in m && forall d | d in m :: m[d] < index
    ensures CallOrder(m[c := index]) == CallOrder(m) + [c]
    ensures Indexed(m[c := index]) == Indexed(m) + [(index, c)]
  {
    var m' := m[c := index];
    assert c in m' && m'[c] == index;
    assert LastCall(m') == c;
    assert m' - {c} == m;
  }

  // ----- the invariant of a run that has not completed -----

  ghost predicate Agrees(s: State, out: seq<Sse>) {
    && !s.completed
    && (if s.schema == Null then s.final == TextOf(out) else TextOf(out) == [] && s.final == s.structured)
    && (Blank(s.final) ==> s.final == [])
    && ToolStarts(out) == Indexed(s.toolBlocks)
    && InputsOf(out) == []
    && (forall c | c in s.toolBlocks :: s.toolBlocks[c] < s.nextIndex)
  }

  lemma {:induction false} AgreesOpen(s: State, out: seq<Sse>)
    requires Agrees(s, out)
    ensures !s.completed
  {
  }

  predicate Silent(out: seq<Sse>) {
    TextOf(out) == [] && ToolStarts(out) == [] && InputsOf(out) == []
  }

  lemma {:induction false} SilentEvents(out: seq<Sse>)
    requires forall e | e in out :: !e.TextDelta? && !e.InputDelta? && !(e.Start? && e.block.ToolUseStart?)
    ensures Silent(out)
    decreases |out|
  {
    if out != [] { SilentEvents(out[1..]); }
  }

  /** A step that neither emits text, tool calls or inputs nor touches what they are read from. */
  lemma {:induction false} AgreesSilent(s: State, out: seq<Sse>, t: Step)
    requires Agrees(s, out) && Silent(t.out)
    requires t.s.schema == s.schema && t.s.final == s.final && t.s.structured == s.structured
    requires t.s.toolBlocks == s.toolBlocks && t.s.nextIndex >= s.nextIndex && !t.s.completed
    ensures Agrees(t.s, out + t.out)
  {
    ReadAppend(out, t.out);
  }

  lemma {:induction false} NonBlankAppend(a: Text, b: Text)
    requires !Blank(b)
    ensures !Blank(a + b)
  {
    var i :| 0 <= i < |b| && !IsSpace(b[i]);
    assert (a + b)[|a| + i] == b[i];
  }

  lemma {:induction false} DeltasRead(i: nat, texts: seq<Text>)
    ensures TextOf(TextDeltas(i, texts)) == Concat(texts)
    ensures ToolStarts(TextDeltas(i, texts)) == [] && InputsOf(TextDeltas(i, texts)) == []
    decreases |texts|
  {
    if texts != [] {
      DeltasRead(i, texts[1..]);
      assert TextDeltas(i, texts)[1..] == TextDeltas(i, texts[1..]);
    }
  }

  lemma {:induction false} TextsRead(s: State, texts: seq<Text>)
    ensures var out := EmitTexts(s, texts).out;
            TextOf(out) == Concat(texts) && ToolStarts(out) == [] && InputsOf(out) == []
  {
    var i := OpenText(s).activeText.value;
    var opening := if s.activeText.None? then [Start(i, TextStart)] else [];
    DeltasRead(i, texts);
    SilentEvents(opening);
    ReadAppend(opening, TextDeltas(i, texts));
  }

  lemma {:induction false} AgreesTexts(s: State, out: seq<Sse>, texts: seq<Text>)
    requires Agrees(s, out) && s.schema == Null && texts != [] && forall x | x in texts :: !Blank(x)
    ensures Agrees(EmitTexts(s, texts).s, out + EmitTexts(s, texts).out)
  {
    TextsRead(s, texts);
    ReadAppend(out, EmitTexts(s, texts).out);
    ConcatNonBlank(texts);
    NonBlankAppend(s.final, Concat(texts));
  }

  lemma {:induction false} ConcatNonBlank(texts: seq<Text>)
    requires texts != [] && forall x | x in texts :: !Blank(x)
    ensures !Blank(Concat(texts))
    decreases |texts|
  {
    if |texts| > 1 {
      ConcatNonBlank(texts[1..]);
      NonBlankAppend(texts[0], Concat(texts[1..]));
    } else {
      assert Concat(texts) == texts[0] && texts[0] in texts;
    }
  }

  lemma {:induction false} AgreesStructured(s: State, out: seq<Sse>, text: Text)
    requires Agrees(s, out) && s.schema != Null && !Blank(text)
    ensures Agrees(s.(structured := s.structured + text, final := s.final + text, sawText := true), out + [])
  {
    NonBlankAppend(s.final, text);
    assert out + [] == out;
  }

  lemma {:induction false} AgreesTextDelta(parse: Parser, s: State, out: seq<Sse>, data: Text)
    requires Agrees(s, out)
    ensures Agrees(HandleTextDelta(parse, s, data).s, out + HandleTextDelta(parse, s, data).out)
  {
    var text := DeltaText(parse, data);
    if text.None? || Blank(text.value) {
      assert out + [] == out;
    } else if s.schema != Null {
      AgreesStructured(s, out, text.value);
    } else {
      AgreesTexts(s.(sawText := true), out, [text.value]);
    }
  }

  lemma {:induction false} AgreesMessageItem(s: State, out: seq<Sse>, item: Fields)
    requires Agrees(s, out)
    ensures Agrees(HandleMessageItem(s, item).s, out + HandleMessageItem(s, item).out)
  {
    var texts := if "content" in item && item["content"].Arr? then OutputTexts(item["content"].items) else [];
    if s.sawText || texts == [] {
      assert out + [] == out;
    } else if s.schema != Null {
      ConcatNonBlank(texts);
      AgreesStructured(s, out, Concat(texts));
    } else {
      AgreesTexts(s, out, texts);
    }
  }

  lemma {:induction false} ReasoningSilent(parse: Parser, s: State, data: Text)
    ensures Silent(HandleReasoning(parse, s, data).out)
  {
    hide Silent, TextOf, ToolStarts, InputsOf, ParseDelta;
    SilentEvents(HandleReasoning(parse, s, data).out);
  }

  lemma {:induction false} AgreesReasoning(parse: Parser, s: State, out: seq<Sse>, data: Text)
    requires Agrees(s, out)
    ensures Agrees(HandleReasoning(parse, s, data).s, out + HandleReasoning(parse, s, data).out)
  {
    hide Agrees, Silent, ParseDelta;
    AgreesOpen(s, out);
    ReasoningSilent(parse, s, data);
    AgreesSilent(s, out, HandleReasoning(parse, s, data));
  }

  lemma {:induction false} AgreesTool(s: State, out: seq<Sse>, callId: Text, name: Text, s': State)
    requires Agrees(s, out)
    requires s'.toolBlocks == EnsureTool(s, callId).toolBlocks && s'.nextIndex == EnsureTool(s, callId).nextIndex
    requires s'.schema == s.schema && s'.final == s.final && s'.structured == s.structured && !s'.completed
    ensures Agrees(s', out + if callId in s.toolBlocks then [] else [Start(s.nextIndex, ToolUseStart(callId, name))])
  {
    hide TextOf, ToolStarts, InputsOf, Indexed, Blank;
    if callId in s.toolBlocks {
      assert out + [] == out;
    } else {
      ToolStartRead(s.nextIndex, callId, name);
      ReadAppend(out, [Start(s.nextIndex, ToolUseStart(callId, name))]);
      CallOrderAppend(s.toolBlocks, callId, s.nextIndex);
    }
  }

  lemma {:induction false} ToolStartRead(index: nat, callId: Text, name: Text)
    ensures var out := [Start(index, ToolUseStart(callId, name))];
            TextOf(out) == [] && ToolStarts(out) == [(index, callId)] && InputsOf(out) == []
  {
  }

  lemma {:induction false} AppendArgsKeeps(s: State, callId: Text, delta: Text)
    ensures var t := AppendArgs(s, callId, delta);
            && t.toolBlocks == EnsureTool(s, callId).toolBlocks && t.nextIndex == EnsureTool(s, callId).nextIndex
            && t.schema == s.schema && t.final == s.final && t.structured == s.structured && t.completed == s.completed
  {
  }

  lemma {:induction false} AgreesArgDelta(parse: Parser, s: State, out: seq<Sse>, data: Text)
    requires Agrees(s, out)
    ensures Agrees(HandleArgDelta(parse, s, data).s, out + HandleArgDelta(parse, s, data).out)
  {
    hide Agrees, AppendArgs, EnsureTool, ParseDelta;
    AgreesOpen(s, out);
    var d := ParseDelta(parse, data);
    if d.NoDelta? || (d.callId.None? && s.lastTool.None?) {
      assert out + [] == out;
    } else {
      var callId := if d.callId.Some? then d.callId.value else s.lastTool.value;
      AppendArgsKeeps(s, callId, d.delta);
      AgreesTool(s, out, callId, [], AppendArgs(s, callId, d.delta));
    }
  }

  lemma {:induction false} AgreesSearch(s: State, out: seq<Sse>, call: SearchCall)
    requires Agrees(s, out)
    ensures Agrees(EmitSearch(s, call).s, out + EmitSearch(s, call).out)
  {
    hide Agrees, Silent;
    AgreesOpen(s, out);
    var t := EmitSearch(s, call);
    SilentEvents(t.out);
    AgreesSilent(s, out, t);
  }

  lemma {:induction false} AgreesSearches(s: State, out: seq<Sse>, calls: seq<SearchCall>)
    requires Agrees(s, out)
    ensures Agrees(EmitSearches(s, calls).s, out + EmitSearches(s, calls).out)
    decreases |calls|
  {
    hide Agrees;
    if calls == [] {
      assert out + [] == out;
    } else {
      var first := EmitSearch(s, calls[0]);
      AgreesSearch(s, out, calls[0]);
      AgreesSearches(first.s, out + first.out, calls[1..]);
      assert out + EmitSearches(s, calls).out == (out + first.out) + EmitSearches(first.s, calls[1..]).out;
    }
  }

  lemma {:induction false} AgreesToolCall(s: State, out: seq<Sse>, tc: ToolCall, done: bool)
    requires Agrees(s, out)
    ensures Agrees(HandleToolCall(s, tc, done).s, out + HandleToolCall(s, tc, done).out)
  {
    AgreesOpen(s, out);
    hide Agrees;
    assert out + [] == out;
    AgreesTool(s, out, tc.callId, tc.name, HandleToolCall(s, tc, done).s);
  }

  lemma {:induction false} AgreesItem(parse: Parser, s: State, out: seq<Sse>, ev: Event)
    requires Agrees(s, out)
    ensures Agrees(HandleItem(parse, s, ev).s, out + HandleItem(parse, s, ev).out)
  {
    AgreesOpen(s, out);
    hide Agrees, EmitSearch, HandleMessageItem, ItemToolCall, DecodeObject, ItemSearchId, MakeSearch;
    assert out + [] == out;
    var tc := ItemToolCall(parse, ev.data);
    if tc.Some? {
      hide HandleToolCall;
      AgreesToolCall(s, out, tc.value, ev.name == "response.output_item.done");
    } else if DecodeObject(parse, ev.data).Some? && ObjectAt(DecodeObject(parse, ev.data).value, "item").Some? {
      var item := ObjectAt(DecodeObject(parse, ev.data).value, "item").value;
      if HasString(item, "type", "web_search_call") {
        var id := ItemSearchId(item, "output_item");
        if id.Some? { AgreesSearch(s, out, MakeSearch(id.value, item)); }
      } else if HasString(item, "type", "message") {
        AgreesMessageItem(s, out, item);
      }
    }
  }

  lemma {:induction false} AgreesSearchEvent(parse: Parser, s: State, out: seq<Sse>, ev: Event)
    requires Agrees(s, out)
    ensures Agrees(HandleSearchEvent(parse, s, ev).s, out + HandleSearchEvent(parse, s, ev).out)
  {
    hide Agrees, EmitSearch;
    assert out + [] == out;
    if DecodeObject(parse, ev.data).Some? {
      var v := DecodeObject(parse, ev.data).value;
      if EventSearchId(v, ev.name).Some? { AgreesSearch(s, out, MakeSearch(EventSearchId(v, ev.name).value, v)); }
    }
  }

  lemma {:induction false} AgreesCounted(s: State, out: seq<Sse>, searches: set<Text>)
    requires Agrees(s, out)
    ensures Agrees(s.(completedSearches := searches), out)
  {
  }

  lemma {:induction false} AgreesEvent(parse: Parser, s: State, out: seq<Sse>, ev: Event)
    requires Agrees(s, out) && !IsFailure(parse, ev) && ev.name != "response.completed"
    ensures Agrees(MapEvent(parse, s, ev).s, out + MapEvent(parse, s, ev).out)
  {
    hide Agrees, HandleTextDelta, HandleItem, HandleSearchEvent, HandleArgDelta, HandleReasoning, SearchesShown;
    var searches := s.completedSearches + SearchesShown(parse, ev);
    AgreesCounted(s, out, searches);
    var s1 := s.(completedSearches := searches);
    AgreesTextDelta(parse, s1, out, ev.data);
    AgreesItem(parse, s1, out, ev);
    AgreesSearchEvent(parse, s1, out, ev);
    AgreesArgDelta(parse, s1, out, ev.data);
    AgreesReasoning(parse, s1, out, ev.data);
    assert out + [] == out;
  }

  // ----- completion -----

  /** What the whole stream says, against the state it ends in. */
  ghost predicate Settled(parse: Parser, s: State, out: seq<Sse>) {
    && s.completed
    && (Blank(s.final) ==> s.final == [])
    && TextOf(out) == Cleanup(parse, s.schema, s.final)
    && ToolStarts(out) == Indexed(s.toolBlocks)
    && InputsMatch(parse, s, InputsOf(out))
    && |out| >= 2
    && out[|out| - 2] == MessageDelta(if s.toolBlocks == map[] then EndTurn else ToolUse, s.usage, s.contextManagement)
  }

  lemma {:induction false} InputsRead(parse: Parser, s: State, calls: seq<Text>)
    requires (forall c | c in calls :: c in s.toolBlocks) && InputDeltas(parse, s, calls).Some?
    ensures var out := InputDeltas(parse, s, calls).value;
            && TextOf(out) == [] && ToolStarts(out) == []
            && |InputsOf(out)| == |calls|
            && forall i | 0 <= i < |calls| ::
                 InputsOf(out)[i].0 == s.toolBlocks[calls[i]]
                   && CallInput(parse, s, calls[i]) == Some(InputsOf(out)[i].1)
    decreases |calls|
  {
    if calls != [] {
      InputsRead(parse, s, calls[1..]);
      var out := InputDeltas(parse, s, calls).value;
      assert out[1..] == InputDeltas(parse, s, calls[1..]).value;
    }
  }

  lemma {:induction false} StopsSilent(blocks: seq<Block>)
    ensures forall e | e in StopsOf(blocks) :: e.Stop?
    decreases |blocks|
  {
    if blocks != [] { StopsSilent(blocks[1..]); }
  }

  /** The events of a clean completion: pending text, stops, summary. */
  lemma {:induction false} FinalizeShape(parse: Parser, s: State)
    ensures var flushed := FlushStructured(parse, s.(completed := true));
            var reason := if flushed.s.toolBlocks == map[] then EndTurn else ToolUse;
            Finalize(parse, s).out
              == flushed.out + (StopsOf(flushed.s.blocks)
                + [MessageDelta(reason, flushed.s.usage, flushed.s.contextManagement), MessageStop])
  {
    hide FlushStructured, StopsOf, CloseAll;
  }

  lemma {:induction false} EndingSilent(stops: seq<Sse>, delta: Sse)
    requires (forall e | e in stops :: e.Stop?) && delta.MessageDelta?
    ensures Silent(stops + [delta, MessageStop])
  {
    hide Silent, TextOf, ToolStarts, InputsOf;
    SilentEvents(stops + [delta, MessageStop]);
  }

  lemma {:induction false} FinalizeRead(parse: Parser, s: State)
    requires s.schema != Null ==> s.final == s.structured
    requires Blank(s.final) ==> s.final == []
    ensures var out := Finalize(parse, s).out;
            && TextOf(out) == (if s.schema == Null then [] else Cleanup(parse, s.schema, s.final))
            && ToolStarts(out) == [] && InputsOf(out) == []
            && |out| >= 2
            && out[|out| - 2] == MessageDelta(if s.toolBlocks == map[] then EndTurn
                 else ToolUse, s.usage, s.contextManagement)
  {
    hide Finalize, FlushStructured, StopsOf, TextOf, ToolStarts, InputsOf, Cleanup, Blank;
    var done := s.(completed := true);
    var flushed := FlushStructured(parse, done);
    var stops := StopsOf(flushed.s.blocks);
    var delta := MessageDelta(if s.toolBlocks == map[] then EndTurn else ToolUse, s.usage, s.contextManagement);
    FlushRead(parse, done);
    FlushKeeps(parse, done);
    FinalizeShape(parse, s);
    StopsSilent(flushed.s.blocks);
    EndingSilent(stops, delta);
    ReadAppend(flushed.out, stops + [delta, MessageStop]);
  }

  lemma {:induction false} FlushKeeps(parse: Parser, s: State)
    ensures SameAnswer(s, FlushStructured(parse, s).s) && FlushStructured(parse, s).s.completed == s.completed
  {
    hide Cleanup, Blank, OpenText;
    OpenTextKeeps(s);
  }

  lemma {:induction false} OpenTextKeeps(s: State)
    ensures OpenText(s).activeText.Some? && SameAnswer(s, OpenText(s)) && OpenText(s).completed == s.completed
    ensures s.activeText.Some? ==> OpenText(s) == s
  {
  }

  lemma {:induction false} FlushRead(parse: Parser, s: State)
    requires s.schema != Null ==> s.final == s.structured
    requires Blank(s.final) ==> s.final == []
    ensures var t := FlushStructured(parse, s);
            && TextOf(t.out) == (if s.schema == Null then [] else Cleanup(parse, s.schema, s.final))
            && ToolStarts(t.out) == [] && InputsOf(t.out) == []
  {
    hide OpenText;
    OpenTextKeeps(s);
    if s.schema != Null && !Blank(s.structured) {
      hide Blank;
      var i := OpenText(s).activeText.value;
      var opening := if s.activeText.None? then [Start(i, TextStart)] else [];
      var delta := TextDelta(i, Cleanup(parse, s.schema, s.structured));
      SilentEvents(opening);
      assert TextOf([delta]) == delta.text && ToolStarts([delta]) == [] && InputsOf([delta]) == [];
      ReadAppend(opening, [delta]);
    }
  }

  lemma {:induction false} AgreesFacts(s: State, out: seq<Sse>)
    requires Agrees(s, out)
    ensures !s.completed
    ensures if s.schema == Null then s.final == TextOf(out) else TextOf(out) == [] && s.final == s.structured
    ensures Blank(s.final) ==> s.final == []
    ensures ToolStarts(out) == Indexed(s.toolBlocks) && InputsOf(out) == []
  {
  }

  lemma {:induction false} FinishSettles(parse: Parser, out: seq<Sse>, searched: Step)
    requires Agrees(searched.s, out + searched.out) && ErrorFree(FinishCall(parse, searched).out)
    ensures Settled(parse, FinishCall(parse, searched).s, out + FinishCall(parse, searched).out)
  {
    hide CallOrder, TextOf, ToolStarts, InputsOf, InputDeltas, CallInput, Agrees, Settled, Finalize, Indexed, Cleanup;
    hide FinishCall, SameAnswer;
    var s := searched.s;
    AgreesFacts(s, out + searched.out);
    FinalizeRead(parse, s);
    FinalizeKeeps(parse, s);
    FinishesCleanly(parse, searched);
    var inputs := InputDeltas(parse, s, CallOrder(s.toolBlocks)).value;
    var finished := Finalize(parse, s);
    assert out + FinishCall(parse, searched).out == (out + searched.out) + (inputs + finished.out);
    SettledBy(parse, s, finished.s, out + searched.out, inputs, finished.out);
  }

  /** The fields an answer is read from. */
  ghost predicate SameAnswer(s: State, t: State) {
    && t.toolBlocks == s.toolBlocks && t.usage == s.usage && t.contextManagement == s.contextManagement
    && t.final == s.final && t.schema == s.schema && t.toolNames == s.toolNames
    && t.toolKinds == s.toolKinds && t.toolArgs == s.toolArgs
  }

  lemma {:induction false} FinalizeKeeps(parse: Parser, s: State)
    ensures SameAnswer(s, Finalize(parse, s).s) && Finalize(parse, s).s.completed
  {
    hide FlushStructured, StopsOf, CloseAll;
    FlushKeeps(parse, s.(completed := true));
  }

  ghost predicate InputsMatch(parse: Parser, s: State, inputs: seq<(nat, Fields)>) {
    && |inputs| == |CallOrder(s.toolBlocks)|
    && forall i | 0 <= i < |inputs| ::
         var c := CallOrder(s.toolBlocks)[i];
         CallInput(parse, s, c) == Some(inputs[i].1) && inputs[i].0 == s.toolBlocks[c]
  }

  lemma {:induction false} InputsMatchState(parse: Parser, s: State, t: State, inputs: seq<Sse>)
    requires SameAnswer(s, t) && InputDeltas(parse, s, CallOrder(s.toolBlocks)) == Some(inputs)
    ensures InputsMatch(parse, t, InputsOf(inputs))
  {
    hide InputDeltas, CallInput, InputsOf;
    InputsRead(parse, s, CallOrder(s.toolBlocks));
    SameInputs(parse, s, t);
  }

  lemma {:induction false} NextToLast(a: seq<Sse>, b: seq<Sse>, c: seq<Sse>)
    requires |c| >= 2
    ensures var all := a + (b + c); |all| >= 2 && all[|all| - 2] == c[|c| - 2]
  {
  }

  lemma {:induction false} SettledBy(parse: Parser, s: State, t: State, out: seq<Sse>, inputs: seq<Sse>, end: seq<Sse>)
    requires Agrees(s, out) && SameAnswer(s, t) && t.completed
    requires InputDeltas(parse, s, CallOrder(s.toolBlocks)) == Some(inputs)
    requires TextOf(end) == (if s.schema == Null then [] else Cleanup(parse, s.schema, s.final))
    requires ToolStarts(end) == [] && InputsOf(end) == [] && |end| >= 2
    requires end[|end| - 2] == MessageDelta(if s.toolBlocks == map[] then EndTurn
      else ToolUse, s.usage, s.contextManagement)
    ensures Settled(parse, t, out + (inputs + end))
  {
    hide CallOrder, InputDeltas, CallInput, TextOf, ToolStarts, InputsOf, Indexed, Agrees, InputsMatch, Blank;
    AgreesFacts(s, out);
    InputsRead(parse, s, CallOrder(s.toolBlocks));
    InputsMatchState(parse, s, t, inputs);
    ReadAppend(inputs, end);
    ReadAppend(out, inputs + end);
    NextToLast(out, inputs, end);
    assert InputsOf(out + (inputs + end)) == InputsOf(inputs);
  }

  lemma {:induction false} SameInputs(parse: Parser, s: State, t: State)
    requires SameAnswer(s, t)
    ensures forall c :: CallInput(parse, t, c) == CallInput(parse, s, c)
  {
  }

  lemma {:induction false} CompletedSettles(parse: Parser, s: State, out: seq<Sse>, data: Text)
    requires Agrees(s, out) && ErrorFree(HandleCompleted(parse, s, data).out)
    ensures Settled(parse, HandleCompleted(parse, s, data).s, out + HandleCompleted(parse, s, data).out)
  {
    var s1 := RecordUsage(parse, s, data);
    assert Agrees(s1, out);
    var calls := OutputSearches(CompletedOutput(parse, data), 0);
    AgreesSearches(s1, out, calls);
    FinishSettles(parse, out, EmitSearches(s1, calls));
  }

  lemma {:induction false} RunSettles(parse: Parser, s: State, out: seq<Sse>, evs: seq<Event>)
    requires !s.completed ==> Agrees(s, out)
    requires s.completed ==> Settled(parse, s, out)
    requires ErrorFree(Run(parse, s, evs).out)
    ensures var t := Run(parse, s, evs);
            if t.s.completed then Settled(parse, t.s, out + t.out) else Agrees(t.s, out + t.out)
    decreases |evs|
  {
    hide MapEvent, Agrees, Settled;
    if evs == [] {
      assert out + [] == out;
    } else {
      var first := Translate(parse, s, evs[0]);
      EventSettles(parse, s, out, evs[0]);
      RunSettles(parse, first.s, out + first.out, evs[1..]);
      assert out + Run(parse, s, evs).out == (out + first.out) + Run(parse, first.s, evs[1..]).out;
    }
  }

  lemma {:induction false} EventSettles(parse: Parser, s: State, out: seq<Sse>, ev: Event)
    requires !s.completed ==> Agrees(s, out)
    requires s.completed ==> Settled(parse, s, out)
    requires ErrorFree(Translate(parse, s, ev).out)
    ensures var t := Translate(parse, s, ev);
            if t.s.completed then Settled(parse, t.s, out + t.out) else Agrees(t.s, out + t.out)
  {
    hide Agrees, Settled, HandleCompleted, HandleTextDelta;
    hide HandleItem, HandleSearchEvent, HandleArgDelta, HandleReasoning;
    var t := Translate(parse, s, ev);
    if s.completed {
      assert out + [] == out;
    } else if IsFailure(parse, ev) {
      NotErrorFree(t.out);
    } else if ev.name == "response.completed" {
      var searches := s.completedSearches + SearchesShown(parse, ev);
      AgreesCounted(s, out, searches);
      CompletedSettles(parse, s.(completedSearches := searches), out, ev.data);
    } else {
      AgreesEvent(parse, s, out, ev);
      AgreesOpen(t.s, out + t.out);
    }
  }

  // ----- the unary replay -----

  ghost function With(s: State, c: Json): State {
    s.(contextManagement := c)
  }

  lemma {:induction false} WithKeeps(s: State, c: Json)
    ensures With(s, c).lastTool == s.lastTool && With(s, c).toolBlocks == s.toolBlocks
      && With(s, c).nextIndex == s.nextIndex
  {
  }

  lemma {:induction false} SearchesIgnoreContext(s: State, c: Json, calls: seq<SearchCall>)
    ensures EmitSearches(With(s, c), calls).s == With(EmitSearches(s, calls).s, c)
    decreases |calls|
  {
    if calls != [] {
      assert EmitSearch(With(s, c), calls[0]).s == With(EmitSearch(s, calls[0]).s, c);
      SearchesIgnoreContext(EmitSearch(s, calls[0]).s, c, calls[1..]);
    }
  }

  lemma {:induction false} InputsIgnoreContext(parse: Parser, s: State, c: Json, calls: seq<Text>)
    requires forall x | x in calls :: x in s.toolBlocks
    ensures InputDeltas(parse, With(s, c), calls) == InputDeltas(parse, s, calls)
    decreases |calls|
  {
    if calls != [] {
      assert CallInput(parse, With(s, c), calls[0]) == CallInput(parse, s, calls[0]);
      InputsIgnoreContext(parse, s, c, calls[1..]);
    }
  }

  lemma {:induction false} FinishIgnoresContext(parse: Parser, t: Step, u: Step, c: Json)
    requires u.s == With(t.s, c)
    ensures FinishCall(parse, u).s == With(FinishCall(parse, t).s, c)
  {
    hide CallOrder, InputDeltas, Finalize;
    InputsIgnoreContext(parse, t.s, c, CallOrder(t.s.toolBlocks));
    FinalizeIgnoresContext(parse, t.s, c);
  }

  lemma {:induction false} FinalizeIgnoresContext(parse: Parser, s: State, c: Json)
    ensures Finalize(parse, With(s, c)).s == With(Finalize(parse, s).s, c)
  {
    FlushIgnoresContext(parse, s.(completed := true), c);
    hide FlushStructured, StopsOf;
    assert With(s, c).(completed := true) == With(s.(completed := true), c);
  }

  lemma {:induction false} OpenTextIgnoresContext(s: State, c: Json)
    ensures OpenText(With(s, c)) == With(OpenText(s), c)
  {
  }

  lemma {:induction false} FlushIgnoresContext(parse: Parser, s: State, c: Json)
    ensures FlushStructured(parse, With(s, c)).s == With(FlushStructured(parse, s).s, c)
  {
    hide Cleanup, Blank;
    OpenTextIgnoresContext(s, c);
  }

  lemma {:induction false} CompletedIgnoresContext(parse: Parser, s: State, c: Json, data: Text)
    ensures HandleCompleted(parse, With(s, c), data).s == With(HandleCompleted(parse, s, data).s, c)
  {
    hide FinishCall, UsageOf, EmitSearches, OutputSearches, CompletedOutput;
    var s1 := RecordUsage(parse, s, data);
    var calls := OutputSearches(CompletedOutput(parse, data), 0);
    assert RecordUsage(parse, With(s, c), data) == With(s1, c);
    SearchesIgnoreContext(s1, c, calls);
    FinishIgnoresContext(parse, EmitSearches(s1, calls), EmitSearches(With(s1, c), calls), c);
  }

  lemma {:induction false} EmitTextsIgnoresContext(s: State, c: Json, texts: seq<Text>)
    ensures EmitTexts(With(s, c), texts).s == With(EmitTexts(s, texts).s, c)
  {
    assert OpenText(With(s, c)) == With(OpenText(s), c);
    hide Concat, TextDeltas, OpenText;
    var final := s.final + Concat(texts);
    assert EmitTexts(s, texts).s == OpenText(s).(final := final);
  }

  lemma {:induction false} TextDeltaIgnoresContext(parse: Parser, s: State, c: Json, data: Text)
    ensures HandleTextDelta(parse, With(s, c), data).s == With(HandleTextDelta(parse, s, data).s, c)
  {
    hide DeltaText, EmitTexts, Blank;
    var text := DeltaText(parse, data);
    if text.Some? { EmitTextsIgnoresContext(s.(sawText := true), c, [text.value]); }
  }

  lemma {:induction false} MessageItemIgnoresContext(s: State, c: Json, item: Fields)
    ensures HandleMessageItem(With(s, c), item).s == With(HandleMessageItem(s, item).s, c)
  {
    hide OutputTexts, EmitTexts, Concat;
    EmitTextsIgnoresContext(s, c, if "content" in item && item["content"].Arr? then OutputTexts(item["content"].items)
      else []);
  }

  lemma {:induction false} ToolCallIgnoresContext(s: State, c: Json, tc: ToolCall, finalItem: bool)
    ensures HandleToolCall(With(s, c), tc, finalItem).s == With(HandleToolCall(s, tc, finalItem).s, c)
  {
    EnsureToolIgnoresContext(s, c, tc.callId);
    hide EnsureTool;
  }

  lemma {:induction false} EnsureToolIgnoresContext(s: State, c: Json, callId: Text)
    ensures EnsureTool(With(s, c), callId) == With(EnsureTool(s, callId), c)
  {
  }

  lemma {:induction false} AppendArgsIgnoresContext(s: State, c: Json, callId: Text, delta: Text)
    ensures AppendArgs(With(s, c), callId, delta) == With(AppendArgs(s, callId, delta), c)
  {
    hide EnsureTool;
    EnsureToolIgnoresContext(s, c, callId);
  }

  lemma {:induction false} ArgDeltaIgnoresContext(parse: Parser, s: State, c: Json, data: Text)
    ensures HandleArgDelta(parse, With(s, c), data).s == With(HandleArgDelta(parse, s, data).s, c)
  {
    hide ParseDelta, AppendArgs, With;
    WithKeeps(s, c);
    var d := ParseDelta(parse, data);
    if d.Delta? && (d.callId.Some? || s.lastTool.Some?) {
      AppendArgsIgnoresContext(s, c, if d.callId.Some? then d.callId.value else s.lastTool.value, d.delta);
    }
  }

  lemma {:induction false} ReasoningIgnoresContext(parse: Parser, s: State, c: Json, data: Text)
    ensures HandleReasoning(parse, With(s, c), data).s == With(HandleReasoning(parse, s, data).s, c)
  {
    hide ParseDelta;
  }

  lemma {:induction false} SearchIgnoresContext(s: State, c: Json, call: SearchCall)
    ensures EmitSearch(With(s, c), call).s == With(EmitSearch(s, call).s, c)
  {
  }

  lemma {:induction false} ItemIgnoresContext(parse: Parser, s: State, c: Json, ev: Event)
    ensures HandleItem(parse, With(s, c), ev).s == With(HandleItem(parse, s, ev).s, c)
    ensures HandleSearchEvent(parse, With(s, c), ev).s == With(HandleSearchEvent(parse, s, ev).s, c)
  {
    hide With, HandleToolCall, HandleMessageItem, EmitSearch, ItemToolCall, ItemSearchId, EventSearchId, DecodeObject;
    forall tc, f: bool ensures HandleToolCall(With(s, c), tc, f).s == With(HandleToolCall(s, tc, f).s, c) {
      ToolCallIgnoresContext(s, c, tc, f);
    }
    forall item ensures HandleMessageItem(With(s, c), item).s == With(HandleMessageItem(s, item).s, c) {
      MessageItemIgnoresContext(s, c, item);
    }
    forall call ensures EmitSearch(With(s, c), call).s == With(EmitSearch(s, call).s, c) {
      SearchIgnoresContext(s, c, call);
    }
  }

  lemma {:induction false} EventIgnoresContext(parse: Parser, s: State, c: Json, ev: Event)
    ensures MapEvent(parse, With(s, c), ev).s == With(MapEvent(parse, s, ev).s, c)
  {
    hide HandleTextDelta, HandleItem, HandleSearchEvent, HandleArgDelta;
    hide HandleReasoning, HandleCompleted, SearchesShown, IsFailure;
    var s1 := s.(completedSearches := s.completedSearches + SearchesShown(parse, ev));
    TextDeltaIgnoresContext(parse, s1, c, ev.data);
    ArgDeltaIgnoresContext(parse, s1, c, ev.data);
    ReasoningIgnoresContext(parse, s1, c, ev.data);
    ItemIgnoresContext(parse, s1, c, ev);
    CompletedIgnoresContext(parse, s1, c, ev.data);
  }

  lemma {:induction false} RunIgnoresContext(parse: Parser, s: State, c: Json, evs: seq<Event>)
    ensures Run(parse, With(s, c), evs).s == With(Run(parse, s, evs).s, c)
    decreases |evs|
  {
    if evs != [] {
      EventIgnoresContext(parse, s, c, evs[0]);
      hide MapEvent;
      RunIgnoresContext(parse, Translate(parse, s, evs[0]).s, c, evs[1..]);
    }
  }

  lemma {:induction false} UnaryFromStream(parse: Parser, schema: Json, contextManagement: Json, evs: seq<Event>)
    ensures BuildUnary(parse, schema, evs) == UnaryOf(parse, Stream(parse, schema, contextManagement, evs).s)
  {
    hide Run;
    RunIgnoresContext(parse, NewState(schema, Null), contextManagement, evs);
    assert NewState(schema, contextManagement) == With(NewState(schema, Null), contextManagement);
    UnaryIgnoresContext(parse, Run(parse, NewState(schema, Null), evs).s, contextManagement);
  }

  lemma {:induction false} UnaryIgnoresContext(parse: Parser, s: State, c: Json)
    ensures UnaryOf(parse, With(s, c)) == UnaryOf(parse, s)
  {
    hide CallOrder, Cleanup;
    forall x ensures CallInput(parse, With(s, c), x) == CallInput(parse, s, x) {
    }
    hide CallInput;
    assert ToolUses(parse, With(s, c), CallOrder(s.toolBlocks)) == ToolUses(parse, s, CallOrder(s.toolBlocks));
  }

  // ----- agreement -----

  /** One unary tool_use block against one streamed call and its input. */
  predicate SameCall(block: ContentBlock, started: (nat, Text), input: (nat, Fields)) {
    block.ToolUseBlock? && block.callId == started.1 && started.0 == input.0 && block.input == input.1
  }

  lemma {:induction false} CallsRead(blocks: seq<ContentBlock>)
    requires forall b | b in blocks :: b.ToolUseBlock?
    ensures UnaryCalls(blocks) == blocks && UnaryText(blocks) == []
    decreases |blocks|
  {
    if blocks != [] { CallsRead(blocks[1..]); }
  }

  lemma {:induction false} UnaryRead(parse: Parser, s: State)
    requires Blank(s.final) ==> s.final == []
    ensures var u := UnaryOf(parse, s);
            && UnaryText(u.content) == Cleanup(parse, s.schema, s.final)
            && UnaryCalls(u.content) == ToolUses(parse, s, CallOrder(s.toolBlocks))
  {
    var text := Cleanup(parse, s.schema, s.final);
    var calls := ToolUses(parse, s, CallOrder(s.toolBlocks));
    CallsRead(calls);
    var content := UnaryOf(parse, s).content;
    if s.toolBlocks == map[] {
      assert calls == [] && content[1..] == [];
    } else if !Blank(text) {
      assert content[0] == TextBlock(text) && content[1..] == calls;
    } else {
      assert s.final == [] && content == calls;
    }
  }

  /** The input tokens reported by message_delta. */
  function StreamedInput(u: Usage): int {
    if u.input - u.cached < 0 then 0 else u.input - u.cached
  }

  ghost predicate SameUsage(usage: Option<Usage>, unary: Unary) {
    match usage
    case None => unary.inputTokens == 0 && unary.outputTokens == 0 && unary.searches == 0
    case Some(u) =>
      && u.output == unary.outputTokens && u.searches == unary.searches
      && (StreamedInput(u) == unary.inputTokens <==> u.input >= 0 && (u.cached == 0 || (u.input == 0 && u.cached > 0)))
  }

  ghost predicate SameCalls(calls: seq<ContentBlock>, out: seq<Sse>) {
    && |calls| == |ToolStarts(out)| == |InputsOf(out)|
    && forall i | 0 <= i < |calls| :: SameCall(calls[i], ToolStarts(out)[i], InputsOf(out)[i])
  }

  /** The streamed answer is the unary one. */
  ghost predicate SameAnswers(out: seq<Sse>, unary: Unary) {
    && UnaryText(unary.content) == TextOf(out)
    && SameCalls(UnaryCalls(unary.content), out)
    && |out| >= 2 && out[|out| - 2].MessageDelta?
    && out[|out| - 2].reason == unary.reason
    && SameUsage(out[|out| - 2].usage, unary)
  }

  /** For every list of events that completes without an error event, with or without a schema: the
      streamed text is the unary text; the streamed tool calls are the unary ones, in the same order
      and with the same ids and inputs; stop reason, output tokens and search count agree; and the
      input tokens agree exactly when none of them came from the cache (the stream subtracts those). */
  lemma {:induction false} StreamAgreesWithUnary(parse: Parser, schema: Json, contextManagement: Json, evs: seq<Event>)
    requires Stream(parse, schema, contextManagement, evs).s.completed
    requires ErrorFree(Stream(parse, schema, contextManagement, evs).out)
    ensures SameAnswers(Stream(parse, schema, contextManagement, evs).out, BuildUnary(parse, schema, evs))
  {
    hide Run, Agrees, Settled, UnaryOf, BuildUnary, SameAnswers, NewState;
    assert !NewState(schema, contextManagement).completed by {
      FreshAgrees(schema, contextManagement);
      AgreesOpen(NewState(schema, contextManagement), []);
    }
    var s0 := NewState(schema, contextManagement);
    var t := Stream(parse, schema, contextManagement, evs);
    assert Agrees(s0, []) by { FreshAgrees(schema, contextManagement); }
    RunSettles(parse, s0, [], evs);
    assert [] + t.out == t.out;
    UnaryFromStream(parse, schema, contextManagement, evs);
    SettledUnary(parse, t.s, t.out);
  }

  lemma {:induction false} FreshAgrees(schema: Json, contextManagement: Json)
    ensures Agrees(NewState(schema, contextManagement), [])
  {
  }

  lemma {:induction false} SettledUnary(parse: Parser, s: State, out: seq<Sse>)
    requires Settled(parse, s, out)
    ensures SameAnswers(out, UnaryOf(parse, s))
  {
    hide Cleanup, CallInput, CallOrder, UnaryCalls, UnaryText;
    UnaryRead(parse, s);
    var order := CallOrder(s.toolBlocks);
    var calls := ToolUses(parse, s, order);
    forall i | 0 <= i < |calls| ensures SameCall(calls[i], ToolStarts(out)[i], InputsOf(out)[i]) {
      assert CallInput(parse, s, order[i]) == Some(InputsOf(out)[i].1);
    }
  }
}

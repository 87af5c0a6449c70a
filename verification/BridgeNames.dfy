/** Which calls are open, under which name and kind, read off the events; hence when completion fails,
    and when a streamed tool_use block carries the same name as the unary one. */
module BridgeNames {
  import opened Json
  import opened ToolCalls
  import opened ResponseGate
  import opened Bridge
  import opened BridgeGrammar
  import opened BridgeAgreement
  import opened BridgeCalls

  // ----- read off the events -----

  /** The call an effect belongs to, after the events before it. */
  function OwnerAfter(parse: Parser, before: seq<Event>, e: Effect): Option<Text> {
    match e
    case Nothing => None
    case Item(tc, _) => Some(tc.callId)
    case Fragment(callId, _) => if callId.Some? then callId else LastItem(parse, before)
  }

  /** The name in the event that opened the call; a fragment carries none. */
  function OpeningName(parse: Parser, evs: seq<Event>, c: Text): Option<Text> {
    if evs == [] then None
    else
      var before, e := evs[..|evs| - 1], EffectOf(parse, evs[|evs| - 1]);
      if OpeningName(parse, before, c).Some? then OpeningName(parse, before, c)
      else if OwnerAfter(parse, before, e) == Some(c) then Some(if e.Item? then e.tc.name else [])
      else None
  }

  /** The call's last item. */
  function LastItemOf(parse: Parser, evs: seq<Event>, c: Text): Option<ToolCall> {
    if evs == [] then None
    else
      var e := EffectOf(parse, evs[|evs| - 1]);
      if e.Item? && e.tc.callId == c then Some(e.tc) else LastItemOf(parse, evs[..|evs| - 1], c)
  }

  function LastName(parse: Parser, evs: seq<Event>, c: Text): Text {
    if LastItemOf(parse, evs, c).Some? then LastItemOf(parse, evs, c).value.name else []
  }

  /** What completion makes of the call's arguments. */
  function FinalInput(parse: Parser, evs: seq<Event>, c: Text): Option<Fields> {
    var last := LastItemOf(parse, evs, c);
    Sanitized(parse, LastName(parse, evs, c), if last.Some? then Some(last.value.kind) else None, Buffer(parse, evs, c))
  }

  // ----- one step -----

  predicate NoToolStart(out: seq<Sse>) {
    forall e | e in out :: !(e.Start? && e.block.ToolUseStart?)
  }

  lemma {:induction false} TextsStartNoTool(parse: Parser, s: State, data: Text, item: Fields)
    ensures NoToolStart(HandleTextDelta(parse, s, data).out) && NoToolStart(HandleMessageItem(s, item).out)
    ensures NoToolStart(HandleReasoning(parse, s, data).out)
  {
    hide DeltaText, OutputTexts, Concat, Blank, ParseDelta;
  }

  lemma {:induction false} SearchesStartNoTool(parse: Parser, s: State, ev: Event)
    ensures NoToolStart(HandleSearchEvent(parse, s, ev).out)
    ensures ItemToolCall(parse, ev.data).None? ==> NoToolStart(HandleItem(parse, s, ev).out)
  {
    hide ItemToolCall, EventSearchId, ItemSearchId, MakeSearch, HandleMessageItem, DecodeObject;
    forall item ensures NoToolStart(HandleMessageItem(s, item).out) {
      TextsStartNoTool(parse, s, ev.data, item);
    }
  }

  lemma {:induction false} QuietStartsNoTool(parse: Parser, s: State, ev: Event)
    requires !Terminal(parse, ev) && EffectOf(parse, ev).Nothing?
    ensures NoToolStart(MapEvent(parse, s, ev).out)
  {
    hide ItemToolCall, SearchesShown, ParseDelta, HandleTextDelta;
    hide HandleItem, HandleSearchEvent, HandleReasoning, NoToolStart;
    var s1 := s.(completedSearches := s.completedSearches + SearchesShown(parse, ev));
    TextsStartNoTool(parse, s1, ev.data, map[]);
    SearchesStartNoTool(parse, s1, ev);
    assert NoToolStart([]) by { NothingStarts(); }
  }

  lemma {:induction false} NothingStarts()
    ensures NoToolStart([])
  {
  }

  /** A call's first event starts its block; nothing else starts one. */
  lemma {:induction false} OwnerStarts(parse: Parser, s: State, ev: Event)
    requires !Terminal(parse, ev) && !EffectOf(parse, ev).Nothing?
    ensures var e := EffectOf(parse, ev);
            var owner := if e.Item? then Some(e.tc.callId) else if e.callId.Some? then e.callId else s.lastTool;
            MapEvent(parse, s, ev).out
              == if owner.None? || owner.value in s.toolBlocks then []
                 else [Start(s.nextIndex, ToolUseStart(owner.value, if e.Item? then e.tc.name else []))]
  {
    hide ItemToolCall, ParseDelta, SearchesShown, AppendArgs, EnsureTool;
    var s1 := s.(completedSearches := s.completedSearches + SearchesShown(parse, ev));
    if EffectOf(parse, ev).Item? {
      hide HandleArgDelta;
      assert MapEvent(parse, s, ev) == HandleItem(parse, s1, ev);
    } else {
      hide HandleItem, IsFailure;
      assert MapEvent(parse, s, ev) == HandleArgDelta(parse, s1, ev.data);
    }
  }

  // ----- what is held for a call, read off the events -----

  function Expected(parse: Parser, evs: seq<Event>, c: Text): Held {
    var last := LastItemOf(parse, evs, c);
    var shown := OpeningName(parse, evs, c).Some?;
    Held(shown,
         if last.Some? then Some(last.value.name) else None,
         if last.Some? then Some(last.value.kind) else None,
         if shown then Some(Buffer(parse, evs, c)) else None)
  }

  lemma {:induction false} UnopenedEmpty(parse: Parser, evs: seq<Event>, c: Text)
    requires OpeningName(parse, evs, c).None?
    ensures Buffer(parse, evs, c) == []
    decreases |evs|
  {
    hide EffectOf;
    if evs != [] { UnopenedEmpty(parse, evs[..|evs| - 1], c); }
  }

  lemma {:induction false} ExpectedStep(parse: Parser, before: seq<Event>, ev: Event, c: Text)
    ensures var e := EffectOf(parse, ev);
            Expected(parse, before + [ev], c)
              == if OwnerAfter(parse, before, e) == Some(c) then Apply(e, Expected(parse, before, c))
                else Expected(parse, before, c)
  {
    hide EffectOf;
    var evs := before + [ev];
    assert evs[..|evs| - 1] == before && evs[|evs| - 1] == ev;
    if OpeningName(parse, before, c).None? { UnopenedEmpty(parse, before, c); }
    var buffer := Buffer(parse, before, c);
    assert buffer + [] == buffer;
  }

  lemma {:induction false} HeldStep(parse: Parser, s: State, before: seq<Event>, ev: Event, c: Text)
    requires !s.completed && s.lastTool == LastItem(parse, before) && !Terminal(parse, ev)
    ensures var t, e := Translate(parse, s, ev).s, EffectOf(parse, ev);
            && !t.completed && t.lastTool == LastItem(parse, before + [ev])
            && HeldFor(t, c) == if OwnerAfter(parse, before, e) == Some(c) then Apply(e, HeldFor(s, c))
                 else HeldFor(s, c)
  {
    hide MapEvent, EffectOf, IsFailure;
    var evs := before + [ev];
    assert evs[..|evs| - 1] == before && evs[|evs| - 1] == ev;
    if EffectOf(parse, ev).Nothing? {
      QuietStep(parse, s, ev);
    } else if EffectOf(parse, ev).Item? {
      ItemStep(parse, s, ev, c);
    } else {
      FragmentStep(parse, s, ev, c);
    }
  }

  ghost predicate StartsNamed(parse: Parser, out: seq<Sse>, evs: seq<Event>) {
    forall e | e in out && e.Start? && e.block.ToolUseStart? ::
      OpeningName(parse, evs, e.block.callId) == Some(e.block.name)
  }

  ghost predicate Named(parse: Parser, t: Step, evs: seq<Event>) {
    && !t.s.completed && t.s.lastTool == LastItem(parse, evs)
    && (forall c :: HeldFor(t.s, c) == Expected(parse, evs, c))
    && StartsNamed(parse, t.out, evs)
  }

  lemma {:induction false} OpeningKept(parse: Parser, before: seq<Event>, ev: Event, c: Text)
    ensures OpeningName(parse, before, c).Some?
      ==> OpeningName(parse, before + [ev], c) == OpeningName(parse, before, c)
    ensures var e := EffectOf(parse, ev);
            OpeningName(parse, before, c).None? && OwnerAfter(parse, before, e) == Some(c)
            ==> OpeningName(parse, before + [ev], c) == Some(if e.Item? then e.tc.name else [])
  {
    hide EffectOf;
    var evs := before + [ev];
    assert evs[..|evs| - 1] == before && evs[|evs| - 1] == ev;
  }

  lemma {:induction false} StartsStep(parse: Parser, t: Step, before: seq<Event>, ev: Event)
    requires Named(parse, t, before) && !Terminal(parse, ev)
    ensures StartsNamed(parse, t.out + Translate(parse, t.s, ev).out, before + [ev])
  {
    var more, all := Translate(parse, t.s, ev).out, before + [ev];
    if EffectOf(parse, ev).Nothing? {
      QuietStartsNoTool(parse, t.s, ev);
    } else {
      OwnerStarts(parse, t.s, ev);
    }
    hide MapEvent, EffectOf, Terminal, OpeningName, LastItem, OwnerAfter;
    forall e | e in t.out + more && e.Start? && e.block.ToolUseStart?
      ensures OpeningName(parse, all, e.block.callId) == Some(e.block.name)
    {
      OpeningKept(parse, before, ev, e.block.callId);
      if e !in t.out { StartIsNamed(parse, t, before, ev, e); }
    }
  }

  lemma {:induction false} StartIsNamed(parse: Parser, t: Step, before: seq<Event>, ev: Event, e: Sse)
    requires Named(parse, t, before) && !Terminal(parse, ev)
    requires e in Translate(parse, t.s, ev).out && e.Start? && e.block.ToolUseStart?
    ensures OpeningName(parse, before + [ev], e.block.callId) == Some(e.block.name)
  {
    hide MapEvent, EffectOf, Terminal, OpeningName, LastItem;
    if EffectOf(parse, ev).Nothing? {
      QuietStartsNoTool(parse, t.s, ev);
    } else {
      OwnerStarts(parse, t.s, ev);
      OpeningKept(parse, before, ev, e.block.callId);
      assert HeldFor(t.s, e.block.callId) == Expected(parse, before, e.block.callId);
    }
  }

  /** The arguments of some open call are not an object. */
  ghost predicate Unfinishable(parse: Parser, evs: seq<Event>) {
    exists c :: OpeningName(parse, evs, c).Some? && FinalInput(parse, evs, c).None?
  }

  /** The events end the stream: one is a backend failure, or a completion that can be finished. */
  ghost predicate Over(parse: Parser, evs: seq<Event>) {
    evs != [] &&
    var before, ev := evs[..|evs| - 1], evs[|evs| - 1];
    || Over(parse, before)
    || IsFailure(parse, ev)
    || (ev.name == "response.completed" && !Unfinishable(parse, before))
  }

  lemma {:induction false} NotOver(parse: Parser, evs: seq<Event>)
    requires forall ev | ev in evs :: !Terminal(parse, ev)
    ensures !Over(parse, evs)
    decreases |evs|
  {
    hide IsFailure, Unfinishable;
    if evs != [] {
      assert evs[|evs| - 1] in evs && forall ev | ev in evs[..|evs| - 1] :: ev in evs;
      NotOver(parse, evs[..|evs| - 1]);
    }
  }

  /** After any events that do not end the stream, completions that failed included. */
  lemma {:induction false} RunNamed(parse: Parser, schema: Json, contextManagement: Json, evs: seq<Event>)
    requires !Over(parse, evs)
    ensures Named(parse, Stream(parse, schema, contextManagement, evs), evs)
    decreases |evs|
  {
    hide MapEvent, EffectOf, Translate, Buffer, Named, Unfinishable, IsFailure;
    if evs == [] {
      NothingNamed(parse, schema, contextManagement);
    } else {
      var before, ev := evs[..|evs| - 1], evs[|evs| - 1];
      assert evs == before + [ev];
      RunNamed(parse, schema, contextManagement, before);
      var t := Stream(parse, schema, contextManagement, before);
      StreamSnoc(parse, schema, contextManagement, before, ev);
      hide Stream;
      if Terminal(parse, ev) { FailedNamed(parse, t, before, ev); } else { StepNamed(parse, t, before, ev); }
    }
  }

  lemma {:induction false} NothingNamed(parse: Parser, schema: Json, contextManagement: Json)
    ensures Named(parse, Stream(parse, schema, contextManagement, []), [])
  {
  }

  lemma {:induction false} StepNamed(parse: Parser, t: Step, before: seq<Event>, ev: Event)
    requires Named(parse, t, before) && !Terminal(parse, ev)
    ensures var last := Translate(parse, t.s, ev); Named(parse, Step(last.s, t.out + last.out), before + [ev])
  {
    hide MapEvent, Terminal, EffectOf, Translate, Buffer, StartsNamed;
    StartsStep(parse, t, before, ev);
    forall c ensures HeldFor(Translate(parse, t.s, ev).s, c) == Expected(parse, before + [ev], c) {
      HeldStep(parse, t.s, before, ev, c);
      ExpectedStep(parse, before, ev, c);
    }
    HeldStep(parse, t.s, before, ev, []);
  }

  /** A completion that fails changes nothing about the calls. */
  lemma {:induction false} FailedNamed(parse: Parser, t: Step, before: seq<Event>, ev: Event)
    requires Named(parse, t, before) && ev.name == "response.completed" && Unfinishable(parse, before)
    ensures var last := Translate(parse, t.s, ev); Named(parse, Step(last.s, t.out + last.out), before + [ev])
  {
    hide Translate, EffectOf, Buffer, StartsNamed, Unfinishable, Expected, HeldFor;
    var last := Translate(parse, t.s, ev);
    FailureKeepsCalls(parse, t, before, ev);
    CompletedHasNoEffect(parse, ev);
    forall c ensures HeldFor(last.s, c) == Expected(parse, before + [ev], c) {
      SameHeld(t.s, last.s, c);
      ExpectedStep(parse, before, ev, c);
    }
    LastItemKept(parse, before, ev);
    StartsKept(parse, t.out, last.out, before, ev);
  }

  lemma {:induction false} SameHeld(s: State, t: State, c: Text)
    requires CallsUntouched(s, t)
    ensures HeldFor(t, c) == HeldFor(s, c)
  {
  }

  lemma {:induction false} LastItemKept(parse: Parser, before: seq<Event>, ev: Event)
    requires EffectOf(parse, ev).Nothing?
    ensures LastItem(parse, before + [ev]) == LastItem(parse, before)
  {
    hide EffectOf;
    var evs := before + [ev];
    assert evs[..|evs| - 1] == before && evs[|evs| - 1] == ev;
  }

  lemma {:induction false} StartsKept(parse: Parser, out: seq<Sse>, more: seq<Sse>, before: seq<Event>, ev: Event)
    requires StartsNamed(parse, out, before) && more == [Error(BadArguments)]
    ensures StartsNamed(parse, out + more, before + [ev])
  {
    hide OpeningName;
    forall e | e in out + more && e.Start? && e.block.ToolUseStart?
      ensures OpeningName(parse, before + [ev], e.block.callId) == Some(e.block.name)
    {
      OpeningKept(parse, before, ev, e.block.callId);
    }
  }

  lemma {:induction false} CompletedHasNoEffect(parse: Parser, ev: Event)
    requires ev.name == "response.completed"
    ensures EffectOf(parse, ev).Nothing?
  {
    CompletedIsNoOther(ev.name);
    hide ItemToolCall, ParseDelta, IsItemEvent, IsArgEvent;
  }

  lemma {:induction false} FailureKeepsCalls(parse: Parser, t: Step, before: seq<Event>, ev: Event)
    requires Named(parse, t, before) && ev.name == "response.completed" && Unfinishable(parse, before)
    ensures var last := Translate(parse, t.s, ev);
            last.out == [Error(BadArguments)] && CallsUntouched(t.s, last.s)
  {
    hide HandleCompleted, Translate, CallInput, EmitSearches, OutputSearches, CompletedOutput, UsageOf, Named;
    hide Unfinishable, CallsUntouched;
    NamedOpen(parse, t, before);
    CompletedMaps(parse, t.s, ev);
    var s1 := Counted(parse, t.s, ev);
    UnfinishableMeans(parse, t, before);
    SameCallInput(parse, t.s, s1);
    CompletedFails(parse, s1, ev.data);
    TornState(parse, s1, ev.data);
    var s2 := RecordUsage(parse, s1, ev.data);
    EmitSearchesUntouched(s2, OutputSearches(CompletedOutput(parse, ev.data), 0));
    CountingUntouched(parse, t.s, ev, EmitSearches(s2, OutputSearches(CompletedOutput(parse, ev.data), 0)).s);
  }

  lemma {:induction false} CountingUntouched(parse: Parser, s: State, ev: Event, t: State)
    requires CallsUntouched(RecordUsage(parse, Counted(parse, s, ev), ev.data), t)
    ensures CallsUntouched(s, t)
  {
    hide SearchesShown, UsageOf;
  }

  lemma {:induction false} EmitSearchesUntouched(s: State, calls: seq<SearchCall>)
    ensures CallsUntouched(s, EmitSearches(s, calls).s)
    decreases |calls|
  {
    hide EmitSearch;
    if calls != [] {
      EmitSearchUntouched(s, calls[0]);
      EmitSearchesUntouched(EmitSearch(s, calls[0]).s, calls[1..]);
    }
  }

  lemma {:induction false} UnfinishableMeans(parse: Parser, t: Step, evs: seq<Event>)
    requires Named(parse, t, evs)
    ensures Unfinishable(parse, evs) <==> exists c :: c in t.s.toolBlocks && CallInput(parse, t.s, c).None?
  {
    hide FinalInput, OpeningName, CallInput, Named;
    forall c
      ensures c in t.s.toolBlocks <==> OpeningName(parse, evs, c).Some?
      ensures c in t.s.toolBlocks ==> CallInput(parse, t.s, c) == FinalInput(parse, evs, c)
    {
      HeldInput(parse, t, evs, c);
    }
  }

  lemma {:induction false} StreamSnoc(parse: Parser, schema: Json, contextManagement: Json, evs: seq<Event>, ev: Event)
    ensures var t := Stream(parse, schema, contextManagement, evs);
            var last := Translate(parse, t.s, ev);
            Stream(parse, schema, contextManagement, evs + [ev]) == Step(last.s, t.out + last.out)
  {
    hide Translate;
    var s0 := NewState(schema, contextManagement);
    RunAppend(parse, s0, evs, [ev]);
    var mid := Run(parse, s0, evs).s;
    var last := Translate(parse, mid, ev);
    assert [ev][1..] == [];
    assert Run(parse, last.s, []) == Step(last.s, []);
    assert Run(parse, mid, [ev]) == Step(last.s, last.out + []);
    assert last.out + [] == last.out;
  }

  // ----- completion -----

  predicate SameCallData(s: State, t: State) {
    && t.toolBlocks == s.toolBlocks && t.toolNames == s.toolNames && t.toolKinds == s.toolKinds
    && t.toolArgs == s.toolArgs
  }

  lemma {:induction false} SearchesKeepCalls(s: State, calls: seq<SearchCall>)
    ensures SameCallData(s, EmitSearches(s, calls).s) && NoToolStart(EmitSearches(s, calls).out)
    decreases |calls|
  {
    if calls != [] { SearchesKeepCalls(EmitSearch(s, calls[0]).s, calls[1..]); }
  }

  lemma {:induction false} SameCallInput(parse: Parser, s: State, t: State)
    requires SameCallData(s, t)
    ensures forall c :: CallInput(parse, t, c) == CallInput(parse, s, c)
  {
  }

  lemma {:induction false} HeldInput(parse: Parser, t: Step, evs: seq<Event>, c: Text)
    requires Named(parse, t, evs)
    ensures c in t.s.toolBlocks <==> OpeningName(parse, evs, c).Some?
    ensures c in t.s.toolBlocks ==> CallInput(parse, t.s, c) == FinalInput(parse, evs, c)
  {
    hide EffectOf, Sanitized, OpeningName, LastItemOf, Buffer;
    var h := HeldFor(t.s, c);
    assert h == Expected(parse, evs, c);
  }

  /** A stream has ended exactly when its events say so. */
  lemma {:induction false} StreamEndsExactly(parse: Parser, schema: Json, contextManagement: Json, evs: seq<Event>)
    ensures Stream(parse, schema, contextManagement, evs).s.completed <==> Over(parse, evs)
    decreases |evs|
  {
    hide Stream, Translate, IsFailure, Unfinishable, Named;
    if Over(parse, evs) {
      var before, ev := evs[..|evs| - 1], evs[|evs| - 1];
      assert evs == before + [ev];
      StreamEndsExactly(parse, schema, contextManagement, before);
      StreamSnoc(parse, schema, contextManagement, before, ev);
      var t := Stream(parse, schema, contextManagement, before);
      if t.s.completed {
        StaysCompleted(parse, t.s, ev);
      } else if IsFailure(parse, ev) {
        FailureEnds(parse, t.s, ev);
      } else {
        RunNamed(parse, schema, contextManagement, before);
        CompletionEnds(parse, t, before, ev);
      }
    } else {
      RunNamed(parse, schema, contextManagement, evs);
      NamedOpen(parse, Stream(parse, schema, contextManagement, evs), evs);
    }
  }

  lemma {:induction false} StaysCompleted(parse: Parser, s: State, ev: Event)
    requires s.completed
    ensures Translate(parse, s, ev) == Step(s, [])
  {
  }

  lemma {:induction false} FailureEnds(parse: Parser, s: State, ev: Event)
    requires IsFailure(parse, ev) && !s.completed
    ensures Translate(parse, s, ev).s.completed
  {
    hide IsFailure, HandleTextDelta, HandleItem, HandleSearchEvent, HandleArgDelta, HandleReasoning, HandleCompleted;
  }

  lemma {:induction false} CompletionEnds(parse: Parser, t: Step, before: seq<Event>, ev: Event)
    requires Named(parse, t, before) && ev.name == "response.completed" && !Unfinishable(parse, before)
    ensures Translate(parse, t.s, ev).s.completed
  {
    hide HandleCompleted, Translate, CallInput, EmitSearches, OutputSearches, CompletedOutput, Named, Unfinishable;
    hide Counted, RecordUsage, Finalize, SameAnswer, FinishCall, InputDeltas, CallOrder;
    NamedOpen(parse, t, before);
    CompletedMaps(parse, t.s, ev);
    var s1 := Counted(parse, t.s, ev);
    UnfinishableMeans(parse, t, before);
    SameCallInput(parse, t.s, s1);
    CompletedFinishes(parse, s1, ev.data);
  }

  lemma {:induction false} CompletedFinishes(parse: Parser, s: State, data: Text)
    requires !exists c :: c in s.toolBlocks && CallInput(parse, s, c).None?
    ensures HandleCompleted(parse, s, data).s.completed
  {
    hide CallInput, OutputSearches, CompletedOutput, UsageOf, Finalize, EmitSearches, InputDeltas, SameAnswer;
    var s1 := RecordUsage(parse, s, data);
    var calls := OutputSearches(CompletedOutput(parse, data), 0);
    var searched := EmitSearches(s1, calls);
    SearchesKeepCalls(s1, calls);
    SameCallInput(parse, s, searched.s);
    FinalizeKeeps(parse, searched.s);
  }

  /** When completion fails, after any events: exactly when the stream has not ended and the arguments held
      for some open call are not an object. */
  lemma {:induction false} CompletionFailsExactly(parse: Parser, schema: Json, contextManagement: Json,
                                                  evs: seq<Event>, ev: Event)
    requires ev.name == "response.completed"
    ensures var s := Stream(parse, schema, contextManagement, evs).s;
            Translate(parse, s, ev).out == [Error(BadArguments)]
            <==> !Over(parse, evs) && Unfinishable(parse, evs)
  {
    var t := Stream(parse, schema, contextManagement, evs);
    hide Stream, Unfinishable, CallInput, Named, HandleCompleted, Translate, Counted;
    StreamEndsExactly(parse, schema, contextManagement, evs);
    if t.s.completed {
      StaysCompleted(parse, t.s, ev);
    } else {
      RunNamed(parse, schema, contextManagement, evs);
      CompletedMaps(parse, t.s, ev);
      CompletedFails(parse, Counted(parse, t.s, ev), ev.data);
      SameCallInput(parse, t.s, Counted(parse, t.s, ev));
      UnfinishableMeans(parse, t, evs);
    }
  }

  /** The state that completion starts from. */
  function Counted(parse: Parser, s: State, ev: Event): State {
    s.(completedSearches := s.completedSearches + SearchesShown(parse, ev))
  }

  lemma {:induction false} CompletedIsNoOther(name: string)
    requires name == "response.completed"
    ensures name != "response.output_text.delta" && !IsItemEvent(name) && name != "response.web_search_call.completed"
    ensures !IsArgEvent(name)
    ensures name != "response.reasoning_text.delta" && name != "response.reasoning_summary_text.delta"
  {
    assert |name| == 18;
    assert |"response.output_text.delta"| == 26 && |"response.web_search_call.completed"| == 34;
    assert |"response.output_item.added"| == 26 && |"response.output_item.done"| == 25;
    assert |"response.function_call_arguments.delta"| == 38 && |"response.custom_tool_call_input.delta"| == 37;
    assert |"response.reasoning_text.delta"| == 29 && |"response.reasoning_summary_text.delta"| == 37;
  }

  lemma {:induction false} CompletedMaps(parse: Parser, s: State, ev: Event)
    requires ev.name == "response.completed" && !s.completed
    ensures Translate(parse, s, ev) == HandleCompleted(parse, Counted(parse, s, ev), ev.data)
    ensures SameCallData(s, Counted(parse, s, ev))
  {
    hide HandleTextDelta, HandleItem, HandleSearchEvent;
    hide HandleArgDelta, HandleReasoning, HandleCompleted, SearchesShown;
    hide IsFailure, IsItemEvent;
    CompletedName(parse, ev);
    CompletedIsNoOther(ev.name);
  }

  lemma {:induction false} NamedOpen(parse: Parser, t: Step, evs: seq<Event>)
    requires Named(parse, t, evs)
    ensures !t.s.completed
  {
  }

  lemma {:induction false} CompletedName(parse: Parser, ev: Event)
    requires ev.name == "response.completed"
    ensures !IsFailure(parse, ev)
  {
    assert |"response.completed"| == 18 && |"error"| == 5 && |"response.failed"| == 15;
  }

  lemma {:induction false} CompletedFails(parse: Parser, s: State, data: Text)
    ensures HandleCompleted(parse, s, data).out == [Error(BadArguments)]
      <==> exists c :: c in s.toolBlocks && CallInput(parse, s, c).None?
  {
    hide CallInput, OutputSearches, CompletedOutput, UsageOf, Finalize, EmitSearches, InputDeltas;
    var s1 := RecordUsage(parse, s, data);
    var calls := OutputSearches(CompletedOutput(parse, data), 0);
    var searched := EmitSearches(s1, calls);
    SearchesKeepCalls(s1, calls);
    SameCallInput(parse, s, searched.s);
    var order := CallOrder(searched.s.toolBlocks);
    var inputs := InputDeltas(parse, searched.s, order);
    if inputs.Some? {
      FinalizeEnds(parse, searched.s);
      var out := HandleCompleted(parse, s, data).out;
      var end := Finalize(parse, searched.s).out;
      assert out[|out| - 1] == end[|end| - 1];
    }
  }

  lemma {:induction false} FinalizeEnds(parse: Parser, s: State)
    ensures var out := Finalize(parse, s).out; |out| > 0 && out[|out| - 1].MessageStop?
    ensures NoToolStart(Finalize(parse, s).out) && SameCallData(s, Finalize(parse, s).s)
  {
    FinalizeShape(parse, s);
    FinalizeKeeps(parse, s);
    FlushStartsNoTool(parse, s.(completed := true));
    StopsSilent(FlushStructured(parse, s.(completed := true)).s.blocks);
    hide Finalize, FlushStructured, StopsOf;
  }

  lemma {:induction false} FlushStartsNoTool(parse: Parser, s: State)
    ensures NoToolStart(FlushStructured(parse, s).out)
  {
    hide Cleanup, Blank;
  }

  // ----- names -----

  /** The events before the first that ends the stream. */
  function BeforeEnd(parse: Parser, evs: seq<Event>): (r: seq<Event>)
    ensures r <= evs && (forall ev | ev in r :: !Terminal(parse, ev))
    ensures |r| < |evs| ==> Terminal(parse, evs[|r|])
  {
    if evs == [] || Terminal(parse, evs[0]) then [] else [evs[0]] + BeforeEnd(parse, evs[1..])
  }

  lemma {:induction false} CompletedKeeps(parse: Parser, s: State, data: Text)
    requires ErrorFree(HandleCompleted(parse, s, data).out)
    ensures var t := HandleCompleted(parse, s, data);
            t.s.completed && SameCallData(s, t.s) && NoToolStart(t.out)
  {
    hide CallInput, OutputSearches, CompletedOutput, UsageOf;
    hide Finalize, EmitSearches, InputDeltas, CallOrder, SameAnswer;
    var s1 := RecordUsage(parse, s, data);
    var calls := OutputSearches(CompletedOutput(parse, data), 0);
    var searched := EmitSearches(s1, calls);
    SearchesKeepCalls(s1, calls);
    var order := CallOrder(searched.s.toolBlocks);
    assert InputDeltas(parse, searched.s, order).None? ==> Error(BadArguments) in HandleCompleted(parse, s, data).out;
    FinalizeEnds(parse, searched.s);
    FinalizeKeeps(parse, searched.s);
  }

  /** A stream that completes without error ends at its first terminal event, which is the completion. */
  lemma {:induction false} EndsAtCompletion(parse: Parser, schema: Json, contextManagement: Json, evs: seq<Event>)
    requires Stream(parse, schema, contextManagement, evs).s.completed
    requires ErrorFree(Stream(parse, schema, contextManagement, evs).out)
    ensures var seen := BeforeEnd(parse, evs);
            var before, all := Stream(parse, schema, contextManagement, seen),
              Stream(parse, schema, contextManagement, evs);
            && SameCallData(before.s, all.s)
            && exists more :: all.out == before.out + more && NoToolStart(more)
  {
    hide MapEvent, BeforeEnd, NoToolStart, Named, Translate, IsFailure;
    var seen := BeforeEnd(parse, evs);
    var before, all := Stream(parse, schema, contextManagement, seen), Stream(parse, schema, contextManagement, evs);
    NotOver(parse, seen);
    RunNamed(parse, schema, contextManagement, seen);
    NamedOpen(parse, before, seen);
    assert seen <= evs && (|seen| == |evs| ==> seen == evs);
    var ev := evs[|seen|];
    assert evs == seen + [ev] + evs[|seen| + 1..];
    var s0 := NewState(schema, contextManagement);
    RunAppend(parse, s0, seen + [ev], evs[|seen| + 1..]);
    StreamSnoc(parse, schema, contextManagement, seen, ev);
    var last := Translate(parse, before.s, ev);
    var rest := Run(parse, last.s, evs[|seen| + 1..]);
    assert all.out == before.out + last.out + rest.out;
    assert ErrorFree(last.out);
    LastEvent(parse, before.s, ev);
    CompletedRun(parse, last.s, evs[|seen| + 1..]);
    assert all.out == before.out + last.out;
  }

  lemma {:induction false} LastEvent(parse: Parser, s: State, ev: Event)
    requires !s.completed && Terminal(parse, ev) && ErrorFree(Translate(parse, s, ev).out)
    ensures var t := Translate(parse, s, ev); t.s.completed && SameCallData(s, t.s) && NoToolStart(t.out)
  {
    hide MapEvent, HandleCompleted, NoToolStart, Counted;
    if IsFailure(parse, ev) {
      FailureErrs(parse, s, ev);
    } else {
      hide IsFailure;
      CompletedMaps(parse, s, ev);
      CompletedKeeps(parse, Counted(parse, s, ev), ev.data);
    }
  }

  lemma {:induction false} FailureErrs(parse: Parser, s: State, ev: Event)
    requires IsFailure(parse, ev)
    ensures !ErrorFree(MapEvent(parse, s, ev).out)
  {
    NotErrorFree(MapEvent(parse, s, ev).out);
  }

  lemma {:induction false} UnaryNamed(parse: Parser, s: State, b: ContentBlock)
    requires b in UnaryCalls(UnaryOf(parse, s).content) && (Blank(s.final) ==> s.final == [])
    ensures b.ToolUseBlock? && b.callId in s.toolBlocks
      && b.name == (if b.callId in s.toolNames then s.toolNames[b.callId] else [])
  {
    hide Cleanup, CallInput, Blank;
    UnaryRead(parse, s);
    hide UnaryOf, UnaryCalls;
    var order := CallOrder(s.toolBlocks);
    var i :| 0 <= i < |order| && ToolUses(parse, s, order)[i] == b;
    assert order[i] in order;
  }

  /** The streamed block of a call carries the name in the event that opened it, the unary block the name
      in the call's last item; so the two agree exactly when those do. */
  lemma {:induction false} NamesAgreeExactly(parse: Parser, schema: Json, contextManagement: Json, evs: seq<Event>,
                                             e: Sse, b: ContentBlock)
    requires Stream(parse, schema, contextManagement, evs).s.completed
    requires ErrorFree(Stream(parse, schema, contextManagement, evs).out)
    requires e in Stream(parse, schema, contextManagement, evs).out && e.Start? && e.block.ToolUseStart?
    requires b in UnaryCalls(BuildUnary(parse, schema, evs).content)
    ensures var seen := BeforeEnd(parse, evs);
            && OpeningName(parse, seen, e.block.callId) == Some(e.block.name)
            && b.ToolUseBlock? && b.name == LastName(parse, seen, b.callId)
            && (e.block.callId == b.callId ==>
                 (e.block.name == b.name
                  <==> OpeningName(parse, seen, b.callId) == Some(LastName(parse, seen, b.callId))))
  {
    var seen := BeforeEnd(parse, evs);
    var before, all := Stream(parse, schema, contextManagement, seen), Stream(parse, schema, contextManagement, evs);
    EndsAtCompletion(parse, schema, contextManagement, evs);
    NotOver(parse, seen);
    RunNamed(parse, schema, contextManagement, seen);
    UnaryFromStream(parse, schema, contextManagement, evs);
    StreamSettled(parse, schema, contextManagement, evs);
    UnaryNamed(parse, all.s, b);
    hide Stream, BuildUnary, UnaryOf, UnaryCalls, BeforeEnd, EffectOf, OpeningName, LastItemOf, Buffer;
    assert HeldFor(before.s, b.callId) == Expected(parse, seen, b.callId);
  }

  lemma {:induction false} StreamSettled(parse: Parser, schema: Json, contextManagement: Json, evs: seq<Event>)
    requires Stream(parse, schema, contextManagement, evs).s.completed
    requires ErrorFree(Stream(parse, schema, contextManagement, evs).out)
    ensures var s := Stream(parse, schema, contextManagement, evs).s; Blank(s.final) ==> s.final == []
  {
    var s0 := NewState(schema, contextManagement);
    FreshAgrees(schema, contextManagement);
    var t := Stream(parse, schema, contextManagement, evs);
    RunSettles(parse, s0, [], evs);
    assert [] + t.out == t.out;
  }

  // ----- an event list where something follows the error -----

  /** Arguments that are no object, a completion that shows a search, and a text delta. */
  function AfterErrorEvents(c: Text, text: Text): seq<Event> {
    [Event("response.function_call_arguments.delta", Encode(Fragment(c))),
      Event("response.completed", Encode(ShowsSearch())),
     Event("response.output_text.delta", Encode(Obj(map["delta" := Str(text)])))]
  }

  function Fragment(c: Text): Json {
    Obj(map["call_id" := Str(c), "delta" := Str(Encode(Null))])
  }

  function ShowsSearch(): Json {
    Obj(map["response" := Obj(map["output" := Arr([Obj(SearchItem())])])])
  }

  function SearchItem(): Fields {
    map["type" := Str(Lit("web_search_call")), "id" := Str(Lit("s"))]
  }

  lemma {:induction false} FragmentOpens(parse: Parser, c: Text)
    ensures var t := Translate(parse, NewState(Null, Null), AfterErrorEvents(c, [])[0]);
            && t.out == [Start(0, ToolUseStart(c, []))] && !t.s.completed && t.s.schema == Null && t.s.nextIndex == 1
            && t.s.activeText == None && t.s.toolBlocks == map[c := 0] && ArgsAt(t.s, c) == Encode(Null)
            && t.s.toolNames == map[] && t.s.toolKinds == map[] && t.s.emittedSearches == {}
  {
    var data := Encode(Fragment(c));
    assert data[0] == Enc(Fragment(c)) && !Blank(data);
    assert ParseDelta(parse, data) == Delta(Some(c), Encode(Null));
    assert [] + Encode(Null) == Encode(Null);
    hide ParseDelta;
  }

  lemma {:induction false} SearchIsShown(parse: Parser)
    ensures var data := Encode(ShowsSearch());
            OutputSearches(CompletedOutput(parse, data), 0) == [MakeSearch(Lit("s"), SearchItem())]
  {
    var data := Encode(ShowsSearch());
    assert data[0] == Enc(ShowsSearch()) && !Blank(data);
    var items := [Obj(SearchItem())];
    assert CompletedOutput(parse, data) == items;
    assert |Lit("s")| == 1;
    assert ItemSearchId(SearchItem(), "response_output_" + Decimal(0)) == Some(Lit("s"));
    hide MakeSearch, ItemSearchId;
    assert OutputSearches(items, 1) == [];
  }

  lemma {:induction false} NullInput(parse: Parser, s: State, c: Text)
    requires ArgsAt(s, c) == Encode(Null) && c !in s.toolKinds
    ensures CallInput(parse, s, c).None?
  {
    var t := Encode(Null);
    assert t[0] == Enc(Null) && !Blank(t) && Trim(t) == t;
  }

  lemma {:induction false} CompletionTears(parse: Parser, s: State, c: Text)
    requires !s.completed && s.schema == Null && s.nextIndex == 1 && s.activeText == None && s.toolBlocks == map[c := 0]
    requires ArgsAt(s, c) == Encode(Null) && s.toolKinds == map[] && s.emittedSearches == {}
    ensures var t := Translate(parse, s, AfterErrorEvents(c, [])[1]);
            && t.out == [Error(BadArguments)] && !t.s.completed && t.s.schema == Null && t.s.nextIndex == 3
            && t.s.activeText == None
  {
    var ev := AfterErrorEvents(c, [])[1];
    assert ev == Event("response.completed", Encode(ShowsSearch()));
    hide Translate, AfterErrorEvents, ShowsSearch, SearchItem, MakeSearch, CallInput, HandleCompleted, EmitSearches;
    SearchIsShown(parse);
    CompletedMaps(parse, s, ev);
    NullInput(parse, s, c);
    SameCallInput(parse, s, Counted(parse, s, ev));
    assert c in s.toolBlocks;
    TearsAt(parse, Counted(parse, s, ev), ev.data, c, MakeSearch(Lit("s"), SearchItem()));
  }

  lemma {:induction false} TearsAt(parse: Parser, s: State, data: Text, c: Text, call: SearchCall)
    requires c in s.toolBlocks && CallInput(parse, s, c).None? && s.emittedSearches == {}
    requires OutputSearches(CompletedOutput(parse, data), 0) == [call]
    ensures var t := HandleCompleted(parse, s, data);
            && t.out == [Error(BadArguments)] && t.s.nextIndex == s.nextIndex + 2
            && t.s.completed == s.completed && t.s.schema == s.schema && t.s.activeText == s.activeText
  {
    hide OutputSearches, CompletedOutput, UsageOf, CallInput, HandleCompleted, EmitSearches;
    CompletedFails(parse, s, data);
    TornState(parse, s, data);
    OneSearch(RecordUsage(parse, s, data), call);
  }

  lemma {:induction false} OneSearch(s: State, call: SearchCall)
    requires s.emittedSearches == {}
    ensures var t := EmitSearches(s, [call]).s;
            && t.nextIndex == s.nextIndex + 2 && t.completed == s.completed && t.schema == s.schema
            && t.activeText == s.activeText
  {
    assert [call][1..] == [];
    assert EmitSearches(s, [call]).s == EmitSearch(s, call).s;
  }

  /** When completion fails the state is as the searches left it. */
  lemma {:induction false} TornState(parse: Parser, s: State, data: Text)
    requires exists c :: c in s.toolBlocks && CallInput(parse, s, c).None?
    ensures HandleCompleted(parse, s, data).s
      == EmitSearches(RecordUsage(parse, s, data), OutputSearches(CompletedOutput(parse, data), 0)).s
  {
    hide CallInput, OutputSearches, CompletedOutput, UsageOf, Finalize, EmitSearches, InputDeltas;
    var s1, calls := RecordUsage(parse, s, data), OutputSearches(CompletedOutput(parse, data), 0);
    SearchesKeepCalls(s1, calls);
    SameCallInput(parse, s, EmitSearches(s1, calls).s);
  }

  lemma {:induction false} TextFollows(parse: Parser, s: State, c: Text, text: Text)
    requires !s.completed && s.schema == Null && s.nextIndex == 3 && s.activeText == None && !Blank(text)
    ensures Translate(parse, s, AfterErrorEvents(c, text)[2]).out == [Start(3, TextStart), TextDelta(3, text)]
  {
    var m := map["delta" := Str(text)];
    FlatDelta(parse, m, text);
    hide DeltaText, Concat, Blank, HandleTextDelta;
    assert AfterErrorEvents(c, text)[2].data == Encode(Obj(m));
    var searches := s.completedSearches + SearchesShown(parse, AfterErrorEvents(c, text)[2]);
    TextOpensThird(parse, s.(completedSearches := searches), Encode(Obj(m)), text);
  }

  lemma {:induction false} TextOpensThird(parse: Parser, s: State, data: Text, text: Text)
    requires DeltaText(parse, data) == Some(text) && !Blank(text)
    requires s.schema == Null && s.nextIndex == 3 && s.activeText == None
    ensures HandleTextDelta(parse, s, data).out == [Start(3, TextStart), TextDelta(3, text)]
  {
    hide DeltaText, Concat, Blank;
  }

  lemma {:induction false} NoEvents(parse: Parser)
    ensures Stream(parse, Null, Null, []) == Step(NewState(Null, Null), [])
  {
  }

  /** The bridge goes on after a bad-arguments error: text follows it, under an index that skips the blocks
      of the search that was swallowed with the error. */
  lemma {:induction false} TextAfterError(parse: Parser, c: Text, text: Text)
    requires !Blank(text)
    ensures Stream(parse, Null, Null, AfterErrorEvents(c, text)).out
      == [Start(0, ToolUseStart(c, [])), Error(BadArguments), Start(3, TextStart), TextDelta(3, text)]
  {
    var evs := AfterErrorEvents(c, text);
    FragmentOpens(parse, c);
    var first := Translate(parse, NewState(Null, Null), evs[0]);
    CompletionTears(parse, first.s, c);
    var second := Translate(parse, first.s, evs[1]);
    TextFollows(parse, second.s, c, text);
    hide Translate, NewState, AfterErrorEvents, Stream;
    ThreeEvents(parse, evs);
  }

  lemma {:induction false} ThreeEvents(parse: Parser, evs: seq<Event>)
    requires |evs| == 3
    ensures var first := Translate(parse, NewState(Null, Null), evs[0]);
            var second := Translate(parse, first.s, evs[1]);
            Stream(parse, Null, Null, evs).out == first.out + second.out + Translate(parse, second.s, evs[2]).out
  {
    hide Translate, NewState, Stream;
    assert [evs[0]] + [evs[1]] + [evs[2]] == evs;
    NoEvents(parse);
    StreamSnoc(parse, Null, Null, [], evs[0]);
    StreamSnoc(parse, Null, Null, [evs[0]], evs[1]);
    StreamSnoc(parse, Null, Null, [evs[0]] + [evs[1]], evs[2]);
    var first := Translate(parse, NewState(Null, Null), evs[0]);
    assert [] + [evs[0]] == [evs[0]] && [] + first.out == first.out;
  }
}

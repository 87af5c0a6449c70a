/** Interleaved tool calls do not interfere: what the bridge holds for one call is decided by that
    call's own events. */
module BridgeCalls {
  import opened Json
  import opened ToolCalls
  import opened Bridge

  predicate IsArgEvent(name: string) {
    name == "response.function_call_arguments.delta" || name == "response.custom_tool_call_input.delta"
  }

  predicate Terminal(parse: Parser, ev: Event) {
    IsFailure(parse, ev) || ev.name == "response.completed"
  }

  /** What an event does to tool calls. A fragment without a call id belongs to the last item's call. */
  datatype Effect = Nothing | Item(tc: ToolCall, done: bool) | Fragment(callId: Option<Text>, delta: Text)

  function EffectOf(parse: Parser, ev: Event): Effect {
    if IsItemEvent(ev.name) && ItemToolCall(parse, ev.data).Some? then
      Item(ItemToolCall(parse, ev.data).value, ev.name == "response.output_item.done")
    else if IsArgEvent(ev.name) && ParseDelta(parse, ev.data).Delta? then
      Fragment(ParseDelta(parse, ev.data).callId, ParseDelta(parse, ev.data).delta)
    else Nothing
  }

  /** All the bridge holds for one call. */
  datatype Held = Held(open: bool, name: Option<Text>, kind: Option<Kind>, args: Option<Text>)

  function At<V>(m: map<Text, V>, c: Text): Option<V> {
    if c in m then Some(m[c]) else None
  }

  function HeldFor(s: State, c: Text): Held {
    Held(c in s.toolBlocks, At(s.toolNames, c), At(s.toolKinds, c), At(s.toolArgs, c))
  }

  function Owner(e: Effect): Option<Text> {
    match e
    case Nothing => None
    case Item(tc, _) => Some(tc.callId)
    case Fragment(callId, _) => callId
  }

  /** The effect of an event on its own call. */
  function Apply(e: Effect, h: Held): Held {
    var args := if h.args.Some? then h.args.value else [];
    match e
    case Nothing => h
    case Item(tc, done) => Held(true, Some(tc.name), Some(tc.kind), if done then Some(tc.arguments)
      else if h.open then h.args else Some(args))
    case Fragment(_, delta) => h.(open := true, args := Some(args + delta))
  }

  // ----- one step -----

  ghost predicate CallsUntouched(s: State, t: State) {
    && t.toolBlocks == s.toolBlocks && t.toolNames == s.toolNames && t.toolKinds == s.toolKinds
    && t.toolArgs == s.toolArgs && t.lastTool == s.lastTool && t.completed == s.completed
  }

  lemma {:induction false} EmitTextsUntouched(s: State, texts: seq<Text>)
    ensures CallsUntouched(s, EmitTexts(s, texts).s)
  {
    hide TextDeltas, Concat;
    assert CallsUntouched(s, OpenText(s));
    hide OpenText;
  }

  lemma {:induction false} TextsUntouched(parse: Parser, s: State, data: Text, item: Fields)
    ensures CallsUntouched(s, HandleTextDelta(parse, s, data).s)
    ensures CallsUntouched(s, HandleMessageItem(s, item).s)
  {
    hide DeltaText, OutputTexts, EmitTexts, Concat, Blank;
    forall texts ensures CallsUntouched(s, EmitTexts(s, texts).s) {
      EmitTextsUntouched(s, texts);
    }
    forall texts ensures CallsUntouched(s, EmitTexts(s.(sawText := true), texts).s) {
      EmitTextsUntouched(s.(sawText := true), texts);
    }
  }

  lemma {:induction false} AddBlockUntouched(s: State)
    ensures CallsUntouched(s, AddBlock(s))
  {
  }

  lemma {:induction false} EmitSearchUntouched(s: State, call: SearchCall)
    ensures CallsUntouched(s, EmitSearch(s, call).s)
  {
    hide AddBlock;
    AddBlockUntouched(s);
    AddBlockUntouched(AddBlock(s));
  }

  lemma {:induction false} SearchesUntouched(parse: Parser, s: State, ev: Event)
    ensures CallsUntouched(s, HandleSearchEvent(parse, s, ev).s)
    ensures ItemToolCall(parse, ev.data).None? ==> CallsUntouched(s, HandleItem(parse, s, ev).s)
  {
    hide ItemToolCall, EventSearchId, ItemSearchId, MakeSearch, HandleMessageItem, DecodeObject, EmitSearch;
    forall call ensures CallsUntouched(s, EmitSearch(s, call).s) {
      EmitSearchUntouched(s, call);
    }
    forall item ensures CallsUntouched(s, HandleMessageItem(s, item).s) {
      TextsUntouched(parse, s, ev.data, item);
    }
  }

  lemma {:induction false} ReasoningUntouched(parse: Parser, s: State, data: Text)
    ensures CallsUntouched(s, HandleReasoning(parse, s, data).s)
  {
    hide ParseDelta, AddBlock;
    AddBlockUntouched(s);
  }

  lemma {:induction false} QuietStep(parse: Parser, s: State, ev: Event)
    requires !Terminal(parse, ev) && EffectOf(parse, ev).Nothing?
    ensures CallsUntouched(s, MapEvent(parse, s, ev).s)
  {
    hide ItemToolCall, SearchesShown, ParseDelta, HandleTextDelta, HandleItem, HandleSearchEvent, HandleReasoning;
    hide IsFailure, HandleCompleted, CallsUntouched;
    var searches := s.completedSearches + SearchesShown(parse, ev);
    var s1 := s.(completedSearches := searches);
    TextsUntouched(parse, s1, ev.data, map[]);
    SearchesUntouched(parse, s1, ev);
    ReasoningUntouched(parse, s1, ev.data);
    CountedUntouched(s, searches, s1);
    CountedUntouched(s, searches, MapEvent(parse, s, ev).s);
  }

  lemma {:induction false} CountedUntouched(s: State, searches: set<Text>, t: State)
    ensures CallsUntouched(s.(completedSearches := searches), t) <==> CallsUntouched(s, t)
    ensures CallsUntouched(s, s)
  {
  }

  lemma {:induction false} ItemStep(parse: Parser, s: State, ev: Event, c: Text)
    requires !Terminal(parse, ev) && EffectOf(parse, ev).Item?
    ensures var e, t := EffectOf(parse, ev), MapEvent(parse, s, ev).s;
            && t.lastTool == Some(e.tc.callId) && t.completed == s.completed
            && HeldFor(t, c) == if c == e.tc.callId then Apply(e, HeldFor(s, c)) else HeldFor(s, c)
  {
    hide ItemToolCall, SearchesShown, HandleToolCall, IsFailure;
    var s1 := s.(completedSearches := s.completedSearches + SearchesShown(parse, ev));
    var e := EffectOf(parse, ev);
    assert MapEvent(parse, s, ev) == HandleToolCall(s1, e.tc, e.done) by { hide HandleTextDelta, HandleArgDelta; }
    ToolCallHeld(s1, e.tc, e.done, c);
  }

  lemma {:induction false} ToolCallHeld(s: State, tc: ToolCall, done: bool, c: Text)
    ensures var t := HandleToolCall(s, tc, done).s;
            && t.lastTool == Some(tc.callId) && t.completed == s.completed
            && HeldFor(t, c) == if c == tc.callId then Apply(Item(tc, done), HeldFor(s, c)) else HeldFor(s, c)
  {
    EnsureToolHeld(s, tc.callId, c);
    hide EnsureTool;
  }

  lemma {:induction false} FragmentStep(parse: Parser, s: State, ev: Event, c: Text)
    requires !Terminal(parse, ev) && EffectOf(parse, ev).Fragment?
    ensures var e, t := EffectOf(parse, ev), MapEvent(parse, s, ev).s;
            var owner := if e.callId.Some? then e.callId else s.lastTool;
            && t.lastTool == s.lastTool && t.completed == s.completed
            && HeldFor(t, c) == if owner == Some(c) then Apply(e, HeldFor(s, c)) else HeldFor(s, c)
  {
    hide ParseDelta, SearchesShown, HandleArgDelta, IsFailure;
    var s1 := s.(completedSearches := s.completedSearches + SearchesShown(parse, ev));
    assert MapEvent(parse, s, ev) == HandleArgDelta(parse, s1, ev.data);
    ArgDeltaHeld(parse, s1, ev.data, c);
  }

  lemma {:induction false} EnsureToolHeld(s: State, owner: Text, c: Text)
    ensures var t := EnsureTool(s, owner);
            && t.lastTool == s.lastTool && t.completed == s.completed && ArgsAt(t, owner) == ArgsAt(s, owner)
            && HeldFor(t, c) ==
                 if c == owner && owner !in s.toolBlocks then HeldFor(s, c).(open := true, args := Some(ArgsAt(s, c)))
                   else HeldFor(s, c)
  {
  }

  lemma {:induction false} ArgDeltaHeld(parse: Parser, s: State, data: Text, c: Text)
    requires ParseDelta(parse, data).Delta?
    ensures var d, t := ParseDelta(parse, data), HandleArgDelta(parse, s, data).s;
            var owner := if d.callId.Some? then d.callId else s.lastTool;
            && t.lastTool == s.lastTool && t.completed == s.completed
            && HeldFor(t, c) == if owner == Some(c) then Apply(Fragment(d.callId, d.delta), HeldFor(s, c))
                 else HeldFor(s, c)
  {
    hide ParseDelta;
    var d := ParseDelta(parse, data);
    if d.callId.Some? || s.lastTool.Some? {
      hide AppendArgs, HeldFor, Apply;
      AppendArgsHeld(s, if d.callId.Some? then d.callId.value else s.lastTool.value, d, c);
    }
  }

  lemma {:induction false} AppendArgsHeld(s: State, owner: Text, d: DeltaFields, c: Text)
    requires d.Delta?
    ensures var t := AppendArgs(s, owner, d.delta);
            && t.lastTool == s.lastTool && t.completed == s.completed
            && HeldFor(t, c) == if owner == c then Apply(Fragment(d.callId, d.delta), HeldFor(s, c)) else HeldFor(s, c)
  {
    EnsureToolHeld(s, owner, c);
    hide EnsureTool;
    assert ArgsAt(s, c) == if HeldFor(s, c).args.Some? then HeldFor(s, c).args.value else [];
  }

  // ----- non-interference -----

  function OwnEvents(parse: Parser, evs: seq<Event>, c: Text): seq<Event> {
    if evs == [] then []
    else (if Owner(EffectOf(parse, evs[0])) == Some(c) then [evs[0]] else []) + OwnEvents(parse, evs[1..], c)
  }

  predicate Addressed(parse: Parser, ev: Event) {
    EffectOf(parse, ev).Fragment? ==> EffectOf(parse, ev).callId.Some?
  }

  function ApplyAll(parse: Parser, evs: seq<Event>, h: Held): Held
    decreases |evs|
  {
    if evs == [] then h else ApplyAll(parse, evs[1..], Apply(EffectOf(parse, evs[0]), h))
  }

  lemma {:induction false} StepOwned(parse: Parser, s: State, ev: Event, c: Text)
    requires !s.completed && !Terminal(parse, ev) && Addressed(parse, ev)
    ensures var t := Translate(parse, s, ev).s;
            && !t.completed
            && HeldFor(t, c) == if Owner(EffectOf(parse, ev)) == Some(c) then Apply(EffectOf(parse, ev), HeldFor(s, c))
                 else HeldFor(s, c)
  {
    hide MapEvent, EffectOf, IsFailure;
    if EffectOf(parse, ev).Nothing? {
      QuietStep(parse, s, ev);
    } else if EffectOf(parse, ev).Item? {
      ItemStep(parse, s, ev, c);
    } else {
      FragmentStep(parse, s, ev, c);
    }
  }

  lemma {:induction false} RunOwned(parse: Parser, s: State, evs: seq<Event>, c: Text)
    requires !s.completed && forall ev | ev in evs :: !Terminal(parse, ev) && Addressed(parse, ev)
    ensures HeldFor(Run(parse, s, evs).s, c) == ApplyAll(parse, OwnEvents(parse, evs, c), HeldFor(s, c))
    decreases |evs|
  {
    hide MapEvent, Translate, EffectOf, Terminal, Apply, HeldFor, Addressed;
    if evs != [] {
      assert evs[0] in evs;
      StepOwned(parse, s, evs[0], c);
      RunOwned(parse, Translate(parse, s, evs[0]).s, evs[1..], c);
      var own := OwnEvents(parse, evs, c);
      if Owner(EffectOf(parse, evs[0])) == Some(c) {
        assert own[0] == evs[0] && own[1..] == OwnEvents(parse, evs[1..], c);
      } else {
        assert own == OwnEvents(parse, evs[1..], c);
      }
    }
  }

  /** Two runs that agree on the events of one call hold the same for it, whatever else is
      interleaved, as long as argument fragments carry their call id. */
  lemma {:induction false} NonInterference(parse: Parser, s: State, evs: seq<Event>, others: seq<Event>, c: Text)
    requires !s.completed
    requires forall ev | ev in evs + others :: !Terminal(parse, ev) && Addressed(parse, ev)
    requires OwnEvents(parse, evs, c) == OwnEvents(parse, others, c)
    ensures HeldFor(Run(parse, s, evs).s, c) == HeldFor(Run(parse, s, others).s, c)
  {
    hide Run, ApplyAll, OwnEvents, Terminal, Addressed;
    assert forall ev | ev in evs :: ev in evs + others;
    assert forall ev | ev in others :: ev in evs + others;
    RunOwned(parse, s, evs, c);
    RunOwned(parse, s, others, c);
  }

  // ----- the buffer in closed form, unaddressed fragments included -----

  /** The call of the last item seen. */
  function LastItem(parse: Parser, evs: seq<Event>): Option<Text> {
    if evs == [] then None
    else
      var e := EffectOf(parse, evs[|evs| - 1]);
      if e.Item? then Some(e.tc.callId) else LastItem(parse, evs[..|evs| - 1])
  }

  /** The last finished item's arguments followed by the later fragments. */
  function Buffer(parse: Parser, evs: seq<Event>, c: Text): Text
    decreases |evs|
  {
    if evs == [] then []
    else
      var before, e := evs[..|evs| - 1], EffectOf(parse, evs[|evs| - 1]);
      match e
      case Nothing => Buffer(parse, before, c)
      case Item(tc, done) => if tc.callId == c && done then tc.arguments else Buffer(parse, before, c)
      case Fragment(callId, delta) =>
        var owner := if callId.Some? then callId else LastItem(parse, before);
        Buffer(parse, before, c) + if owner == Some(c) then delta else []
  }

  lemma {:induction false} BufferContents(parse: Parser, schema: Json, contextManagement: Json, evs: seq<Event>,
                                          c: Text)
    requires forall ev | ev in evs :: !Terminal(parse, ev)
    ensures var s := Stream(parse, schema, contextManagement, evs).s;
            !s.completed && s.lastTool == LastItem(parse, evs) && ArgsAt(s, c) == Buffer(parse, evs, c)
    decreases |evs|
  {
    hide Terminal, Translate, EffectOf;
    var s0 := NewState(schema, contextManagement);
    if evs != [] {
      var before, last := evs[..|evs| - 1], evs[|evs| - 1];
      assert last in evs && forall ev | ev in before :: ev in evs;
      BufferContents(parse, schema, contextManagement, before, c);
      assert evs == before + [last];
      RunSnoc(parse, s0, before, last);
      BufferStep(parse, Run(parse, s0, before).s, last, c);
    }
  }

  lemma {:induction false} RunSnoc(parse: Parser, s: State, evs: seq<Event>, ev: Event)
    ensures Run(parse, s, evs + [ev]).s == Translate(parse, Run(parse, s, evs).s, ev).s
  {
    hide Translate;
    RunAppend(parse, s, evs, [ev]);
    var mid := Run(parse, s, evs).s;
    assert Run(parse, mid, [ev]).s == Translate(parse, mid, ev).s by {
      assert [ev][1..] == [];
    }
  }

  lemma {:induction false} BufferStep(parse: Parser, s: State, ev: Event, c: Text)
    requires !s.completed && !Terminal(parse, ev)
    ensures var t, e := Translate(parse, s, ev).s, EffectOf(parse, ev);
            && !t.completed
            && t.lastTool == (if e.Item? then Some(e.tc.callId) else s.lastTool)
            && ArgsAt(t, c) == match e
               case Nothing => ArgsAt(s, c)
               case Item(tc, done) => if tc.callId == c && done then tc.arguments else ArgsAt(s, c)
               case Fragment(callId, delta) =>
                 ArgsAt(s, c) + if (if callId.Some? then callId else s.lastTool) == Some(c) then delta else []
  {
    hide MapEvent, EffectOf, Terminal;
    assert HeldFor(s, c).args == At(s.toolArgs, c);
    if EffectOf(parse, ev).Nothing? {
      QuietStep(parse, s, ev);
    } else if EffectOf(parse, ev).Item? {
      ItemStep(parse, s, ev, c);
    } else {
      FragmentStep(parse, s, ev, c);
      assert ArgsAt(s, c) + [] == ArgsAt(s, c);
    }
    assert HeldFor(Translate(parse, s, ev).s, c).args == At(Translate(parse, s, ev).s.toolArgs, c);
  }
}

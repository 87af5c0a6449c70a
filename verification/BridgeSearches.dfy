/** Web searches over a whole stream: each is shown once, and no search is reported that was not shown. */
module BridgeSearches {
  import opened Json
  import opened ToolCalls
  import opened ResponseGate
  import opened Bridge
  import opened BridgeGrammar

  /** The tool-use ids of the server_tool_use blocks started, in order. */
  function UseIds(out: seq<Sse>): seq<Text> {
    if out == [] then [] else UseIdPart(out[0]) + UseIds(out[1..])
  }

  function UseIdPart(e: Sse): seq<Text> {
    if IsSearchStart(e) then [e.block.toolUseId] else []
  }

  predicate IsSearchStart(e: Sse) {
    e.Start? && e.block.ServerToolUseStart?
  }

  lemma {:induction false} UseIdsAppend(a: seq<Sse>, b: seq<Sse>)
    ensures UseIds(a + b) == UseIds(a) + UseIds(b)
    decreases |a|
  {
    hide UseIdPart;
    if a == [] {
      assert a + b == b;
    } else {
      UseIdsAppend(a[1..], b);
      assert (a + b)[1..] == a[1..] + b;
    }
  }

  function UseIdsOf(ids: seq<Text>): seq<Text> {
    seq(|ids|, i requires 0 <= i < |ids| => ServerToolUseId(ids[i]))
  }

  /** The ids of the set, each once. */
  ghost predicate Enumerates(ids: seq<Text>, searches: set<Text>) {
    (forall i, j | 0 <= i < j < |ids| :: ids[i] != ids[j]) && forall id :: id in ids <==> id in searches
  }

  /** The stream shows exactly these searches: one server_tool_use block for each, under its id. */
  ghost predicate Shows(out: seq<Sse>, searches: set<Text>) {
    exists ids :: Enumerates(ids, searches) && UseIds(out) == UseIdsOf(ids)
  }

  lemma {:induction false} ShowsMore(out: seq<Sse>, searches: set<Text>, more: seq<Sse>, id: Text)
    requires Shows(out, searches) && id !in searches && UseIds(more) == [ServerToolUseId(id)]
    ensures Shows(out + more, searches + {id})
  {
    hide UseIds;
    var ids :| Enumerates(ids, searches) && UseIds(out) == UseIdsOf(ids);
    UseIdsAppend(out, more);
    hide ServerToolUseId;
    assert Enumerates(ids + [id], searches + {id});
    assert UseIdsOf(ids + [id]) == UseIdsOf(ids) + [ServerToolUseId(id)];
  }

  lemma {:induction false} ShowsSame(out: seq<Sse>, searches: set<Text>, more: seq<Sse>)
    requires Shows(out, searches) && UseIds(more) == []
    ensures Shows(out + more, searches)
  {
    hide UseIds, UseIdsOf, Enumerates;
    UseIdsAppend(out, more);
    assert UseIds(out) + [] == UseIds(out);
  }

  lemma {:induction false} ShowsCount(out: seq<Sse>, searches: set<Text>)
    requires Shows(out, searches)
    ensures |UseIds(out)| == |searches|
  {
    var ids :| Enumerates(ids, searches) && UseIds(out) == UseIdsOf(ids);
    EnumeratesCount(ids, searches);
  }

  lemma {:induction false} EnumeratesCount(ids: seq<Text>, searches: set<Text>)
    requires Enumerates(ids, searches)
    ensures |ids| == |searches|
    decreases |ids|
  {
    if ids == [] {
      assert searches == {};
    } else {
      var n := |ids| - 1;
      assert ids[n] in ids;
      forall id ensures id in ids[..n] <==> id in searches - {ids[n]} {
        if id in ids && id != ids[n] {
          var i :| 0 <= i < |ids| && ids[i] == id;
          assert ids[..n][i] == id;
        }
      }
      EnumeratesCount(ids[..n], searches - {ids[n]});
    }
  }

  lemma {:induction false} NoStarts(out: seq<Sse>)
    requires forall e | e in out :: !IsSearchStart(e)
    ensures UseIds(out) == []
    decreases |out|
  {
    if out != [] { NoStarts(out[1..]); }
  }

  /** Every search emitted is shown once, and every completed one is among them. */
  ghost predicate Shown(s: State, out: seq<Sse>) {
    Shows(out, s.emittedSearches) && s.completedSearches <= s.emittedSearches
  }

  /** A step that has nothing to do with searches. */
  predicate Unrelated(s: State, t: Step) {
    && t.s.emittedSearches == s.emittedSearches && t.s.completedSearches == s.completedSearches
    && (forall e | e in t.out :: !IsSearchStart(e))
  }

  lemma {:induction false} EmitTextsUnrelated(s: State, texts: seq<Text>)
    ensures Unrelated(s, EmitTexts(s, texts))
  {
    hide Concat;
  }

  lemma {:induction false} TextsUnrelated(parse: Parser, s: State, data: Text, item: Fields)
    ensures Unrelated(s, HandleTextDelta(parse, s, data)) && Unrelated(s, HandleMessageItem(s, item))
  {
    hide DeltaText, OutputTexts, EmitTexts, Concat, Blank;
    forall texts ensures Unrelated(s, EmitTexts(s, texts)) {
      EmitTextsUnrelated(s, texts);
    }
    forall texts ensures Unrelated(s.(sawText := true), EmitTexts(s.(sawText := true), texts)) {
      EmitTextsUnrelated(s.(sawText := true), texts);
    }
  }

  lemma {:induction false} CallsUnrelated(parse: Parser, s: State, data: Text, tc: ToolCall, finalItem: bool)
    ensures Unrelated(s, HandleReasoning(parse, s, data))
    ensures Unrelated(s, HandleArgDelta(parse, s, data))
    ensures Unrelated(s, HandleToolCall(s, tc, finalItem))
  {
    hide HandleReasoning, HandleArgDelta, HandleToolCall, Unrelated;
    ReasoningUnrelated(parse, s, data);
    ArgDeltaUnrelated(parse, s, data);
    ToolCallUnrelated(s, tc, finalItem);
  }

  lemma {:induction false} ReasoningUnrelated(parse: Parser, s: State, data: Text)
    ensures Unrelated(s, HandleReasoning(parse, s, data))
  {
    hide ParseDelta;
  }

  lemma {:induction false} ArgDeltaUnrelated(parse: Parser, s: State, data: Text)
    ensures Unrelated(s, HandleArgDelta(parse, s, data))
  {
    hide ParseDelta, ArgsAt;
  }

  lemma {:induction false} ToolCallUnrelated(s: State, tc: ToolCall, finalItem: bool)
    ensures Unrelated(s, HandleToolCall(s, tc, finalItem))
  {
  }

  lemma {:induction false} FlushUnrelated(parse: Parser, s: State)
    ensures Unrelated(s, FlushStructured(parse, s))
  {
    hide Cleanup, Blank;
  }

  lemma {:induction false} StopsUnrelated(blocks: seq<Block>)
    ensures forall e | e in StopsOf(blocks) :: !IsSearchStart(e)
    decreases |blocks|
  {
    if blocks != [] { StopsUnrelated(blocks[1..]); }
  }

  lemma {:induction false} FinalizeUnrelated(parse: Parser, s: State)
    ensures Unrelated(s, Finalize(parse, s))
    ensures Finalize(parse, s).s.usage == s.usage
  {
    FlushUnrelated(parse, s.(completed := true));
    FlushUsage(parse, s.(completed := true));
    StopsUnrelated(FlushStructured(parse, s.(completed := true)).s.blocks);
    hide FlushStructured, StopsOf;
  }

  lemma {:induction false} FlushUsage(parse: Parser, s: State)
    ensures FlushStructured(parse, s).s.usage == s.usage
  {
    hide Cleanup, Blank;
  }

  lemma {:induction false} InputsUnrelated(parse: Parser, s: State, calls: seq<Text>)
    requires (forall c | c in calls :: c in s.toolBlocks) && InputDeltas(parse, s, calls).Some?
    ensures forall e | e in InputDeltas(parse, s, calls).value :: !IsSearchStart(e)
  {
    hide CallInput;
    var out := InputDeltas(parse, s, calls).value;
    forall i | 0 <= i < |out| ensures !IsSearchStart(out[i]) {
      assert out[i].InputDelta?;
    }
  }

  // ----- emitting -----

  predicate WellMade(call: SearchCall) {
    call.toolUseId == ServerToolUseId(call.callId)
  }

  lemma {:induction false} EmitShows(s: State, out: seq<Sse>, call: SearchCall)
    requires Shows(out, s.emittedSearches) && WellMade(call)
    ensures var t := EmitSearch(s, call);
            && Shows(out + t.out, t.s.emittedSearches)
            && t.s.emittedSearches == s.emittedSearches + {call.callId}
            && t.s.completedSearches == s.completedSearches && t.s.usage == s.usage
  {
    hide Shows, ServerToolUseId;
    var t := EmitSearch(s, call);
    if call.callId !in s.emittedSearches {
      assert t.out == [t.out[0]] + t.out[1..];
      NoStarts(t.out[1..]);
      assert UseIds(t.out) == UseIdPart(t.out[0]) + UseIds(t.out[1..]);
      ShowsMore(out, s.emittedSearches, t.out, call.callId);
    } else {
      assert s.emittedSearches + {call.callId} == s.emittedSearches;
      assert out + [] == out;
    }
  }

  lemma {:induction false} IdsStep(calls: seq<SearchCall>)
    ensures calls == [] ==> Ids(calls) == {}
    ensures calls != [] ==> Ids(calls) == {calls[0].callId} + Ids(calls[1..])
  {
  }

  lemma {:induction false} EmitAllShows(s: State, out: seq<Sse>, calls: seq<SearchCall>)
    requires Shows(out, s.emittedSearches) && forall c | c in calls :: WellMade(c)
    ensures var t := EmitSearches(s, calls);
            && Shows(out + t.out, t.s.emittedSearches)
            && t.s.emittedSearches == s.emittedSearches + Ids(calls)
            && t.s.completedSearches == s.completedSearches && t.s.usage == s.usage
    decreases |calls|
  {
    IdsStep(calls);
    hide Ids, EmitSearch, Shows;
    if calls == [] {
      assert out + [] == out;
    } else {
      var first := EmitSearch(s, calls[0]);
      EmitShows(s, out, calls[0]);
      EmitAllShows(first.s, out + first.out, calls[1..]);
      assert out + EmitSearches(s, calls).out == (out + first.out) + EmitSearches(first.s, calls[1..]).out;
    }
  }

  // ----- one event -----

  lemma {:induction false} UnrelatedShows(s: State, out: seq<Sse>, t: Step)
    requires Shows(out, s.emittedSearches) && Unrelated(s, t)
    ensures Shows(out + t.out, t.s.emittedSearches)
  {
    NoStarts(t.out);
    ShowsSame(out, s.emittedSearches, t.out);
  }

  /** The searches an event makes the bridge emit; `shown` is what the event shows as completed. */
  lemma {:induction false} ItemShows(parse: Parser, s: State, out: seq<Sse>, ev: Event)
    requires Shows(out, s.emittedSearches) && IsItemEvent(ev.name)
    ensures var t := HandleItem(parse, s, ev);
            && Shows(out + t.out, t.s.emittedSearches)
            && t.s.completedSearches == s.completedSearches
            && s.emittedSearches <= t.s.emittedSearches
            && SearchesShown(parse, ev) <= t.s.emittedSearches
  {
    hide Shows, EmitSearch, HandleMessageItem, HandleToolCall, Unrelated, DecodeObject, MakeSearch;
    assert out + [] == out;
    var tc := ItemToolCall(parse, ev.data);
    ShownByItem(parse, ev);
    if tc.Some? {
      CallsUnrelated(parse, s, ev.data, tc.value, ev.name == "response.output_item.done");
      KeepsEmitted(s, HandleItem(parse, s, ev));
      UnrelatedShows(s, out, HandleItem(parse, s, ev));
    } else if DecodeObject(parse, ev.data).Some? && ObjectAt(DecodeObject(parse, ev.data).value, "item").Some? {
      var item := ObjectAt(DecodeObject(parse, ev.data).value, "item").value;
      hide ItemToolCall, SearchesShown;
      if HasString(item, "type", "web_search_call") {
        var id := ItemSearchId(item, "output_item");
        if id.Some? {
          MadeWithId(id.value, item);
          EmitShows(s, out, MakeSearch(id.value, item));
        }
      } else if HasString(item, "type", "message") {
        TextsUnrelated(parse, s, ev.data, item);
        KeepsEmitted(s, HandleItem(parse, s, ev));
        UnrelatedShows(s, out, HandleItem(parse, s, ev));
      }
    }
  }

  lemma {:induction false} KeepsEmitted(s: State, t: Step)
    requires Unrelated(s, t)
    ensures t.s.emittedSearches == s.emittedSearches && t.s.completedSearches == s.completedSearches
  {
  }

  lemma {:induction false} MadeWithId(id: Text, m: Fields)
    ensures MakeSearch(id, m).callId == id && WellMade(MakeSearch(id, m))
  {
    hide SearchQuery, SearchResults, ServerToolUseId;
  }

  /** What an item event shows as completed: at most the search its item describes. */
  lemma {:induction false} ShownByItem(parse: Parser, ev: Event)
    requires IsItemEvent(ev.name)
    ensures var v := DecodeObject(parse, ev.data);
            SearchesShown(parse, ev) <=
              if v.Some? && ObjectAt(v.value, "item").Some?
                && ItemSearchId(ObjectAt(v.value, "item").value, "output_item").Some?
                 && ItemToolCall(parse, ev.data).None?
              then {ItemSearchId(ObjectAt(v.value, "item").value, "output_item").value} else {}
    ensures var v := DecodeObject(parse, ev.data);
            (v.Some? && ObjectAt(v.value, "item").Some?
              && ItemSearchId(ObjectAt(v.value, "item").value, "output_item").Some?)
            ==> HasString(ObjectAt(v.value, "item").value, "type", "web_search_call")
  {
    hide DecodeObject;
    EventNames();
    var v := DecodeObject(parse, ev.data);
    if v.Some? && ObjectAt(v.value, "item").Some?
      && HasString(ObjectAt(v.value, "item").value, "type", "web_search_call") {
      SearchIsNoCall(parse, ObjectAt(v.value, "item").value);
    }
    hide ParseItem, SearchId;
  }

  lemma {:induction false} EventNames()
    ensures "response.output_item.done" != "response.web_search_call.completed"
      && "response.output_item.done" != "response.completed"
    ensures "response.output_item.added" != "response.output_item.done"
    ensures "response.output_item.added" != "response.web_search_call.completed"
      && "response.output_item.added" != "response.completed"
    ensures "response.web_search_call.completed" != "response.completed"
  {
    assert |"response.output_item.done"| == 25 && |"response.output_item.added"| == 26;
    assert |"response.web_search_call.completed"| == 34 && |"response.completed"| == 18;
  }

  lemma {:induction false} SearchIsNoCall(parse: Parser, item: Fields)
    requires HasString(item, "type", "web_search_call")
    ensures ParseItem(parse, item).None?
  {
    assert |Lit("web_search_call")| == 15 && |Lit("function_call")| == 13;
    assert |Lit("custom_tool_call")| == 16 && |Lit("tool_search_call")| == 16 && |Lit("local_shell_call")| == 16;
  }

  lemma {:induction false} EventShows(parse: Parser, s: State, out: seq<Sse>, ev: Event)
    requires Shows(out, s.emittedSearches) && ev.name == "response.web_search_call.completed"
    ensures var t := HandleSearchEvent(parse, s, ev);
            && Shows(out + t.out, t.s.emittedSearches)
            && t.s.completedSearches == s.completedSearches
            && s.emittedSearches <= t.s.emittedSearches
            && SearchesShown(parse, ev) <= t.s.emittedSearches
  {
    hide Shows, EmitSearch, DecodeObject, MakeSearch, EventSearchId;
    EventNames();
    assert out + [] == out;
    var v := DecodeObject(parse, ev.data);
    if v.Some? && EventSearchId(v.value, ev.name).Some? {
      var id := EventSearchId(v.value, ev.name).value;
      MadeWithId(id, v.value);
      EmitShows(s, out, MakeSearch(id, v.value));
    }
  }

  lemma {:induction false} OutputWellMade(items: seq<Json>, i: nat)
    ensures forall c | c in OutputSearches(items, i) :: WellMade(c)
    decreases |items| - i
  {
    hide MakeSearch, ItemSearchId, Decimal, WellMade;
    if i < |items| {
      OutputWellMade(items, i + 1);
      if items[i].Obj? {
        var id := ItemSearchId(items[i].fields, "response_output_" + Decimal(i));
        if id.Some? { MadeWithId(id.value, items[i].fields); }
      }
    }
  }

  lemma {:induction false} CompletionShows(parse: Parser, s: State, out: seq<Sse>, data: Text)
    requires Shows(out, s.emittedSearches)
    requires ErrorFree(HandleCompleted(parse, s, data).out)
    ensures var t := HandleCompleted(parse, s, data);
            && Shows(out + t.out, t.s.emittedSearches)
            && t.s.completedSearches == s.completedSearches
            && t.s.emittedSearches == s.emittedSearches + Ids(OutputSearches(CompletedOutput(parse, data), 0))
            && (t.s.usage.Some? ==> t.s.usage.value.searches == |s.completedSearches|)
  {
    hide Shows, EmitSearches, OutputSearches, CompletedOutput, UsageOf, FinishCall;
    var calls := OutputSearches(CompletedOutput(parse, data), 0);
    var s1 := RecordUsage(parse, s, data);
    OutputWellMade(CompletedOutput(parse, data), 0);
    EmitAllShows(s1, out, calls);
    FinishShows(parse, out, EmitSearches(s1, calls));
  }

  lemma {:induction false} FinishShows(parse: Parser, out: seq<Sse>, searched: Step)
    requires Shows(out + searched.out, searched.s.emittedSearches)
    requires ErrorFree(FinishCall(parse, searched).out)
    ensures var t := FinishCall(parse, searched);
            && Shows(out + t.out, t.s.emittedSearches)
            && t.s.emittedSearches == searched.s.emittedSearches
            && t.s.completedSearches == searched.s.completedSearches
            && t.s.usage == searched.s.usage
  {
    hide Shows, InputDeltas, Finalize, CallOrder, CallInput, Unrelated, FinishCall, ErrorFree, UseIds, Enumerates;
    BadArgumentsShown(FinishCall(parse, searched).out);
    var s := searched.s;
    var order := CallOrder(s.toolBlocks);
    FinishesCleanly(parse, searched);
    var inputs := InputDeltas(parse, s, order).value;
    var t := Finalize(parse, s);
    InputsUnrelated(parse, s, order);
    FinalizeUnrelated(parse, s);
    KeepsEmitted(s, t);
    NoneStart(s, t, inputs);
    ShowsSame(out + searched.out, s.emittedSearches, inputs + t.out);
    assert out + FinishCall(parse, searched).out == (out + searched.out) + (inputs + t.out);
  }

  lemma {:induction false} BadArgumentsShown(out: seq<Sse>)
    requires ErrorFree(out)
    ensures Error(BadArguments) !in out
  {
  }

  lemma {:induction false} NoneStart(s: State, t: Step, inputs: seq<Sse>)
    requires Unrelated(s, t) && forall e | e in inputs :: !IsSearchStart(e)
    ensures UseIds(inputs + t.out) == []
  {
    NoStarts(inputs + t.out);
  }

  lemma {:induction false} StepShows(parse: Parser, s: State, out: seq<Sse>, ev: Event)
    requires Shown(s, out) && ErrorFree(MapEvent(parse, s, ev).out)
    ensures var t := MapEvent(parse, s, ev);
            Shown(t.s, out + t.out)
  {
    hide Shows, HandleTextDelta, HandleItem, HandleSearchEvent;
    hide HandleArgDelta, HandleReasoning, HandleCompleted, IsFailure, Unrelated;
    EventNames();
    if IsFailure(parse, ev) {
      NotErrorFree(MapEvent(parse, s, ev).out);
    } else {
      var s1 := s.(completedSearches := s.completedSearches + SearchesShown(parse, ev));
      if ev.name == "response.completed" {
        CompletedShown(parse, ev);
        hide SearchesShown;
        CompletionShows(parse, s1, out, ev.data);
      } else if IsItemEvent(ev.name) {
        hide SearchesShown;
        ItemShows(parse, s1, out, ev);
      } else if ev.name == "response.web_search_call.completed" {
        hide SearchesShown;
        EventShows(parse, s1, out, ev);
      } else {
        assert SearchesShown(parse, ev) == {};
        assert s1.completedSearches == s.completedSearches;
        hide SearchesShown;
        QuietUnrelated(parse, s1, ev);
        var t := MapEvent(parse, s, ev);
        KeepsEmitted(s1, t);
        UnrelatedShows(s1, out, t);
      }
    }
  }

  lemma {:induction false} CompletedShown(parse: Parser, ev: Event)
    requires ev.name == "response.completed"
    ensures SearchesShown(parse, ev) <= Ids(OutputSearches(CompletedOutput(parse, ev.data), 0))
  {
    EventNames();
    hide OutputSearches, CompletedOutput, DecodeObject;
  }

  lemma {:induction false} QuietUnrelated(parse: Parser, s: State, ev: Event)
    ensures Unrelated(s, HandleTextDelta(parse, s, ev.data)) && Unrelated(s, HandleArgDelta(parse, s, ev.data))
    ensures Unrelated(s, HandleReasoning(parse, s, ev.data)) && Unrelated(s, Step(s, []))
  {
    hide HandleTextDelta, HandleArgDelta, HandleReasoning, HandleToolCall, HandleMessageItem;
    TextsUnrelated(parse, s, ev.data, map[]);
    CallsUnrelated(parse, s, ev.data, ToolCall([], [], [], Function), false);
  }

  lemma {:induction false} RunShows(parse: Parser, s: State, out: seq<Sse>, evs: seq<Event>)
    requires Shown(s, out) && ErrorFree(Run(parse, s, evs).out)
    ensures Shown(Run(parse, s, evs).s, out + Run(parse, s, evs).out)
    decreases |evs|
  {
    hide MapEvent, Shown;
    if evs == [] {
      assert out + [] == out;
    } else {
      var first := Translate(parse, s, evs[0]);
      if s.completed {
        assert out + [] == out;
      } else {
        StepShows(parse, s, out, evs[0]);
      }
      RunShows(parse, first.s, out + first.out, evs[1..]);
      assert out + Run(parse, s, evs).out == (out + first.out) + Run(parse, first.s, evs[1..]).out;
    }
  }

  /** On every error-free stream: one server_tool_use block per search, under the search's own id, however
      often the backend mentions it; and every search the backend shows as completed has its block, so no
      more searches are reported than shown. */
  lemma {:induction false} SearchesShownOnce(parse: Parser, schema: Json, contextManagement: Json, evs: seq<Event>)
    requires ErrorFree(Stream(parse, schema, contextManagement, evs).out)
    ensures var t := Stream(parse, schema, contextManagement, evs);
            && Shows(t.out, t.s.emittedSearches) && t.s.completedSearches <= t.s.emittedSearches
            && |t.s.completedSearches| <= |UseIds(t.out)|
  {
    hide Run, UseIds;
    var t := Stream(parse, schema, contextManagement, evs);
    NothingShown();
    RunShows(parse, NewState(schema, contextManagement), [], evs);
    assert [] + t.out == t.out;
    ShowsCount(t.out, t.s.emittedSearches);
    SubsetSize(t.s.completedSearches, t.s.emittedSearches);
  }

  lemma {:induction false} NothingShown()
    ensures Shows([], {})
  {
    assert Enumerates([], {}) && UseIdsOf([]) == UseIds([]);
  }

  lemma {:induction false} SubsetSize(a: set<Text>, b: set<Text>)
    requires a <= b
    ensures |a| <= |b|
    decreases |a|
  {
    if a != {} {
      var x :| x in a;
      SubsetSize(a - {x}, b - {x});
    }
  }
}

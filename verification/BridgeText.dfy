/** Which text and which thinking a stream shows, read off the backend's events alone. */
module BridgeText {
  import opened Json
  import opened ToolCalls
  import opened ResponseGate
  import opened Bridge
  import opened BridgeGrammar
  import opened BridgeAgreement
  import opened BridgeCalls
  import opened BridgeNames
  import BridgeSearches
  import StrictSchema
  import SchemaPair

  // ----- read off one event -----

  /** All the texts in a value, in the order of the walk. */
  function TextsIn(v: Json): seq<Text>
    decreases v, 1
  {
    match v
    case Obj(m) =>
      Own(m, "text") + Own(m, "delta") + (if "content" in m then TextsIn(m["content"]) else [])
      + TextsAt(v, Sorted(m.Keys - {"text", "delta", "content"}))
    case Arr(items) => TextsInAll(items)
    case _ => []
  }

  function Own(m: Fields, k: string): seq<Text> {
    if k in m && m[k].Str? then [m[k].s] else []
  }

  function TextsAt(v: Json, keys: seq<string>): seq<Text>
    requires v.Obj? && forall k | k in keys :: k in v.fields
    decreases v, 0, |keys|
  {
    if keys == [] then [] else TextsIn(v.fields[keys[0]]) + TextsAt(v, keys[1..])
  }

  function TextsInAll(items: seq<Json>): seq<Text>
    decreases items, 0
  {
    if items == [] then [] else TextsIn(items[0]) + TextsInAll(items[1..])
  }

  function Latest(texts: seq<Text>, otherwise: Option<Text>): Option<Text> {
    if texts == [] then otherwise else Some(texts[|texts| - 1])
  }

  /** The text of a delta event: the last one in its data, or the data itself where it is not JSON; a blank one
      counts for nothing. */
  function DeltaIn(parse: Parser, ev: Event): seq<Text> {
    if ev.name != "response.output_text.delta" then []
    else
      var found := match Decode(parse, ev.data)
        case None => Some(ev.data)
        case Some(v) => Latest(TextsIn(v), None);
      if found.Some? && !Blank(found.value) then [found.value] else []
  }

  /** The text of one part of a message, unless blank. */
  function PartText(part: Json): seq<Text> {
    if part.Obj? && "type" in part.fields && part.fields["type"] == Str(Lit("output_text"))
       && "text" in part.fields && part.fields["text"].Str? && !Blank(part.fields["text"].s)
    then [part.fields["text"].s] else []
  }

  function PartTexts(parts: seq<Json>): seq<Text> {
    if parts == [] then [] else PartTexts(parts[..|parts| - 1]) + PartText(parts[|parts| - 1])
  }

  /** The texts of a message item. */
  function MessageIn(parse: Parser, ev: Event): seq<Text> {
    if ev.name != "response.output_item.added" && ev.name != "response.output_item.done" then []
    else match Decode(parse, ev.data)
      case Some(Obj(v)) =>
        if "item" in v && v["item"].Obj? && "type" in v["item"].fields
           && v["item"].fields["type"] == Str(Lit("message"))
           && "content" in v["item"].fields && v["item"].fields["content"].Arr?
        then PartTexts(v["item"].fields["content"].items) else []
      case _ => []
  }

  /** The thinking of a reasoning event, blank or not. */
  function ThoughtIn(parse: Parser, ev: Event): seq<Text> {
    if ev.name != "response.reasoning_text.delta" && ev.name != "response.reasoning_summary_text.delta" then []
    else match Decode(parse, ev.data)
      case Some(Obj(v)) => Own(v, "delta")
      case _ => []
  }

  // ----- read off the list of events -----

  /** Whether a message item comes too late: a delta came before or, with a schema, any text. */
  ghost predicate Spoken(parse: Parser, structured: bool, evs: seq<Event>) {
    exists ev :: ev in evs && (DeltaIn(parse, ev) != [] || (structured && MessageIn(parse, ev) != []))
  }

  /** The texts that count, in order. */
  ghost function Shown(parse: Parser, structured: bool, evs: seq<Event>): seq<Text> {
    if evs == [] then []
    else
      var before, ev := evs[..|evs| - 1], evs[|evs| - 1];
      Shown(parse, structured, before) + DeltaIn(parse, ev)
      + if Spoken(parse, structured, before) then [] else MessageIn(parse, ev)
  }

  function Thoughts(parse: Parser, evs: seq<Event>): seq<Text> {
    if evs == [] then [] else Thoughts(parse, evs[..|evs| - 1]) + ThoughtIn(parse, evs[|evs| - 1])
  }

  // ----- read off a stream -----

  /** The texts of the text deltas, and of the thinking deltas. */
  function Deltas(out: seq<Sse>): seq<Text> {
    if out == [] then [] else (if out[0].TextDelta? then [out[0].text] else []) + Deltas(out[1..])
  }

  function Thinking(out: seq<Sse>): seq<Text> {
    if out == [] then [] else (if out[0].ThinkingDelta? then [out[0].text] else []) + Thinking(out[1..])
  }

  lemma {:induction false} DeltasAppend(a: seq<Sse>, b: seq<Sse>)
    ensures Deltas(a + b) == Deltas(a) + Deltas(b) && Thinking(a + b) == Thinking(a) + Thinking(b)
    decreases |a|
  {
    if a == [] {
      assert a + b == b;
    } else {
      DeltasAppend(a[1..], b);
      assert (a + b)[1..] == a[1..] + b;
    }
  }

  lemma {:induction false} NoDeltas(out: seq<Sse>)
    requires forall e | e in out :: !e.TextDelta? && !e.ThinkingDelta?
    ensures Deltas(out) == [] && Thinking(out) == []
    decreases |out|
  {
    if out != [] { NoDeltas(out[1..]); }
  }

  lemma {:induction false} DeltasOfTexts(i: nat, texts: seq<Text>)
    ensures Deltas(TextDeltas(i, texts)) == texts && Thinking(TextDeltas(i, texts)) == []
    decreases |texts|
  {
    if texts != [] {
      DeltasOfTexts(i, texts[1..]);
      assert TextDeltas(i, texts)[1..] == TextDeltas(i, texts[1..]);
      assert texts == [texts[0]] + texts[1..];
    }
  }

  lemma {:induction false} TextOfDeltas(out: seq<Sse>)
    ensures TextOf(out) == Concat(Deltas(out))
    decreases |out|
  {
    if out != [] {
      TextOfDeltas(out[1..]);
      var rest := Deltas(out[1..]);
      if out[0].TextDelta? {
        assert ([out[0].text] + rest)[1..] == rest;
      } else {
        assert [] + rest == rest;
      }
    }
  }

  // ----- the readings agree with the bridge's own -----

  lemma {:induction false} LastIsLatest(v: Json, last: Option<Text>)
    ensures LastText(v, last) == Latest(TextsIn(v), last)
    decreases v, 1
  {
    match v
    case Obj(m) =>
      hide Sorted, Latest, TextsIn, TextsAt, LastText, LastTextAtKeys;
      var others := Sorted(m.Keys - {"text", "delta", "content"});
      var l1 := Latest(Own(m, "text"), last);
      var l2 := Latest(Own(m, "delta"), l1);
      var content := if "content" in m then TextsIn(m["content"]) else [];
      if "content" in m { LastIsLatest(m["content"], l2); }
      var l3 := Latest(content, l2);
      LastAtKeys(v, others, l3);
      LastStep(v, last);
      TextsStep(v);
      LatestAppend(Own(m, "text"), Own(m, "delta"), last);
      LatestAppend(Own(m, "text") + Own(m, "delta"), content, last);
      LatestAppend(Own(m, "text") + Own(m, "delta") + content, TextsAt(v, others), last);
      LatestNone(l2);
    case Arr(items) => LastInAll(items, last);
    case _ =>
  }

  lemma {:induction false} LatestNone(otherwise: Option<Text>)
    ensures Latest([], otherwise) == otherwise
  {
  }

  lemma {:induction false} LatestAppend(a: seq<Text>, b: seq<Text>, otherwise: Option<Text>)
    ensures Latest(a + b, otherwise) == Latest(b, Latest(a, otherwise))
  {
  }

  lemma {:induction false} LastStep(v: Json, last: Option<Text>)
    requires v.Obj?
    ensures var m := v.fields;
            var l2 := Latest(Own(m, "delta"), Latest(Own(m, "text"), last));
            var l3 := if "content" in m then LastText(m["content"], l2) else l2;
            LastText(v, last) == LastTextAtKeys(v, Sorted(m.Keys - {"text", "delta", "content"}), l3)
  {
    hide Sorted, LastTextAtKeys;
  }

  lemma {:induction false} TextsStep(v: Json)
    requires v.Obj?
    ensures var m := v.fields;
            TextsIn(v) == Own(m, "text") + Own(m, "delta") + (if "content" in m then TextsIn(m["content"]) else [])
                          + TextsAt(v, Sorted(m.Keys - {"text", "delta", "content"}))
  {
    hide Sorted, TextsAt, Own;
  }

  lemma {:induction false} LastAtKeys(v: Json, keys: seq<string>, last: Option<Text>)
    requires v.Obj? && forall k | k in keys :: k in v.fields
    ensures LastTextAtKeys(v, keys, last) == Latest(TextsAt(v, keys), last)
    decreases v, 0, |keys|
  {
    hide LastText, TextsIn, Latest;
    LatestNone(last);
    if keys != [] {
      LastIsLatest(v.fields[keys[0]], last);
      LastAtKeys(v, keys[1..], LastText(v.fields[keys[0]], last));
      LatestAppend(TextsIn(v.fields[keys[0]]), TextsAt(v, keys[1..]), last);
    }
  }

  lemma {:induction false} LastInAll(items: seq<Json>, last: Option<Text>)
    ensures LastTextInList(items, last) == Latest(TextsInAll(items), last)
    decreases items, 0
  {
    hide LastText, TextsIn, Latest;
    LatestNone(last);
    if items != [] {
      LastIsLatest(items[0], last);
      LastInAll(items[1..], LastText(items[0], last));
      LatestAppend(TextsIn(items[0]), TextsInAll(items[1..]), last);
    }
  }

  lemma {:induction false} DeltaRead(parse: Parser, ev: Event)
    requires ev.name == "response.output_text.delta"
    ensures var text := DeltaText(parse, ev.data);
            DeltaIn(parse, ev) == if text.None? || Blank(text.value) then [] else [text.value]
  {
    hide TextsIn, LastText;
    if Decode(parse, ev.data).Some? { LastIsLatest(Decode(parse, ev.data).value, None); }
  }

  lemma {:induction false} PartsRead(parts: seq<Json>)
    ensures OutputTexts(parts) == PartTexts(parts)
    decreases |parts|
  {
    if parts != [] {
      hide PartText, OutputTexts, PartTexts;
      var n := |parts| - 1;
      PartsRead(parts[..n]);
      OutputLast(parts[..n], parts[n]);
      assert parts[..n] + [parts[n]] == parts;
      assert PartTexts(parts) == PartTexts(parts[..n]) + PartText(parts[n]) by { PartsStep(parts); }
    } else {
      assert OutputTexts(parts) == [] == PartTexts(parts);
    }
  }

  lemma {:induction false} PartsStep(parts: seq<Json>)
    requires parts != []
    ensures PartTexts(parts) == PartTexts(parts[..|parts| - 1]) + PartText(parts[|parts| - 1])
  {
  }

  lemma {:induction false} OutputLast(parts: seq<Json>, part: Json)
    ensures OutputTexts(parts + [part]) == OutputTexts(parts) + PartText(part)
    decreases |parts|
  {
    if parts == [] {
      assert [] + [part] == [part] && [part][1..] == [];
      assert OutputTexts([part][1..]) == [];
    } else {
      OutputLast(parts[1..], part);
      assert (parts + [part])[1..] == parts[1..] + [part];
    }
  }

  // ----- one step -----

  /** What the bridge holds about text. */
  ghost predicate SameText(s: State, t: State) {
    && t.schema == s.schema && t.sawText == s.sawText && t.final == s.final && t.structured == s.structured
    && t.completed == s.completed
  }

  /** A step that says nothing. */
  ghost predicate Mute(s: State, t: Step) {
    SameText(s, t.s) && forall e | e in t.out :: !e.TextDelta? && !e.ThinkingDelta?
  }

  /** A step that says these texts and thinks these thoughts. */
  ghost predicate Says(s: State, t: Step, texts: seq<Text>, delta: bool, thoughts: seq<Text>) {
    && t.s.schema == s.schema && t.s.completed == s.completed
    && t.s.final == s.final + Concat(texts)
    && t.s.structured == s.structured + (if s.schema == Null then [] else Concat(texts))
    && t.s.sawText == (s.sawText || (texts != [] && (delta || s.schema != Null)))
    && Deltas(t.out) == (if s.schema == Null then texts else [])
    && Thinking(t.out) == thoughts
  }

  lemma {:induction false} MuteSays(s: State, t: Step)
    requires Mute(s, t)
    ensures Says(s, t, [], false, []) && Says(s, t, [], true, [])
  {
    NoDeltas(t.out);
    assert s.final + [] == s.final && s.structured + [] == s.structured;
  }

  lemma {:induction false} NothingMute(s: State)
    ensures Mute(s, Step(s, []))
  {
  }

  lemma {:induction false} TextsSaid(s: State, texts: seq<Text>)
    requires s.schema == Null
    ensures Says(s, EmitTexts(s, texts), texts, false, [])
  {
    hide Concat, OpenText, Deltas, Thinking;
    OpenTextSame(s);
    var i := OpenText(s).activeText.value;
    var opening := if s.activeText.None? then [Start(i, TextStart)] else [];
    NoDeltas(opening);
    DeltasOfTexts(i, texts);
    DeltasAppend(opening, TextDeltas(i, texts));
    assert [] + texts == texts && s.structured + [] == s.structured;
  }

  lemma {:induction false} OpenTextSame(s: State)
    ensures SameText(s, OpenText(s)) && OpenText(s).activeText.Some?
  {
  }

  lemma {:induction false} DeltaSaid(parse: Parser, s: State, ev: Event)
    requires ev.name == "response.output_text.delta"
    ensures Says(s, HandleTextDelta(parse, s, ev.data), DeltaIn(parse, ev), true, [])
  {
    DeltaRead(parse, ev);
    hide DeltaText, DeltaIn, Blank, EmitTexts;
    NothingMute(s);
    MuteSays(s, Step(s, []));
    var text := DeltaText(parse, ev.data);
    if text.Some? && !Blank(text.value) {
      OneText(text.value);
      if s.schema == Null { TextsSaid(s.(sawText := true), [text.value]); }
    }
  }

  lemma {:induction false} OneText(text: Text)
    ensures Concat([text]) == text
  {
    assert [text][1..] == [] && text + [] == text;
  }

  lemma {:induction false} MessageSaid(s: State, item: Fields)
    ensures var texts := if "content" in item && item["content"].Arr? then PartTexts(item["content"].items) else [];
            Says(s, HandleMessageItem(s, item), if s.sawText then [] else texts, false, [])
  {
    hide EmitTexts, OutputTexts, PartTexts, Concat;
    if "content" in item && item["content"].Arr? { PartsRead(item["content"].items); }
    var texts := if "content" in item && item["content"].Arr? then OutputTexts(item["content"].items) else [];
    NothingMute(s);
    MuteSays(s, Step(s, []));
    TextsSaid(s.(schema := Null), texts);
    if s.schema == Null { TextsSaid(s, texts); }
  }

  lemma {:induction false} SearchMute(s: State, call: SearchCall)
    ensures Mute(s, EmitSearch(s, call))
  {
  }

  lemma {:induction false} SearchesMute(s: State, calls: seq<SearchCall>)
    ensures Mute(s, EmitSearches(s, calls))
    decreases |calls|
  {
    hide EmitSearch;
    if calls != [] {
      SearchMute(s, calls[0]);
      SearchesMute(EmitSearch(s, calls[0]).s, calls[1..]);
    }
  }

  lemma {:induction false} ToolCallMute(s: State, tc: ToolCall, done: bool)
    ensures Mute(s, HandleToolCall(s, tc, done))
  {
  }

  lemma {:induction false} ArgDeltaMute(parse: Parser, s: State, data: Text)
    ensures Mute(s, HandleArgDelta(parse, s, data))
  {
    hide ParseDelta;
  }

  lemma {:induction false} SearchEventMute(parse: Parser, s: State, ev: Event)
    ensures Mute(s, HandleSearchEvent(parse, s, ev))
  {
    hide EmitSearch, MakeSearch, EventSearchId, DecodeObject, Mute;
    NothingMute(s);
    forall call ensures Mute(s, EmitSearch(s, call)) { SearchMute(s, call); }
  }

  lemma {:induction false} ThoughtSaid(parse: Parser, s: State, ev: Event)
    requires ev.name == "response.reasoning_text.delta" || ev.name == "response.reasoning_summary_text.delta"
    ensures Says(s, HandleReasoning(parse, s, ev.data), [], false, ThoughtIn(parse, ev))
  {
    assert s.final + [] == s.final && s.structured + [] == s.structured;
    var d := ParseDelta(parse, ev.data);
    assert ThoughtIn(parse, ev) == if d.Delta? then [d.delta] else [];
    if d.Delta? {
      hide ParseDelta, ThoughtIn;
      var s1 := OpenThinking(s);
      var opening := if s.activeThinking.None? then [Start(s1.activeThinking.value, ThinkingStart)] else [];
      NoDeltas(opening);
      var one := [ThinkingDelta(s1.activeThinking.value, d.delta)];
      assert one[1..] == [] && Deltas(one) == [] && Thinking(one) == [d.delta];
      DeltasAppend(opening, one);
    }
  }

  /** An item says the texts of a message, if it is one and does not come too late. */
  lemma {:induction false} ItemSaid(parse: Parser, s: State, ev: Event)
    requires IsItemEvent(ev.name)
    ensures Says(s, HandleItem(parse, s, ev), if s.sawText then [] else MessageIn(parse, ev), false, [])
  {
    hide EmitSearch, MakeSearch, ItemSearchId, HandleMessageItem, HandleToolCall, Mute, Says, PartTexts;
    NothingMute(s);
    MuteSays(s, Step(s, []));
    MessageIsNoCall(parse, ev);
    var tc := ItemToolCall(parse, ev.data);
    if tc.Some? {
      var done := ev.name == "response.output_item.done";
      ToolCallMute(s, tc.value, done);
      MuteSays(s, HandleToolCall(s, tc.value, done));
    } else {
      hide ItemToolCall;
      match Decode(parse, ev.data)
      case Some(Obj(v)) =>
        if ObjectAt(v, "item").Some? { NoCallSaid(parse, s, ev, v); }
      case _ =>
    }
  }

  lemma {:induction false} NoCallSaid(parse: Parser, s: State, ev: Event, v: Fields)
    requires IsItemEvent(ev.name) && Decode(parse, ev.data) == Some(Obj(v)) && ObjectAt(v, "item").Some?
    requires ItemToolCall(parse, ev.data).None?
    ensures Says(s, HandleItem(parse, s, ev), if s.sawText then [] else MessageIn(parse, ev), false, [])
  {
    hide EmitSearch, MakeSearch, ItemSearchId, HandleMessageItem, ItemToolCall, Mute, Says, PartTexts;
    NothingMute(s);
    MuteSays(s, Step(s, []));
    var item := ObjectAt(v, "item").value;
    MessageSaid(s, item);
    TypesDiffer();
    if HasString(item, "type", "web_search_call") && ItemSearchId(item, "output_item").Some? {
      var call := MakeSearch(ItemSearchId(item, "output_item").value, item);
      SearchMute(s, call);
      MuteSays(s, EmitSearch(s, call));
    }
  }

  lemma {:induction false} TypesDiffer()
    ensures Lit("message") != Lit("web_search_call") && Lit("message") != Lit("function_call")
    ensures Lit("message") != Lit("custom_tool_call") && Lit("message") != Lit("tool_search_call")
    ensures Lit("message") != Lit("local_shell_call")
  {
    assert |Lit("message")| == 7 && |Lit("web_search_call")| == 15 && |Lit("function_call")| == 13;
    assert |Lit("custom_tool_call")| == 16 && |Lit("tool_search_call")| == 16 && |Lit("local_shell_call")| == 16;
  }

  lemma {:induction false} MessageIsNoCall(parse: Parser, ev: Event)
    ensures ItemToolCall(parse, ev.data).Some? ==> MessageIn(parse, ev) == []
  {
    TypesDiffer();
    hide PartTexts, ParseFunctionCall, ParseCustomToolCall, ParseToolSearchCall, ParseLocalShellCall;
  }

  lemma {:induction false} SaidCounted(s: State, searches: set<Text>, t: Step, texts: seq<Text>, delta: bool,
                                       thoughts: seq<Text>)
    requires Says(s.(completedSearches := searches), t, texts, delta, thoughts)
    ensures Says(s, t, texts, delta, thoughts)
  {
  }

  lemma {:induction false} EventNamesDiffer()
    ensures "response.output_text.delta" != "response.output_item.added"
      && "response.output_text.delta" != "response.output_item.done"
    ensures "response.output_text.delta" != "response.reasoning_text.delta"
      && "response.output_text.delta" != "response.reasoning_summary_text.delta"
    ensures "response.output_item.added" != "response.reasoning_text.delta"
      && "response.output_item.added" != "response.reasoning_summary_text.delta"
    ensures "response.output_item.done" != "response.reasoning_text.delta"
      && "response.output_item.done" != "response.reasoning_summary_text.delta"
    ensures "response.output_item.added" != "response.output_item.done"
  {
    assert "response.output_text.delta"[16] == 't' && "response.output_item.added"[16] == 'i';
    assert |"response.output_text.delta"| == 26 && |"response.output_item.done"| == 25;
    assert |"response.output_item.added"| == 26;
    assert |"response.reasoning_text.delta"| == 29 && |"response.reasoning_summary_text.delta"| == 37;
  }

  /** An event that does not end the stream says what its own data says. */
  lemma {:induction false} EventSaid(parse: Parser, s: State, ev: Event)
    requires !Terminal(parse, ev)
    ensures var texts := DeltaIn(parse, ev) + if s.sawText then [] else MessageIn(parse, ev);
            Says(s, MapEvent(parse, s, ev), texts, DeltaIn(parse, ev) != [], ThoughtIn(parse, ev))
  {
    hide IsFailure, HandleTextDelta, HandleItem, HandleSearchEvent, HandleArgDelta, HandleReasoning;
    hide HandleCompleted, SearchesShown, Says, Mute, DeltaIn, MessageIn, ThoughtIn;
    EventNamesDiffer();
    ByName(parse, ev);
    var searches := s.completedSearches + SearchesShown(parse, ev);
    var s1, t := s.(completedSearches := searches), MapEvent(parse, s, ev);
    assert DeltaIn(parse, ev) + [] == DeltaIn(parse, ev) && [] + MessageIn(parse, ev) == MessageIn(parse, ev);
    if ev.name == "response.output_text.delta" {
      DeltaSaid(parse, s1, ev);
      SaidDelta(s1, t, DeltaIn(parse, ev));
      SaidCounted(s, searches, t, DeltaIn(parse, ev), DeltaIn(parse, ev) != [], []);
    } else if IsItemEvent(ev.name) {
      ItemSaid(parse, s1, ev);
      SaidCounted(s, searches, t, if s.sawText then [] else MessageIn(parse, ev), false, []);
    } else if ev.name == "response.reasoning_text.delta" || ev.name == "response.reasoning_summary_text.delta" {
      OtherNames(ev.name);
      ThoughtSaid(parse, s1, ev);
      SaidCounted(s, searches, t, [], false, ThoughtIn(parse, ev));
    } else {
      NothingMute(s1);
      SearchEventMute(parse, s1, ev);
      ArgDeltaMute(parse, s1, ev.data);
      assert Mute(s1, t);
      MuteSays(s1, t);
      SaidCounted(s, searches, t, [], false, []);
    }
  }

  lemma {:induction false} OtherNames(name: string)
    requires name == "response.reasoning_text.delta" || name == "response.reasoning_summary_text.delta"
    ensures !IsItemEvent(name) && !IsArgEvent(name) && name != "response.web_search_call.completed"
    ensures name != "response.output_text.delta" && name != "response.completed"
  {
    EventNamesDiffer();
    assert |"response.reasoning_text.delta"| == 29 && |"response.reasoning_summary_text.delta"| == 37;
    assert |"response.web_search_call.completed"| == 34 && |"response.completed"| == 18;
    assert |"response.function_call_arguments.delta"| == 38;
    assert |"response.custom_tool_call_input.delta"| == 37;
    assert "response.custom_tool_call_input.delta"[9] == 'c' && "response.reasoning_summary_text.delta"[9] == 'r';
  }

  /** Whether a step that says nothing was one of a delta does not matter. */
  lemma {:induction false} SaidDelta(s: State, t: Step, texts: seq<Text>)
    requires Says(s, t, texts, true, [])
    ensures Says(s, t, texts, texts != [], [])
  {
  }

  lemma {:induction false} ByName(parse: Parser, ev: Event)
    ensures ev.name != "response.output_text.delta" ==> DeltaIn(parse, ev) == []
    ensures !IsItemEvent(ev.name) ==> MessageIn(parse, ev) == []
    ensures ev.name != "response.reasoning_text.delta" && ev.name != "response.reasoning_summary_text.delta"
      ==> ThoughtIn(parse, ev) == []
  {
  }

  // ----- the whole run -----

  /** What a run that has not ended has said. */
  ghost predicate Told(parse: Parser, schema: Json, t: Step, evs: seq<Event>) {
    var shown := Shown(parse, schema != Null, evs);
    && !t.s.completed && t.s.schema == schema && t.s.sawText == Spoken(parse, schema != Null, evs)
    && t.s.final == Concat(shown) && t.s.structured == (if schema == Null then [] else Concat(shown))
    && Deltas(t.out) == (if schema == Null then shown else [])
    && Thinking(t.out) == Thoughts(parse, evs)
  }

  lemma {:induction false} SpokenStep(parse: Parser, structured: bool, before: seq<Event>, ev: Event)
    ensures Spoken(parse, structured, before + [ev])
      <==> Spoken(parse, structured, before) || DeltaIn(parse, ev) != [] || (structured && MessageIn(parse, ev) != [])
  {
    hide DeltaIn, MessageIn;
    var all := before + [ev];
    assert ev in all && forall x | x in before :: x in all;
    if Spoken(parse, structured, all) {
      var x :| x in all && (DeltaIn(parse, x) != [] || (structured && MessageIn(parse, x) != []));
      assert x == ev || x in before;
    }
  }

  lemma {:induction false} ShownStep(parse: Parser, structured: bool, before: seq<Event>, ev: Event)
    ensures Shown(parse, structured, before + [ev])
      == Shown(parse, structured, before)
         + (DeltaIn(parse, ev) + if Spoken(parse, structured, before) then [] else MessageIn(parse, ev))
    ensures Thoughts(parse, before + [ev]) == Thoughts(parse, before) + ThoughtIn(parse, ev)
  {
    hide DeltaIn, MessageIn, ThoughtIn, Spoken;
    var all := before + [ev];
    assert all[..|all| - 1] == before && all[|all| - 1] == ev;
  }

  lemma {:induction false} DeltaOrMessage(parse: Parser, ev: Event)
    ensures DeltaIn(parse, ev) == [] || MessageIn(parse, ev) == []
  {
    EventNamesDiffer();
    hide TextsIn, PartTexts, Decode;
  }

  lemma {:induction false} ToldStep(parse: Parser, schema: Json, t: Step, before: seq<Event>, ev: Event, next: Step,
                                    texts: seq<Text>)
    requires Told(parse, schema, t, before)
    requires texts == DeltaIn(parse, ev) + if t.s.sawText then [] else MessageIn(parse, ev)
    requires Says(t.s, next, texts, DeltaIn(parse, ev) != [], ThoughtIn(parse, ev))
    ensures Told(parse, schema, Step(next.s, t.out + next.out), before + [ev])
  {
    hide DeltaIn, MessageIn, ThoughtIn, Spoken, Shown, Thoughts, Deltas, Thinking, Concat;
    var structured := schema != Null;
    SpokenStep(parse, structured, before, ev);
    ShownStep(parse, structured, before, ev);
    DeltaOrMessage(parse, ev);
    ConcatAppend(Shown(parse, structured, before), texts);
    DeltasAppend(t.out, next.out);
  }

  lemma {:induction false} NothingTold(parse: Parser, schema: Json, contextManagement: Json)
    ensures Told(parse, schema, Stream(parse, schema, contextManagement, []), [])
  {
  }

  /** Of every stream that has not ended, failed completions included: its text deltas are the texts of the
      events, in order, each one a delta of its own; with a schema there are none yet. Its thinking deltas are
      the thoughts of the events. */
  lemma {:induction false} StreamTold(parse: Parser, schema: Json, contextManagement: Json, evs: seq<Event>)
    requires !Over(parse, evs)
    ensures Told(parse, schema, Stream(parse, schema, contextManagement, evs), evs)
    decreases |evs|
  {
    hide MapEvent, Told, Unfinishable, IsFailure, Says;
    if evs == [] {
      NothingTold(parse, schema, contextManagement);
    } else {
      var before, ev := evs[..|evs| - 1], evs[|evs| - 1];
      assert evs == before + [ev];
      StreamTold(parse, schema, contextManagement, before);
      RunNamed(parse, schema, contextManagement, before);
      StreamSnoc(parse, schema, contextManagement, before, ev);
      var t := Stream(parse, schema, contextManagement, before);
      hide Stream;
      NamedOpen(parse, t, before);
      if Terminal(parse, ev) {
        FailedTold(parse, schema, t, before, ev);
      } else {
        EventSaid(parse, t.s, ev);
        ToldStep(parse, schema, t, before, ev, Translate(parse, t.s, ev),
                 DeltaIn(parse, ev) + if t.s.sawText then [] else MessageIn(parse, ev));
      }
    }
  }

  lemma {:induction false} CompletedSaysNothing(parse: Parser, ev: Event)
    requires ev.name == "response.completed"
    ensures DeltaIn(parse, ev) == [] && MessageIn(parse, ev) == [] && ThoughtIn(parse, ev) == []
  {
    CompletedIsNoOther(ev.name);
    ByName(parse, ev);
  }

  lemma {:induction false} FailedTold(parse: Parser, schema: Json, t: Step, before: seq<Event>, ev: Event)
    requires Told(parse, schema, t, before) && Named(parse, t, before)
    requires ev.name == "response.completed" && Unfinishable(parse, before)
    ensures var last := Translate(parse, t.s, ev);
            Told(parse, schema, Step(last.s, t.out + last.out), before + [ev])
  {
    hide Told, Named, Unfinishable, Translate, Says, DeltaIn, MessageIn, ThoughtIn, CallsUntouched;
    var last := Translate(parse, t.s, ev);
    FailureKeepsCalls(parse, t, before, ev);
    FailureMute(parse, t, before, ev);
    MuteSays(t.s, last);
    CompletedSaysNothing(parse, ev);
    var none: seq<Text> := [];
    assert none + none == none;
    ToldStep(parse, schema, t, before, ev, last, none);
  }

  lemma {:induction false} FailureMute(parse: Parser, t: Step, before: seq<Event>, ev: Event)
    requires Named(parse, t, before) && ev.name == "response.completed" && Unfinishable(parse, before)
    ensures Mute(t.s, Translate(parse, t.s, ev))
  {
    hide HandleCompleted, Translate, CallInput, EmitSearches, OutputSearches, CompletedOutput, UsageOf, Named;
    hide Unfinishable, Mute;
    NamedOpen(parse, t, before);
    CompletedMaps(parse, t.s, ev);
    var s1 := Counted(parse, t.s, ev);
    UnfinishableMeans(parse, t, before);
    SameCallInput(parse, t.s, s1);
    CompletedFails(parse, s1, ev.data);
    TornState(parse, s1, ev.data);
    var calls := OutputSearches(CompletedOutput(parse, ev.data), 0);
    SearchesMute(RecordUsage(parse, s1, ev.data), calls);
    ErrorMute(parse, t.s, ev, EmitSearches(RecordUsage(parse, s1, ev.data), calls));
  }

  lemma {:induction false} ErrorMute(parse: Parser, s: State, ev: Event, t: Step)
    requires Mute(RecordUsage(parse, Counted(parse, s, ev), ev.data), t)
    ensures Mute(s, Step(t.s, [Error(BadArguments)]))
  {
    hide SearchesShown, UsageOf;
  }

  // ----- the answer -----

  /** The text of the answer: all that was said, cleaned up if there is a schema. */
  ghost function AnswerText(parse: Parser, schema: Json, evs: seq<Event>): Text {
    Cleanup(parse, schema, Concat(Shown(parse, schema != Null, evs)))
  }

  /** On every error-free stream that completes: the streamed text and the unary text are what the events said;
      without a schema each text is a delta of its own, with one there is at most one delta; and the thinking is
      what the events thought. */
  lemma {:induction false} AnswerSaid(parse: Parser, schema: Json, contextManagement: Json, evs: seq<Event>)
    requires Stream(parse, schema, contextManagement, evs).s.completed
    requires ErrorFree(Stream(parse, schema, contextManagement, evs).out)
    ensures var seen, out := BeforeEnd(parse, evs), Stream(parse, schema, contextManagement, evs).out;
            var text := AnswerText(parse, schema, seen);
            && TextOf(out) == text && UnaryText(BuildUnary(parse, schema, evs).content) == text
            && Deltas(out) == (if schema == Null then Shown(parse, false, seen) else if Blank(text) then [] else [text])
            && Thinking(out) == Thoughts(parse, seen)
  {
    var seen := BeforeEnd(parse, evs);
    StreamAgreesWithUnary(parse, schema, contextManagement, evs);
    NotOver(parse, seen);
    StreamTold(parse, schema, contextManagement, seen);
    AllAtCompletion(parse, schema, contextManagement, evs);
    hide Stream, Shown, Thoughts, BeforeEnd, UnaryText, TextOf, Deltas, Thinking, Cleanup, Concat, BuildUnary;
    var before, all := Stream(parse, schema, contextManagement, seen), Stream(parse, schema, contextManagement, evs);
    TextOfDeltas(all.out);
    AnswerOfDeltas(parse, schema, seen, all.out);
  }

  lemma {:induction false} AnswerOfDeltas(parse: Parser, schema: Json, seen: seq<Event>, out: seq<Sse>)
    requires var text := AnswerText(parse, schema, seen);
             Deltas(out) == if schema == Null then Shown(parse, false, seen) else if Blank(text) then [] else [text]
    requires Blank(AnswerText(parse, schema, seen)) ==> AnswerText(parse, schema, seen) == []
    ensures Concat(Deltas(out)) == AnswerText(parse, schema, seen)
  {
    hide Shown, Deltas, Blank;
    OneText(AnswerText(parse, schema, seen));
  }

  /** A stream that completes without error ends at its first terminal event, which says only the text that
      was held back. */
  lemma {:induction false} AllAtCompletion(parse: Parser, schema: Json, contextManagement: Json, evs: seq<Event>)
    requires Stream(parse, schema, contextManagement, evs).s.completed
    requires ErrorFree(Stream(parse, schema, contextManagement, evs).out)
    ensures var seen, out := BeforeEnd(parse, evs), Stream(parse, schema, contextManagement, evs).out;
            var text := AnswerText(parse, schema, seen);
            && Deltas(out) == (if schema == Null then Shown(parse, false, seen) else if Blank(text) then [] else [text])
            && Thinking(out) == Thoughts(parse, seen)
            && (Blank(text) ==> text == [])
  {
    hide MapEvent, BeforeEnd, Named, Translate, IsFailure, Told;
    var seen := BeforeEnd(parse, evs);
    var before, all := Stream(parse, schema, contextManagement, seen), Stream(parse, schema, contextManagement, evs);
    NotOver(parse, seen);
    RunNamed(parse, schema, contextManagement, seen);
    StreamTold(parse, schema, contextManagement, seen);
    NamedOpen(parse, before, seen);
    assert seen <= evs && (|seen| == |evs| ==> seen == evs);
    var ev := evs[|seen|];
    assert evs == seen + [ev] + evs[|seen| + 1..];
    RunAppend(parse, NewState(schema, contextManagement), seen + [ev], evs[|seen| + 1..]);
    StreamSnoc(parse, schema, contextManagement, seen, ev);
    var last := Translate(parse, before.s, ev);
    var rest := Run(parse, last.s, evs[|seen| + 1..]);
    assert all.out == before.out + last.out + rest.out;
    assert ErrorFree(last.out);
    LastEvent(parse, before.s, ev);
    CompletedRun(parse, last.s, evs[|seen| + 1..]);
    assert all.out == before.out + last.out;
    hide Stream;
    LastSaid(parse, schema, before, seen, ev);
  }

  lemma {:induction false} LastSaid(parse: Parser, schema: Json, t: Step, seen: seq<Event>, ev: Event)
    requires Told(parse, schema, t, seen) && Terminal(parse, ev) && ErrorFree(Translate(parse, t.s, ev).out)
    ensures var out := t.out + Translate(parse, t.s, ev).out;
            var text := AnswerText(parse, schema, seen);
            && Deltas(out) == (if schema == Null then Shown(parse, false, seen) else if Blank(text) then [] else [text])
            && Thinking(out) == Thoughts(parse, seen)
            && (Blank(text) ==> text == [])
  {
    hide HandleCompleted, Counted, Deltas, Thinking, Shown, Thoughts, Spoken, Concat, Translate, Cleanup, Blank;
    if IsFailure(parse, ev) {
      FailedTranslates(parse, t.s, ev);
    } else {
      hide IsFailure;
      CompletedMaps(parse, t.s, ev);
      CompletionSaid(parse, t.s, ev);
      DeltasAppend(t.out, Translate(parse, t.s, ev).out);
      BlankShown(parse, schema != Null, seen);
      BlankCleanup(parse, schema, Concat(Shown(parse, schema != Null, seen)));
      var none: seq<Text> := [];
      assert Deltas(t.out) + none == Deltas(t.out) && Thinking(t.out) + none == Thinking(t.out);
    }
  }

  lemma {:induction false} FailedTranslates(parse: Parser, s: State, ev: Event)
    requires !s.completed && IsFailure(parse, ev)
    ensures !ErrorFree(Translate(parse, s, ev).out)
  {
    FailureErrs(parse, s, ev);
  }

  /** Nothing said is blank, so a blank answer is empty. */
  lemma {:induction false} BlankShown(parse: Parser, structured: bool, evs: seq<Event>)
    ensures Blank(Concat(Shown(parse, structured, evs))) ==> Shown(parse, structured, evs) == []
  {
    ShownNotBlank(parse, structured, evs);
    hide Shown, Blank, Concat;
    if Shown(parse, structured, evs) != [] { ConcatNonBlank(Shown(parse, structured, evs)); }
  }

  lemma {:induction false} ShownNotBlank(parse: Parser, structured: bool, evs: seq<Event>)
    ensures forall text | text in Shown(parse, structured, evs) :: !Blank(text)
    decreases |evs|
  {
    hide Blank, Spoken;
    if evs != [] {
      var before, ev := evs[..|evs| - 1], evs[|evs| - 1];
      ShownNotBlank(parse, structured, before);
      SaidNotBlank(parse, ev);
      hide DeltaIn, MessageIn;
    }
  }

  lemma {:induction false} SaidNotBlank(parse: Parser, ev: Event)
    ensures forall text | text in DeltaIn(parse, ev) + MessageIn(parse, ev) :: !Blank(text)
  {
    hide TextsIn, Blank;
    forall parts ensures forall text | text in PartTexts(parts) :: !Blank(text) { PartsNotBlank(parts); }
    hide PartTexts;
  }

  lemma {:induction false} PartsNotBlank(parts: seq<Json>)
    ensures forall text | text in PartTexts(parts) :: !Blank(text)
    decreases |parts|
  {
    hide Blank;
    if parts != [] { PartsNotBlank(parts[..|parts| - 1]); }
  }

  lemma {:induction false} BlankCleanup(parse: Parser, schema: Json, text: Text)
    ensures text == [] ==> Cleanup(parse, schema, text) == []
    ensures schema == Null ==> Cleanup(parse, schema, text) == text
    ensures Blank(Cleanup(parse, schema, text)) <==> Blank(text)
    ensures Concat([]) == []
  {
  }

  lemma {:induction false} CompletionSaid(parse: Parser, s: State, ev: Event)
    requires ErrorFree(HandleCompleted(parse, Counted(parse, s, ev), ev.data).out)
    ensures var out := HandleCompleted(parse, Counted(parse, s, ev), ev.data).out;
            && Deltas(out) == (if s.schema == Null || Blank(s.structured) then []
                                else [Cleanup(parse, s.schema, s.structured)])
            && Thinking(out) == []
  {
    hide OutputSearches, CompletedOutput, UsageOf, EmitSearches, FinishCall, Finalize, InputDeltas, CallOrder;
    hide Deltas, Thinking, Cleanup, Blank, SearchesShown, ErrorFree;
    var s1 := RecordUsage(parse, Counted(parse, s, ev), ev.data);
    var calls := OutputSearches(CompletedOutput(parse, ev.data), 0);
    var searched := EmitSearches(s1, calls);
    SearchesMute(s1, calls);
    NoDeltas(searched.out);
    BridgeSearches.BadArgumentsShown(FinishCall(parse, searched).out);
    FinishesCleanly(parse, searched);
    var inputs := InputDeltas(parse, searched.s, CallOrder(searched.s.toolBlocks)).value;
    InputsMute(parse, searched.s, CallOrder(searched.s.toolBlocks));
    FinalizeSaid(parse, searched.s);
    DeltasAppend(searched.out + inputs, Finalize(parse, searched.s).out);
    DeltasAppend(searched.out, inputs);
  }

  lemma {:induction false} InputsMute(parse: Parser, s: State, calls: seq<Text>)
    requires (forall c | c in calls :: c in s.toolBlocks) && InputDeltas(parse, s, calls).Some?
    ensures Deltas(InputDeltas(parse, s, calls).value) == [] && Thinking(InputDeltas(parse, s, calls).value) == []
  {
    hide CallInput, InputDeltas;
    var out := InputDeltas(parse, s, calls).value;
    forall e | e in out ensures e.InputDelta? {
      var i :| 0 <= i < |out| && out[i] == e;
    }
    NoDeltas(out);
  }

  lemma {:induction false} FinalizeSaid(parse: Parser, s: State)
    ensures var out := Finalize(parse, s).out;
            && Deltas(out) == (if s.schema == Null || Blank(s.structured) then []
                                else [Cleanup(parse, s.schema, s.structured)])
            && Thinking(out) == []
  {
    FinalizeShape(parse, s);
    var flushed := FlushStructured(parse, s.(completed := true));
    StopsSilent(flushed.s.blocks);
    FlushSaid(parse, s.(completed := true));
    hide Finalize, FlushStructured, StopsOf, Deltas, Thinking, Cleanup, Blank;
    var reason := if flushed.s.toolBlocks == map[] then EndTurn else ToolUse;
    var ending := StopsOf(flushed.s.blocks)
      + [MessageDelta(reason, flushed.s.usage, flushed.s.contextManagement), MessageStop];
    NoDeltas(ending);
    DeltasAppend(flushed.out, ending);
    var none: seq<Text> := [];
    assert Deltas(flushed.out) + none == Deltas(flushed.out);
  }

  lemma {:induction false} FlushSaid(parse: Parser, s: State)
    ensures var out := FlushStructured(parse, s).out;
            && Deltas(out) == (if s.schema == Null || Blank(s.structured) then []
                                else [Cleanup(parse, s.schema, s.structured)])
            && Thinking(out) == []
  {
    hide Cleanup, Blank, OpenText;
    OpenTextKeeps(s);
    var i := OpenText(s).activeText.value;
    var opening := if s.activeText.None? then [Start(i, TextStart)] else [];
    var delta := [TextDelta(i, Cleanup(parse, s.schema, s.structured))];
    NoDeltas(opening);
    assert delta[1..] == [] && Deltas(delta) == [Cleanup(parse, s.schema, s.structured)] && Thinking(delta) == [];
    DeltasAppend(opening, delta);
  }

  // ----- with a schema the answer meets it -----

  /** If the backend's text decodes to a value that is valid under the strict schema, the streamed text and the
      unary text decode to one that is valid under the client's. */
  lemma {:induction false} AnswerMeetsSchema(parse: Parser, schema: Json, contextManagement: Json, evs: seq<Event>,
                                             v: Json, rule: SchemaPair.KeywordRule)
    requires Stream(parse, schema, contextManagement, evs).s.completed
    requires ErrorFree(Stream(parse, schema, contextManagement, evs).out)
    requires schema != Null && SchemaPair.Supported(schema) && SchemaPair.Removable(schema, rule)
    requires Decode(parse, Concat(Shown(parse, true, BeforeEnd(parse, evs)))) == Some(v)
    requires SchemaPair.Valid(v, StrictSchema.Strict(schema), rule)
    ensures var out := Stream(parse, schema, contextManagement, evs).out;
            && UnaryText(BuildUnary(parse, schema, evs).content) == TextOf(out)
            && Decode(parse, TextOf(out)) == Some(RemoveNulls(v, schema))
            && SchemaPair.Valid(RemoveNulls(v, schema), schema, rule)
  {
    AnswerSaid(parse, schema, contextManagement, evs);
    SchemaPair.Sound(v, schema, rule);
    hide Stream, BuildUnary, TextOf, UnaryText, Deltas, Thinking, Thoughts, Shown, BeforeEnd, SchemaPair.Valid;
    CleanupDecodes(parse, schema, Concat(Shown(parse, true, BeforeEnd(parse, evs))), v);
  }

  lemma {:induction false} CleanupDecodes(parse: Parser, schema: Json, text: Text, v: Json)
    requires schema != Null && Decode(parse, text) == Some(v)
    ensures Decode(parse, Cleanup(parse, schema, text)) == Some(RemoveNulls(v, schema))
  {
    var cleaned := Encode(RemoveNulls(v, schema));
    assert !IsSpace(cleaned[0]) && !Blank(cleaned);
  }
}

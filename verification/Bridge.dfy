/** The streaming bridge as functions: each backend event maps a state to a new state and to the
    Anthropic events it emits. */
module Bridge {
  import opened Json
  import opened ToolCalls
  import opened ResponseGate

  // ----- data -----

  datatype Event = Event(name: string, data: Text)

  datatype Block = Block(index: nat, closed: bool)

  datatype Usage = Usage(input: int, cached: int, output: int, reasoning: int, total: int, searches: nat)

  datatype SearchCall = SearchCall(callId: Text, toolUseId: Text, query: Option<Text>, results: seq<Json>)

  datatype BlockStart =
    | TextStart
    | ThinkingStart
    | ToolUseStart(callId: Text, name: Text)
    | ServerToolUseStart(toolUseId: Text, query: Option<Text>)
    | SearchResultStart(toolUseId: Text, results: seq<Json>)

  datatype Failure = BackendFailed | BadArguments
  datatype StopReason = EndTurn | ToolUse

  /** Outgoing events. */
  datatype Sse =
    | Start(index: nat, block: BlockStart)
    | TextDelta(index: nat, text: Text)
    | ThinkingDelta(index: nat, text: Text)
    | InputDelta(index: nat, input: Fields)
    | Stop(index: nat)
    | MessageDelta(reason: StopReason, usage: Option<Usage>, contextManagement: Json)
    | MessageStop
    | Error(failure: Failure)

  datatype State = State(
    nextIndex: nat,
    blocks: seq<Block>,
    activeText: Option<nat>,
    sawText: bool,
    schema: Json,
    structured: Text,
    final: Text,
    activeThinking: Option<nat>,
    toolBlocks: map<Text, nat>,
    toolNames: map<Text, Text>,
    toolKinds: map<Text, Kind>,
    toolArgs: map<Text, Text>,
    lastTool: Option<Text>,
    usage: Option<Usage>,
    contextManagement: Json,
    completedSearches: set<Text>,
    emittedSearches: set<Text>,
    completed: bool)

  datatype Step = Step(s: State, out: seq<Sse>)

  function NewState(schema: Json, contextManagement: Json): State {
    State(0, [], None, false, schema, [], [], None, map[], map[], map[], map[], None, None, contextManagement, {}, {},
      false)
  }

  // ----- blocks -----

  function AddBlock(s: State): State {
    s.(nextIndex := s.nextIndex + 1, blocks := s.blocks + [Block(s.nextIndex, false)])
  }

  function OpenText(s: State): State {
    if s.activeText.Some? then s else AddBlock(s).(activeText := Some(s.nextIndex))
  }

  function OpenThinking(s: State): State {
    if s.activeThinking.Some? then s else AddBlock(s).(activeThinking := Some(s.nextIndex))
  }

  function EnsureTool(s: State, callId: Text): State {
    if callId in s.toolBlocks then s
    else AddBlock(s).(toolBlocks := s.toolBlocks[callId := s.nextIndex],
                      toolArgs := if callId in s.toolArgs then s.toolArgs else s.toolArgs[callId := []])
  }

  // ----- text -----

  /** extractDeltaText: text that is not JSON is taken as it is, otherwise the last text found wins. */
  function DeltaText(parse: Parser, data: Text): Option<Text> {
    match Decode(parse, data)
    case None => Some(data)
    case Some(v) => LastText(v, None)
  }

  /** The walk order is text, delta, content, then the other keys in sorted order. */
  function LastText(v: Json, last: Option<Text>): Option<Text>
    decreases v, 1
  {
    match v
    case Obj(m) =>
      var l1 := if StringAt(m, "text").Some? then StringAt(m, "text") else last;
      var l2 := if StringAt(m, "delta").Some? then StringAt(m, "delta") else l1;
      var l3 := if "content" in m then LastText(m["content"], l2) else l2;
      LastTextAtKeys(v, Sorted(m.Keys - {"text", "delta", "content"}), l3)
    case Arr(items) => LastTextInList(items, last)
    case _ => last
  }

  function LastTextAtKeys(v: Json, keys: seq<string>, last: Option<Text>): Option<Text>
    requires v.Obj? && forall k | k in keys :: k in v.fields
    decreases v, 0, |keys|
  {
    if keys == [] then last
    else LastTextAtKeys(v, keys[1..], LastText(v.fields[keys[0]], last))
  }

  function LastTextInList(items: seq<Json>, last: Option<Text>): Option<Text>
    decreases items, 0
  {
    if items == [] then last else LastTextInList(items[1..], LastText(items[0], last))
  }

  /** An event whose other fields hold no nested values carries its `delta`, whatever else it holds. */
  lemma {:induction false} FlatDelta(parse: Parser, m: Fields, text: Text)
    requires StringAt(m, "delta") == Some(text) && "content" !in m
    requires forall k | k in m :: !m[k].Obj? && !m[k].Arr?
    ensures DeltaText(parse, Encode(Obj(m))) == Some(text)
  {
    assert Encode(Obj(m))[0] == Enc(Obj(m)) && !Blank(Encode(Obj(m)));
    FlatKeys(Obj(m), Sorted(m.Keys - {"text", "delta", "content"}), Some(text));
  }

  lemma {:induction false} FlatKeys(v: Json, keys: seq<string>, last: Option<Text>)
    requires v.Obj? && forall k | k in keys :: k in v.fields
    requires forall k | k in v.fields :: !v.fields[k].Obj? && !v.fields[k].Arr?
    ensures LastTextAtKeys(v, keys, last) == last
    decreases |keys|
  {
    if keys != [] { FlatKeys(v, keys[1..], last); }
  }

  function HandleTextDelta(parse: Parser, s: State, data: Text): Step {
    var text := DeltaText(parse, data);
    if text.None? || Blank(text.value) then Step(s, [])
    else if s.schema != Null then
      Step(s.(structured := s.structured + text.value, final := s.final + text.value, sawText := true), [])
    else EmitTexts(s.(sawText := true), [text.value])
  }

  /** Opens the text block if needed and emits one delta per text. */
  function EmitTexts(s: State, texts: seq<Text>): Step {
    var s1 := OpenText(s);
    var i := s1.activeText.value;
    Step(s1.(final := s.final + Concat(texts)),
         (if s.activeText.None? then [Start(i, TextStart)] else []) + TextDeltas(i, texts))
  }

  function TextDeltas(i: nat, texts: seq<Text>): (r: seq<Sse>)
    ensures |r| == |texts| && forall j | 0 <= j < |r| :: r[j] == TextDelta(i, texts[j])
  {
    seq(|texts|, j requires 0 <= j < |texts| => TextDelta(i, texts[j]))
  }

  /** The non-blank output_text parts of a message item. */
  function OutputTexts(content: seq<Json>): (r: seq<Text>)
    ensures forall t | t in r :: !Blank(t)
  {
    if content == [] then []
    else
      var c := content[0];
      var rest := OutputTexts(content[1..]);
      if c.Obj? && HasString(c.fields, "type", "output_text") && StringAt(c.fields, "text").Some?
         && !Blank(StringAt(c.fields, "text").value)
      then [StringAt(c.fields, "text").value] + rest else rest
  }

  function HandleMessageItem(s: State, item: Fields): Step {
    var texts := if "content" in item && item["content"].Arr? then OutputTexts(item["content"].items) else [];
    if s.sawText || texts == [] then Step(s, [])
    else if s.schema != Null then
      Step(s.(structured := s.structured + Concat(texts), final := s.final + Concat(texts), sawText := true), [])
    else EmitTexts(s, texts)
  }

  // ----- thinking and tool calls -----

  datatype DeltaFields = NoDelta | Delta(callId: Option<Text>, delta: Text)

  function ParseDelta(parse: Parser, data: Text): DeltaFields {
    match DecodeObject(parse, data)
    case None => NoDelta
    case Some(v) => if StringAt(v, "delta").None? then NoDelta
      else Delta(StringAt(v, "call_id"), StringAt(v, "delta").value)
  }

  function HandleReasoning(parse: Parser, s: State, data: Text): Step {
    match ParseDelta(parse, data)
    case NoDelta => Step(s, [])
    case Delta(_, delta) =>
      var s1 := OpenThinking(s);
      var i := s1.activeThinking.value;
      Step(s1, (if s.activeThinking.None? then [Start(i, ThinkingStart)] else []) + [ThinkingDelta(i, delta)])
  }

  function HandleToolCall(s: State, tc: ToolCall, finalItem: bool): Step {
    var s1 := EnsureTool(s, tc.callId);
    var s2 := s1.(lastTool := Some(tc.callId),
                  toolNames := s.toolNames[tc.callId := tc.name],
                  toolKinds := s.toolKinds[tc.callId := tc.kind],
                  toolArgs := if finalItem then s1.toolArgs[tc.callId := tc.arguments] else s1.toolArgs);
    Step(s2, if tc.callId in s.toolBlocks then [] else [Start(s.nextIndex, ToolUseStart(tc.callId, tc.name))])
  }

  function ArgsAt(s: State, callId: Text): Text {
    if callId in s.toolArgs then s.toolArgs[callId] else []
  }

  function AppendArgs(s: State, callId: Text, delta: Text): State {
    var s1 := EnsureTool(s, callId);
    s1.(toolArgs := s1.toolArgs[callId := ArgsAt(s1, callId) + delta])
  }

  function HandleArgDelta(parse: Parser, s: State, data: Text): Step {
    match ParseDelta(parse, data)
    case NoDelta => Step(s, [])
    case Delta(id, delta) =>
      if id.None? && s.lastTool.None? then Step(s, [])
      else
        var callId := if id.Some? then id.value else s.lastTool.value;
        Step(AppendArgs(s, callId, delta),
             if callId in s.toolBlocks then [] else [Start(s.nextIndex, ToolUseStart(callId, []))])
  }

  // ----- web searches -----

  function SignedDecimal(n: int): string {
    if n < 0 then "-" + Decimal(-n) else Decimal(n)
  }

  /** The first of id, call_id, item_id that is a string, even an empty one. */
  function SearchId(m: Fields): Text {
    if StringAt(m, "id").Some? then StringAt(m, "id").value
    else if StringAt(m, "call_id").Some? then StringAt(m, "call_id").value
    else if StringAt(m, "item_id").Some? then StringAt(m, "item_id").value
    else []
  }

  /** The id of a completed web_search_call item. */
  function ItemSearchId(item: Fields, fallback: string): Option<Text> {
    if !HasString(item, "type", "web_search_call") then None
    else if StringAt(item, "status").Some? && StringAt(item, "status").value != Lit("completed") then None
    else Some(if SearchId(item) == [] then Lit(fallback) else SearchId(item))
  }

  /** The id of a web-search event whose own type field repeats the event name. */
  function EventSearchId(event: Fields, name: string): Option<Text> {
    if !HasString(event, "type", name) then None
    else if SearchId(event) != [] then Some(SearchId(event))
    else if IntAt(event, "output_index").Some? then
      Some(Lit(name + ":" + SignedDecimal(IntAt(event, "output_index").value)))
    else Some(Lit(name))
  }

  predicate IsWordPiece(p: Piece) {
    p.Chr? && ('a' <= p.c <= 'z' || 'A' <= p.c <= 'Z' || '0' <= p.c <= '9' || p.c == '_')
  }

  function WordPieces(t: Text): Text {
    if t == [] then [] else (if IsWordPiece(t[0]) then [t[0]] else []) + WordPieces(t[1..])
  }

  function ServerToolUseId(callId: Text): Text {
    var word := WordPieces(callId);
    if word == [] then Lit("srvtoolu_web_search")
    else if Lit("srvtoolu_") <= word then word
    else Lit("srvtoolu_") + word
  }

  function SearchQuery(m: Fields): Option<Text> {
    if ObjectAt(m, "action").Some? && StringAt(ObjectAt(m, "action").value, "query").Some?
      then StringAt(ObjectAt(m, "action").value, "query")
    else if ObjectAt(m, "input").Some? && StringAt(ObjectAt(m, "input").value, "query").Some?
      then StringAt(ObjectAt(m, "input").value, "query")
    else StringAt(m, "query")
  }

  function SearchResults(m: Fields): seq<Json> {
    var nested := if ObjectAt(m, "action").Some? then ValueAt(ObjectAt(m, "action").value, "sources") else Null;
    var sources := if nested == Null then ValueAt(m, "sources") else nested;
    if sources.Arr? then ResultList(sources.items) else []
  }

  function ResultList(sources: seq<Json>): seq<Json> {
    if sources == [] then []
    else
      var rest := ResultList(sources[1..]);
      var source := sources[0];
      if source.Obj? && StringAt(source.fields, "url").Some? then [SearchResult(source.fields)] + rest else rest
  }

  function SearchResult(m: Fields): Json
    requires StringAt(m, "url").Some?
  {
    Obj(map["type" := Str(Lit("web_search_result"))]
        + map k | k in {"url", "title", "page_age", "encrypted_content"} && StringAt(m, k).Some? :: m[k])
  }

  function MakeSearch(id: Text, m: Fields): SearchCall {
    SearchCall(id, ServerToolUseId(id), SearchQuery(m), SearchResults(m))
  }

  /** The output items of a response.completed event. */
  function CompletedOutput(parse: Parser, data: Text): seq<Json> {
    match DecodeObject(parse, data)
    case None => []
    case Some(v) =>
      match ObjectAt(v, "response")
      case None => []
      case Some(r) => if ValueAt(r, "output").Arr? then ValueAt(r, "output").items else []
  }

  function OutputSearches(items: seq<Json>, i: nat): seq<SearchCall>
    decreases |items| - i
  {
    if i >= |items| then []
    else
      var rest := OutputSearches(items, i + 1);
      if !items[i].Obj? then rest
      else match ItemSearchId(items[i].fields, "response_output_" + Decimal(i))
        case None => rest
        case Some(id) => [MakeSearch(id, items[i].fields)] + rest
  }

  function Ids(calls: seq<SearchCall>): set<Text> {
    set c | c in calls :: c.callId
  }

  /** Every search the event shows as completed. */
  function SearchesShown(parse: Parser, ev: Event): set<Text> {
    match DecodeObject(parse, ev.data)
    case None => {}
    case Some(v) =>
      if ev.name == "response.output_item.done" then
        if ObjectAt(v, "item").None? then {}
        else match ItemSearchId(ObjectAt(v, "item").value, "output_item")
          case None => {}
          case Some(id) => {id}
      else if ev.name == "response.web_search_call.completed" then
        match EventSearchId(v, ev.name)
        case None => {}
        case Some(id) => {id}
      else if ev.name == "response.completed" then
        Ids(OutputSearches(CompletedOutput(parse, ev.data), 0))
      else {}
  }

  function EmitSearch(s: State, call: SearchCall): Step {
    if call.callId in s.emittedSearches then Step(s, [])
    else
      var i := s.nextIndex;
      Step(AddBlock(AddBlock(s)).(emittedSearches := s.emittedSearches + {call.callId}),
           [Start(i, ServerToolUseStart(call.toolUseId, call.query)), Stop(i),
            Start(i + 1, SearchResultStart(call.toolUseId, call.results)), Stop(i + 1)])
  }

  function EmitSearches(s: State, calls: seq<SearchCall>): Step
    decreases |calls|
  {
    if calls == [] then Step(s, [])
    else
      var first := EmitSearch(s, calls[0]);
      var rest := EmitSearches(first.s, calls[1..]);
      Step(rest.s, first.out + rest.out)
  }

  function HandleSearchEvent(parse: Parser, s: State, ev: Event): Step {
    match DecodeObject(parse, ev.data)
    case None => Step(s, [])
    case Some(v) =>
      match EventSearchId(v, ev.name)
      case None => Step(s, [])
      case Some(id) => EmitSearch(s, MakeSearch(id, v))
  }

  // ----- output items -----

  /** The item of an event, at the top level or inside `response`. */
  function ItemOf(v: Fields): Option<Fields> {
    if ObjectAt(v, "item").Some? then ObjectAt(v, "item")
    else if ObjectAt(v, "response").Some? then ObjectAt(ObjectAt(v, "response").value, "item")
    else None
  }

  predicate IsItemEvent(name: string) {
    name == "response.output_item.added" || name == "response.output_item.done"
  }

  function ItemToolCall(parse: Parser, data: Text): Option<ToolCall> {
    match DecodeObject(parse, data)
    case None => None
    case Some(v) => match ItemOf(v)
      case None => None
      case Some(item) => ParseItem(parse, item)
  }

  function HandleItem(parse: Parser, s: State, ev: Event): Step {
    var tc := ItemToolCall(parse, ev.data);
    if tc.Some? then HandleToolCall(s, tc.value, ev.name == "response.output_item.done")
    else match DecodeObject(parse, ev.data)
      case None => Step(s, [])
      case Some(v) =>
        match ObjectAt(v, "item")
        case None => Step(s, [])
        case Some(item) =>
          if HasString(item, "type", "web_search_call") then
            match ItemSearchId(item, "output_item")
            case None => Step(s, [])
            case Some(id) => EmitSearch(s, MakeSearch(id, item))
          else if HasString(item, "type", "message") then HandleMessageItem(s, item)
          else Step(s, [])
  }

  // ----- completion -----

  function UsageOf(parse: Parser, data: Text): Option<Usage> {
    match DecodeObject(parse, data)
    case None => None
    case Some(v) =>
      if ObjectAt(v, "response").None? || ObjectAt(ObjectAt(v, "response").value, "usage").None? then None
      else
        var u := ObjectAt(ObjectAt(v, "response").value, "usage").value;
        if IntAt(u, "input_tokens").None? || IntAt(u, "output_tokens").None? then None
        else
          var input, output := IntAt(u, "input_tokens").value, IntAt(u, "output_tokens").value;
          Some(Usage(input, Detail(u, "input_tokens_details", "cached_tokens"), output,
                     Detail(u, "output_tokens_details", "reasoning_tokens"),
                     if IntAt(u, "total_tokens").Some? then IntAt(u, "total_tokens").value else input + output, 0))
  }

  function Detail(u: Fields, group: string, k: string): int {
    if ObjectAt(u, group).Some? && IntAt(ObjectAt(u, group).value, k).Some?
      then IntAt(ObjectAt(u, group).value, k).value else 0
  }

  /** The call ids in ascending order of block index. */
  ghost function CallOrder(m: map<Text, nat>): (r: seq<Text>)
    ensures |r| == |m|
    ensures forall c :: c in r <==> c in m
    decreases |m|
  {
    if m == map[] then []
    else
      var last := LastCall(m);
      CallOrder(m - {last}) + [last]
  }

  ghost function LastCall(m: map<Text, nat>): (last: Text)
    requires m != map[]
    ensures last in m && forall c | c in m :: m[c] <= m[last]
  {
    LastCallExists(m);
    var last :| last in m && forall c | c in m :: m[c] <= m[last];
    last
  }

  lemma {:induction false} LastCallExists(m: map<Text, nat>)
    requires m != map[]
    ensures exists last :: last in m && forall c | c in m :: m[c] <= m[last]
    decreases |m|
  {
    var c :| c in m;
    var rest := m - {c};
    if rest != map[] {
      LastCallExists(rest);
      var d :| d in rest && forall x | x in rest :: rest[x] <= rest[d];
      assert forall x | x in m :: x == c || x in rest;
      var last := if m[c] <= m[d] then d else c;
      assert forall x | x in m :: m[x] <= m[last];
    } else {
      assert forall x | x in m :: x == c || x in rest;
    }
  }

  /** The sanitised input of one call; a kind that was never recorded counts as a plain function. */
  function CallInput(parse: Parser, s: State, callId: Text): Option<Fields> {
    Sanitized(parse,
              if callId in s.toolNames then s.toolNames[callId] else [],
              if callId in s.toolKinds then Some(s.toolKinds[callId]) else None,
              ArgsAt(s, callId))
  }

  /** One input delta per call, or None as soon as one call's arguments are not an object. */
  function InputDeltas(parse: Parser, s: State, calls: seq<Text>): (r: Option<seq<Sse>>)
    requires forall c | c in calls :: c in s.toolBlocks
    ensures r.Some? ==> |r.value| == |calls|
    ensures r.Some? ==> forall i | 0 <= i < |calls| ::
      && CallInput(parse, s, calls[i]).Some?
      && r.value[i] == InputDelta(s.toolBlocks[calls[i]], CallInput(parse, s, calls[i]).value)
    ensures r.None? <==> exists c :: c in calls && CallInput(parse, s, c).None?
  {
    hide CallInput;
    if calls == [] then Some([])
    else
      var rest := InputDeltas(parse, s, calls[1..]);
      match CallInput(parse, s, calls[0])
      case None => None
      case Some(input) =>
        if rest.None? then None else Some([InputDelta(s.toolBlocks[calls[0]], input)] + rest.value)
  }

  function StopsOf(blocks: seq<Block>): seq<Sse> {
    if blocks == [] then []
    else (if blocks[0].closed then [] else [Stop(blocks[0].index)]) + StopsOf(blocks[1..])
  }

  function CloseAll(blocks: seq<Block>): seq<Block> {
    seq(|blocks|, i requires 0 <= i < |blocks| => blocks[i].(closed := true))
  }

  /** In schema mode the whole text is emitted at the end, cleaned up. */
  function FlushStructured(parse: Parser, s: State): Step {
    var text := Cleanup(parse, s.schema, s.structured);
    if s.schema == Null || Blank(s.structured) || Blank(text) then Step(s, [])
    else
      var s1 := OpenText(s);
      var i := s1.activeText.value;
      Step(s1.(sawText := true), (if s.activeText.None? then [Start(i, TextStart)] else []) + [TextDelta(i, text)])
  }

  function Finalize(parse: Parser, s: State): Step {
    var flushed := FlushStructured(parse, s.(completed := true));
    var s1 := flushed.s;
    var reason := if s1.toolBlocks == map[] then EndTurn else ToolUse;
    Step(s1.(blocks := CloseAll(s1.blocks)),
         flushed.out + StopsOf(s1.blocks) + [MessageDelta(reason, s1.usage, s1.contextManagement), MessageStop])
  }

  function RecordUsage(parse: Parser, s: State, data: Text): State {
    var usage := UsageOf(parse, data);
    s.(usage := if usage.None? then None else Some(usage.value.(searches := |s.completedSearches|)))
  }

  ghost function HandleCompleted(parse: Parser, s: State, data: Text): Step {
    FinishCall(parse, EmitSearches(RecordUsage(parse, s, data), OutputSearches(CompletedOutput(parse, data), 0)))
  }

  /** A call whose arguments are not an object replaces everything pending by an error, and leaves
      the state as it is after the searches. */
  ghost function FinishCall(parse: Parser, searched: Step): Step {
    match InputDeltas(parse, searched.s, CallOrder(searched.s.toolBlocks))
    case None => Step(searched.s, [Error(BadArguments)])
    case Some(inputs) =>
      var finished := Finalize(parse, searched.s);
      Step(finished.s, searched.out + inputs + finished.out)
  }

  /** Without an argument error, completion emits the inputs in call order and then finishes. */
  lemma {:induction false} FinishesCleanly(parse: Parser, searched: Step)
    requires Error(BadArguments) !in FinishCall(parse, searched).out
    ensures var inputs := InputDeltas(parse, searched.s, CallOrder(searched.s.toolBlocks));
            var finished := Finalize(parse, searched.s);
            && inputs.Some?
            && FinishCall(parse, searched) == Step(finished.s, searched.out + inputs.value + finished.out)
  {
    hide CallOrder, InputDeltas, Finalize;
  }

  // ----- dispatch and runs -----

  predicate IsFailure(parse: Parser, ev: Event) {
    && (ev.name == "error" || ev.name == "response.failed")
    && (Decode(parse, ev.data).Some? || !Blank(ev.data))
  }

  ghost function MapEvent(parse: Parser, s0: State, ev: Event): Step {
    if IsFailure(parse, ev) then Step(s0.(completed := true), [Error(BackendFailed)])
    else
      var s := s0.(completedSearches := s0.completedSearches + SearchesShown(parse, ev));
      if ev.name == "response.output_text.delta" then HandleTextDelta(parse, s, ev.data)
      else if IsItemEvent(ev.name) then HandleItem(parse, s, ev)
      else if ev.name == "response.web_search_call.completed" then HandleSearchEvent(parse, s, ev)
      else if ev.name == "response.function_call_arguments.delta"
        || ev.name == "response.custom_tool_call_input.delta" then
        HandleArgDelta(parse, s, ev.data)
      else if ev.name == "response.reasoning_text.delta" || ev.name == "response.reasoning_summary_text.delta" then
        HandleReasoning(parse, s, ev.data)
      else if ev.name == "response.completed" then HandleCompleted(parse, s, ev.data)
      else Step(s, [])
  }

  /** TranslateResponseEvent: once completed, every further event is ignored. */
  ghost function Translate(parse: Parser, s: State, ev: Event): Step {
    if s.completed then Step(s, []) else MapEvent(parse, s, ev)
  }

  ghost function Run(parse: Parser, s: State, evs: seq<Event>): Step
    decreases |evs|
  {
    if evs == [] then Step(s, [])
    else
      var first := Translate(parse, s, evs[0]);
      var rest := Run(parse, first.s, evs[1..]);
      Step(rest.s, first.out + rest.out)
  }

  /** The stream of a fresh translator. */
  ghost function Stream(parse: Parser, schema: Json, contextManagement: Json, evs: seq<Event>): Step {
    Run(parse, NewState(schema, contextManagement), evs)
  }

  lemma {:induction false} RunAppend(parse: Parser, s: State, a: seq<Event>, b: seq<Event>)
    ensures var first := Run(parse, s, a);
            var second := Run(parse, first.s, b);
            Run(parse, s, a + b) == Step(second.s, first.out + second.out)
    decreases |a|
  {
    hide MapEvent;
    if a == [] {
      assert a + b == b;
    } else {
      RunAppend(parse, Translate(parse, s, a[0]).s, a[1..], b);
      assert (a + b)[1..] == a[1..] + b;
    }
  }

  /** Once completed, further events change nothing. */
  lemma {:induction false} CompletedRun(parse: Parser, s: State, evs: seq<Event>)
    requires s.completed
    ensures Run(parse, s, evs) == Step(s, [])
    decreases |evs|
  {
    if evs != [] { CompletedRun(parse, s, evs[1..]); }
  }

  // ----- the unary response -----

  datatype ContentBlock =
    | TextBlock(text: Text)
    | ToolUseBlock(callId: Text, name: Text, input: Fields)

  datatype Unary = Unary(content: seq<ContentBlock>, reason: StopReason, inputTokens: int, outputTokens: int,
                         searches: nat)

  ghost function UnaryOf(parse: Parser, s: State): Unary {
    var text := Cleanup(parse, s.schema, s.final);
    var input := if s.usage.Some? then s.usage.value.input else 0;
    var output := if s.usage.Some? then s.usage.value.output else 0;
    var searches := if s.usage.Some? then s.usage.value.searches else 0;
    if s.toolBlocks == map[] then Unary([TextBlock(text)], EndTurn, input, output, searches)
    else Unary((if Blank(text) then [] else [TextBlock(text)]) + ToolUses(parse, s, CallOrder(s.toolBlocks)),
               ToolUse, input, output, searches)
  }

  /** Arguments that are not an object become an empty input here. */
  function ToolUses(parse: Parser, s: State, calls: seq<Text>): (r: seq<ContentBlock>)
    ensures |r| == |calls|
  {
    seq(|calls|, i requires 0 <= i < |calls| =>
      ToolUseBlock(calls[i],
                   if calls[i] in s.toolNames then s.toolNames[calls[i]] else [],
                   if CallInput(parse, s, calls[i]).Some? then CallInput(parse, s, calls[i]).value else map[]))
  }

  /** BuildUnaryResponse: the same machine, without the context-management value. */
  ghost function BuildUnary(parse: Parser, schema: Json, evs: seq<Event>): Unary {
    UnaryOf(parse, Run(parse, NewState(schema, Null), evs).s)
  }
}

/** Which web searches a stream shows, and what its summary says: read off the backend's events alone. */
module BridgeSummary {
  import opened Json
  import opened ToolCalls
  import opened ResponseGate
  import opened Bridge
  import opened BridgeGrammar
  import opened BridgeAgreement
  import opened BridgeCalls
  import opened BridgeNames
  import BridgeSearches

  // ----- searches read off one event -----

  datatype Mention = Mention(id: Text, query: Option<Text>, results: seq<Json>)

  function TextAt(m: Fields, k: string): seq<Text> {
    if k in m && m[k].Str? then [m[k].s] else []
  }

  function TextUnder(m: Fields, k: string, inner: string): seq<Text> {
    if k in m && m[k].Obj? then TextAt(m[k].fields, inner) else []
  }

  /** The first string among id, call_id and item_id; without one, or if it is empty, the fallback. */
  function IdOr(m: Fields, fallback: Text): Text {
    var ids := TextAt(m, "id") + TextAt(m, "call_id") + TextAt(m, "item_id");
    if ids == [] || ids[0] == [] then fallback else ids[0]
  }

  function QueryIn(m: Fields): Option<Text> {
    var queries := TextUnder(m, "action", "query") + TextUnder(m, "input", "query") + TextAt(m, "query");
    if queries == [] then None else Some(queries[0])
  }

  function SourcesIn(m: Fields): seq<Json> {
    var own := if "sources" in m && m["sources"].Arr? then m["sources"].items else [];
    if "action" in m && m["action"].Obj? && "sources" in m["action"].fields && m["action"].fields["sources"] != Null
    then if m["action"].fields["sources"].Arr? then m["action"].fields["sources"].items else []
    else own
  }

  function Kept(m: Fields, k: string): Fields {
    if k in m && m[k].Str? then map[k := m[k]] else map[]
  }

  /** A source with a url becomes a result with its strings. */
  function ResultOf(source: Json): seq<Json> {
    if source.Obj? && "url" in source.fields && source.fields["url"].Str? then
      [Obj(map["type" := Str(Lit("web_search_result"))] + Kept(source.fields, "url") + Kept(source.fields, "title")
           + Kept(source.fields, "page_age") + Kept(source.fields, "encrypted_content"))]
    else []
  }

  function ResultsOf(sources: seq<Json>): seq<Json> {
    if sources == [] then [] else ResultsOf(sources[..|sources| - 1]) + ResultOf(sources[|sources| - 1])
  }

  function MentionOf(m: Fields, id: Text): Mention {
    Mention(id, QueryIn(m), ResultsOf(SourcesIn(m)))
  }

  /** A web-search item without a status, or with the status completed. */
  function ItemMention(item: Json, fallback: string): seq<Mention> {
    if item.Obj? && "type" in item.fields && item.fields["type"] == Str(Lit("web_search_call"))
       && ("status" in item.fields && item.fields["status"].Str? ==> item.fields["status"] == Str(Lit("completed")))
    then [MentionOf(item.fields, IdOr(item.fields, Lit(fallback)))] else []
  }

  function OutputMentions(items: seq<Json>): seq<Mention> {
    if items == [] then []
    else
      var n := |items| - 1;
      OutputMentions(items[..n]) + ItemMention(items[n], "response_output_" + Decimal(n))
  }

  /** The event's own type has to repeat its name; without an id it goes by its output index. */
  function EventMention(v: Fields, name: string): seq<Mention> {
    if "type" in v && v["type"] == Str(Lit(name)) then
      var fallback := if "output_index" in v && v["output_index"].Num?
        then Lit(name + ":" + SignedDecimal(Whole(v["output_index"].n))) else Lit(name);
      [MentionOf(v, IdOr(v, fallback))]
    else []
  }

  /** The searches an event mentions. */
  function MentionsIn(parse: Parser, ev: Event): seq<Mention> {
    match Decode(parse, ev.data)
    case Some(Obj(v)) =>
      if ev.name == "response.output_item.added" || ev.name == "response.output_item.done" then
        if "item" in v then ItemMention(v["item"], "output_item") else []
      else if ev.name == "response.web_search_call.completed" then EventMention(v, ev.name)
      else if ev.name == "response.completed" then
        if "response" in v && v["response"].Obj? && "output" in v["response"].fields
           && v["response"].fields["output"].Arr?
        then OutputMentions(v["response"].fields["output"].items) else []
      else []
    case _ => []
  }

  // ----- over a list of events -----

  function Mentions(parse: Parser, evs: seq<Event>): seq<Mention> {
    if evs == [] then [] else Mentions(parse, evs[..|evs| - 1]) + MentionsIn(parse, evs[|evs| - 1])
  }

  predicate Known(ms: seq<Mention>, id: Text) {
    exists i :: 0 <= i < |ms| && ms[i].id == id
  }

  /** Each search as it is mentioned first. */
  function Firsts(ms: seq<Mention>): seq<Mention> {
    if ms == [] then []
    else
      var n := |ms| - 1;
      Firsts(ms[..n]) + if Known(ms[..n], ms[n].id) then [] else [ms[n]]
  }

  /** The searches known to be completed: an item that has only been added does not count. */
  function CompletedIn(parse: Parser, ev: Event): set<Text> {
    if ev.name == "response.output_item.added" then {} else set m | m in MentionsIn(parse, ev) :: m.id
  }

  function CompletedIds(parse: Parser, evs: seq<Event>): set<Text> {
    if evs == [] then {} else CompletedIds(parse, evs[..|evs| - 1]) + CompletedIn(parse, evs[|evs| - 1])
  }

  // ----- read off a stream -----

  function Uses(out: seq<Sse>): seq<(Text, Option<Text>)> {
    if out == [] then [] else UsePart(out[0]) + Uses(out[1..])
  }

  function UsePart(e: Sse): seq<(Text, Option<Text>)> {
    if e.Start? && e.block.ServerToolUseStart? then [(e.block.toolUseId, e.block.query)] else []
  }

  function Found(out: seq<Sse>): seq<(Text, seq<Json>)> {
    if out == [] then [] else FoundPart(out[0]) + Found(out[1..])
  }

  function FoundPart(e: Sse): seq<(Text, seq<Json>)> {
    if e.Start? && e.block.SearchResultStart? then [(e.block.toolUseId, e.block.results)] else []
  }

  function UsesOf(ms: seq<Mention>): seq<(Text, Option<Text>)> {
    seq(|ms|, i requires 0 <= i < |ms| => (ServerToolUseId(ms[i].id), ms[i].query))
  }

  function FoundOf(ms: seq<Mention>): seq<(Text, seq<Json>)> {
    seq(|ms|, i requires 0 <= i < |ms| => (ServerToolUseId(ms[i].id), ms[i].results))
  }

  lemma {:induction false} UsesAppend(a: seq<Sse>, b: seq<Sse>)
    ensures Uses(a + b) == Uses(a) + Uses(b) && Found(a + b) == Found(a) + Found(b)
    decreases |a|
  {
    hide UsePart, FoundPart;
    if a == [] {
      assert a + b == b;
    } else {
      UsesAppend(a[1..], b);
      assert (a + b)[1..] == a[1..] + b;
    }
  }

  predicate IsSearchBlock(e: Sse) {
    e.Start? && (e.block.ServerToolUseStart? || e.block.SearchResultStart?)
  }

  lemma {:induction false} NoUses(out: seq<Sse>)
    requires forall e | e in out :: !IsSearchBlock(e)
    ensures Uses(out) == [] && Found(out) == []
    decreases |out|
  {
    if out != [] {
      NoUses(out[1..]);
      assert out[0] in out && UsePart(out[0]) == [] && FoundPart(out[0]) == [];
    }
  }

  // ----- the readings agree with the bridge's own -----

  function Whole(n: real): int {
    if n < 0.0 then -((-n).Floor) else n.Floor
  }

  lemma {:induction false} IdRead(m: Fields, fallback: Text)
    ensures IdOr(m, fallback) == if SearchId(m) == [] then fallback else SearchId(m)
  {
  }

  lemma {:induction false} QueryRead(m: Fields)
    ensures QueryIn(m) == SearchQuery(m)
  {
  }

  lemma {:induction false} ResultRead(source: Json)
    ensures ResultOf(source)
      == if source.Obj? && StringAt(source.fields, "url").Some? then [SearchResult(source.fields)] else []
  {
    if source.Obj? && StringAt(source.fields, "url").Some? { KeptAll(source.fields); }
  }

  lemma {:induction false} KeptAll(m: Fields)
    requires StringAt(m, "url").Some?
    ensures SearchResult(m)
      == Obj(map["type" := Str(Lit("web_search_result"))] + Kept(m, "url") + Kept(m, "title") + Kept(m, "page_age")
             + Kept(m, "encrypted_content"))
  {
    var kind := map["type" := Str(Lit("web_search_result"))];
    var kept := map k | k in {"url", "title", "page_age", "encrypted_content"} && StringAt(m, k).Some? :: m[k];
    var four := Kept(m, "url") + Kept(m, "title") + Kept(m, "page_age") + Kept(m, "encrypted_content");
    KeptFour(m);
    hide Lit, Kept;
    assert SearchResult(m).fields == kind + kept;
    FourTogether(kind, Kept(m, "url"), Kept(m, "title"), Kept(m, "page_age"), Kept(m, "encrypted_content"));
  }

  lemma {:induction false} FourTogether(k: Fields, a: Fields, b: Fields, c: Fields, d: Fields)
    ensures k + (a + b + c + d) == k + a + b + c + d
  {
    TwoTogether(k, a, b);
    TwoTogether(k, a + b, c);
    TwoTogether(k, a + b + c, d);
  }

  lemma {:induction false} TwoTogether(k: Fields, a: Fields, b: Fields)
    ensures k + (a + b) == k + a + b
  {
  }

  lemma {:induction false} KeptFour(m: Fields)
    ensures (map k | k in {"url", "title", "page_age", "encrypted_content"} && StringAt(m, k).Some? :: m[k])
      == Kept(m, "url") + Kept(m, "title") + Kept(m, "page_age") + Kept(m, "encrypted_content")
  {
    var kept := map k | k in {"url", "title", "page_age", "encrypted_content"} && StringAt(m, k).Some? :: m[k];
    var four := Kept(m, "url") + Kept(m, "title") + Kept(m, "page_age") + Kept(m, "encrypted_content");
    assert kept.Keys == four.Keys;
    forall k | k in kept ensures kept[k] == four[k] {
    }
  }

  lemma {:induction false} ResultsLast(sources: seq<Json>, source: Json)
    ensures ResultList(sources + [source]) == ResultList(sources) + ResultOf(source)
    decreases |sources|
  {
    hide SearchResult, ResultOf;
    ResultRead(source);
    if sources == [] {
      assert [] + [source] == [source] && [source][1..] == [];
      assert ResultList([source][1..]) == [];
    } else {
      ResultsLast(sources[1..], source);
      assert (sources + [source])[1..] == sources[1..] + [source];
    }
  }

  lemma {:induction false} ResultsRead(sources: seq<Json>)
    ensures ResultsOf(sources) == ResultList(sources)
    decreases |sources|
  {
    hide ResultOf;
    if sources != [] {
      var n := |sources| - 1;
      ResultsRead(sources[..n]);
      ResultsLast(sources[..n], sources[n]);
      assert sources[..n] + [sources[n]] == sources;
    }
  }

  lemma {:induction false} SourcesRead(m: Fields)
    ensures ResultsOf(SourcesIn(m)) == SearchResults(m)
  {
    ResultsRead(SourcesIn(m));
    assert ResultList([]) == [];
    hide ResultsOf, ResultList;
  }

  /** The bridge's own record of a mention. */
  function CallOf(m: Mention): SearchCall {
    SearchCall(m.id, ServerToolUseId(m.id), m.query, m.results)
  }

  function CallsOf(ms: seq<Mention>): seq<SearchCall> {
    seq(|ms|, i requires 0 <= i < |ms| => CallOf(ms[i]))
  }

  lemma {:induction false} MentionRead(m: Fields, id: Text)
    ensures CallOf(MentionOf(m, id)) == MakeSearch(id, m)
  {
    hide QueryIn, SearchQuery, SourcesIn, ResultsOf, SearchResults, ServerToolUseId;
    QueryRead(m);
    SourcesRead(m);
  }

  function ItemCall(item: Json, fallback: string): seq<SearchCall> {
    if item.Obj? && ItemSearchId(item.fields, fallback).Some? then
      [MakeSearch(ItemSearchId(item.fields, fallback).value, item.fields)]
    else []
  }

  lemma {:induction false} ItemRead(item: Json, fallback: string)
    ensures CallsOf(ItemMention(item, fallback)) == ItemCall(item, fallback)
  {
    hide MakeSearch, MentionOf, IdOr, SearchId, CallOf;
    if item.Obj? {
      IdRead(item.fields, Lit(fallback));
      MentionRead(item.fields, IdOr(item.fields, Lit(fallback)));
    }
  }

  lemma {:induction false} OutputSplit(items: seq<Json>, i: nat)
    requires i < |items|
    ensures var n := |items| - 1;
            OutputSearches(items, i)
              == OutputSearches(items[..n], i) + ItemCall(items[n], "response_output_" + Decimal(n))
    decreases |items| - i
  {
    hide ItemSearchId, MakeSearch, Decimal;
    var n := |items| - 1;
    if i < n {
      OutputSplit(items, i + 1);
    } else {
      assert OutputSearches(items, n + 1) == [] && OutputSearches(items[..n], n) == [];
    }
  }

  lemma {:induction false} CallsAppend(a: seq<Mention>, b: seq<Mention>)
    ensures CallsOf(a + b) == CallsOf(a) + CallsOf(b)
  {
  }

  lemma {:induction false} OutputRead(items: seq<Json>)
    ensures CallsOf(OutputMentions(items)) == OutputSearches(items, 0)
    decreases |items|
  {
    hide ItemMention, ItemCall, OutputSearches, Decimal, CallsOf;
    if items == [] {
      NoOutput();
    } else {
      var n := |items| - 1;
      OutputRead(items[..n]);
      OutputSplit(items, 0);
      ItemRead(items[n], "response_output_" + Decimal(n));
      CallsAppend(OutputMentions(items[..n]), ItemMention(items[n], "response_output_" + Decimal(n)));
    }
  }

  lemma {:induction false} NoOutput()
    ensures CallsOf([]) == [] && OutputSearches([], 0) == []
  {
  }

  lemma {:induction false} EventRead(v: Fields, name: string)
    ensures CallsOf(EventMention(v, name))
      == if EventSearchId(v, name).Some? then [MakeSearch(EventSearchId(v, name).value, v)] else []
  {
    hide MakeSearch, MentionOf, IdOr, SearchId, CallOf, SignedDecimal;
    var fallback := if "output_index" in v && v["output_index"].Num?
      then Lit(name + ":" + SignedDecimal(Whole(v["output_index"].n))) else Lit(name);
    IdRead(v, fallback);
    MentionRead(v, IdOr(v, fallback));
  }

  lemma {:induction false} CompletedOutputRead(parse: Parser, ev: Event)
    requires ev.name == "response.completed"
    ensures CallsOf(MentionsIn(parse, ev)) == OutputSearches(CompletedOutput(parse, ev.data), 0)
  {
    hide OutputMentions, OutputSearches, CallsOf, ItemMention, EventMention;
    CompletedIsNoOther(ev.name);
    NoOutput();
    OutputRead(CompletedOutput(parse, ev.data));
    NoMentions();
  }

  lemma {:induction false} NoMentions()
    ensures OutputMentions([]) == []
  {
  }

  /** What the bridge counts as completed is what the events mention, but for items only added. */
  lemma {:induction false} CompletedRead(parse: Parser, ev: Event)
    ensures SearchesShown(parse, ev) == CompletedIn(parse, ev)
  {
    hide OutputMentions, OutputSearches, ItemMention, EventMention, CallOf, MakeSearch, ItemSearchId, EventSearchId;
    hide CallsOf, Ids, CompletedOutput;
    SearchNames();
    NoOutput();
    IdsOfCalls(MentionsIn(parse, ev));
    if ev.name == "response.completed" {
      CompletedOutputRead(parse, ev);
      NoIds();
    } else if ev.name == "response.web_search_call.completed" {
      EventCounted(parse, ev);
    } else if ev.name == "response.output_item.done" {
      ItemCounted(parse, ev);
    }
  }

  lemma {:induction false} NoIds()
    ensures Ids([]) == {} && forall x: SearchCall :: Ids([x]) == {x.callId}
  {
  }

  lemma {:induction false} EventCounted(parse: Parser, ev: Event)
    requires ev.name == "response.web_search_call.completed"
    ensures SearchesShown(parse, ev) == CompletedIn(parse, ev)
  {
    hide EventMention, CallOf, MakeSearch, EventSearchId, Ids, CallsOf;
    SearchNames();
    NoOutput();
    NoIds();
    NoType(ev.name);
    match Decode(parse, ev.data)
    case Some(Obj(v)) =>
      EventRead(v, ev.name);
      IdsOfCalls(EventMention(v, ev.name));
      if EventSearchId(v, ev.name).Some? { BridgeSearches.MadeWithId(EventSearchId(v, ev.name).value, v); }
    case _ =>
  }

  lemma {:induction false} ItemCounted(parse: Parser, ev: Event)
    requires ev.name == "response.output_item.done"
    ensures SearchesShown(parse, ev) == CompletedIn(parse, ev)
  {
    hide ItemMention, CallOf, MakeSearch, ItemSearchId, Ids, CallsOf;
    SearchNames();
    NoOutput();
    NoIds();
    match Decode(parse, ev.data)
    case Some(Obj(v)) =>
      if "item" in v {
        ItemRead(v["item"], "output_item");
        IdsOfCalls(ItemMention(v["item"], "output_item"));
        if v["item"].Obj? && ItemSearchId(v["item"].fields, "output_item").Some? {
          BridgeSearches.MadeWithId(ItemSearchId(v["item"].fields, "output_item").value, v["item"].fields);
        }
      }
    case _ =>
  }

  lemma {:induction false} SearchNames()
    ensures "response.output_item.added" != "response.output_item.done"
    ensures "response.completed" != "response.output_item.added" && "response.completed" != "response.output_item.done"
    ensures "response.completed" != "response.web_search_call.completed"
    ensures "response.web_search_call.completed" != "response.output_item.done"
      && "response.web_search_call.completed" != "response.output_item.added"
  {
    assert |"response.completed"| == 18 && |"response.web_search_call.completed"| == 34;
    assert |"response.output_item.added"| == 26 && |"response.output_item.done"| == 25;
  }

  lemma {:induction false} IdsOfCalls(ms: seq<Mention>)
    ensures Ids(CallsOf(ms)) == (set m | m in ms :: m.id)
  {
    hide ServerToolUseId;
    forall m | m in ms ensures m.id in Ids(CallsOf(ms)) {
      var i :| 0 <= i < |ms| && ms[i] == m;
      assert CallsOf(ms)[i] in CallsOf(ms);
    }
    forall c | c in CallsOf(ms) ensures c.callId in (set m | m in ms :: m.id) {
      var i :| 0 <= i < |ms| && CallsOf(ms)[i] == c;
      assert ms[i] in ms;
    }
  }

  // ----- what has been shown -----

  ghost predicate HasShown(t: Step, ms: seq<Mention>) {
    && t.s.emittedSearches == (set m | m in ms :: m.id)
    && Uses(t.out) == UsesOf(Firsts(ms)) && Found(t.out) == FoundOf(Firsts(ms))
  }

  lemma {:induction false} KnownIn(ms: seq<Mention>, id: Text)
    ensures Known(ms, id) <==> id in (set m | m in ms :: m.id)
  {
    if id in (set m | m in ms :: m.id) {
      var m :| m in ms && m.id == id;
      var i :| 0 <= i < |ms| && ms[i] == m;
    }
    if Known(ms, id) {
      var i :| 0 <= i < |ms| && ms[i].id == id;
      assert ms[i] in ms;
    }
  }

  lemma {:induction false} FirstsStep(ms: seq<Mention>, m: Mention)
    ensures Firsts(ms + [m]) == Firsts(ms) + if Known(ms, m.id) then [] else [m]
    ensures (set x | x in ms + [m] :: x.id) == (set x | x in ms :: x.id) + {m.id}
  {
    hide Known;
    assert (ms + [m])[..|ms|] == ms;
  }

  lemma {:induction false} ReadStep(ms: seq<Mention>, m: Mention)
    ensures UsesOf(ms + [m]) == UsesOf(ms) + [(ServerToolUseId(m.id), m.query)]
    ensures FoundOf(ms + [m]) == FoundOf(ms) + [(ServerToolUseId(m.id), m.results)]
  {
  }

  lemma {:induction false} EmittedReads(s: State, m: Mention)
    requires m.id !in s.emittedSearches
    ensures var t := EmitSearch(s, CallOf(m));
            && Uses(t.out) == [(ServerToolUseId(m.id), m.query)] && Found(t.out) == [(ServerToolUseId(m.id), m.results)]
            && t.s.emittedSearches == s.emittedSearches + {m.id}
  {
    hide ServerToolUseId;
    var out := EmitSearch(s, CallOf(m)).out;
    var use, found := [out[0], out[1]], [out[2], out[3]];
    assert use[1..] == [out[1]] && use[1..][1..] == [] && found[1..] == [out[3]] && found[1..][1..] == [];
    assert Uses(use) == UsePart(out[0]) + (UsePart(out[1]) + Uses([]));
    assert Found(use) == FoundPart(out[0]) + (FoundPart(out[1]) + Found([]));
    assert Uses(found) == UsePart(out[2]) + (UsePart(out[3]) + Uses([]));
    assert Found(found) == FoundPart(out[2]) + (FoundPart(out[3]) + Found([]));
    UsesAppend(use, found);
    assert out == use + found;
  }

  lemma {:induction false} EmitShown(t: Step, ms: seq<Mention>, m: Mention)
    requires HasShown(t, ms)
    ensures var more := EmitSearch(t.s, CallOf(m)); HasShown(Step(more.s, t.out + more.out), ms + [m])
  {
    KnownIn(ms, m.id);
    FirstsStep(ms, m);
    ReadStep(Firsts(ms), m);
    hide Uses, Found, UsesOf, FoundOf, Firsts, Known, ServerToolUseId;
    var more := EmitSearch(t.s, CallOf(m));
    UsesAppend(t.out, more.out);
    if m.id in t.s.emittedSearches {
      assert t.out + [] == t.out;
      assert Firsts(ms) + [] == Firsts(ms);
    } else {
      EmittedReads(t.s, m);
    }
  }

  lemma {:induction false} EmitAllShown(t: Step, ms: seq<Mention>, more: seq<Mention>)
    requires HasShown(t, ms)
    ensures var all := EmitSearches(t.s, CallsOf(more)); HasShown(Step(all.s, t.out + all.out), ms + more)
    decreases |more|
  {
    hide HasShown, EmitSearch, CallOf;
    if more == [] {
      assert ms + more == ms && t.out + [] == t.out;
    } else {
      var first := EmitSearch(t.s, CallOf(more[0]));
      EmitShown(t, ms, more[0]);
      var next := Step(first.s, t.out + first.out);
      EmitAllShown(next, ms + [more[0]], more[1..]);
      assert ms + [more[0]] + more[1..] == ms + more;
      assert CallsOf(more)[0] == CallOf(more[0]) && CallsOf(more)[1..] == CallsOf(more[1..]);
      var rest := EmitSearches(first.s, CallsOf(more[1..]));
      assert t.out + (first.out + rest.out) == t.out + first.out + rest.out;
    }
  }

  // ----- one event -----

  /** A step that shows no search. */
  ghost predicate NoSearch(s: State, t: Step) {
    t.s.emittedSearches == s.emittedSearches && forall e | e in t.out :: !IsSearchBlock(e)
  }

  lemma {:induction false} NothingSearched(s: State)
    ensures NoSearch(s, Step(s, []))
  {
  }

  lemma {:induction false} KeepsShown(t: Step, ms: seq<Mention>, next: Step)
    requires HasShown(t, ms) && NoSearch(t.s, next)
    ensures HasShown(Step(next.s, t.out + next.out), ms)
  {
    NoUses(next.out);
    hide UsesOf, FoundOf, Firsts, Uses, Found;
    UsesAppend(t.out, next.out);
  }

  lemma {:induction false} TextsNoSearch(s: State, texts: seq<Text>)
    ensures NoSearch(s, EmitTexts(s, texts))
  {
    hide Concat;
  }

  lemma {:induction false} TextDeltaNoSearch(parse: Parser, s: State, data: Text)
    ensures NoSearch(s, HandleTextDelta(parse, s, data))
  {
    hide DeltaText, Blank, EmitTexts;
    var text := DeltaText(parse, data);
    if text.Some? { TextsNoSearch(s.(sawText := true), [text.value]); }
  }

  lemma {:induction false} MessageNoSearch(s: State, item: Fields)
    ensures NoSearch(s, HandleMessageItem(s, item))
  {
    hide OutputTexts, EmitTexts, Concat;
    var texts := if "content" in item && item["content"].Arr? then OutputTexts(item["content"].items) else [];
    TextsNoSearch(s, texts);
  }

  lemma {:induction false} CallsNoSearch(parse: Parser, s: State, data: Text, tc: ToolCall, done: bool)
    ensures NoSearch(s, HandleToolCall(s, tc, done))
    ensures NoSearch(s, HandleArgDelta(parse, s, data))
  {
    hide ParseDelta, ArgsAt;
    hide NoSearch;
    ToolCallNoSearch(s, tc, done);
    ArgDeltaNoSearch(parse, s, data);
  }

  lemma {:induction false} ToolCallNoSearch(s: State, tc: ToolCall, done: bool)
    ensures NoSearch(s, HandleToolCall(s, tc, done))
  {
  }

  lemma {:induction false} ArgDeltaNoSearch(parse: Parser, s: State, data: Text)
    ensures NoSearch(s, HandleArgDelta(parse, s, data))
  {
    hide ParseDelta, ArgsAt;
  }

  lemma {:induction false} ReasoningNoSearch(parse: Parser, s: State, data: Text)
    ensures NoSearch(s, HandleReasoning(parse, s, data))
  {
    hide ParseDelta;
  }

  lemma {:induction false} OneSearched(t: Step, ms: seq<Mention>, more: seq<Mention>, next: Step)
    requires HasShown(t, ms) && |more| <= 1
    requires next == if more == [] then Step(t.s, []) else EmitSearch(t.s, CallOf(more[0]))
    ensures HasShown(Step(next.s, t.out + next.out), ms + more)
  {
    hide HasShown, EmitSearch, CallOf;
    if more == [] {
      assert ms + more == ms && t.out + [] == t.out;
    } else {
      EmitShown(t, ms, more[0]);
      assert [more[0]] == more;
    }
  }

  lemma {:induction false} ItemShown(parse: Parser, t: Step, ms: seq<Mention>, ev: Event)
    requires HasShown(t, ms) && IsItemEvent(ev.name)
    ensures var next := HandleItem(parse, t.s, ev); HasShown(Step(next.s, t.out + next.out), ms + MentionsIn(parse, ev))
  {
    hide HasShown, EmitSearch, CallOf, HandleMessageItem, HandleToolCall, ItemMention, MakeSearch, ItemSearchId;
    SearchNames();
    var next := HandleItem(parse, t.s, ev);
    CallMentionsNothing(parse, ev);
    NothingSearched(t.s);
    assert ms + [] == ms;
    var tc := ItemToolCall(parse, ev.data);
    if tc.Some? {
      ToolCallNoSearch(t.s, tc.value, ev.name == "response.output_item.done");
      KeepsShown(t, ms, next);
    } else {
      hide ItemToolCall;
      match Decode(parse, ev.data)
      case Some(Obj(v)) =>
        if ObjectAt(v, "item").Some? {
          NoCallShown(parse, t, ms, ev, v);
        } else {
          NotAnItem(v);
          KeepsShown(t, ms, next);
        }
      case _ => KeepsShown(t, ms, next);
    }
  }

  lemma {:induction false} NotAnItem(v: Fields)
    requires ObjectAt(v, "item").None?
    ensures "item" in v ==> ItemMention(v["item"], "output_item") == []
  {
  }

  lemma {:induction false} NoCallShown(parse: Parser, t: Step, ms: seq<Mention>, ev: Event, v: Fields)
    requires HasShown(t, ms) && IsItemEvent(ev.name)
    requires Decode(parse, ev.data) == Some(Obj(v)) && ObjectAt(v, "item").Some? && ItemToolCall(parse, ev.data).None?
    ensures var next := HandleItem(parse, t.s, ev); HasShown(Step(next.s, t.out + next.out), ms + MentionsIn(parse, ev))
  {
    hide HasShown, EmitSearch, CallOf, HandleMessageItem, ItemToolCall, ItemMention, MakeSearch, ItemSearchId;
    var next, item := HandleItem(parse, t.s, ev), ObjectAt(v, "item").value;
    var more := ItemMention(v["item"], "output_item");
    assert MentionsIn(parse, ev) == more && v["item"] == Obj(item);
    ItemRead(v["item"], "output_item");
    assert |CallsOf(more)| == |more|;
    OnlySearches(item);
    if HasString(item, "type", "web_search_call") {
      assert more != [] ==> CallsOf(more)[0] == CallOf(more[0]);
      OneSearched(t, ms, more, next);
    } else {
      NothingSearched(t.s);
      MessageNoSearch(t.s, item);
      assert ms + more == ms;
      KeepsShown(t, ms, next);
    }
  }

  lemma {:induction false} OnlySearches(item: Fields)
    ensures ItemSearchId(item, "output_item").Some? ==> HasString(item, "type", "web_search_call")
    ensures !HasString(item, "type", "web_search_call") ==> ItemMention(Obj(item), "output_item") == []
  {
  }

  lemma {:induction false} CallMentionsNothing(parse: Parser, ev: Event)
    requires IsItemEvent(ev.name)
    ensures ItemToolCall(parse, ev.data).Some? ==> MentionsIn(parse, ev) == []
  {
    SearchNames();
    assert |Lit("web_search_call")| == 15 && |Lit("function_call")| == 13;
    assert |Lit("custom_tool_call")| == 16 && |Lit("tool_search_call")| == 16 && |Lit("local_shell_call")| == 16;
    hide ParseFunctionCall, ParseCustomToolCall, ParseToolSearchCall, ParseLocalShellCall, MentionOf;
  }

  lemma {:induction false} SearchEventShown(parse: Parser, t: Step, ms: seq<Mention>, ev: Event)
    requires HasShown(t, ms) && ev.name == "response.web_search_call.completed"
    ensures var next := HandleSearchEvent(parse, t.s, ev);
            HasShown(Step(next.s, t.out + next.out), ms + MentionsIn(parse, ev))
  {
    hide HasShown, EmitSearch, CallOf, EventMention, MakeSearch, EventSearchId;
    SearchNames();
    var next := HandleSearchEvent(parse, t.s, ev);
    NothingSearched(t.s);
    assert ms + [] == ms;
    match Decode(parse, ev.data)
    case Some(Obj(v)) =>
      var more := EventMention(v, ev.name);
      EventRead(v, ev.name);
      assert |CallsOf(more)| == |more|;
      assert more != [] ==> CallsOf(more)[0] == CallOf(more[0]);
      OneSearched(t, ms, more, next);
    case Some(Null) =>
      NoType(ev.name);
      KeepsShown(t, ms, next);
    case _ => KeepsShown(t, ms, next);
  }

  lemma {:induction false} NoType(name: string)
    ensures EventSearchId(map[], name) == None
  {
  }

  lemma {:induction false} OtherMentions(parse: Parser, ev: Event)
    requires !IsItemEvent(ev.name) && ev.name != "response.web_search_call.completed" && ev.name != "response.completed"
    ensures MentionsIn(parse, ev) == []
  {
  }

  lemma {:induction false} ShownCounted(t: Step, ms: seq<Mention>, searches: set<Text>)
    ensures HasShown(Step(t.s.(completedSearches := searches), t.out), ms) <==> HasShown(t, ms)
  {
  }

  lemma {:induction false} EventShown(parse: Parser, t: Step, ms: seq<Mention>, ev: Event)
    requires HasShown(t, ms) && !Terminal(parse, ev)
    ensures var next := MapEvent(parse, t.s, ev);
            && HasShown(Step(next.s, t.out + next.out), ms + MentionsIn(parse, ev))
            && next.s.completedSearches == t.s.completedSearches + CompletedIn(parse, ev)
  {
    hide IsFailure, HandleTextDelta, HandleItem, HandleSearchEvent, HandleArgDelta, HandleReasoning;
    hide HandleCompleted, SearchesShown, HasShown, NoSearch, MentionsIn, CompletedIn;
    CompletedRead(parse, ev);
    var searches := t.s.completedSearches + SearchesShown(parse, ev);
    var s1 := t.s.(completedSearches := searches);
    ShownCounted(t, ms, searches);
    var t1, next := Step(s1, t.out), MapEvent(parse, t.s, ev);
    CountKept(parse, s1, ev);
    assert ms + [] == ms;
    if IsItemEvent(ev.name) {
      SearchNames();
      ItemName(ev.name);
      ItemShown(parse, t1, ms, ev);
    } else if ev.name == "response.web_search_call.completed" {
      ItemName(ev.name);
      SearchEventShown(parse, t1, ms, ev);
    } else {
      OtherMentions(parse, ev);
      NothingSearched(s1);
      TextDeltaNoSearch(parse, s1, ev.data);
      ArgDeltaNoSearch(parse, s1, ev.data);
      ReasoningNoSearch(parse, s1, ev.data);
      KeepsShown(t1, ms, next);
    }
  }

  lemma {:induction false} ItemName(name: string)
    requires IsItemEvent(name) || name == "response.web_search_call.completed"
    ensures name != "response.output_text.delta"
    ensures name == "response.web_search_call.completed" ==> !IsItemEvent(name)
  {
    SearchNames();
    assert "response.output_text.delta"[16] == 't' && "response.output_item.added"[16] == 'i';
    assert |"response.output_text.delta"| == 26 && |"response.output_item.done"| == 25;
    assert |"response.web_search_call.completed"| == 34;
  }

  lemma {:induction false} CountKept(parse: Parser, s: State, ev: Event)
    ensures HandleTextDelta(parse, s, ev.data).s.completedSearches == s.completedSearches
    ensures HandleItem(parse, s, ev).s.completedSearches == s.completedSearches
    ensures HandleSearchEvent(parse, s, ev).s.completedSearches == s.completedSearches
    ensures HandleArgDelta(parse, s, ev.data).s.completedSearches == s.completedSearches
    ensures HandleReasoning(parse, s, ev.data).s.completedSearches == s.completedSearches
  {
    BridgeSearches.TextsUnrelated(parse, s, ev.data, map[]);
    forall tc, done ensures HandleToolCall(s, tc, done).s.completedSearches == s.completedSearches {
      BridgeSearches.CallsUnrelated(parse, s, ev.data, tc, done);
    }
    BridgeSearches.CallsUnrelated(parse, s, ev.data, ToolCall([], [], [], Function), false);
    forall item ensures HandleMessageItem(s, item).s.completedSearches == s.completedSearches {
      BridgeSearches.TextsUnrelated(parse, s, ev.data, item);
    }
    forall call ensures EmitSearch(s, call).s.completedSearches == s.completedSearches { EmitKeepsCount(s, call); }
    hide HandleTextDelta, HandleArgDelta, HandleReasoning, HandleToolCall, HandleMessageItem, EmitSearch, MakeSearch;
    hide ItemToolCall, ItemSearchId, EventSearchId;
  }

  lemma {:induction false} EmitKeepsCount(s: State, call: SearchCall)
    ensures EmitSearch(s, call).s.completedSearches == s.completedSearches
    ensures EmitSearch(s, call).s.usage == s.usage && EmitSearch(s, call).s.contextManagement == s.contextManagement
  {
  }

  // ----- the whole run -----

  lemma {:induction false} NothingShown(parse: Parser, schema: Json, contextManagement: Json)
    ensures var t := Stream(parse, schema, contextManagement, []);
            HasShown(t, Mentions(parse, [])) && t.s.completedSearches == CompletedIds(parse, [])
            && t.s.contextManagement == contextManagement
  {
  }

  lemma {:induction false} MentionsStep(parse: Parser, before: seq<Event>, ev: Event)
    ensures Mentions(parse, before + [ev]) == Mentions(parse, before) + MentionsIn(parse, ev)
    ensures CompletedIds(parse, before + [ev]) == CompletedIds(parse, before) + CompletedIn(parse, ev)
  {
    hide MentionsIn, CompletedIn;
    var all := before + [ev];
    assert all[..|all| - 1] == before && all[|all| - 1] == ev;
  }

  /** Before its end a stream has shown each search that was mentioned, once, as it was mentioned first. */
  lemma {:induction false} StreamShows(parse: Parser, schema: Json, contextManagement: Json, evs: seq<Event>)
    requires forall ev | ev in evs :: !Terminal(parse, ev)
    ensures var t := Stream(parse, schema, contextManagement, evs);
            && HasShown(t, Mentions(parse, evs)) && t.s.completedSearches == CompletedIds(parse, evs)
            && t.s.contextManagement == contextManagement
    decreases |evs|
  {
    hide MapEvent, HasShown, Mentions, MentionsIn, CompletedIds, CompletedIn;
    if evs == [] {
      NothingShown(parse, schema, contextManagement);
    } else {
      var before, ev := evs[..|evs| - 1], evs[|evs| - 1];
      assert evs == before + [ev] && ev in evs && forall x | x in before :: x in evs;
      StreamShows(parse, schema, contextManagement, before);
      NotOver(parse, before);
      RunNamed(parse, schema, contextManagement, before);
      StreamSnoc(parse, schema, contextManagement, before, ev);
      MentionsStep(parse, before, ev);
      var t := Stream(parse, schema, contextManagement, before);
      hide Stream, Terminal;
      NamedOpen(parse, t, before);
      EventShown(parse, t, Mentions(parse, before), ev);
      ContextKept(parse, t.s, ev);
    }
  }

  lemma {:induction false} ContextKept(parse: Parser, s: State, ev: Event)
    requires !Terminal(parse, ev)
    ensures MapEvent(parse, s, ev).s.contextManagement == s.contextManagement
  {
    hide IsFailure, HandleTextDelta, HandleItem, HandleSearchEvent, HandleArgDelta, HandleReasoning;
    hide HandleCompleted, SearchesShown;
    var s1 := s.(completedSearches := s.completedSearches + SearchesShown(parse, ev));
    HandlersKeepContext(parse, s1, ev);
  }

  lemma {:induction false} TextsKeepContext(s: State, texts: seq<Text>)
    ensures EmitTexts(s, texts).s.contextManagement == s.contextManagement
  {
    hide Concat, TextDeltas;
  }

  lemma {:induction false} HandlersKeepContext(parse: Parser, s: State, ev: Event)
    ensures HandleTextDelta(parse, s, ev.data).s.contextManagement == s.contextManagement
    ensures HandleItem(parse, s, ev).s.contextManagement == s.contextManagement
    ensures HandleSearchEvent(parse, s, ev).s.contextManagement == s.contextManagement
    ensures HandleArgDelta(parse, s, ev.data).s.contextManagement == s.contextManagement
    ensures HandleReasoning(parse, s, ev.data).s.contextManagement == s.contextManagement
  {
    hide DeltaText, OutputTexts, EmitTexts, Concat, Blank, ParseDelta, EmitSearch, MakeSearch;
    hide ItemToolCall, ItemSearchId, EventSearchId, EnsureTool, HandleToolCall, AppendArgs, OpenThinking;
    forall x: State, texts ensures EmitTexts(x, texts).s.contextManagement == x.contextManagement {
      TextsKeepContext(x, texts);
    }
    forall call ensures EmitSearch(s, call).s.contextManagement == s.contextManagement { EmitKeepsCount(s, call); }
    forall tc, done ensures HandleToolCall(s, tc, done).s.contextManagement == s.contextManagement {
      ToolsKeepContext(s, tc, done);
    }
    forall c, d ensures AppendArgs(s, c, d).contextManagement == s.contextManagement { ArgsKeepContext(s, c, d); }
    ThinkingKeepsContext(s);
  }

  lemma {:induction false} ThinkingKeepsContext(s: State)
    ensures OpenThinking(s).contextManagement == s.contextManagement && OpenThinking(s).activeThinking.Some?
  {
  }

  lemma {:induction false} ToolsKeepContext(s: State, tc: ToolCall, done: bool)
    ensures HandleToolCall(s, tc, done).s.contextManagement == s.contextManagement
  {
  }

  lemma {:induction false} ArgsKeepContext(s: State, c: Text, d: Text)
    ensures AppendArgs(s, c, d).contextManagement == s.contextManagement
  {
  }

  // ----- the summary -----

  function NumberAt(m: Fields, k: string): Option<int> {
    if k in m && m[k].Num? then Some(Whole(m[k].n)) else None
  }

  function NumberUnder(m: Fields, k: string, inner: string): int {
    if k in m && m[k].Obj? && NumberAt(m[k].fields, inner).Some? then NumberAt(m[k].fields, inner).value else 0
  }

  /** The usage a completion reports: both token counts are needed, the details count as zero where they are
      missing, and the total as the sum. */
  function UsageIn(parse: Parser, ev: Event, searches: nat): Option<Usage> {
    match Decode(parse, ev.data)
    case Some(Obj(v)) =>
      if "response" in v && v["response"].Obj? && "usage" in v["response"].fields && v["response"].fields["usage"].Obj?
      then
        var u := v["response"].fields["usage"].fields;
        var input, output := NumberAt(u, "input_tokens"), NumberAt(u, "output_tokens");
        if input.None? || output.None? then None
        else
          var total := NumberAt(u, "total_tokens");
          Some(Usage(input.value, NumberUnder(u, "input_tokens_details", "cached_tokens"), output.value,
                     NumberUnder(u, "output_tokens_details", "reasoning_tokens"),
                     if total.Some? then total.value else input.value + output.value, searches))
      else None
    case _ => None
  }

  lemma {:induction false} UsageRead(parse: Parser, s: State, ev: Event)
    ensures RecordUsage(parse, s, ev.data).usage == UsageIn(parse, ev, |s.completedSearches|)
  {
  }

  /** A call has been opened. */
  ghost predicate AnyCall(parse: Parser, evs: seq<Event>) {
    exists c :: OpeningName(parse, evs, c).Some?
  }

  /** On every stream that completes without error: the searches shown are those mentioned up to the completion, each
      once, with the query and the results of its first mention; and the summary says tool_use exactly if a call
      was opened, and reports the completion's own usage with the number of completed searches. */
  lemma {:induction false} SummarySaid(parse: Parser, schema: Json, contextManagement: Json, evs: seq<Event>)
    requires Stream(parse, schema, contextManagement, evs).s.completed
    requires ErrorFree(Stream(parse, schema, contextManagement, evs).out)
    ensures var seen, out := BeforeEnd(parse, evs), Stream(parse, schema, contextManagement, evs).out;
            && |seen| < |evs|
            && var last := evs[|seen|];
            && var ms := Mentions(parse, seen + [last]);
            && Uses(out) == UsesOf(Firsts(ms)) && Found(out) == FoundOf(Firsts(ms))
            && |out| >= 2
            && out[|out| - 2] == MessageDelta(if AnyCall(parse, seen) then ToolUse else EndTurn,
                                              UsageIn(parse, last, |CompletedIds(parse, seen + [last])|),
                                              contextManagement)
  {
    hide MapEvent, BeforeEnd, Named, Translate, IsFailure, HasShown, Mentions, CompletedIds, AnyCall, UsesOf, FoundOf;
    hide Firsts, Uses, Found, UsageIn;
    var seen := BeforeEnd(parse, evs);
    var before, all := Stream(parse, schema, contextManagement, seen), Stream(parse, schema, contextManagement, evs);
    NotOver(parse, seen);
    RunNamed(parse, schema, contextManagement, seen);
    StreamShows(parse, schema, contextManagement, seen);
    NamedOpen(parse, before, seen);
    assert seen <= evs && (|seen| == |evs| ==> seen == evs);
    var ev := evs[|seen|];
    assert evs == seen + [ev] + evs[|seen| + 1..];
    RunAppend(parse, NewState(schema, contextManagement), seen + [ev], evs[|seen| + 1..]);
    StreamSnoc(parse, schema, contextManagement, seen, ev);
    var last := Translate(parse, before.s, ev);
    var rest := Run(parse, last.s, evs[|seen| + 1..]);
    assert all.out == before.out + last.out + rest.out;
    assert ErrorFree(last.out);
    LastEvent(parse, before.s, ev);
    CompletedRun(parse, last.s, evs[|seen| + 1..]);
    assert all.out == before.out + last.out;
    hide Stream;
    LastSummary(parse, before, seen, ev);
  }

  lemma {:induction false} OpenedCalls(parse: Parser, t: Step, seen: seq<Event>)
    requires Named(parse, t, seen)
    ensures t.s.toolBlocks == map[] <==> !AnyCall(parse, seen)
  {
    hide OpeningName, Named;
    forall c ensures c in t.s.toolBlocks <==> OpeningName(parse, seen, c).Some? { HeldInput(parse, t, seen, c); }
    if t.s.toolBlocks != map[] {
      var c :| c in t.s.toolBlocks;
    }
  }

  lemma {:induction false} LastSummary(parse: Parser, t: Step, seen: seq<Event>, ev: Event)
    requires !t.s.completed && Terminal(parse, ev) && ErrorFree(Translate(parse, t.s, ev).out) && Named(parse, t, seen)
    requires HasShown(t, Mentions(parse, seen)) && t.s.completedSearches == CompletedIds(parse, seen)
    ensures var out, ms := t.out + Translate(parse, t.s, ev).out, Mentions(parse, seen + [ev]);
            && Uses(out) == UsesOf(Firsts(ms)) && Found(out) == FoundOf(Firsts(ms))
            && |out| >= 2
            && out[|out| - 2] == MessageDelta(if AnyCall(parse, seen) then ToolUse else EndTurn,
                                              UsageIn(parse, ev, |CompletedIds(parse, seen + [ev])|),
                                              t.s.contextManagement)
  {
    hide HandleCompleted, Counted, Translate, UsesOf, FoundOf, Firsts, Uses, Found, UsageIn, AnyCall, Named;
    hide Mentions, MentionsIn, CompletedIds, CompletedIn, HasShown;
    if IsFailure(parse, ev) {
      FailedErrs(parse, t.s, ev);
    } else {
      hide IsFailure;
      CompletedMaps(parse, t.s, ev);
      MentionsStep(parse, seen, ev);
      CompletedRead(parse, ev);
      CompletedOutputRead(parse, ev);
      OpenedCalls(parse, t, seen);
      CompletionSummary(parse, t, Mentions(parse, seen), ev);
    }
  }

  lemma {:induction false} FailedErrs(parse: Parser, s: State, ev: Event)
    requires !s.completed && IsFailure(parse, ev)
    ensures !ErrorFree(Translate(parse, s, ev).out)
  {
    FailureErrs(parse, s, ev);
  }

  lemma {:induction false} CompletionSummary(parse: Parser, t: Step, ms: seq<Mention>, ev: Event)
    requires HasShown(t, ms) && ErrorFree(HandleCompleted(parse, Counted(parse, t.s, ev), ev.data).out)
    requires CallsOf(MentionsIn(parse, ev)) == OutputSearches(CompletedOutput(parse, ev.data), 0)
    ensures var last := HandleCompleted(parse, Counted(parse, t.s, ev), ev.data);
            var out, all := t.out + last.out, ms + MentionsIn(parse, ev);
            && Uses(out) == UsesOf(Firsts(all)) && Found(out) == FoundOf(Firsts(all))
            && |out| >= 2
            && out[|out| - 2] == MessageDelta(if t.s.toolBlocks == map[] then EndTurn else ToolUse,
                 UsageIn(parse, ev, |t.s.completedSearches + SearchesShown(parse, ev)|), t.s.contextManagement)
  {
    hide OutputSearches, CompletedOutput, EmitSearches, FinishCall, Finalize, RecordUsage, Counted;
    hide UsesOf, FoundOf, Firsts, UsageIn, MentionsIn, SearchesShown, HasShown, CallsOf, ErrorFree, Uses, Found;
    var counted := Counted(parse, t.s, ev);
    CountedMeans(parse, t.s, ev);
    var s1 := RecordUsage(parse, counted, ev.data);
    UsageRead(parse, counted, ev);
    var calls := OutputSearches(CompletedOutput(parse, ev.data), 0);
    var searched := EmitSearches(s1, calls);
    RecordedShown(parse, t, ms, ev);
    EmitAllShown(Step(s1, t.out), ms, MentionsIn(parse, ev));
    SearchesKeepSummary(s1, calls);
    var more := FinishSummary(parse, Step(searched.s, t.out + searched.out), searched, ms + MentionsIn(parse, ev));
    var last := HandleCompleted(parse, counted, ev.data);
    assert last == FinishCall(parse, searched);
    assert t.out + last.out == (t.out + searched.out) + more;
    NextToEnd(t.out + searched.out, more);
  }

  lemma {:induction false} CountedMeans(parse: Parser, s: State, ev: Event)
    ensures Counted(parse, s, ev).completedSearches == s.completedSearches + SearchesShown(parse, ev)
  {
  }

  lemma {:induction false} FinishSummary(parse: Parser, t: Step, searched: Step, all: seq<Mention>)
    returns (more: seq<Sse>)
    requires HasShown(t, all) && t.s == searched.s && ErrorFree(FinishCall(parse, searched).out)
    ensures FinishCall(parse, searched).out == searched.out + more
    ensures Uses(t.out + more) == UsesOf(Firsts(all)) && Found(t.out + more) == FoundOf(Firsts(all))
    ensures |more| >= 2
      && more[|more| - 2] == MessageDelta(if t.s.toolBlocks == map[] then EndTurn else ToolUse, t.s.usage,
                                          t.s.contextManagement)
  {
    hide FinishCall, Finalize, InputDeltas, CallOrder, UsesOf, FoundOf, Firsts, HasShown, ErrorFree, Uses, Found;
    hide IsSearchBlock;
    BridgeSearches.BadArgumentsShown(FinishCall(parse, searched).out);
    FinishesCleanly(parse, searched);
    var inputs := InputDeltas(parse, searched.s, CallOrder(searched.s.toolBlocks)).value;
    InputsNoSearch(parse, searched.s, CallOrder(searched.s.toolBlocks));
    FinalSummary(parse, searched.s);
    var end := Finalize(parse, searched.s).out;
    more := inputs + end;
    assert searched.out + inputs + end == searched.out + more;
    NextToEnd(inputs, end);
    NoUses(more);
    ShownParts(t, all);
    NothingMore(t.out, more);
  }

  lemma {:induction false} NextToEnd(a: seq<Sse>, b: seq<Sse>)
    requires |b| >= 2
    ensures |a + b| >= 2 && (a + b)[|a + b| - 2] == b[|b| - 2]
  {
  }

  lemma {:induction false} NothingMore(a: seq<Sse>, b: seq<Sse>)
    requires Uses(b) == [] && Found(b) == []
    ensures Uses(a + b) == Uses(a) && Found(a + b) == Found(a)
  {
    hide Uses, Found;
    UsesAppend(a, b);
    assert Uses(a) + [] == Uses(a) && Found(a) + [] == Found(a);
  }

  lemma {:induction false} ShownParts(t: Step, ms: seq<Mention>)
    requires HasShown(t, ms)
    ensures Uses(t.out) == UsesOf(Firsts(ms)) && Found(t.out) == FoundOf(Firsts(ms))
  {
  }

  lemma {:induction false} RecordedShown(parse: Parser, t: Step, ms: seq<Mention>, ev: Event)
    requires HasShown(t, ms)
    ensures var s1 := RecordUsage(parse, Counted(parse, t.s, ev), ev.data);
            && HasShown(Step(s1, t.out), ms) && s1.toolBlocks == t.s.toolBlocks
            && s1.contextManagement == t.s.contextManagement
  {
    hide UsageOf, SearchesShown, UsesOf, FoundOf, Firsts;
  }

  lemma {:induction false} SearchesKeepSummary(s: State, calls: seq<SearchCall>)
    ensures var t := EmitSearches(s, calls).s;
            t.usage == s.usage && t.contextManagement == s.contextManagement && t.toolBlocks == s.toolBlocks
    decreases |calls|
  {
    if calls != [] {
      EmitKeepsCount(s, calls[0]);
      EmitSearchUntouched(s, calls[0]);
      SearchesKeepSummary(EmitSearch(s, calls[0]).s, calls[1..]);
      hide EmitSearch;
    }
  }

  lemma {:induction false} InputsNoSearch(parse: Parser, s: State, calls: seq<Text>)
    requires (forall c | c in calls :: c in s.toolBlocks) && InputDeltas(parse, s, calls).Some?
    ensures forall e | e in InputDeltas(parse, s, calls).value :: !IsSearchBlock(e)
  {
    hide CallInput, InputDeltas;
    var out := InputDeltas(parse, s, calls).value;
    forall e | e in out ensures e.InputDelta? {
      var i :| 0 <= i < |out| && out[i] == e;
    }
  }

  lemma {:induction false} FinalSummary(parse: Parser, s: State)
    ensures var out := Finalize(parse, s).out;
            && (forall e | e in out :: !IsSearchBlock(e))
            && |out| >= 2
            && out[|out| - 2] == MessageDelta(if s.toolBlocks == map[] then EndTurn else ToolUse, s.usage,
                                              s.contextManagement)
  {
    FinalizeShape(parse, s);
    var flushed := FlushStructured(parse, s.(completed := true));
    StopsSilent(flushed.s.blocks);
    FlushNoSearch(parse, s.(completed := true));
    FlushKeeps(parse, s.(completed := true));
    hide Finalize, FlushStructured, StopsOf;
  }

  lemma {:induction false} FlushNoSearch(parse: Parser, s: State)
    ensures forall e | e in FlushStructured(parse, s).out :: !IsSearchBlock(e)
  {
    hide Cleanup, Blank;
  }

  // ----- tool-use ids -----

  /** The id shown for a search: it begins with srvtoolu_ and is made of letters, digits and underscores, namely those
      of the search's own id where there are any. */
  lemma {:induction false} UseIdSpelled(id: Text)
    ensures var use, word := ServerToolUseId(id), WordPieces(id);
            && Lit("srvtoolu_") <= use && (forall p | p in use :: IsWordPiece(p))
            && (word != [] ==> use == word || use == Lit("srvtoolu_") + word)
            && (forall p :: p in word <==> p in id && IsWordPiece(p))
  {
    WordPiecesOnly(id);
    var prefix, none := Lit("srvtoolu_"), Lit("srvtoolu_web_search");
    assert forall p | p in prefix :: IsWordPiece(p) by {
      assert forall i | 0 <= i < 9 :: "srvtoolu_"[i] == '_' || 'a' <= "srvtoolu_"[i] <= 'z';
    }
    assert forall p | p in none :: IsWordPiece(p) by {
      assert forall i | 0 <= i < 19 :: "srvtoolu_web_search"[i] == '_' || 'a' <= "srvtoolu_web_search"[i] <= 'z';
    }
    assert prefix <= none by {
      assert "srvtoolu_" <= "srvtoolu_web_search";
      assert none[..9] == prefix;
    }
  }

  lemma {:induction false} WordPiecesOnly(t: Text)
    ensures forall p :: p in WordPieces(t) <==> p in t && IsWordPiece(p)
    decreases |t|
  {
    hide IsWordPiece;
    if t != [] {
      WordPiecesOnly(t[1..]);
      assert forall p :: p in t <==> p == t[0] || p in t[1..];
    }
  }
}

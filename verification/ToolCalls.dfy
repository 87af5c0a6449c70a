/** The four kinds of tool call: parsing backend items, sanitising arguments, printing items back. */
module ToolCalls {
  import opened Json

  datatype Kind = Function | Custom | ToolSearch | LocalShell

  datatype ToolCall = ToolCall(callId: Text, name: Text, arguments: Text, kind: Kind)

  type Fields = map<string, Json>

  // ----- backend item to tool call -----

  function ParseItem(parse: Parser, item: Fields): Option<ToolCall> {
    match StringAt(item, "type")
    case None => None
    case Some(t) =>
      if t == Lit("function_call") then ParseFunctionCall(parse, item)
      else if t == Lit("custom_tool_call") then ParseCustomToolCall(item)
      else if t == Lit("tool_search_call") then ParseToolSearchCall(item)
      else if t == Lit("local_shell_call") then ParseLocalShellCall(item)
      else None
  }

  function ParseFunctionCall(parse: Parser, item: Fields): Option<ToolCall> {
    match (StringAt(item, "call_id"), StringAt(item, "name"))
    case (Some(id), Some(name)) =>
      var raw := if StringAt(item, "arguments").Some? then StringAt(item, "arguments").value else [];
      Some(ToolCall(id, name, NormalizeObjectText(parse, raw, "arguments"), Function))
    case _ => None
  }

  function ParseCustomToolCall(item: Fields): Option<ToolCall> {
    match (StringAt(item, "call_id"), StringAt(item, "name"))
    case (Some(id), Some(name)) =>
      var input := if StringAt(item, "input").Some? then StringAt(item, "input").value else [];
      Some(ToolCall(id, name, Encode(Obj(map["input" := Str(input)])), Custom))
    case _ => None
  }

  function ParseToolSearchCall(item: Fields): Option<ToolCall> {
    match StringAt(item, "call_id")
    case None => None
    case Some(id) =>
      var arguments := if "arguments" in item then item["arguments"] else Obj(map[]);
      Some(ToolCall(id, Lit("tool_search"), Encode(AsObject(arguments, "arguments")), ToolSearch))
  }

  function ParseLocalShellCall(item: Fields): Option<ToolCall> {
    match StringAt(item, "call_id")
    case None => None
    case Some(id) =>
      var status := if StringAt(item, "status").Some? then map["status" := item["status"]] else map[];
      var action := if "action" in item then map["action" := item["action"]] else map[];
      Some(ToolCall(id, Lit("local_shell"), Encode(Obj(status + action)), LocalShell))
  }

  function AsObject(v: Json, fallback: string): Json {
    if v.Obj? then v else Obj(map[fallback := v])
  }

  function NormalizeObjectText(parse: Parser, raw: Text, fallback: string): Text {
    if Blank(raw) then Encode(Obj(map[]))
    else match Decode(parse, Trim(raw))
      case None => Encode(Obj(map[fallback := Str(raw)]))
      case Some(v) => Encode(AsObject(v, fallback))
  }

  // ----- argument text to arguments object -----

  /** None is the source's error return. */
  function ParseArgs(parse: Parser, buf: Text): Option<Fields> {
    if Blank(buf) then Some(map[])
    else match Decode(parse, Trim(buf))
      case Some(Obj(m)) => Some(m)
      case _ => None
  }

  /** `kind` is None where the source passes the zero value of ToolCallKind. */
  function ParseArgsForKind(parse: Parser, kind: Option<Kind>, buf: Text): Option<Fields> {
    if kind != Some(Custom) || Blank(buf) || ParseArgs(parse, Trim(buf)).Some? then ParseArgs(parse, buf)
    else ParseArgs(parse, NormalizeObjectText(parse, Trim(buf), "input"))
  }

  /** The argument names that the Agent and Read policies delete. */
  function Dropped(name: Text, args: Fields): set<string> {
    if name == Lit("Agent") then {"isolation"} * args.Keys
    else if name == Lit("Read") && "pages" in args && (args["pages"] == Str([]) || !IsPdf(StringAt(args, "file_path")))
      then {"pages"}
    else {}
  }

  /** strings.HasSuffix(strings.ToLower(path), ".pdf"); no JSON encoding ends in such a suffix. */
  predicate IsPdf(path: Option<Text>) {
    && path.Some?
    && var t := path.value;
    && |t| >= 4
    && t[|t| - 4] == Chr('.')
    && t[|t| - 3] in {Chr('p'), Chr('P')}
    && t[|t| - 2] in {Chr('d'), Chr('D')}
    && t[|t| - 1] in {Chr('f'), Chr('F')}
  }

  function Sanitized(parse: Parser, name: Text, kind: Option<Kind>, buf: Text): Option<Fields> {
    match ParseArgsForKind(parse, kind, buf)
    case None => None
    case Some(args) => Some(args - Dropped(name, args))
  }

  /** The argument map that the policies edit in place. */
  class ToolArgs {
    var args: Fields

    constructor (args: Fields)
      ensures this.args == args
    {
      this.args := args;
    }

    /** Returns the names removed, in the order of the source's edit records. */
    method ApplyPolicies(name: Text) returns (removed: seq<string>)
      modifies this
      ensures args == old(args) - Dropped(name, old(args))
      ensures |removed| <= 1 && (set f | f in removed) == Dropped(name, old(args))
    {
      LitDistinct();
      var agent := AgentPolicy(name);
      var read := ReadPolicy(name);
      removed := agent + read;
    }

    method AgentPolicy(name: Text) returns (removed: seq<string>)
      modifies this
      ensures name == Lit("Agent") ==> args == old(args) - Dropped(name, old(args))
      ensures name == Lit("Agent") ==> |removed| <= 1 && (set f | f in removed) == Dropped(name, old(args))
      ensures name != Lit("Agent") ==> args == old(args) && removed == []
    {
      removed := [];
      if name == Lit("Agent") && "isolation" in args {
        args := args - {"isolation"};
        removed := ["isolation"];
      }
    }

    method ReadPolicy(name: Text) returns (removed: seq<string>)
      modifies this
      ensures name == Lit("Read") ==> args == old(args) - Dropped(name, old(args))
      ensures name == Lit("Read") ==> |removed| <= 1 && (set f | f in removed) == Dropped(name, old(args))
      ensures name != Lit("Read") ==> args == old(args) && removed == []
    {
      LitDistinct();
      removed := [];
      if name != Lit("Read") || "pages" !in args {
        return;
      }
      var isPdf := IsPdf(StringAt(args, "file_path"));
      if args["pages"] == Str([]) || !isPdf {
        args := args - {"pages"};
        removed := ["pages"];
      }
    }
  }

  // ----- tool_use block to backend item -----

  function CustomInputText(input: Json): Text {
    if input.Obj? && StringAt(input.fields, "input").Some? then input.fields["input"].s else Encode(input)
  }

  /** `input` Null is the absent input, which the source replaces by an empty object. */
  function PrintItem(kind: Kind, callId: Text, name: Text, input: Json): Fields {
    var v := if input == Null then Obj(map[]) else input;
    match kind
    case Custom =>
      map["type" := Str(Lit("custom_tool_call")), "name" := Str(name), "input" := Str(CustomInputText(v)),
        "call_id" := Str(callId)]
    case ToolSearch =>
      map["type" := Str(Lit("tool_search_call")), "call_id" := Str(callId), "execution" := Str(Lit("client")),
        "arguments" := v]
    case LocalShell =>
      var obj := if v.Obj? then v.fields else map[];
      map["type" := Str(Lit("local_shell_call")), "call_id" := Str(callId),
          "status" := if StringAt(obj, "status").Some? then obj["status"] else Str(Lit("completed")),
          "action" := if "action" in obj then obj["action"] else Obj(map[])]
    case Function =>
      map["type" := Str(Lit("function_call")), "name" := Str(name), "arguments" := Str(Encode(v)),
        "call_id" := Str(callId)]
  }

  // ----- round trips -----

  lemma {:induction false} LitDistinct()
    ensures Lit("function_call") != Lit("custom_tool_call") && Lit("function_call") != Lit("tool_search_call")
    ensures Lit("function_call") != Lit("local_shell_call") && Lit("custom_tool_call") != Lit("tool_search_call")
    ensures Lit("custom_tool_call") != Lit("local_shell_call") && Lit("tool_search_call") != Lit("local_shell_call")
    ensures Lit("Agent") != Lit("Read")
    ensures Lit("tool_search") != Lit("Agent") && Lit("tool_search") != Lit("Read")
    ensures Lit("local_shell") != Lit("Agent") && Lit("local_shell") != Lit("Read")
  {
    assert |Lit("function_call")| == 13 && |Lit("custom_tool_call")| == 16 && |Lit("tool_search_call")| == 16
      && |Lit("local_shell_call")| == 16;
    assert Lit("custom_tool_call")[0] == Chr('c') && Lit("tool_search_call")[0] == Chr('t')
      && Lit("local_shell_call")[0] == Chr('l');
    assert |Lit("Agent")| == 5 && |Lit("Read")| == 4 && |Lit("tool_search")| == 11 && |Lit("local_shell")| == 11;
  }

  lemma {:induction false} SanitizedEncoding(parse: Parser, name: Text, kind: Kind, m: Fields)
    ensures Sanitized(parse, name, Some(kind), Encode(Obj(m))) == Some(m - Dropped(name, m))
  {
    var t := Encode(Obj(m));
    assert t[0] == Enc(Obj(m));
    assert Trim(t) == t;
  }

  /** When printing a tool_use block and parsing it again gives the input back. */
  predicate Printable(kind: Kind, name: Text, input: Json) {
    && input.Obj?
    && var m := input.fields;
    match kind
    case Function => Dropped(name, m) == {}
    case Custom => m.Keys == {"input"} && m["input"].Str?
    case ToolSearch => true
    case LocalShell => m.Keys == {"status", "action"} && m["status"].Str?
  }

  ghost predicate Recovers(parse: Parser, kind: Kind, callId: Text, name: Text, input: Json) {
    var tc := ParseItem(parse, PrintItem(kind, callId, name, input));
    && tc.Some?
    && tc.value.callId == callId
    && tc.value.kind == kind
    && (kind == Function || kind == Custom ==> tc.value.name == name)
    && var args := Sanitized(parse, tc.value.name, Some(kind), tc.value.arguments);
    && args.Some?
    && (Obj(args.value) == input <==> Printable(kind, name, input))
  }

  /** Printing then parsing always recovers the id and the kind, recovers the name where the item
      carries one, and recovers the input exactly for the printable inputs. */
  lemma {:induction false} PrintThenParse(parse: Parser, kind: Kind, callId: Text, name: Text, input: Json)
    ensures Recovers(parse, kind, callId, name, input)
  {
    match kind
    case Function => FunctionRecovered(parse, callId, name, input);
    case Custom => CustomRecovered(parse, callId, name, input);
    case ToolSearch => ToolSearchRecovered(parse, callId, name, input);
    case LocalShell => LocalShellRecovered(parse, callId, name, input);
  }

  lemma {:induction false} FunctionRecovered(parse: Parser, callId: Text, name: Text, input: Json)
    ensures Recovers(parse, Function, callId, name, input)
  {
    var v := if input == Null then Obj(map[]) else input;
    assert Trim(Encode(v)) == Encode(v);
    var asObject := AsObject(v, "arguments");
    var item := PrintItem(Function, callId, name, input);
    assert ParseItem(parse, item) == Some(ToolCall(callId, name, Encode(asObject), Function));
    var m := asObject.fields;
    SanitizedEncoding(parse, name, Function, m);
    assert forall k | k in Dropped(name, m) :: k in m && k !in m - Dropped(name, m);
    assert Dropped(name, m) == {} ==> m - Dropped(name, m) == m;
  }

  lemma {:induction false} CustomRecovered(parse: Parser, callId: Text, name: Text, input: Json)
    ensures Recovers(parse, Custom, callId, name, input)
  {
    LitDistinct();
    var item := PrintItem(Custom, callId, name, input);
    var m := map["input" := item["input"]];
    assert ParseItem(parse, item) == Some(ToolCall(callId, name, Encode(Obj(m)), Custom));
    SanitizedEncoding(parse, name, Custom, m);
    assert m.Keys == {"input"} && Dropped(name, m) == {} && m - {} == m;
    assert Printable(Custom, name, input) ==> m == input.fields;
  }

  lemma {:induction false} ToolSearchRecovered(parse: Parser, callId: Text, name: Text, input: Json)
    ensures Recovers(parse, ToolSearch, callId, name, input)
  {
    LitDistinct();
    var asObject := AsObject(if input == Null then Obj(map[]) else input, "arguments");
    var item := PrintItem(ToolSearch, callId, name, input);
    assert ParseItem(parse, item) == Some(ToolCall(callId, Lit("tool_search"), Encode(asObject), ToolSearch));
    SanitizedEncoding(parse, Lit("tool_search"), ToolSearch, asObject.fields);
    assert asObject.fields - {} == asObject.fields;
  }

  lemma {:induction false} LocalShellRecovered(parse: Parser, callId: Text, name: Text, input: Json)
    ensures Recovers(parse, LocalShell, callId, name, input)
  {
    LitDistinct();
    var item := PrintItem(LocalShell, callId, name, input);
    var m := map["status" := item["status"]] + map["action" := item["action"]];
    assert ParseItem(parse, item) == Some(ToolCall(callId, Lit("local_shell"), Encode(Obj(m)), LocalShell));
    SanitizedEncoding(parse, Lit("local_shell"), LocalShell, m);
    assert m.Keys == {"status", "action"} && m - {} == m;
    assert Printable(LocalShell, name, input) ==> m == input.fields;
  }

  /** Backend items that survive the trip through an Anthropic tool_use block. */
  predicate Canonical(parse: Parser, kind: Kind, item: Fields) {
    match kind
    case Function =>
      && item.Keys == {"type", "name", "arguments", "call_id"}
      && item["arguments"].Str?
      && var args := Decode(parse, Trim(item["arguments"].s));
      && args.Some? && args.value.Obj?
      && (item["name"].Str? ==> Dropped(item["name"].s, args.value.fields) == {})
    case Custom => item.Keys == {"type", "name", "input", "call_id"} && item["input"].Str?
    case ToolSearch =>
      && item.Keys == {"type", "call_id", "execution", "arguments"}
      && HasString(item, "execution", "client")
      && item["arguments"].Obj?
    case LocalShell => item.Keys == {"type", "call_id", "status", "action"} && item["status"].Str?
  }

  /** Equality of items, with a function call's argument text compared as the JSON value it holds. */
  predicate SameItem(parse: Parser, kind: Kind, a: Fields, b: Fields) {
    if kind == Function then
      && a.Keys == b.Keys
      && a - {"arguments"} == b - {"arguments"}
      && ("arguments" in a ==>
            && a["arguments"].Str? && b["arguments"].Str?
            && Decode(parse, Trim(a["arguments"].s)).Some?
            && Decode(parse, Trim(a["arguments"].s)) == Decode(parse, Trim(b["arguments"].s)))
    else a == b
  }

  /** Parsing a backend item and printing it under the same kind gives the same item back exactly
      for the canonical items, whatever the parser makes of unencoded text. */
  lemma {:induction false} ParseThenPrint(parse: Parser, item: Fields)
    requires ParseItem(parse, item).Some?
    ensures var tc := ParseItem(parse, item).value;
            var input := Sanitized(parse, tc.name, Some(tc.kind), tc.arguments);
            && input.Some?
            && (SameItem(parse, tc.kind, item, PrintItem(tc.kind, tc.callId, tc.name, Obj(input.value)))
                <==> Canonical(parse, tc.kind, item))
  {
    LitDistinct();
    var tc := ParseItem(parse, item).value;
    assert tc.arguments != [] && tc.arguments[0].Enc? && tc.arguments[0].v.Obj?;
    var m := tc.arguments[0].v.fields;
    assert tc.arguments == Encode(Obj(m));
    SanitizedEncoding(parse, tc.name, tc.kind, m);
    hide Canonical, SameItem, PrintItem;
    match tc.kind {
      case Function => FunctionItemReturns(parse, item, tc, m);
      case Custom => CustomItemReturns(parse, item, tc, m);
      case ToolSearch => ToolSearchItemReturns(parse, item, tc, m);
      case LocalShell => LocalShellItemReturns(parse, item, tc, m);
    }
  }

  lemma {:induction false} CustomItemReturns(parse: Parser, item: Fields, tc: ToolCall, m: Fields)
    requires ParseItem(parse, item) == Some(tc) && tc.kind == Custom && tc.arguments == Encode(Obj(m))
    ensures SameItem(parse, Custom, item, PrintItem(Custom, tc.callId, tc.name, Obj(m - Dropped(tc.name, m))))
            <==> Canonical(parse, Custom, item)
  {
    LitDistinct();
    assert m - Dropped(tc.name, m) == m;
    var back := PrintItem(Custom, tc.callId, tc.name, Obj(m));
    assert back["input"] == m["input"];
    if Canonical(parse, Custom, item) { assert item == back; }
  }

  lemma {:induction false} ToolSearchItemReturns(parse: Parser, item: Fields, tc: ToolCall, m: Fields)
    requires ParseItem(parse, item) == Some(tc) && tc.kind == ToolSearch && tc.arguments == Encode(Obj(m))
    ensures SameItem(parse, ToolSearch, item, PrintItem(ToolSearch, tc.callId, tc.name, Obj(m - Dropped(tc.name, m))))
            <==> Canonical(parse, ToolSearch, item)
  {
    LitDistinct();
    assert m - Dropped(tc.name, m) == m;
    if Canonical(parse, ToolSearch, item) {
      assert item == PrintItem(ToolSearch, tc.callId, tc.name, Obj(m));
    }
  }

  lemma {:induction false} LocalShellItemReturns(parse: Parser, item: Fields, tc: ToolCall, m: Fields)
    requires ParseItem(parse, item) == Some(tc) && tc.kind == LocalShell && tc.arguments == Encode(Obj(m))
    ensures SameItem(parse, LocalShell, item, PrintItem(LocalShell, tc.callId, tc.name, Obj(m - Dropped(tc.name, m))))
            <==> Canonical(parse, LocalShell, item)
  {
    LitDistinct();
    assert m - Dropped(tc.name, m) == m;
    var back := PrintItem(LocalShell, tc.callId, tc.name, Obj(m));
    if Canonical(parse, LocalShell, item) { assert item == back; }
    if item == back { assert back.Keys == {"type", "call_id", "status", "action"}; }
  }

  lemma {:induction false} FunctionItemReturns(parse: Parser, item: Fields, tc: ToolCall, m: Fields)
    requires ParseItem(parse, item) == Some(tc) && tc.kind == Function && tc.arguments == Encode(Obj(m))
    ensures SameItem(parse, Function, item, PrintItem(Function, tc.callId, tc.name, Obj(m - Dropped(tc.name, m))))
            <==> Canonical(parse, Function, item)
  {
    if Canonical(parse, Function, item) { CanonicalReturns(parse, item, tc, m); }
    if SameItem(parse, Function, item, PrintItem(Function, tc.callId, tc.name, Obj(m - Dropped(tc.name, m)))) {
      ReturnsCanonical(parse, item, tc, m);
    }
  }

  lemma {:induction false} CanonicalReturns(parse: Parser, item: Fields, tc: ToolCall, m: Fields)
    requires ParseItem(parse, item) == Some(tc) && tc.kind == Function && tc.arguments == Encode(Obj(m))
    requires Canonical(parse, Function, item)
    ensures SameItem(parse, Function, item, PrintItem(Function, tc.callId, tc.name, Obj(m - Dropped(tc.name, m))))
  {
    LitDistinct();
    assert m - Dropped(tc.name, m) == m;
    var back := PrintItem(Function, tc.callId, tc.name, Obj(m));
    DecodePrinted(parse, tc, m);
    assert item - {"arguments"} == back - {"arguments"};
  }

  lemma {:induction false} ReturnsCanonical(parse: Parser, item: Fields, tc: ToolCall, m: Fields)
    requires ParseItem(parse, item) == Some(tc) && tc.kind == Function && tc.arguments == Encode(Obj(m))
    requires SameItem(parse, Function, item, PrintItem(Function, tc.callId, tc.name, Obj(m - Dropped(tc.name, m))))
    ensures Canonical(parse, Function, item)
  {
    LitDistinct();
    var input := m - Dropped(tc.name, m);
    DecodePrinted(parse, tc, input);
    assert item.Keys == {"type", "name", "arguments", "call_id"};
    assert m == input;
    assert Dropped(tc.name, m) <= m.Keys && input.Keys == m.Keys - Dropped(tc.name, m);
  }

  lemma {:induction false} DecodePrinted(parse: Parser, tc: ToolCall, input: Fields)
    ensures var back := PrintItem(Function, tc.callId, tc.name, Obj(input));
            && back.Keys == {"type", "name", "arguments", "call_id"} && back["arguments"].Str?
            && Decode(parse, Trim(back["arguments"].s)) == Some(Obj(input))
  {
    assert Trim(Encode(Obj(input))) == Encode(Obj(input));
  }
}

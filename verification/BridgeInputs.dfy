/** What a stream gives as the input of each tool call, and which arguments the policies leave out. */
module BridgeInputs {
  import opened Json
  import opened ToolCalls
  import opened Bridge
  import opened BridgeGrammar
  import opened BridgeAgreement
  import opened BridgeCalls
  import opened BridgeNames

  // ----- arguments -----

  /** The arguments a text holds. Only a custom tool may be given something that is no object, which becomes its
      `input`. */
  function ArgumentsIn(parse: Parser, kind: Option<Kind>, text: Text): Option<Fields> {
    var t := Trim(text);
    if t == [] then Some(map[])
    else match Decode(parse, t)
      case Some(Obj(m)) => Some(m)
      case Some(v) => if kind == Some(Custom) then Some(map["input" := v]) else None
      case None => if kind == Some(Custom) then Some(map["input" := Str(t)]) else None
  }

  predicate IsLetter(p: Piece, small: char, capital: char) {
    p == Chr(small) || p == Chr(capital)
  }

  /** The file read is a PDF by its ending, in letters of either case. */
  predicate ReadsPdf(args: Fields) {
    && "file_path" in args && args["file_path"].Str?
    && var path := args["file_path"].s;
    && |path| >= 4
    && var ending := path[|path| - 4..];
    && ending[0] == Chr('.') && IsLetter(ending[1], 'p', 'P') && IsLetter(ending[2], 'd', 'D')
    && IsLetter(ending[3], 'f', 'F')
  }

  /** An agent's isolation, and the pages of a file that has none or of an empty list of pages. */
  predicate LeftOut(name: Text, args: Fields, k: string) {
    || (name == Lit("Agent") && k == "isolation")
    || (name == Lit("Read") && k == "pages" && k in args && (args[k] == Str([]) || !ReadsPdf(args)))
  }

  function Given(name: Text, args: Fields): Fields {
    map k | k in args && !LeftOut(name, args, k) :: args[k]
  }

  lemma {:induction false} TrimTwice(t: Text)
    ensures Trim(Trim(t)) == Trim(t)
  {
  }

  lemma {:induction false} TrimBlank(t: Text)
    ensures Blank(Trim(t)) <==> Blank(t)
    ensures Blank(t) <==> Trim(t) == []
  {
  }

  lemma {:induction false} ArgsRead(parse: Parser, text: Text)
    ensures ParseArgs(parse, text) == if Trim(text) == [] then Some(map[])
      else match Decode(parse, Trim(text))
        case Some(Obj(m)) => Some(m)
        case _ => None
    ensures ParseArgs(parse, Trim(text)) == ParseArgs(parse, text)
  {
    TrimBlank(text);
    TrimTwice(text);
    hide Trim, Blank;
  }

  lemma {:induction false} EncodedArgs(parse: Parser, m: Fields)
    ensures ParseArgs(parse, Encode(Obj(m))) == Some(m)
  {
    var t := Encode(Obj(m));
    assert t[0] == Enc(Obj(m)) && Trim(t) == t;
  }

  lemma {:induction false} ArgumentsRead(parse: Parser, kind: Option<Kind>, text: Text)
    ensures ParseArgsForKind(parse, kind, text) == ArgumentsIn(parse, kind, text)
  {
    ArgsRead(parse, text);
    TrimTwice(text);
    TrimBlank(text);
    hide Trim, Blank, ParseArgs;
    if kind == Some(Custom) && Trim(text) != [] && ParseArgs(parse, text).None? {
      var v := match Decode(parse, Trim(text))
        case None => map["input" := Str(Trim(text))]
        case Some(v) => map["input" := v];
      EncodedArgs(parse, v);
    }
  }

  lemma {:induction false} DroppedRead(name: Text, args: Fields)
    ensures args - Dropped(name, args) == Given(name, args)
  {
    LitDistinct();
    hide Lit;
    forall k | k in args ensures k in Dropped(name, args) <==> LeftOut(name, args, k) {
      PdfRead(args);
      hide IsPdf, ReadsPdf;
    }
  }

  lemma {:induction false} PdfRead(args: Fields)
    ensures IsPdf(StringAt(args, "file_path")) <==> ReadsPdf(args)
  {
  }

  /** The input of a call: the arguments its text holds, without those the policies leave out. */
  lemma {:induction false} SanitizedExactly(parse: Parser, name: Text, kind: Option<Kind>, text: Text)
    ensures Sanitized(parse, name, kind, text)
      == match ArgumentsIn(parse, kind, text)
         case None => None
         case Some(args) => Some(Given(name, args))
  {
    hide ParseArgsForKind, ArgumentsIn, Dropped, Given;
    ArgumentsRead(parse, kind, text);
    match ArgumentsIn(parse, kind, text) {
      case Some(args) => DroppedRead(name, args);
      case None =>
    }
  }

  // ----- the stream -----

  /** The input of a call, read off the events: of the text that its last finished item and the later fragments
      make, under the name and kind of its last item. */
  function InputIn(parse: Parser, evs: seq<Event>, c: Text): Option<Fields> {
    var last := LastItemOf(parse, evs, c);
    match ArgumentsIn(parse, if last.Some? then Some(last.value.kind) else None, Buffer(parse, evs, c))
    case None => None
    case Some(args) => Some(Given(LastName(parse, evs, c), args))
  }

  lemma {:induction false} InputRead(parse: Parser, evs: seq<Event>, c: Text)
    ensures FinalInput(parse, evs, c) == InputIn(parse, evs, c)
  {
    hide LastItemOf, Buffer, Sanitized, ArgumentsIn, Given;
    var last := LastItemOf(parse, evs, c);
    SanitizedExactly(parse, LastName(parse, evs, c), if last.Some? then Some(last.value.kind) else None,
                     Buffer(parse, evs, c));
  }

  /** On every stream that completes without error the calls that were opened are given their inputs, in the order
      in which they were opened. */
  lemma {:induction false} InputsShown(parse: Parser, schema: Json, contextManagement: Json, evs: seq<Event>)
    requires Stream(parse, schema, contextManagement, evs).s.completed
    requires ErrorFree(Stream(parse, schema, contextManagement, evs).out)
    ensures var seen, out := BeforeEnd(parse, evs), Stream(parse, schema, contextManagement, evs).out;
            && |InputsOf(out)| == |ToolStarts(out)|
            && (forall i | 0 <= i < |ToolStarts(out)| ::
                 && InputsOf(out)[i].0 == ToolStarts(out)[i].0
                 && InputIn(parse, seen, ToolStarts(out)[i].1) == Some(InputsOf(out)[i].1))
            && (forall c :: OpeningName(parse, seen, c).Some?
                 <==> exists i :: 0 <= i < |ToolStarts(out)| && ToolStarts(out)[i].1 == c)
  {
    hide Stream, BeforeEnd, Named, InputIn, CallInput, OpeningName, InputsOf, ToolStarts, Settled, FinalInput;
    hide ErrorFree, NoToolStart, Terminal, Over;
    var seen := BeforeEnd(parse, evs);
    var before, all := Stream(parse, schema, contextManagement, seen), Stream(parse, schema, contextManagement, evs);
    EndsAtCompletion(parse, schema, contextManagement, evs);
    NotOver(parse, seen);
    RunNamed(parse, schema, contextManagement, seen);
    StreamEnds(parse, schema, contextManagement, evs);
    SettledInputs(parse, all.s, all.out);
    SameCallInput(parse, before.s, all.s);
    var order := CallOrder(all.s.toolBlocks);
    forall i | 0 <= i < |order|
      ensures InputIn(parse, seen, order[i]) == Some(InputsOf(all.out)[i].1)
    {
      assert order[i] in order;
      HeldInput(parse, before, seen, order[i]);
      InputRead(parse, seen, order[i]);
    }
    forall c ensures OpeningName(parse, seen, c).Some? <==> exists i :: 0 <= i < |order| && order[i] == c {
      HeldInput(parse, before, seen, c);
      if c in order {
        var i :| 0 <= i < |order| && order[i] == c;
      }
    }
  }

  lemma {:induction false} StreamEnds(parse: Parser, schema: Json, contextManagement: Json, evs: seq<Event>)
    requires Stream(parse, schema, contextManagement, evs).s.completed
    requires ErrorFree(Stream(parse, schema, contextManagement, evs).out)
    ensures var t := Stream(parse, schema, contextManagement, evs); Settled(parse, t.s, t.out)
  {
    hide Settled, Agrees;
    var t := Stream(parse, schema, contextManagement, evs);
    FreshAgrees(schema, contextManagement);
    FreshOpen(schema, contextManagement);
    RunSettles(parse, NewState(schema, contextManagement), [], evs);
    assert [] + t.out == t.out;
  }

  lemma {:induction false} FreshOpen(schema: Json, contextManagement: Json)
    ensures !NewState(schema, contextManagement).completed
  {
  }

  lemma {:induction false} SettledInputs(parse: Parser, s: State, out: seq<Sse>)
    requires Settled(parse, s, out)
    ensures var order := CallOrder(s.toolBlocks);
            && |InputsOf(out)| == |ToolStarts(out)| == |order|
            && forall i | 0 <= i < |order| ::
                 && ToolStarts(out)[i] == (s.toolBlocks[order[i]], order[i])
                 && InputsOf(out)[i].0 == s.toolBlocks[order[i]]
                 && CallInput(parse, s, order[i]) == Some(InputsOf(out)[i].1)
  {
    hide TextOf, ToolStarts, InputsOf, CallOrder, CallInput;
  }
}

/** How far a stripped command reaches: from the message tag that goes before its name to the arguments
    that follow, in tags spelled out. */
module TagSpans {
  import opened Json
  import opened Tags
  import opened TagScan
  import opened TagCuts

  /** The first tag of the text is the part from `start` to `end`. */
  predicate FirstIs(text: string, tag: string, start: nat, end: nat) {
    Spelled(text, "<" + tag + ">", "</" + tag + ">", start, end)
  }

  ghost predicate Has(text: string, tag: string) {
    exists start: nat, end: nat :: FirstIs(text, tag, start, end)
  }

  ghost predicate FirstEnds(text: string, tag: string, end: nat) {
    exists start: nat :: FirstIs(text, tag, start, end)
  }

  /** Where the last of the tags that follow one another begins. */
  ghost predicate LastStarts(text: string, tag: string, at: nat)
    decreases |text|
  {
    exists start: nat, end: nat ::
      && FirstIs(text, tag, start, end) && start < end <= |text|
      && if Has(text[end..], tag) then at >= end && LastStarts(text[end..], tag, at - end) else at == start
  }

  lemma {:induction false} TagSpelled(tag: string)
    ensures Open(tag) == "<" + tag + ">" && CloseTag(tag) == "</" + tag + ">"
    ensures |Open(tag)| > 0 && |CloseTag(tag)| > 0
  {
  }

  lemma {:induction false} FirstRead(text: string, tag: string)
    ensures match FirstTag(text, tag)
      case None => !Has(text, tag)
      case Some(m) => FirstIs(text, tag, m.start, m.end) && m.start < m.end <= |text|
    ensures forall start: nat, end: nat :: FirstIs(text, tag, start, end) ==>
      FirstTag(text, tag).Some? && FirstTag(text, tag).value.start == start && FirstTag(text, tag).value.end == end
  {
    TagSpelled(tag);
    TagHasLength(text, tag);
    hide FirstBetween, Spelled, Open, CloseTag;
    if FirstTag(text, tag).Some? { FirstIsSpelled(text, Open(tag), CloseTag(tag)); }
    forall start: nat, end: nat | FirstIs(text, tag, start, end)
      ensures FirstTag(text, tag).Some? && FirstTag(text, tag).value.start == start
        && FirstTag(text, tag).value.end == end
    {
      SpelledIsFirst(text, Open(tag), CloseTag(tag), start, end);
    }
  }

  lemma {:induction false} LastRead(text: string, tag: string)
    ensures LastTag(text, tag).Some? <==> Has(text, tag)
    ensures forall at: nat ::
      LastStarts(text, tag, at) <==> LastTag(text, tag).Some? && LastTag(text, tag).value.start == at
    decreases |text|
  {
    hide FirstTag, FirstIs;
    FirstRead(text, tag);
    if FirstTag(text, tag).Some? {
      var first := FirstTag(text, tag).value;
      LastRead(text[first.end..], tag);
      LastOnly(text, tag, first.start, first.end);
    }
  }

  lemma {:induction false} LastOnly(text: string, tag: string, start: nat, end: nat)
    requires FirstIs(text, tag, start, end) && start < end <= |text|
    requires forall s: nat, e: nat :: FirstIs(text, tag, s, e) ==> s == start && e == end
    ensures forall at: nat ::
      LastStarts(text, tag, at)
      <==> if Has(text[end..], tag) then at >= end && LastStarts(text[end..], tag, at - end) else at == start
  {
    hide FirstIs, Has;
  }

  /** The name tag a command was found by: the first that carries a local-only name. */
  predicate IsNameOf(table: Table, text: string, k: nat) {
    && k < |NameTags(text)| && table.command(NameTags(text)[k].value).Some?
    && forall j | 0 <= j < k :: table.command(NameTags(text)[j].value).None?
  }

  lemma {:induction false} TagsFrom(text: string, offset: nat)
    requires offset <= |text|
    ensures match FirstTag(text[offset..], NAME_TAG)
      case None => NameTags(text[offset..]) == []
      case Some(m) =>
        && offset + m.end <= |text| && m.start < m.end
        && NameTags(text[offset..]) == [m] + ShiftedAll(NameTags(text[offset + m.end..]), m.end)
  {
    hide FirstTag;
    TagHasLength(text[offset..], NAME_TAG);
    if FirstTag(text[offset..], NAME_TAG).Some? {
      var m := FirstTag(text[offset..], NAME_TAG).value;
      assert text[offset..][m.end..] == text[offset + m.end..];
    }
  }

  /** The same from an offset on. */
  ghost predicate FoundFrom(table: Table, text: string, offset: nat, span: Option<Span>)
    requires offset <= |text|
  {
    var tags := ShiftedAll(NameTags(text[offset..]), offset);
    if span.None? then forall k | 0 <= k < |tags| :: table.command(tags[k].value).None?
    else exists k: nat ::
      && k < |tags| && (forall j | 0 <= j < k :: table.command(tags[j].value).None?)
      && SpanOf(table, text, tags[k], span.value)
  }

  /** A command reaches from the last message tag before its name tag, or from the name tag, to the first arguments
      after it, or to the name tag's end. */
  ghost predicate SpanOf(table: Table, text: string, tag: Tag, span: Span) {
    && tag.start < tag.end <= |text|
    && table.command(tag.value) == Some(span.name)
    && (if Has(text[..tag.start], "command-message") then LastStarts(text[..tag.start], "command-message", span.start)
        else span.start == tag.start)
    && (if Has(text[tag.end..], "command-args") then
          span.end > tag.end && FirstEnds(text[tag.end..], "command-args", span.end - tag.end)
        else span.end == tag.end)
  }

  lemma {:induction false} SpanHere(table: Table, text: string, tag: Tag, name: string)
    requires tag.start < tag.end <= |text| && table.command(tag.value) == Some(name)
    ensures var message, arguments := LastTag(text[..tag.start], MESSAGE_TAG), FirstTag(text[tag.end..], ARGS_TAG);
            SpanOf(table, text, tag, Span(name, if message.Some? then message.value.start else tag.start,
                                          if arguments.Some? then tag.end + arguments.value.end else tag.end))
  {
    hide FirstTag, LastTag, FirstIs, Has, LastStarts;
    LastRead(text[..tag.start], "command-message");
    FirstRead(text[tag.end..], "command-args");
    HasMeans(text[tag.end..], "command-args");
  }

  lemma {:induction false} HasMeans(text: string, tag: string)
    ensures Has(text, tag) <==> exists start: nat, end: nat :: FirstIs(text, tag, start, end)
  {
  }

  lemma {:induction false} ShiftedMore(tags: seq<Tag>, a: nat, b: nat)
    ensures ShiftedAll(ShiftedAll(tags, a), b) == ShiftedAll(tags, a + b)
  {
  }

  lemma {:induction false} SpanFrom(table: Table, text: string, offset: nat)
    requires offset <= |text|
    ensures FoundFrom(table, text, offset, CommandSpan(table, text, offset))
    decreases |text| - offset
  {
    hide FirstTag, NameTags, SpanOf, LastTag;
    TagsFrom(text, offset);
    var m := FirstTag(text[offset..], NAME_TAG);
    if m.Some? {
      var tag := Shifted(m.value, offset);
      var rest, all := ShiftedAll(NameTags(text[tag.end..]), tag.end), ShiftedAll(NameTags(text[offset..]), offset);
      ShiftedMore(NameTags(text[tag.end..]), m.value.end, offset);
      assert all == [tag] + rest;
      if table.command(tag.value).Some? {
        SpanHere(table, text, tag, table.command(tag.value).value);
        var k: nat := 0;
        assert k < |all| && all[k] == tag && SpanOf(table, text, all[k], CommandSpan(table, text, offset).value);
      } else {
        SpanFrom(table, text, tag.end);
        NextFound(table, text, tag, rest, all, CommandSpan(table, text, tag.end));
      }
    }
  }

  lemma {:induction false} NextFound(table: Table, text: string, tag: Tag, rest: seq<Tag>, all: seq<Tag>,
                                     span: Option<Span>)
    requires all == [tag] + rest && table.command(tag.value).None?
    requires if span.None? then forall k | 0 <= k < |rest| :: table.command(rest[k].value).None?
             else exists k: nat :: && k < |rest| && (forall j | 0 <= j < k :: table.command(rest[j].value).None?)
                                   && SpanOf(table, text, rest[k], span.value)
    ensures if span.None? then forall k | 0 <= k < |all| :: table.command(all[k].value).None?
            else exists k: nat :: && k < |all| && (forall j | 0 <= j < k :: table.command(all[j].value).None?)
                                  && SpanOf(table, text, all[k], span.value)
  {
    hide SpanOf;
    if span.Some? {
      var k: nat :| && k < |rest| && (forall j | 0 <= j < k :: table.command(rest[j].value).None?)
                    && SpanOf(table, text, rest[k], span.value);
      assert all[k + 1] == rest[k];
      forall j | 0 <= j < k + 1 ensures table.command(all[j].value).None? {
        if j > 0 { assert all[j] == rest[j - 1]; }
      }
    }
  }

  /** For every text and table: a command is found exactly where a name tag carries a local-only name, by the first
      of those, and it reaches from the message tag before it to the arguments after it. */
  lemma {:induction false} CommandSpanExactly(table: Table, text: string)
    ensures match CommandSpan(table, text, 0)
      case None => forall k | 0 <= k < |NameTags(text)| :: table.command(NameTags(text)[k].value).None?
      case Some(span) => exists k: nat :: IsNameOf(table, text, k) && SpanOf(table, text, NameTags(text)[k], span)
  {
    hide NameTags, CommandSpan, SpanOf;
    SpanFrom(table, text, 0);
    assert text[0..] == text && ShiftedAll(NameTags(text), 0) == NameTags(text);
    if CommandSpan(table, text, 0).Some? {
      var span := CommandSpan(table, text, 0).value;
      var k: nat :|
        && k < |NameTags(text)| && (forall j | 0 <= j < k :: table.command(NameTags(text)[j].value).None?)
        && SpanOf(table, text, NameTags(text)[k], span);
      SpanNames(table, text, NameTags(text)[k], span);
      assert IsNameOf(table, text, k);
    }
  }

  lemma {:induction false} SpanNames(table: Table, text: string, tag: Tag, span: Span)
    requires SpanOf(table, text, tag, span)
    ensures table.command(tag.value).Some?
  {
  }

  // ----- output -----

  /** The output tags found one after the other. */
  function OutputTags(text: string): seq<Tag>
    decreases |text|
  {
    TagHasLength(text, "local-command-stdout");
    match FirstTag(text, "local-command-stdout")
    case None => []
    case Some(m) => [m] + ShiftedAll(OutputTags(text[m.end..]), m.end)
  }

  /** The first output tag that marks a command is found, and covered exactly. */
  predicate IsOutput(table: Table, tags: seq<Tag>, k: nat, span: Span) {
    && k < |tags| && (forall j | 0 <= j < k :: table.stdout(tags[j].value).None?)
    && table.stdout(tags[k].value) == Some(span.name) && span.start == tags[k].start && span.end == tags[k].end
  }

  /** For every text and table: output is found exactly where an output tag marks a command, and the first of those
      is covered. */
  lemma {:induction false} OutputSpanExactly(table: Table, text: string)
    ensures var span, tags := StdoutSpan(table, text), OutputTags(text);
            && (span.None? ==> forall k | 0 <= k < |tags| :: table.stdout(tags[k].value).None?)
            && (span.Some? ==> exists k: nat :: IsOutput(table, tags, k, span.value))
    decreases |text|
  {
    hide FirstTag;
    OutputStep(table, text);
    hide StdoutSpan, OutputTags;
    var m := FirstTag(text, STDOUT_TAG);
    if m.Some? {
      var rest, all := OutputTags(text[m.value.end..]), OutputTags(text);
      if table.stdout(m.value.value).Some? {
        var k: nat := 0;
        assert all[k] == m.value && IsOutput(table, all, k, StdoutSpan(table, text).value);
      } else {
        OutputSpanExactly(table, text[m.value.end..]);
        LaterOutput(table, m.value, rest, all, StdoutSpan(table, text[m.value.end..]));
      }
    }
  }

  lemma {:induction false} OutputStep(table: Table, text: string)
    ensures match FirstTag(text, STDOUT_TAG)
      case None => StdoutSpan(table, text) == None && OutputTags(text) == []
      case Some(m) =>
        && 0 < m.end <= |text|
        && OutputTags(text) == [m] + ShiftedAll(OutputTags(text[m.end..]), m.end)
        && StdoutSpan(table, text) == (match table.stdout(m.value)
             case Some(name) => Some(Span(name, m.start, m.end))
             case None => ShiftedSpan(StdoutSpan(table, text[m.end..]), m.end))
  {
    hide FirstTag;
    TagHasLength(text, STDOUT_TAG);
  }

  lemma {:induction false} LaterOutput(table: Table, first: Tag, rest: seq<Tag>, all: seq<Tag>, span: Option<Span>)
    requires all == [first] + ShiftedAll(rest, first.end) && table.stdout(first.value).None?
    requires span.None? ==> forall k | 0 <= k < |rest| :: table.stdout(rest[k].value).None?
    requires span.Some? ==> exists k: nat :: IsOutput(table, rest, k, span.value)
    ensures span.None? ==> forall k | 0 <= k < |all| :: table.stdout(all[k].value).None?
    ensures span.Some? ==> exists k: nat :: IsOutput(table, all, k, ShiftedSpan(span, first.end).value)
  {
    forall k | 0 <= k < |all|
      ensures table.stdout(all[k].value) == if k == 0 then None else table.stdout(rest[k - 1].value)
    {
      if k > 0 { assert all[k] == Shifted(rest[k - 1], first.end); }
    }
    if span.Some? {
      var k: nat :| IsOutput(table, rest, k, span.value);
      assert IsOutput(table, all, k + 1, ShiftedSpan(span, first.end).value);
    }
  }

  // ----- all of stripping -----

  /** `b` is `a` without the part the span covers. */
  predicate IsCut(a: string, span: Span, b: string) {
    span.start < span.end <= |a| && b == a[..span.start] + a[span.end..]
  }

  /** From the first text to the last, one cut after the other: first commands, `n` of them, until none is left, and
      then output until none is left. */
  ghost predicate Cuts(table: Table, texts: seq<string>, names: seq<string>, n: nat) {
    && |texts| == |names| + 1 && n <= |names|
    && (forall i | 0 <= i < n :: CommandCut(table, texts[i], names[i], texts[i + 1]))
    && CommandSpan(table, texts[n], 0) == None
    && (forall i | n <= i < |names| :: OutputCut(table, texts[i], names[i], texts[i + 1]))
    && StdoutSpan(table, texts[|names|]) == None
  }

  predicate CommandCut(table: Table, a: string, name: string, b: string) {
    var span := CommandSpan(table, a, 0);
    span.Some? && span.value.name == name && IsCut(a, span.value, b)
  }

  predicate OutputCut(table: Table, a: string, name: string, b: string) {
    var span := StdoutSpan(table, a);
    span.Some? && span.value.name == name && IsCut(a, span.value, b)
  }

  lemma {:induction false} CommandsCut(table: Table, text: string) returns (texts: seq<string>)
    ensures var r := StripCommands(table, text);
            && |texts| == |r.names| + 1 && texts[0] == text && texts[|r.names|] == r.text
            && (forall i | 0 <= i < |r.names| :: CommandCut(table, texts[i], r.names[i], texts[i + 1]))
    decreases |text|
  {
    hide CommandSpan;
    var span := CommandSpan(table, text, 0);
    if span.None? {
      texts := [text];
    } else {
      var rest := CommandsCut(table, Cut(text, span.value));
      texts := [text] + rest;
      var r := StripCommands(table, text);
      forall i | 0 <= i < |r.names| ensures CommandCut(table, texts[i], r.names[i], texts[i + 1]) {
        if i > 0 { assert texts[i] == rest[i - 1]; }
      }
    }
  }

  lemma {:induction false} OutputsCut(table: Table, text: string) returns (texts: seq<string>)
    ensures var r := StripStdout(table, text);
            && |texts| == |r.names| + 1 && texts[0] == text && texts[|r.names|] == r.text
            && (forall i | 0 <= i < |r.names| :: OutputCut(table, texts[i], r.names[i], texts[i + 1]))
    decreases |text|
  {
    hide StdoutSpan;
    var span := StdoutSpan(table, text);
    if span.None? {
      texts := [text];
    } else {
      var rest := OutputsCut(table, Cut(text, span.value));
      texts := [text] + rest;
      var r := StripStdout(table, text);
      forall i | 0 <= i < |r.names| ensures OutputCut(table, texts[i], r.names[i], texts[i + 1]) {
        if i > 0 { assert texts[i] == rest[i - 1]; }
      }
    }
  }

  /** Stripping cuts commands until none is left, then marked output until none is left, and trims what remains; it
      reports the command of every cut, in order, and leaves everything else. */
  lemma {:induction false} StripsByCuts(table: Table, text: string) returns (texts: seq<string>, n: nat)
    ensures var r := Apply(table, text);
            && Cuts(table, texts, r.names, n) && texts[0] == text && r.text == TrimText(texts[|r.names|])
  {
    hide CommandSpan, StdoutSpan, CommandCut, OutputCut, TrimText;
    var first := StripCommands(table, text);
    var second := StripStdout(table, first.text);
    var a := CommandsCut(table, text);
    var b := OutputsCut(table, first.text);
    n := |first.names|;
    texts := a[..n] + b;
    var names := first.names + second.names;
    forall i | 0 <= i < n ensures CommandCut(table, texts[i], names[i], texts[i + 1]) {
      assert texts[i + 1] == a[i + 1];
    }
    forall i | n <= i < |names| ensures OutputCut(table, texts[i], names[i], texts[i + 1]) {
      assert texts[i] == b[i - n] && texts[i + 1] == b[i - n + 1] && names[i] == second.names[i - n];
    }
  }
}

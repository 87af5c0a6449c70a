/** Two texts, under the gateway's own table of commands, from which stripping leaves a command behind. */
module TagsExample {
  import opened Json
  import opened Tags
  import opened TagScan
  import opened TagCuts
  import opened Commands

  // ----- searching in texts made of tags -----

  function Later(r: Option<nat>, n: nat): Option<nat> {
    if r.None? then None else Some(r.value + n)
  }

  lemma {:induction false} SkipWord(w: string, rest: string, sub: string)
    requires sub != "" && sub[0] == '<' && '<' !in w
    ensures Index(w + rest, sub) == Later(Index(rest, sub), |w|)
    decreases |w|
  {
    if w == "" {
      assert w + rest == rest;
    } else {
      assert w[0] in w;
      SkipWord(w[1..], rest, sub);
      assert (w + rest)[1..] == w[1..] + rest;
    }
  }

  /** A tag that is not the one looked for, because it differs at position `k`. */
  lemma {:induction false} SkipTag(w: string, rest: string, sub: string, k: nat)
    requires sub != "" && sub[0] == '<' && '<' !in w
    requires k < |sub| && k < 1 + |w| + |rest| && (("<" + w) + rest)[k] != sub[k]
    ensures Index(("<" + w) + rest, sub) == Later(Index(rest, sub), 1 + |w|)
  {
    var s := ("<" + w) + rest;
    assert !(sub <= s);
    assert s[1..] == w + rest;
    SkipWord(w, rest, sub);
  }

  lemma {:induction false} Assoc(a: string, b: string, c: string)
    ensures (a + b) + c == a + (b + c)
  {
  }

  lemma {:induction false} IndexNothing(sub: string)
    requires sub != ""
    ensures Index("", sub) == None
  {
  }

  lemma {:induction false} IndexHere(sub: string, rest: string)
    ensures Index(sub + rest, sub) == Some(0)
  {
  }

  lemma {:induction false} IndexNoFirst(s: string, sub: string)
    requires sub != "" && sub[0] !in s
    ensures Index(s, sub) == None
    decreases |s|
  {
    if s != "" {
      assert s[0] in s;
      IndexNoFirst(s[1..], sub);
    }
  }

  lemma {:induction false} NoTag(text: string, tag: string)
    requires Index(text, Open(tag)) == None
    ensures FirstTag(text, tag) == None
  {
  }

  /** A tag spelled out in the middle of a text. */
  lemma {:induction false} BetweenAt(p: string, open: string, value: string, close: string, q: string)
    requires Index(p + (open + (value + (close + q))), open) == Some(|p|)
    requires Index(value + (close + q), close) == Some(|value|)
    ensures FirstBetween(p + (open + (value + (close + q))), open, close)
      == Some(Tag(|p|, |p| + |open| + |value| + |close|, TrimText(value)))
  {
    hide Index, TrimText;
    var rest := value + (close + q);
    var text := p + (open + rest);
    assert text[|p| + |open|..] == rest && rest[..|value|] == value;
  }

  lemma {:induction false} CutOut(p: string, s: string, q: string, span: Span)
    requires span.start == |p| && span.end == |p| + |s| && s != ""
    ensures span.end <= |p + (s + q)| && Cut(p + (s + q), span) == p + q
  {
    var text := p + (s + q);
    assert text[..|p|] == p && text[|p| + |s|..] == q;
  }

  // ----- the gateway's table -----

  lemma {:induction false} CompactIsLocalOnly()
    ensures LocalOnlyCommand("compact") == Some("compact")
  {
    assert TrimText("compact") == "compact";
    assert "compact" == LOCAL_ONLY[6];
  }

  lemma {:induction false} NoTagIsListed(v: string)
    requires v != "" && v[0] == '<'
    ensures v !in LOCAL_ONLY
  {
    forall n | n in LOCAL_ONLY ensures n[0] != '<' {
    }
  }

  /** A name that begins with a tag is no command. */
  lemma {:induction false} TagIsNoCommand(v: string)
    requires v != "" && v[0] == '<' && !IsSpaceChar(v[|v| - 1])
    ensures LocalOnlyCommand(v) == None
  {
    assert TrimText(v) == v;
    assert TrimPrefix(v, "/") == v && TrimPrefix(v, NAMESPACE) == v;
    hide TrimText, TrimPrefix;
    NoTagIsListed(v);
  }

  lemma {:induction false} CompactedIsMarked(rest: string)
    requires 'B' !in rest
    ensures LocalOnlyStdout("Compacted" + rest) == Some("compact")
  {
    var s := "Compacted" + rest;
    assert 'B' !in "Compacted";
    assert 'B' !in s;
    IndexNoFirst(s, "Branched conversation");
    assert "Branched conversation" == BRANCH_MARKERS[0];
    IndexHere(COMPACT_MARKER, rest);
    hide Index;
    assert !Contains(s, BRANCH_MARKERS[0]);
  }

  // ----- what is left in both cases -----

  const NAME_OPEN := "<" + "command-name>"
  const NAME_CLOSE := "<" + "/command-name>"
  const OUT_OPEN := "<" + "local-command-stdout>"
  const OUT_CLOSE := "<" + "/local-command-stdout>"

  const LEFT := NAME_OPEN + ("compact" + NAME_CLOSE)

  lemma {:induction false} TagTexts()
    ensures Open(NAME_TAG) == NAME_OPEN && CloseTag(NAME_TAG) == NAME_CLOSE
    ensures Open(STDOUT_TAG) == OUT_OPEN && CloseTag(STDOUT_TAG) == OUT_CLOSE
    ensures |NAME_OPEN| == 14 && |NAME_CLOSE| == 15 && |OUT_OPEN| == 22 && |OUT_CLOSE| == 23
  {
  }

  /** Where the four tags first differ. */
  lemma {:induction false} TagsDiffer()
    ensures NAME_OPEN[0] == NAME_CLOSE[0] == OUT_OPEN[0] == OUT_CLOSE[0] == '<'
    ensures NAME_OPEN[1] == 'c' && OUT_OPEN[1] == 'l' && NAME_CLOSE[1] == OUT_CLOSE[1] == '/'
    ensures NAME_CLOSE[2] == 'c' && OUT_CLOSE[2] == 'l' && NAME_OPEN[11] == 'm'
  {
  }

  lemma {:induction false} CloseHasNo(sub: string)
    requires |sub| > 1 && sub[0] == '<' && sub[1] != '/'
    ensures Index(NAME_CLOSE, sub) == None
  {
    SkipTag("/command-name>", "", sub, 1);
    IndexNothing(sub);
    assert ("<" + "/command-name>") + "" == NAME_CLOSE;
  }

  lemma {:induction false} NoOutputLeft()
    ensures StdoutSpan(GATEWAY, LEFT) == None
  {
    TagTexts();
    TagsDiffer();
    hide Index, FirstBetween, Open, CloseTag;
    CloseHasNo(OUT_OPEN);
    SkipWord("compact", NAME_CLOSE, OUT_OPEN);
    SkipTag("command-name>", "compact" + NAME_CLOSE, OUT_OPEN, 1);
    NoTag(LEFT, STDOUT_TAG);
  }

  lemma {:induction false} LeftTag()
    ensures FirstTag(LEFT, NAME_TAG).Some? && FirstTag(LEFT, NAME_TAG).value.value == "compact"
  {
    TagTexts();
    TagsDiffer();
    assert TrimText("compact") == "compact";
    hide Index, FirstBetween, Open, CloseTag, TrimText;
    IndexHere(NAME_OPEN, "compact" + NAME_CLOSE);
    SkipWord("compact", NAME_CLOSE, NAME_CLOSE);
    IndexHere(NAME_CLOSE, "");
    Ends(NAME_CLOSE);
    Front(LEFT);
    BetweenAt("", NAME_OPEN, "compact", NAME_CLOSE, "");
  }

  lemma {:induction false} Ends(a: string)
    ensures a + "" == a
  {
  }

  lemma {:induction false} Front(a: string)
    ensures "" + a == a
  {
  }

  lemma {:induction false} CommandLeft()
    ensures CommandSpan(GATEWAY, LEFT, 0).Some?
  {
    LeftTag();
    CompactIsLocalOnly();
    hide FirstTag, LastTag, LocalOnlyCommand;
    assert LEFT[0..] == LEFT;
  }

  lemma {:induction false} LeftIsTrimmed()
    ensures TrimText(LEFT) == LEFT && TrimText(" " + LEFT) == LEFT
  {
    assert LEFT[0] == '<' && LEFT[|LEFT| - 1] == NAME_CLOSE[|NAME_CLOSE| - 1] == '>';
    assert (" " + LEFT)[1..] == LEFT;
  }

  // ----- output between the halves of a name tag -----

  const HALF := "<" + "command-na"
  const OTHER_HALF := "me>compact" + NAME_CLOSE
  const AFTER_OUTPUT := OUT_CLOSE + OTHER_HALF
  const OUTPUT := OUT_OPEN + ("Compacted" + AFTER_OUTPUT)
  const TEXT := HALF + OUTPUT

  /** No command tag is there to begin with. */
  lemma {:induction false} NoCommandAtFirst()
    ensures CommandSpan(GATEWAY, TEXT, 0) == None
  {
    TagTexts();
    TagsDiffer();
    assert |HALF| == 11;
    hide Index, FirstBetween, Open, CloseTag;
    CloseHasNo(NAME_OPEN);
    SkipWord("me>compact", NAME_CLOSE, NAME_OPEN);
    SkipTag("/local-command-stdout>", OTHER_HALF, NAME_OPEN, 1);
    SkipWord("Compacted", AFTER_OUTPUT, NAME_OPEN);
    SkipTag("local-command-stdout>", "Compacted" + AFTER_OUTPUT, NAME_OPEN, 1);
    assert TEXT[11] == OUTPUT[0] == '<';
    SkipTag("command-na", OUTPUT, NAME_OPEN, 11);
    assert TEXT[0..] == TEXT;
    NoTag(TEXT, NAME_TAG);
  }

  lemma {:induction false} OutputFound()
    ensures StdoutSpan(GATEWAY, TEXT) == Some(Span("compact", 11, 65))
  {
    TagTexts();
    TagsDiffer();
    assert |HALF| == 11 && HALF[1] == 'c' && |"Compacted"| == 9;
    assert TrimText("Compacted") == "Compacted";
    hide Index, FirstBetween, LocalOnlyStdout, Open, CloseTag, TrimText, StdoutSpan, FirstTag;
    IndexHere(OUT_OPEN, "Compacted" + AFTER_OUTPUT);
    SkipTag("command-na", OUTPUT, OUT_OPEN, 1);
    IndexHere(OUT_CLOSE, OTHER_HALF);
    SkipWord("Compacted", AFTER_OUTPUT, OUT_CLOSE);
    BetweenAt(HALF, OUT_OPEN, "Compacted", OUT_CLOSE, OTHER_HALF);
    CompactedIsMarked("");
    Ends("Compacted");
    FirstMarked(GATEWAY, TEXT, Tag(11, 65, "Compacted"), "compact");
  }

  lemma {:induction false} FirstMarked(table: Table, text: string, tag: Tag, name: string)
    requires FirstBetween(text, Open(STDOUT_TAG), CloseTag(STDOUT_TAG)) == Some(tag)
    requires table.stdout(tag.value) == Some(name)
    ensures StdoutSpan(table, text) == Some(Span(name, tag.start, tag.end))
  {
    hide FirstBetween;
  }

  lemma {:induction false} Halves()
    ensures HALF + OTHER_HALF == LEFT
  {
    assert HALF + "me>compact" == NAME_OPEN + "compact";
    Assoc(HALF, "me>compact", NAME_CLOSE);
    Assoc(NAME_OPEN, "compact", NAME_CLOSE);
  }

  lemma {:induction false} OutputCut()
    ensures |TEXT| >= 65 && Cut(TEXT, Span("compact", 11, 65)) == LEFT
  {
    TagTexts();
    assert |HALF| == 11 && |"Compacted"| == 9;
    hide Cut, Open, CloseTag;
    var output := OUT_OPEN + ("Compacted" + OUT_CLOSE);
    assert |output| == 54;
    Regroup(OUT_OPEN, "Compacted", OUT_CLOSE, OTHER_HALF);
    CutOut(HALF, output, OTHER_HALF, Span("compact", 11, 65));
    Halves();
  }

  lemma {:induction false} Regroup(a: string, b: string, c: string, d: string)
    ensures a + (b + (c + d)) == (a + (b + c)) + d
  {
  }

  /** Cutting out the output joins the halves, after the loop over commands has ended: stripping leaves a
      local-only command, and stripping again would change the text. */
  lemma {:induction false} CommandReappears()
    ensures CommandSpan(GATEWAY, TEXT, 0) == None
    ensures Apply(GATEWAY, TEXT).text == LEFT && CommandSpan(GATEWAY, LEFT, 0).Some?
    ensures Apply(GATEWAY, LEFT).text != LEFT
  {
    NoCommandAtFirst();
    OutputFound();
    OutputCut();
    NoOutputLeft();
    CommandLeft();
    LeftIsTrimmed();
    hide CommandSpan, StdoutSpan, Cut;
    assert StripCommands(GATEWAY, TEXT).text == TEXT;
    assert StripStdout(GATEWAY, LEFT).text == LEFT;
    assert StripStdout(GATEWAY, TEXT).text == LEFT;
    IdempotentIff(GATEWAY, TEXT);
  }

  // ----- output that swallows an opening tag -----

  const REST := OUT_CLOSE + (" " + LEFT)
  const INNER := NAME_OPEN + (" " + REST)
  const SWALLOWED := OUT_OPEN + ("Compacted " + INNER)

  const NO_NAME := OUT_CLOSE + (" " + (NAME_OPEN + "compact"))

  lemma {:induction false} RestSpelled()
    ensures " " + REST == (" " + NO_NAME) + NAME_CLOSE
    ensures NO_NAME[0] == '<' && NO_NAME[|NO_NAME| - 1] == 't' && |NO_NAME| == 45
  {
    Assoc(NAME_OPEN, "compact", NAME_CLOSE);
    Assoc(" ", NAME_OPEN + "compact", NAME_CLOSE);
    Assoc(OUT_CLOSE, " " + (NAME_OPEN + "compact"), NAME_CLOSE);
    Assoc(" ", NO_NAME, NAME_CLOSE);
    assert |"compact"| == 7 && (NAME_OPEN + "compact")[20] == "compact"[6] == 't';
    TagTexts();
  }

  lemma {:induction false} NoNameTrimmed()
    ensures TrimText(" " + NO_NAME) == NO_NAME && LocalOnlyCommand(NO_NAME) == None
  {
    RestSpelled();
    assert (" " + NO_NAME)[1..] == NO_NAME;
    hide LocalOnlyCommand;
    TagIsNoCommand(NO_NAME);
  }

  /** The only name tag begins inside the output and runs to the end; its name is no command. */
  lemma {:induction false} SwallowedTag()
    ensures var m := FirstTag(SWALLOWED, NAME_TAG);
            m.Some? && m.value.end == |SWALLOWED| && LocalOnlyCommand(m.value.value) == None
  {
    TagTexts();
    TagsDiffer();
    RestSpelled();
    NoNameTrimmed();
    hide Index, LocalOnlyCommand, FirstBetween, TrimText, Open, CloseTag;
    var head := OUT_OPEN + "Compacted ";
    IndexHere(NAME_OPEN, " " + REST);
    SkipWord("Compacted ", INNER, NAME_OPEN);
    SkipTag("local-command-stdout>", "Compacted " + INNER, NAME_OPEN, 1);
    Assoc(OUT_OPEN, "Compacted ", INNER);
    SwallowedClose();
    Ends(NAME_CLOSE);
    BetweenAt(head, NAME_OPEN, " " + NO_NAME, NAME_CLOSE, "");
  }

  lemma {:induction false} SwallowedClose()
    ensures Index(" " + REST, NAME_CLOSE) == Some(|" " + NO_NAME|)
  {
    TagTexts();
    TagsDiffer();
    RestSpelled();
    hide Index, Open, CloseTag;
    IndexHere(NAME_CLOSE, "");
    Ends(NAME_CLOSE);
    SkipWord("compact", NAME_CLOSE, NAME_CLOSE);
    SkipTag("command-name>", "compact" + NAME_CLOSE, NAME_CLOSE, 1);
    SkipWord(" ", LEFT, NAME_CLOSE);
    SkipTag("/local-command-stdout>", " " + LEFT, NAME_CLOSE, 2);
    SkipWord(" ", REST, NAME_CLOSE);
  }

  lemma {:induction false} SwallowedNoCommand()
    ensures CommandSpan(GATEWAY, SWALLOWED, 0) == None
  {
    SwallowedTag();
    hide LastTag, LocalOnlyCommand, FirstTag;
    assert SWALLOWED[0..] == SWALLOWED;
    EmptyHasNoTag();
    assert CommandSpan(GATEWAY, SWALLOWED, |SWALLOWED|) == None;
  }

  lemma {:induction false} EmptyHasNoTag()
    ensures FirstTag("", NAME_TAG) == None && SWALLOWED[|SWALLOWED|..] == ""
  {
    IndexNothing(Open(NAME_TAG));
    NoTag("", NAME_TAG);
  }

  const INSIDE := "Compacted " + (NAME_OPEN + " ")
  const MARKED := "Compacted" + (" " + NAME_OPEN)

  lemma {:induction false} InsideSpelled()
    ensures "Compacted " + INNER == INSIDE + REST && INSIDE == MARKED + " " && |INSIDE| == 25
    ensures MARKED[0] == INSIDE[0] == 'C' && MARKED[|MARKED| - 1] == '>'
  {
    TagTexts();
    Assoc(NAME_OPEN, " ", REST);
    Assoc("Compacted ", NAME_OPEN + " ", REST);
    assert "Compacted " == "Compacted" + " ";
    Assoc("Compacted", " ", NAME_OPEN + " ");
    Assoc(" ", NAME_OPEN, " ");
    Assoc("Compacted", " " + NAME_OPEN, " ");
    assert |"Compacted"| == 9 && NAME_OPEN[13] == '>';
  }

  lemma {:induction false} InsideTrimmed()
    ensures TrimText(INSIDE) == MARKED && LocalOnlyStdout(MARKED) == Some("compact")
  {
    InsideSpelled();
    assert INSIDE[..|INSIDE| - 1] == MARKED && INSIDE[|INSIDE| - 1] == ' ';
    hide LocalOnlyStdout;
    assert 'B' !in " " && 'B' !in "<" && 'B' !in "command-name>";
    CompactedIsMarked(" " + NAME_OPEN);
  }

  lemma {:induction false} SwallowedOutput()
    ensures StdoutSpan(GATEWAY, SWALLOWED) == Some(Span("compact", 0, 70))
  {
    TagTexts();
    TagsDiffer();
    InsideSpelled();
    InsideTrimmed();
    hide Index, TrimText, FirstBetween, LocalOnlyStdout, Open, CloseTag;
    IndexHere(OUT_OPEN, "Compacted " + INNER);
    IndexHere(OUT_CLOSE, " " + LEFT);
    SkipWord(" ", REST, OUT_CLOSE);
    SkipTag("command-name>", " " + REST, OUT_CLOSE, 1);
    SkipWord("Compacted ", INNER, OUT_CLOSE);
    Front(SWALLOWED);
    assert |"Compacted "| == 10;
    BetweenAt("", OUT_OPEN, INSIDE, OUT_CLOSE, " " + LEFT);
    assert FirstTag(SWALLOWED, STDOUT_TAG) == Some(Tag(0, 70, MARKED));
    hide FirstTag;
  }

  lemma {:induction false} SwallowedCut()
    ensures |SWALLOWED| >= 70 && Cut(SWALLOWED, Span("compact", 0, 70)) == " " + LEFT
  {
    TagTexts();
    InsideSpelled();
    hide Cut, Open, CloseTag;
    var output := OUT_OPEN + (INSIDE + OUT_CLOSE);
    assert |output| == 70;
    Regroup(OUT_OPEN, INSIDE, OUT_CLOSE, " " + LEFT);
    Front(SWALLOWED);
    CutOut("", output, " " + LEFT, Span("compact", 0, 70));
    Front(" " + LEFT);
  }

  /** A command can also be left without covering a cut: here the output held an opening tag that had run
      on over the command, which the search now finds in what follows the cut. */
  lemma {:induction false} CommandLeftUncovered()
    ensures CommandSpan(GATEWAY, SWALLOWED, 0) == None
    ensures StdoutSpan(GATEWAY, SWALLOWED) == Some(Span("compact", 0, 70)) && |SWALLOWED| >= 70
    ensures !LocalCovers(GATEWAY, Cut(SWALLOWED, Span("compact", 0, 70)), 0)
    ensures LocalAfter(GATEWAY, SWALLOWED, Span("compact", 0, 70))
    ensures Apply(GATEWAY, SWALLOWED).text == LEFT && CommandSpan(GATEWAY, LEFT, 0).Some?
  {
    SwallowedNoCommand();
    SwallowedOutput();
    SwallowedCut();
    CommandLeft();
    LeftIsTrimmed();
    BlankHasNoOutput();
    NothingCoversStart();
    SwallowedAfter();
    hide CommandSpan, StdoutSpan, Cut, LocalCovers, LocalAfter, TrimText;
    assert StripCommands(GATEWAY, SWALLOWED).text == SWALLOWED;
    assert StripStdout(GATEWAY, " " + LEFT).text == " " + LEFT;
    assert StripStdout(GATEWAY, SWALLOWED).text == " " + LEFT;
  }

  lemma {:induction false} NothingCoversStart()
    ensures |SWALLOWED| >= 70 && !LocalCovers(GATEWAY, Cut(SWALLOWED, Span("compact", 0, 70)), 0)
  {
    SwallowedCut();
    hide Cut, NameTags;
  }

  lemma {:induction false} SwallowedAfter()
    ensures |SWALLOWED| >= 70 && LocalAfter(GATEWAY, SWALLOWED, Span("compact", 0, 70))
  {
    SwallowedNoCommand();
    SwallowedCut();
    NothingCoversStart();
    CommandLeft();
    assert " " + LEFT == [' '] + LEFT;
    hide CommandSpan, Cut, LocalCovers, LocalAfter;
    CommandAfterBlank();
    CutLeavesCommandExactly(GATEWAY, SWALLOWED, Span("compact", 0, 70));
  }

  lemma {:induction false} CommandAfterBlank()
    ensures CommandSpan(GATEWAY, " " + LEFT, 0).Some?
  {
    CommandLeft();
    assert " " + LEFT == [' '] + LEFT && (" " + LEFT)[0..] == " " + LEFT && LEFT[0..] == LEFT;
    CommandIsLocalName(GATEWAY, LEFT, 0);
    CommandIsLocalName(GATEWAY, " " + LEFT, 0);
    hide HasValue, CommandSpan, LocalOnlyCommand;
    forall v ensures HasValue(" " + LEFT, v) <==> HasValue(LEFT, v) { ValueAfterBlank(LEFT, ' ', v); }
  }

  lemma {:induction false} BlankHasNoOutput()
    ensures StdoutSpan(GATEWAY, " " + LEFT) == None
  {
    NoOutputLeft();
    assert " " + LEFT == [' '] + LEFT;
    StdoutAfterBlank(GATEWAY, LEFT, ' ');
  }
}

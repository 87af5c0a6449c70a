/** Stripping local-only commands from user text: finding tagged spans, and removing them one by one. */
module Tags {
  import opened Json

  // ----- searching -----

  /** strings.Index */
  function Index(s: string, sub: string): (r: Option<nat>)
    ensures r.Some? ==> r.value + |sub| <= |s|
  {
    if sub <= s then Some(0)
    else if s == "" then None
    else
      var rest := Index(s[1..], sub);
      if rest.None? then None else Some(rest.value + 1)
  }

  /** It is the first position where the text is found, and None exactly when there is none. */
  lemma {:induction false} IndexFinds(s: string, sub: string)
    ensures match Index(s, sub)
      case Some(at) => sub <= s[at..] && forall i | 0 <= i < at :: !(sub <= s[i..])
      case None => forall i | 0 <= i <= |s| :: !(sub <= s[i..])
    decreases |s|
  {
    assert s[0..] == s;
    if !(sub <= s) && s != "" {
      IndexFinds(s[1..], sub);
      assert forall i | 1 <= i <= |s| :: s[i..] == s[1..][i - 1..];
    }
  }

  /** strings.TrimSpace */
  function TrimText(s: string): (r: string)
    ensures |r| <= |s|
    ensures r != "" ==> !IsSpaceChar(r[0]) && !IsSpaceChar(r[|r| - 1])
  {
    if s == "" then s
    else if IsSpaceChar(s[0]) then TrimText(s[1..])
    else if IsSpaceChar(s[|s| - 1]) then TrimText(s[..|s| - 1])
    else s
  }

  datatype Tag = Tag(start: nat, end: nat, value: string)

  function Open(tag: string): string {
    "<" + tag + ">"
  }

  function CloseTag(tag: string): string {
    "</" + tag + ">"
  }

  /** The first opening tag, up to the first closing tag after it; nothing if that one is missing. */
  function FirstTag(text: string, tag: string): Option<Tag> {
    FirstBetween(text, Open(tag), CloseTag(tag))
  }

  function FirstBetween(text: string, open: string, close: string): Option<Tag> {
    match Index(text, open)
    case None => None
    case Some(start) =>
      var from := start + |open|;
      match Closing(text[from..], close)
      case None => None
      case Some(c) => Some(Tag(start, from + c.0, c.1))
  }

  /** Where the closing tag ends, and the trimmed text before it. */
  function Closing(rest: string, close: string): Option<(nat, string)> {
    match Index(rest, close)
    case None => None
    case Some(length) => Some((length + |close|, TrimText(rest[..length])))
  }

  lemma {:induction false} ClosingSpelled(rest: string, close: string)
    requires Closing(rest, close).Some?
    ensures var (end, value) := Closing(rest, close).value;
            && |close| <= end <= |rest|
            && rest[end - |close|..end] == close && value == TrimText(rest[..end - |close|])
            && forall i | 0 <= i < end - |close| :: !(close <= rest[i..])
  {
    hide Index, TrimText;
    IndexFinds(rest, close);
    var at := Index(rest, close).value;
    assert rest[at..][..|close|] == rest[at..at + |close|];
  }

  /** The tag found spells out an opening tag, a value and a closing tag; no opening tag starts before
      it, and no closing tag in its value. */
  lemma {:induction false} FirstBetweenSpelled(text: string, open: string, close: string)
    requires FirstBetween(text, open, close).Some?
    ensures var m := FirstBetween(text, open, close).value;
            && m.start + |open| + |close| <= m.end <= |text|
            && text[m.start..m.start + |open|] == open && text[m.end - |close|..m.end] == close
            && m.value == TrimText(text[m.start + |open|..m.end - |close|])
            && (forall i | 0 <= i < m.start :: !(open <= text[i..]))
            && forall i | m.start + |open| <= i < m.end - |close| :: !(close <= text[i..])
  {
    hide Index, TrimText, Closing;
    var start := Index(text, open).value;
    var from := start + |open|;
    var rest := text[from..];
    IndexFinds(text, open);
    ClosingSpelled(rest, close);
    var end := Closing(rest, close).value.0;
    assert text[start..][..|open|] == text[start..from];
    assert rest[end - |close|..end] == text[from + end - |close|..from + end];
    assert rest[..end - |close|] == text[from..from + end - |close|];
    forall i | from <= i < from + end - |close| ensures !(close <= text[i..]) {
      assert text[i..] == rest[i - from..];
    }
  }

  function Shifted(t: Tag, offset: nat): Tag {
    Tag(t.start + offset, t.end + offset, t.value)
  }

  lemma {:induction false} TagHasLength(text: string, tag: string)
    ensures FirstTag(text, tag).Some? ==> FirstTag(text, tag).value.start < FirstTag(text, tag).value.end <= |text|
    ensures FirstTag(text, tag).Some? ==> FirstTag(text, tag).value.end > 0
  {
    assert |Open(tag)| > 0;
  }

  /** The last of the tags found one after the other. */
  function LastTag(text: string, tag: string): (r: Option<Tag>)
    ensures r.Some? ==> r.value.start < r.value.end <= |text|
    decreases |text|
  {
    TagHasLength(text, tag);
    match FirstTag(text, tag)
    case None => None
    case Some(first) =>
      var later := LastTag(text[first.end..], tag);
      if later.None? then Some(first) else Some(Shifted(later.value, first.end))
  }

  method LastTagMatch(text: string, tag: string) returns (latest: Option<Tag>)
    ensures latest == LastTag(text, tag)
  {
    hide FirstTag, Index, Open, CloseTag;
    var offset := 0;
    latest := None;
    assert text[0..] == text;
    while true
      invariant 0 <= offset <= |text|
      invariant LastTag(text, tag) ==
        (if LastTag(text[offset..], tag).Some? then Some(Shifted(LastTag(text[offset..], tag).value, offset))
          else latest)
      decreases |text| - offset
    {
      TagHasLength(text[offset..], tag);
      var m := FirstTag(text[offset..], tag);
      if m.None? {
        return;
      }
      assert text[offset..][m.value.end..] == text[offset + m.value.end..];
      latest := Some(Shifted(m.value, offset));
      offset := offset + m.value.end;
    }
  }

  // ----- spans -----

  /** Which tag values name a local-only command, and which output marks one; the command's name. */
  datatype Table = Table(command: string -> Option<string>, stdout: string -> Option<string>)

  const MESSAGE_TAG := "command-message"
  const NAME_TAG := "command-name"
  const ARGS_TAG := "command-args"
  const STDOUT_TAG := "local-command-stdout"

  datatype Span = Span(name: string, start: nat, end: nat)

  ghost predicate Inside(span: Option<Span>, text: string) {
    span.Some? ==> span.value.start < span.value.end <= |text|
  }

  /** The first command-name tag at or after `offset` that names a local-only command, widened to the
      last message tag before it and the first args tag after it. */
  function CommandSpan(table: Table, text: string, offset: nat): (r: Option<Span>)
    requires offset <= |text|
    ensures Inside(r, text)
    decreases |text| - offset
  {
    TagHasLength(text[offset..], NAME_TAG);
    match FirstTag(text[offset..], NAME_TAG)
    case None => None
    case Some(m) =>
      var tag := Shifted(m, offset);
      match table.command(tag.value)
      case None => CommandSpan(table, text, tag.end)
      case Some(name) =>
        var message := LastTag(text[..tag.start], MESSAGE_TAG);
        TagHasLength(text[tag.end..], ARGS_TAG);
        var arguments := FirstTag(text[tag.end..], ARGS_TAG);
        Some(Span(name, if message.Some? then message.value.start else tag.start,
                  if arguments.Some? then tag.end + arguments.value.end else tag.end))
  }

  function StdoutSpan(table: Table, text: string): (r: Option<Span>)
    ensures Inside(r, text)
    decreases |text|
  {
    TagHasLength(text, STDOUT_TAG);
    match FirstTag(text, STDOUT_TAG)
    case None => None
    case Some(m) =>
      match table.stdout(m.value)
      case Some(name) => Some(Span(name, m.start, m.end))
      case None => ShiftedSpan(StdoutSpan(table, text[m.end..]), m.end)
  }

  function ShiftedSpan(span: Option<Span>, offset: nat): Option<Span> {
    if span.None? then None else Some(Span(span.value.name, span.value.start + offset, span.value.end + offset))
  }

  method LocalOnlyCommandSpan(table: Table, text: string) returns (span: Option<Span>)
    ensures span == CommandSpan(table, text, 0) && Inside(span, text)
  {
    hide FirstTag, Index, Open, CloseTag, LastTag;
    var offset := 0;
    while true
      invariant 0 <= offset <= |text| && CommandSpan(table, text, 0) == CommandSpan(table, text, offset)
      decreases |text| - offset
    {
      TagHasLength(text[offset..], NAME_TAG);
      var m := FirstTag(text[offset..], NAME_TAG);
      if m.None? {
        return None;
      }
      var tag := Shifted(m.value, offset);
      var name := table.command(tag.value);
      if name.Some? {
        var start, end := tag.start, tag.end;
        var message := LastTagMatch(text[..tag.start], MESSAGE_TAG);
        if message.Some? {
          start := message.value.start;
        }
        var arguments := FirstTag(text[tag.end..], ARGS_TAG);
        if arguments.Some? {
          end := tag.end + arguments.value.end;
        }
        return Some(Span(name.value, start, end));
      }
      offset := tag.end;
    }
  }

  method LocalOnlyStdoutSpan(table: Table, text: string) returns (span: Option<Span>)
    ensures span == StdoutSpan(table, text) && Inside(span, text)
  {
    hide FirstTag, Index, Open, CloseTag;
    var offset := 0;
    assert text[0..] == text;
    while true
      invariant 0 <= offset <= |text|
        && StdoutSpan(table, text) == ShiftedSpan(StdoutSpan(table, text[offset..]), offset)
      decreases |text| - offset
    {
      TagHasLength(text[offset..], STDOUT_TAG);
      var m := FirstTag(text[offset..], STDOUT_TAG);
      if m.None? {
        return None;
      }
      var name := table.stdout(m.value.value);
      if name.Some? {
        return Some(Span(name.value, m.value.start + offset, m.value.end + offset));
      }
      assert text[offset..][m.value.end..] == text[offset + m.value.end..];
      offset := offset + m.value.end;
    }
  }

  // ----- stripping -----

  datatype Stripped = Stripped(text: string, names: seq<string>)

  function Cut(text: string, span: Span): (r: string)
    requires span.start < span.end <= |text|
    ensures |r| < |text|
  {
    text[..span.start] + text[span.end..]
  }

  function StripCommands(table: Table, text: string): (r: Stripped)
    ensures CommandSpan(table, r.text, 0) == None
    ensures |r.text| <= |text| && (|r.text| == |text| <==> CommandSpan(table, text, 0) == None)
    decreases |text|
  {
    match CommandSpan(table, text, 0)
    case None => Stripped(text, [])
    case Some(span) =>
      var rest := StripCommands(table, Cut(text, span));
      Stripped(rest.text, [span.name] + rest.names)
  }

  function StripStdout(table: Table, text: string): (r: Stripped)
    ensures StdoutSpan(table, r.text) == None
    ensures |r.text| <= |text|
    decreases |text|
  {
    match StdoutSpan(table, text)
    case None => Stripped(text, [])
    case Some(span) =>
      var rest := StripStdout(table, Cut(text, span));
      Stripped(rest.text, [span.name] + rest.names)
  }

  function Apply(table: Table, text: string): Stripped {
    var first := StripCommands(table, text);
    var second := StripStdout(table, first.text);
    Stripped(TrimText(second.text), first.names + second.names)
  }

  /** The reported commands: each once, in the order first found. */
  function Marked(commands: seq<string>, names: seq<string>): (r: seq<string>)
    ensures forall c :: c in r <==> c in commands || exists n :: n in names && c == "/" + n
    ensures (forall i, j | 0 <= i < j < |commands| :: commands[i] != commands[j])
      ==> forall i, j | 0 <= i < j < |r| :: r[i] != r[j]
    decreases |names|
  {
    if names == [] then commands
    else
      var c := "/" + names[0];
      var r := Marked(if c in commands then commands else commands + [c], names[1..]);
      assert forall n :: n in names <==> n == names[0] || n in names[1..];
      r
  }

  class Inclusion {
    const table: Table
    var localOnlyCommands: seq<string>

    constructor (table: Table)
      ensures this.table == table && localOnlyCommands == []
    {
      this.table, localOnlyCommands := table, [];
    }

    method MarkLocalOnlyCommand(name: string)
      modifies this
      ensures localOnlyCommands == Marked(old(localOnlyCommands), [name])
    {
      var c := "/" + name;
      for i := 0 to |localOnlyCommands|
        invariant forall j | 0 <= j < i :: localOnlyCommands[j] != c
      {
        if localOnlyCommands[i] == c {
          return;
        }
      }
      localOnlyCommands := localOnlyCommands + [c];
    }

    method ApplyTextInclusionPolicy(text: string) returns (included: string, names: seq<string>)
      modifies this
      ensures Stripped(included, names) == Apply(table, text)
      ensures localOnlyCommands == Marked(old(localOnlyCommands), names)
    {
      hide Marked, CommandSpan, StdoutSpan;
      included, names := text, [];
      MarkedNone(localOnlyCommands);
      while true
        invariant localOnlyCommands == Marked(old(localOnlyCommands), names)
        invariant StripCommands(table, text)
          == Stripped(StripCommands(table, included).text, names + StripCommands(table, included).names)
        decreases |included|
      {
        var span := LocalOnlyCommandSpan(table, included);
        if span.None? {
          break;
        }
        MarkedSnoc(old(localOnlyCommands), names, span.value.name);
        MarkLocalOnlyCommand(span.value.name);
        names := names + [span.value.name];
        included := Cut(included, span.value);
      }
      ghost var first := StripCommands(table, text);
      assert first == Stripped(included, names);
      while true
        invariant localOnlyCommands == Marked(old(localOnlyCommands), names)
        invariant first.names + StripStdout(table, first.text).names == names + StripStdout(table, included).names
        invariant StripStdout(table, first.text).text == StripStdout(table, included).text
        decreases |included|
      {
        var span := LocalOnlyStdoutSpan(table, included);
        if span.None? {
          break;
        }
        MarkedSnoc(old(localOnlyCommands), names, span.value.name);
        MarkLocalOnlyCommand(span.value.name);
        names := names + [span.value.name];
        included := Cut(included, span.value);
      }
      included := TrimText(included);
    }
  }

  lemma {:induction false} MarkedNone(commands: seq<string>)
    ensures Marked(commands, []) == commands
  {
  }

  lemma {:induction false} MarkedSnoc(commands: seq<string>, names: seq<string>, name: string)
    ensures Marked(commands, names + [name]) == Marked(Marked(commands, names), [name])
    decreases |names|
  {
    if names != [] {
      var c := "/" + names[0];
      MarkedSnoc(if c in commands then commands else commands + [c], names[1..], name);
      assert (names + [name])[1..] == names[1..] + [name];
    } else {
      assert names + [name] == [name];
    }
  }

  // ----- what is left is part of what was there -----

  /** `a` is `b` with some characters left out. */
  predicate Subsequence(a: string, b: string)
    decreases |b|
  {
    a == "" || (b != "" && ((a[0] == b[0] && Subsequence(a[1..], b[1..])) || Subsequence(a, b[1..])))
  }

  lemma {:induction false} SubsequenceSelf(a: string)
    ensures Subsequence(a, a)
    decreases |a|
  {
    if a != "" { SubsequenceSelf(a[1..]); }
  }

  lemma {:induction false} DropFront(a: string, b: string)
    requires a != "" && Subsequence(a, b)
    ensures b != "" && Subsequence(a[1..], b) && Subsequence(a[1..], b[1..])
    decreases |b|
  {
    if !(a[0] == b[0] && Subsequence(a[1..], b[1..])) { DropFront(a, b[1..]); }
  }

  lemma {:induction false} SubsequenceTransitive(a: string, b: string, c: string)
    requires Subsequence(a, b) && Subsequence(b, c)
    ensures Subsequence(a, c)
    decreases |c|, |b|
  {
    if a != "" {
      if a[0] == b[0] && Subsequence(a[1..], b[1..]) {
        if b[0] == c[0] && Subsequence(b[1..], c[1..]) {
          SubsequenceTransitive(a[1..], b[1..], c[1..]);
        } else {
          SubsequenceTransitive(a, b, c[1..]);
        }
      } else {
        DropFront(b, c);
        SubsequenceTransitive(a, b[1..], c);
      }
    }
  }

  lemma {:induction false} CutSubsequence(text: string, i: nat, j: nat)
    requires i <= j <= |text|
    ensures Subsequence(text[..i] + text[j..], text)
    decreases |text|
  {
    if i > 0 {
      CutSubsequence(text[1..], i - 1, j - 1);
      var a := text[..i] + text[j..];
      assert a[1..] == text[1..][..i - 1] + text[1..][j - 1..] && a[0] == text[0];
    } else if j > 0 {
      CutSubsequence(text[1..], 0, j - 1);
      assert text[..0] + text[j..] == text[1..][..0] + text[1..][j - 1..];
    } else {
      SubsequenceSelf(text);
      assert text[..0] + text[0..] == text;
    }
  }

  lemma {:induction false} TrimSubsequence(s: string)
    ensures Subsequence(TrimText(s), s)
    decreases |s|
  {
    hide IsSpaceChar;
    if s != "" && IsSpaceChar(s[0]) {
      TrimSubsequence(s[1..]);
    } else if s != "" && IsSpaceChar(s[|s| - 1]) {
      TrimSubsequence(s[..|s| - 1]);
      CutSubsequence(s, |s| - 1, |s|);
      assert s[..|s| - 1] + s[|s|..] == s[..|s| - 1];
      SubsequenceTransitive(TrimText(s), s[..|s| - 1], s);
    } else {
      SubsequenceSelf(s);
    }
  }

  lemma {:induction false} CommandsSubsequence(table: Table, text: string)
    ensures Subsequence(StripCommands(table, text).text, text)
    decreases |text|
  {
    hide CommandSpan;
    var span := CommandSpan(table, text, 0);
    if span.Some? {
      CommandsSubsequence(table, Cut(text, span.value));
      CutSubsequence(text, span.value.start, span.value.end);
      SubsequenceTransitive(StripCommands(table, text).text, Cut(text, span.value), text);
    } else {
      SubsequenceSelf(text);
    }
  }

  lemma {:induction false} StdoutSubsequence(table: Table, text: string)
    ensures Subsequence(StripStdout(table, text).text, text)
    decreases |text|
  {
    hide StdoutSpan;
    var span := StdoutSpan(table, text);
    if span.Some? {
      StdoutSubsequence(table, Cut(text, span.value));
      CutSubsequence(text, span.value.start, span.value.end);
      SubsequenceTransitive(StripStdout(table, text).text, Cut(text, span.value), text);
    } else {
      SubsequenceSelf(text);
    }
  }

  /** Stripping only leaves characters out. */
  lemma {:induction false} ApplySubsequence(table: Table, text: string)
    ensures Subsequence(Apply(table, text).text, text)
  {
    hide StripCommands, StripStdout, Subsequence;
    var first := StripCommands(table, text).text;
    var second := StripStdout(table, first).text;
    CommandsSubsequence(table, text);
    StdoutSubsequence(table, first);
    TrimSubsequence(second);
    SubsequenceTransitive(second, first, text);
    SubsequenceTransitive(TrimText(second), second, text);
  }

  // ----- blanks around a text do not matter -----

  lemma {:induction false} IndexAfterBlank(s: string, c: char, sub: string)
    requires sub != "" && sub[0] != c
    ensures Index([c] + s, sub) == if Index(s, sub).None? then None else Some(Index(s, sub).value + 1)
  {
    assert ([c] + s)[1..] == s;
    assert ([c] + s)[0] == c;
  }

  lemma {:induction false} IndexBeforeBlank(s: string, c: char, sub: string)
    requires sub != "" && sub[|sub| - 1] != c
    ensures Index(s + [c], sub) == Index(s, sub)
    decreases |s|
  {
    if s == "" {
      assert s + [c] == [c] && [c][1..] == "";
      assert |sub| == 1 ==> sub[0] != [c][0];
    } else {
      IndexBeforeBlank(s[1..], c, sub);
      assert (s + [c])[1..] == s[1..] + [c];
      assert sub <= s + [c] ==> sub[|sub| - 1] == (s + [c])[|sub| - 1];
    }
  }

  lemma {:induction false} TagEnds(tag: string)
    ensures Open(tag)[0] == '<' && Open(tag)[|Open(tag)| - 1] == '>'
    ensures |CloseTag(tag)| > 2 && CloseTag(tag)[0] == '<' && CloseTag(tag)[|CloseTag(tag)| - 1] == '>'
  {
  }

  lemma {:induction false} BetweenAfterBlank(s: string, c: char, open: string, close: string)
    requires open != "" && open[0] != c
    ensures FirstBetween([c] + s, open, close)
      == if FirstBetween(s, open, close).None? then None else Some(Shifted(FirstBetween(s, open, close).value, 1))
  {
    hide Index, Closing;
    IndexAfterBlank(s, c, open);
    var at := Index(s, open);
    if at.Some? { assert ([c] + s)[at.value + |open| + 1..] == s[at.value + |open|..]; }
  }

  lemma {:induction false} ClosingBeforeBlank(s: string, c: char, close: string)
    requires close != "" && close[|close| - 1] != c
    ensures Closing(s + [c], close) == Closing(s, close)
  {
    hide Index, TrimText;
    IndexBeforeBlank(s, c, close);
    var at := Index(s, close);
    if at.Some? { assert (s + [c])[..at.value] == s[..at.value]; }
  }

  lemma {:induction false} BetweenBeforeBlank(s: string, c: char, open: string, close: string)
    requires open != "" && open[|open| - 1] != c && close != "" && close[|close| - 1] != c
    ensures FirstBetween(s + [c], open, close) == FirstBetween(s, open, close)
  {
    hide Index, Closing;
    IndexBeforeBlank(s, c, open);
    var at := Index(s, open);
    if at.Some? {
      var from := at.value + |open|;
      assert (s + [c])[from..] == s[from..] + [c];
      ClosingBeforeBlank(s[from..], c, close);
    }
  }

  lemma {:induction false} TagAfterBlank(s: string, c: char, tag: string)
    requires IsSpaceChar(c)
    ensures FirstTag([c] + s, tag) == if FirstTag(s, tag).None? then None else Some(Shifted(FirstTag(s, tag).value, 1))
  {
    TagEnds(tag);
    assert c != '<';
    hide IsSpaceChar, Open, CloseTag, FirstBetween;
    BetweenAfterBlank(s, c, Open(tag), CloseTag(tag));
  }

  lemma {:induction false} TagBeforeBlank(s: string, c: char, tag: string)
    requires IsSpaceChar(c)
    ensures FirstTag(s + [c], tag) == FirstTag(s, tag)
  {
    TagEnds(tag);
    assert c != '>';
    hide IsSpaceChar, Open, CloseTag, FirstBetween;
    BetweenBeforeBlank(s, c, Open(tag), CloseTag(tag));
  }

  lemma {:induction false} StdoutAfterBlank(table: Table, s: string, c: char)
    requires IsSpaceChar(c)
    ensures StdoutSpan(table, [c] + s).None? <==> StdoutSpan(table, s).None?
  {
    hide FirstTag, IsSpaceChar;
    TagAfterBlank(s, c, STDOUT_TAG);
    TagHasLength(s, STDOUT_TAG);
    var m := FirstTag(s, STDOUT_TAG);
    if m.Some? { assert ([c] + s)[m.value.end + 1..] == s[m.value.end..]; }
  }

  lemma {:induction false} StdoutBeforeBlank(table: Table, s: string, c: char)
    requires IsSpaceChar(c)
    ensures StdoutSpan(table, s + [c]).None? <==> StdoutSpan(table, s).None?
    decreases |s|
  {
    hide FirstTag, IsSpaceChar;
    TagBeforeBlank(s, c, STDOUT_TAG);
    TagHasLength(s, STDOUT_TAG);
    var m := FirstTag(s, STDOUT_TAG);
    if m.Some? {
      assert (s + [c])[m.value.end..] == s[m.value.end..] + [c];
      StdoutBeforeBlank(table, s[m.value.end..], c);
    }
  }

  lemma {:induction false} StdoutTrimmed(table: Table, s: string)
    ensures StdoutSpan(table, TrimText(s)).None? <==> StdoutSpan(table, s).None?
    decreases |s|
  {
    hide StdoutSpan, IsSpaceChar;
    if s != "" && IsSpaceChar(s[0]) {
      assert [s[0]] + s[1..] == s;
      StdoutAfterBlank(table, s[1..], s[0]);
      StdoutTrimmed(table, s[1..]);
    } else if s != "" && IsSpaceChar(s[|s| - 1]) {
      assert s[..|s| - 1] + [s[|s| - 1]] == s;
      StdoutBeforeBlank(table, s[..|s| - 1], s[|s| - 1]);
      StdoutTrimmed(table, s[..|s| - 1]);
    }
  }

  lemma {:induction false} TrimTwice(s: string)
    ensures TrimText(TrimText(s)) == TrimText(s)
  {
    hide IsSpaceChar;
    var r := TrimText(s);
    assert r == "" || (!IsSpaceChar(r[0]) && !IsSpaceChar(r[|r| - 1]));
  }

  /** Stripping again changes nothing exactly when no local-only command is left. One can be: cutting
      out command output joins the text around it, and the first loop has ended by then. */
  lemma {:induction false} IdempotentIff(table: Table, text: string)
    ensures var once := Apply(table, text).text;
            Apply(table, once).text == once <==> CommandSpan(table, once, 0) == None
  {
    hide CommandSpan, StdoutSpan, TrimText;
    var once := Apply(table, text).text;
    var before := StripStdout(table, StripCommands(table, text).text).text;
    StdoutTrimmed(table, before);
    TrimTwice(before);
    var again := StripCommands(table, once);
    if CommandSpan(table, once, 0) != None {
      assert |again.text| < |once|;
      assert |StripStdout(table, again.text).text| < |once|;
      assert |Apply(table, once).text| < |once|;
    } else {
      assert StripStdout(table, once).text == once;
    }
  }
}

/** Where a local-only command can come from when output is cut out of a text that has none. */
module TagScan {
  import opened Json
  import opened Tags

  // ----- all name tags of a text -----

  /** The name tags found one after the other, as the search for commands finds them. */
  function NameTags(text: string): seq<Tag>
    decreases |text|
  {
    TagHasLength(text, NAME_TAG);
    match FirstTag(text, NAME_TAG)
    case None => []
    case Some(m) => [m] + ShiftedAll(NameTags(text[m.end..]), m.end)
  }

  function ShiftedAll(tags: seq<Tag>, offset: nat): seq<Tag> {
    seq(|tags|, i requires 0 <= i < |tags| => Shifted(tags[i], offset))
  }

  predicate HasValue(text: string, v: string) {
    exists t | t in NameTags(text) :: t.value == v
  }

  predicate HasLocalName(table: Table, text: string) {
    exists t | t in NameTags(text) :: table.command(t.value).Some?
  }

  lemma {:induction false} FirstValue(text: string, v: string)
    ensures var m := FirstTag(text, NAME_TAG);
            && (m.None? ==> !HasValue(text, v))
            && (m.Some? ==>
                 && m.value.end <= |text|
                 && (HasValue(text, v) <==> m.value.value == v || HasValue(text[m.value.end..], v)))
  {
    hide FirstTag;
    TagHasLength(text, NAME_TAG);
    var m := FirstTag(text, NAME_TAG);
    if m.Some? {
      var rest := NameTags(text[m.value.end..]);
      var all := NameTags(text);
      if HasValue(text[m.value.end..], v) {
        var t :| t in rest && t.value == v;
        var i :| 0 <= i < |rest| && rest[i] == t;
        assert all[i + 1] == Shifted(t, m.value.end) && all[i + 1] in all;
      }
      if HasValue(text, v) {
        var t :| t in all && t.value == v;
        var i :| 0 <= i < |all| && all[i] == t;
        if i > 0 { assert all[i] == Shifted(rest[i - 1], m.value.end) && rest[i - 1] in rest; }
      }
      assert all[0] == m.value && all[0] in all;
    }
  }

  /** A text has a local-only command exactly when one of its name tags has a local-only name. */
  lemma {:induction false} CommandIsLocalName(table: Table, text: string, offset: nat)
    requires offset <= |text|
    ensures CommandSpan(table, text, offset).Some? <==> exists v ::
      HasValue(text[offset..], v) && table.command(v).Some?
    decreases |text| - offset
  {
    hide FirstTag, LastTag, HasValue;
    TagHasLength(text[offset..], NAME_TAG);
    var m := FirstTag(text[offset..], NAME_TAG);
    forall v ensures m.None? ==> !HasValue(text[offset..], v) { FirstValue(text[offset..], v); }
    if m.Some? {
      var end := offset + m.value.end;
      assert text[offset..][m.value.end..] == text[end..];
      forall v ensures HasValue(text[offset..], v) <==> m.value.value == v || HasValue(text[end..], v) {
        FirstValue(text[offset..], v);
      }
      if table.command(m.value.value).None? { CommandIsLocalName(table, text, end); }
    }
  }

  // ----- blanks around a text do not matter -----

  lemma {:induction false} ValueAfterBlank(s: string, c: char, v: string)
    requires IsSpaceChar(c)
    ensures HasValue([c] + s, v) <==> HasValue(s, v)
  {
    hide FirstTag, IsSpaceChar, HasValue;
    TagAfterBlank(s, c, NAME_TAG);
    TagHasLength(s, NAME_TAG);
    FirstValue(s, v);
    FirstValue([c] + s, v);
    var m := FirstTag(s, NAME_TAG);
    if m.Some? { assert ([c] + s)[m.value.end + 1..] == s[m.value.end..]; }
  }

  lemma {:induction false} ValueBeforeBlank(s: string, c: char, v: string)
    requires IsSpaceChar(c)
    ensures HasValue(s + [c], v) <==> HasValue(s, v)
    decreases |s|
  {
    hide FirstTag, IsSpaceChar, HasValue;
    TagBeforeBlank(s, c, NAME_TAG);
    TagHasLength(s, NAME_TAG);
    FirstValue(s, v);
    FirstValue(s + [c], v);
    var m := FirstTag(s, NAME_TAG);
    if m.Some? {
      assert (s + [c])[m.value.end..] == s[m.value.end..] + [c];
      ValueBeforeBlank(s[m.value.end..], c, v);
    }
  }

  lemma {:induction false} ValueTrimmed(s: string, v: string)
    ensures HasValue(TrimText(s), v) <==> HasValue(s, v)
    decreases |s|
  {
    hide HasValue, IsSpaceChar;
    if s != "" && IsSpaceChar(s[0]) {
      assert [s[0]] + s[1..] == s;
      ValueAfterBlank(s[1..], s[0], v);
      ValueTrimmed(s[1..], v);
    } else if s != "" && IsSpaceChar(s[|s| - 1]) {
      assert s[..|s| - 1] + [s[|s| - 1]] == s;
      ValueBeforeBlank(s[..|s| - 1], s[|s| - 1], v);
      ValueTrimmed(s[..|s| - 1], v);
    }
  }

  // ----- exactly when a command is left -----

  /** The text between the two loops, and after them. */
  function WithoutCommands(table: Table, text: string): string {
    StripCommands(table, text).text
  }

  function Joined(table: Table, text: string): string {
    StripStdout(table, WithoutCommands(table, text)).text
  }

  /** A command is left, and stripping again changes the text, when the joined text has one: the trimming at
      the end takes none away. */
  lemma {:induction false} CommandAfterJoining(table: Table, text: string)
    ensures var once, joined := Apply(table, text).text, Joined(table, text);
            && (CommandSpan(table, once, 0).Some? <==> CommandSpan(table, joined, 0).Some?)
            && (Apply(table, once).text == once <==> CommandSpan(table, joined, 0) == None)
  {
    var joined, once := Joined(table, text), Apply(table, text).text;
    IdempotentIff(table, text);
    CommandIsLocalName(table, joined, 0);
    CommandIsLocalName(table, once, 0);
    assert joined[0..] == joined && once[0..] == once;
    forall v ensures HasValue(once, v) <==> HasValue(joined, v) { ValueTrimmed(joined, v); }
    hide HasValue, StripStdout, StripCommands, CommandSpan, Apply;
  }

  /** Where the first loop leaves no marked output, stripping is idempotent and leaves no command. */
  lemma {:induction false} NoOutputNoCommand(table: Table, text: string)
    requires StdoutSpan(table, WithoutCommands(table, text)) == None
    ensures var once := Apply(table, text).text;
            CommandSpan(table, once, 0) == None && Apply(table, once).text == once
  {
    CommandAfterJoining(table, text);
    hide StdoutSpan, CommandSpan, Apply;
    assert Joined(table, text) == WithoutCommands(table, text);
  }
}

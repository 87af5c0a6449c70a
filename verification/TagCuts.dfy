/** One cut: where a name tag of the joined text can come from. */
module TagCuts {
  import opened Json
  import opened Tags
  import opened TagScan

  // ----- occurrences -----

  predicate At(s: string, sub: string, i: nat) {
    i + |sub| <= |s| && s[i..i + |sub|] == sub
  }

  lemma {:induction false} AtPrefix(s: string, sub: string, i: nat)
    requires i <= |s|
    ensures At(s, sub, i) <==> sub <= s[i..]
  {
    if sub <= s[i..] { assert s[i..][..|sub|] == s[i..i + |sub|]; }
    if At(s, sub, i) { assert s[i..][..|sub|] == s[i..i + |sub|]; }
  }

  lemma {:induction false} AtChar(s: string, sub: string, i: nat, k: nat)
    requires At(s, sub, i) && k < |sub|
    ensures s[i + k] == sub[k]
  {
    assert s[i..i + |sub|][k] == s[i + k];
  }

  lemma {:induction false} AtLeft(p: string, q: string, sub: string, i: nat)
    requires i + |sub| <= |p|
    ensures At(p + q, sub, i) <==> At(p, sub, i)
  {
    assert (p + q)[i..i + |sub|] == p[i..i + |sub|];
  }

  lemma {:induction false} AtRight(p: string, q: string, sub: string, i: nat)
    ensures At(p + q, sub, |p| + i) <==> At(q, sub, i)
  {
    if |p| + i + |sub| <= |p + q| { assert (p + q)[|p| + i..|p| + i + |sub|] == q[i..i + |sub|]; }
  }

  lemma {:induction false} IndexIs(s: string, sub: string, i: nat)
    requires At(s, sub, i) && forall j: nat | j < i :: !At(s, sub, j)
    ensures Index(s, sub) == Some(i)
  {
    IndexFinds(s, sub);
    AtPrefix(s, sub, i);
    if Index(s, sub).Some? { AtPrefix(s, sub, Index(s, sub).value); }
  }

  lemma {:induction false} IndexMeans(s: string, sub: string)
    ensures match Index(s, sub)
      case Some(i) => At(s, sub, i) && forall j: nat | j < i :: !At(s, sub, j)
      case None => forall j: nat :: !At(s, sub, j)
  {
    IndexFinds(s, sub);
    forall j: nat | j <= |s| ensures At(s, sub, j) <==> sub <= s[j..] { AtPrefix(s, sub, j); }
    if Index(s, sub).Some? { AtPrefix(s, sub, Index(s, sub).value); }
  }

  // ----- the first tag -----

  /** The first opening tag is at `start`, and the first closing tag after it ends at `end`. */
  predicate Spelled(text: string, open: string, close: string, start: nat, end: nat) {
    && start + |open| + |close| <= end
    && At(text, open, start) && (forall j: nat | j < start :: !At(text, open, j))
    && At(text, close, end - |close|) && forall j: nat | start + |open| <= j < end - |close| :: !At(text, close, j)
  }

  lemma {:induction false} SpelledIsFirst(text: string, open: string, close: string, start: nat, end: nat)
    requires Spelled(text, open, close, start, end)
    ensures FirstBetween(text, open, close) == Some(Tag(start, end, TrimText(text[start + |open|..end - |close|])))
  {
    hide Index, TrimText;
    IndexIs(text, open, start);
    var from := start + |open|;
    assert text == text[..from] + text[from..];
    forall j: nat ensures At(text[from..], close, j) <==> At(text, close, from + j) {
      AtRight(text[..from], text[from..], close, j);
    }
    IndexIs(text[from..], close, end - |close| - from);
    assert text[from..][..end - |close| - from] == text[from..end - |close|];
  }

  lemma {:induction false} FirstIsSpelled(text: string, open: string, close: string)
    requires FirstBetween(text, open, close).Some?
    ensures var m := FirstBetween(text, open, close).value;
            Spelled(text, open, close, m.start, m.end) && m.value == TrimText(text[m.start + |open|..m.end - |close|])
  {
    hide Index, TrimText;
    IndexMeans(text, open);
    var from := Index(text, open).value + |open|;
    IndexMeans(text[from..], close);
    assert text == text[..from] + text[from..];
    forall j: nat ensures At(text[from..], close, j) <==> At(text, close, from + j) {
      AtRight(text[..from], text[from..], close, j);
    }
    var length := Index(text[from..], close).value;
    assert text[from..][..length] == text[from..from + length];
    forall j: nat | from <= j < from + length ensures !At(text, close, j) {
      assert !At(text[from..], close, j - from);
    }
  }

  /** An opening tag with a closing tag somewhere after it. */
  lemma {:induction false} TagExists(text: string, open: string, close: string, i: nat, j: nat)
    requires At(text, open, i) && At(text, close, j) && i + |open| <= j
    ensures FirstBetween(text, open, close).Some?
  {
    hide Index, TrimText;
    IndexMeans(text, open);
    var from := Index(text, open).value + |open|;
    IndexMeans(text[from..], close);
    assert text == text[..from] + text[from..];
    AtRight(text[..from], text[from..], close, j - from);
  }

  /** What follows a tag does not matter. */
  lemma {:induction false} SpelledLeft(p: string, x: string, y: string, open: string, close: string, start: nat,
                                       end: nat)
    requires Spelled(p + x, open, close, start, end) && end <= |p|
    ensures Spelled(p + y, open, close, start, end)
    ensures (p + x)[start + |open|..end - |close|] == (p + y)[start + |open|..end - |close|]
  {
    forall i: nat | i + |open| <= |p| ensures At(p + x, open, i) <==> At(p + y, open, i) {
      AtLeft(p, x, open, i);
      AtLeft(p, y, open, i);
    }
    forall i: nat | i + |close| <= |p| ensures At(p + x, close, i) <==> At(p + y, close, i) {
      AtLeft(p, x, close, i);
      AtLeft(p, y, close, i);
    }
  }

  /** Nor does what precedes it. */
  lemma {:induction false} SpelledRight(p: string, q: string, open: string, close: string, start: nat, end: nat)
    requires Spelled(p + q, open, close, start, end) && |p| <= start
    ensures Spelled(q, open, close, start - |p|, end - |p|)
    ensures (p + q)[start + |open|..end - |close|] == q[start - |p| + |open|..end - |p| - |close|]
  {
    forall i: nat ensures At(p + q, open, |p| + i) <==> At(q, open, i) { AtRight(p, q, open, i); }
    forall i: nat ensures At(p + q, close, |p| + i) <==> At(q, close, i) { AtRight(p, q, close, i); }
    forall j: nat | j < start - |p| ensures !At(q, open, j) { assert !At(p + q, open, |p| + j); }
    forall j: nat | start - |p| + |open| <= j < end - |p| - |close| ensures !At(q, close, j) {
      assert !At(p + q, close, |p| + j);
    }
  }

  /** Tags begin with the only `<` they have, and opening and closing tags differ right after it. */
  predicate Brackets(open: string, close: string) {
    && |open| > 1 && |close| > 1 && open[0] == close[0] == '<' && open[1] != close[1]
    && (forall i | 1 <= i < |open| :: open[i] != '<') && (forall i | 1 <= i < |close| :: close[i] != '<')
  }

  lemma {:induction false} NameBrackets()
    ensures Brackets(Open(NAME_TAG), CloseTag(NAME_TAG))
  {
  }

  /** Two tags do not overlap unless they are at the same place. */
  lemma {:induction false} NoOverlapping(s: string, a: string, b: string, i: nat, j: nat)
    requires At(s, a, i) && At(s, b, j) && i < j && |a| > 0 && |b| > 0 && b[0] == '<'
    requires forall k | 1 <= k < |a| :: a[k] != '<'
    ensures i + |a| <= j
  {
    AtChar(s, b, j, 0);
    if j < i + |a| { AtChar(s, a, i, j - i); }
  }

  // ----- the first tag of the joined text and of the text -----

  function FirstName(text: string): Option<Tag> {
    FirstTag(text, NAME_TAG)
  }

  lemma {:induction false} NameIsSpelled(text: string)
    requires FirstName(text).Some?
    ensures var m, open, close := FirstName(text).value, Open(NAME_TAG), CloseTag(NAME_TAG);
            Spelled(text, open, close, m.start, m.end) && m.value == TrimText(text[m.start + |open|..m.end - |close|])
            && m.end <= |text|
  {
    hide TrimText, FirstBetween, Open, CloseTag;
    FirstIsSpelled(text, Open(NAME_TAG), CloseTag(NAME_TAG));
  }

  lemma {:induction false} SpelledIsName(text: string, start: nat, end: nat)
    requires Spelled(text, Open(NAME_TAG), CloseTag(NAME_TAG), start, end)
    ensures FirstName(text) == Some(Tag(start, end,
      TrimText(text[start + |Open(NAME_TAG)|..end - |CloseTag(NAME_TAG)|])))
  {
    hide TrimText, FirstBetween, Open, CloseTag;
    SpelledIsFirst(text, Open(NAME_TAG), CloseTag(NAME_TAG), start, end);
  }

  lemma {:induction false} NameLeft(p: string, x: string, y: string)
    requires FirstName(p + x).Some? && FirstName(p + x).value.end <= |p|
    ensures FirstName(p + y) == FirstName(p + x)
  {
    hide TrimText, FirstTag, Open, CloseTag, Spelled;
    var m := FirstName(p + x).value;
    NameIsSpelled(p + x);
    SpelledLeft(p, x, y, Open(NAME_TAG), CloseTag(NAME_TAG), m.start, m.end);
    SpelledIsName(p + y, m.start, m.end);
  }

  lemma {:induction false} NameRight(p: string, q: string)
    requires FirstName(p + q).Some? && |p| <= FirstName(p + q).value.start
    ensures FirstName(q).Some? && FirstName(p + q).value == Shifted(FirstName(q).value, |p|)
  {
    hide TrimText, FirstTag, Open, CloseTag, Spelled;
    var m := FirstName(p + q).value;
    NameIsSpelled(p + q);
    NameLength(p + q);
    SpelledRight(p, q, Open(NAME_TAG), CloseTag(NAME_TAG), m.start, m.end);
    SpelledIsName(q, m.start - |p|, m.end - |p|);
  }

  lemma {:induction false} NameLength(text: string)
    ensures FirstName(text).Some? ==> FirstName(text).value.start < FirstName(text).value.end <= |text|
  {
    TagHasLength(text, NAME_TAG);
  }

  lemma {:induction false} NameExists(text: string, p: string, q: string)
    requires text == p + q && FirstName(q).Some?
    ensures FirstName(text).Some?
  {
    hide TrimText, FirstBetween, Open, CloseTag;
    var m, open, close := FirstName(q).value, Open(NAME_TAG), CloseTag(NAME_TAG);
    NameIsSpelled(q);
    AtRight(p, q, open, m.start);
    AtRight(p, q, close, m.end - |close|);
    TagExists(text, open, close, |p| + m.start, |p| + (m.end - |close|));
  }

  // ----- one cut -----

  /** No name tag of the text touches the part between `a` and `b`. */
  predicate Untouched(text: string, a: nat, b: nat) {
    forall t | t in NameTags(text) :: t.end <= a || b <= t.start
  }

  /** A name tag with this value covers the position. */
  predicate Covers(text: string, at: nat, v: string) {
    exists t | t in NameTags(text) :: t.value == v && t.start < at < t.end
  }

  lemma {:induction false} UntouchedStep(text: string, a: nat, b: nat)
    requires Untouched(text, a, b) && FirstName(text).Some?
    ensures var m := FirstName(text).value;
            && m.end <= |text| && (m.end <= a || b <= m.start)
            && (m.end <= a <= b ==> Untouched(text[m.end..], a - m.end, b - m.end))
  {
    hide FirstTag;
    NameLength(text);
    var m := FirstName(text).value;
    var rest, all := NameTags(text[m.end..]), NameTags(text);
    assert all[0] == m && all[0] in all;
    if m.end <= a <= b {
      forall t | t in rest ensures t.end <= a - m.end || b - m.end <= t.start {
        var i :| 0 <= i < |rest| && rest[i] == t;
        assert all[i + 1] == Shifted(t, m.end) && all[i + 1] in all;
      }
    }
  }

  lemma {:induction false} CoversStep(text: string, at: nat, v: string)
    requires FirstName(text).Some?
    ensures var m := FirstName(text).value;
            && m.end <= |text|
            && (m.value == v && m.start < at < m.end ==> Covers(text, at, v))
            && (m.end <= at && Covers(text[m.end..], at - m.end, v) ==> Covers(text, at, v))
  {
    hide FirstTag;
    NameLength(text);
    var m := FirstName(text).value;
    var rest, all := NameTags(text[m.end..]), NameTags(text);
    assert all[0] == m && all[0] in all;
    if m.end <= at && Covers(text[m.end..], at - m.end, v) {
      var t :| t in rest && t.value == v && t.start < at - m.end < t.end;
      var i :| 0 <= i < |rest| && rest[i] == t;
      assert all[i + 1] == Shifted(t, m.end) && all[i + 1] in all;
    }
  }

  /** Where no tag of the joined text ends before the cut, none of the text does, so the text's first tag
      lies after what was cut. */
  lemma {:induction false} FirstAfterCut(p: string, s: string, q: string)
    requires FirstName(p + q).Some? && FirstName(p + q).value.end > |p|
    requires FirstName(p + s + q).Some? && Untouched(p + s + q, |p|, |p| + |s|)
    ensures |p| + |s| <= FirstName(p + s + q).value.start
    ensures FirstName(q).Some? && FirstName(p + s + q).value == Shifted(FirstName(q).value, |p| + |s|)
  {
    hide FirstName, Untouched;
    UntouchedStep(p + s + q, |p|, |p| + |s|);
    assert p + s + q == p + (s + q);
    if FirstName(p + s + q).value.end <= |p| { NameLeft(p, s + q, q); }
    NameRight(p + s, q);
  }

  lemma {:induction false} SameValuesAfterCut(p: string, s: string, q: string, v: string)
    requires FirstName(p + s + q).Some? && FirstName(q).Some?
    requires FirstName(p + s + q).value == Shifted(FirstName(q).value, |p| + |s|)
    ensures HasValue(p + s + q, v) <==> HasValue(q, v)
  {
    hide FirstTag, HasValue;
    FirstValue(p + s + q, v);
    FirstValue(q, v);
    NameLength(q);
    var n := FirstName(q).value;
    assert (p + s + q)[|p| + |s| + n.end..] == q[n.end..];
  }

  /** The joined text's first tag lies after the cut. */
  lemma {:induction false} LateTag(p: string, s: string, q: string, v: string)
    requires FirstName(p + q).Some? && |p| <= FirstName(p + q).value.start
    requires Untouched(p + s + q, |p|, |p| + |s|) && HasValue(p + q, v)
    ensures HasValue(p + s + q, v)
  {
    hide FirstName, HasValue, Untouched;
    NameRight(p, q);
    NameLength(p + q);
    NameExists(p + s + q, p + s, q);
    FirstAfterCut(p, s, q);
    SameValuesAfterCut(p, s, q, v);
    assert p + "" + q == p + q;
    SameValuesAfterCut(p, "", q, v);
  }

  /** After a tag that covers the cut, the joined text goes on as what follows the cut does by itself. */
  lemma {:induction false} ResumesInStep(p: string, q: string)
    requires FirstName(p + q).Some? && FirstName(q).Some?
    requires var m := FirstName(p + q).value; m.start < |p| < m.end && FirstName(q).value.start < m.end - |p|
    ensures FirstName(q).value.end == FirstName(p + q).value.end - |p|
  {
    hide TrimText, FirstTag, Open, CloseTag;
    var open, close := Open(NAME_TAG), CloseTag(NAME_TAG);
    NameBrackets();
    NameIsSpelled(p + q);
    NameIsSpelled(q);
    var m, n := FirstName(p + q).value, FirstName(q).value;
    var c, o := m.end - |close|, |p| + n.start;
    AtRight(p, q, open, n.start);
    OpenBeforeClose(p + q, open, close, o, c);
    NoOverlapping(p + q, open, open, m.start, o);
    NoOverlapping(p + q, open, close, o, c);
    AtRight(p, q, close, c - |p|);
    forall j: nat | n.start + |open| <= j < c - |p| ensures !At(q, close, j) {
      AtRight(p, q, close, j);
    }
    SpelledIsName(q, n.start, c - |p| + |close|);
  }

  lemma {:induction false} OpenBeforeClose(s: string, open: string, close: string, o: nat, c: nat)
    requires Brackets(open, close) && At(s, open, o) && At(s, close, c) && o < c + |close|
    ensures o < c
  {
    if c < o { NoOverlapping(s, close, open, c, o); }
    AtChar(s, open, o, 1);
    AtChar(s, close, c, 1);
  }

  lemma {:induction false} ResumedValue(p: string, q: string, v: string)
    requires FirstName(p + q).Some? && FirstName(q).Some?
    requires var m := FirstName(p + q).value; m.start < |p| < m.end <= |p + q| && HasValue(q[m.end - |p|..], v)
    ensures HasValue(q, v)
  {
    hide FirstName, HasValue, FirstTag;
    var e, n := FirstName(p + q).value.end - |p|, FirstName(q).value;
    NameLength(q);
    ValueStep(q, v);
    if n.start < e {
      ResumesInStep(p, q);
    } else {
      assert q == q[..e] + q[e..];
      NameRight(q[..e], q[e..]);
      ValueStep(q[e..], v);
      NameLength(q[e..]);
      assert q[e..][n.end - e..] == q[n.end..];
    }
  }

  lemma {:induction false} ValueStep(text: string, v: string)
    ensures var m := FirstName(text);
            && (m.None? ==> !HasValue(text, v))
            && (m.Some? ==>
                 && m.value.end <= |text|
                 && (HasValue(text, v) <==> m.value.value == v || HasValue(text[m.value.end..], v)))
  {
    hide FirstTag, HasValue;
    FirstValue(text, v);
  }

  lemma {:induction false} AfterCover(p: string, s: string, q: string, v: string)
    requires FirstName(p + q).Some?
    requires var m := FirstName(p + q).value; m.start < |p| < m.end <= |p + q| && HasValue(q[m.end - |p|..], v)
    requires Untouched(p + s + q, |p|, |p| + |s|)
    ensures HasValue(p + s + q, v)
  {
    hide FirstName, HasValue, Untouched;
    var e := FirstName(p + q).value.end - |p|;
    ValueStep(q[e..], v);
    assert q == q[..e] + q[e..];
    NameExists(q, q[..e], q[e..]);
    NameExists(p + s + q, p + s, q);
    FirstAfterCut(p, s, q);
    ResumedValue(p, q, v);
    SameValuesAfterCut(p, s, q, v);
  }

  /** Cut `s` out of `p + s + q`, where no name tag touches `s`: a name tag of the joined text carries a
      value that some name tag carried before, or covers the cut. */
  lemma {:induction false} CutValues(p: string, s: string, q: string, v: string)
    requires Untouched(p + s + q, |p|, |p| + |s|) && HasValue(p + q, v)
    ensures HasValue(p + s + q, v) || Covers(p + q, |p|, v)
    decreases |p|
  {
    hide FirstName, HasValue, Untouched, Covers;
    ValueStep(p + q, v);
    var m := FirstName(p + q).value;
    NameLength(p + q);
    CoversStep(p + q, |p|, v);
    assert p + s + q == p + (s + q);
    if m.end <= |p| {
      NameLeft(p, q, s + q);
      ValueStep(p + s + q, v);
      UntouchedStep(p + s + q, |p|, |p| + |s|);
      var rest := p[m.end..];
      assert (p + q)[m.end..] == rest + q && (p + s + q)[m.end..] == rest + s + q;
      if m.value != v { CutValues(rest, s, q, v); }
    } else if |p| <= m.start {
      LateTag(p, s, q, v);
    } else {
      assert (p + q)[m.end..] == q[m.end - |p|..];
      if m.value != v { AfterCover(p, s, q, v); }
    }
  }

  // ----- any cut -----

  /** A name tag with this value ends at or before the position. */
  predicate Ends(text: string, at: nat, v: string) {
    exists t | t in NameTags(text) :: t.value == v && t.end <= at
  }

  lemma {:induction false} EndsStep(text: string, at: nat, v: string)
    ensures var m := FirstName(text);
            && (m.None? ==> !Ends(text, at, v))
            && (m.Some? ==>
                 && m.value.end <= |text|
                 && (Ends(text, at, v) <==>
                      m.value.end <= at && (m.value.value == v || Ends(text[m.value.end..], at - m.value.end, v))))
  {
    hide FirstTag;
    NameLength(text);
    if FirstName(text).Some? {
      var m := FirstName(text).value;
      var rest, all := NameTags(text[m.end..]), NameTags(text);
      assert all[0] == m && all[0] in all;
      if m.end <= at && Ends(text[m.end..], at - m.end, v) {
        var t :| t in rest && t.value == v && t.end <= at - m.end;
        var i :| 0 <= i < |rest| && rest[i] == t;
        assert all[i + 1] == Shifted(t, m.end) && all[i + 1] in all;
      }
      if Ends(text, at, v) {
        var t :| t in all && t.value == v && t.end <= at;
        var i :| 0 <= i < |all| && all[i] == t;
        if i > 0 { assert all[i] == Shifted(rest[i - 1], m.end) && rest[i - 1] in rest; }
      }
    }
  }

  /** The tags that end before a place do not depend on what follows it. */
  lemma {:induction false} EndsLeft(p: string, x: string, y: string, v: string)
    ensures Ends(p + x, |p|, v) ==> Ends(p + y, |p|, v)
    decreases |p|
  {
    hide FirstName, Ends;
    EndsStep(p + x, |p|, v);
    EndsStep(p + y, |p|, v);
    if Ends(p + x, |p|, v) {
      NameLength(p + x);
      NameLeft(p, x, y);
      var end := FirstName(p + x).value.end;
      assert (p + x)[end..] == p[end..] + x && (p + y)[end..] == p[end..] + y;
      EndsLeft(p[end..], x, y, v);
    }
  }

  /** What is left of `q` when the search for name tags in `p + q` has passed the joint: what follows the
      tag that covers the joint, or all of it if there is none. */
  function After(p: string, q: string): string
    decreases |p|
  {
    NameLength(p + q);
    match FirstName(p + q)
    case None => q
    case Some(m) =>
      if m.end <= |p| then After(p[m.end..], q)
      else if m.start < |p| then q[m.end - |p|..]
      else q
  }

  /** The values in a joined text: of a tag that ends before the joint, of one that covers it, and of those
      in the rest. */
  lemma {:induction false} JoinedValues(p: string, q: string, v: string)
    ensures HasValue(p + q, v) <==> Ends(p + q, |p|, v) || Covers(p + q, |p|, v) || HasValue(After(p, q), v)
    decreases |p|
  {
    hide FirstName, HasValue, Covers, Ends;
    ValueStep(p + q, v);
    EndsStep(p + q, |p|, v);
    CoveredIsThere(p + q, |p|, v);
    NameLength(p + q);
    if FirstName(p + q).None? {
      ValueStep(q, v);
      if FirstName(q).Some? { NameExists(p + q, p, q); }
    } else {
      var m := FirstName(p + q).value;
      CoversStep(p + q, |p|, v);
      if m.end <= |p| {
        var rest := p[m.end..];
        assert (p + q)[m.end..] == rest + q;
        JoinedValues(rest, q, v);
      } else if |p| <= m.start {
        NameRight(p, q);
        assert p + "" + q == p + q;
        SameValuesAfterCut(p, "", q, v);
      } else {
        assert (p + q)[m.end..] == q[m.end - |p|..];
      }
    }
  }

  lemma {:induction false} CoveredIsThere(text: string, at: nat, v: string)
    ensures Covers(text, at, v) ==> HasValue(text, v)
    ensures Ends(text, at, v) ==> HasValue(text, v)
  {
  }

  /** A local-only name tag of the joined text covers the cut. */
  ghost predicate LocalCovers(table: Table, text: string, at: nat) {
    exists v :: Covers(text, at, v) && table.command(v).Some?
  }

  /** A local-only name tag ends before the place. */
  ghost predicate LocalEnds(table: Table, text: string, at: nat) {
    exists v :: Ends(text, at, v) && table.command(v).Some?
  }

  lemma {:induction false} LocalNameValue(table: Table, text: string)
    ensures HasLocalName(table, text) <==> exists v :: HasValue(text, v) && table.command(v).Some?
  {
    if HasLocalName(table, text) {
      var t :| t in NameTags(text) && table.command(t.value).Some?;
      assert HasValue(text, t.value);
    }
  }

  /** The search for commands, once past the cut, still finds one. */
  predicate LocalAfter(table: Table, text: string, span: Span)
    requires span.start < span.end <= |text|
  {
    HasLocalName(table, After(text[..span.start], text[span.end..]))
  }

  /** After any cut there is a command exactly when one ended before the cut, or one of the joined text covers
      it, or the search finds one in what follows. */
  lemma {:induction false} CutHasCommandExactly(table: Table, text: string, span: Span)
    requires span.start < span.end <= |text|
    ensures CommandSpan(table, Cut(text, span), 0).Some?
      <==> LocalEnds(table, text, span.start) || LocalCovers(table, Cut(text, span), span.start)
           || LocalAfter(table, text, span)
  {
    hide HasValue, Covers, Ends, CommandSpan, HasLocalName;
    var p, s, q := text[..span.start], text[span.start..span.end], text[span.end..];
    var joined := Cut(text, span);
    assert text == p + (s + q) && joined == p + q && joined[0..] == joined;
    CommandIsLocalName(table, joined, 0);
    LocalNameValue(table, After(p, q));
    forall v ensures HasValue(joined, v)
      <==> Ends(text, |p|, v) || Covers(joined, |p|, v) || HasValue(After(p, q), v)
    {
      JoinedValues(p, q, v);
      EndsLeft(p, q, s + q, v);
      EndsLeft(p, s + q, q, v);
    }
  }

  lemma {:induction false} NoneEnds(table: Table, text: string, at: nat)
    requires CommandSpan(table, text, 0) == None
    ensures !LocalEnds(table, text, at)
  {
    hide HasValue, Covers, Ends, CommandSpan;
    assert text[0..] == text;
    CommandIsLocalName(table, text, 0);
    forall v ensures Ends(text, at, v) ==> HasValue(text, v) { CoveredIsThere(text, at, v); }
  }

  /** A cut in a text without commands leaves one exactly when a local-only name tag of the joined text covers
      the place of the cut, or the search finds one in what follows it. */
  lemma {:induction false} CutLeavesCommandExactly(table: Table, text: string, span: Span)
    requires span.start < span.end <= |text| && CommandSpan(table, text, 0) == None
    ensures CommandSpan(table, Cut(text, span), 0).Some?
      <==> LocalCovers(table, Cut(text, span), span.start) || LocalAfter(table, text, span)
  {
    hide LocalEnds, LocalCovers, LocalAfter, CommandSpan;
    CutHasCommandExactly(table, text, span);
    NoneEnds(table, text, span.start);
  }

  /** Where no name tag touches what is cut, only the first can happen. */
  lemma {:induction false} UntouchedCutLeavesExactly(table: Table, text: string, span: Span)
    requires span.start < span.end <= |text| && CommandSpan(table, text, 0) == None
      && Untouched(text, span.start, span.end)
    ensures CommandSpan(table, Cut(text, span), 0).Some? <==> LocalCovers(table, Cut(text, span), span.start)
  {
    hide HasValue, Covers, Untouched, CommandSpan;
    var p, s, q := text[..span.start], text[span.start..span.end], text[span.end..];
    var joined := Cut(text, span);
    assert text == p + s + q && joined == p + q && text[0..] == text && joined[0..] == joined;
    CommandIsLocalName(table, text, 0);
    CommandIsLocalName(table, joined, 0);
    forall v ensures HasValue(joined, v) ==> HasValue(text, v) || Covers(joined, span.start, v) {
      if HasValue(joined, v) { CutValues(p, s, q, v); }
    }
    forall v ensures Covers(joined, span.start, v) ==> HasValue(joined, v) { CoveredIsThere(joined, span.start, v); }
  }

  // ----- all cuts -----

  /** At every cut, neither a local-only name tag of the joined text covers the place, nor does the search
      find one in what follows. */
  ghost predicate CleanCuts(table: Table, text: string)
    decreases |text|
  {
    StdoutSpan(table, text).Some? ==>
      var span := StdoutSpan(table, text).value;
      && !LocalCovers(table, Cut(text, span), span.start) && !LocalAfter(table, text, span)
      && CleanCuts(table, Cut(text, span))
  }

  /** No text on the way from the first cut to the last has a command. */
  predicate NeverCommand(table: Table, text: string)
    decreases |text|
  {
    && CommandSpan(table, text, 0) == None
    && (StdoutSpan(table, text).Some? ==> NeverCommand(table, Cut(text, StdoutSpan(table, text).value)))
  }

  lemma {:induction false} CleanCutsExactly(table: Table, text: string)
    requires CommandSpan(table, text, 0) == None
    ensures CleanCuts(table, text) <==> NeverCommand(table, text)
    decreases |text|
  {
    hide CommandSpan, StdoutSpan, LocalCovers, LocalAfter;
    var span := StdoutSpan(table, text);
    if span.Some? {
      CutLeavesCommandExactly(table, text, span.value);
      if CommandSpan(table, Cut(text, span.value), 0) == None { CleanCutsExactly(table, Cut(text, span.value)); }
    }
  }

  lemma {:induction false} NeverCommandAtLast(table: Table, text: string)
    requires NeverCommand(table, text)
    ensures CommandSpan(table, StripStdout(table, text).text, 0) == None
    decreases |text|
  {
    hide CommandSpan, StdoutSpan;
    var span := StdoutSpan(table, text);
    if span.Some? { NeverCommandAtLast(table, Cut(text, span.value)); }
  }

  /** Clean cuts leave no command. */
  lemma {:induction false} CleanCutsLeaveNoCommand(table: Table, text: string)
    requires CommandSpan(table, text, 0) == None && CleanCuts(table, text)
    ensures CommandSpan(table, StripStdout(table, text).text, 0) == None
  {
    hide CommandSpan;
    CleanCutsExactly(table, text);
    NeverCommandAtLast(table, text);
  }

  /** The text before the last cut. */
  function BeforeLastCut(table: Table, text: string): (r: string)
    requires StdoutSpan(table, text).Some?
    ensures StdoutSpan(table, r).Some?
    decreases |text|
  {
    var next := Cut(text, StdoutSpan(table, text).value);
    if StdoutSpan(table, next).Some? then BeforeLastCut(table, next) else text
  }

  lemma {:induction false} LastCutIsLast(table: Table, text: string)
    requires StdoutSpan(table, text).Some?
    ensures var last := BeforeLastCut(table, text);
            StripStdout(table, text).text == Cut(last, StdoutSpan(table, last).value)
    decreases |text|
  {
    hide StdoutSpan;
    var next := Cut(text, StdoutSpan(table, text).value);
    if StdoutSpan(table, next).Some? { LastCutIsLast(table, next); }
  }

  /** For every text and table: stripping leaves a command, and stripping again changes the text, exactly when
      there is output to cut and, at the last cut, a local-only name tag ended before it, or one of the joined
      text covers it, or the search finds one in what follows. */
  lemma {:induction false} StrippingLeavesExactly(table: Table, text: string)
    ensures var once, without := Apply(table, text).text, WithoutCommands(table, text);
            var left := StdoutSpan(table, without).Some? && LastCutLeaves(table, BeforeLastCut(table, without));
            && (CommandSpan(table, once, 0).Some? <==> left)
            && (Apply(table, once).text == once <==> !left)
  {
    hide StdoutSpan, CommandSpan, Apply, LocalEnds, LocalCovers, LocalAfter, StripCommands, StripStdout;
    var without := WithoutCommands(table, text);
    CommandAfterJoining(table, text);
    if StdoutSpan(table, without).Some? {
      LastCutIsLast(table, without);
      var last := BeforeLastCut(table, without);
      CutHasCommandExactly(table, last, StdoutSpan(table, last).value);
    } else {
      NoOutputNoCommand(table, text);
    }
  }

  ghost predicate LastCutLeaves(table: Table, last: string)
    requires StdoutSpan(table, last).Some?
  {
    var span := StdoutSpan(table, last).value;
    LocalEnds(table, last, span.start) || LocalCovers(table, Cut(last, span), span.start)
    || LocalAfter(table, last, span)
  }
}

/** Decoded JSON values, JSON text, and the key order used when an object is walked in sorted order. */
module Json {

  datatype Option<+T> = None | Some(value: T)

  /** `Null` also stands for Go's nil interface value: the source never tells the two apart. */
  datatype Json =
    | Null
    | Bool(b: bool)
    | Num(n: real)
    | Str(s: Text)
    | Arr(items: seq<Json>)
    | Obj(fields: map<string, Json>)

  /** Text is a sequence of pieces: a character, or the encoding of a whole JSON value.
      A text that is exactly one encoding decodes to the encoded value. What any other
      text decodes to is left to a `Parser`, about which nothing is assumed. */
  datatype Piece = Chr(c: char) | Enc(v: Json)
  type Text = seq<Piece>
  type Parser = Text -> Option<Json>

  function Lit(s: string): Text {
    seq(|s|, i requires 0 <= i < |s| => Chr(s[i]))
  }

  lemma {:induction false} LitInjective(a: string, b: string)
    requires Lit(a) == Lit(b)
    ensures a == b
  {
    forall i | 0 <= i < |a| ensures a[i] == b[i] {
      assert Lit(a)[i] == Chr(a[i]) && Lit(b)[i] == Chr(b[i]);
    }
  }

  /** unicode.IsSpace */
  predicate IsSpaceChar(c: char) {
    || c == '\t' || c == '\n' || c == '\U{0B}' || c == '\U{0C}' || c == '\r' || c == ' '
    || c == '\U{85}' || c == '\U{A0}' || c == '\U{1680}' || '\U{2000}' <= c <= '\U{200A}'
    || c == '\U{2028}' || c == '\U{2029}' || c == '\U{202F}' || c == '\U{205F}' || c == '\U{3000}'
  }

  predicate IsSpace(p: Piece) {
    p.Chr? && IsSpaceChar(p.c)
  }

  /** strings.TrimSpace(t) == "" */
  predicate Blank(t: Text) {
    forall i | 0 <= i < |t| :: IsSpace(t[i])
  }

  /** strings.TrimSpace */
  function Trim(t: Text): (r: Text)
    ensures Blank(t) <==> r == []
    ensures r != [] ==> !IsSpace(r[0]) && !IsSpace(r[|r| - 1])
    ensures |r| <= |t|
  {
    if t == [] then t
    else if IsSpace(t[0]) then Trim(t[1..])
    else if IsSpace(t[|t| - 1]) then Trim(t[..|t| - 1])
    else t
  }

  /** json.Unmarshal into an empty interface; blank text is never a JSON value. */
  function Decode(parse: Parser, t: Text): Option<Json> {
    if Blank(t) then None
    else if |t| == 1 && t[0].Enc? then Some(t[0].v)
    else parse(t)
  }

  /** json.Marshal */
  function Encode(v: Json): Text {
    [Enc(v)]
  }

  function Concat(texts: seq<Text>): Text {
    if texts == [] then [] else texts[0] + Concat(texts[1..])
  }

  lemma {:induction false} ConcatAppend(a: seq<Text>, b: seq<Text>)
    ensures Concat(a + b) == Concat(a) + Concat(b)
  {
    if a == [] {
      assert a + b == b;
    } else {
      ConcatAppend(a[1..], b);
      assert (a + b)[1..] == a[1..] + b;
      var rest, more := Concat(a[1..]), Concat(b);
      hide Concat;
      assert a[0] + (rest + more) == (a[0] + rest) + more;
    }
  }

  // ----- reading decoded objects -----

  /** value, ok := m[k].(string) */
  function StringAt(m: map<string, Json>, k: string): Option<Text> {
    if k in m && m[k].Str? then Some(m[k].s) else None
  }

  /** value, ok := m[k].(map[string]any) */
  function ObjectAt(m: map<string, Json>, k: string): Option<map<string, Json>> {
    if k in m && m[k].Obj? then Some(m[k].fields) else None
  }

  /** m[k], which is nil when the key is absent */
  function ValueAt(m: map<string, Json>, k: string): Json {
    if k in m then m[k] else Null
  }

  predicate HasString(m: map<string, Json>, k: string, s: string) {
    StringAt(m, k) == Some(Lit(s))
  }

  /** json.Unmarshal into a map: only an object (or a JSON null, giving a nil map) succeeds. */
  function DecodeObject(parse: Parser, t: Text): Option<map<string, Json>> {
    match Decode(parse, t)
    case Some(Obj(m)) => Some(m)
    case Some(Null) => Some(map[])
    case _ => None
  }

  /** int64(f) for a float64 f: truncation toward zero. */
  function Truncate(n: real): int {
    if n >= 0.0 then n.Floor else -((-n).Floor)
  }

  function IntAt(m: map<string, Json>, k: string): Option<int> {
    if k in m && m[k].Num? then Some(Truncate(m[k].n)) else None
  }

  function Decimal(n: nat): string {
    if n < 10 then ["0123456789"[n]] else Decimal(n / 10) + ["0123456789"[n % 10]]
  }

  // ----- sort.Strings -----

  predicate Leq(a: string, b: string) {
    a == [] || (b != [] && (a[0] < b[0] || (a[0] == b[0] && Leq(a[1..], b[1..]))))
  }

  lemma {:induction false} LeqTotal(a: string, b: string)
    ensures Leq(a, b) || Leq(b, a)
  {
    if a != [] && b != [] { LeqTotal(a[1..], b[1..]); }
  }

  lemma {:induction false} LeqAntisymmetric(a: string, b: string)
    requires Leq(a, b) && Leq(b, a)
    ensures a == b
  {
    if a != [] && b != [] {
      LeqAntisymmetric(a[1..], b[1..]);
      assert a == [a[0]] + a[1..] && b == [b[0]] + b[1..];
    }
  }

  lemma {:induction false} LeqTransitive(a: string, b: string, c: string)
    requires Leq(a, b) && Leq(b, c)
    ensures Leq(a, c)
  {
    if a != [] && a[0] == b[0] == c[0] { LeqTransitive(a[1..], b[1..], c[1..]); }
  }

  lemma {:induction false} LeastExists(s: set<string>) returns (k: string)
    requires s != {}
    ensures k in s && forall x | x in s :: Leq(k, x)
  {
    k :| k in s;
    LeqTotal(k, k);
    if s != {k} {
      var least := LeastExists(s - {k});
      LeqTotal(least, k);
      if Leq(least, k) {
        k := least;
      } else {
        forall x | x in s ensures Leq(k, x) {
          if x != k { LeqTransitive(k, least, x); }
        }
      }
    }
  }

  predicate IsLeast(s: set<string>, k: string) {
    k in s && forall x | x in s :: Leq(k, x)
  }

  function Least(s: set<string>): (k: string)
    requires s != {}
    ensures k in s && forall x | x in s :: Leq(k, x)
  {
    assert exists k :: IsLeast(s, k) by {
      var k := LeastExists(s);
      assert IsLeast(s, k);
    }
    assert forall a, b | IsLeast(s, a) && IsLeast(s, b) :: a == b by {
      forall a, b | IsLeast(s, a) && IsLeast(s, b) ensures a == b {
        LeqAntisymmetric(a, b);
      }
    }
    var k :| IsLeast(s, k);
    k
  }

  /** The keys in ascending order. */
  function Sorted(s: set<string>): (r: seq<string>)
    ensures |r| == |s|
    ensures forall k :: k in r <==> k in s
    ensures forall i, j | 0 <= i < j < |r| :: r[i] != r[j]
  {
    if s == {} then [] else
      var k := Least(s);
      [k] + Sorted(s - {k})
  }

  lemma {:induction false} SortedStep(s: set<string>)
    requires s != {}
    ensures Sorted(s) == [Least(s)] + Sorted(s - {Least(s)})
  {
    hide Leq, Least;
  }

  lemma {:induction false} SortedAscends(s: set<string>, i: nat, j: nat)
    requires i < j < |Sorted(s)|
    ensures Leq(Sorted(s)[i], Sorted(s)[j])
    decreases |s|
  {
    hide Leq, Sorted, Least;
    SortedStep(s);
    var k := Least(s);
    var rest := Sorted(s - {k});
    if i > 0 {
      SortedAscends(s - {k}, i - 1, j - 1);
    } else {
      assert rest[j - 1] in rest;
    }
  }
}

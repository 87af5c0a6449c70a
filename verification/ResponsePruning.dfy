/** What cleaning up a response takes away, and that it takes away nothing else. */
module ResponsePruning {
  import opened Json
  import opened StrictSchema
  import opened ResponseGate

  /** A text block without a text, or with a blank one. */
  predicate BlankText(b: Json) {
    && b.Obj? && "type" in b.fields && b.fields["type"] == Str(Lit("text"))
    && ("text" in b.fields && b.fields["text"].Str? ==> Blank(b.fields["text"].s))
  }

  /** `b` is `v` without the null fields of its objects and the blank text blocks of their `content`, at every depth,
      and otherwise the same. */
  ghost predicate Pruned(b: Json, v: Json)
    decreases v, 1
  {
    match v
    case Obj(m) =>
      && b.Obj? && (forall k :: k in b.fields <==> k in m && m[k] != Null)
      && forall k | k in m && m[k] != Null ::
           if k == "content" && m[k].Arr? then b.fields[k].Arr? && PrunedBlocks(b.fields[k].items, m[k].items)
           else Pruned(b.fields[k], m[k])
    case Arr(items) =>
      b.Arr? && |b.items| == |items| && forall i | 0 <= i < |items| :: Pruned(b.items[i], items[i])
    case _ => b == v
  }

  ghost predicate PrunedBlocks(bs: seq<Json>, blocks: seq<Json>)
    decreases blocks, 0
  {
    if blocks == [] then bs == []
    else if BlankText(blocks[0]) then PrunedBlocks(bs, blocks[1..])
    else bs != [] && Pruned(bs[0], blocks[0]) && PrunedBlocks(bs[1..], blocks[1..])
  }

  lemma {:induction false} NullOnly(v: Json)
    ensures Sanitize(v) == Null <==> v == Null
  {
  }

  /** Cleaning a block does not change whether it is a blank text. */
  lemma {:induction false} BlankKept(b: Json)
    ensures KeptBlock(Sanitize(b)) <==> !BlankText(b)
  {
    if b.Obj? {
      var m := b.fields;
      assert "type" in m && m["type"].Str? ==> Sanitize(m["type"]) == m["type"];
      assert "text" in m && m["text"].Str? ==> Sanitize(m["text"]) == m["text"];
      SameString(b, "type");
      SameString(b, "text");
      hide Sanitize, Blank;
    }
  }

  lemma {:induction false} SameString(b: Json, k: string)
    requires b.Obj? && k != "content"
    ensures Sanitize(b).Obj? && StringAt(Sanitize(b).fields, k) == StringAt(b.fields, k)
  {
    if k in b.fields { NullOnly(b.fields[k]); }
    assert k in b.fields && b.fields[k].Obj? ==> Sanitize(b.fields[k]).Obj?;
    hide FilterBlocks;
  }

  lemma {:induction false} SanitizePrunes(v: Json)
    ensures Pruned(Sanitize(v), v)
    decreases v, 1
  {
    match v
    case Obj(m) =>
      forall k ensures k in Sanitize(v).fields <==> k in m && m[k] != Null { SameFields(m, k); }
      forall k | k in m && m[k] != Null
        ensures var y := Sanitize(v).fields[k];
                if k == "content" && m[k].Arr? then y.Arr? && PrunedBlocks(y.items, m[k].items) else Pruned(y, m[k])
      {
        SameFields(m, k);
        SanitizePrunes(m[k]);
        if k == "content" && m[k].Arr? { BlocksPruned(m[k].items); }
      }
    case Arr(items) =>
      forall i | 0 <= i < |items| ensures Pruned(Sanitize(items[i]), items[i]) { SanitizePrunes(items[i]); }
    case _ =>
  }

  function SanitizeAll(items: seq<Json>): seq<Json> {
    seq(|items|, i requires 0 <= i < |items| => Sanitize(items[i]))
  }

  lemma {:induction false} SameFields(m: Fields, k: string)
    ensures k in Sanitize(Obj(m)).fields <==> k in m && m[k] != Null
    ensures k in m && m[k] != Null ==>
      Sanitize(Obj(m)).fields[k] == if k == "content" && m[k].Arr? then Arr(FilterBlocks(SanitizeAll(m[k].items)))
                                    else Sanitize(m[k])
  {
    hide FilterBlocks;
    forall x | x in m ensures Sanitize(m[x]) == Null <==> m[x] == Null { NullOnly(m[x]); }
    if "content" in m {
      assert Sanitize(m["content"]).Arr? <==> m["content"].Arr?;
      if m["content"].Arr? { assert Sanitize(m["content"]).items == SanitizeAll(m["content"].items); }
    }
  }

  lemma {:induction false} BlocksPruned(blocks: seq<Json>)
    ensures PrunedBlocks(FilterBlocks(SanitizeAll(blocks)), blocks)
    decreases blocks, 0
  {
    hide Sanitize, KeptBlock, BlankText, Pruned;
    FilterStep(SanitizeAll(blocks));
    if blocks != [] {
      BlankKept(blocks[0]);
      SanitizePrunes(blocks[0]);
      assert SanitizeAll(blocks)[1..] == SanitizeAll(blocks[1..]);
      BlocksPruned(blocks[1..]);
      var rest := FilterBlocks(SanitizeAll(blocks[1..]));
      assert [Sanitize(blocks[0])] + rest != [] && ([Sanitize(blocks[0])] + rest)[1..] == rest;
      assert [] + rest == rest;
    }
  }

  lemma {:induction false} PrunedOne(a: Json, b: Json, v: Json)
    requires Pruned(a, v) && Pruned(b, v)
    ensures a == b
    decreases v, 1
  {
    match v
    case Obj(m) =>
      forall k | k in a.fields ensures a.fields[k] == b.fields[k] {
        if k == "content" && m[k].Arr? {
          BlocksOne(a.fields[k].items, b.fields[k].items, m[k].items);
        } else {
          PrunedOne(a.fields[k], b.fields[k], m[k]);
        }
      }
      assert a.fields == b.fields;
    case Arr(items) =>
      forall i | 0 <= i < |items| ensures a.items[i] == b.items[i] { PrunedOne(a.items[i], b.items[i], items[i]); }
      assert a.items == b.items;
    case _ =>
  }

  lemma {:induction false} BlocksOne(a: seq<Json>, b: seq<Json>, blocks: seq<Json>)
    requires PrunedBlocks(a, blocks) && PrunedBlocks(b, blocks)
    ensures a == b
    decreases blocks, 0
  {
    hide Pruned, BlankText;
    if blocks != [] {
      if BlankText(blocks[0]) {
        BlocksOne(a, b, blocks[1..]);
      } else {
        PrunedOne(a[0], b[0], blocks[0]);
        BlocksOne(a[1..], b[1..], blocks[1..]);
        assert a == [a[0]] + a[1..] && b == [b[0]] + b[1..];
      }
    }
  }

  /** A response is cleaned up by taking away its null fields and blank text blocks, and nothing else. */
  lemma {:induction false} SanitizeExactly(b: Json, v: Json)
    ensures b == Sanitize(v) <==> Pruned(b, v)
  {
    hide Sanitize, Pruned;
    SanitizePrunes(v);
    if Pruned(b, v) { PrunedOne(b, Sanitize(v), v); }
  }
}

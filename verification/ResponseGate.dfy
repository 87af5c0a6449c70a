/** The incoming half of the schema pair, and the clean-up of whole responses. */
module ResponseGate {
  import opened Json
  import opened StrictSchema

  // ----- null optional fields -----

  function PropertiesOf(schema: Json): Fields {
    if schema.Obj? && "properties" in schema.fields && schema.fields["properties"].Obj?
    then schema.fields["properties"].fields else map[]
  }

  predicate NullOptional(m: Fields, schema: Json, k: string)
    requires k in m
  {
    k in PropertiesOf(schema) && m[k] == Null && Lit(k) !in RequiredNames(schema.fields)
  }

  function RemoveNulls(v: Json, schema: Json): Json {
    if !schema.Obj? then v
    else match v
      case Obj(m) =>
        var props := PropertiesOf(schema);
        Obj(map k | k in m && !NullOptional(m, schema, k) ::
          if k in props then RemoveNulls(m[k], props[k]) else m[k])
      case Arr(items) =>
        if "items" !in schema.fields then v
        else Arr(seq(|items|, i requires 0 <= i < |items| => RemoveNulls(items[i], schema.fields["items"])))
      case _ => v
  }

  /** The value map is edited in place while the schema's properties are visited in any order. */
  method RemoveNullOptionalFields(v: Json, schema: Json) returns (r: Json)
    ensures r == RemoveNulls(v, schema)
    decreases v
  {
    if !schema.Obj? {
      return v;
    }
    if v.Obj? {
      var m := v.fields;
      var props := PropertiesOf(schema);
      var todo := props.Keys;
      while todo != {}
        invariant todo <= props.Keys
        invariant forall k | k in m ::
          k in v.fields && (k in props && k !in todo ==> !NullOptional(v.fields, schema, k))
        invariant forall k | k in v.fields && !NullOptional(v.fields, schema, k) :: k in m
        invariant forall k | k in v.fields && k in todo :: k in m
        invariant forall k | k in m :: m[k] == if k in props && k !in todo then RemoveNulls(v.fields[k], props[k])
          else v.fields[k]
        decreases todo
      {
        var k :| k in todo;
        todo := todo - {k};
        if k in m {
          if m[k] == Null && Lit(k) !in RequiredNames(schema.fields) {
            m := m - {k};
          } else {
            var nested := RemoveNullOptionalFields(m[k], props[k]);
            m := m[k := nested];
          }
        }
      }
      assert m == RemoveNulls(v, schema).fields;
      return Obj(m);
    }
    if v.Arr? && "items" in schema.fields {
      var out := [];
      for i := 0 to |v.items|
        invariant |out| == i && forall j | 0 <= j < i :: out[j] == RemoveNulls(v.items[j], schema.fields["items"])
      {
        var nested := RemoveNullOptionalFields(v.items[i], schema.fields["items"]);
        out := out + [nested];
      }
      return Arr(out);
    }
    return v;
  }

  /** A text that decodes is re-encoded without its null optional fields; any other is left alone. */
  function Cleanup(parse: Parser, schema: Json, text: Text): (r: Text)
    ensures Blank(r) <==> Blank(text)
  {
    if schema == Null then text
    else match Decode(parse, text)
      case None => text
      case Some(v) =>
        assert !IsSpace(Encode(RemoveNulls(v, schema))[0]);
        Encode(RemoveNulls(v, schema))
  }

  // ----- whole responses -----

  predicate KeptBlock(b: Json) {
    b.Obj? && HasString(b.fields, "type", "text") ==>
      StringAt(b.fields, "text").Some? && !Blank(StringAt(b.fields, "text").value)
  }

  function FilterBlocks(blocks: seq<Json>): (r: seq<Json>)
    ensures forall b | b in r :: b in blocks && KeptBlock(b)
    ensures (forall b | b in blocks :: KeptBlock(b)) ==> r == blocks
  {
    if blocks == [] then []
    else (if KeptBlock(blocks[0]) then [blocks[0]] else []) + FilterBlocks(blocks[1..])
  }

  /** A block is kept or left out by itself, wherever it stands: with FilterBlocksAppend this says that every
      kept block stays, in order and as often as before. */
  lemma {:induction false} FilterBlocksOne(b: Json)
    ensures FilterBlocks([b]) == if KeptBlock(b) then [b] else []
  {
    hide KeptBlock;
    assert [b][1..] == [] && FilterBlocks([]) == [];
  }

  lemma {:induction false} FilterBlocksAppend(a: seq<Json>, b: seq<Json>)
    ensures FilterBlocks(a + b) == FilterBlocks(a) + FilterBlocks(b)
    decreases |a|
  {
    hide KeptBlock, FilterBlocks;
    FilterStep(a);
    FilterStep(a + b);
    if a == [] {
      assert a + b == b;
    } else {
      FilterBlocksAppend(a[1..], b);
      assert (a + b)[1..] == a[1..] + b && (a + b)[0] == a[0];
      Associative(if KeptBlock(a[0]) then [a[0]] else [], FilterBlocks(a[1..]), FilterBlocks(b));
    }
  }

  lemma {:induction false} Associative(a: seq<Json>, b: seq<Json>, c: seq<Json>)
    ensures a + (b + c) == (a + b) + c
  {
  }

  lemma {:induction false} FilterStep(blocks: seq<Json>)
    ensures FilterBlocks(blocks)
      == if blocks == [] then [] else (if KeptBlock(blocks[0]) then [blocks[0]] else []) + FilterBlocks(blocks[1..])
  {
  }

  function Sanitize(v: Json): Json {
    match v
    case Obj(m) =>
      var out := map k | k in m && Sanitize(m[k]) != Null :: Sanitize(m[k]);
      if "content" in out && out["content"].Arr? then Obj(out["content" := Arr(FilterBlocks(out["content"].items))])
        else Obj(out)
    case Arr(items) => Arr(seq(|items|, i requires 0 <= i < |items| => Sanitize(items[i])))
    case _ => v
  }

  /** No object has a null field, and no `content` list has a blank text block. */
  predicate Clean(v: Json) {
    match v
    case Obj(m) =>
      && (forall k | k in m :: m[k] != Null && Clean(m[k]))
      && ("content" in m && m["content"].Arr? ==> forall b | b in m["content"].items :: KeptBlock(b))
    case Arr(items) => forall i | 0 <= i < |items| :: Clean(items[i])
    case _ => true
  }

  lemma {:induction false} SanitizeCleans(v: Json)
    ensures Clean(Sanitize(v))
    decreases v, 1
  {
    match v
    case Obj(m) =>
      forall k | k in m ensures Clean(Sanitize(m[k])) { SanitizeCleans(m[k]); }
      hide Clean, Sanitize;
      FieldsClean(v);
    case Arr(items) =>
      forall i | 0 <= i < |items| ensures Clean(Sanitize(items[i])) { SanitizeCleans(items[i]); }
    case _ =>
  }

  /** An object of clean fields, with its `content` filtered, is clean. */
  lemma {:induction false} FieldsClean(v: Json)
    requires v.Obj? && forall k | k in v.fields :: Clean(Sanitize(v.fields[k]))
    ensures Clean(Sanitize(v))
    decreases v, 0
  {
    var m := v.fields;
    var out := map k | k in m && Sanitize(m[k]) != Null :: Sanitize(m[k]);
    if "content" in out && out["content"].Arr? {
      FilteredClean(out["content"].items);
    }
  }

  lemma {:induction false} FilteredClean(blocks: seq<Json>)
    requires Clean(Arr(blocks))
    ensures Clean(Arr(FilterBlocks(blocks))) && forall b | b in FilterBlocks(blocks) :: KeptBlock(b)
  {
    hide KeptBlock;
    var kept := FilterBlocks(blocks);
    forall i | 0 <= i < |kept| ensures Clean(kept[i]) {
      assert kept[i] in kept;
      var j :| 0 <= j < |blocks| && blocks[j] == kept[i];
    }
  }

  /** Sanitising changes a value exactly when it is not clean; with SanitizeCleans, doing it twice
      is doing it once. */
  lemma {:induction false} SanitizeFixesClean(v: Json)
    ensures Sanitize(v) == v <==> Clean(v)
  {
    SanitizeCleans(v);
    match v
    case Obj(m) =>
      if Clean(v) {
        forall k | k in m ensures Sanitize(m[k]) == m[k] { SanitizeFixesClean(m[k]); }
        assert (map k | k in m && Sanitize(m[k]) != Null :: Sanitize(m[k])) == m;
      }
    case Arr(items) =>
      if Clean(v) {
        forall i | 0 <= i < |items| ensures Sanitize(items[i]) == items[i] { SanitizeFixesClean(items[i]); }
      }
    case _ =>
  }
}

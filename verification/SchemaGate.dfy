/** The strict-schema gate as it runs: an object's keys are overwritten one after another. */
module SchemaGate {
  import opened Json
  import opened StrictSchema

  /** Every key of the gated object: strict where it has been processed, still original elsewhere. */
  ghost predicate Progress(schema: Json, obj: Fields, done: set<string>)
    requires schema.Obj?
  {
    && obj.Keys == schema.fields.Keys + Added(schema.fields)
    && forall k | k in obj ::
         obj[k] == if k in Added(schema.fields) || k in done then StrictField(schema, k) else schema.fields[k]
  }

  ghost function Upto(keys: seq<string>, i: nat): set<string>
    requires i <= |keys|
  {
    set k | k in keys[..i]
  }

  ghost function All(keys: seq<string>): set<string> {
    Upto(keys, |keys|)
  }

  lemma {:induction false} KeysDisjoint(schema: Json)
    requires schema.Obj?
    ensures forall k | k in COMBINATOR_KEYS :: k !in SUBSCHEMA_KEYS && k !in Added(schema.fields)
    ensures forall k | k in DEFINITION_KEYS ::
      k !in SUBSCHEMA_KEYS && k !in COMBINATOR_KEYS && k !in Added(schema.fields)
    ensures forall k | k in SUBSCHEMA_KEYS && k in Added(schema.fields) :: k == "additionalProperties"
  {
  }

  lemma {:induction false} Advance(schema: Json, obj: Fields, done: set<string>, keys: seq<string>, i: nat,
                                   obj': Fields)
    requires schema.Obj? && i < |keys|
    requires Progress(schema, obj, done + Upto(keys, i))
    requires obj' == if keys[i] in obj then obj[keys[i] := StrictField(schema, keys[i])] else obj
    ensures Progress(schema, obj', done + Upto(keys, i + 1))
  {
    hide StrictField, Added, Strict;
    UptoNext(keys, i);
  }

  lemma {:induction false} UptoNext(keys: seq<string>, i: nat)
    requires i < |keys|
    ensures Upto(keys, i + 1) == Upto(keys, i) + {keys[i]}
  {
    assert keys[..i + 1] == keys[..i] + [keys[i]];
  }

  method NormalizeSchema(schema: Json) returns (r: Json)
    ensures r == Strict(schema)
    decreases schema, 3
  {
    if !schema.Obj? {
      return schema;
    }
    var obj := schema.fields;
    if IsObjectSchema(obj) {
      obj := NormalizeObjectSchema(schema);
    }
    obj := NormalizeSubschemas(schema, obj);
    obj := NormalizeCombinators(schema, obj);
    obj := NormalizeDefinitions(schema, obj);
    AllDone(schema, obj);
    return Obj(obj);
  }

  lemma {:induction false} AllDone(schema: Json, obj: Fields)
    requires schema.Obj?
    requires Progress(schema, obj, All(SUBSCHEMA_KEYS) + All(COMBINATOR_KEYS) + All(DEFINITION_KEYS))
    ensures Obj(obj) == Strict(schema)
  {
    forall k | k in obj ensures obj[k] == StrictField(schema, k) {
      assert SUBSCHEMA_KEYS[..|SUBSCHEMA_KEYS|] == SUBSCHEMA_KEYS;
      assert COMBINATOR_KEYS[..|COMBINATOR_KEYS|] == COMBINATOR_KEYS;
      assert DEFINITION_KEYS[..|DEFINITION_KEYS|] == DEFINITION_KEYS;
    }
    assert obj == Strict(schema).fields;
  }

  lemma {:induction false} SubschemaKey(schema: Json, obj: Fields, i: nat)
    requires schema.Obj? && i < |SUBSCHEMA_KEYS| && Progress(schema, obj, {} + Upto(SUBSCHEMA_KEYS, i))
    ensures var key := SUBSCHEMA_KEYS[i];
            key in obj ==>
              && key in schema.fields.Keys + Added(schema.fields)
              && if obj[key].Obj? then key in schema.fields && obj[key] == schema.fields[key]
              && StrictField(schema, key) == Strict(obj[key])
              else StrictField(schema, key) == obj[key]
  {
    var key := SUBSCHEMA_KEYS[i];
    KeysDisjoint(schema);
    assert key !in Upto(SUBSCHEMA_KEYS, i);
  }

  method NormalizeSubschemas(schema: Json, gated: Fields) returns (obj: Fields)
    requires schema.Obj? && Progress(schema, gated, {})
    ensures Progress(schema, obj, {} + All(SUBSCHEMA_KEYS))
    decreases schema, 2
  {
    obj := gated;
    assert {} + Upto(SUBSCHEMA_KEYS, 0) == {};
    for i := 0 to |SUBSCHEMA_KEYS|
      invariant Progress(schema, obj, {} + Upto(SUBSCHEMA_KEYS, i))
    {
      hide Progress, Strict, StrictField, Added, Upto;
      ghost var before := obj;
      SubschemaKey(schema, obj, i);
      obj := NormalizeKey(schema, obj, SUBSCHEMA_KEYS[i]);
      Advance(schema, before, {}, SUBSCHEMA_KEYS, i, obj);
    }
  }

  method NormalizeKey(schema: Json, obj: Fields, key: string) returns (obj': Fields)
    requires schema.Obj? && (key in obj ==> key in schema.fields.Keys + Added(schema.fields))
    requires key in obj ==>
      if obj[key].Obj? then key in schema.fields && obj[key] == schema.fields[key]
        && StrictField(schema, key) == Strict(obj[key])
      else StrictField(schema, key) == obj[key]
    ensures obj' == if key in obj then obj[key := StrictField(schema, key)] else obj
    decreases schema, 1
  {
    obj' := obj;
    if key in obj && obj[key].Obj? {
      var value := NormalizeSchema(obj[key]);
      obj' := obj[key := value];
    } else if key in obj {
      assert obj[key := obj[key]] == obj;
    }
  }

  lemma {:induction false} CombinatorKey(schema: Json, obj: Fields, i: nat)
    requires schema.Obj? && i < |COMBINATOR_KEYS|
    requires Progress(schema, obj, All(SUBSCHEMA_KEYS) + Upto(COMBINATOR_KEYS, i))
    ensures var key := COMBINATOR_KEYS[i];
            key in obj ==>
              && key in schema.fields && obj[key] == schema.fields[key]
              && StrictField(schema, key) == if obj[key].Arr? then Arr(StrictAll(obj[key].items)) else obj[key]
  {
    KeysDisjoint(schema);
    assert COMBINATOR_KEYS[i] !in Upto(COMBINATOR_KEYS, i);
  }

  method NormalizeCombinators(schema: Json, gated: Fields) returns (obj: Fields)
    requires schema.Obj? && Progress(schema, gated, {} + All(SUBSCHEMA_KEYS))
    ensures Progress(schema, obj, All(SUBSCHEMA_KEYS) + All(COMBINATOR_KEYS))
    decreases schema, 2
  {
    obj := gated;
    ghost var done := All(SUBSCHEMA_KEYS);
    assert done + Upto(COMBINATOR_KEYS, 0) == {} + done;
    for i := 0 to |COMBINATOR_KEYS|
      invariant Progress(schema, obj, done + Upto(COMBINATOR_KEYS, i))
    {
      hide Progress, Strict, StrictField, Added, Upto;
      var key := COMBINATOR_KEYS[i];
      ghost var before := obj;
      CombinatorKey(schema, obj, i);
      if key in obj && obj[key].Arr? {
        var values := NormalizeAll(obj[key].items);
        obj := obj[key := Arr(values)];
      }
      assert key in before ==> obj == before[key := StrictField(schema, key)];
      Advance(schema, before, done, COMBINATOR_KEYS, i, obj);
    }
  }

  method NormalizeAll(items: seq<Json>) returns (r: seq<Json>)
    ensures r == StrictAll(items)
    decreases items, 0
  {
    r := [];
    for i := 0 to |items|
      invariant |r| == i && forall j | 0 <= j < i :: r[j] == Strict(items[j])
    {
      var value := NormalizeSchema(items[i]);
      r := r + [value];
    }
  }

  lemma {:induction false} DefinitionKey(schema: Json, obj: Fields, i: nat)
    requires schema.Obj? && i < |DEFINITION_KEYS|
    requires Progress(schema, obj, All(SUBSCHEMA_KEYS) + All(COMBINATOR_KEYS) + Upto(DEFINITION_KEYS, i))
    ensures var key := DEFINITION_KEYS[i];
            key in obj ==>
              && key in schema.fields && obj[key] == schema.fields[key]
              && StrictField(schema, key) ==
                   if obj[key].Obj? then Obj(map d | d in obj[key].fields :: Strict(obj[key].fields[d])) else obj[key]
  {
    KeysDisjoint(schema);
    assert DEFINITION_KEYS[i] !in Upto(DEFINITION_KEYS, i);
    hide StrictProperties, StrictAll, NameList, Sorted, Added;
  }

  method NormalizeDefinitions(schema: Json, gated: Fields) returns (obj: Fields)
    requires schema.Obj? && Progress(schema, gated, All(SUBSCHEMA_KEYS) + All(COMBINATOR_KEYS))
    ensures Progress(schema, obj, All(SUBSCHEMA_KEYS) + All(COMBINATOR_KEYS) + All(DEFINITION_KEYS))
    decreases schema, 2
  {
    obj := gated;
    ghost var done := All(SUBSCHEMA_KEYS) + All(COMBINATOR_KEYS);
    assert done + Upto(DEFINITION_KEYS, 0) == done;
    for i := 0 to |DEFINITION_KEYS|
      invariant Progress(schema, obj, done + Upto(DEFINITION_KEYS, i))
    {
      hide Progress, Strict, StrictField, Added, Upto;
      var key := DEFINITION_KEYS[i];
      ghost var before := obj;
      DefinitionKey(schema, obj, i);
      if key in obj && obj[key].Obj? {
        var defs := NormalizeValues(obj[key]);
        obj := obj[key := Obj(defs)];
      }
      assert key in before ==> obj == before[key := StrictField(schema, key)];
      Advance(schema, before, done, DEFINITION_KEYS, i, obj);
    }
  }

  method NormalizeValues(defs: Json) returns (r: Fields)
    requires defs.Obj?
    ensures r == map d | d in defs.fields :: Strict(defs.fields[d])
    decreases defs, 0
  {
    r := defs.fields;
    var todo := defs.fields.Keys;
    while todo != {}
      invariant todo <= r.Keys == defs.fields.Keys
      invariant forall d | d in r :: r[d] == if d in todo then defs.fields[d] else Strict(defs.fields[d])
      decreases todo
    {
      var d :| d in todo;
      var value := NormalizeSchema(r[d]);
      r := r[d := value];
      todo := todo - {d};
    }
  }

  lemma {:induction false} Gated(schema: Json, obj: Fields)
    requires schema.Obj? && IsObjectSchema(schema.fields)
    requires var m := schema.fields;
             if "properties" in m && !m["properties"].Obj? then obj == m["additionalProperties" := Bool(false)]
             else obj == m["additionalProperties" := Bool(false)]
                          ["properties" := StrictField(schema, "properties")]
                          ["required" := NameList(Sorted(Declared(m)))]
    ensures Progress(schema, obj, {})
  {
    hide Sorted, StrictProperties, NameList;
  }

  method NormalizeObjectSchema(schema: Json) returns (obj: Fields)
    requires schema.Obj? && IsObjectSchema(schema.fields)
    ensures Progress(schema, obj, {})
    decreases schema, 2
  {
    hide Progress, StrictProperties, Sorted, NameList;
    obj := schema.fields["additionalProperties" := Bool(false)];
    var required := RequiredNames(obj);
    if "properties" !in obj {
      obj := obj["properties" := Obj(map[])];
    }
    if !obj["properties"].Obj? {
      Gated(schema, obj);
      return;
    }
    var names := Sorted(obj["properties"].fields.Keys);
    assert Declared(schema.fields) == obj["properties"].fields.Keys;
    if "properties" in schema.fields {
      var properties := NormalizeProperties(obj["properties"], names, required);
      obj := obj["properties" := Obj(properties)];
    }
    assert obj["properties"] == StrictField(schema, "properties");
    obj := obj["required" := NameList(names)];
    Gated(schema, obj);
  }

  /** The first `i` properties are strict, the others untouched. */
  ghost predicate PropertiesUpto(props: Json, required: set<Text>, names: seq<string>, i: nat, r: Fields)
    requires props.Obj? && i <= |names|
  {
    && r.Keys == props.fields.Keys
    && forall p | p in r ::
         r[p] == if p in names[..i] then StrictProperty(props, required, p) else props.fields[p]
  }

  ghost function StrictProperty(props: Json, required: set<Text>, p: string): Json
    requires props.Obj? && p in props.fields
  {
    if Lit(p) in required then Strict(props.fields[p]) else MakeNullable(Strict(props.fields[p]))
  }

  lemma {:induction false} PropertiesNext(props: Json, required: set<Text>, names: seq<string>, i: nat, r: Fields)
    requires props.Obj? && i < |names| && names[i] in props.fields && names[i] !in names[..i]
    requires PropertiesUpto(props, required, names, i, r)
    ensures names[i] in r && r[names[i]] == props.fields[names[i]]
    ensures PropertiesUpto(props, required, names, i + 1, r[names[i] := StrictProperty(props, required, names[i])])
  {
    hide StrictProperty;
    assert names[..i + 1] == names[..i] + [names[i]];
  }

  method NormalizeProperties(props: Json, names: seq<string>, required: set<Text>) returns (r: Fields)
    requires props.Obj? && forall p | p in names :: p in props.fields
    requires forall p | p in props.fields :: p in names
    requires forall i, j | 0 <= i < j < |names| :: names[i] != names[j]
    ensures r == StrictProperties(props, required)
    decreases props, 0
  {
    r := props.fields;
    assert PropertiesUpto(props, required, names, 0, r);
    hide PropertiesUpto, StrictProperties, Strict, MakeNullable;
    for i := 0 to |names|
      invariant PropertiesUpto(props, required, names, i, r)
    {
      var name := names[i];
      PropertiesNext(props, required, names, i, r);
      var property := NormalizeSchema(r[name]);
      if Lit(name) !in required {
        property := MakeNullable(property);
      }
      r := r[name := property];
    }
    PropertiesDone(props, required, names, r);
  }

  lemma {:induction false} PropertiesDone(props: Json, required: set<Text>, names: seq<string>, r: Fields)
    requires props.Obj? && forall p | p in props.fields :: p in names
    requires PropertiesUpto(props, required, names, |names|, r)
    ensures r == StrictProperties(props, required)
  {
    hide Strict, MakeNullable;
    assert names[..|names|] == names;
  }
}

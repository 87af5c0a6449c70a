/** The outgoing half of the schema pair: every declared property becomes required, and the ones
    that were optional become nullable. */
module StrictSchema {
  import opened Json

  type Fields = map<string, Json>

  const NULL_TYPE := Str(Lit("null"))
  const SUBSCHEMA_KEYS := ["items", "additionalProperties", "contains", "not", "if", "then", "else"]
  const COMBINATOR_KEYS := ["anyOf", "oneOf", "allOf"]
  const DEFINITION_KEYS := ["$defs", "definitions"]

  predicate IsObjectSchema(m: Fields) {
    "properties" in m || HasString(m, "type", "object")
  }

  /** The names in the `required` list; entries that are not strings are skipped. */
  function RequiredNames(m: Fields): set<Text> {
    if "required" in m && m["required"].Arr?
    then set r | r in m["required"].items && r.Str? :: r.s
    else {}
  }

  function MakeNullable(s: Json): Json {
    if !s.Obj? then s
    else
      var m := s.fields;
      if "type" !in m then Obj(map["anyOf" := Arr([s, Obj(map["type" := NULL_TYPE])])])
      else match m["type"]
        case Str(t) => if t == Lit("null") then s else Obj(m["type" := Arr([m["type"], NULL_TYPE])])
        case Arr(types) => if NULL_TYPE in types then s else Obj(m["type" := Arr(types + [NULL_TYPE])])
        case _ => s
  }

  function NameList(names: seq<string>): Json {
    Arr(seq(|names|, i requires 0 <= i < |names| => Str(Lit(names[i]))))
  }

  function Declared(m: Fields): set<string> {
    if "properties" in m && m["properties"].Obj? then m["properties"].fields.Keys else {}
  }

  /** The keys that gating an object schema sets. */
  function Added(m: Fields): set<string> {
    if !IsObjectSchema(m) then {}
    else if "properties" in m && !m["properties"].Obj? then {"additionalProperties"}
    else {"additionalProperties", "properties", "required"}
  }

  /** The strict form of a schema. */
  function Strict(s: Json): Json
    decreases s, 1
  {
    if s.Obj? then Obj(map k | k in s.fields.Keys + Added(s.fields) :: StrictField(s, k)) else s
  }

  function StrictField(s: Json, k: string): Json
    requires s.Obj? && k in s.fields.Keys + Added(s.fields)
    decreases s, 0
  {
    var m := s.fields;
    if k in Added(m) then
      if k == "additionalProperties" then Bool(false)
      else if k == "required" then NameList(Sorted(Declared(m)))
      else if "properties" !in m then Obj(map[])
      else Obj(StrictProperties(m["properties"], RequiredNames(m)))
    else if k in SUBSCHEMA_KEYS then Strict(m[k])
    else if k in COMBINATOR_KEYS && m[k].Arr? then Arr(StrictAll(m[k].items))
    else if k in DEFINITION_KEYS && m[k].Obj? then Obj(map d | d in m[k].fields :: Strict(m[k].fields[d]))
    else m[k]
  }

  function StrictProperties(props: Json, required: set<Text>): Fields
    requires props.Obj?
    decreases props, 0
  {
    map p | p in props.fields ::
      if Lit(p) in required then Strict(props.fields[p]) else MakeNullable(Strict(props.fields[p]))
  }

  function StrictAll(items: seq<Json>): (r: seq<Json>)
    ensures |r| == |items| && forall i | 0 <= i < |items| :: r[i] == Strict(items[i])
  {
    seq(|items|, i requires 0 <= i < |items| => Strict(items[i]))
  }

  // ----- normalising twice is normalising once -----

  lemma {:induction false} FixedField(m: Fields, k: string)
    requires Strict(Obj(m)) == Obj(m) && k in m
    ensures Added(m) <= m.Keys && StrictField(Obj(m), k) == m[k]
  {
    assert Strict(Obj(m)).fields.Keys == m.Keys + Added(m);
    assert Strict(Obj(m)).fields[k] == StrictField(Obj(m), k);
  }

  lemma {:induction false} FixedByFields(m: Fields)
    requires Added(m) <= m.Keys
    requires forall k | k in m :: StrictField(Obj(m), k) == m[k]
    ensures Strict(Obj(m)) == Obj(m)
  {
    assert m.Keys + Added(m) == m.Keys;
    assert Strict(Obj(m)).fields == m;
  }

  lemma {:induction false} NullableFixed(n: Json)
    requires Strict(n) == n
    ensures Strict(MakeNullable(n)) == MakeNullable(n)
  {
    if n.Obj? && "type" !in n.fields {
      WrapFixed(n);
    } else if n.Obj? && MakeNullable(n) != n {
      WidenedTypeFixed(n.fields, MakeNullable(n).fields["type"]);
    }
  }

  lemma {:induction false} NullTypeFixed()
    ensures Strict(Obj(map["type" := NULL_TYPE])) == Obj(map["type" := NULL_TYPE])
  {
    var m := map["type" := NULL_TYPE];
    assert Lit("null") != Lit("object") by { assert |Lit("null")| == 4 && |Lit("object")| == 6; }
    assert !IsObjectSchema(m);
    FixedByFields(m);
  }

  lemma {:induction false} WrapFixed(n: Json)
    requires Strict(n) == n
    ensures var w := Obj(map["anyOf" := Arr([n, Obj(map["type" := NULL_TYPE])])]); Strict(w) == w
  {
    NullTypeFixed();
    var items := [n, Obj(map["type" := NULL_TYPE])];
    assert StrictAll(items) == items;
    FixedByFields(map["anyOf" := Arr(items)]);
  }

  /** On a strict schema the `type` keyword may be widened without disturbing anything else. */
  lemma {:induction false} WidenedTypeFixed(m: Fields, t: Json)
    requires Strict(Obj(m)) == Obj(m) && "type" in m && !t.Str?
    ensures Strict(Obj(m["type" := t])) == Obj(m["type" := t])
  {
    var m' := m["type" := t];
    assert Added(m) <= m.Keys && Added(m') == Added(m) by {
      hide StrictField;
      FixedField(m, "type");
    }
    hide Added;
    forall k | k in m' ensures StrictField(Obj(m'), k) == m'[k] {
      FixedField(m, k);
      SameField(m, t, k);
    }
    FixedByFields(m');
  }

  lemma {:induction false} SameField(m: Fields, t: Json, k: string)
    requires "type" in m && k in m && Added(m) <= m.Keys && Added(m["type" := t]) == Added(m)
    ensures StrictField(Obj(m["type" := t]), k) == if k == "type" then t else StrictField(Obj(m), k)
  {
    hide StrictProperties, Sorted;
    var m' := m["type" := t];
    assert RequiredNames(m') == RequiredNames(m) && Declared(m') == Declared(m);
    assert "type" !in Added(m);
  }

  lemma {:induction false} NamesRequired(names: seq<string>, m: Fields)
    requires "required" in m && m["required"] == NameList(names)
    ensures forall p | p in names :: Lit(p) in RequiredNames(m)
  {
    forall p | p in names ensures Lit(p) in RequiredNames(m) {
      var i :| 0 <= i < |names| && names[i] == p;
      assert m["required"].items[i] == Str(Lit(p));
    }
  }

  lemma {:induction false} RequiredNamed(names: seq<string>, m: Fields, r: Text)
    requires "required" in m && m["required"] == NameList(names) && r in RequiredNames(m)
    ensures exists i :: 0 <= i < |names| && Lit(names[i]) == r
  {
    var x :| x in m["required"].items && x == Str(r);
    var i :| 0 <= i < |names| && m["required"].items[i] == x;
    assert Lit(names[i]) == r;
  }

  lemma {:induction false} StrictIdempotent(s: Json)
    ensures Strict(Strict(s)) == Strict(s)
    decreases s, 1
  {
    if s.Obj? {
      var n := Strict(s).fields;
      assert n.Keys == s.fields.Keys + Added(s.fields);
      assert Added(n) == Added(s.fields) by { AddedStable(s); }
      forall k | k in n ensures StrictField(Obj(n), k) == n[k] {
        assert n[k] == StrictField(s, k);
        FieldIdempotent(s, k);
      }
      FixedByFields(n);
    }
  }

  lemma {:induction false} AddedStable(s: Json)
    requires s.Obj?
    ensures Added(Strict(s).fields) == Added(s.fields)
  {
    var m, n := s.fields, Strict(s).fields;
    assert n.Keys == m.Keys + Added(m);
    assert "type" in m ==> n["type"] == m["type"] by {
      hide StrictProperties, StrictAll, NameList, Sorted;
      if "type" in m {
        assert "type" !in Added(m) && n["type"] == StrictField(s, "type");
      }
    }
    assert "properties" in n ==> n["properties"].Obj? == ("properties" in m ==> m["properties"].Obj?) by {
      hide StrictProperties, StrictAll, NameList, Sorted;
      if "properties" in n {
        assert n["properties"] == StrictField(s, "properties");
      }
    }
    AddedSame(m, n);
  }

  /** What gating adds depends on the keys, the `type` and whether `properties` is an object. */
  lemma {:induction false} AddedSame(m: Fields, n: Fields)
    requires n.Keys == m.Keys + Added(m)
    requires "type" in m ==> n["type"] == m["type"]
    requires "properties" in n ==> n["properties"].Obj? == ("properties" in m ==> m["properties"].Obj?)
    ensures Added(n) == Added(m)
  {
    assert "type" in n ==> "type" in m;
    assert IsObjectSchema(n) == IsObjectSchema(m);
  }

  lemma {:induction false} FieldIdempotent(s: Json, k: string)
    requires s.Obj? && k in s.fields.Keys + Added(s.fields)
    ensures StrictField(Strict(s), k) == StrictField(s, k)
    decreases s, 0
  {
    var m, n := s.fields, Strict(s).fields;
    AddedStable(s);
    assert n[k] == StrictField(s, k);
    if k in Added(m) {
      AddedFieldIdempotent(s, k);
    } else if k in SUBSCHEMA_KEYS {
      StrictIdempotent(m[k]);
    } else if k in COMBINATOR_KEYS && m[k].Arr? {
      forall x | x in m[k].items { StrictIdempotent(x); }
      assert StrictAll(n[k].items) == n[k].items;
    } else if k in DEFINITION_KEYS && m[k].Obj? {
      forall d | d in m[k].fields { StrictIdempotent(m[k].fields[d]); }
      assert StrictField(Strict(s), k).fields == n[k].fields;
    }
  }

  /** After gating, every declared property is listed as required. */
  lemma {:induction false} GatedNames(s: Json)
    requires s.Obj? && "required" in Added(s.fields)
    ensures var n := Strict(s).fields;
            && "properties" in n && n["properties"].Obj? && n["properties"] == StrictField(s, "properties")
            && Declared(n) == Declared(s.fields)
            && "required" in n && n["required"] == NameList(Sorted(Declared(n)))
            && forall p | p in Declared(n) :: Lit(p) in RequiredNames(n)
  {
    var n := Strict(s).fields;
    assert n["properties"] == StrictField(s, "properties");
    assert n["required"] == StrictField(s, "required");
    assert Declared(n) == Declared(s.fields);
    NamesRequired(Sorted(Declared(n)), n);
  }

  lemma {:induction false} AddedFieldIdempotent(s: Json, k: string)
    requires s.Obj? && k in Added(s.fields)
    ensures StrictField(Strict(s), k) == StrictField(s, k)
    decreases s, 0, 0
  {
    AddedStable(s);
    if k == "required" {
      GatedNames(s);
    } else if k == "properties" {
      GatedPropertiesIdempotent(s);
    }
  }

  lemma {:induction false} GatedPropertiesIdempotent(s: Json)
    requires s.Obj? && "properties" in Added(s.fields)
    ensures "properties" in Added(Strict(s).fields)
    ensures StrictField(Strict(s), "properties") == StrictField(s, "properties")
    decreases s, 0, 0, 0
  {
    AddedStable(s);
    GatedNames(s);
    var required := RequiredNames(Strict(s).fields);
    if "properties" in s.fields {
      PropertiesIdempotent(s.fields["properties"], RequiredNames(s.fields), required);
    } else {
      assert StrictProperties(Obj(map[]), required) == map[];
    }
  }

  lemma {:induction false} PropertiesIdempotent(props: Json, required: set<Text>, all: set<Text>)
    requires props.Obj? && forall p | p in props.fields :: Lit(p) in all
    ensures StrictProperties(Obj(StrictProperties(props, required)), all) == StrictProperties(props, required)
    decreases props, 0
  {
    forall p | p in props.fields
      ensures Strict(StrictProperties(props, required)[p]) == StrictProperties(props, required)[p]
    {
      StrictIdempotent(props.fields[p]);
      NullableFixed(Strict(props.fields[p]));
    }
  }
}

/** How far the strict form reaches: which places of a schema it changes, and how, in a recursion of its
    own over the keywords that hold schemas. */
module SchemaReach {
  import opened Json
  import opened StrictSchema

  /** By its type or by having properties. */
  predicate ObjectLike(m: Fields) {
    "properties" in m || ("type" in m && m["type"] == Str(Lit("object")))
  }

  /** The keywords with a schema for a value. */
  predicate HoldsSchema(k: string) {
    || k == "items" || k == "additionalProperties" || k == "contains" || k == "not" || k == "if" || k == "then"
    || k == "else"
  }

  predicate HoldsList(k: string) {
    k == "anyOf" || k == "oneOf" || k == "allOf"
  }

  predicate HoldsDefinitions(k: string) {
    k == "$defs" || k == "definitions"
  }

  /** The keywords that gating an object schema takes over. */
  predicate TakenOver(m: Fields, k: string) {
    && ObjectLike(m)
    && (k == "additionalProperties" || ((k == "properties" || k == "required") && !OddProperties(m)))
  }

  /** Properties that are not an object stop the gating halfway. */
  predicate OddProperties(m: Fields) {
    "properties" in m && !m["properties"].Obj?
  }

  function PropertiesIn(m: Fields): Fields {
    if "properties" in m && m["properties"].Obj? then m["properties"].fields else map[]
  }

  /** The client's schema requires the property. */
  predicate Listed(m: Fields, p: string) {
    "required" in m && m["required"].Arr? && Str(Lit(p)) in m["required"].items
  }

  // ----- every object schema is gated -----

  /** Nothing but the declared properties is allowed, and all of those are required. */
  predicate GatedHere(m: Fields) {
    && "additionalProperties" in m && m["additionalProperties"] == Bool(false)
    && "properties" in m
    && (m["properties"].Obj? ==>
         "required" in m && m["required"] == NameList(Sorted(m["properties"].fields.Keys)))
  }

  /** At every place the keywords lead to. */
  predicate EveryObjectGated(s: Json)
    decreases s
  {
    s.Obj? ==>
      var m := s.fields;
      && (ObjectLike(m) ==> GatedHere(m))
      && (forall p | p in PropertiesIn(m) :: EveryObjectGated(PropertiesIn(m)[p]))
      && (forall k | k in m && HoldsSchema(k) :: EveryObjectGated(m[k]))
      && (forall k | k in m && HoldsList(k) && m[k].Arr? ::
           forall i | 0 <= i < |m[k].items| :: EveryObjectGated(m[k].items[i]))
      && (forall k | k in m && HoldsDefinitions(k) && m[k].Obj? ::
           forall d | d in m[k].fields :: EveryObjectGated(m[k].fields[d]))
  }

  // ----- what becomes of each place -----

  /** `b` is `a` gated at every place the keywords lead to, and otherwise unchanged. */
  ghost predicate Became(a: Json, b: Json)
    decreases a, 1
  {
    if !a.Obj? then b == a
    else
      && b.Obj?
      && b.fields.Keys == a.fields.Keys + (set k | k in TAKEABLE && TakenOver(a.fields, k))
      && (ObjectLike(a.fields) ==> BecameGated(a, b.fields))
      && forall k | k in a.fields && !TakenOver(a.fields, k) :: BecameAt(a, k, b.fields[k])
  }

  const TAKEABLE := {"additionalProperties", "properties", "required"}

  ghost predicate BecameAt(a: Json, k: string, y: Json)
    requires a.Obj? && k in a.fields
    decreases a, 0
  {
    var x := a.fields[k];
    if HoldsSchema(k) then Became(x, y)
    else if HoldsList(k) && x.Arr? then
      y.Arr? && |y.items| == |x.items| && forall i | 0 <= i < |x.items| :: Became(x.items[i], y.items[i])
    else if HoldsDefinitions(k) && x.Obj? then
      y.Obj? && y.fields.Keys == x.fields.Keys && forall d | d in x.fields :: Became(x.fields[d], y.fields[d])
    else y == x
  }

  ghost predicate BecameGated(a: Json, n: Fields)
    requires a.Obj?
    decreases a, 0
  {
    var m := a.fields;
    && "additionalProperties" in n && n["additionalProperties"] == Bool(false)
    && (!OddProperties(m) ==>
         && "properties" in n && n["properties"].Obj?
         && n["properties"].fields.Keys == PropertiesIn(m).Keys
         && "required" in n && n["required"] == NameList(Sorted(PropertiesIn(m).Keys))
         && forall p | p in PropertiesIn(m) :: BecameProperty(a, p, n["properties"].fields[p]))
  }

  /** An optional property becomes nullable as well. */
  ghost predicate BecameProperty(a: Json, p: string, y: Json)
    requires a.Obj? && p in PropertiesIn(a.fields)
    decreases a, 0, 0
  {
    var x := PropertiesIn(a.fields)[p];
    if Listed(a.fields, p) then Became(x, y) else exists n :: Became(x, n) && y == MakeNullable(n)
  }

  /** A type that names null, or null as an alternative; a schema that is no object says nothing of types. */
  predicate AllowsNull(t: Json) {
    t.Obj? ==>
      || ("type" in t.fields && (t.fields["type"] == NULL_TYPE || !(t.fields["type"].Str? || t.fields["type"].Arr?)
                                 || (t.fields["type"].Arr? && NULL_TYPE in t.fields["type"].items)))
      || ("type" !in t.fields && "anyOf" in t.fields && t.fields["anyOf"].Arr?
          && Obj(map["type" := NULL_TYPE]) in t.fields["anyOf"].items)
  }

  // ----- the strict form reaches every place -----

  lemma {:induction false} SameObjects(m: Fields)
    ensures ObjectLike(m) == IsObjectSchema(m)
    ensures forall k :: HoldsSchema(k) <==> k in SUBSCHEMA_KEYS
    ensures forall k :: HoldsList(k) <==> k in COMBINATOR_KEYS
    ensures forall k :: HoldsDefinitions(k) <==> k in DEFINITION_KEYS
    ensures forall k :: TakenOver(m, k) <==> k in Added(m)
  {
  }

  lemma {:induction false} TakeableTaken(m: Fields)
    ensures (set k | k in TAKEABLE && TakenOver(m, k)) == Added(m)
  {
    SameObjects(m);
  }

  lemma {:induction false} SameListed(m: Fields, p: string)
    ensures Listed(m, p) <==> Lit(p) in RequiredNames(m)
  {
    if Listed(m, p) { assert m["required"].items[..] == m["required"].items && Str(Lit(p)) in m["required"].items; }
    if Lit(p) in RequiredNames(m) {
      var r :| r in m["required"].items && r.Str? && r.s == Lit(p);
      assert r == Str(Lit(p));
    }
  }

  lemma {:induction false} StrictBecame(s: Json)
    ensures Became(s, Strict(s))
    decreases s, 2
  {
    if s.Obj? {
      var m, n := s.fields, Strict(s).fields;
      TakeableTaken(m);
      SameObjects(m);
      assert n.Keys == m.Keys + Added(m);
      forall k | k in m && !TakenOver(m, k) ensures BecameAt(s, k, n[k]) {
        assert n[k] == StrictField(s, k);
        FieldBecame(s, k);
      }
      if ObjectLike(m) { GatedBecame(s); }
    }
  }

  lemma {:induction false} FieldBecame(s: Json, k: string)
    requires s.Obj? && k in s.fields && k !in Added(s.fields)
    ensures BecameAt(s, k, StrictField(s, k))
    decreases s, 1
  {
    hide Became, Sorted, StrictProperties, Added;
    var x := s.fields[k];
    SameObjects(s.fields);
    if k in SUBSCHEMA_KEYS {
      StrictBecame(x);
    } else if k in COMBINATOR_KEYS && x.Arr? {
      forall i | 0 <= i < |x.items| ensures Became(x.items[i], Strict(x.items[i])) { StrictBecame(x.items[i]); }
    } else if k in DEFINITION_KEYS && x.Obj? {
      forall d | d in x.fields ensures Became(x.fields[d], Strict(x.fields[d])) { StrictBecame(x.fields[d]); }
    }
  }

  lemma {:induction false} GatedBecame(s: Json)
    requires s.Obj? && ObjectLike(s.fields)
    ensures BecameGated(s, Strict(s).fields)
    decreases s, 1
  {
    var m, n := s.fields, Strict(s).fields;
    SameObjects(m);
    assert n["additionalProperties"] == StrictField(s, "additionalProperties");
    if !OddProperties(m) {
      GatedNames(s);
      PropertiesStrict(s);
      assert Declared(m) == PropertiesIn(m).Keys;
      hide Became, BecameProperty, Strict, StrictField, Sorted, MakeNullable;
      forall p | p in PropertiesIn(m) ensures BecameProperty(s, p, n["properties"].fields[p]) {
        PropertyBecame(s, p);
      }
    }
  }

  function StrictProperty(s: Json, p: string): Json
    requires s.Obj? && p in PropertiesIn(s.fields)
  {
    var x := Strict(PropertiesIn(s.fields)[p]);
    if Lit(p) in RequiredNames(s.fields) then x else MakeNullable(x)
  }

  lemma {:induction false} PropertiesStrict(s: Json)
    requires s.Obj? && ObjectLike(s.fields) && !OddProperties(s.fields)
    ensures var n := Strict(s).fields;
            && "properties" in n && n["properties"].Obj? && n["properties"].fields.Keys == PropertiesIn(s.fields).Keys
            && forall p | p in PropertiesIn(s.fields) :: n["properties"].fields[p] == StrictProperty(s, p)
  {
    SameObjects(s.fields);
    assert Strict(s).fields["properties"] == StrictField(s, "properties");
  }

  lemma {:induction false} PropertyBecame(s: Json, p: string)
    requires s.Obj? && p in PropertiesIn(s.fields)
    ensures BecameProperty(s, p, StrictProperty(s, p))
    decreases s, 0
  {
    hide Became, MakeNullable, Strict;
    SameListed(s.fields, p);
    StrictBecame(PropertiesIn(s.fields)[p]);
  }

  // ----- and nothing else meets the description -----

  lemma {:induction false} BecameOne(a: Json, b: Json, c: Json)
    requires Became(a, b) && Became(a, c)
    ensures b == c
    decreases a, 2
  {
    if a.Obj? {
      forall k | k in b.fields ensures b.fields[k] == c.fields[k] {
        if TakenOver(a.fields, k) {
          GatedOne(a, b.fields, c.fields, k);
        } else {
          FieldOne(a, k, b.fields[k], c.fields[k]);
        }
      }
      assert b.fields == c.fields;
    }
  }

  lemma {:induction false} FieldOne(a: Json, k: string, y: Json, z: Json)
    requires a.Obj? && k in a.fields && BecameAt(a, k, y) && BecameAt(a, k, z)
    ensures y == z
    decreases a, 1
  {
    hide Became;
    var x := a.fields[k];
    if HoldsSchema(k) {
      BecameOne(x, y, z);
    } else if HoldsList(k) && x.Arr? {
      forall i | 0 <= i < |x.items| ensures y.items[i] == z.items[i] { BecameOne(x.items[i], y.items[i], z.items[i]); }
      assert y.items == z.items;
    } else if HoldsDefinitions(k) && x.Obj? {
      forall d | d in x.fields ensures y.fields[d] == z.fields[d] { BecameOne(x.fields[d], y.fields[d], z.fields[d]); }
      assert y.fields == z.fields;
    }
  }

  lemma {:induction false} GatedOne(a: Json, m: Fields, n: Fields, k: string)
    requires a.Obj? && TakenOver(a.fields, k) && BecameGated(a, m) && BecameGated(a, n)
    ensures k in m && k in n && m[k] == n[k]
    decreases a, 1
  {
    hide Became, Sorted, MakeNullable;
    if k == "properties" {
      var props := PropertiesIn(a.fields);
      forall p | p in props ensures m[k].fields[p] == n[k].fields[p] {
        PropertyOne(a, p, m[k].fields[p], n[k].fields[p]);
      }
      assert m[k].fields == n[k].fields;
    }
  }

  lemma {:induction false} PropertyOne(a: Json, p: string, y: Json, z: Json)
    requires a.Obj? && p in PropertiesIn(a.fields) && BecameProperty(a, p, y) && BecameProperty(a, p, z)
    ensures y == z
    decreases a, 0
  {
    hide Became, MakeNullable;
    var x := PropertiesIn(a.fields)[p];
    if Listed(a.fields, p) {
      BecameOne(x, y, z);
    } else {
      var n :| Became(x, n) && y == MakeNullable(n);
      var o :| Became(x, o) && z == MakeNullable(o);
      BecameOne(x, n, o);
    }
  }

  /** The strict form is the schema gated at every place, and nothing else is. */
  lemma {:induction false} StrictIsGatedEverywhere(a: Json, b: Json)
    ensures Became(a, b) <==> b == Strict(a)
  {
    hide Became, Strict;
    StrictBecame(a);
    if Became(a, b) { BecameOne(a, b, Strict(a)); }
  }

  /** So that optional properties accept null. */
  lemma {:induction false} OptionalAllowsNull(n: Json)
    ensures AllowsNull(MakeNullable(n))
  {
    if n.Obj? && "type" !in n.fields {
      var items := [n, Obj(map["type" := NULL_TYPE])];
      assert items[1] in items;
    } else if n.Obj? && MakeNullable(n) != n {
      var types := MakeNullable(n).fields["type"].items;
      assert types[|types| - 1] == NULL_TYPE;
    }
  }

  // ----- gated schemas are the strict ones -----

  lemma {:induction false} NullableGated(n: Json)
    requires EveryObjectGated(n)
    ensures EveryObjectGated(MakeNullable(n))
  {
    if n.Obj? && "type" !in n.fields {
      NullTypeGated();
      var items := [n, Obj(map["type" := NULL_TYPE])];
      hide GatedHere;
      forall i | 0 <= i < |items| ensures EveryObjectGated(items[i]) {
      }
    } else if n.Obj? && MakeNullable(n) != n {
      WidenedGated(n.fields, MakeNullable(n).fields["type"]);
    }
  }

  lemma {:induction false} NullTypeGated()
    ensures EveryObjectGated(Obj(map["type" := NULL_TYPE]))
  {
    assert |Lit("null")| == 4 && |Lit("object")| == 6;
  }

  lemma {:induction false} WidenedGated(m: Fields, t: Json)
    requires EveryObjectGated(Obj(m)) && "type" in m && !t.Str?
    ensures EveryObjectGated(Obj(m["type" := t]))
  {
    hide Sorted;
    var n := m["type" := t];
    assert PropertiesIn(n) == PropertiesIn(m);
    assert ObjectLike(n) ==> GatedHere(n);
    hide GatedHere, ObjectLike, PropertiesIn;
    assert forall k | k in n && (HoldsSchema(k) || HoldsList(k) || HoldsDefinitions(k)) :: k in m && n[k] == m[k];
  }

  /** Whatever the schema, every object schema in its strict form is gated. */
  lemma {:induction false} StrictEveryObjectGated(s: Json)
    ensures EveryObjectGated(Strict(s))
    decreases s, 2
  {
    if s.Obj? {
      var m, n := s.fields, Strict(s).fields;
      SameObjects(m);
      AddedStable(s);
      SameObjects(n);
      assert n.Keys == m.Keys + Added(m);
      if ObjectLike(n) { HereGated(s); }
      hide GatedHere, ObjectLike, Sorted;
      forall p | p in PropertiesIn(n) ensures EveryObjectGated(PropertiesIn(n)[p]) { PropertyGated(s, p); }
      forall k | k in n && (HoldsSchema(k) || HoldsList(k) || HoldsDefinitions(k)) ensures FieldIsGated(k, n[k]) {
        assert n[k] == StrictField(s, k);
        FieldGated(s, k);
      }
    }
  }

  predicate FieldIsGated(k: string, y: Json) {
    && (HoldsSchema(k) ==> EveryObjectGated(y))
    && (HoldsList(k) && y.Arr? ==> forall i | 0 <= i < |y.items| :: EveryObjectGated(y.items[i]))
    && (HoldsDefinitions(k) && y.Obj? ==> forall d | d in y.fields :: EveryObjectGated(y.fields[d]))
  }

  lemma {:induction false} FieldGated(s: Json, k: string)
    requires s.Obj? && k in s.fields.Keys + Added(s.fields) && (HoldsSchema(k) || HoldsList(k) || HoldsDefinitions(k))
    ensures FieldIsGated(k, StrictField(s, k))
    decreases s, 1
  {
    SameObjects(s.fields);
    if k in Added(s.fields) {
      assert k == "additionalProperties" && StrictField(s, k) == Bool(false);
    } else {
      hide EveryObjectGated, Added, Sorted, StrictProperties;
      var x := s.fields[k];
      if k in SUBSCHEMA_KEYS {
        StrictEveryObjectGated(x);
      } else if k in COMBINATOR_KEYS && x.Arr? {
        forall i | 0 <= i < |x.items| ensures EveryObjectGated(Strict(x.items[i])) {
          StrictEveryObjectGated(x.items[i]);
        }
      } else if k in DEFINITION_KEYS && x.Obj? {
        forall d | d in x.fields ensures EveryObjectGated(Strict(x.fields[d])) {
          StrictEveryObjectGated(x.fields[d]);
        }
      }
    }
  }

  lemma {:induction false} HereGated(s: Json)
    requires s.Obj? && ObjectLike(s.fields)
    ensures GatedHere(Strict(s).fields)
  {
    var m, n := s.fields, Strict(s).fields;
    SameObjects(m);
    assert n["additionalProperties"] == StrictField(s, "additionalProperties");
    assert n["properties"] == StrictField(s, "properties");
    if !OddProperties(m) {
      GatedNames(s);
      PropertiesStrict(s);
    }
  }

  lemma {:induction false} OddStays(s: Json)
    requires s.Obj?
    ensures OddProperties(s.fields) ==> PropertiesIn(Strict(s).fields) == map[]
  {
    hide StrictProperties, Sorted;
    assert "properties" in s.fields ==> Strict(s).fields["properties"] == StrictField(s, "properties");
  }

  lemma {:induction false} PropertyGated(s: Json, p: string)
    requires s.Obj? && p in PropertiesIn(Strict(s).fields)
    ensures EveryObjectGated(PropertiesIn(Strict(s).fields)[p])
    decreases s, 1
  {
    var m, n := s.fields, Strict(s).fields;
    SameObjects(m);
    OddStays(s);
    assert ObjectLike(m) by { AddedStable(s); SameObjects(n); }
    PropertiesStrict(s);
    hide EveryObjectGated, Strict, MakeNullable;
    var x := Strict(PropertiesIn(m)[p]);
    StrictEveryObjectGated(PropertiesIn(m)[p]);
    NullableGated(x);
  }

  /** A schema is left as it is exactly when every object schema in it is gated already. */
  lemma {:induction false} StrictFixedExactly(s: Json)
    ensures Strict(s) == s <==> EveryObjectGated(s)
  {
    hide EveryObjectGated, Strict;
    StrictEveryObjectGated(s);
    if EveryObjectGated(s) {
      GatedBecameItself(s);
      StrictIsGatedEverywhere(s, s);
    }
  }

  lemma {:induction false} GatedBecameItself(s: Json)
    requires EveryObjectGated(s)
    ensures Became(s, s)
    decreases s
  {
    if s.Obj? {
      var m := s.fields;
      forall k | k in m && !TakenOver(m, k) ensures BecameAt(s, k, m[k]) {
        if HoldsSchema(k) {
          GatedBecameItself(m[k]);
        } else if HoldsList(k) && m[k].Arr? {
          forall i | 0 <= i < |m[k].items| ensures Became(m[k].items[i], m[k].items[i]) {
            GatedBecameItself(m[k].items[i]);
          }
        } else if HoldsDefinitions(k) && m[k].Obj? {
          forall d | d in m[k].fields ensures Became(m[k].fields[d], m[k].fields[d]) {
            GatedBecameItself(m[k].fields[d]);
          }
        }
      }
      forall p | p in PropertiesIn(m) ensures Became(PropertiesIn(m)[p], PropertiesIn(m)[p]) {
        GatedBecameItself(PropertiesIn(m)[p]);
      }
      if ObjectLike(m) { ItselfGated(s); }
      assert (set k | k in TAKEABLE && TakenOver(m, k)) <= m.Keys;
    }
  }

  lemma {:induction false} ItselfGated(s: Json)
    requires s.Obj? && ObjectLike(s.fields) && GatedHere(s.fields)
    requires forall p | p in PropertiesIn(s.fields) :: Became(PropertiesIn(s.fields)[p], PropertiesIn(s.fields)[p])
    ensures BecameGated(s, s.fields)
  {
    hide Became;
    var m := s.fields;
    if !OddProperties(m) {
      NamesRequired(Sorted(PropertiesIn(m).Keys), m);
      forall p | p in PropertiesIn(m) ensures BecameProperty(s, p, m["properties"].fields[p]) {
        SameListed(m, p);
      }
    }
  }
}

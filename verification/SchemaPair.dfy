/** The two gates as a pair: the backend answers under the strict schema, and what reaches the client
    after null removal is valid under the client's own schema. */
module SchemaPair {
  import opened Json
  import opened StrictSchema
  import opened ResponseGate

  /** What the remaining keywords of a schema (enum, pattern, minimum, minProperties, ...) say about a value. */
  type KeywordRule = (Json, Fields) -> bool

  const STRUCTURE := {"type", "anyOf", "properties", "required", "additionalProperties", "items"}

  /** Keywords that change what `additionalProperties` and `items` apply to. */
  const SHIFTING := {"patternProperties", "unevaluatedProperties", "prefixItems", "additionalItems", "unevaluatedItems"}

  // ----- JSON Schema 2020-12 validity for the keywords the gates touch -----

  predicate IsType(v: Json, name: Text) {
    match v
    case Null => name == Lit("null")
    case Bool(_) => name == Lit("boolean")
    case Num(n) => name == Lit("number") || (name == Lit("integer") && n == n.Floor as real)
    case Str(_) => name == Lit("string")
    case Arr(_) => name == Lit("array")
    case Obj(_) => name == Lit("object")
  }

  /** Section 6.1.1 of Validation. */
  predicate TypeOk(v: Json, t: Json) {
    match t
    case Str(name) => IsType(v, name)
    case Arr(types) => exists i | 0 <= i < |types| :: types[i].Str? && IsType(v, types[i].s)
    case _ => true
  }

  predicate Valid(v: Json, s: Json, rule: KeywordRule)
    decreases s, 1
  {
    match s
    case Bool(b) => b
    case Obj(m) =>
      && ("type" in m ==> TypeOk(v, m["type"]))
      && ("anyOf" in m && m["anyOf"].Arr? ==>
            exists i | 0 <= i < |m["anyOf"].items| :: Valid(v, m["anyOf"].items[i], rule))
      && (v.Obj? ==> ValidObject(v.fields, s, rule))
      && (v.Arr? && "items" in m ==> forall i | 0 <= i < |v.items| :: Valid(v.items[i], m["items"], rule))
      && (m.Keys - STRUCTURE != {} ==> rule(v, m - STRUCTURE))
    case _ => true
  }

  /** Section 6.5.3 of Validation and sections 10.3.2.1 and 10.3.2.3 of Core. */
  predicate ValidObject(v: Fields, s: Json, rule: KeywordRule)
    requires s.Obj?
    decreases s, 0
  {
    var props := PropertiesOf(s);
    && (forall k | k in v && k in props :: Valid(v[k], props[k], rule))
    && (forall r | r in RequiredNames(s.fields) :: Has(v, r))
    && ("additionalProperties" in s.fields ==>
          forall k | k in v && k !in props :: Valid(v[k], s.fields["additionalProperties"], rule))
  }

  predicate Has(v: Fields, name: Text) {
    exists k | k in v :: Lit(k) == name
  }

  /** Object, array and primitive schemas, nested to any depth. */
  predicate Shaped(s: Json)
    decreases s
  {
    match s
    case Bool(_) => true
    case Obj(m) =>
      && "anyOf" !in m && "$ref" !in m && m.Keys !! SHIFTING
      && (forall k | k in m && k !in STRUCTURE ::
           k !in SUBSCHEMA_KEYS && k !in COMBINATOR_KEYS && k !in DEFINITION_KEYS)
      && ("properties" in m ==> m["properties"].Obj? && forall p | p in m["properties"].fields ::
           Shaped(m["properties"].fields[p]))
      && ("items" in m ==> Shaped(m["items"]))
      && (!IsObjectSchema(m) && "additionalProperties" in m ==> m["additionalProperties"].Bool?)
    case _ => false
  }

  /** Every required name is declared. */
  predicate NamesDeclared(s: Json)
    requires s.Obj?
  {
    forall r | r in RequiredNames(s.fields) :: Has(PropertiesOf(s), r)
  }

  /** So are the required names of every object schema inside. */
  predicate AllDeclared(s: Json)
    decreases s
  {
    s.Obj? ==>
      && (IsObjectSchema(s.fields) ==> NamesDeclared(s))
      && (forall p | p in PropertiesOf(s) :: AllDeclared(PropertiesOf(s)[p]))
      && ("items" in s.fields ==> AllDeclared(s.fields["items"]))
  }

  predicate Supported(s: Json) {
    Shaped(s) && AllDeclared(s)
  }

  /** Every object in the value meets a schema whose required names are all declared. */
  predicate Covered(v: Json, s: Json)
    decreases s
  {
    s.Obj? ==>
      && (v.Obj? ==>
           && (IsObjectSchema(s.fields) ==> NamesDeclared(s))
           && forall k | k in v.fields && k in PropertiesOf(s) :: Covered(v.fields[k], PropertiesOf(s)[k]))
      && (v.Arr? && "items" in s.fields ==> forall i | 0 <= i < |v.items| :: Covered(v.items[i], s.fields["items"]))
  }

  /** The other keywords accept what null removal leaves of an object or array. */
  predicate KeywordsHere(v: Json, s: Json, rule: KeywordRule)
    requires s.Obj?
  {
    (v.Obj? || v.Arr?) && s.fields.Keys - STRUCTURE != {} ==> rule(RemoveNulls(v, s), s.fields - STRUCTURE)
  }

  predicate KeywordsInside(v: Json, s: Json, rule: KeywordRule)
    requires s.Obj?
    decreases s, 0
  {
    && (v.Obj? ==> forall k | k in v.fields && k in PropertiesOf(s) ::
         KeywordsHold(v.fields[k], PropertiesOf(s)[k], rule))
    && (v.Arr? && "items" in s.fields ==> forall i | 0 <= i < |v.items| ::
         KeywordsHold(v.items[i], s.fields["items"], rule))
  }

  /** They do so at every depth. */
  predicate KeywordsHold(v: Json, s: Json, rule: KeywordRule)
    decreases s, 1
  {
    s.Obj? ==> KeywordsHere(v, s, rule) && KeywordsInside(v, s, rule)
  }

  /** Where all names are declared every value is covered. */
  lemma {:induction false} DeclaredCovers(v: Json, s: Json)
    requires AllDeclared(s)
    ensures Covered(v, s)
    decreases s
  {
    if s.Obj? && v.Obj? {
      forall k | k in v.fields && k in PropertiesOf(s) ensures Covered(v.fields[k], PropertiesOf(s)[k]) {
        DeclaredCovers(v.fields[k], PropertiesOf(s)[k]);
      }
    }
    if s.Obj? && v.Arr? && "items" in s.fields {
      forall i | 0 <= i < |v.items| ensures Covered(v.items[i], s.fields["items"]) {
        DeclaredCovers(v.items[i], s.fields["items"]);
      }
    }
  }

  // ----- what the strict form of a supported schema looks like -----

  lemma {:induction false} StrictKeeps(s: Json, k: string)
    requires s.Obj? && k in s.fields && k !in Added(s.fields)
    requires k !in SUBSCHEMA_KEYS && k !in COMBINATOR_KEYS && k !in DEFINITION_KEYS
    ensures k in Strict(s).fields && Strict(s).fields[k] == s.fields[k]
  {
    assert Strict(s).fields[k] == StrictField(s, k);
  }

  lemma {:induction false} StrictShape(s: Json)
    requires Shaped(s) && s.Obj?
    ensures var m, n := s.fields, Strict(s).fields;
            && n - STRUCTURE == m - STRUCTURE
            && n.Keys - STRUCTURE == m.Keys - STRUCTURE
            && ("type" in n <==> "type" in m) && ("type" in m ==> n["type"] == m["type"])
            && "anyOf" !in n
            && ("items" in n <==> "items" in m) && ("items" in m ==> n["items"] == Strict(m["items"]))
  {
    var m, n := s.fields, Strict(s).fields;
    assert n.Keys == m.Keys + Added(m);
    assert Added(m) <= STRUCTURE;
    forall k | k in m && k !in STRUCTURE ensures n[k] == m[k] {
      StrictKeeps(s, k);
    }
    assert n - STRUCTURE == m - STRUCTURE;
    if "type" in m { StrictKeeps(s, "type"); }
    if "items" in m { assert n["items"] == StrictField(s, "items"); }
  }

  lemma {:induction false} StrictObjectShape(s: Json)
    requires Shaped(s) && s.Obj? && IsObjectSchema(s.fields)
    ensures var n := Strict(s).fields;
            && "additionalProperties" in n && n["additionalProperties"] == Bool(false)
            && PropertiesOf(Strict(s)) == StrictProperties(Obj(PropertiesOf(s)), RequiredNames(s.fields))
            && forall p | p in PropertiesOf(s) :: Lit(p) in RequiredNames(n)
  {
    var n := Strict(s).fields;
    assert n["additionalProperties"] == StrictField(s, "additionalProperties");
    GatedNames(s);
    assert Declared(n) == PropertiesOf(s).Keys;
    if "properties" !in s.fields {
      assert StrictProperties(Obj(map[]), RequiredNames(s.fields)) == map[];
    }
  }

  /** The strict form requires declared names only. */
  lemma {:induction false} StrictRequires(s: Json, r: Text)
    requires Shaped(s) && s.Obj? && IsObjectSchema(s.fields) && r in RequiredNames(Strict(s).fields)
    ensures exists p :: p in PropertiesOf(s) && Lit(p) == r
  {
    GatedNames(s);
    var n := Strict(s).fields;
    RequiredNamed(Sorted(Declared(n)), n, r);
    var i :| 0 <= i < |Sorted(Declared(n))| && Lit(Sorted(Declared(n))[i]) == r;
    assert Sorted(Declared(n))[i] in PropertiesOf(s);
  }

  lemma {:induction false} StrictPlainShape(s: Json)
    requires Shaped(s) && s.Obj? && !IsObjectSchema(s.fields)
    ensures var m, n := s.fields, Strict(s).fields;
            && PropertiesOf(Strict(s)) == PropertiesOf(s) == map[]
            && RequiredNames(n) == RequiredNames(m)
            && ("additionalProperties" in n <==> "additionalProperties" in m)
            && ("additionalProperties" in m ==> n["additionalProperties"] == m["additionalProperties"])
  {
    var m, n := s.fields, Strict(s).fields;
    assert "additionalProperties" in m ==> n["additionalProperties"] == StrictField(s, "additionalProperties");
    assert "required" in m ==> n["required"] == StrictField(s, "required");
  }

  // ----- making a schema nullable adds null and nothing else -----

  /** When the nullable form of a schema accepts null: its type never stands in the way, but what stays
      beside the type does. */
  predicate AdmitsNull(t: Json, rule: KeywordRule) {
    if !t.Obj? then Valid(Null, t, rule)
    else
      var m := t.fields;
      "type" in m ==>
        && ("anyOf" in m && m["anyOf"].Arr? ==> exists i | 0 <= i < |m["anyOf"].items| ::
             Valid(Null, m["anyOf"].items[i], rule))
        && (m.Keys - STRUCTURE != {} ==> rule(Null, m - STRUCTURE))
  }

  /** The nullable form accepts what the schema accepts, and null as far as other keywords allow. */
  lemma {:induction false} NullableExact(v: Json, t: Json, rule: KeywordRule)
    ensures v != Null ==> (Valid(v, MakeNullable(t), rule) <==> Valid(v, t, rule))
    ensures v == Null ==> (Valid(v, MakeNullable(t), rule) <==> AdmitsNull(t, rule))
  {
    if v == Null {
      NullAdmitted(t, rule);
    } else if t.Obj? {
      var m := t.fields;
      if "type" !in m {
        WrapExact(v, t, rule);
      } else if MakeNullable(t) != t {
        var types := MakeNullable(t).fields["type"].items;
        var m' := m["type" := Arr(types)];
        assert MakeNullable(t) == Obj(m') && m' - STRUCTURE == m - STRUCTURE;
        assert RequiredNames(m') == RequiredNames(m) && PropertiesOf(Obj(m')) == PropertiesOf(t);
        WidenedType(v, m["type"], types);
      }
    }
  }

  lemma {:induction false} NullAdmitted(t: Json, rule: KeywordRule)
    ensures Valid(Null, MakeNullable(t), rule) <==> AdmitsNull(t, rule)
  {
    if t.Obj? {
      var m := t.fields;
      var nullType := Obj(map["type" := NULL_TYPE]);
      if "type" !in m {
        var w := map["anyOf" := Arr([t, nullType])];
        assert MakeNullable(t) == Obj(w) && w.Keys - STRUCTURE == {};
        assert nullType.fields.Keys - STRUCTURE == {};
        assert Valid(Null, w["anyOf"].items[1], rule);
      } else {
        var m' := MakeNullable(t).fields;
        assert m' - STRUCTURE == m - STRUCTURE && m'.Keys == m.Keys;
        assert TypeOk(Null, m'["type"]) by { NullTypeOk(m["type"], m'["type"]); }
      }
    }
  }

  lemma {:induction false} NullTypeOk(before: Json, after: Json)
    requires after == match before
      case Str(t) => if t == Lit("null") then before else Arr([before, NULL_TYPE])
      case Arr(types) => if NULL_TYPE in types then before else Arr(types + [NULL_TYPE])
      case _ => before
    ensures TypeOk(Null, after)
  {
    if before.Str? && before.s != Lit("null") {
      assert after.items[1] == NULL_TYPE;
    } else if before.Arr? && NULL_TYPE in before.items {
      var i :| 0 <= i < |before.items| && before.items[i] == NULL_TYPE;
    } else if before.Arr? {
      assert after.items[|before.items|] == NULL_TYPE;
    }
  }

  lemma {:induction false} WidenedType(v: Json, t: Json, types: seq<Json>)
    requires v != Null
    requires (t.Str? && types == [t, NULL_TYPE]) || (t.Arr? && types == t.items + [NULL_TYPE])
    ensures TypeOk(v, Arr(types)) <==> TypeOk(v, t)
  {
    NullNamesOnlyNull(v);
    if t.Str? && TypeOk(v, t) { assert types[0].Str?; }
    if t.Arr? && TypeOk(v, t) {
      var i :| 0 <= i < |t.items| && t.items[i].Str? && IsType(v, t.items[i].s);
      assert types[i] == t.items[i];
    }
  }

  lemma {:induction false} NullNamesOnlyNull(v: Json)
    requires v != Null
    ensures !IsType(v, Lit("null"))
  {
    assert |Lit("null")| == 4 && |Lit("boolean")| == 7 && |Lit("number")| == 6 && |Lit("integer")| == 7;
    assert |Lit("string")| == 6 && |Lit("array")| == 5 && |Lit("object")| == 6;
  }

  lemma {:induction false} WrapExact(v: Json, t: Json, rule: KeywordRule)
    requires v != Null && t.Obj? && "type" !in t.fields
    ensures Valid(v, MakeNullable(t), rule) <==> Valid(v, t, rule)
  {
    NullNamesOnlyNull(v);
    var nullType := Obj(map["type" := NULL_TYPE]);
    assert !Valid(v, nullType, rule);
    var w := map["anyOf" := Arr([t, nullType])];
    assert MakeNullable(t) == Obj(w) && w.Keys - STRUCTURE == {};
    assert PropertiesOf(Obj(w)) == map[] && RequiredNames(w) == {};
    if Valid(v, t, rule) { assert Valid(v, w["anyOf"].items[0], rule); }
  }

  // ----- soundness -----

  /** Whatever the backend may answer under the strict schema is, once its null optional fields are
      removed, valid under the client's schema exactly when every object in it meets a schema whose
      required names are declared, and no keyword on an object or array rejects what the removal leaves. */
  lemma {:induction false} SoundExactly(v: Json, s: Json, rule: KeywordRule)
    requires Shaped(s) && Valid(v, Strict(s), rule)
    ensures Valid(RemoveNulls(v, s), s, rule) <==> Covered(v, s) && KeywordsHold(v, s, rule)
    decreases s, 1
  {
    if s.Obj? {
      StrictShape(s);
      match v {
        case Obj(fields) => SoundObject(fields, s, rule);
        case Arr(items) => SoundArray(items, s, rule);
        case _ => SoundScalar(v, s, rule);
      }
    }
  }

  lemma {:induction false} SoundArray(v: seq<Json>, s: Json, rule: KeywordRule)
    requires Shaped(s) && s.Obj? && Valid(Arr(v), Strict(s), rule)
    ensures Valid(RemoveNulls(Arr(v), s), s, rule) <==> Covered(Arr(v), s) && KeywordsHold(Arr(v), s, rule)
    decreases s, 0
  {
    StrictShape(s);
    if "items" in s.fields {
      var item := s.fields["items"];
      forall i | 0 <= i < |v|
        ensures Valid(RemoveNulls(v[i], item), item, rule) <==> Covered(v[i], item) && KeywordsHold(v[i], item, rule)
      {
        SoundExactly(v[i], item, rule);
      }
      var kept := RemoveNulls(Arr(v), s).items;
      assert forall i | 0 <= i < |v| :: kept[i] == RemoveNulls(v[i], item);
    }
  }

  lemma {:induction false} SoundScalar(v: Json, s: Json, rule: KeywordRule)
    requires Shaped(s) && s.Obj? && !v.Obj? && !v.Arr? && Valid(v, Strict(s), rule)
    ensures Valid(RemoveNulls(v, s), s, rule) && Covered(v, s) && KeywordsHold(v, s, rule)
  {
    StrictShape(s);
  }

  lemma {:induction false} SoundObject(v: Fields, s: Json, rule: KeywordRule)
    requires Shaped(s) && s.Obj? && ValidObject(v, Strict(s), rule)
    ensures ValidObject(RemoveNulls(Obj(v), s).fields, s, rule)
      <==> Covered(Obj(v), s) && KeywordsInside(Obj(v), s, rule)
    decreases s, 0
  {
    var m := s.fields;
    var kept := RemoveNulls(Obj(v), s).fields;
    if !IsObjectSchema(m) {
      StrictPlainShape(s);
      assert kept == v;
    } else {
      var props := PropertiesOf(s);
      forall k | k in kept ensures k in props {
        StrictClosed(v, s, k, rule);
      }
      forall k | k in v && k in props
        ensures k !in kept ==> Covered(v[k], props[k]) && KeywordsHold(v[k], props[k], rule)
        ensures k in kept ==>
          (Valid(kept[k], props[k], rule) <==> Covered(v[k], props[k]) && KeywordsHold(v[k], props[k], rule))
      {
        StrictAnswer(v, s, k, rule);
        if k in kept { PropertySound(v[k], props[k], Lit(k) in RequiredNames(m), rule); }
      }
      NamesKept(v, s, rule);
    }
  }

  /** The names that null removal keeps are the declared ones it must keep. */
  lemma {:induction false} NamesKept(v: Fields, s: Json, rule: KeywordRule)
    requires Shaped(s) && s.Obj? && IsObjectSchema(s.fields) && ValidObject(v, Strict(s), rule)
    ensures var kept := RemoveNulls(Obj(v), s).fields;
            (forall r | r in RequiredNames(s.fields) :: Has(kept, r)) <==> NamesDeclared(s)
  {
    var kept, props := RemoveNulls(Obj(v), s).fields, PropertiesOf(s);
    forall r | r in RequiredNames(s.fields) ensures Has(kept, r) <==> Has(props, r) {
      if p :| p in props && Lit(p) == r {
        StrictAnswer(v, s, p, rule);
        assert p in kept;
      }
      if p :| p in kept && Lit(p) == r {
        StrictClosed(v, s, p, rule);
      }
    }
  }

  /** Null removal never turns a keyword on an object or array against the value. */
  ghost predicate Removable(s: Json, rule: KeywordRule)
    decreases s
  {
    s.Obj? ==>
      && (forall v: Json | v.Obj? || v.Arr? ::
           rule(v, s.fields - STRUCTURE) ==> rule(RemoveNulls(v, s), s.fields - STRUCTURE))
      && (forall p | p in PropertiesOf(s) :: Removable(PropertiesOf(s)[p], rule))
      && ("items" in s.fields ==> Removable(s.fields["items"], rule))
  }

  /** In particular, where all required names are declared and null removal agrees with the keywords on
      objects and arrays, always. */
  lemma {:induction false} Sound(v: Json, s: Json, rule: KeywordRule)
    requires Supported(s) && Removable(s, rule) && Valid(v, Strict(s), rule)
    ensures Valid(RemoveNulls(v, s), s, rule)
  {
    DeclaredCovers(v, s);
    RemovableHolds(v, s, rule);
    SoundExactly(v, s, rule);
  }

  lemma {:induction false} RemovableHolds(v: Json, s: Json, rule: KeywordRule)
    requires Shaped(s) && Removable(s, rule) && Valid(v, Strict(s), rule)
    ensures KeywordsHold(v, s, rule)
    decreases s
  {
    if s.Obj? {
      StrictShape(s);
      if v.Obj? {
        forall k | k in v.fields && k in PropertiesOf(s) ensures KeywordsHold(v.fields[k], PropertiesOf(s)[k], rule) {
          var p := PropertiesOf(s)[k];
          if v.fields[k] != Null {
            StrictAnswer(v.fields, s, k, rule);
            NullableExact(v.fields[k], Strict(p), rule);
            RemovableHolds(v.fields[k], p, rule);
          }
        }
      }
      if v.Arr? && "items" in s.fields {
        forall i | 0 <= i < |v.items| ensures KeywordsHold(v.items[i], s.fields["items"], rule) {
          RemovableHolds(v.items[i], s.fields["items"], rule);
        }
      }
    }
  }

  /** The rule for scalars alone. */
  function ScalarsOnly(rule: KeywordRule): KeywordRule {
    (v: Json, keywords: Fields) => v.Obj? || v.Arr? || rule(v, keywords)
  }

  lemma {:induction false} ScalarsOnlyRemovable(s: Json, rule: KeywordRule)
    ensures Removable(s, ScalarsOnly(rule))
    decreases s
  {
    if s.Obj? {
      forall p | p in PropertiesOf(s) ensures Removable(PropertiesOf(s)[p], ScalarsOnly(rule)) {
        ScalarsOnlyRemovable(PropertiesOf(s)[p], rule);
      }
      if "items" in s.fields { ScalarsOnlyRemovable(s.fields["items"], rule); }
    }
  }

  /** An object valid under a gated schema has every declared property, in its strict form. */
  lemma {:induction false} StrictAnswer(v: Fields, s: Json, p: string, rule: KeywordRule)
    requires Shaped(s) && s.Obj? && IsObjectSchema(s.fields) && ValidObject(v, Strict(s), rule)
    requires p in PropertiesOf(s)
    ensures p in v
    ensures var strict := Strict(PropertiesOf(s)[p]);
            Valid(v[p], if Lit(p) in RequiredNames(s.fields) then strict else MakeNullable(strict), rule)
  {
    StrictObjectShape(s);
    assert Lit(p) in RequiredNames(Strict(s).fields);
    var k :| k in v && Lit(k) == Lit(p);
    LitInjective(k, p);
    assert Valid(v[p], PropertiesOf(Strict(s))[p], rule);
  }

  lemma {:induction false} StrictClosed(v: Fields, s: Json, k: string, rule: KeywordRule)
    requires Shaped(s) && s.Obj? && IsObjectSchema(s.fields) && ValidObject(v, Strict(s), rule) && k in v
    ensures k in PropertiesOf(s)
  {
    StrictObjectShape(s);
    assert !Valid(v[k], Bool(false), rule);
  }

  lemma {:induction false} PropertySound(v: Json, p: Json, required: bool, rule: KeywordRule)
    requires Shaped(p) && (required || v != Null)
    requires Valid(v, if required then Strict(p) else MakeNullable(Strict(p)), rule)
    ensures Valid(RemoveNulls(v, p), p, rule) <==> Covered(v, p) && KeywordsHold(v, p, rule)
    decreases p, 2
  {
    if !required { NullableExact(v, Strict(p), rule); }
    SoundExactly(v, p, rule);
  }

  // ----- exactness: which values can come back -----

  /** The values the pair can deliver: valid but for the keywords on objects and arrays, which judge the
      answer before null removal; free of undeclared properties and of explicit nulls in optional ones;
      and omitting only properties whose nullable form really admits null. */
  predicate Deliverable(v: Json, s: Json, rule: KeywordRule)
    decreases s
  {
    && Valid(v, s, ScalarsOnly(rule))
    && (s.Obj? && s.fields.Keys - STRUCTURE != {} ==> rule(Fill(v, s), s.fields - STRUCTURE))
    && (s.Obj? && v.Obj? && IsObjectSchema(s.fields) ==>
         var props := PropertiesOf(s);
         && (forall k | k in v.fields :: k in props)
         && forall p | p in props ::
              if p in v.fields
              then Deliverable(v.fields[p], props[p], rule) && !NullOptional(v.fields, s, p)
              else Valid(Null, MakeNullable(Strict(props[p])), rule))
    && (s.Obj? && v.Arr? && "items" in s.fields ==>
         forall i | 0 <= i < |v.items| :: Deliverable(v.items[i], s.fields["items"], rule))
  }

  /** The strict answer that stands for a deliverable value: a null for every omitted property. */
  function Fill(v: Json, s: Json): Json
    decreases s
  {
    if !s.Obj? then v
    else match v
      case Obj(m) =>
        var props := PropertiesOf(s);
        if !IsObjectSchema(s.fields) then v
        else Obj(map p | p in props :: if p in m then Fill(m[p], props[p]) else Null)
      case Arr(items) =>
        if "items" !in s.fields then v
        else Arr(seq(|items|, i requires 0 <= i < |items| => Fill(items[i], s.fields["items"])))
      case _ => v
  }

  ghost predicate Answers(w: Json, v: Json, s: Json, rule: KeywordRule) {
    Valid(w, Strict(s), rule) && RemoveNulls(w, s) == v
  }

  /** The pair delivers exactly the deliverable values. */
  lemma {:induction false} Exact(v: Json, s: Json, rule: KeywordRule)
    requires Supported(s)
    ensures (exists w :: Answers(w, v, s, rule)) <==> Deliverable(v, s, rule)
  {
    if Deliverable(v, s, rule) {
      Filled(v, s, rule);
      assert Answers(Fill(v, s), v, s, rule);
    }
    if w :| Answers(w, v, s, rule) {
      Delivered(w, s, rule);
    }
  }

  lemma {:induction false} Filled(v: Json, s: Json, rule: KeywordRule)
    requires Supported(s) && Deliverable(v, s, rule)
    ensures Answers(Fill(v, s), v, s, rule)
    decreases s, 1
  {
    if s.Obj? {
      if v.Obj? && IsObjectSchema(s.fields) {
        FilledObject(v.fields, s, rule);
        StrictShape(s);
      } else if v.Obj? {
        FilledPlain(v.fields, s, rule);
      } else if v.Arr? && "items" in s.fields {
        FilledArray(v.items, s, rule);
      } else {
        StrictShape(s);
      }
    }
  }

  lemma {:induction false} FilledArray(v: seq<Json>, s: Json, rule: KeywordRule)
    requires Supported(s) && s.Obj? && "items" in s.fields && Deliverable(Arr(v), s, rule)
    ensures Answers(Fill(Arr(v), s), Arr(v), s, rule)
    decreases s, 0
  {
    StrictShape(s);
    var item := s.fields["items"];
    forall i | 0 <= i < |v| ensures Answers(Fill(v[i], item), v[i], item, rule) {
      Filled(v[i], item, rule);
    }
    var w := Fill(Arr(v), s);
    assert RemoveNulls(w, s).items == v by {
      assert forall i | 0 <= i < |v| :: w.items[i] == Fill(v[i], item);
    }
  }

  lemma {:induction false} FilledPlain(v: Fields, s: Json, rule: KeywordRule)
    requires Supported(s) && s.Obj? && !IsObjectSchema(s.fields) && Valid(Obj(v), s, ScalarsOnly(rule))
    requires s.fields.Keys - STRUCTURE != {} ==> rule(Obj(v), s.fields - STRUCTURE)
    ensures Answers(Obj(v), Obj(v), s, rule)
  {
    StrictShape(s);
    StrictPlainShape(s);
    assert RemoveNulls(Obj(v), s).fields == v;
    assert ValidObject(v, s, ScalarsOnly(rule));
    forall r | r in RequiredNames(Strict(s).fields) ensures Has(v, r) {
      assert r in RequiredNames(s.fields);
    }
  }

  lemma {:induction false} FilledObject(v: Fields, s: Json, rule: KeywordRule)
    requires Supported(s) && s.Obj? && IsObjectSchema(s.fields) && Deliverable(Obj(v), s, rule)
    ensures ValidObject(Fill(Obj(v), s).fields, Strict(s), rule)
    ensures RemoveNulls(Fill(Obj(v), s), s) == Obj(v)
    decreases s, 0
  {
    var props, w := PropertiesOf(s), Fill(Obj(v), s).fields;
    forall p | p in props ensures FilledWell(v, s, p, rule) {
      if p in v {
        FilledProperty(v, s, p, rule);
      } else {
        OmittedIsOptional(v, s, p, ScalarsOnly(rule));
      }
    }
    forall p | p in props ensures p in PropertiesOf(Strict(s)) && Valid(w[p], PropertiesOf(Strict(s))[p], rule) {
      assert FilledWell(v, s, p, rule);
      StrictObjectShape(s);
    }
    forall r | r in RequiredNames(Strict(s).fields) ensures Has(w, r) {
      StrictRequires(s, r);
    }
    StrictObjectShape(s);
    FilledReturns(v, s, rule);
  }

  /** The filled property is a valid strict answer and comes back as it was. */
  ghost predicate FilledWell(v: Fields, s: Json, p: string, rule: KeywordRule)
    requires s.Obj? && p in PropertiesOf(s)
  {
    var prop := PropertiesOf(s)[p];
    var strict, required := Strict(prop), Lit(p) in RequiredNames(s.fields);
    var filled := if p in v then Fill(v[p], prop) else Null;
    && Valid(filled, if required then strict else MakeNullable(strict), rule)
    && (if p in v then RemoveNulls(filled, prop) == v[p] && (filled == Null ==> required) else !required)
  }

  lemma {:induction false} FilledReturns(v: Fields, s: Json, rule: KeywordRule)
    requires s.Obj? && IsObjectSchema(s.fields) && forall k | k in v :: k in PropertiesOf(s)
    requires forall p | p in PropertiesOf(s) :: FilledWell(v, s, p, rule)
    ensures RemoveNulls(Fill(Obj(v), s), s) == Obj(v)
  {
    var w := Fill(Obj(v), s).fields;
    forall p | p in PropertiesOf(s) ensures NullOptional(w, s, p) <==> p !in v {
      assert FilledWell(v, s, p, rule);
    }
    assert RemoveNulls(Obj(w), s).fields == v;
  }

  lemma {:induction false} FilledProperty(v: Fields, s: Json, p: string, rule: KeywordRule)
    requires Supported(s) && s.Obj? && IsObjectSchema(s.fields) && Deliverable(Obj(v), s, rule)
    requires p in PropertiesOf(s) && p in v
    ensures FilledWell(v, s, p, rule)
    decreases s, 0, 0
  {
    var prop := PropertiesOf(s)[p];
    Filled(v[p], prop, rule);
    if Lit(p) !in RequiredNames(s.fields) { NullableExact(Fill(v[p], prop), Strict(prop), rule); }
  }

  lemma {:induction false} OmittedIsOptional(v: Fields, s: Json, p: string, rule: KeywordRule)
    requires s.Obj? && ValidObject(v, s, rule) && p !in v
    ensures Lit(p) !in RequiredNames(s.fields)
  {
    if Lit(p) in RequiredNames(s.fields) {
      var k :| k in v && Lit(k) == Lit(p);
      LitInjective(k, p);
      assert false;
    }
  }

  lemma {:induction false} ScalarsRelaxed(v: Json, s: Json, rule: KeywordRule)
    requires Valid(v, s, rule)
    ensures Valid(v, s, ScalarsOnly(rule))
    decreases s
  {
    if s.Obj? {
      var m, props := s.fields, PropertiesOf(s);
      if "anyOf" in m && m["anyOf"].Arr? {
        var i :| 0 <= i < |m["anyOf"].items| && Valid(v, m["anyOf"].items[i], rule);
        ScalarsRelaxed(v, m["anyOf"].items[i], rule);
      }
      if v.Obj? {
        forall k | k in v.fields && k in props ensures Valid(v.fields[k], props[k], ScalarsOnly(rule)) {
          ScalarsRelaxed(v.fields[k], props[k], rule);
        }
        if "additionalProperties" in m {
          forall k | k in v.fields && k !in props
            ensures Valid(v.fields[k], m["additionalProperties"], ScalarsOnly(rule))
          {
            ScalarsRelaxed(v.fields[k], m["additionalProperties"], rule);
          }
        }
      }
      if v.Arr? && "items" in m {
        forall i | 0 <= i < |v.items| ensures Valid(v.items[i], m["items"], ScalarsOnly(rule)) {
          ScalarsRelaxed(v.items[i], m["items"], rule);
        }
      }
    }
  }

  /** Null removal loses nothing: the strict answer is what comes back with its omissions filled in. */
  lemma {:induction false} FillRestores(w: Json, s: Json, rule: KeywordRule)
    requires Shaped(s) && Valid(w, Strict(s), rule)
    ensures Fill(RemoveNulls(w, s), s) == w
    decreases s
  {
    if s.Obj? {
      StrictShape(s);
      if w.Obj? {
        if IsObjectSchema(s.fields) {
          RestoredFields(w.fields, s, rule);
        } else {
          assert RemoveNulls(w, s).fields == w.fields;
        }
      } else if w.Arr? && "items" in s.fields {
        forall i | 0 <= i < |w.items|
          ensures Fill(RemoveNulls(w.items[i], s.fields["items"]), s.fields["items"]) == w.items[i]
        {
          FillRestores(w.items[i], s.fields["items"], rule);
        }
        assert Fill(RemoveNulls(w, s), s).items == w.items;
      }
    }
  }

  lemma {:induction false} RestoredFields(w: Fields, s: Json, rule: KeywordRule)
    requires Shaped(s) && s.Obj? && IsObjectSchema(s.fields) && ValidObject(w, Strict(s), rule)
    ensures Fill(RemoveNulls(Obj(w), s), s) == Obj(w)
    decreases s, 0
  {
    var props, filled := PropertiesOf(s), Fill(RemoveNulls(Obj(w), s), s).fields;
    forall k | k in w ensures k in props { StrictClosed(w, s, k, rule); }
    forall p | p in props ensures p in w && filled[p] == w[p] {
      StrictAnswer(w, s, p, rule);
      if !NullOptional(w, s, p) {
        if Lit(p) !in RequiredNames(s.fields) { NullableExact(w[p], Strict(props[p]), rule); }
        FillRestores(w[p], props[p], rule);
      }
    }
    assert filled == w;
  }

  lemma {:induction false} Delivered(w: Json, s: Json, rule: KeywordRule)
    requires Supported(s) && Valid(w, Strict(s), rule)
    ensures Deliverable(RemoveNulls(w, s), s, rule)
    decreases s, 1
  {
    ScalarsRelaxed(w, Strict(s), rule);
    ScalarsOnlyRemovable(s, rule);
    Sound(w, s, ScalarsOnly(rule));
    FillRestores(w, s, rule);
    if s.Obj? {
      StrictShape(s);
      match w {
        case Obj(fields) =>
          if IsObjectSchema(s.fields) { DeliveredObject(fields, s, rule); }
        case Arr(items) =>
          if "items" in s.fields {
            forall i | 0 <= i < |items|
              ensures Deliverable(RemoveNulls(items[i], s.fields["items"]), s.fields["items"], rule)
            {
              Delivered(items[i], s.fields["items"], rule);
            }
          }
        case _ =>
      }
    }
  }

  lemma {:induction false} DeliveredObject(w: Fields, s: Json, rule: KeywordRule)
    requires Supported(s) && s.Obj? && IsObjectSchema(s.fields) && ValidObject(w, Strict(s), rule)
    ensures var kept, props := RemoveNulls(Obj(w), s).fields, PropertiesOf(s);
            && (forall k | k in kept :: k in props)
            && forall p | p in props ::
                 if p in kept then Deliverable(kept[p], props[p], rule) && !NullOptional(kept, s, p)
                 else Valid(Null, MakeNullable(Strict(props[p])), rule)
    decreases s, 0
  {
    var kept, props := RemoveNulls(Obj(w), s).fields, PropertiesOf(s);
    forall k | k in kept ensures k in props { StrictClosed(w, s, k, rule); }
    forall p | p in props
      ensures if p in kept then Deliverable(kept[p], props[p], rule) && !NullOptional(kept, s, p)
              else Valid(Null, MakeNullable(Strict(props[p])), rule)
    {
      StrictAnswer(w, s, p, rule);
      if p in kept {
        if Lit(p) !in RequiredNames(s.fields) { NullableExact(w[p], Strict(props[p]), rule); }
        Delivered(w[p], props[p], rule);
      }
    }
  }

  // ----- two limits of the pair -----

  /** `minProperties` (section 6.5.2 of Validation). */
  function AtLeast(v: Json, keywords: Fields): bool {
    v.Obj? && "minProperties" in keywords && keywords["minProperties"].Num? ==>
      |v.fields| as real >= keywords["minProperties"].n
  }

  /** With `minProperties` an answer comes back valid exactly when, besides, enough properties are left once the
      null optional ones are removed. */
  lemma {:induction false} MinPropertiesExactly(v: Fields, s: Json, n: real)
    requires Shaped(s) && s.Obj? && IsObjectSchema(s.fields) && Valid(Obj(v), Strict(s), AtLeast)
    requires "minProperties" in s.fields && s.fields["minProperties"] == Num(n)
    ensures Valid(RemoveNulls(Obj(v), s), s, AtLeast)
      <==> && Covered(Obj(v), s) && KeywordsInside(Obj(v), s, AtLeast)
           && |v| as real - |set k | k in v && NullOptional(v, s, k)| as real >= n
  {
    hide Valid, Covered, KeywordsHere, KeywordsInside, NullOptional, RemoveNulls, Strict, Shaped, AtLeast;
    SoundExactly(Obj(v), s, AtLeast);
    CountKept(v, s);
    MinimumHere(v, s, n);
  }

  lemma {:induction false} MinimumHere(v: Fields, s: Json, n: real)
    requires s.Obj? && "minProperties" in s.fields && s.fields["minProperties"] == Num(n)
    ensures RemoveNulls(Obj(v), s).Obj?
    ensures KeywordsHere(Obj(v), s, AtLeast) <==> |RemoveNulls(Obj(v), s).fields| as real >= n
  {
    CountKept(v, s);
    hide RemoveNulls;
    assert "minProperties" in s.fields.Keys - STRUCTURE;
    assert "minProperties" in s.fields - STRUCTURE;
  }

  lemma {:induction false} CountKept(v: Fields, s: Json)
    requires s.Obj?
    ensures RemoveNulls(Obj(v), s).Obj?
    ensures |RemoveNulls(Obj(v), s).fields| == |v| - |set k | k in v && NullOptional(v, s, k)|
  {
    hide NullOptional;
    var kept, removed := RemoveNulls(Obj(v), s).fields, set k | k in v && NullOptional(v, s, k);
    assert kept.Keys == v.Keys - removed && removed <= v.Keys;
    assert |kept| == |kept.Keys| && |v| == |v.Keys|;
  }

  const ONE_OPTIONAL :=
    map["type" := Str(Lit("object")), "properties" := Obj(map["a" := Obj(map[])]), "minProperties" := Num(1.0)]

  /** So a schema with one optional property and a minimum of one turns a null answer into an invalid one. */
  lemma {:induction false} MinPropertiesFails()
    ensures Supported(Obj(ONE_OPTIONAL))
    ensures Valid(Obj(map["a" := Null]), Strict(Obj(ONE_OPTIONAL)), AtLeast)
    ensures !Valid(RemoveNulls(Obj(map["a" := Null]), Obj(ONE_OPTIONAL)), Obj(ONE_OPTIONAL), AtLeast)
  {
    var s := Obj(ONE_OPTIONAL);
    OneOptional();
    EmptyDelivered();
    FilledWithNull();
    Filled(Obj(map[]), s, AtLeast);
    EmptyIsTooFew();
  }

  lemma {:induction false} OneOptional()
    ensures var s := Obj(ONE_OPTIONAL);
            && PropertiesOf(s) == map["a" := Obj(map[])] && RequiredNames(ONE_OPTIONAL) == {}
            && IsObjectSchema(ONE_OPTIONAL) && Supported(s)
            && ONE_OPTIONAL.Keys - STRUCTURE == {"minProperties"}
            && ONE_OPTIONAL - STRUCTURE == map["minProperties" := Num(1.0)]
  {
    assert ONE_OPTIONAL.Keys == {"type", "properties", "minProperties"};
    assert Shaped(Obj(map[])) && AllDeclared(Obj(map[]));
  }

  lemma {:induction false} EmptyIsTooFew()
    ensures !Valid(Obj(map[]), Obj(ONE_OPTIONAL), AtLeast)
  {
    OneOptional();
    hide ValidObject, TypeOk;
    assert !AtLeast(Obj(map[]), map["minProperties" := Num(1.0)]);
  }

  lemma {:induction false} FilledWithNull()
    ensures Fill(Obj(map[]), Obj(ONE_OPTIONAL)) == Obj(map["a" := Null])
  {
    OneOptional();
    assert Fill(Obj(map[]), Obj(ONE_OPTIONAL)).fields == map["a" := Null];
  }

  lemma {:induction false} EmptyDelivered()
    ensures Deliverable(Obj(map[]), Obj(ONE_OPTIONAL), AtLeast)
  {
    OneOptional();
    FilledWithNull();
    AnyNullable();
    EmptyNearlyValid();
    hide Valid, Fill, Strict, MakeNullable, Supported, PropertiesOf;
    assert AtLeast(Obj(map["a" := Null]), map["minProperties" := Num(1.0)]) by {
      assert |map["a" := Null]| == 1;
    }
  }

  lemma {:induction false} AnyNullable()
    ensures Valid(Null, MakeNullable(Strict(Obj(map[]))), AtLeast)
  {
    FixedByFields(map[]);
    hide Strict;
    NullAdmitted(Obj(map[]), AtLeast);
  }

  lemma {:induction false} EmptyNearlyValid()
    ensures Valid(Obj(map[]), Obj(ONE_OPTIONAL), ScalarsOnly(AtLeast))
  {
    OneOptional();
    hide AtLeast, Supported;
    assert IsType(Obj(map[]), Lit("object"));
    assert ValidObject(map[], Obj(ONE_OPTIONAL), ScalarsOnly(AtLeast));
  }

  /** Where a required name is undeclared soundness fails for every object the backend may answer: the
      strict form forgets the name. */
  lemma {:induction false} UndeclaredRequiredAlwaysFails(v: Fields, s: Json, r: Text, rule: KeywordRule)
    requires Shaped(s) && s.Obj? && IsObjectSchema(s.fields) && Valid(Obj(v), Strict(s), rule)
    requires r in RequiredNames(s.fields) && !Has(PropertiesOf(s), r)
    ensures !Valid(RemoveNulls(Obj(v), s), s, rule)
  {
    SoundExactly(Obj(v), s, rule);
  }

  /** And there is such an object, as far as the other keywords allow: with no properties at all, the empty
      one. */
  lemma {:induction false} UndeclaredRequiredFails(m: Fields, rule: KeywordRule)
    requires HasString(m, "type", "object") && "properties" !in m && "anyOf" !in m && RequiredNames(m) != {}
    ensures var n := Strict(Obj(m)).fields;
            Valid(Obj(map[]), Obj(n), rule) <==> n.Keys - STRUCTURE == {} || rule(Obj(map[]), n - STRUCTURE)
    ensures !Valid(RemoveNulls(Obj(map[]), Obj(m)), Obj(m), rule)
  {
    var s := Obj(m);
    var n := Strict(s).fields;
    hide Valid, ValidObject, RemoveNulls, Sorted;
    GatedNames(s);
    assert n["type"] == StrictField(s, "type") == m["type"];
    assert "anyOf" !in n;
    forall r | r in RequiredNames(n) ensures false {
      RequiredNamed(Sorted(Declared(n)), n, r);
    }
    EmptyIsValid(n, rule);
    NothingHasName(m, rule);
  }

  lemma {:induction false} EmptyIsValid(n: Fields, rule: KeywordRule)
    requires HasString(n, "type", "object") && "anyOf" !in n && RequiredNames(n) == {}
    ensures Valid(Obj(map[]), Obj(n), rule) <==> n.Keys - STRUCTURE == {} || rule(Obj(map[]), n - STRUCTURE)
  {
    assert IsType(Obj(map[]), Lit("object"));
  }

  lemma {:induction false} NothingHasName(m: Fields, rule: KeywordRule)
    requires RequiredNames(m) != {}
    ensures !Valid(RemoveNulls(Obj(map[]), Obj(m)), Obj(m), rule)
  {
    assert RemoveNulls(Obj(map[]), Obj(m)).fields == map[];
    var r :| r in RequiredNames(m);
    assert !Has(map[], r);
    hide TypeOk, RemoveNulls;
    assert !ValidObject(map[], Obj(m), rule);
  }

  /** A keyword such as an enum without null stays in force when the type is widened, so a property
      carrying it cannot be omitted through the pair although the client's schema makes it optional. */
  lemma {:induction false} KeywordBlocksOmission(v: Fields, s: Json, p: string, rule: KeywordRule)
    requires Supported(s) && s.Obj? && IsObjectSchema(s.fields) && p in PropertiesOf(s) && p !in v
    requires var e := PropertiesOf(s)[p];
             e.Obj? && "type" in e.fields && e.fields.Keys - STRUCTURE != {} && !rule(Null, e.fields - STRUCTURE)
    ensures !Deliverable(Obj(v), s, rule)
  {
    var e := PropertiesOf(s)[p];
    StrictShape(e);
    var n := Strict(e).fields;
    var nullable := MakeNullable(Strict(e)).fields;
    assert nullable - STRUCTURE == n - STRUCTURE;
    assert !Valid(Null, Obj(nullable), rule);
  }
}

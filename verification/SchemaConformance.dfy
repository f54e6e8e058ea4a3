/** What it means for a value to conform to a definition, said keyword by keyword after JSON Schema
    Draft 2020-12 (Validation sections 6.1 to 6.5, Core section 10.3), and that the strict check
    decides exactly that (schema.py:245-299). */
module SchemaConformance {
  import opened JsonModel
  import opened SchemaDefinitions
  import opened SchemaModel
  import opened SchemaTheorems

  /** The type names a value has; unlike the draft, a float is never an integer. */
  function KindsOf(v: Json): set<string> {
    match v
    case Null => {"null"}
    case Bool(_) => {"boolean"}
    case Int(_) => {"integer", "number"}
    case Float(_) => {"number"}
    case Str(_) => {"string"}
    case Arr(_) => {"array"}
    case Obj(_) => {"object"}
  }

  /** Section 6.1.1: one of the names given is a name of the value. */
  predicate TypeAdmits(t: Json, v: Json) {
    (t.Str? && t.s in KindsOf(v)) || (t.Arr? && exists name | name in KindsOf(v) :: Str(name) in t.items)
  }

  function Amount(j: Json): real
    requires FiniteNumber(j)
  {
    if j.Int? then j.i as real else j.f.r
  }

  predicate NumberConforms(v: Json, s: Fields) {
    && FiniteNumber(v)
    && ("minimum" in s ==> FiniteNumber(s["minimum"]) && Amount(s["minimum"]) <= Amount(v))
    && ("maximum" in s ==> FiniteNumber(s["maximum"]) && Amount(v) <= Amount(s["maximum"]))
  }

  predicate StringConforms(text: string, s: Fields) {
    && ("minLength" in s ==> s["minLength"].Int? && s["minLength"].i <= |text|)
    && ("maxLength" in s ==> s["maxLength"].Int? && |text| <= s["maxLength"].i)
  }

  ghost predicate ArrayConforms(v: Json, s: Fields)
    requires v.Arr?
    decreases v, 0
  {
    && ("minItems" in s ==> s["minItems"].Int? && s["minItems"].i <= |v.items|)
    && ("maxItems" in s ==> s["maxItems"].Int? && |v.items| <= s["maxItems"].i)
    && ("items" in s ==> forall i | 0 <= i < |v.items| :: Conforms(v.items[i], s["items"]))
  }

  ghost predicate ObjectConforms(v: Json, s: Fields)
    requires v.Obj?
    decreases v, 0
  {
    && ("required" in s ==>
          s["required"].Arr? && forall name: string | Str(name) in s["required"].items :: name in v.fields)
    && ("properties" in s ==>
          s["properties"].Obj? && forall k | k in v.fields ::
            k in s["properties"].fields ==> Conforms(v.fields[k], s["properties"].fields[k]))
    && ("additionalProperties" in s ==>
          forall k | k in v.fields :: "properties" in s && s["properties"].Obj? && k in s["properties"].fields)
  }

  ghost predicate Conforms(v: Json, schema: Json)
    decreases v, 1
  {
    && schema.Obj?
    && var s := schema.fields;
       && ("enum" in s ==> s["enum"].Arr? && exists e :: e in s["enum"].items && JsonEqual(v, e))
       && ("const" in s ==> JsonEqual(v, s["const"]))
       && ("type" in s ==> TypeAdmits(s["type"], v))
       && (v.Obj? ==> ObjectConforms(v, s))
       && (v.Arr? ==> ArrayConforms(v, s))
       && (v.Str? ==> StringConforms(v.s, s))
       && (v.Int? || v.Float? ==> NumberConforms(v, s))
  }

  lemma MatchesIsKind(name: string, v: Json)
    ensures Matches(name, v) <==> name in KindsOf(v)
  {
  }

  lemma TypedConforms(v: Json, schema: Json, depth: nat)
    requires Definition(schema, depth)
    ensures Typed(v, schema.fields).Accept? <==> ("type" in schema.fields ==> TypeAdmits(schema.fields["type"], v))
  {
    hide Matches, KindsOf, Bounded;
    forall name: string ensures Matches(name, v) <==> name in KindsOf(v) { MatchesIsKind(name, v); }
    if "type" in schema.fields && schema.fields["type"].Arr? {
      var items := schema.fields["type"].items;
      if i :| 0 <= i < |items| && Matches(items[i].s, v) {
        assert items[i] == Str(items[i].s);
        assert items[i].s in KindsOf(v) && Str(items[i].s) in items;
      }
    }
  }

  lemma LiteralsConform(v: Json, schema: Json, depth: nat)
    requires Definition(schema, depth)
    ensures var s := schema.fields;
            Literals(v, s).Accept? == (
              && ("enum" in s ==> s["enum"].Arr? && exists e :: e in s["enum"].items && JsonEqual(v, e))
              && ("const" in s ==> JsonEqual(v, s["const"])))
  {
    hide JsonEqual, Bounded;
    if "enum" in schema.fields {
      var items := schema.fields["enum"].items;
      if e :| e in items && JsonEqual(v, e) {
        var i :| 0 <= i < |items| && items[i] == e;
        assert JsonEqual(v, items[i]);
      }
    }
  }

  lemma RangeConforms(v: Json, schema: Json, depth: nat)
    requires Definition(schema, depth) && FiniteNumber(v)
    ensures Range(NumberOf(v), schema.fields).Accept? <==> NumberConforms(v, schema.fields)
  {
    hide Bounded;
  }

  lemma CountsConform(v: Json, schema: Json, depth: nat)
    requires Definition(schema, depth)
    ensures v.Str? ==> (Count(|v.s|, schema.fields, "minLength", "maxLength").Accept?
                        <==> StringConforms(v.s, schema.fields))
  {
    hide Bounded;
  }

  lemma {:induction false} BoundedHigher(v: Json, depth: nat, higher: nat)
    requires Bounded(v, depth) && higher <= depth
    ensures Bounded(v, higher)
  {
    match v
    case Arr(items) =>
      forall i | 0 <= i < |items| ensures Bounded(items[i], higher + 1) {
        BoundedHigher(items[i], depth + 1, higher + 1);
      }
    case Obj(fields) =>
      forall k | k in fields ensures Bounded(fields[k], higher + 1) { BoundedHigher(fields[k], depth + 1, higher + 1); }
    case _ =>
  }

  lemma PartsAreBounded(v: Json)
    requires Bounded(v, 0)
    ensures v.Arr? ==> forall i | 0 <= i < |v.items| :: Bounded(v.items[i], 0)
    ensures v.Obj? ==> forall k | k in v.fields :: Bounded(v.fields[k], 0)
  {
    match v
    case Arr(items) => forall i | 0 <= i < |items| ensures Bounded(items[i], 0) { BoundedHigher(items[i], 1, 0); }
    case Obj(fields) => forall k | k in fields ensures Bounded(fields[k], 0) { BoundedHigher(fields[k], 1, 0); }
    case _ =>
  }

  lemma {:induction false} ArraysConform(v: Json, schema: Json, depth: nat)
    requires v.Arr? && Definition(schema, depth) && Bounded(v, 0)
    ensures Count(|v.items|, schema.fields, "minItems", "maxItems").Accept? && Items(v, schema.fields).Accept?
       <==> ArrayConforms(v, schema.fields)
    decreases v, 0
  {
    PartsAreBounded(v);
    hide Value, Bounded;
    ItemsAreDefined(v, schema, depth);
    if "items" in schema.fields {
      forall i | 0 <= i < |v.items|
        ensures Value(v.items[i], schema.fields["items"].fields).Accept?
                <==> Conforms(v.items[i], schema.fields["items"])
      {
        StrictIsConformance(v.items[i], schema.fields["items"], depth + 1);
      }
    }
  }

  lemma RequiredConforms(f: Fields, schema: Json, depth: nat)
    requires Definition(schema, depth)
    ensures Required(f, schema.fields).Accept? <==>
      ("required" in schema.fields ==>
         schema.fields["required"].Arr?
           && forall name: string | Str(name) in schema.fields["required"].items :: name in f)
  {
    hide Bounded;
    if "required" in schema.fields {
      var items := schema.fields["required"].items;
      if forall name: string | Str(name) in items :: name in f {
        forall i | 0 <= i < |items| ensures items[i].s in f {
          assert items[i] == Str(items[i].s) && items[i] in items;
        }
      }
    }
  }

  lemma {:induction false} DescribedConforms(v: Json, schema: Json, depth: nat)
    requires v.Obj? && Definition(schema, depth) && Bounded(v, 0)
    ensures Described(v, schema.fields).Accept? <==>
      ("properties" in schema.fields ==>
         schema.fields["properties"].Obj?
         && forall k | k in v.fields ::
            k in schema.fields["properties"].fields ==> Conforms(v.fields[k], schema.fields["properties"].fields[k]))
    decreases v, 0
  {
    PartsAreBounded(v);
    hide Value, Bounded;
    DescribedIsDefined(v, schema, depth);
    var p := Properties(schema.fields).value;
    forall k | k in v.fields && k in p
      ensures p[k].Obj? && (Value(v.fields[k], p[k].fields).Accept? <==> Conforms(v.fields[k], p[k]))
    {
      StrictIsConformance(v.fields[k], p[k], depth + 1);
    }
  }

  lemma ExtrasConform(f: Fields, schema: Json, depth: nat)
    requires Definition(schema, depth)
    ensures Extras(f, schema.fields).Accept? <==>
      ("additionalProperties" in schema.fields ==>
         forall k | k in f ::
           "properties" in schema.fields && schema.fields["properties"].Obj?
           && k in schema.fields["properties"].fields)
  {
    hide Bounded;
  }

  /** For a definition that is accepted and a value that is finite and not too deep, the strict check
      accepts exactly the values that conform. */
  lemma {:induction false} StrictIsConformance(v: Json, schema: Json, depth: nat)
    requires Definition(schema, depth) && Bounded(v, 0)
    ensures Value(v, schema.fields).Accept? <==> Conforms(v, schema)
    decreases v, 1
  {
    assert schema.Obj? && (v.Float? ==> v.f.Finite?);
    TypedConforms(v, schema, depth);
    LiteralsConform(v, schema, depth);
    CountsConform(v, schema, depth);
    match v {
      case Obj(f) =>
        RequiredConforms(f, schema, depth);
        DescribedConforms(v, schema, depth);
        ExtrasConform(f, schema, depth);
      case Arr(_) => ArraysConform(v, schema, depth);
      case Int(_) => RangeConforms(v, schema, depth);
      case Float(_) => RangeConforms(v, schema, depth);
      case _ =>
    }
    hide Definition, Described, Items, Required, Extras, Range, Count, Typed, Literals, Bounded, TypeAdmits, JsonEqual;
    hide ArrayConforms, StringConforms, NumberConforms;
  }

  /** So the entry point accepts exactly this: a definition that is well-formed at each of at most 16
      levels, and a finite value of at most 64 levels that conforms to it. */
  lemma StrictAccepts(v: Json, schema: Json)
    ensures Strict(v, schema).Accept? <==> WellFormedWithin(schema, 16) && FiniteWithin(v, 64) && Conforms(v, schema)
  {
    DefinitionIs(schema, 0);
    BoundedIs(v, 0);
    assert Definition(schema, 0) ==> schema.Obj?;
    hide Value, Conforms, Definition, Bounded, WellFormedWithin, FiniteWithin;
    if Definition(schema, 0) {
      if Bounded(v, 0) { StrictIsConformance(v, schema, 0); } else { UnboundedIsRejected(v, schema); }
    }
  }

  lemma UnboundedIsRejected(v: Json, schema: Json)
    requires schema.Obj? && !Bounded(v, 0)
    ensures Value(v, schema.fields).Reject?
  {
  }
}

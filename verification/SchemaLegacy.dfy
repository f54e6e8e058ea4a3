/** What the permissive check accepts on definitions of the strict subset, said keyword by keyword
    (schema.py:73-140), and what the check of declared defaults accepts (schema.py:302-338). */
module SchemaLegacy {
  import opened JsonModel
  import opened SchemaConformance
  import opened SchemaDefinitions
  import opened SchemaModel
  import opened SchemaTheorems

  // ---- the permissive check ----

  predicate Under(x: Number, r: real) { x == NegInf || (x.Finite? && x.r < r) }

  predicate Over(x: Number, r: real) { x == PosInf || (x.Finite? && x.r > r) }

  /** The float that a bound becomes, if there is one. */
  function Bound(j: Json, round: Rounding): Option<real> {
    match j case Int(i) => round(i) case Float(Finite(r)) => Some(r) case _ => None
  }

  /** A NaN is neither under nor over anything. */
  predicate LegacyNumber(x: Number, s: Fields, round: Rounding) {
    && ("minimum" in s ==> Bound(s["minimum"], round).Some? && !Under(x, Bound(s["minimum"], round).value))
    && ("maximum" in s ==> Bound(s["maximum"], round).Some? && !Over(x, Bound(s["maximum"], round).value))
  }

  ghost predicate LegacyConforms(v: Json, schema: Json, round: Rounding)
    decreases v
  {
    && schema.Obj?
    && var s := schema.fields;
       && ("enum" in s ==> s["enum"].Arr? && exists e :: e in s["enum"].items && HostEqual(v, e))
       && ("const" in s ==> HostEqual(v, s["const"]))
       && ("type" in s ==> TypeAdmits(s["type"], v))
       && (v.Str? ==> StringConforms(v.s, s))
       && (v.Int? || v.Float? ==> LegacyNumber(NumberOf(v), s, round))
       && (v.Arr? ==>
             && ("minItems" in s ==> s["minItems"].Int? && s["minItems"].i <= |v.items|)
             && ("maxItems" in s ==> s["maxItems"].Int? && |v.items| <= s["maxItems"].i)
             && ("items" in s ==> forall i | 0 <= i < |v.items| :: LegacyConforms(v.items[i], s["items"], round)))
       && (v.Obj? ==>
             && ("required" in s ==>
                   s["required"].Arr? && forall name: string | Str(name) in s["required"].items :: name in v.fields)
             && ("properties" in s ==>
                   s["properties"].Obj? && forall k | k in v.fields ::
                     k in s["properties"].fields ==> LegacyConforms(v.fields[k], s["properties"].fields[k], round))
             && ("additionalProperties" in s ==>
                   forall k | k in v.fields ::
                     "properties" in s && s["properties"].Obj? && k in s["properties"].fields))
  }

  lemma LegacyLiteralsAre(v: Json, schema: Json, depth: nat)
    requires Definition(schema, depth)
    ensures var s := schema.fields;
            LegacyLiterals(v, s).Accept? == (
              && ("enum" in s ==> s["enum"].Arr? && exists e :: e in s["enum"].items && HostEqual(v, e))
              && ("const" in s ==> HostEqual(v, s["const"])))
  {
    hide HostEqual, Bounded;
    if "enum" in schema.fields {
      var items := schema.fields["enum"].items;
      if e :| e in items && HostEqual(v, e) {
        var i :| 0 <= i < |items| && items[i] == e;
        assert HostEqual(v, items[i]);
      }
    }
  }

  lemma LegacyRangeIs(x: Number, schema: Json, depth: nat, round: Rounding)
    requires Definition(schema, depth)
    ensures LegacyRange(x, schema.fields, round).Accept? <==> LegacyNumber(x, schema.fields, round)
  {
    hide Bounded, JsonValue;
  }

  lemma {:induction false} LegacyItemsAre(v: Json, schema: Json, depth: nat, round: Rounding)
    requires v.Arr? && Definition(schema, depth)
    ensures LegacyItems(v, schema.fields, round).Accept? <==>
              ("items" in schema.fields ==>
                 forall i | 0 <= i < |v.items| :: LegacyConforms(v.items[i], schema.fields["items"], round))
    decreases v, 0
  {
    hide Legacy, LegacyConforms, Bounded;
    if "items" in schema.fields {
      var items := schema.fields["items"];
      forall i | 0 <= i < |v.items|
        ensures Legacy(v.items[i], items.fields, round).Accept? <==> LegacyConforms(v.items[i], items, round)
      {
        LegacyIsConformance(v.items[i], items, depth + 1, round);
      }
    }
  }

  lemma {:induction false} LegacyDescribedIs(v: Json, schema: Json, depth: nat, round: Rounding)
    requires v.Obj? && Definition(schema, depth)
    ensures LegacyDescribed(v, schema.fields, round).Accept? <==>
              ("properties" in schema.fields ==>
                 schema.fields["properties"].Obj? && forall k | k in v.fields ::
                   k in schema.fields["properties"].fields ==>
                     LegacyConforms(v.fields[k], schema.fields["properties"].fields[k], round))
    decreases v, 0
  {
    hide Legacy, LegacyConforms, Bounded;
    var p := Properties(schema.fields).value;
    forall k | k in v.fields && k in p
      ensures p[k].Obj?
      ensures Legacy(v.fields[k], p[k].fields, round).Accept? <==> LegacyConforms(v.fields[k], p[k], round)
    {
      LegacyIsConformance(v.fields[k], p[k], depth + 1, round);
    }
  }

  lemma CountsAre(n: nat, schema: Json, depth: nat)
    requires Definition(schema, depth)
    ensures var s := schema.fields;
            Count(n, s, "minItems", "maxItems").Accept? <==>
              && ("minItems" in s ==> s["minItems"].Int? && s["minItems"].i <= n)
              && ("maxItems" in s ==> s["maxItems"].Int? && n <= s["maxItems"].i)
  {
    hide Bounded;
  }

  /** On a definition of the strict subset the permissive check accepts exactly the values that conform in
      the permissive sense: host equality, no bound on depth, and numbers against rounded bounds. */
  lemma {:induction false} LegacyIsConformance(v: Json, schema: Json, depth: nat, round: Rounding)
    requires Definition(schema, depth)
    ensures Legacy(v, schema.fields, round).Accept? <==> LegacyConforms(v, schema, round)
    decreases v, 1
  {
    assert schema.Obj?;
    TypedConforms(v, schema, depth);
    LegacyLiteralsAre(v, schema, depth);
    CountsConform(v, schema, depth);
    match v {
      case Obj(f) =>
        RequiredConforms(f, schema, depth);
        LegacyDescribedIs(v, schema, depth, round);
        ExtrasConform(f, schema, depth);
      case Arr(items) =>
        CountsAre(|items|, schema, depth);
        LegacyItemsAre(v, schema, depth, round);
      case Int(_) => LegacyRangeIs(NumberOf(v), schema, depth, round);
      case Float(_) => LegacyRangeIs(NumberOf(v), schema, depth, round);
      case _ =>
    }
    hide Definition, LegacyDescribed, LegacyItems, Required, Extras, LegacyRange, Count, Typed, LegacyLiterals, Bounded;
    hide TypeAdmits, HostEqual, StringConforms, LegacyNumber;
  }

  // ---- declared defaults ----

  /** Every declared field conforms to its own schema, or may be there without one. */
  ghost predicate FieldsConform(f: Fields, s: Fields) {
    forall k | k in f ::
      if "properties" in s && s["properties"].Obj? && k in s["properties"].fields
      then Conforms(f[k], s["properties"].fields[k]) else "additionalProperties" !in s
  }

  lemma DeclaredConforms(key: string, item: Json, schema: Json)
    requires Definition(schema, 0) && Bounded(item, 0)
    ensures Declared(key, item, schema.fields) != Undefined
    ensures var s := schema.fields;
            Declared(key, item, s).Accept? <==>
              if "properties" in s && s["properties"].Obj? && key in s["properties"].fields
              then Conforms(item, s["properties"].fields[key]) else "additionalProperties" !in s
  {
    hide Value, Bounded, Conforms;
    var s := schema.fields;
    if "properties" in s && key in s["properties"].fields {
      StrictIsConformance(item, s["properties"].fields[key], 1);
      DefinitionMakesValueTotal(item, s["properties"].fields[key], 1);
    }
  }

  lemma FieldsAreDeclared(f: Fields, schema: Json)
    requires Definition(schema, 0) && Bounded(Obj(f), 0)
    ensures (forall k | k in f :: Declared(k, f[k], schema.fields).Accept?) <==> FieldsConform(f, schema.fields)
  {
    PartsAreBounded(Obj(f));
    hide Bounded, Declared, Definition, Conforms;
    forall k | k in f
      ensures Declared(k, f[k], schema.fields).Accept? <==>
                if "properties" in schema.fields && schema.fields["properties"].Obj?
                   && k in schema.fields["properties"].fields
                then Conforms(f[k], schema.fields["properties"].fields[k])
                else "additionalProperties" !in schema.fields
    {
      DeclaredConforms(k, f[k], schema);
    }
  }

  lemma DefaultsOfOther(v: Json, schema: Json)
    requires Definition(schema, 0) && Bounded(v, 0) && !v.Obj?
    ensures Defaults(v, schema).Accept? <==>
              && Typed(v, schema.fields).Accept?
              && "properties" !in schema.fields && "additionalProperties" !in schema.fields
  {
    ClosedIs(schema);
    hide Bounded, Definition, Typed, Closed;
  }

  lemma DefaultsNeedDefinition(v: Json, schema: Json)
    requires !Definition(schema, 0) || !Bounded(v, 0)
    ensures !Defaults(v, schema).Accept?
  {
    hide Bounded, Definition;
  }

  /** Declared defaults are accepted exactly when the definition is, the value is finite, its type is
      admitted, and every field conforms; a value that is no object has no fields to declare. */
  lemma DefaultsAccept(v: Json, schema: Json)
    ensures Defaults(v, schema).Accept? <==>
              && WellFormedWithin(schema, 16) && FiniteWithin(v, 64) && schema.Obj?
              && ("type" in schema.fields ==> TypeAdmits(schema.fields["type"], v))
              && (if v.Obj? then FieldsConform(v.fields, schema.fields)
                  else "properties" !in schema.fields && "additionalProperties" !in schema.fields)
  {
    hide WellFormedWithin, FiniteWithin, FieldsConform, Defaults, Bounded, Definition, TypeAdmits, Typed;
    DefinitionIs(schema, 0);
    BoundedIs(v, 0);
    if Definition(schema, 0) && Bounded(v, 0) {
      ClosedIs(schema);
      TypedConforms(v, schema, 0);
      if v.Obj? {
        DefaultsOfObject(v.fields, schema);
        FieldsAreDeclared(v.fields, schema);
      } else {
        DefaultsOfOther(v, schema);
      }
    } else {
      DefaultsNeedDefinition(v, schema);
    }
  }

  lemma ClosedIs(schema: Json)
    requires Definition(schema, 0)
    ensures schema.Obj? && (Closed(schema.fields) <==> "additionalProperties" in schema.fields)
  {
    hide Bounded;
  }
}

/** What the schema checks promise to each other and to the run time (schema.py,
    host/service.py:864-869). */
module SchemaTheorems {
  import opened JsonModel
  import opened SchemaModel

  // ---- equality ----

  /** JSON equality is reflexive on finite values (NaN equals nothing). */
  lemma {:induction false} EqualReflexive(v: Json, depth: nat)
    requires Bounded(v, depth)
    ensures JsonEqual(v, v)
  {
    match v
    case Arr(items) =>
      forall i | 0 <= i < |items| ensures JsonEqual(items[i], items[i]) { EqualReflexive(items[i], depth + 1); }
    case Obj(fields) =>
      forall k | k in fields ensures JsonEqual(fields[k], fields[k]) { EqualReflexive(fields[k], depth + 1); }
    case _ =>
  }

  lemma {:induction false} EqualSymmetric(l: Json, r: Json)
    requires JsonEqual(l, r)
    ensures JsonEqual(r, l)
  {
    match (l, r)
    case (Arr(a), Arr(b)) =>
      forall i | 0 <= i < |a| ensures JsonEqual(b[i], a[i]) { EqualSymmetric(a[i], b[i]); }
    case (Obj(a), Obj(b)) =>
      forall k | k in b ensures JsonEqual(b[k], a[k]) { EqualSymmetric(a[k], b[k]); }
    case _ =>
  }

  lemma {:induction false} EqualTransitive(x: Json, y: Json, z: Json)
    requires JsonEqual(x, y) && JsonEqual(y, z)
    ensures JsonEqual(x, z)
  {
    match (x, y, z)
    case (Arr(a), Arr(b), Arr(c)) =>
      forall i | 0 <= i < |a| ensures JsonEqual(a[i], c[i]) { EqualTransitive(a[i], b[i], c[i]); }
    case (Obj(a), Obj(b), Obj(c)) =>
      forall k | k in a ensures JsonEqual(a[k], c[k]) {
        assert k in b && k in c;
        EqualTransitive(a[k], b[k], c[k]);
      }
    case _ =>
  }

  /** What is equal as JSON is equal in the host language. */
  lemma {:induction false} EqualIsHostEqual(l: Json, r: Json)
    requires JsonEqual(l, r)
    ensures HostEqual(l, r)
  {
    match (l, r)
    case (Arr(a), Arr(b)) =>
      forall i | 0 <= i < |a| ensures HostEqual(a[i], b[i]) { EqualIsHostEqual(a[i], b[i]); }
    case (Obj(a), Obj(b)) =>
      forall k | k in a ensures HostEqual(a[k], b[k]) { EqualIsHostEqual(a[k], b[k]); }
    case _ =>
  }

  /** The two differ only over booleans: host equality without a boolean facing a number, anywhere
      in the two values, is JSON equality. */
  predicate Unmixed(l: Json, r: Json) {
    match (l, r)
    case (Arr(a), Arr(b)) => |a| == |b| ==> forall i | 0 <= i < |a| :: Unmixed(a[i], b[i])
    case (Obj(a), Obj(b)) => forall k | k in a && k in b :: Unmixed(a[k], b[k])
    case _ => l.Bool? <==> r.Bool?
  }

  lemma {:induction false} HostEqualIsEqual(l: Json, r: Json)
    ensures JsonEqual(l, r) <==> HostEqual(l, r) && Unmixed(l, r)
  {
    match (l, r)
    case (Arr(a), Arr(b)) =>
      forall i | 0 <= i < |a| && i < |b|
        ensures JsonEqual(a[i], b[i]) <==> HostEqual(a[i], b[i]) && Unmixed(a[i], b[i])
      {
        HostEqualIsEqual(a[i], b[i]);
      }
    case (Obj(a), Obj(b)) =>
      forall k | k in a && k in b ensures JsonEqual(a[k], b[k]) <==> HostEqual(a[k], b[k]) && Unmixed(a[k], b[k]) {
        HostEqualIsEqual(a[k], b[k]);
      }
    case _ =>
  }

  // ---- soundness of the definition check ----

  lemma {:induction false} ItemsAreDefined(v: Json, schema: Json, depth: nat)
    requires v.Arr? && Definition(schema, depth)
    ensures !Items(v, schema.fields).Undefined?
    decreases v, 0
  {
    if "items" in schema.fields {
      var items := schema.fields["items"];
      forall i | 0 <= i < |v.items| ensures !Value(v.items[i], items.fields).Undefined? {
        DefinitionMakesValueTotal(v.items[i], items, depth + 1);
      }
    }
  }

  lemma {:induction false} DescribedIsDefined(v: Json, schema: Json, depth: nat)
    requires v.Obj? && Definition(schema, depth)
    ensures !Described(v, schema.fields).Undefined?
    decreases v, 0
  {
    hide Value;
    var p := Properties(schema.fields);
    forall k | k in v.fields && k in p.value
      ensures p.value[k].Obj? && !Value(v.fields[k], p.value[k].fields).Undefined?
    {
      DefinitionMakesValueTotal(v.fields[k], p.value[k], depth + 1);
    }
  }

  lemma TypedIsDefined(v: Json, schema: Json, depth: nat)
    requires Definition(schema, depth)
    ensures !Typed(v, schema.fields).Undefined? && !Literals(v, schema.fields).Undefined?
  {
  }

  lemma LimitsAreDefined(f: Fields, x: Number, n: nat, schema: Json, depth: nat)
    requires Definition(schema, depth)
    ensures var s := schema.fields;
            !Required(f, s).Undefined? && !Extras(f, s).Undefined? && !Range(x, s).Undefined?
            && !Count(n, s, "minItems", "maxItems").Undefined? && !Count(n, s, "minLength", "maxLength").Undefined?
  {
  }

  /** A definition that is accepted makes the check of every value total: no lookup and no comparison
      meets anything it cannot handle. */
  lemma {:induction false} DefinitionMakesValueTotal(v: Json, schema: Json, depth: nat)
    requires Definition(schema, depth)
    ensures !Value(v, schema.fields).Undefined?
    decreases v, 1
  {
    hide Definition, Described, Items, Required, Extras, Range, Count, Typed, Literals, Bounded;
    TypedIsDefined(v, schema, depth);
    match v
    case Obj(f) =>
      DescribedIsDefined(v, schema, depth);
      LimitsAreDefined(f, NaN, 0, schema, depth);
    case Arr(items) =>
      ItemsAreDefined(v, schema, depth);
      LimitsAreDefined(map[], NaN, |items|, schema, depth);
    case Str(text) => LimitsAreDefined(map[], NaN, |text|, schema, depth);
    case Int(_) => LimitsAreDefined(map[], NumberOf(v), 0, schema, depth);
    case Float(_) => LimitsAreDefined(map[], NumberOf(v), 0, schema, depth);
    case _ =>
  }

  /** So the strict check and the check of defaults always decide. */
  lemma StrictDecides(v: Json, schema: Json)
    ensures !Strict(v, schema).Undefined? && !Defaults(v, schema).Undefined?
  {
    hide Value, Bounded;
    if Definition(schema, 0) {
      DefinitionMakesValueTotal(v, schema, 0);
      TypedIsDefined(v, schema, 0);
      if v.Obj? {
        forall k | k in v.fields ensures !Declared(k, v.fields[k], schema.fields).Undefined? {
          DeclaredIsDefined(k, v.fields[k], schema);
        }
      }
    }
  }

  lemma DeclaredIsDefined(key: string, item: Json, schema: Json)
    requires Definition(schema, 0)
    ensures !Declared(key, item, schema.fields).Undefined?
  {
    hide Value, Bounded;
    var p := Properties(schema.fields);
    if key in p.value { DefinitionMakesValueTotal(item, p.value[key], 1); }
  }

  // ---- the merge of defaults and overrides ----

  /** Every key the schema requires is there. */
  ghost predicate Covers(keys: set<string>, schema: Json)
    requires Definition(schema, 0)
  {
    "required" in schema.fields ==>
      forall i | 0 <= i < |schema.fields["required"].items| :: schema.fields["required"].items[i].s in keys
  }

  lemma RequiredIsCovers(f: Fields, schema: Json)
    requires Definition(schema, 0)
    ensures Required(f, schema.fields).Accept? <==> Covers(f.Keys, schema)
  {
  }

  /** Field by field: described fields fit, and undescribed ones are only there if allowed. */
  lemma FieldByField(f: Fields, schema: Json)
    requires Definition(schema, 0)
    ensures Described(Obj(f), schema.fields).Accept? && Extras(f, schema.fields).Accept?
       <==> forall k | k in f :: Declared(k, f[k], schema.fields).Accept?
  {
    hide Value, Bounded;
    var s, v := schema.fields, Obj(f);
    var p := Properties(s).value;
    DescribedIsDefined(v, schema, 0);
    forall k | k in f
      ensures Declared(k, f[k], s).Accept?
              <==> (k in p ==> Value(v.fields[k], p[k].fields).Accept?) && (k in p || !Closed(s))
    {
      assert k in p ==> p[k].Obj?;
    }
  }

  lemma DefaultsOfObject(f: Fields, schema: Json)
    requires Definition(schema, 0)
    ensures Defaults(Obj(f), schema).Accept?
            <==> (&& Bounded(Obj(f), 0) && Typed(Obj(f), schema.fields).Accept?
                  && forall k | k in f :: Declared(k, f[k], schema.fields).Accept?)
  {
    assert schema.Obj?;
    hide Bounded, Declared, Definition, Typed;
    forall k | k in f ensures !Declared(k, f[k], schema.fields).Undefined? {
      DeclaredIsDefined(k, f[k], schema);
    }
  }

  /** For an object, the strict check is the check of defaults and the whole-object constraints that
      the latter leaves out: `required`, `enum` and `const` at the root. */
  lemma StrictIsDefaultsAndWhole(f: Fields, schema: Json)
    requires Definition(schema, 0)
    ensures Value(Obj(f), schema.fields).Accept?
       <==> Defaults(Obj(f), schema).Accept? && Covers(f.Keys, schema) && Literals(Obj(f), schema.fields).Accept?
  {
    hide Bounded, Declared, Definition, Typed, Literals, Defaults, Described, Extras, Required, Covers;
    DefaultsOfObject(f, schema);
    FieldByField(f, schema);
    RequiredIsCovers(f, schema);
  }

  lemma TypedSeesOnlyTheKind(f: Fields, g: Fields, s: Fields)
    ensures Typed(Obj(f), s) == Typed(Obj(g), s)
  {
    forall name: string ensures Matches(name, Obj(f)) == Matches(name, Obj(g)) {}
  }

  lemma BoundedMerge(defaults: Fields, overrides: Fields)
    ensures Bounded(Obj(defaults + overrides), 0)
       <==> Bounded(Obj(overrides), 0) && Bounded(Obj(defaults - overrides.Keys), 0)
  {
    var merged, rest := defaults + overrides, defaults - overrides.Keys;
    assert forall k :: k in merged <==> k in overrides || k in rest;
    assert forall k | k in overrides :: merged[k] == overrides[k];
    assert forall k | k in rest :: merged[k] == rest[k];
  }

  lemma DefaultsMerge(defaults: Fields, overrides: Fields, schema: Json)
    requires Definition(schema, 0)
    ensures Defaults(Obj(defaults + overrides), schema).Accept?
       <==> Defaults(Obj(overrides), schema).Accept? && Defaults(Obj(defaults - overrides.Keys), schema).Accept?
  {
    assert schema.Obj?;
    hide Bounded, Declared, Definition, Typed, Defaults;
    var merged, rest := defaults + overrides, defaults - overrides.Keys;
    DefaultsOfObject(merged, schema);
    DefaultsOfObject(overrides, schema);
    DefaultsOfObject(rest, schema);
    TypedSeesOnlyTheKind(merged, overrides, schema.fields);
    TypedSeesOnlyTheKind(merged, rest, schema.fields);
    BoundedMerge(defaults, overrides);
    assert forall k :: k in merged <==> k in overrides || k in rest;
    assert forall k | k in overrides :: merged[k] == overrides[k];
    assert forall k | k in rest :: merged[k] == rest[k];
  }

  /** The merge theorem: the run-time check accepts defaults merged with overrides exactly when the
      static check accepts the overrides, and the defaults that are not overridden, every required key
      is in one of the two, and a root `enum` or `const`, if there is one, admits the merged value. */
  lemma MergeTheorem(defaults: Fields, overrides: Fields, schema: Json)
    requires Definition(schema, 0)
    ensures Value(Obj(defaults + overrides), schema.fields).Accept?
       <==> && Defaults(Obj(overrides), schema).Accept?
            && Defaults(Obj(defaults - overrides.Keys), schema).Accept?
            && Covers(defaults.Keys + overrides.Keys, schema)
            && Literals(Obj(defaults + overrides), schema.fields).Accept?
    ensures "enum" !in schema.fields && "const" !in schema.fields ==>
              Literals(Obj(defaults + overrides), schema.fields).Accept?
  {
    hide Bounded, Definition, Defaults, Covers, Value, JsonEqual;
    StrictIsDefaultsAndWhole(defaults + overrides, schema);
    DefaultsMerge(defaults, overrides, schema);
    assert (defaults + overrides).Keys == defaults.Keys + overrides.Keys;
  }

  /** A bundle whose defaults passed the static check only has to have the overrides checked, and the
      required keys counted, at run time. */
  lemma CheckedDefaultsStayGood(defaults: Fields, overrides: Fields, schema: Json)
    requires Defaults(Obj(defaults), schema).Accept? && "enum" !in schema.fields && "const" !in schema.fields
    ensures Definition(schema, 0)
    ensures Value(Obj(defaults + overrides), schema.fields).Accept?
       <==> Defaults(Obj(overrides), schema).Accept? && Covers(defaults.Keys + overrides.Keys, schema)
  {
    assert Definition(schema, 0);
    hide Bounded, Definition, Covers, Value, JsonEqual, Declared, Typed, Defaults;
    var rest := defaults - overrides.Keys;
    MergeTheorem(defaults, overrides, schema);
    DefaultsOfObject(defaults, schema);
    DefaultsOfObject(rest, schema);
    TypedSeesOnlyTheKind(defaults, rest, schema.fields);
    BoundedPart(defaults, overrides.Keys);
    assert forall k | k in rest :: k in defaults && rest[k] == defaults[k];
  }

  lemma BoundedPart(f: Fields, gone: set<string>)
    requires Bounded(Obj(f), 0)
    ensures Bounded(Obj(f - gone), 0)
  {
  }

  // ---- when the legacy profile accepts what the strict one accepts ----

  /** A number on the right side of the floats that integer bounds become. */
  predicate OnTheRightSide(x: Number, s: Fields, round: Rounding) {
    && ("minimum" in s && s["minimum"].Int? ==>
          round(s["minimum"].i).Some? && !Less(x, Finite(round(s["minimum"].i).value)))
    && ("maximum" in s && s["maximum"].Int? ==>
          round(s["maximum"].i).Some? && !Less(Finite(round(s["maximum"].i).value), x))
  }

  /** Every number of the value that meets an integer bound is on the right side of its float. */
  predicate Survives(v: Json, schema: Json, round: Rounding)
    decreases v
  {
    schema.Obj? ==>
      match v
      case Obj(f) =>
        "properties" in schema.fields && schema.fields["properties"].Obj? ==>
          forall k | k in f && k in schema.fields["properties"].fields ::
            Survives(f[k], schema.fields["properties"].fields[k], round)
      case Arr(items) =>
        "items" in schema.fields ==> forall i | 0 <= i < |items| :: Survives(items[i], schema.fields["items"], round)
      case Int(_) => OnTheRightSide(NumberOf(v), schema.fields, round)
      case Float(_) => OnTheRightSide(NumberOf(v), schema.fields, round)
      case _ => true
  }

  lemma LiteralsRefine(v: Json, s: Fields)
    requires Literals(v, s).Accept?
    ensures LegacyLiterals(v, s).Accept?
  {
    if "enum" in s {
      var i :| 0 <= i < |s["enum"].items| && JsonEqual(v, s["enum"].items[i]);
      EqualIsHostEqual(v, s["enum"].items[i]);
    }
    if "const" in s { EqualIsHostEqual(v, s["const"]); }
  }

  lemma RangeSurvives(x: Number, schema: Json, depth: nat, round: Rounding)
    requires Definition(schema, depth) && Range(x, schema.fields).Accept?
    ensures LegacyRange(x, schema.fields, round).Accept? <==> OnTheRightSide(x, schema.fields, round)
  {
    hide Bounded, JsonValue;
  }

  lemma {:induction false} DescribedSurvives(v: Json, schema: Json, depth: nat, round: Rounding)
    requires v.Obj? && Definition(schema, depth) && Described(v, schema.fields).Accept?
    ensures LegacyDescribed(v, schema.fields, round).Accept? <==> Survives(v, schema, round)
    decreases v, 0
  {
    hide Value, Legacy, Bounded;
    var p := Properties(schema.fields).value;
    forall k | k in v.fields && k in p
      ensures p[k].Obj? && (Legacy(v.fields[k], p[k].fields, round).Accept? <==> Survives(v.fields[k], p[k], round))
    {
      assert Value(v.fields[k], p[k].fields).Accept?;
      LegacyIffSurvives(v.fields[k], p[k], depth + 1, round);
    }
  }

  lemma {:induction false} ItemsSurvive(v: Json, schema: Json, depth: nat, round: Rounding)
    requires v.Arr? && Definition(schema, depth) && Items(v, schema.fields).Accept?
    ensures LegacyItems(v, schema.fields, round).Accept? <==> Survives(v, schema, round)
    decreases v, 0
  {
    hide Value, Legacy, Bounded;
    if "items" in schema.fields {
      var items := schema.fields["items"];
      forall i | 0 <= i < |v.items|
        ensures Legacy(v.items[i], items.fields, round).Accept? <==> Survives(v.items[i], items, round)
      {
        assert Value(v.items[i], items.fields).Accept?;
        LegacyIffSurvives(v.items[i], items, depth + 1, round);
      }
    }
  }

  /** What the strict profile accepts the legacy one accepts exactly when it survives the conversion of
      integer bounds to floats. */
  lemma {:induction false} LegacyIffSurvives(v: Json, schema: Json, depth: nat, round: Rounding)
    requires Definition(schema, depth) && Value(v, schema.fields).Accept?
    ensures Legacy(v, schema.fields, round).Accept? <==> Survives(v, schema, round)
    decreases v, 1
  {
    assert schema.Obj?;
    hide Definition, Described, Items, Required, Extras, Range, Count, Typed, Literals, LegacyLiterals;
    hide LegacyDescribed, LegacyItems, LegacyRange, OnTheRightSide;
    LiteralsRefine(v, schema.fields);
    match v
    case Obj(f) => DescribedSurvives(v, schema, depth, round);
    case Arr(items) => ItemsSurvive(v, schema, depth, round);
    case Int(_) => RangeSurvives(NumberOf(v), schema, depth, round);
    case Float(_) => RangeSurvives(NumberOf(v), schema, depth, round);
    case _ =>
  }

  // ---- definitions under which every value survives ----

  /** The bounds of a definition that are integers convert to a float on the far side: a minimum not
      upwards, a maximum not downwards. Exact conversion is the usual case. */
  predicate RoundsOutward(schema: Json, round: Rounding) {
    schema.Obj? ==>
      && ("minimum" in schema.fields && schema.fields["minimum"].Int? ==> OutwardLow(schema.fields["minimum"].i, round))
      && ("maximum" in schema.fields && schema.fields["maximum"].Int?
          ==> OutwardHigh(schema.fields["maximum"].i, round))
      && ("properties" in schema.fields && schema.fields["properties"].Obj? ==>
            forall k | k in schema.fields["properties"].fields ::
              RoundsOutward(schema.fields["properties"].fields[k], round))
      && ("items" in schema.fields ==> RoundsOutward(schema.fields["items"], round))
  }

  predicate OutwardLow(i: int, round: Rounding) { round(i).Some? && round(i).value <= i as real }

  predicate OutwardHigh(i: int, round: Rounding) { round(i).Some? && i as real <= round(i).value }

  lemma RangeOutward(x: Number, schema: Json, depth: nat, round: Rounding)
    requires Definition(schema, depth) && RoundsOutward(schema, round) && x.Finite? && Range(x, schema.fields).Accept?
    ensures OnTheRightSide(x, schema.fields, round)
  {
    hide Bounded, JsonValue;
  }

  lemma {:induction false} DescribedOutward(v: Json, schema: Json, depth: nat, round: Rounding)
    requires v.Obj? && Definition(schema, depth) && RoundsOutward(schema, round) && Described(v, schema.fields).Accept?
    ensures Survives(v, schema, round)
    decreases v, 0
  {
    hide Value, Bounded;
    var p := Properties(schema.fields).value;
    forall k | k in v.fields && k in p ensures Survives(v.fields[k], p[k], round) {
      assert Value(v.fields[k], p[k].fields).Accept?;
      OutwardSurvives(v.fields[k], p[k], depth + 1, round);
    }
  }

  lemma {:induction false} ItemsOutward(v: Json, schema: Json, depth: nat, round: Rounding)
    requires v.Arr? && Definition(schema, depth) && RoundsOutward(schema, round) && Items(v, schema.fields).Accept?
    ensures Survives(v, schema, round)
    decreases v, 0
  {
    hide Value, Bounded;
    if "items" in schema.fields {
      var items := schema.fields["items"];
      forall i | 0 <= i < |v.items| ensures Survives(v.items[i], items, round) {
        assert Value(v.items[i], items.fields).Accept?;
        OutwardSurvives(v.items[i], items, depth + 1, round);
      }
    }
  }

  lemma {:induction false} OutwardSurvives(v: Json, schema: Json, depth: nat, round: Rounding)
    requires Definition(schema, depth) && RoundsOutward(schema, round) && Value(v, schema.fields).Accept?
    ensures Survives(v, schema, round)
    decreases v, 1
  {
    assert schema.Obj?;
    hide Definition, RoundsOutward, Described, Items, Required, Extras, Range, Count, Typed, Literals, OnTheRightSide;
    match v
    case Obj(f) => DescribedOutward(v, schema, depth, round);
    case Arr(items) => ItemsOutward(v, schema, depth, round);
    case Int(_) => RangeOutward(NumberOf(v), schema, depth, round);
    case Float(_) => RangeOutward(NumberOf(v), schema, depth, round);
    case _ =>
  }

  /** When integer bounds round outward, the legacy profile accepts whatever the strict one accepts. */
  lemma StrictRefinesLegacy(v: Json, schema: Json, depth: nat, round: Rounding)
    requires Definition(schema, depth) && RoundsOutward(schema, round) && Value(v, schema.fields).Accept?
    ensures Legacy(v, schema.fields, round).Accept?
  {
    hide Definition, Value, Legacy, RoundsOutward, Survives;
    OutwardSurvives(v, schema, depth, round);
    LegacyIffSurvives(v, schema, depth, round);
  }

  /** The condition is needed: a lone minimum refines exactly when it rounds outward. An integer bound
      that rounds up, or is too large for a float, makes the legacy profile refuse a value that the
      strict profile accepts. */
  lemma LoneMinimumRefines(bound: int, round: Rounding)
    ensures var s := map["minimum" := Int(bound)];
            Definition(Obj(s), 0)
            && ((forall v | Value(v, s).Accept? :: Legacy(v, s, round).Accept?) <==> OutwardLow(bound, round))
  {
    var s := map["minimum" := Int(bound)];
    var schema := Obj(s);
    assert Bounded(s["minimum"], 1);
    assert Definition(schema, 0);
    var v := Int(bound);
    assert Value(v, s).Accept?;
    if OutwardLow(bound, round) {
      forall v | Value(v, s).Accept? ensures Legacy(v, s, round).Accept? {
        StrictRefinesLegacy(v, schema, 0, round);
      }
    } else {
      assert !Legacy(v, s, round).Accept?;
    }
  }

  /** The same for a lone maximum, where rounding down is what breaks the refinement. */
  lemma LoneMaximumRefines(bound: int, round: Rounding)
    ensures var s := map["maximum" := Int(bound)];
            Definition(Obj(s), 0)
            && ((forall v | Value(v, s).Accept? :: Legacy(v, s, round).Accept?) <==> OutwardHigh(bound, round))
  {
    var s := map["maximum" := Int(bound)];
    var schema := Obj(s);
    assert Bounded(s["maximum"], 1);
    assert Definition(schema, 0);
    var v := Int(bound);
    assert Value(v, s).Accept?;
    if OutwardHigh(bound, round) {
      forall v | Value(v, s).Accept? ensures Legacy(v, s, round).Accept? {
        StrictRefinesLegacy(v, schema, 0, round);
      }
    } else {
      assert !Legacy(v, s, round).Accept?;
    }
  }
}

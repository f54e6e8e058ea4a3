/** Which definitions the static check accepts, said keyword by keyword and by where the parts of a
    definition stand, without recursion over the check (schema.py:176-236, 341-368, 396-428). */
module SchemaDefinitions {
  import opened JsonModel
  import opened SchemaModel

  // ---- how deep a value goes ----

  datatype Hop = Field(name: string) | Item(i: nat)

  /** What stands at the end of a path into a value. */
  function Part(v: Json, path: seq<Hop>): Option<Json>
    decreases |path|
  {
    if path == [] then Some(v)
    else
      match path[0]
      case Field(name) => if v.Obj? && name in v.fields then Part(v.fields[name], path[1..]) else None
      case Item(i) => if v.Arr? && i < |v.items| then Part(v.items[i], path[1..]) else None
  }

  predicate FiniteJson(v: Json) { v.Float? ==> v.f != NaN && v.f != PosInf && v.f != NegInf }

  /** No path is longer, and every number on the way is finite. */
  ghost predicate FiniteWithin(v: Json, depth: int) {
    forall path | Part(v, path).Some? :: |path| <= depth && FiniteJson(Part(v, path).value)
  }

  lemma FiniteHere(v: Json, depth: int)
    requires FiniteWithin(v, depth)
    ensures depth >= 0 && FiniteJson(v)
    ensures v.Obj? ==> forall k | k in v.fields :: FiniteWithin(v.fields[k], depth - 1)
    ensures v.Arr? ==> forall i | 0 <= i < |v.items| :: FiniteWithin(v.items[i], depth - 1)
  {
    assert Part(v, []) == Some(v);
    if v.Obj? {
      forall k, path | k in v.fields && Part(v.fields[k], path).Some?
        ensures |path| <= depth - 1 && FiniteJson(Part(v.fields[k], path).value)
      {
        assert ([Field(k)] + path)[1..] == path;
        assert Part(v, [Field(k)] + path) == Part(v.fields[k], path);
      }
    }
    if v.Arr? {
      forall i: nat, path | i < |v.items| && Part(v.items[i], path).Some?
        ensures |path| <= depth - 1 && FiniteJson(Part(v.items[i], path).value)
      {
        assert ([Item(i)] + path)[1..] == path;
        assert Part(v, [Item(i)] + path) == Part(v.items[i], path);
      }
    }
  }

  lemma FiniteThere(v: Json, depth: int)
    requires depth >= 0 && FiniteJson(v)
    requires v.Obj? ==> forall k | k in v.fields :: FiniteWithin(v.fields[k], depth - 1)
    requires v.Arr? ==> forall i | 0 <= i < |v.items| :: FiniteWithin(v.items[i], depth - 1)
    ensures FiniteWithin(v, depth)
  {
    forall path | Part(v, path).Some? ensures |path| <= depth && FiniteJson(Part(v, path).value) {
      if path != [] {
        var rest := path[1..];
        match path[0]
        case Field(name) =>
          assert FiniteWithin(v.fields[name], depth - 1) && Part(v, path) == Part(v.fields[name], rest);
        case Item(i) =>
          assert FiniteWithin(v.items[i], depth - 1) && Part(v, path) == Part(v.items[i], rest);
      }
    }
  }

  /** The recursive walk over a value finds what the paths say: at most 64 levels, all numbers finite. */
  lemma {:induction false} BoundedIs(v: Json, depth: nat)
    ensures Bounded(v, depth) <==> FiniteWithin(v, 64 - depth)
    decreases v
  {
    hide FiniteWithin;
    if v.Obj? {
      forall k | k in v.fields ensures Bounded(v.fields[k], depth + 1) <==> FiniteWithin(v.fields[k], 64 - depth - 1) {
        BoundedIs(v.fields[k], depth + 1);
      }
    }
    if v.Arr? {
      forall i | 0 <= i < |v.items|
        ensures Bounded(v.items[i], depth + 1) <==> FiniteWithin(v.items[i], 64 - depth - 1)
      {
        BoundedIs(v.items[i], depth + 1);
      }
    }
    if FiniteWithin(v, 64 - depth) { FiniteHere(v, 64 - depth); }
    if Bounded(v, depth) { FiniteThere(v, 64 - depth); }
  }

  lemma {:induction false} JsonValueIs(v: Json, depth: nat)
    ensures JsonValue(v, depth) <==> FiniteWithin(v, 16 - depth)
    decreases v
  {
    hide FiniteWithin;
    if v.Obj? {
      forall k | k in v.fields
        ensures JsonValue(v.fields[k], depth + 1) <==> FiniteWithin(v.fields[k], 16 - depth - 1)
      {
        JsonValueIs(v.fields[k], depth + 1);
      }
    }
    if v.Arr? {
      forall i | 0 <= i < |v.items|
        ensures JsonValue(v.items[i], depth + 1) <==> FiniteWithin(v.items[i], 16 - depth - 1)
      {
        JsonValueIs(v.items[i], depth + 1);
      }
    }
    if FiniteWithin(v, 16 - depth) { FiniteHere(v, 16 - depth); }
    if JsonValue(v, depth) { FiniteThere(v, 16 - depth); }
  }

  // ---- one level of a definition ----

  predicate TypeName(j: Json) {
    || j == Str("null") || j == Str("boolean") || j == Str("integer") || j == Str("number") || j == Str("string")
    || j == Str("array") || j == Str("object")
  }

  /** The form that each of the thirteen keywords must have; nothing else is permitted. */
  ghost predicate Permitted(key: string, v: Json) {
    if key == "type" then TypeName(v) || (v.Arr? && v.items != [] && forall j | j in v.items :: TypeName(j))
    else if key == "enum" then v.Arr? && v.items != []
    else if key == "const" then FiniteWithin(v, 16)
    else if key == "required" then
      && v.Arr? && (forall j | j in v.items :: j.Str? && j != Str(""))
      && forall i, j | 0 <= i < j < |v.items| :: v.items[i] != v.items[j]
    else if key == "properties" then v.Obj? && "" !in v.fields
    else if key == "additionalProperties" then v == Bool(false)
    else if key == "items" then true
    else if key == "minItems" || key == "maxItems" || key == "minLength" || key == "maxLength" then v.Int? && v.i >= 0
    else (key == "minimum" || key == "maximum") && (v.Int? || v.Float?) && FiniteJson(v)
  }

  const BOUNDS: set<string> := {"minItems", "maxItems", "minLength", "maxLength", "minimum", "maximum"}
  const OTHERS: set<string> := {"type", "enum", "const", "required", "properties", "additionalProperties", "items"}

  /** A count between two bounds. */
  predicate Between(s: Fields, least: string, most: string, n: nat) {
    && (least in s && s[least].Int? ==> s[least].i <= n)
    && (most in s && s[most].Int? ==> n <= s[most].i)
  }

  predicate NotBelow(x: real, bound: Json) {
    match bound case Int(i) => i as real <= x case Float(Finite(r)) => r <= x case _ => true
  }

  predicate NotAbove(x: real, bound: Json) {
    match bound case Int(i) => x <= i as real case Float(Finite(r)) => x <= r case _ => true
  }

  predicate InRange(s: Fields, x: real) {
    ("minimum" in s ==> NotBelow(x, s["minimum"])) && ("maximum" in s ==> NotAbove(x, s["maximum"]))
  }

  /** The bounds leave something: some length, some count of items, some number. */
  ghost predicate Satisfiable(s: Fields) {
    && (exists n: nat :: Between(s, "minItems", "maxItems", n))
    && (exists n: nat :: Between(s, "minLength", "maxLength", n))
    && (exists x: real :: InRange(s, x))
  }

  ghost predicate WellFormed(schema: Json) {
    && schema.Obj? && FiniteWithin(schema, 64)
    && (forall key | key in schema.fields :: Permitted(key, schema.fields[key]))
    && Satisfiable(schema.fields)
  }

  lemma CountsAreOrdered(s: Fields, least: string, most: string)
    requires least in s ==> s[least].Int? && s[least].i >= 0
    requires most in s ==> s[most].Int? && s[most].i >= 0
    ensures (exists n: nat :: Between(s, least, most, n)) <==> (least in s && most in s ==> s[least].i <= s[most].i)
  {
    if least in s && most in s ==> s[least].i <= s[most].i {
      var n: nat := if least in s then s[least].i else 0;
      assert Between(s, least, most, n);
    }
  }

  lemma NumbersAreOrdered(s: Fields)
    requires "minimum" in s ==> FiniteNumber(s["minimum"])
    requires "maximum" in s ==> FiniteNumber(s["maximum"])
    ensures (exists x: real :: InRange(s, x))
       <==> ("minimum" in s && "maximum" in s ==> !Less(NumberOf(s["maximum"]), NumberOf(s["minimum"])))
  {
    if "minimum" in s && "maximum" in s ==> !Less(NumberOf(s["maximum"]), NumberOf(s["minimum"])) {
      var x := if "minimum" in s then NumberOf(s["minimum"]).r
               else if "maximum" in s then NumberOf(s["maximum"]).r else 0.0;
      assert InRange(s, x);
    }
  }

  /** One level of the static check, next to one level of the description. */
  ghost predicate Level(schema: Json) {
    && schema.Obj?
    && schema.fields.Keys <= STRICT_KEYWORDS
    && Bounded(schema, 0)
    && ("type" in schema.fields ==> TypeDefined(schema.fields["type"]))
    && ("enum" in schema.fields ==> schema.fields["enum"].Arr? && schema.fields["enum"].items != [])
    && ("const" in schema.fields ==> JsonValue(schema.fields["const"], 0))
    && ("required" in schema.fields ==> RequiredDefined(schema.fields["required"]))
    && ("properties" in schema.fields ==> schema.fields["properties"].Obj? && "" !in schema.fields["properties"].fields)
    && ("additionalProperties" in schema.fields ==> schema.fields["additionalProperties"] == Bool(false))
    && BoundsDefined(schema.fields)
  }

  lemma TypeIs(t: Json)
    ensures TypeDefined(t) <==> Permitted("type", t)
  {
    if t.Arr? {
      assert forall i | 0 <= i < |t.items| :: t.items[i] in t.items;
    }
  }

  lemma RequiredIs(r: Json)
    ensures RequiredDefined(r) <==> Permitted("required", r)
  {
    if r.Arr? {
      assert forall i | 0 <= i < |r.items| :: r.items[i] in r.items;
    }
  }

  lemma KeywordsAreThirteen(key: string, v: Json)
    ensures Permitted(key, v) ==> key in STRICT_KEYWORDS
  {
  }

  lemma BoundsAre(s: Fields)
    requires s.Keys <= STRICT_KEYWORDS
    ensures BoundsDefined(s) <==>
              && (forall key | key in s && key in BOUNDS ::
                    Permitted(key, s[key]))
              && Satisfiable(s)
  {
    hide FiniteWithin, Between, InRange;
    BoundForms(s);
    if (forall key | key in s && key in BOUNDS ::
          Permitted(key, s[key])) {
      CountsAreOrdered(s, "minItems", "maxItems");
      CountsAreOrdered(s, "minLength", "maxLength");
      NumbersAreOrdered(s);
    }
  }

  lemma BoundForms(s: Fields)
    ensures (forall key | key in s && key in BOUNDS ::
               Permitted(key, s[key]))
       <==> (&& ("minItems" in s ==> s["minItems"].Int? && s["minItems"].i >= 0)
             && ("maxItems" in s ==> s["maxItems"].Int? && s["maxItems"].i >= 0)
             && ("minLength" in s ==> s["minLength"].Int? && s["minLength"].i >= 0)
             && ("maxLength" in s ==> s["maxLength"].Int? && s["maxLength"].i >= 0)
             && ("minimum" in s ==> FiniteNumber(s["minimum"]))
             && ("maximum" in s ==> FiniteNumber(s["maximum"])))
  {
    hide FiniteWithin;
  }

  lemma OtherForms(s: Fields)
    ensures (forall key | key in s && key in OTHERS :: Permitted(key, s[key]))
       <==> (&& ("type" in s ==> TypeDefined(s["type"]))
             && ("enum" in s ==> s["enum"].Arr? && s["enum"].items != [])
             && ("const" in s ==> FiniteWithin(s["const"], 16))
             && ("required" in s ==> RequiredDefined(s["required"]))
             && ("properties" in s ==> s["properties"].Obj? && "" !in s["properties"].fields)
             && ("additionalProperties" in s ==> s["additionalProperties"] == Bool(false)))
  {
    hide FiniteWithin, TypeDefined, RequiredDefined, TypeName;
    if "type" in s { TypeIs(s["type"]); }
    if "required" in s { RequiredIs(s["required"]); }
  }

  lemma KeywordsAre(s: Fields)
    ensures (forall key | key in s :: Permitted(key, s[key])) <==>
              && s.Keys <= STRICT_KEYWORDS
              && (forall key | key in s && key in OTHERS :: Permitted(key, s[key]))
              && (forall key | key in s && key in BOUNDS ::
                    Permitted(key, s[key]))
  {
    hide Permitted;
    forall key | key in s ensures Permitted(key, s[key]) ==> key in STRICT_KEYWORDS {
      KeywordsAreThirteen(key, s[key]);
    }
  }

  lemma LevelIs(schema: Json)
    ensures Level(schema) <==> WellFormed(schema)
  {
    hide Permitted, FiniteWithin, Satisfiable, TypeDefined, RequiredDefined, BoundsDefined, Bounded, JsonValue;
    if schema.Obj? {
      var s := schema.fields;
      BoundedIs(schema, 0);
      KeywordsAre(s);
      OtherForms(s);
      if "const" in s { JsonValueIs(s["const"], 0); }
      if s.Keys <= STRICT_KEYWORDS { BoundsAre(s); }
    }
  }

  // ---- the whole definition ----

  /** The schema at the end of a path: `Some(name)` goes to a property, `None` to the items. */
  function Inner(schema: Json, path: seq<Option<string>>): Option<Json>
    decreases |path|
  {
    if path == [] then Some(schema)
    else if !schema.Obj? then None
    else if path[0].None? then
      if "items" in schema.fields then Inner(schema.fields["items"], path[1..]) else None
    else if "properties" in schema.fields && schema.fields["properties"].Obj?
      && path[0].value in schema.fields["properties"].fields
      then Inner(schema.fields["properties"].fields[path[0].value], path[1..])
    else None
  }

  /** Every schema inside is well-formed and not too deep. */
  ghost predicate WellFormedWithin(schema: Json, levels: int) {
    forall path | Inner(schema, path).Some? :: |path| <= levels && WellFormed(Inner(schema, path).value)
  }

  lemma LevelOf(schema: Json, depth: nat)
    ensures Definition(schema, depth) <==>
              && depth <= 16 && Level(schema)
              && ("properties" in schema.fields ==>
                    forall k | k in schema.fields["properties"].fields ::
                      Definition(schema.fields["properties"].fields[k], depth + 1))
              && ("items" in schema.fields ==> Definition(schema.fields["items"], depth + 1))
  {
    hide Bounded, JsonValue, TypeDefined, RequiredDefined, BoundsDefined;
  }

  lemma WellFormedHere(schema: Json, levels: int)
    requires WellFormedWithin(schema, levels)
    ensures levels >= 0 && WellFormed(schema)
    ensures "properties" in schema.fields ==>
              schema.fields["properties"].Obj? && forall k | k in schema.fields["properties"].fields ::
                WellFormedWithin(schema.fields["properties"].fields[k], levels - 1)
    ensures "items" in schema.fields ==> WellFormedWithin(schema.fields["items"], levels - 1)
  {
    hide FiniteWithin, Satisfiable;
    assert Inner(schema, []) == Some(schema);
    if "properties" in schema.fields {
      assert Permitted("properties", schema.fields["properties"]);
      var p := schema.fields["properties"].fields;
      hide WellFormed;
      forall k, path | k in p && Inner(p[k], path).Some?
        ensures |path| <= levels - 1 && WellFormed(Inner(p[k], path).value)
      {
        assert ([Some(k)] + path)[1..] == path;
        assert Inner(schema, [Some(k)] + path) == Inner(p[k], path);
      }
    }
    if "items" in schema.fields {
      hide WellFormed;
      forall path | Inner(schema.fields["items"], path).Some?
        ensures |path| <= levels - 1 && WellFormed(Inner(schema.fields["items"], path).value)
      {
        assert ([None] + path)[1..] == path;
        assert Inner(schema, [None] + path) == Inner(schema.fields["items"], path);
      }
    }
  }

  lemma WellFormedThere(schema: Json, levels: int)
    requires levels >= 0 && WellFormed(schema)
    requires "properties" in schema.fields ==>
               schema.fields["properties"].Obj? && forall k | k in schema.fields["properties"].fields ::
                 WellFormedWithin(schema.fields["properties"].fields[k], levels - 1)
    requires "items" in schema.fields ==> WellFormedWithin(schema.fields["items"], levels - 1)
    ensures WellFormedWithin(schema, levels)
  {
    hide WellFormed;
    forall path: seq<Option<string>> | Inner(schema, path).Some?
      ensures |path| <= levels && WellFormed(Inner(schema, path).value)
    {
      if path != [] {
        if path[0].None? {
          assert Inner(schema.fields["items"], path[1..]) == Inner(schema, path);
          assert WellFormedWithin(schema.fields["items"], levels - 1);
        } else {
          var child := schema.fields["properties"].fields[path[0].value];
          assert Inner(child, path[1..]) == Inner(schema, path);
          assert WellFormedWithin(child, levels - 1);
        }
      }
    }
  }

  /** A definition is accepted exactly when every schema inside it stands at most 16 levels deep and
      holds only permitted keywords, each in its form, with bounds that leave something. */
  lemma {:induction false} DefinitionIs(schema: Json, depth: nat)
    ensures Definition(schema, depth) <==> WellFormedWithin(schema, 16 - depth)
    decreases schema
  {
    hide Level, WellFormed, WellFormedWithin, Definition;
    LevelOf(schema, depth);
    LevelIs(schema);
    if WellFormedWithin(schema, 16 - depth) { WellFormedHere(schema, 16 - depth); }
    if depth <= 16 && Level(schema) {
      PropertiesAreObject(schema);
      if "properties" in schema.fields {
        var p := schema.fields["properties"].fields;
        forall k | k in p ensures Definition(p[k], depth + 1) <==> WellFormedWithin(p[k], 16 - depth - 1) {
          DefinitionIs(p[k], depth + 1);
        }
      }
      if "items" in schema.fields { DefinitionIs(schema.fields["items"], depth + 1); }
      if Definition(schema, depth) { WellFormedThere(schema, 16 - depth); }
    }
  }

  lemma PropertiesAreObject(schema: Json)
    requires Level(schema)
    ensures schema.Obj? && ("properties" in schema.fields ==> schema.fields["properties"].Obj?)
  {
  }
}

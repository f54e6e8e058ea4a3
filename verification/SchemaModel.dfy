/** The schema validator (schema.py): the static check of a definition, the strict
    check of a value, the check of declared defaults and the permissive legacy check. */
module SchemaModel {
  import opened JsonModel

  const MAX_SCHEMA_DEPTH := 16
  const MAX_VALUE_DEPTH := 64

  /** `Undefined`: the check came to a part of the definition that is not what it relies on; the
      source then fails with some other exception, or goes on by a rule of the host language. */
  datatype Verdict = Accept | Reject | Undefined

  function Then(a: Verdict, b: Verdict): Verdict { if a.Accept? then b else a }

  function When(ok: bool): Verdict { if ok then Accept else Reject }

  const TYPE_NAMES: set<string> := {"null", "boolean", "integer", "number", "string", "array", "object"}

  const STRICT_KEYWORDS: set<string> := {
    "type", "enum", "const", "required", "properties", "additionalProperties", "items",
    "minItems", "maxItems", "minLength", "maxLength", "minimum", "maximum" }

  predicate Matches(name: string, v: Json) {
    if name == "null" then v.Null?
    else if name == "boolean" then v.Bool?
    else if name == "integer" then v.Int?
    else if name == "number" then v.Int? || v.Float?
    else if name == "string" then v.Str?
    else if name == "array" then v.Arr?
    else name == "object" && v.Obj?
  }

  function Get(s: Fields, key: string): Option<Json> { if key in s then Some(s[key]) else None }

  /** A key that is absent or null, as `dict.get` followed by a test for None sees it. */
  function Given(s: Fields, key: string): Option<Json> {
    if key in s && !s[key].Null? then Some(s[key]) else None
  }

  predicate Falsy(j: Json) {
    match j
    case Null => true
    case Bool(b) => !b
    case Int(i) => i == 0
    case Float(f) => f == Finite(0.0)
    case Str(t) => t == ""
    case Arr(items) => items == []
    case Obj(fields) => fields == map[]
  }

  // ---- numbers ----

  /** The exact value of a number; a float may have none. */
  function NumberOf(j: Json): Number
    requires j.Int? || j.Float?
  {
    if j.Int? then Finite(j.i as real) else j.f
  }

  predicate Less(a: Number, b: Number) {
    match (a, b)
    case (Finite(x), Finite(y)) => x < y
    case (NegInf, Finite(_)) => true
    case (NegInf, PosInf) => true
    case (Finite(_), PosInf) => true
    case _ => false
  }

  predicate SameNumber(a: Number, b: Number) { !a.NaN? && a == b }

  // ---- equality ----

  /** `_json_equal`: a boolean is not a number, a number is the same number in either form. */
  predicate JsonEqual(l: Json, r: Json) {
    if l.Bool? || r.Bool? then l.Bool? && r.Bool? && l.b == r.b
    else if l.Null? || r.Null? then l.Null? && r.Null?
    else if (l.Int? || l.Float?) && (r.Int? || r.Float?) then SameNumber(NumberOf(l), NumberOf(r))
    else if l.Str? || r.Str? then l.Str? && r.Str? && l.s == r.s
    else if l.Arr? && r.Arr? then
      |l.items| == |r.items| && forall i | 0 <= i < |l.items| :: JsonEqual(l.items[i], r.items[i])
    else if l.Obj? && r.Obj? then
      l.fields.Keys == r.fields.Keys && forall k | k in l.fields :: JsonEqual(l.fields[k], r.fields[k])
    else false
  }

  /** The host language's `==`: true is 1. */
  predicate HostEqual(l: Json, r: Json) {
    if Numeric(l) && Numeric(r) then SameNumber(HostNumber(l), HostNumber(r))
    else
      match (l, r)
      case (Null, Null) => true
      case (Str(a), Str(b)) => a == b
      case (Arr(a), Arr(b)) => |a| == |b| && forall i | 0 <= i < |a| :: HostEqual(a[i], b[i])
      case (Obj(a), Obj(b)) => a.Keys == b.Keys && forall k | k in a :: HostEqual(a[k], b[k])
      case _ => false
  }

  predicate Numeric(j: Json) { j.Bool? || j.Int? || j.Float? }

  function HostNumber(j: Json): Number
    requires Numeric(j)
  {
    if j.Bool? then Finite(if j.b then 1.0 else 0.0) else NumberOf(j)
  }

  // ---- bounded, finite values ----

  /** `_reject_non_finite`: finite, and nested at most 64 deep. */
  predicate Bounded(v: Json, depth: nat) {
    && depth <= MAX_VALUE_DEPTH
    && (v.Float? ==> v.f.Finite?)
    && (v.Obj? ==> forall k | k in v.fields :: Bounded(v.fields[k], depth + 1))
    && (v.Arr? ==> forall i | 0 <= i < |v.items| :: Bounded(v.items[i], depth + 1))
  }

  /** `_is_json_value`. */
  predicate JsonValue(v: Json, depth: nat) {
    && depth <= MAX_SCHEMA_DEPTH
    && (v.Float? ==> v.f.Finite?)
    && (v.Obj? ==> forall k | k in v.fields :: JsonValue(v.fields[k], depth + 1))
    && (v.Arr? ==> forall i | 0 <= i < |v.items| :: JsonValue(v.items[i], depth + 1))
  }

  // ---- the definition ----

  predicate TypeDefined(t: Json) {
    match t
    case Str(name) => name in TYPE_NAMES
    case Arr(items) => items != [] && forall i | 0 <= i < |items| :: items[i].Str? && items[i].s in TYPE_NAMES
    case _ => false
  }

  predicate RequiredDefined(r: Json) {
    && r.Arr?
    && (forall i | 0 <= i < |r.items| :: r.items[i].Str? && r.items[i].s != "")
    && (forall i, j | 0 <= i < j < |r.items| :: r.items[i] != r.items[j])
  }

  predicate CountDefined(s: Fields, least: string, most: string) {
    && (least in s ==> s[least].Int? && s[least].i >= 0)
    && (most in s ==> s[most].Int? && s[most].i >= 0)
    && (least in s && most in s ==> s[least].i <= s[most].i)
  }

  predicate FiniteNumber(j: Json) { j.Int? || (j.Float? && j.f.Finite?) }

  predicate BoundsDefined(s: Fields) {
    && CountDefined(s, "minItems", "maxItems")
    && CountDefined(s, "minLength", "maxLength")
    && ("minimum" in s ==> FiniteNumber(s["minimum"]))
    && ("maximum" in s ==> FiniteNumber(s["maximum"]))
    && ("minimum" in s && "maximum" in s ==> !Less(NumberOf(s["maximum"]), NumberOf(s["minimum"])))
  }

  /** `validate_definition` accepts. */
  predicate Definition(schema: Json, depth: nat) {
    && depth <= MAX_SCHEMA_DEPTH
    && schema.Obj?
    && schema.fields.Keys <= STRICT_KEYWORDS
    && Bounded(schema, 0)
    && ("type" in schema.fields ==> TypeDefined(schema.fields["type"]))
    && ("enum" in schema.fields ==> schema.fields["enum"].Arr? && schema.fields["enum"].items != [])
    && ("const" in schema.fields ==> JsonValue(schema.fields["const"], 0))
    && ("required" in schema.fields ==> RequiredDefined(schema.fields["required"]))
    && ("properties" in schema.fields ==>
          && schema.fields["properties"].Obj?
          && forall k | k in schema.fields["properties"].fields ::
               k != "" && Definition(schema.fields["properties"].fields[k], depth + 1))
    && ("additionalProperties" in schema.fields ==> schema.fields["additionalProperties"] == Bool(false))
    && ("items" in schema.fields ==> Definition(schema.fields["items"], depth + 1))
    && BoundsDefined(schema.fields)
  }

  // ---- the strict check of a value ----

  /** `enum` and `const`. */
  function Literals(v: Json, s: Fields): Verdict {
    if "enum" in s && !s["enum"].Arr? then Undefined
    else if "enum" in s && !(exists i | 0 <= i < |s["enum"].items| :: JsonEqual(v, s["enum"].items[i])) then Reject
    else When("const" in s ==> JsonEqual(v, s["const"]))
  }

  function Typed(v: Json, s: Fields): Verdict {
    var t := Given(s, "type");
    if t.None? then Accept
    else if !TypeDefined(t.value) then Undefined
    else if t.value.Str? then When(Matches(t.value.s, v))
    else When(exists i | 0 <= i < |t.value.items| :: Matches(t.value.items[i].s, v))
  }

  function Required(f: Fields, s: Fields): Verdict {
    var r := Get(s, "required");
    if r.None? || Falsy(r.value) then Accept
    else if !r.value.Arr? || exists i | 0 <= i < |r.value.items| :: !r.value.items[i].Str? then Undefined
    else When(forall i | 0 <= i < |r.value.items| :: r.value.items[i].s in f)
  }

  /** `schema.get("properties") or {}`. */
  function Properties(s: Fields): Option<Fields> {
    var p := Get(s, "properties");
    if p.None? || Falsy(p.value) then Some(map[]) else if p.value.Obj? then Some(p.value.fields) else None
  }

  predicate Closed(s: Fields) { Get(s, "additionalProperties") == Some(Bool(false)) }

  function Extras(f: Fields, s: Fields): Verdict {
    var p := Properties(s);
    if !Closed(s) then Accept else if p.None? then Undefined else When(f.Keys <= p.value.Keys)
  }

  function Count(n: nat, s: Fields, least: string, most: string): Verdict {
    var lo, hi := Given(s, least), Given(s, most);
    if (lo.Some? && !lo.value.Int?) || (hi.Some? && !hi.value.Int?) then Undefined
    else When((lo.Some? ==> n >= lo.value.i) && (hi.Some? ==> n <= hi.value.i))
  }

  function Range(x: Number, s: Fields): Verdict {
    var lo, hi := Given(s, "minimum"), Given(s, "maximum");
    if (lo.Some? && !lo.value.Int? && !lo.value.Float?)
      || (hi.Some? && !hi.value.Int? && !hi.value.Float?) then Undefined
    else When((lo.Some? ==> !Less(x, NumberOf(lo.value))) && (hi.Some? ==> !Less(NumberOf(hi.value), x)))
  }

  /** The described properties a value has; the order of a mapping does not matter. */
  function Described(v: Json, s: Fields): Verdict
    requires v.Obj?
    decreases v, 0
  {
    var p := Properties(s);
    if p.None? then Undefined
    else if exists k | k in v.fields ::
      k in p.value && (!p.value[k].Obj? || Value(v.fields[k], p.value[k].fields).Undefined?)
      then Undefined
    else When(forall k | k in v.fields ::
                k in p.value ==> p.value[k].Obj? && Value(v.fields[k], p.value[k].fields).Accept?)
  }

  function Items(v: Json, s: Fields): Verdict
    requires v.Arr?
    decreases v, 0
  {
    var items := Given(s, "items");
    if items.None? then Accept
    else if v.items != [] && !items.value.Obj? then Undefined
    else if exists i | 0 <= i < |v.items| :: Value(v.items[i], items.value.fields).Undefined? then Undefined
    else When(forall i | 0 <= i < |v.items| :: Value(v.items[i], items.value.fields).Accept?)
  }

  /** The checks that depend on what the value is. */
  function Shape(v: Json, s: Fields): Verdict
    decreases v, 1
  {
    match v
    case Obj(f) => Then(Required(f, s), Then(Described(v, s), Extras(f, s)))
    case Arr(items) => Then(Count(|items|, s, "minItems", "maxItems"), Items(v, s))
    case Str(text) => Count(|text|, s, "minLength", "maxLength")
    case Int(_) => Range(NumberOf(v), s)
    case Float(_) => Range(NumberOf(v), s)
    case _ => Accept
  }

  /** `validate_value`. */
  function Value(v: Json, s: Fields): Verdict
    decreases v, 2
  {
    if !Bounded(v, 0) then Reject else Then(Literals(v, s), Then(Typed(v, s), Shape(v, s)))
  }

  /** `validate_strict`. */
  function Strict(v: Json, schema: Json): Verdict {
    if !Definition(schema, 0) then Reject else Value(v, schema.fields)
  }

  // ---- declared defaults ----

  /** One declared field against the part of the schema that describes it. */
  function Declared(key: string, item: Json, s: Fields): Verdict {
    var p := Properties(s);
    if p.None? then Undefined
    else if key in p.value then if p.value[key].Obj? then Value(item, p.value[key].fields) else Undefined
    else When(!Closed(s))
  }

  /** `validate_declared_defaults`. */
  function Defaults(v: Json, schema: Json): Verdict {
    if !Definition(schema, 0) || !Bounded(v, 0) then Reject
    else
      var s := schema.fields;
      Then(Typed(v, s),
           if !v.Obj? then When("properties" !in s && !Closed(s))
           else if exists k | k in v.fields :: Declared(k, v.fields[k], s).Undefined? then Undefined
           else When(forall k | k in v.fields :: Declared(k, v.fields[k], s).Accept?))
  }

  // ---- the legacy check ----

  /** `float(bound)`: an integer is rounded, or is too large to convert. */
  type Rounding = int -> Option<real>

  function FloatOf(bound: Json, round: Rounding): Option<Number> {
    match bound
    case Int(i) => if round(i).Some? then Some(Finite(round(i).value)) else None
    case Float(f) => Some(f)
    case _ => None
  }

  function LegacyLiterals(v: Json, s: Fields): Verdict {
    if "enum" in s && s["enum"].Arr?
      && !(exists i | 0 <= i < |s["enum"].items| :: HostEqual(v, s["enum"].items[i])) then Reject
    else When("const" in s ==> HostEqual(v, s["const"]))
  }

  function LegacyRange(x: Number, s: Fields, round: Rounding): Verdict {
    var lo, hi := Given(s, "minimum"), Given(s, "maximum");
    if (lo.Some? && FloatOf(lo.value, round).None?) || (hi.Some? && FloatOf(hi.value, round).None?) then Undefined
    else When((lo.Some? ==> !Less(x, FloatOf(lo.value, round).value))
              && (hi.Some? ==> !Less(FloatOf(hi.value, round).value, x)))
  }

  function LegacyDescribed(v: Json, s: Fields, round: Rounding): Verdict
    requires v.Obj?
    decreases v, 0
  {
    var p := Properties(s);
    if p.None? then Reject
    else if exists k | k in v.fields ::
      k in p.value && p.value[k].Obj? && Legacy(v.fields[k], p.value[k].fields, round).Undefined?
      then Undefined
    else When(forall k | k in v.fields ::
                k in p.value ==> p.value[k].Obj? && Legacy(v.fields[k], p.value[k].fields, round).Accept?)
  }

  function LegacyItems(v: Json, s: Fields, round: Rounding): Verdict
    requires v.Arr?
    decreases v, 0
  {
    var items := Given(s, "items");
    if items.None? then Accept
    else if !items.value.Obj? then Reject
    else if exists i | 0 <= i < |v.items| :: Legacy(v.items[i], items.value.fields, round).Undefined? then Undefined
    else When(forall i | 0 <= i < |v.items| :: Legacy(v.items[i], items.value.fields, round).Accept?)
  }

  function LegacyShape(v: Json, s: Fields, round: Rounding): Verdict
    decreases v, 1
  {
    match v
    case Obj(f) => Then(Required(f, s), Then(LegacyDescribed(v, s, round), Extras(f, s)))
    case Arr(items) => Then(Count(|items|, s, "minItems", "maxItems"), LegacyItems(v, s, round))
    case Str(text) => Count(|text|, s, "minLength", "maxLength")
    case Int(_) => LegacyRange(NumberOf(v), s, round)
    case Float(_) => LegacyRange(NumberOf(v), s, round)
    case _ => Accept
  }

  /** `validate`, on definitions of the strict subset. */
  function Legacy(v: Json, s: Fields, round: Rounding): Verdict
    decreases v, 2
  {
    if s == map[] then Accept
    else Then(LegacyLiterals(v, s), Then(Typed(v, s), LegacyShape(v, s, round)))
  }
}

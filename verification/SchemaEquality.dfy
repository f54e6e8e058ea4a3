/** JSON equality and the host language's equality as equality of canonical forms (schema.py:371-393). */
module SchemaEquality {
  import opened JsonModel
  import opened SchemaModel

  /** An integer is the number it is; nothing else changes. */
  function Canonical(j: Json): Json {
    match j
    case Int(i) => Float(Finite(i as real))
    case Arr(items) => Arr(seq(|items|, i requires 0 <= i < |items| => Canonical(items[i])))
    case Obj(fields) => Obj(map k | k in fields :: Canonical(fields[k]))
    case _ => j
  }

  /** For the host language a boolean is a number, too. */
  function HostCanonical(j: Json): Json {
    match j
    case Bool(b) => Float(Finite(if b then 1.0 else 0.0))
    case Int(i) => Float(Finite(i as real))
    case Arr(items) => Arr(seq(|items|, i requires 0 <= i < |items| => HostCanonical(items[i])))
    case Obj(fields) => Obj(map k | k in fields :: HostCanonical(fields[k]))
    case _ => j
  }

  /** A NaN is not even equal to itself. */
  predicate NoNaN(j: Json) {
    && (j.Float? ==> j.f != NaN)
    && (j.Arr? ==> forall i | 0 <= i < |j.items| :: NoNaN(j.items[i]))
    && (j.Obj? ==> forall k | k in j.fields :: NoNaN(j.fields[k]))
  }

  lemma {:induction false} JsonEqualIsSameForm(l: Json, r: Json)
    ensures JsonEqual(l, r) <==> Canonical(l) == Canonical(r) && NoNaN(l)
    decreases l
  {
    if l.Arr? && r.Arr? {
      ArraysAreAlike(l, r);
    } else if l.Obj? && r.Obj? {
      ObjectsAreAlike(l, r);
    }
  }

  lemma {:induction false} ArraysAreAlike(l: Json, r: Json)
    requires l.Arr? && r.Arr?
    ensures JsonEqual(l, r) <==> Canonical(l) == Canonical(r) && NoNaN(l)
    decreases l, 0
  {
    forall i | 0 <= i < |l.items| && i < |r.items|
      ensures JsonEqual(l.items[i], r.items[i]) <==> Canonical(l.items[i]) == Canonical(r.items[i]) && NoNaN(l.items[i])
    {
      JsonEqualIsSameForm(l.items[i], r.items[i]);
    }
    var a, b := Canonical(l).items, Canonical(r).items;
    assert |a| == |l.items| && |b| == |r.items|;
    if a == b {
      forall i | 0 <= i < |l.items| ensures Canonical(l.items[i]) == Canonical(r.items[i]) { assert a[i] == b[i]; }
    }
  }

  lemma {:induction false} ObjectsAreAlike(l: Json, r: Json)
    requires l.Obj? && r.Obj?
    ensures JsonEqual(l, r) <==> Canonical(l) == Canonical(r) && NoNaN(l)
    decreases l, 0
  {
    forall k | k in l.fields && k in r.fields
      ensures JsonEqual(l.fields[k], r.fields[k])
         <==> Canonical(l.fields[k]) == Canonical(r.fields[k]) && NoNaN(l.fields[k])
    {
      JsonEqualIsSameForm(l.fields[k], r.fields[k]);
    }
    var a, b := Canonical(l).fields, Canonical(r).fields;
    assert a.Keys == l.fields.Keys && b.Keys == r.fields.Keys;
    if a == b {
      forall k | k in l.fields ensures Canonical(l.fields[k]) == Canonical(r.fields[k]) {
        assert k in a && a[k] == b[k];
      }
    }
  }

  lemma {:induction false} HostEqualIsSameForm(l: Json, r: Json)
    ensures HostEqual(l, r) <==> HostCanonical(l) == HostCanonical(r) && NoNaN(l)
    decreases l
  {
    if l.Arr? && r.Arr? {
      HostArraysAreAlike(l, r);
    } else if l.Obj? && r.Obj? {
      HostObjectsAreAlike(l, r);
    }
  }

  lemma {:induction false} HostArraysAreAlike(l: Json, r: Json)
    requires l.Arr? && r.Arr?
    ensures HostEqual(l, r) <==> HostCanonical(l) == HostCanonical(r) && NoNaN(l)
    decreases l, 0
  {
    forall i | 0 <= i < |l.items| && i < |r.items|
      ensures HostEqual(l.items[i], r.items[i])
         <==> HostCanonical(l.items[i]) == HostCanonical(r.items[i]) && NoNaN(l.items[i])
    {
      HostEqualIsSameForm(l.items[i], r.items[i]);
    }
    var a, b := HostCanonical(l).items, HostCanonical(r).items;
    assert |a| == |l.items| && |b| == |r.items|;
    if a == b {
      forall i | 0 <= i < |l.items| ensures HostCanonical(l.items[i]) == HostCanonical(r.items[i]) {
        assert a[i] == b[i];
      }
    }
  }

  lemma {:induction false} HostObjectsAreAlike(l: Json, r: Json)
    requires l.Obj? && r.Obj?
    ensures HostEqual(l, r) <==> HostCanonical(l) == HostCanonical(r) && NoNaN(l)
    decreases l, 0
  {
    forall k | k in l.fields && k in r.fields
      ensures HostEqual(l.fields[k], r.fields[k])
         <==> HostCanonical(l.fields[k]) == HostCanonical(r.fields[k]) && NoNaN(l.fields[k])
    {
      HostEqualIsSameForm(l.fields[k], r.fields[k]);
    }
    var a, b := HostCanonical(l).fields, HostCanonical(r).fields;
    assert a.Keys == l.fields.Keys && b.Keys == r.fields.Keys;
    if a == b {
      forall k | k in l.fields ensures HostCanonical(l.fields[k]) == HostCanonical(r.fields[k]) {
        assert k in a && a[k] == b[k];
      }
    }
  }
}

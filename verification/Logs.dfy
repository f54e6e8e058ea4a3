/** Sequences of events: how many are of a kind, and which is the last of a kind. */
module Logs {
  ghost function Count<E>(log: seq<E>, p: E -> bool): nat {
    if log == [] then 0 else Count(log[..|log| - 1], p) + if p(log[|log| - 1]) then 1 else 0
  }

  lemma CountAppend<E>(log: seq<E>, e: E, p: E -> bool)
    ensures Count(log + [e], p) == Count(log, p) + if p(e) then 1 else 0
  {
    assert (log + [e])[..|log|] == log;
  }

  ghost predicate IsLast<E>(log: seq<E>, i: nat, p: E -> bool) {
    i < |log| && p(log[i]) && forall j | i < j < |log| :: !p(log[j])
  }

  ghost predicate HasNone<E>(log: seq<E>, p: E -> bool) { forall i | 0 <= i < |log| :: !p(log[i]) }

  lemma LastAppend<E>(log: seq<E>, e: E, p: E -> bool)
    ensures forall i: nat :: IsLast(log + [e], i, p) <==> if p(e) then i == |log| else IsLast(log, i, p)
    ensures HasNone(log + [e], p) <==> HasNone(log, p) && !p(e)
    ensures forall i: nat | IsLast(log, i, p) :: i < |log|
  {
    var longer := log + [e];
    assert forall i | 0 <= i < |log| :: longer[i] == log[i];
    assert longer[|log|] == e;
  }

  lemma LastIsInside<E>(log: seq<E>, p: E -> bool)
    ensures forall i: nat | IsLast(log, i, p) :: i < |log|
  {
  }

  /** If there is one at all, there is a last one. */
  lemma {:induction false} SomeIsLast<E>(log: seq<E>, p: E -> bool)
    ensures HasNone(log, p) || exists i: nat :: IsLast(log, i, p)
  {
    if log != [] {
      var before, e := log[..|log| - 1], log[|log| - 1];
      assert log == before + [e];
      SomeIsLast(before, p);
      LastAppend(before, e, p);
      if p(e) { assert IsLast(before + [e], |before|, p); }
    }
  }
}

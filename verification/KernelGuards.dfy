/** Progress guards (core/guards.py) and frame construction (core/frame.py). */
module KernelGuards {
  import opened JsonModel
  import opened KernelTypes

  function AssessFrame(st: RuntimeState, fingerprint: string, config: LoopConfig): GuardOutcome {
    if st.Visits(fingerprint) >= config.maxFrameVisits then GuardOutcome(Cycle, {}, true) else QUIET
  }

  function AssessEffect(key: string, status: ReceiptStatus, changed: bool, mutates: bool): GuardOutcome {
    if status.Completed? && mutates && !changed then GuardOutcome(NoProgress, {key}, true) else QUIET
  }

  predicate Attempted(st: RuntimeState, observation: string, key: string) {
    exists a | a in st.attempts :: a.observation == observation && a.key == key
  }

  function AssessAttempts(st: RuntimeState, observation: string, key: string): GuardOutcome {
    if Attempted(st, observation, key) then GuardOutcome(Repeat, {key}, true) else QUIET
  }

  function Order(kind: GuardKind): nat {
    match kind case NoGuard => 0 case NoProgress => 1 case Repeat => 2 case Cycle => 3
  }

  /** `combine((first, second))`: the worst kind, with the union of the exclusions. */
  function Combine(first: GuardOutcome, second: GuardOutcome): (r: GuardOutcome)
    ensures r.kind in {first.kind, second.kind}
    ensures Order(r.kind) >= Order(first.kind) && Order(r.kind) >= Order(second.kind)
    ensures r == QUIET <==> first.kind.NoGuard? && second.kind.NoGuard?
    ensures r != QUIET ==> forall key :: key in r.deadKeys <==> key in first.deadKeys || key in second.deadKeys
    ensures r != QUIET ==> (r.escalate <==> first.escalate || second.escalate)
    ensures first == QUIET ==> r == if second.kind.NoGuard? then QUIET else second
  {
    var best := if Order(first.kind) > 0 then first else QUIET;
    var worst := if Order(second.kind) > Order(best.kind) then second else best;
    if worst.kind.NoGuard? then worst
    else GuardOutcome(worst.kind, first.deadKeys + second.deadKeys, first.escalate || second.escalate)
  }

  function Digits(n: nat): (s: string)
    ensures s != []
  {
    if n < 10 then [Digit(n)] else Digits(n / 10) + [Digit(n % 10)]
  }

  function Digit(n: nat): char requires n < 10 { '0' + n as char }

  /** `a{index}` for the 1-based position of the candidate in the environment's offer. */
  function CandidateId(index: nat): string { "a" + Digits(index) }

  lemma DigitRange(n: nat)
    requires n < 10
    ensures '0' <= Digit(n) <= '9' && Digit(n) as int == '0' as int + n
  {
  }

  lemma {:induction false} DigitsInjective(n: nat, m: nat)
    requires Digits(n) == Digits(m)
    ensures n == m
  {
    var s := Digits(n);
    DigitRange(n % 10);
    DigitRange(m % 10);
    assert s[|s| - 1] == Digit(n % 10) == Digit(m % 10);
    assert n % 10 == m % 10;
    if n >= 10 && m >= 10 {
      assert s[..|s| - 1] == Digits(n / 10) == Digits(m / 10);
      DigitsInjective(n / 10, m / 10);
    }
  }

  lemma IdsInjective(i: nat, j: nat)
    requires CandidateId(i) == CandidateId(j)
    ensures i == j
  {
    assert CandidateId(i)[1..] == Digits(i) && CandidateId(j)[1..] == Digits(j);
    DigitsInjective(i, j);
  }

  /** Ids are assigned before filtering, so an id names a position in the offer. */
  function Normalize(candidates: seq<Candidate>, first: nat): (r: seq<Candidate>)
    ensures |r| == |candidates|
    ensures forall i | 0 <= i < |r| :: r[i] == candidates[i].(id := CandidateId(first + i))
  {
    if candidates == [] then []
    else [candidates[0].(id := CandidateId(first))] + Normalize(candidates[1..], first + 1)
  }

  predicate Available(c: Candidate, unresolved: set<string>, dead: set<string>) {
    c.key !in unresolved && c.key !in dead
  }

  function Offerable(cs: seq<Candidate>, unresolved: set<string>, dead: set<string>): (r: seq<Candidate>)
    ensures forall c | c in r :: c in cs && c.key !in unresolved && c.key !in dead
    ensures forall c | c in cs && c.key !in unresolved && c.key !in dead :: c in r
    ensures |r| <= |cs|
  {
    if cs == [] then []
    else (if Available(cs[0], unresolved, dead) then [cs[0]] else [])
         + Offerable(cs[1..], unresolved, dead)
  }

  function Kept(c: Candidate, unresolved: set<string>, dead: set<string>): seq<Candidate> {
    if Available(c, unresolved, dead) then [c] else []
  }

  lemma OfferableFirst(cs: seq<Candidate>, unresolved: set<string>, dead: set<string>)
    requires cs != []
    ensures Offerable(cs, unresolved, dead) == Kept(cs[0], unresolved, dead) + Offerable(cs[1..], unresolved, dead)
  {
  }

  lemma Regroup(a: seq<Candidate>, b: seq<Candidate>, c: seq<Candidate>)
    ensures a + (b + c) == (a + b) + c
  {
  }

  /** Order and repetitions survive: the offer of a list is put together from the offers of its parts,
      and a single candidate is kept as it is or dropped. */
  lemma {:induction false} OfferableSplits(a: seq<Candidate>, b: seq<Candidate>, unresolved: set<string>,
                                           dead: set<string>)
    ensures Offerable(a + b, unresolved, dead) == Offerable(a, unresolved, dead) + Offerable(b, unresolved, dead)
    ensures forall c: Candidate ::
              Offerable([c], unresolved, dead) == if Available(c, unresolved, dead) then [c] else []
  {
    forall c: Candidate
      ensures Offerable([c], unresolved, dead) == if Available(c, unresolved, dead) then [c] else []
    {
      OneOffered(c, unresolved, dead);
    }
    if a == [] {
      assert a + b == b && Offerable(a, unresolved, dead) == [];
    } else {
      hide Offerable, Kept;
      assert (a + b)[0] == a[0] && (a + b)[1..] == a[1..] + b;
      OfferableFirst(a, unresolved, dead);
      OfferableFirst(a + b, unresolved, dead);
      OfferableSplits(a[1..], b, unresolved, dead);
      Regroup(Kept(a[0], unresolved, dead), Offerable(a[1..], unresolved, dead), Offerable(b, unresolved, dead));
    }
  }

  lemma OneOffered(c: Candidate, unresolved: set<string>, dead: set<string>)
    ensures Offerable([c], unresolved, dead) == if Available(c, unresolved, dead) then [c] else []
  {
    assert [c][1..] == [];
  }

  predicate DistinctIds(cs: seq<Candidate>) { forall i, j | 0 <= i < j < |cs| :: cs[i].id != cs[j].id }

  lemma {:induction false} OfferableKeepsDistinct(cs: seq<Candidate>, unresolved: set<string>, dead: set<string>)
    requires DistinctIds(cs)
    ensures DistinctIds(Offerable(cs, unresolved, dead))
  {
    if cs != [] {
      OfferableKeepsDistinct(cs[1..], unresolved, dead);
      var rest := Offerable(cs[1..], unresolved, dead);
      forall j | 0 <= j < |rest| ensures rest[j].id != cs[0].id {
        assert rest[j] in rest;
        var k :| 0 <= k < |cs[1..]| && cs[1..][k] == rest[j];
        assert cs[k + 1] == rest[j];
      }
    }
  }

  lemma NormalizedAreDistinct(candidates: seq<Candidate>)
    ensures DistinctIds(Normalize(candidates, 1))
  {
    hide CandidateId, Normalize;
    var all := Normalize(candidates, 1);
    forall i, j | 0 <= i < j < |all| ensures all[i].id != all[j].id {
      if CandidateId(1 + i) == CandidateId(1 + j) { IdsInjective(1 + i, 1 + j); }
    }
  }

  /** Searching the offer that is left finds what searching the whole offer finds, if it is available. */
  lemma {:induction false} FindInOffer(cs: seq<Candidate>, unresolved: set<string>, dead: set<string>, id: string)
    requires DistinctIds(cs)
    ensures Frame.FindIn(Offerable(cs, unresolved, dead), id)
         == var x := Frame.FindIn(cs, id);
            if x.Some? && Available(x.value, unresolved, dead) then x else None
  {
    if cs != [] {
      FindInOffer(cs[1..], unresolved, dead, id);
      OfferableFirst(cs, unresolved, dead);
      if cs[0].id == id {
        assert forall i | 0 <= i < |cs[1..]| :: cs[1..][i].id != id;
        var left := Offerable(cs, unresolved, dead);
        assert Available(cs[0], unresolved, dead) ==> left[0] == cs[0];
        assert !Available(cs[0], unresolved, dead) ==> left == Offerable(cs[1..], unresolved, dead);
      } else if Available(cs[0], unresolved, dead) {
        var left := Offerable(cs, unresolved, dead);
        assert left[0] == cs[0] && left[1..] == Offerable(cs[1..], unresolved, dead);
      } else {
        assert Offerable(cs, unresolved, dead) == Offerable(cs[1..], unresolved, dead);
      }
    }
  }

  function Views(cs: seq<Candidate>): seq<CandidateView> {
    seq(|cs|, i requires 0 <= i < |cs| =>
      var x := cs[i];
      CandidateView(x.id, x.key, x.capability, x.description, x.args, x.effect, x.complete))
  }

  function Tag(fingerprint: string): string { if |fingerprint| <= 8 then fingerprint else fingerprint[..8] }

  /** `None` is the FrameBudgetError. `chars` is the length of the frame's JSON text. */
  function BuildFrame(c: Setup, st: RuntimeState, candidates: seq<Candidate>, chars: nat): (r: Option<Frame>)
    ensures r.Some? ==>
              && r.value.revision == st.Revision()
              && r.value.frameId.version == r.value.stateVersion == st.stateVersion
  {
    var offered := Offerable(Normalize(candidates, 1), st.UnresolvedKeys(), st.deadActions);
    if |offered| + |c.config.controls| > c.config.maxOptions then None
    else
      var fingerprint := c.hash(Stability(st.Revision(), st.task.goal, st.task.inputs, Views(offered),
                                          c.config.controls, st.deadActions));
      if chars > c.config.frameCharBudget then None
      else Some(Frame(FrameId(st.stateVersion, Tag(fingerprint)), st.stateVersion, fingerprint,
                      st.Revision(), offered, c.config.controls))
  }

  /** The offer without what cannot be chosen, each under the id of its position. */
  ghost predicate Lists(c: Setup, st: RuntimeState, candidates: seq<Candidate>, options: seq<Candidate>) {
    options == Offerable(Normalize(candidates, 1), st.UnresolvedKeys(), st.deadActions)
  }

  /** A frame is refused exactly when its options or its text exceed the budget. Otherwise it offers what
      can be chosen and the configured controls, and its fingerprint is the hash of what can yield progress. */
  lemma FrameIs(c: Setup, st: RuntimeState, candidates: seq<Candidate>, chars: nat, options: seq<Candidate>)
    requires Lists(c, st, candidates, options)
    ensures var frame := BuildFrame(c, st, candidates, chars);
            && (frame.None? <==>
                  |options| + |c.config.controls| > c.config.maxOptions || chars > c.config.frameCharBudget)
            && (frame.Some? ==>
                  && frame.value.candidates == options && frame.value.controls == c.config.controls
                  && frame.value.revision == st.Revision() && frame.value.stateVersion == st.stateVersion
                  && frame.value.fingerprint
                     == c.hash(Stability(st.Revision(), st.task.goal, st.task.inputs, Views(options), c.config.controls,
                                         st.deadActions))
                  && frame.value.frameId.version == st.stateVersion
                  && frame.value.frameId.tag <= frame.value.fingerprint
                  && |frame.value.frameId.tag|
                     == if |frame.value.fingerprint| < 8 then |frame.value.fingerprint| else 8)
  {
  }

  lemma FrameOffers(c: Setup, st: RuntimeState, candidates: seq<Candidate>, chars: nat, x: Candidate)
    requires BuildFrame(c, st, candidates, chars).Some? && x in BuildFrame(c, st, candidates, chars).value.candidates
    ensures x.key !in st.deadActions && x.key !in st.UnresolvedKeys()
    ensures exists i | 0 <= i < |candidates| :: x == candidates[i].(id := CandidateId(1 + i))
  {
  }

  /** `_validate_candidate`: true when some check rejects the candidate. */
  predicate Refused(st: RuntimeState, cand: Candidate, environmentVeto: bool, hostVeto: bool) {
    || cand.key in st.deadActions
    || cand.key in st.UnresolvedKeys()
    || (cand.capability !in st.task.authorization && st.task.authorization != [])
    || (cand.observation.Some? && cand.observation.value != st.Revision())
    || st.observationStale
    || environmentVeto
    || hostVeto
  }
}

/** Resource claims of managed runs (host/service.py:912-969 and its callers): claim files under one
    lock, journals that grow meanwhile, and status files that lag behind them. */
module HostClaims {
  import opened JsonModel
  import opened HostReduce
  import HostLifecycle

  /** A claim file: it names a run, or it cannot be read. */
  datatype Claim = Held(run: string) | Garbage

  type Claims = map<string, Claim>

  /** What `load_status` shows of the run that a claim names. */
  type Sight = Option<ManagedState>

  datatype Conflict = NoStatus(key: string) | Active(key: string, run: string) | Quarantined(key: string, run: string)

  /** The first loop of acquire: every key must be free or released; released claims are unlinked. */
  function Check(claims: Claims, keys: seq<string>, seen: seq<Sight>): (Claims, Option<Conflict>)
    requires |seen| == |keys|
    decreases |keys|
  {
    if keys == [] then (claims, None)
    else
      var key := keys[0];
      if key !in claims then Check(claims, keys[1..], seen[1..])
      else if claims[key].Garbage? then (claims, Some(NoStatus(key)))
      else if seen[0].None? then (claims, Some(NoStatus(key)))
      else if !seen[0].value.resourcesReleased then
        (claims, Some(if seen[0].value.status.Terminal() then Quarantined(key, claims[key].run)
                      else Active(key, claims[key].run)))
      else Check(claims - {key}, keys[1..], seen[1..])
  }

  /** The second loop: one claim for every key. */
  function Write(claims: Claims, run: string, keys: seq<string>): Claims {
    if keys == [] then claims else Write(claims, run, keys[..|keys| - 1])[keys[|keys| - 1] := Held(run)]
  }

  function Acquired(claims: Claims, run: string, keys: seq<string>, seen: seq<Sight>): (Claims, Option<Conflict>)
    requires |seen| == |keys|
  {
    var (left, conflict) := Check(claims, keys, seen);
    if conflict.Some? then (left, conflict) else (Write(left, run, keys), None)
  }

  function Released(claims: Claims, run: string, keys: seq<string>): Claims {
    map k | k in claims && !(k in keys && claims[k] == Held(run)) :: claims[k]
  }

  class ClaimDirectory {
    var claims: Claims

    constructor (claims: Claims)
      ensures this.claims == claims
    {
      this.claims := claims;
    }

    method Acquire(run: string, keys: seq<string>, seen: seq<Sight>) returns (conflict: Option<Conflict>)
      requires |seen| == |keys|
      modifies this
      ensures (claims, conflict) == Acquired(old(claims), run, keys, seen)
    {
      for i := 0 to |keys|
        invariant Check(claims, keys[i..], seen[i..]) == Check(old(claims), keys, seen)
      {
        var key := keys[i];
        assert keys[i..][1..] == keys[i + 1..] && seen[i..][1..] == seen[i + 1..];
        if key !in claims { continue; }
        if claims[key].Garbage? { return Some(NoStatus(key)); }
        if seen[i].None? { return Some(NoStatus(key)); }
        if !seen[i].value.resourcesReleased {
          return Some(if seen[i].value.status.Terminal() then Quarantined(key, claims[key].run)
                      else Active(key, claims[key].run));
        }
        claims := claims - {key};
      }
      ghost var left := claims;
      for i := 0 to |keys|
        invariant claims == Write(left, run, keys[..i])
      {
        assert keys[..i + 1][..i] == keys[..i];
        claims := claims[keys[i] := Held(run)];
      }
      assert keys[..|keys|] == keys;
      return None;
    }

    method Release(run: string, keys: seq<string>)
      modifies this
      ensures claims == Released(old(claims), run, keys)
    {
      for i := 0 to |keys|
        invariant claims == Released(old(claims), run, keys[..i])
      {
        var key := keys[i];
        assert keys[..i + 1] == keys[..i] + [key];
        if key in claims && claims[key] == Held(run) {
          claims := claims - {key};
        }
      }
      assert keys[..|keys|] == keys;
    }
  }

  // ---- all runs of a home directory ----

  /** The keys a run asked for, its journal, and whether its start gave up. */
  datatype RunFiles = RunFiles(keys: seq<string>, journal: seq<ManagedEvent>, dead: bool)

  datatype World = World(claims: Claims, runs: map<string, RunFiles>)

  /** `Start` and `Withdraw` are `start_run`; `Die` is a start that is killed after it has looked at
      some keys and, if it had looked at all, written some claims. `Retire` is any of the places that
      release the claims of a run whose status, read from a journal of length `k`, says released. */
  datatype Step =
    | Start(run: string, keys: seq<string>, seen: seq<Sight>)
    | Die(run: string, keys: seq<string>, seen: seq<Sight>, looked: nat, written: nat)
    | Withdraw(run: string)
    | Append(run: string, event: ManagedEvent)
    | Retire(run: string, k: nat)

  /** A status file shows the replay of some prefix of the journal, however old. */
  ghost predicate Shows(journal: seq<ManagedEvent>, st: ManagedState) {
    exists k: nat :: 0 < k <= |journal| && Replay(journal[..k]) == Ok(st)
  }

  /** For each key, what is seen is a status of the run that claims it, or nothing. */
  ghost predicate Honest(w: World, keys: seq<string>, seen: seq<Sight>) {
    && |seen| == |keys|
    && forall i | 0 <= i < |keys| && keys[i] in w.claims && w.claims[keys[i]].Held? && seen[i].Some? ::
         w.claims[keys[i]].run in w.runs && Shows(w.runs[w.claims[keys[i]].run].journal, seen[i].value)
  }

  ghost predicate HasReleased(journal: seq<ManagedEvent>) {
    Replay(journal).Ok? && Replay(journal).value.resourcesReleased
  }

  /** A run that has claimed its keys and has not released its resources. */
  ghost predicate Holds(w: World, run: string, key: string) {
    run in w.runs && !w.runs[run].dead && key in w.runs[run].keys && !HasReleased(w.runs[run].journal)
  }

  ghost predicate Allowed(w: World, s: Step) {
    match s
    case Start(run, keys, seen) => run !in w.runs && Honest(w, keys, seen)
    case Die(run, keys, seen, looked, written) =>
      run !in w.runs && Honest(w, keys, seen) && looked <= |keys| && written <= |keys|
    case Withdraw(run) => run in w.runs && w.runs[run].journal == []
    case Append(run, e) =>
      && run in w.runs && !w.runs[run].dead
      && (e.body.RunCreated? && w.runs[run].journal == [] ==> e.body.spec.resourceKeys == w.runs[run].keys)
    case Retire(run, k) => run in w.runs && 0 < k <= |w.runs[run].journal| && HasReleased(w.runs[run].journal[..k])
  }

  ghost function Take(w: World, s: Step): World
    requires Allowed(w, s)
  {
    match s
    case Start(run, keys, seen) =>
      var (claims, conflict) := Acquired(w.claims, run, keys, seen);
      World(claims, if conflict.None? then w.runs[run := RunFiles(keys, [], false)] else w.runs)
    case Die(run, keys, seen, looked, written) =>
      var (left, conflict) := Check(w.claims, keys[..looked], seen[..looked]);
      World(if conflict.None? && looked == |keys| then Write(left, run, keys[..written]) else left,
            w.runs[run := RunFiles(keys, [], true)])
    case Withdraw(run) =>
      World(Released(w.claims, run, w.runs[run].keys), w.runs[run := w.runs[run].(dead := true)])
    case Append(run, e) =>
      var longer := w.runs[run].journal + [e];
      if Fold(longer).Ok? then w.(runs := w.runs[run := w.runs[run].(journal := longer)]) else w
    case Retire(run, k) => w.(claims := Released(w.claims, run, w.runs[run].keys))
  }

  /** Whatever happens from a world on. */
  ghost predicate AllAllowed(w: World, steps: seq<Step>)
    decreases |steps|, 0
  {
    steps == [] ||
      var before := steps[..|steps| - 1];
      AllAllowed(w, before) && Allowed(Run(w, before), steps[|steps| - 1])
  }

  ghost function Run(w: World, steps: seq<Step>): World
    requires AllAllowed(w, steps)
    decreases |steps|, 1
  {
    if steps == [] then w else Take(Run(w, steps[..|steps| - 1]), steps[|steps| - 1])
  }

  /** No two runs hold the same key. */
  ghost predicate Exclusive(w: World) {
    forall first, second, key | Holds(w, first, key) && Holds(w, second, key) :: first == second
  }

  /** Not now, and not after anything that may happen. */
  ghost predicate StaysExclusive(w: World) {
    forall steps | AllAllowed(w, steps) :: Exclusive(Run(w, steps))
  }

  // ---- acquire: all or none ----

  predicate Subset(small: Claims, large: Claims) {
    forall k | k in small :: k in large && small[k] == large[k]
  }

  /** What the first loop takes away: only claims that were seen released. */
  lemma {:induction false} CheckRemoves(claims: Claims, keys: seq<string>, seen: seq<Sight>)
    requires |seen| == |keys|
    ensures var left := Check(claims, keys, seen).0;
            && Subset(left, claims)
            && forall k | k in claims && k !in left ::
                 exists i ::
                   0 <= i < |keys| && keys[i] == k && claims[k].Held? && seen[i].Some?
                   && seen[i].value.resourcesReleased
    ensures Check(claims, keys, seen).1.None? ==> forall k | k in keys :: k !in Check(claims, keys, seen).0
    decreases |keys|
  {
    if keys != [] {
      var key := keys[0];
      var rest := if key in claims then claims - {key} else claims;
      CheckRemoves(rest, keys[1..], seen[1..]);
      var left := Check(claims, keys, seen).0;
      forall k | k in claims && k !in left
        ensures exists i ::
                  0 <= i < |keys| && keys[i] == k && claims[k].Held? && seen[i].Some?
                  && seen[i].value.resourcesReleased
      {
        if k in rest && k !in Check(rest, keys[1..], seen[1..]).0 {
          var i :| 0 <= i < |keys[1..]| && keys[1..][i] == k && rest[k].Held? && seen[1..][i].Some?
                   && seen[1..][i].value.resourcesReleased;
          assert keys[i + 1] == k && seen[i + 1] == seen[1..][i];
        } else {
          assert keys[0] == k;
        }
      }
    }
  }

  lemma {:induction false} WriteAdds(claims: Claims, run: string, keys: seq<string>)
    ensures forall k :: k in Write(claims, run, keys) <==> k in claims || k in keys
    ensures forall k | k in Write(claims, run, keys) ::
              Write(claims, run, keys)[k] == if k in keys then Held(run) else claims[k]
  {
    if keys != [] {
      assert keys == keys[..|keys| - 1] + [keys[|keys| - 1]];
      WriteAdds(claims, run, keys[..|keys| - 1]);
    }
  }

  /** Acquire writes a claim for every key or for none, and removes nothing but claims of runs that
      were seen to have released their resources. */
  lemma AcquireIsAllOrNone(claims: Claims, run: string, keys: seq<string>, seen: seq<Sight>)
    requires |seen| == |keys|
    ensures var (after, conflict) := Acquired(claims, run, keys, seen);
            && (conflict.None? ==> forall k | k in keys :: k in after && after[k] == Held(run))
            && (conflict.Some? ==> Subset(after, claims))
            && (forall k | k !in keys :: (k in after <==> k in claims) && (k in claims ==> after[k] == claims[k]))
            && (forall k | k in claims && (k !in after || after[k] != claims[k]) ::
                  exists i ::
                    0 <= i < |keys| && keys[i] == k && claims[k].Held? && seen[i].Some?
                    && seen[i].value.resourcesReleased)
  {
    CheckRemoves(claims, keys, seen);
    WriteAdds(Check(claims, keys, seen).0, run, keys);
  }

  /** At its first occurrence a key is claimed, and nobody can see that its run has released it. */
  ghost predicate Blocked(claims: Claims, keys: seq<string>, seen: seq<Sight>, i: nat)
    requires |seen| == |keys|
  {
    && i < |keys| && (forall j | 0 <= j < i :: keys[j] != keys[i]) && keys[i] in claims
    && !(claims[keys[i]].Held? && seen[i].Some? && seen[i].value.resourcesReleased)
  }

  /** What the caller is told about a blocked key: its claim or the status of its run cannot be read, or
      that run is still active, or it has ended and has not released. */
  ghost predicate Told(claims: Claims, key: string, sight: Sight, conflict: Conflict) {
    if key !in claims then false
    else if claims[key].Garbage? || sight.None? then conflict == NoStatus(key)
    else if sight.value.status in {Starting, Running, Stopping} then conflict == Active(key, claims[key].run)
    else conflict == Quarantined(key, claims[key].run)
  }

  lemma BlockedLater(claims: Claims, keys: seq<string>, seen: seq<Sight>, i: nat)
    requires |seen| == |keys| && keys != [] && !Blocked(claims, keys, seen, 0)
    ensures Blocked(claims, keys, seen, i + 1) <==> Blocked(claims - {keys[0]}, keys[1..], seen[1..], i)
  {
    var rest := keys[1..];
    assert forall j | 0 <= j < |rest| :: rest[j] == keys[j + 1] && seen[1..][j] == seen[j + 1];
    if Blocked(claims - {keys[0]}, rest, seen[1..], i) {
      assert forall j | 0 < j < i + 1 :: keys[j] == rest[j - 1];
      assert keys[i + 1] in claims - {keys[0]};
    }
  }

  function Members(keys: seq<string>): set<string> { set k | k in keys }

  /** The first blocked key stands at `i`; the caller is told about it, and the claims before it are gone. */
  ghost predicate StopsAt(claims: Claims, keys: seq<string>, seen: seq<Sight>, left: Claims, conflict: Conflict, i: nat)
    requires |seen| == |keys|
  {
    && i < |keys| && Blocked(claims, keys, seen, i) && (forall j: nat | j < i :: !Blocked(claims, keys, seen, j))
    && Told(claims, keys[i], seen[i], conflict)
    && left == claims - Members(keys[..i])
  }

  ghost predicate NothingBlocks(claims: Claims, keys: seq<string>, seen: seq<Sight>)
    requires |seen| == |keys|
  {
    forall i: nat :: !Blocked(claims, keys, seen, i)
  }

  lemma {:induction false} CheckStopsAtTheFirst(claims: Claims, keys: seq<string>, seen: seq<Sight>)
    requires |seen| == |keys|
    ensures var (left, conflict) := Check(claims, keys, seen);
            if conflict.None? then NothingBlocks(claims, keys, seen)
            else exists i: nat :: StopsAt(claims, keys, seen, left, conflict.value, i)
    decreases |keys|
  {
    hide Blocked, Told, StopsAt, NothingBlocks;
    if keys == [] {
      NoKeysNoBlocks(claims, seen);
    } else if Blocked(claims, keys, seen, 0) {
      FirstBlocks(claims, keys, seen);
      assert StopsAt(claims, keys, seen, Check(claims, keys, seen).0, Check(claims, keys, seen).1.value, 0);
    } else {
      var less, rest, later := claims - {keys[0]}, keys[1..], seen[1..];
      FirstPasses(claims, keys, seen);
      CheckStopsAtTheFirst(less, rest, later);
      hide Check;
      var (left, conflict) := Check(claims, keys, seen);
      if conflict.Some? {
        var i: nat :| StopsAt(less, rest, later, left, conflict.value, i);
        StopsLater(claims, keys, seen, left, conflict.value, i);
        assert StopsAt(claims, keys, seen, left, conflict.value, i + 1);
      } else {
        BlocksLater(claims, keys, seen);
      }
    }
  }

  lemma BlocksLater(claims: Claims, keys: seq<string>, seen: seq<Sight>)
    requires |seen| == |keys| && keys != [] && !Blocked(claims, keys, seen, 0)
    requires NothingBlocks(claims - {keys[0]}, keys[1..], seen[1..])
    ensures NothingBlocks(claims, keys, seen)
  {
    hide Blocked;
    forall i: nat ensures !Blocked(claims, keys, seen, i) {
      if i > 0 { BlockedLater(claims, keys, seen, i - 1); }
    }
  }

  lemma StopsLater(claims: Claims, keys: seq<string>, seen: seq<Sight>, left: Claims, conflict: Conflict, i: nat)
    requires |seen| == |keys| && keys != [] && !Blocked(claims, keys, seen, 0)
    requires StopsAt(claims - {keys[0]}, keys[1..], seen[1..], left, conflict, i)
    ensures StopsAt(claims, keys, seen, left, conflict, i + 1)
  {
    hide Blocked;
    var less, rest, later := claims - {keys[0]}, keys[1..], seen[1..];
    BlockedLater(claims, keys, seen, i);
    assert rest[i] == keys[i + 1] && later[i] == seen[i + 1];
    KeysBefore(claims, keys, i);
    forall j: nat | j < i + 1 ensures !Blocked(claims, keys, seen, j) {
      if j > 0 { BlockedLater(claims, keys, seen, j - 1); }
    }
    BlockedIsClaimed(less, rest, later, i);
    assert Told(less, rest[i], later[i], conflict);
  }

  lemma BlockedIsClaimed(claims: Claims, keys: seq<string>, seen: seq<Sight>, i: nat)
    requires |seen| == |keys| && Blocked(claims, keys, seen, i)
    ensures keys[i] in claims
  {
  }

  lemma NoKeysNoBlocks(claims: Claims, seen: seq<Sight>)
    requires |seen| == 0
    ensures NothingBlocks(claims, [], seen)
  {
  }

  lemma FirstBlocks(claims: Claims, keys: seq<string>, seen: seq<Sight>)
    requires |seen| == |keys| && Blocked(claims, keys, seen, 0)
    ensures var (left, conflict) := Check(claims, keys, seen);
            conflict.Some? && StopsAt(claims, keys, seen, left, conflict.value, 0)
  {
    assert keys[..0] == [] && claims - {} == claims;
  }

  lemma FirstPasses(claims: Claims, keys: seq<string>, seen: seq<Sight>)
    requires |seen| == |keys| && keys != [] && !Blocked(claims, keys, seen, 0)
    ensures Check(claims, keys, seen) == Check(claims - {keys[0]}, keys[1..], seen[1..])
  {
    assert keys[0] !in claims ==> claims - {keys[0]} == claims;
  }

  lemma KeysBefore(claims: Claims, keys: seq<string>, i: nat)
    requires i < |keys|
    ensures claims - {keys[0]} - Members(keys[1..][..i]) == claims - Members(keys[..i + 1])
  {
    assert keys[..i + 1] == [keys[0]] + keys[1..][..i];
    assert Members(keys[..i + 1]) == {keys[0]} + Members(keys[1..][..i]);
  }

  /** When acquire succeeds, and what it says and leaves behind when it does not: the first blocked key
      decides, and the released claims before it are gone. */
  lemma AcquireIsAnswered(claims: Claims, run: string, keys: seq<string>, seen: seq<Sight>)
    requires |seen| == |keys|
    ensures var (after, conflict) := Acquired(claims, run, keys, seen);
            && (conflict.None? <==> NothingBlocks(claims, keys, seen))
            && (conflict.None? ==>
                  && (forall k :: k in after <==> k in claims || k in keys)
                  && (forall k | k in after :: after[k] == if k in keys then Held(run) else claims[k]))
            && (conflict.Some? ==> exists i: nat :: StopsAt(claims, keys, seen, after, conflict.value, i))
  {
    hide Blocked, Check, StopsAt, NothingBlocks;
    CheckStopsAtTheFirst(claims, keys, seen);
    var (after, conflict) := Acquired(claims, run, keys, seen);
    if conflict.None? {
      AcquireIsAllOrNone(claims, run, keys, seen);
      CheckRemoves(claims, keys, seen);
      WriteAdds(Check(claims, keys, seen).0, run, keys);
    } else {
      var i: nat :| StopsAt(claims, keys, seen, after, conflict.value, i);
      StopIsBlocked(claims, keys, seen, after, conflict.value, i);
    }
  }

  lemma StopIsBlocked(claims: Claims, keys: seq<string>, seen: seq<Sight>, left: Claims, conflict: Conflict, i: nat)
    requires |seen| == |keys| && StopsAt(claims, keys, seen, left, conflict, i)
    ensures !NothingBlocks(claims, keys, seen)
  {
  }

  // ---- exclusion ----

  /** Every key of a run that still holds it has that run's claim. */
  ghost predicate Guarded(w: World) {
    && (forall r, k | Holds(w, r, k) :: k in w.claims && w.claims[k] == Held(r))
    && (forall r | r in w.runs :: Recorded(w.runs[r]))
  }

  ghost predicate Recorded(r: RunFiles) {
    && Fold(r.journal).Ok?
    && (r.dead ==> r.journal == [])
    && (r.journal != [] ==> Replay(r.journal).Ok? && Replay(r.journal).value.spec.resourceKeys == r.keys)
  }

  lemma NothingIsReleasedYet()
    ensures !HasReleased([]) && Fold([]).Ok?
  {
  }

  /** A status file that says released, however old, is right about the journal. */
  lemma SeenReleasedIsReleased(r: RunFiles, st: ManagedState)
    requires Recorded(r) && Shows(r.journal, st) && st.resourcesReleased
    ensures HasReleased(r.journal)
  {
    hide Replay;
    var k: nat :| 0 < k <= |r.journal| && Replay(r.journal[..k]) == Ok(st);
    HostLifecycle.HistoryOnlyMovesForward(r.journal, k);
  }

  /** A claim that guards a key is never removed by another run's start. */
  lemma CheckSparesHolders(w: World, keys: seq<string>, seen: seq<Sight>, r: string, k: string)
    requires Guarded(w) && Honest(w, keys, seen) && Holds(w, r, k)
    ensures forall n: nat | n <= |keys| ::
              k in Check(w.claims, keys[..n], seen[..n]).0 && Check(w.claims, keys[..n], seen[..n]).0[k] == Held(r)
  {
    hide Recorded, HasReleased, Shows, Check;
    forall n: nat | n <= |keys|
      ensures k in Check(w.claims, keys[..n], seen[..n]).0 && Check(w.claims, keys[..n], seen[..n]).0[k] == Held(r)
    {
      CheckRemoves(w.claims, keys[..n], seen[..n]);
      if k !in Check(w.claims, keys[..n], seen[..n]).0 {
        var i :| 0 <= i < n && keys[..n][i] == k && seen[..n][i].Some? && seen[..n][i].value.resourcesReleased;
        assert keys[i] == k && seen[i].Some?;
        SeenReleasedIsReleased(w.runs[r], seen[i].value);
      }
    }
  }

  /** So the keys of a successful start are not held by anyone, and its writes hurt no one. */
  lemma StartSparesHolders(w: World, keys: seq<string>, seen: seq<Sight>, looked: nat, run: string,
                           written: seq<string>, r: string, k: string)
    requires Guarded(w) && Honest(w, keys, seen) && Holds(w, r, k) && looked <= |keys|
    requires var (left, conflict) := Check(w.claims, keys[..looked], seen[..looked]);
             conflict.None? && forall x | x in written :: x in keys[..looked]
    ensures var after := Write(Check(w.claims, keys[..looked], seen[..looked]).0, run, written);
            k in after && after[k] == Held(r)
  {
    hide Recorded, HasReleased, Shows, Check, Write;
    CheckSparesHolders(w, keys, seen, r, k);
    CheckRemoves(w.claims, keys[..looked], seen[..looked]);
    WriteAdds(Check(w.claims, keys[..looked], seen[..looked]).0, run, written);
  }

  lemma TakeStart(w: World, s: Step)
    requires Guarded(w) && s.Start? && Allowed(w, s)
    ensures Guarded(Take(w, s))
  {
    hide Recorded, HasReleased, Shows, Check, Write, Honest;
    var Start(run, keys, seen) := s;
    var n := Take(w, s);
    NothingIsReleasedYet();
    FreshIsRecorded(keys, false);
    assert keys[..|keys|] == keys && |seen| == |keys| && seen[..|seen|] == seen by { HonestLength(w, keys, seen); }
    var (left, conflict) := Check(w.claims, keys, seen);
    WriteAdds(left, run, keys);
    forall r, k | Holds(n, r, k) ensures k in n.claims && n.claims[k] == Held(r) {
      if r != run || conflict.Some? {
        assert Holds(w, r, k);
        CheckSparesHolders(w, keys, seen, r, k);
        assert keys[..|keys|] == keys && seen[..|keys|] == seen;
        if conflict.None? { StartSparesHolders(w, keys, seen, |keys|, run, keys, r, k); }
      }
    }
  }

  lemma HonestLength(w: World, keys: seq<string>, seen: seq<Sight>)
    requires Honest(w, keys, seen)
    ensures |seen| == |keys|
  {
  }

  lemma FreshIsRecorded(keys: seq<string>, dead: bool)
    ensures Recorded(RunFiles(keys, [], dead))
  {
  }

  lemma TakeDie(w: World, s: Step)
    requires Guarded(w) && s.Die? && Allowed(w, s)
    ensures Guarded(Take(w, s))
  {
    hide Recorded, HasReleased, Shows, Check, Write, Honest;
    var Die(run, keys, seen, looked, written) := s;
    var n := Take(w, s);
    HonestLength(w, keys, seen);
    FreshIsRecorded(keys, true);
    forall r, k | Holds(n, r, k) ensures k in n.claims && n.claims[k] == Held(r) {
      assert r != run && Holds(w, r, k);
      CheckSparesHolders(w, keys, seen, r, k);
      var (left, conflict) := Check(w.claims, keys[..looked], seen[..looked]);
      if conflict.None? && looked == |keys| {
        assert forall x | x in keys[..written] :: x in keys[..looked];
        StartSparesHolders(w, keys, seen, looked, run, keys[..written], r, k);
      }
    }
  }

  lemma TakeWithdraw(w: World, s: Step)
    requires Guarded(w) && s.Withdraw? && Allowed(w, s)
    ensures Guarded(Take(w, s))
  {
    hide HasReleased;
    var n := Take(w, s);
    forall r, k | Holds(n, r, k) ensures k in n.claims && n.claims[k] == Held(r) {
      assert Holds(w, r, k);
    }
  }

  lemma AppendKeepsKeys(r: RunFiles, e: ManagedEvent)
    requires Recorded(r) && Fold(r.journal + [e]).Ok?
    requires e.body.RunCreated? && r.journal == [] ==> e.body.spec.resourceKeys == r.keys
    ensures !r.dead ==> Recorded(r.(journal := r.journal + [e]))
    ensures HasReleased(r.journal) ==> HasReleased(r.journal + [e])
  {
    hide Apply;
    var longer := r.journal + [e];
    FoldPrefix(longer, |longer|);
    assert longer[..|longer|] == longer;
    FoldAppend(r.journal, e);
    if r.journal == [] {
      NothingIsReleasedYet();
      FirstSpec(e);
    } else {
      HostLifecycle.HistoryOnlyMovesForward(longer, |r.journal|);
      assert longer[..|r.journal|] == r.journal;
    }
  }

  lemma FirstSpec(e: ManagedEvent)
    requires Apply(None, e).Ok?
    ensures e.body.RunCreated? && Apply(None, e).value.spec == e.body.spec
  {
  }

  lemma TakeAppend(w: World, s: Step)
    requires Guarded(w) && s.Append? && Allowed(w, s)
    ensures Guarded(Take(w, s))
  {
    hide HasReleased, Recorded;
    var Append(run, e) := s;
    var n := Take(w, s);
    if Fold(w.runs[run].journal + [e]).Ok? {
      AppendKeepsKeys(w.runs[run], e);
      forall r, k | Holds(n, r, k) ensures k in n.claims && n.claims[k] == Held(r) {
        assert Holds(w, r, k);
      }
    }
  }

  lemma TakeRetire(w: World, s: Step)
    requires Guarded(w) && s.Retire? && Allowed(w, s)
    ensures Guarded(Take(w, s))
  {
    var Retire(run, n) := s;
    var after := Take(w, s);
    var seen := Replay(w.runs[run].journal[..n]).value;
    assert HasReleased(w.runs[run].journal) by {
      hide Replay, Recorded;
      assert Shows(w.runs[run].journal, seen);
      SeenReleasedIsReleased(w.runs[run], seen);
    }
    hide HasReleased, Recorded;
    forall r, k | Holds(after, r, k) ensures k in after.claims && after.claims[k] == Held(r) {
      assert Holds(w, r, k);
    }
  }

  lemma TakeKeepsGuards(w: World, s: Step)
    requires Guarded(w) && Allowed(w, s)
    ensures Guarded(Take(w, s))
  {
    hide Guarded, Allowed, Take;
    match s
    case Start(_, _, _) => TakeStart(w, s);
    case Die(_, _, _, _, _) => TakeDie(w, s);
    case Withdraw(_) => TakeWithdraw(w, s);
    case Append(_, _) => TakeAppend(w, s);
    case Retire(_, _) => TakeRetire(w, s);
  }

  lemma {:induction false} RunKeepsGuards(w: World, steps: seq<Step>)
    requires Guarded(w) && AllAllowed(w, steps)
    ensures Guarded(Run(w, steps))
    decreases |steps|
  {
    hide Guarded, Allowed, Take;
    if steps != [] {
      RunKeepsGuards(w, steps[..|steps| - 1]);
      TakeKeepsGuards(Run(w, steps[..|steps| - 1]), steps[|steps| - 1]);
    }
  }

  lemma GuardedIsExclusive(w: World)
    requires Guarded(w)
    ensures Exclusive(w)
  {
    hide Holds, Recorded;
    forall first, second, key | Holds(w, first, key) && Holds(w, second, key) ensures first == second {
      assert w.claims[key] == Held(first) == Held(second);
    }
  }

  /** Guarded keys stay exclusive, whatever happens. */
  lemma GuardsExclude(w: World)
    requires Guarded(w)
    ensures StaysExclusive(w)
  {
    hide Guarded, Exclusive, Allowed, Take;
    forall steps | AllAllowed(w, steps) ensures Exclusive(Run(w, steps)) {
      RunKeepsGuards(w, steps);
      GuardedIsExclusive(Run(w, steps));
    }
  }

  lemma NoRunsAreGuarded(claims: Claims)
    ensures Guarded(World(claims, map[]))
  {
  }

  /** Resource exclusion: whatever claims were there to begin with, and however starts, crashes,
      journal events and releases interleave, two runs never hold the same key. */
  lemma KeysExclude(claims: Claims, steps: seq<Step>, first: string, second: string, key: string)
    requires AllAllowed(World(claims, map[]), steps)
    requires var w := Run(World(claims, map[]), steps); Holds(w, first, key) && Holds(w, second, key)
    ensures first == second
  {
    hide Holds, Guarded, Allowed, Take;
    NoRunsAreGuarded(claims);
    GuardsExclude(World(claims, map[]));
  }

  // ---- releasing early ----

  /** The claims of a run are released by one of the places that do so, whatever its journal says. */
  ghost function ReleasedBy(w: World, run: string): World
    requires run in w.runs
  {
    w.(claims := Released(w.claims, run, w.runs[run].keys))
  }

  lemma SafeReleaseKeepsGuards(w: World, run: string)
    requires Guarded(w) && run in w.runs
    requires w.runs[run].dead || w.runs[run].keys == [] || HasReleased(w.runs[run].journal)
    ensures Guarded(ReleasedBy(w, run))
  {
    hide HasReleased, Recorded;
    var n := ReleasedBy(w, run);
    forall r, k | Holds(n, r, k) ensures k in n.claims && n.claims[k] == Held(r) {
      assert Holds(w, r, k);
    }
  }

  lemma AcquireFreeKey(claims: Claims, run: string, key: string)
    requires key !in claims
    ensures Acquired(claims, run, [key], [None]) == (claims[key := Held(run)], None)
  {
    var keys: seq<string>, seen: seq<Sight> := [key], [None];
    assert keys[1..] == [] && seen[1..] == [] && keys[..0] == [];
    assert Check(claims, keys, seen) == (claims, None);
    assert Write(claims, run, []) == claims;
  }

  /** Claims released too early: any new run can then start on the key, and both hold it. */
  lemma EarlyReleaseLosesExclusion(w: World, run: string, key: string, other: string)
    requires Guarded(w) && Holds(w, run, key) && other !in w.runs
    ensures var n, s := ReleasedBy(w, run), Start(other, [key], [None]);
            && Allowed(n, s)
            && Holds(Take(n, s), run, key) && Holds(Take(n, s), other, key)
  {
    hide HasReleased, Recorded, Acquired;
    var n, s := ReleasedBy(w, run), Start(other, [key], [None]);
    assert w.claims[key] == Held(run);
    assert key !in n.claims;
    AcquireFreeKey(n.claims, other, key);
    NothingIsReleasedYet();
    assert Holds(n, run, key);
  }

  /** A name longer than every name in use. */
  lemma {:induction false} FreshName(names: set<string>) returns (name: string)
    ensures name !in names && forall x | x in names :: |x| < |name|
    decreases |names|
  {
    if names == {} {
      name := "";
    } else {
      var x :| x in names;
      var rest := FreshName(names - {x});
      name := if |rest| > |x| then rest else x + "r";
    }
  }

  /** Releasing the claims of a run leaves keys exclusive, now and after anything that may happen,
      exactly when the run is dead, has no keys or has released its resources. */
  lemma ReleaseIsSafe(w: World, run: string)
    requires Guarded(w) && run in w.runs
    ensures StaysExclusive(ReleasedBy(w, run))
       <==> w.runs[run].dead || w.runs[run].keys == [] || HasReleased(w.runs[run].journal)
  {
    hide HasReleased, Guarded, StaysExclusive, Allowed, Take;
    if w.runs[run].dead || w.runs[run].keys == [] || HasReleased(w.runs[run].journal) {
      SafeReleaseKeepsGuards(w, run);
      GuardsExclude(ReleasedBy(w, run));
    } else {
      var key := w.runs[run].keys[0];
      var other := FreshName(w.runs.Keys);
      assert Holds(w, run, key);
      EarlyReleaseLosesExclusion(w, run, key, other);
      OneStepBreaks(ReleasedBy(w, run), Start(other, [key], [None]), run, other, key);
    }
  }

  lemma OneStepBreaks(w: World, s: Step, first: string, second: string, key: string)
    requires Allowed(w, s) && first != second && Holds(Take(w, s), first, key) && Holds(Take(w, s), second, key)
    ensures !StaysExclusive(w)
  {
    hide Allowed, Take, Holds;
    var steps := [s];
    assert steps[..0] == [] && AllAllowed(w, steps[..0]) && Run(w, steps[..0]) == w;
    assert AllAllowed(w, steps) && Run(w, steps) == Take(w, s);
    assert !Exclusive(Run(w, steps));
  }
}

/** What the broker and the claims take for granted about a journal is what its recorders make of it:
    one emission of `HostStore.ManagedRecorder`, on a journal to which other writers have appended, does
    what `HostBroker.Recorder` says, and a status file, however old, shows what `HostClaims` reads in it. */
module HostSharing {
  import opened JsonModel
  import opened HostReduce
  import opened HostJournal
  import HostBroker
  import HostClaims
  import HostStore

  /** The journal after other writers have tried to append. */
  ghost function WithOthers(events: seq<ManagedEvent>, others: HostBroker.Others): seq<ManagedEvent>
    decreases |others|
  {
    if others == [] then events
    else
      var e := ManagedEvent(|events| + 1, others[0].at, others[0].body);
      WithOthers(if Fold(events + [e]).Ok? then events + [e] else events, others[1..])
  }

  /** What the broker's recorder calls the journal, after the others, is the replay of the file. */
  lemma {:induction false} OthersInterleave(events: seq<ManagedEvent>, others: HostBroker.Others)
    requires events != [] && Fold(events).Ok?
    ensures var longer := WithOthers(events, others);
            && longer != [] && Fold(longer).Ok? && Fold(events).value.Some?
            && Fold(longer).value == Some(HostBroker.Interleaved(Fold(events).value.value, others))
    decreases |others|
  {
    hide Fold, Apply;
    HostStore.ReplayedFold(events);
    if others != [] {
      var e := ManagedEvent(|events| + 1, others[0].at, others[0].body);
      FoldAppend(events, e);
      OthersInterleave(if Fold(events + [e]).Ok? then events + [e] else events, others[1..]);
    }
  }

  lemma {:induction false} OthersKeepCache(c: Codec, events: seq<ManagedEvent>, others: HostBroker.Others,
                                           r: HostStore.Recorder)
    requires HostStore.Cached(c, events, r)
    ensures HostStore.Cached(c, WithOthers(events, others), r)
    decreases |others|
  {
    hide Fold, HostStore.Cached;
    if others != [] {
      var e := ManagedEvent(|events| + 1, others[0].at, others[0].body);
      HostStore.CachedLater(c, events, e, r);
      OthersKeepCache(c, if Fold(events + [e]).Ok? then events + [e] else events, others[1..], r);
    }
  }

  /** However stale its cache: if the journal was sound and the others appended what they could, an
      emission is accepted exactly when the broker's recorder accepts it (and it can be written); the
      cached state and the replay of the file are then the broker's `journal`, and a rejection leaves
      the file as the others left it. */
  lemma EmissionIsShared(c: Codec, events: seq<ManagedEvent>, r: HostStore.Recorder, others: HostBroker.Others,
                         body: Body, at: real)
    requires Good(c) && events != [] && Fold(events).Ok? && Fold(events).value.Some? && HostStore.Cached(c, events, r)
    requires AllClean(c, WithOthers(events, others))
    ensures var longer := WithOthers(events, others);
            var now := HostBroker.Interleaved(Fold(events).value.value, others);
            var next := HostBroker.Next(now, body, at);
            var m := HostStore.Emitted(c, r, FileOf(c, longer), body, at);
            var e := ManagedEvent(|longer| + 1, at, body);
            if next.Ok? && c.encodable(e) then
              && m.result == Ok(e) && m.recorder.state == Some(next.value)
              && m.file == FileOf(c, longer + [e]) && Fold(longer + [e]) == Ok(Some(next.value))
            else
              && m.result == Err(if next.Err? then next.reason else Unwritable)
              && m.recorder.state == Some(now) && m.file == FileOf(c, longer) && Fold(longer) == Ok(Some(now))
  {
    hide Good, FileOf, Fold, Apply, HostStore.Emitted, HostStore.Cached, AllClean, WithOthers, HostBroker.Interleaved;
    var longer := WithOthers(events, others);
    OthersInterleave(events, others);
    OthersKeepCache(c, events, others, r);
    HostStore.ReplayedFold(longer);
    HostStore.EmitIsLinear(c, longer, r, body, at);
    FoldAppend(longer, ManagedEvent(|longer| + 1, at, body));
  }

  // ---- the status file ----

  lemma {:induction false} LogGrows(c: Codec, steps: seq<HostStore.Step>, k: nat)
    requires k <= |steps|
    ensures HostStore.Log(c, steps[..k]) <= HostStore.Log(c, steps)
  {
    if k == |steps| {
      assert steps[..k] == steps;
    } else {
      assert steps[..|steps| - 1][..k] == steps[..k];
      LogGrows(c, steps[..|steps| - 1], k);
    }
  }

  lemma {:induction false} AllowedBefore(c: Codec, steps: seq<HostStore.Step>, k: nat)
    requires HostStore.AllAllowed(c, steps) && k <= |steps|
    ensures HostStore.AllAllowed(c, steps[..k])
  {
    if k == |steps| {
      assert steps[..k] == steps;
    } else {
      assert steps[..|steps| - 1][..k] == steps[..k];
      AllowedBefore(c, steps[..|steps| - 1], k);
    }
  }

  /** Whoever reads the status file at any time, and uses what was read at any later time, sees the replay
      of a prefix of the journal: this is what `HostClaims.Honest` asks of a sight. */
  lemma StatusIsHonest(c: Codec, steps: seq<HostStore.Step>, k: nat)
    requires Good(c) && HostStore.AllAllowed(c, steps) && k <= |steps|
    requires HostStore.Run(c, steps[..k]).status.Some?
    ensures HostClaims.Shows(HostStore.Log(c, steps), HostStore.Run(c, steps[..k]).status.value)
  {
    hide Good, HostStore.Sound, HostStore.Run, HostStore.Log, HostStore.AllAllowed, Fold;
    AllowedBefore(c, steps, k);
    HostStore.EveryInterleavingIsSound(c, steps[..k]);
    LogGrows(c, steps, k);
    SoundIsProjected(c, HostStore.Log(c, steps[..k]), HostStore.Run(c, steps[..k]));
    ProjectedIsShown(HostStore.Log(c, steps[..k]), HostStore.Log(c, steps), HostStore.Run(c, steps[..k]).status.value);
  }

  lemma SoundIsProjected(c: Codec, events: seq<ManagedEvent>, w: HostStore.World)
    requires HostStore.Sound(c, events, w)
    ensures HostStore.Projected(events, w.status)
  {
  }

  lemma ProjectedIsShown(events: seq<ManagedEvent>, longer: seq<ManagedEvent>, st: ManagedState)
    requires HostStore.Projected(events, Some(st)) && events <= longer
    ensures HostClaims.Shows(longer, st)
  {
    hide Fold;
    var k: nat :| k <= |events| && HostStore.Replays(events[..k]) && Fold(events[..k]).value == Some(st);
    HostStore.ReplayedFold(events[..k]);
    assert longer[..k] == events[..k];
  }
}

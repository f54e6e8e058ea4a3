/** What a scan says about itself, against any file system (bundles/validate.py:572-579, 639-781): every failure
    names an entry that went wrong in just that way, an entry that goes wrong is named unless the walk was
    stopped, and a stop has the reason that is given. */
module ScanReports {
  import opened JsonModel
  import opened ScanModel
  import opened TextEncoding
  import ScanListing

  // ---- what a file delivers ----

  /** One read asks for 64 KiB. */
  function Chunk(a: Answer): seq<Byte> {
    match a case Broken => [] case Piece(bytes) => if |bytes| <= 65_536 then bytes else bytes[..65_536]
  }

  function Delivered(answers: seq<Answer>): seq<Byte> {
    if answers == [] then [] else Chunk(answers[0]) + Delivered(answers[1..])
  }

  /** The `k`-th read is the first that does not happen, breaks or finds the end. */
  ghost predicate EndsAt(answers: seq<Answer>, limit: nat, k: nat) {
    && k <= |answers|
    && (forall j | 0 <= j < k :: Chunk(answers[j]) != [] && |Delivered(answers[..j])| < limit)
    && (k == |answers| || Chunk(answers[k]) == [] || |Delivered(answers[..k])| >= limit)
  }

  ghost predicate IsRead(answers: seq<Answer>, limit: nat, payload: seq<Byte>, broken: bool, k: nat) {
    && EndsAt(answers, limit, k)
    && var all := Delivered(answers[..k]);
       && payload == (if |all| <= limit then all else all[..limit])
       && (broken <==> k < |answers| && answers[k].Broken? && |all| < limit)
  }

  lemma DeliveredLater(a: Answer, answers: seq<Answer>, j: nat)
    requires j <= |answers|
    ensures Delivered(([a] + answers)[..j + 1]) == Chunk(a) + Delivered(answers[..j])
  {
    assert ([a] + answers)[..j + 1] == [a] + answers[..j];
    assert ([a] + answers[..j])[1..] == answers[..j];
  }

  lemma ReadLater(a: Answer, rest: seq<Answer>, limit: nat, payload: seq<Byte>, broken: bool, k: nat)
    requires Chunk(a) != [] && |Chunk(a)| <= limit
    requires IsRead(rest, limit - |Chunk(a)|, payload, broken, k)
    ensures limit > 0 ==> IsRead([a] + rest, limit, Chunk(a) + payload, broken, k + 1)
  {
    hide Delivered, Chunk;
    var all := [a] + rest;
    assert Delivered(all[..0]) == [] by { assert all[..0] == []; DeliveredNothing(); }
    DeliveredLater(a, rest, k);
    forall j | 0 <= j < k + 1 && limit > 0 ensures Chunk(all[j]) != [] && |Delivered(all[..j])| < limit {
      if j > 0 {
        DeliveredLater(a, rest, j - 1);
        assert all[j] == rest[j - 1];
      }
    }
    if k < |rest| { assert all[k + 1] == rest[k]; }
  }

  lemma DeliveredNothing()
    ensures Delivered([]) == []
  {
  }

  lemma ReadFirst(answers: seq<Answer>, limit: nat)
    requires limit > 0 && answers != [] && Chunk(answers[0]) != []
    ensures var piece := Chunk(answers[0]);
            if |piece| > limit then Read(answers, limit) == (piece[..limit], false)
            else Read(answers, limit) == (piece + Read(answers[1..], limit - |piece|).0,
                                          Read(answers[1..], limit - |piece|).1)
  {
    var bytes := answers[0].bytes;
    var piece := bytes[..Min(|bytes|, Min(limit, READ_CHUNK))];
    if |Chunk(answers[0])| > limit {
      assert piece == Chunk(answers[0])[..limit] && Read(answers[1..], 0) == ([], false);
      assert piece + [] == piece;
    } else {
      assert piece == Chunk(answers[0]);
    }
  }

  lemma OneRead(answers: seq<Answer>, limit: nat)
    requires limit > 0 && answers != [] && |Chunk(answers[0])| > limit
    ensures IsRead(answers, limit, Chunk(answers[0])[..limit], false, 1)
  {
    assert answers[..0] == [] && answers[..1] == [answers[0]];
    assert Delivered(answers[..1]) == Chunk(answers[0]) + [] == Chunk(answers[0]);
  }

  /** The bytes of a file: chunk after chunk until one is empty, one breaks, or the limit is reached. */
  lemma {:induction false} ReadIs(answers: seq<Answer>, limit: nat)
    ensures exists k: nat :: IsRead(answers, limit, Read(answers, limit).0, Read(answers, limit).1, k)
    decreases |answers|
  {
    if limit == 0 || answers == [] || Chunk(answers[0]) == [] {
      assert answers[..0] == [];
      assert IsRead(answers, limit, Read(answers, limit).0, Read(answers, limit).1, 0);
    } else {
      ReadFirst(answers, limit);
      var piece, rest := Chunk(answers[0]), answers[1..];
      hide Read;
      if |piece| > limit {
        OneRead(answers, limit);
      } else {
        hide Delivered, Chunk, IsRead;
        ReadIs(rest, limit - |piece|);
        var (more, broke) := Read(rest, limit - |piece|);
        var k: nat :| IsRead(rest, limit - |piece|, more, broke, k);
        ReadLater(answers[0], rest, limit, more, broke, k);
        assert [answers[0]] + rest == answers;
        assert IsRead(answers, limit, piece + more, broke, k + 1);
      }
    }
  }

  // ---- what can be wrong with an entry ----

  /** The entry was not passed over, and its directory told what it is. */
  ghost predicate Looked(e: Entry) { !ScanListing.Skipped(e.name) && e.typed.Some? }

  ghost predicate IsKind(e: Entry, kind: Kind) { Looked(e) && e.info.Some? && e.info.value.kind == kind }

  /** A regular file of at most 512 KiB. */
  ghost predicate Wanted(e: Entry) { IsKind(e, Regular) && e.info.value.size <= 524_288 }

  /** What was opened is what was listed. */
  predicate Identical(found: Stat, listed: Stat) {
    found.kind == listed.kind && found.dev == listed.dev && found.ino == listed.ino
  }

  ghost predicate Readable(e: Entry) {
    Wanted(e) && e.asFile.FileOpened? && Identical(e.asFile.stat, e.info.value)
  }

  ghost predicate Entered(e: Entry) {
    IsKind(e, Directory) && e.asDir.DirOpened? && Identical(e.asDir.dirStat, e.info.value)
  }

  /** The file was read without an error, and what it is was asked again. */
  ghost predicate Checked(e: Entry, limit: nat) {
    Readable(e) && !Read(e.asFile.answers, limit).1 && e.asFile.after.Some?
  }

  ghost predicate Replacing(e: Entry)
    requires Readable(e) && e.asFile.after.Some?
  {
    e.asFile.after.value.dev != e.info.value.dev || e.asFile.after.value.ino != e.info.value.ino
  }

  /** This is wrong with the entry when at most `limit` bytes of it may be read. */
  ghost predicate Fault(e: Entry, why: Why, limit: nat) {
    match why
    case NotReadable => Looked(e) && e.info.None?
    case ChangedType => IsKind(e, Symlink) && e.typed.value
    case NotRegular => IsKind(e, Other)
    case NotADirectory => IsKind(e, Directory) && e.asDir.DirRefused?
    case ChangedOnOpen =>
      || (IsKind(e, Directory) && e.asDir.DirOpened? && !Entered(e))
      || (Wanted(e) && e.asFile.FileOpened? && !Readable(e))
    case OverFileBudget => IsKind(e, Regular) && e.info.value.size > 524_288
    case NotOpened => Wanted(e) && e.asFile.FileRefused?
    case ReadFailed => Readable(e) && Read(e.asFile.answers, limit).1
    case NotCheckedAfter => Readable(e) && !Read(e.asFile.answers, limit).1 && e.asFile.after.None?
    case Replaced => Checked(e, limit) && Replacing(e)
    case ChangedOnRead =>
      && Checked(e, limit) && !Replacing(e)
      && (|| e.asFile.after.value.size != e.info.value.size || e.asFile.after.value.mtime != e.info.value.mtime
          || |Read(e.asFile.answers, limit).0| != e.info.value.size)
    case BudgetMidFile => false
  }

  ghost predicate MayFail(e: Entry, why: Why) { exists limit: nat :: 0 < limit <= 524_288 && Fault(e, why, limit) }

  ghost predicate MustFail(e: Entry, why: Why) { forall limit: nat | 0 < limit <= 524_288 :: Fault(e, why, limit) }

  /** The failure is about one of these entries, or about one below them. */
  ghost predicate Blames(entries: seq<Entry>, prefix: string, f: Failure)
    decreases entries
  {
    exists i :: 0 <= i < |entries| && Here(entries[i], prefix, f)
  }

  ghost predicate Here(e: Entry, prefix: string, f: Failure)
    decreases e, 0
  {
    || (f.relative == prefix + e.name && MayFail(e, f.why))
    || (Entered(e) && e.asDir.listing.Listing? && Blames(e.asDir.listing.entries, prefix + e.name + "/", f))
  }

  /** The failure is due whatever is left to read. */
  ghost predicate Condemns(entries: seq<Entry>, prefix: string, f: Failure)
    decreases entries
  {
    exists i :: 0 <= i < |entries| && Surely(entries[i], prefix, f)
  }

  ghost predicate Surely(e: Entry, prefix: string, f: Failure)
    decreases e, 0
  {
    || (f.relative == prefix + e.name && MustFail(e, f.why))
    || (Entered(e) && e.asDir.listing.Listing? && Condemns(e.asDir.listing.entries, prefix + e.name + "/", f))
  }

  /** Links, and directories that were something else when they were opened. */
  ghost function LinksIn(entries: seq<Entry>): nat
    decreases entries
  {
    if entries == [] then 0 else LinksAt(entries[0]) + LinksIn(entries[1..])
  }

  ghost function LinksAt(e: Entry): nat
    decreases e, 0
  {
    if IsKind(e, Symlink) then 1
    else if Fault(e, NotADirectory, 1) || (Fault(e, ChangedOnOpen, 1) && IsKind(e, Directory)) then 1
    else if Entered(e) && e.asDir.listing.Listing? then LinksIn(e.asDir.listing.entries)
    else 0
  }

  // ---- what can stop a walk ----

  /** An error about the entry itself, which nothing around it catches. */
  ghost predicate Escapes(e: Entry) {
    || (!ScanListing.Skipped(e.name) && e.typed.None?)
    || (IsKind(e, Directory) && e.asDir.DirUnknown?)
    || (Wanted(e) && e.asFile.FileUnknown?)
  }

  ghost predicate Stuck(listing: Listing, depth: nat, why: HaltReason)
    decreases listing
  {
    if depth > 32 then why == DepthLimit
    else if listing.Unlistable? then why == CannotList
    else (why == ListingBroke && listing.breaks) || StuckAmong(listing.entries, depth, why)
  }

  ghost predicate StuckAmong(entries: seq<Entry>, depth: nat, why: HaltReason)
    decreases entries
  {
    exists i :: 0 <= i < |entries| && StuckAt(entries[i], depth, why)
  }

  ghost predicate StuckAt(e: Entry, depth: nat, why: HaltReason)
    decreases e, 0
  {
    (why == ListingBroke && Escapes(e)) || (Entered(e) && Stuck(e.asDir.listing, depth + 1, why))
  }

  /** The limit that was met, or the place where the walk could not go on. */
  ghost predicate Stopped(entries: seq<Entry>, breaks: bool, depth: nat, t: Scan) {
    match t.reason
    case EntryBudget => t.entries > 4_000
    case FileBudget => |t.files| >= 400
    case ReadBudget => t.budget <= 0
    case DepthLimit => StuckAmong(entries, depth, DepthLimit)
    case CannotList => StuckAmong(entries, depth, CannotList)
    case ListingBroke => breaks || StuckAmong(entries, depth, ListingBroke)
    case _ => false
  }

  // ---- the walk reports truly ----

  ghost predicate Reports(entries: seq<Entry>, breaks: bool, prefix: string, depth: nat, s: Scan, t: Scan) {
    && s.failures <= t.failures
    && (forall i | |s.failures| <= i < |t.failures| :: Blames(entries, prefix, t.failures[i]))
    && (t.stop <==> t.reason != NotHalted)
    && if t.stop then Stopped(entries, breaks, depth, t)
       else
         && !breaks && t.symlinksSkipped == s.symlinksSkipped + LinksIn(entries)
         && forall f | Condemns(entries, prefix, f) :: f in t.failures
  }

  ghost predicate Going(s: Scan) { !s.stop && s.reason == NotHalted }

  lemma PrunedIsSkipped(name: string)
    ensures Pruned(name) <==> ScanListing.Skipped(name)
  {
    ScanListing.PrunedIsSkipped(name);
  }

  /** What may be read of the next file. */
  function Left(s: Scan): nat { if 0 < s.budget <= 524_288 then s.budget else 524_288 }

  /** The failure of one file or entry, if any, is the fault that it has with what may be read. */
  ghost predicate Names(e: Entry, relative: string, s: Scan, t: Scan) {
    || (t.failures == s.failures && forall why :: !Fault(e, why, Left(s)))
    || (exists why :: Fault(e, why, Left(s)) && t.failures == s.failures + [Failure(relative, why)]
                      && forall other | Fault(e, other, Left(s)) :: other == why)
  }

  lemma Named(e: Entry, relative: string, s: Scan, t: Scan, why: Why)
    requires Fault(e, why, Left(s)) && t.failures == s.failures + [Failure(relative, why)]
    ensures Names(e, relative, s, t)
  {
    hide Read;
    forall other | Fault(e, other, Left(s)) ensures other == why {}
  }

  lemma NothingNamed(e: Entry, relative: string, s: Scan, t: Scan)
    requires t.failures == s.failures && forall why :: !Fault(e, why, Left(s))
    ensures Names(e, relative, s, t)
  {
  }

  lemma ReadNames(e: Entry, relative: string, s: Scan)
    requires Going(s) && Readable(e) && s.budget > 0
    ensures var (payload, broken) := Read(e.asFile.answers, Left(s));
            var charged := s.Charge(|payload|);
            var t := AfterRead(charged, e.info.value, relative, payload, broken, e.asFile.after, Left(s));
            Going(t) && t.symlinksSkipped == s.symlinksSkipped && Names(e, relative, s, t)
  {
    hide Read, Names;
    var (payload, broken) := Read(e.asFile.answers, Left(s));
    var charged := s.Charge(|payload|);
    var t := AfterRead(charged, e.info.value, relative, payload, broken, e.asFile.after, Left(s));
    if broken {
      Named(e, relative, s, t, ReadFailed);
    } else if e.asFile.after.None? {
      Named(e, relative, s, t, NotCheckedAfter);
    } else if Replacing(e) {
      Named(e, relative, s, t, Replaced);
    } else if t.failures != s.failures {
      Named(e, relative, s, t, ChangedOnRead);
    } else {
      NothingNamed(e, relative, s, t);
    }
  }

  lemma CollectNames(e: Entry, relative: string, s: Scan)
    requires Going(s) && IsKind(e, Regular)
    ensures var (t, raised) := CollectFile(e, e.info.value, relative, s);
            && (raised ==> t == s && Escapes(e))
            && (t.stop <==> t.reason != NotHalted)
            && (t.stop ==> && t.failures == s.failures
                           && (|| (t.reason == FileBudget && |t.files| >= 400)
                               || (t.reason == ReadBudget && t.budget <= 0)))
            && (!t.stop && !raised ==> t.symlinksSkipped == s.symlinksSkipped && Names(e, relative, s, t))
  {
    hide Read, Names, AfterRead;
    if !Wanted(e) {
      Named(e, relative, s, s.Fail(relative, OverFileBudget), OverFileBudget);
    } else if |s.files| < MAX_FILES && s.budget > 0 {
      match e.asFile
      case FileRefused => Named(e, relative, s, s.Fail(relative, NotOpened), NotOpened);
      case FileUnknown =>
      case FileOpened(_, _, _) =>
        if Readable(e) { ReadNames(e, relative, s); }
        else { Named(e, relative, s, s.Fail(relative, ChangedOnOpen), ChangedOnOpen); }
    }
  }

  lemma DirNames(e: Entry, relative: string, depth: nat, s: Scan)
    requires Going(s) && !Entered(e) && IsKind(e, Directory)
    ensures var (t, raised) := Descend(e, e.info.value, relative, depth, s);
            && (raised ==> t == s && Escapes(e)) && Going(t)
            && (!raised ==> t.symlinksSkipped == s.symlinksSkipped + 1 && LinksAt(e) == 1 && Names(e, relative, s, t))
  {
    hide Read, Names, Walk;
    match e.asDir
    case DirRefused => Named(e, relative, s, s.SkipLink().Fail(relative, NotADirectory), NotADirectory);
    case DirUnknown =>
    case DirOpened(_, _) => Named(e, relative, s, s.SkipLink().Fail(relative, ChangedOnOpen), ChangedOnOpen);
  }

  /** One entry that is not a directory that was entered. */
  lemma LeafNames(e: Entry, prefix: string, depth: nat, s: Scan)
    requires Going(s) && !Entered(e)
    ensures var (t, raised) := Visit(e, prefix, depth, s);
            && (raised ==> t == s && Escapes(e))
            && (t.stop <==> t.reason != NotHalted)
            && (t.stop ==> && t.failures == s.failures
                           && (|| (t.reason == FileBudget && |t.files| >= 400)
                               || (t.reason == ReadBudget && t.budget <= 0)))
            && (!t.stop && !raised ==>
                  t.symlinksSkipped == s.symlinksSkipped + LinksAt(e) && Names(e, prefix + e.name, s, t))
  {
    hide Read, Names, CollectFile, Walk;
    PrunedIsSkipped(e.name);
    var relative := prefix + e.name;
    if !Looked(e) {
      if Pruned(e.name) { NothingNamed(e, relative, s, s); }
    } else if e.info.None? {
      Named(e, relative, s, s.Fail(relative, NotReadable), NotReadable);
    } else {
      match e.info.value.kind
      case Regular => CollectNames(e, relative, s);
      case Other => Named(e, relative, s, s.Fail(relative, NotRegular), NotRegular);
      case Symlink =>
        if e.typed.value { Named(e, relative, s, s.SkipLink().Fail(relative, ChangedType), ChangedType); }
        else { NothingNamed(e, relative, s, s.SkipLink()); }
      case Directory => DirNames(e, relative, depth, s);
    }
  }

  // ---- the whole walk ----

  lemma NoneBlamed(prefix: string, f: Failure)
    ensures !Blames([], prefix, f) && !Condemns([], prefix, f)
  {
  }

  lemma BlamesSplits(e: Entry, rest: seq<Entry>, prefix: string, f: Failure)
    ensures Blames([e] + rest, prefix, f) <==> Here(e, prefix, f) || Blames(rest, prefix, f)
  {
    hide Here;
    var all := [e] + rest;
    if Here(e, prefix, f) { assert Here(all[0], prefix, f); }
    if Blames(rest, prefix, f) {
      var i :| 0 <= i < |rest| && Here(rest[i], prefix, f);
      assert all[i + 1] == rest[i];
    }
    if i :| 0 <= i < |all| && Here(all[i], prefix, f) && i > 0 { assert all[i] == rest[i - 1]; }
  }

  lemma CondemnsSplits(e: Entry, rest: seq<Entry>, prefix: string, f: Failure)
    ensures Condemns([e] + rest, prefix, f) <==> Surely(e, prefix, f) || Condemns(rest, prefix, f)
  {
    hide Surely;
    var all := [e] + rest;
    if Surely(e, prefix, f) { assert Surely(all[0], prefix, f); }
    if Condemns(rest, prefix, f) {
      var i :| 0 <= i < |rest| && Surely(rest[i], prefix, f);
      assert all[i + 1] == rest[i];
    }
    if i :| 0 <= i < |all| && Surely(all[i], prefix, f) && i > 0 { assert all[i] == rest[i - 1]; }
  }

  lemma StuckSplits(e: Entry, rest: seq<Entry>, depth: nat, why: HaltReason)
    ensures StuckAmong([e] + rest, depth, why) <==> StuckAt(e, depth, why) || StuckAmong(rest, depth, why)
  {
    hide StuckAt;
    var all := [e] + rest;
    if StuckAt(e, depth, why) { assert StuckAt(all[0], depth, why); }
    if StuckAmong(rest, depth, why) {
      var i :| 0 <= i < |rest| && StuckAt(rest[i], depth, why);
      assert all[i + 1] == rest[i];
    }
    if i :| 0 <= i < |all| && StuckAt(all[i], depth, why) && i > 0 { assert all[i] == rest[i - 1]; }
  }

  /** What one entry adds. */
  ghost predicate Adds(e: Entry, prefix: string, depth: nat, s: Scan, t: Scan) {
    && s.failures <= t.failures
    && (forall i | |s.failures| <= i < |t.failures| :: Here(e, prefix, t.failures[i]))
    && (t.stop <==> t.reason != NotHalted)
    && if t.stop then Halts(e, depth, t)
       else
         && t.symlinksSkipped == s.symlinksSkipped + LinksAt(e)
         && forall f | Surely(e, prefix, f) :: f in t.failures
  }

  ghost predicate Halts(e: Entry, depth: nat, t: Scan) {
    match t.reason
    case EntryBudget => t.entries > 4_000
    case FileBudget => |t.files| >= 400
    case ReadBudget => t.budget <= 0
    case DepthLimit => StuckAt(e, depth, DepthLimit)
    case CannotList => StuckAt(e, depth, CannotList)
    case ListingBroke => StuckAt(e, depth, ListingBroke)
    case _ => false
  }

  lemma LeafAdds(e: Entry, prefix: string, depth: nat, s: Scan)
    requires Going(s) && !Entered(e)
    ensures var (t, raised) := Visit(e, prefix, depth, s);
            (raised ==> t == s && Escapes(e)) && (!raised ==> Adds(e, prefix, depth, s, t))
  {
    hide Visit, Fault, LinksAt;
    LeafNames(e, prefix, depth, s);
    var (t, raised) := Visit(e, prefix, depth, s);
    if !raised && !t.stop {
      NamesAreMeant(e, prefix, s, t);
    }
  }

  lemma NamesAreMeant(e: Entry, prefix: string, s: Scan, t: Scan)
    requires !Entered(e) && Names(e, prefix + e.name, s, t)
    ensures s.failures <= t.failures
    ensures forall i | |s.failures| <= i < |t.failures| :: Here(e, prefix, t.failures[i])
    ensures forall f | Surely(e, prefix, f) :: f in t.failures
  {
    hide Fault;
    forall f | Surely(e, prefix, f) ensures f in t.failures {
      assert Fault(e, f.why, Left(s));
      var why :| Fault(e, why, Left(s)) && t.failures == s.failures + [Failure(prefix + e.name, why)]
                 && forall other | Fault(e, other, Left(s)) :: other == why;
      assert f == Failure(prefix + e.name, why) == t.failures[|s.failures|];
    }
  }

  lemma EnteredIsFaultless(e: Entry)
    requires Entered(e)
    ensures forall why, limit :: !Fault(e, why, limit)
    ensures !Escapes(e) && forall why :: !MustFail(e, why)
  {
    forall why ensures !MustFail(e, why) { assert !Fault(e, why, 1); }
  }

  /** A directory that was entered adds what its listing does. */
  lemma DirAdds(e: Entry, prefix: string, depth: nat, s: Scan, t: Scan)
    requires Entered(e) && s.failures <= t.failures && (t.stop <==> t.reason != NotHalted)
    requires e.asDir.listing.Listing? ==>
               depth + 1 <= 32 ==>
                 Reports(e.asDir.listing.entries, e.asDir.listing.breaks, prefix + e.name + "/", depth + 1, s, t)
    requires e.asDir.listing.Unlistable? || depth + 1 > 32 ==>
               t.failures == s.failures && t.reason == if depth + 1 > 32 then DepthLimit else CannotList
    ensures Adds(e, prefix, depth, s, t)
  {
    EnteredIsFaultless(e);
    hide Blames, Condemns, LinksIn, StuckAmong, Fault, MustFail;
    assert forall i | |s.failures| <= i < |t.failures| :: Here(e, prefix, t.failures[i]);
    if t.stop && t.reason in {DepthLimit, CannotList, ListingBroke} {
      assert Stuck(e.asDir.listing, depth + 1, t.reason);
    }
  }

  lemma {:induction false} EntryReports(e: Entry, prefix: string, depth: nat, s: Scan)
    requires Going(s) && depth <= 32
    ensures var (t, raised) := Visit(e, prefix, depth, s);
            (raised ==> t == s && Escapes(e)) && (!raised ==> Adds(e, prefix, depth, s, t))
    decreases e, 1
  {
    hide Adds, Reports, WalkEntries, Read;
    if Entered(e) {
      PrunedIsSkipped(e.name);
      var listing, below := e.asDir.listing, prefix + e.name + "/";
      var t := Walk(listing, below, depth + 1, s);
      assert Visit(e, prefix, depth, s) == (t, false);
      if listing.Listing? && depth + 1 <= 32 {
        EntriesReport(listing.entries, listing.breaks, below, depth + 1, s);
        PartsOfReport(listing.entries, listing.breaks, below, depth + 1, s, t);
      }
      DirAdds(e, prefix, depth, s, t);
    } else {
      LeafAdds(e, prefix, depth, s);
    }
  }

  lemma PartsOfReport(entries: seq<Entry>, breaks: bool, prefix: string, depth: nat, s: Scan, t: Scan)
    requires Reports(entries, breaks, prefix, depth, s, t)
    ensures s.failures <= t.failures && (t.stop <==> t.reason != NotHalted)
  {
    hide Blames, Condemns, Stopped, LinksIn;
  }

  lemma {:induction false} EntriesReport(entries: seq<Entry>, breaks: bool, prefix: string, depth: nat, s: Scan)
    requires Going(s) && depth <= 32
    ensures Reports(entries, breaks, prefix, depth, s, WalkEntries(entries, breaks, prefix, depth, s))
    decreases entries
  {
    hide Reports, Visit, Adds;
    if entries == [] {
      EndReports(breaks, prefix, depth, s);
    } else {
      var e, rest := entries[0], entries[1..];
      var counted := s.(entries := s.entries + 1);
      assert entries == [e] + rest;
      if counted.entries > MAX_ENTRIES {
        OverReports(entries, breaks, prefix, depth, s, counted.Halt(EntryBudget));
      } else {
        EntryReports(e, prefix, depth, counted);
        var (t, raised) := Visit(e, prefix, depth, counted);
        if raised {
          RaisedReports(e, rest, breaks, prefix, depth, s, t.Halt(ListingBroke));
        } else if t.stop {
          StopReports(e, rest, breaks, prefix, depth, s, counted, t, WalkEntries(rest, breaks, prefix, depth, t));
        } else {
          GoesOn(e, prefix, depth, counted, t);
          EntriesReport(rest, breaks, prefix, depth, t);
          NextReports(e, rest, breaks, prefix, depth, s, counted, t, WalkEntries(rest, breaks, prefix, depth, t));
        }
      }
    }
  }

  lemma GoesOn(e: Entry, prefix: string, depth: nat, s: Scan, t: Scan)
    requires Adds(e, prefix, depth, s, t) && !t.stop
    ensures Going(t)
  {
    hide Here, Surely, LinksAt;
  }

  lemma EndReports(breaks: bool, prefix: string, depth: nat, s: Scan)
    requires Going(s)
    ensures Reports([], breaks, prefix, depth, s, if breaks then s.Halt(ListingBroke) else s)
  {
    forall f ensures !Condemns([], prefix, f) { NoneBlamed(prefix, f); }
  }

  lemma OverReports(entries: seq<Entry>, breaks: bool, prefix: string, depth: nat, s: Scan, t: Scan)
    requires t.failures == s.failures && t.stop && t.reason == EntryBudget && t.entries > 4_000
    ensures Reports(entries, breaks, prefix, depth, s, t)
  {
  }

  lemma RaisedReports(e: Entry, rest: seq<Entry>, breaks: bool, prefix: string, depth: nat, s: Scan, t: Scan)
    requires Escapes(e) && t.failures == s.failures && t.stop && t.reason == ListingBroke
    ensures Reports([e] + rest, breaks, prefix, depth, s, t)
  {
    hide Escapes;
    StuckSplits(e, rest, depth, ListingBroke);
  }

  lemma StopReports(e: Entry, rest: seq<Entry>, breaks: bool, prefix: string, depth: nat, s: Scan, counted: Scan,
                    t: Scan, u: Scan)
    requires counted.failures == s.failures && Adds(e, prefix, depth, counted, t) && t.stop
    requires u == t || (breaks && u == t.Halt(ListingBroke))
    ensures Reports([e] + rest, breaks, prefix, depth, s, u)
  {
    hide Here, Surely, StuckAt, Blames, StuckAmong, LinksAt;
    forall i | |s.failures| <= i < |u.failures| ensures Blames([e] + rest, prefix, u.failures[i]) {
      BlamesSplits(e, rest, prefix, u.failures[i]);
    }
    StuckSplits(e, rest, depth, t.reason);
  }

  lemma NextReports(e: Entry, rest: seq<Entry>, breaks: bool, prefix: string, depth: nat, s: Scan, counted: Scan,
                    t: Scan, u: Scan)
    requires counted.failures == s.failures && counted.symlinksSkipped == s.symlinksSkipped
    requires Adds(e, prefix, depth, counted, t) && !t.stop && Reports(rest, breaks, prefix, depth, t, u)
    ensures Reports([e] + rest, breaks, prefix, depth, s, u)
  {
    hide Here, Surely, StuckAt, Blames, Condemns, StuckAmong, LinksAt;
    forall i | |s.failures| <= i < |u.failures| ensures Blames([e] + rest, prefix, u.failures[i]) {
      BlamesSplits(e, rest, prefix, u.failures[i]);
      if i < |t.failures| { assert u.failures[i] == t.failures[i]; }
    }
    StuckSplits(e, rest, depth, u.reason);
    assert ([e] + rest)[1..] == rest;
    if !u.stop {
      forall f | Condemns([e] + rest, prefix, f) ensures f in u.failures {
        CondemnsSplits(e, rest, prefix, f);
        if f in t.failures { var i :| 0 <= i < |t.failures| && t.failures[i] == f; assert u.failures[i] == f; }
      }
    }
  }

  /** What a scan of any root says is so. */
  lemma ScanReportsTruly(root: Root)
    ensures var s := ScanBundle(root);
            match root
            case Unsupported => s.reason == NoSupport && s.incomplete && s.failures == []
            case Unpinned => s.reason == NotPinned && s.incomplete && s.failures == []
            case Pinned(listing) =>
              && (forall i | 0 <= i < |s.failures| ::
                    listing.Listing? && Blames(listing.entries, "", s.failures[i]))
              && (s.stop <==> s.reason != NotHalted)
              && if s.stop then
                   match s.reason
                   case EntryBudget => s.entries > 4_000
                   case FileBudget => |s.files| >= 400
                   case ReadBudget => s.budget <= 0
                   case _ => Stuck(listing, 0, s.reason)
                 else
                   && listing.Listing? && s.symlinksSkipped == LinksIn(listing.entries)
                   && forall f | Condemns(listing.entries, "", f) :: f in s.failures
  {
    hide WalkEntries, SortByPath, Blames, Condemns, LinksIn, StuckAmong;
    if root.Pinned? {
      var start := EMPTY.(budget := MAX_TOTAL_BYTES);
      if root.listing.Listing? {
        EntriesReport(root.listing.entries, root.listing.breaks, "", 0, start);
        SortKeepsCount(WalkEntries(root.listing.entries, root.listing.breaks, "", 0, start).files);
      }
    }
  }

  lemma {:induction false} SortKeepsCount(files: seq<ScanFile>)
    ensures |SortByPath(files)| == |files|
  {
    if files != [] {
      SortKeepsCount(files[..|files| - 1]);
      InsertCounts(files[|files| - 1], SortByPath(files[..|files| - 1]));
    }
  }

  lemma {:induction false} InsertCounts(file: ScanFile, sorted: seq<ScanFile>)
    ensures |Insert(file, sorted)| == |sorted| + 1
  {
    if sorted != [] { InsertCounts(file, sorted[..|sorted| - 1]); }
  }
}

/** The walk as the source runs it: one mutable state, charged and appended to by mutually recursive
    methods and a read loop, each proved to do what ScanModel says. */
module ScanWalk {
  import opened TextEncoding
  import opened ScanModel

  ghost function Join(head: seq<Byte>, r: (seq<Byte>, bool)): (seq<Byte>, bool) { (head + r.0, r.1) }

  lemma Joined(head: seq<Byte>, r: (seq<Byte>, bool))
    ensures head == [] ==> Join(head, r) == r
  {
    assert [] + r.0 == r.0;
  }

  lemma JoinedTwice(a: seq<Byte>, b: seq<Byte>, r: (seq<Byte>, bool))
    ensures Join(a, Join(b, r)) == Join(a + b, r)
  {
    assert a + (b + r.0) == a + b + r.0;
  }

  class ScanState {
    var files: seq<ScanFile>
    var entries: nat
    var bytesRead: nat
    var budget: int
    var symlinksSkipped: nat
    var incomplete: bool
    var reason: HaltReason
    var failures: seq<Failure>
    var stop: bool

    function Value(): Scan
      reads this
    {
      Scan(files, entries, bytesRead, budget, symlinksSkipped, incomplete, reason, failures, stop)
    }

    constructor (budget: int)
      ensures Value() == EMPTY.(budget := budget)
    {
      files, entries, bytesRead, symlinksSkipped, failures := [], 0, 0, 0, [];
      incomplete, reason, stop := false, NotHalted, false;
      this.budget := budget;
    }

    method Fail(relative: string, why: Why)
      modifies this
      ensures Value() == old(Value()).Fail(relative, why)
    {
      failures := failures + [Failure(relative, why)];
      incomplete := true;
    }

    method Halt(why: HaltReason)
      modifies this
      ensures Value() == old(Value()).Halt(why)
    {
      incomplete, reason, stop := true, why, true;
    }

    /** Reads at most `limit` bytes; every chunk is charged before anything else can fail. */
    method ReadBounded(answers: seq<Answer>, limit: nat) returns (payload: seq<Byte>, broken: bool)
      modifies this
      ensures (payload, broken) == Read(answers, limit)
      ensures Value() == old(Value()).Charge(|payload|)
    {
      payload := [];
      var remaining := limit;
      var i := 0;
      assert answers[0..] == answers;
      Joined([], Read(answers, limit));
      while remaining > 0 && i < |answers|
        invariant i <= |answers| && remaining >= 0 && remaining + |payload| == limit
        invariant Value() == old(Value()).Charge(|payload|)
        invariant old(budget) >= limit ==> budget >= remaining
        invariant Read(answers, limit) == Join(payload, Read(answers[i..], remaining))
        decreases |answers| - i
      {
        if answers[i].Broken? {
          assert payload + [] == payload;
          return payload, true;
        }
        var piece := answers[i].bytes[..Min(|answers[i].bytes|, Min(remaining, READ_CHUNK))];
        if piece == [] {
          assert payload + [] == payload;
          return payload, false;
        }
        bytesRead, budget := bytesRead + |piece|, budget - |piece|;
        assert answers[i..][1..] == answers[i + 1..];
        JoinedTwice(payload, piece, Read(answers[i + 1..], remaining - |piece|));
        payload := payload + piece;
        remaining := remaining - |piece|;
        i := i + 1;
      }
      assert payload + [] == payload;
      return payload, false;
    }

    method CollectFile(e: Entry, info: Stat, relative: string) returns (raised: bool)
      modifies this
      ensures (Value(), raised) == ScanModel.CollectFile(e, info, relative, old(Value()))
    {
      if info.size > MAX_FILE_BYTES { Fail(relative, OverFileBudget); return false; }
      if |files| >= MAX_FILES { Halt(FileBudget); return false; }
      if budget <= 0 { Halt(ReadBudget); return false; }
      var limit := Min(MAX_FILE_BYTES, budget);
      match e.asFile {
        case FileRefused => Fail(relative, NotOpened); return false;
        case FileUnknown => return true;
        case FileOpened(found, answers, after) =>
          if !found.kind.Regular? || !found.SameObject(info) { Fail(relative, ChangedOnOpen); return false; }
          var payload, broken := ReadBounded(answers, limit);
          if broken { Fail(relative, ReadFailed); return false; }
          if after.None? { Fail(relative, NotCheckedAfter); return false; }
          if !after.value.SameObject(info) { Fail(relative, Replaced); return false; }
          if after.value.size != info.size || after.value.mtime != info.mtime {
            Fail(relative, ChangedOnRead);
            return false;
          }
          if |payload| != info.size { Fail(relative, ChangedOnRead); return false; }
          if |payload| == limit && info.size > limit {
            assert false; // the length test above has already refused this
          }
          files := files + [ScanFile(relative, payload, info.size)];
          return false;
      }
    }

    method Descend(e: Entry, info: Stat, relative: string, depth: nat) returns (raised: bool)
      modifies this
      ensures (Value(), raised) == ScanModel.Descend(e, info, relative, depth, old(Value()))
      decreases e, 0
    {
      match e.asDir {
        case DirRefused =>
          symlinksSkipped := symlinksSkipped + 1;
          Fail(relative, NotADirectory);
          return false;
        case DirUnknown => return true;
        case DirOpened(found, listing) =>
          if !found.kind.Directory? || !found.SameObject(info) {
            symlinksSkipped := symlinksSkipped + 1;
            Fail(relative, ChangedOnOpen);
            return false;
          }
          WalkDirectory(listing, relative + "/", depth + 1);
          return false;
      }
    }

    method Visit(e: Entry, prefix: string, depth: nat) returns (raised: bool)
      modifies this
      ensures (Value(), raised) == ScanModel.Visit(e, prefix, depth, old(Value()))
      decreases e, 1
    {
      if Pruned(e.name) { return false; }
      var relative := prefix + e.name;
      if e.typed.None? { return true; }
      if e.info.None? { Fail(relative, NotReadable); return false; }
      var info := e.info.value;
      if info.kind.Symlink? {
        symlinksSkipped := symlinksSkipped + 1;
        if e.typed.value { Fail(relative, ChangedType); }
        return false;
      }
      if info.kind.Directory? {
        raised := Descend(e, info, relative, depth);
        return;
      }
      if !info.kind.Regular? { Fail(relative, NotRegular); return false; }
      raised := CollectFile(e, info, relative);
    }

    method WalkDirectory(listing: Listing, prefix: string, depth: nat)
      modifies this
      ensures Value() == Walk(listing, prefix, depth, old(Value()))
      decreases listing
    {
      if stop { return; }
      if depth > MAX_DEPTH { Halt(DepthLimit); return; }
      if listing.Unlistable? { Halt(CannotList); return; }
      var i := 0;
      while i < |listing.entries|
        invariant i <= |listing.entries|
        invariant WalkEntries(listing.entries[i..], listing.breaks, prefix, depth, Value())
               == WalkEntries(listing.entries, listing.breaks, prefix, depth, old(Value()))
        decreases |listing.entries| - i
      {
        if stop { return; }
        assert listing.entries[i..][1..] == listing.entries[i + 1..];
        entries := entries + 1;
        if entries > MAX_ENTRIES { Halt(EntryBudget); return; }
        var raised := Visit(listing.entries[i], prefix, depth);
        if raised { Halt(ListingBroke); return; }
        i := i + 1;
      }
      if listing.breaks { Halt(ListingBroke); }
    }
  }

  /** `list.sort` on the collected files is a call into the host language; its result is the stable
      order of ScanModel. */
  method ScanBundleFiles(root: Root) returns (r: Scan)
    ensures r == ScanBundle(root)
  {
    match root {
      case Unsupported => return EMPTY.(incomplete := true, reason := NoSupport);
      case Unpinned => return EMPTY.(incomplete := true, reason := NotPinned);
      case Pinned(listing) =>
        var state := new ScanState(MAX_TOTAL_BYTES);
        state.WalkDirectory(listing, "", 0);
        state.files := SortByPath(state.files);
        return state.Value();
    }
  }
}

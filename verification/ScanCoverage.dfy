/** What a scan that calls itself complete has met (bundles/validate.py:582-609): whatever the file system does,
    a scan that reports complete has met every listed entry and kept every regular file whole. */
module ScanCoverage {
  import opened JsonModel
  import opened ScanModel
  import opened ScanRefinement

  /** A regular file that could be read, in one identity, to exactly the size it was listed with. */
  predicate ReadWhole(e: Entry) {
    && e.info.Some? && e.info.value.size <= MAX_FILE_BYTES
    && e.asFile.FileOpened? && e.asFile.stat.kind.Regular? && e.asFile.stat.SameObject(e.info.value)
    && |Read(e.asFile.answers, e.info.value.size).0| == e.info.value.size
    && e.asFile.after.Some? && e.asFile.after.value.SameObject(e.info.value)
    && e.asFile.after.value.size == e.info.value.size && e.asFile.after.value.mtime == e.info.value.mtime
  }

  /** The entry was pruned, or it was a link that was listed as one, a directory that was entered and
      covered, or a regular file that was read whole. */
  predicate Covered(e: Entry)
    decreases e, 0
  {
    Pruned(e.name) ||
      (&& e.typed.Some? && e.info.Some?
       && match e.info.value.kind
          case Symlink => !e.typed.value
          case Directory =>
            e.asDir.DirOpened? && e.asDir.dirStat.kind.Directory? && e.asDir.dirStat.SameObject(e.info.value)
            && CoveredListing(e.asDir.listing)
          case Regular => ReadWhole(e)
          case Other => false)
  }

  predicate CoveredListing(listing: Listing)
    decreases listing
  {
    listing.Listing? && !listing.breaks && forall i | 0 <= i < |listing.entries| :: Covered(listing.entries[i])
  }

  /** The tree as the scan met it. */
  function Met(e: Entry): Child
    decreases e, 0
  {
    Child(e.name,
          if e.info.Some? && e.info.value.kind.Regular? && e.asFile.FileOpened? then
            File(Read(e.asFile.answers, e.info.value.size).0)
          else if e.info.Some? && e.info.value.kind.Directory? && e.asDir.DirOpened? && e.asDir.listing.Listing? then
            Dir(AllMet(e.asDir.listing.entries))
          else if e.info.Some? && e.info.value.kind.Symlink? then Link
          else Special)
  }

  function AllMet(entries: seq<Entry>): seq<Child>
    decreases entries
  {
    if entries == [] then [] else [Met(entries[0])] + AllMet(entries[1..])
  }

  /** Asking for no more than was delivered delivers the same. */
  lemma {:induction false} ReadLess(answers: seq<Answer>, n: nat, m: nat)
    requires m <= n && |Read(answers, n).0| == m
    ensures Read(answers, m).0 == Read(answers, n).0
    decreases |answers|
  {
    if n > 0 && answers != [] && answers[0].Piece? {
      var size := Min(|answers[0].bytes|, Min(n, READ_CHUNK));
      if size > 0 {
        assert Min(|answers[0].bytes|, Min(m, READ_CHUNK)) == size;
        ReadLess(answers[1..], n - size, m - size);
      }
    }
  }

  lemma CollectCovers(e: Entry, info: Stat, relative: string, s: Scan)
    requires e.info == Some(info) && !s.incomplete
    ensures var (t, raised) := CollectFile(e, info, relative, s);
            !raised && !t.incomplete ==>
              && ReadWhole(e) && !t.stop == !s.stop
              && t.files == s.files + [ScanFile(relative, Read(e.asFile.answers, info.size).0, info.size)]
  {
    hide Read;
    if e.asFile.FileOpened? && s.budget > 0 {
      var limit := Min(MAX_FILE_BYTES, s.budget);
      if |Read(e.asFile.answers, limit).0| == info.size { ReadLess(e.asFile.answers, limit, info.size); }
    }
  }

  lemma {:induction false} VisitCovers(e: Entry, prefix: string, depth: nat, s: Scan)
    requires !s.incomplete && !s.stop
    ensures var (t, raised) := Visit(e, prefix, depth, s);
            !raised && !t.incomplete ==> Covered(e) && !t.stop && t.files == s.files + Files(Met(e), prefix)
    decreases e, 1
  {
    hide CollectFile, Walk, CoveredListing, ReadWhole, AllFiles, Read;
    assert s.files + [] == s.files;
    if !Pruned(e.name) && e.info.Some? {
      var info, relative := e.info.value, prefix + e.name;
      match info.kind {
        case Regular =>
          CollectCovers(e, info, relative, s);
          CollectReads(e);
        case Directory =>
          if e.asDir.DirOpened? {
            WalkCovers(e.asDir.listing, relative + "/", depth + 1, s);
            ListingOfCovered(e.asDir.listing);
          }
        case _ =>
      }
    }
  }

  lemma CollectReads(e: Entry)
    ensures ReadWhole(e) ==>
              && e.asFile.FileOpened? && e.info.Some?
              && |Read(e.asFile.answers, e.info.value.size).0| == e.info.value.size
  {
  }

  lemma {:induction false} EntriesCover(entries: seq<Entry>, breaks: bool, prefix: string, depth: nat, s: Scan)
    requires !s.incomplete && !s.stop
    ensures var t := WalkEntries(entries, breaks, prefix, depth, s);
            !t.incomplete ==>
              && !breaks && !t.stop && (forall i | 0 <= i < |entries| :: Covered(entries[i]))
              && t.files == s.files + AllFiles(AllMet(entries), prefix)
    decreases entries
  {
    hide Visit, Covered, Files, Met;
    if entries == [] {
      assert s.files + [] == s.files;
    } else if s.entries < MAX_ENTRIES {
      var counted := s.(entries := s.entries + 1);
      VisitCovers(entries[0], prefix, depth, counted);
      var (t, raised) := Visit(entries[0], prefix, depth, counted);
      if !raised {
        var rest := AllMet(entries[1..]);
        assert AllMet(entries)[1..] == rest;
        if t.incomplete {
          EntriesNeverForget(entries[1..], breaks, prefix, depth, t);
        } else {
          EntriesCover(entries[1..], breaks, prefix, depth, t);
          assert s.files + Files(Met(entries[0]), prefix) + AllFiles(rest, prefix)
              == s.files + (Files(Met(entries[0]), prefix) + AllFiles(rest, prefix));
        }
      }
    }
  }

  lemma {:induction false} WalkCovers(listing: Listing, prefix: string, depth: nat, s: Scan)
    requires !s.incomplete && !s.stop
    ensures var t := Walk(listing, prefix, depth, s);
            !t.incomplete ==>
              && CoveredListing(listing) && !t.stop
              && t.files == s.files + AllFiles(AllMet(listing.entries), prefix)
    decreases listing
  {
    hide WalkEntries, Covered, AllMet, AllFiles;
    if listing.Listing? { EntriesCover(listing.entries, listing.breaks, prefix, depth, s); }
  }

  /** A complete scan is complete, against any file system: the root was pinned, every listing was read
      to its end, every entry in it was pruned, a link, a covered directory or a regular file read
      whole in one identity, and the files are exactly those, sorted. */
  lemma CompleteMeansCovered(root: Root)
    requires ScanBundle(root).Complete()
    ensures root.Pinned? && CoveredListing(root.listing)
    ensures ScanBundle(root).files == SortByPath(AllFiles(AllMet(root.listing.entries), ""))
  {
    hide Walk, SortByPath, AllFiles, AllMet, CoveredListing;
    if root.Pinned? {
      var start := EMPTY.(budget := MAX_TOTAL_BYTES);
      WalkCovers(root.listing, "", 0, start);
      ListingOfCovered(root.listing);
      assert [] + AllFiles(AllMet(root.listing.entries), "") == AllFiles(AllMet(root.listing.entries), "");
    }
  }

  lemma ListingOfCovered(listing: Listing)
    ensures CoveredListing(listing) ==> listing.Listing?
  {
  }
}

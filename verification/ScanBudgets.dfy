/** The budgets of a scan hold against a file system that may answer anything at any call. */
module ScanBudgets {
  import opened JsonModel
  import opened TextEncoding
  import opened ScanModel

  function Sum(files: seq<ScanFile>): nat {
    if files == [] then 0 else Sum(files[..|files| - 1]) + |files[|files| - 1].payload|
  }

  /** The byte ledger balances, every limit holds, and what went wrong is on record. */
  ghost predicate Within(s: Scan) {
    && s.bytesRead + s.budget == MAX_TOTAL_BYTES && s.budget >= 0
    && Sum(s.files) <= s.bytesRead
    && |s.files| <= MAX_FILES
    && (forall i | 0 <= i < |s.files| :: |s.files[i].payload| == s.files[i].sizeAtOpen <= MAX_FILE_BYTES)
    && s.entries <= MAX_ENTRIES + 1 && (!s.stop ==> s.entries <= MAX_ENTRIES)
    && (s.stop ==> s.incomplete) && (s.failures != [] ==> s.incomplete)
    && (forall i | 0 <= i < |s.failures| :: s.failures[i].why != BudgetMidFile)
  }

  lemma SumAppend(files: seq<ScanFile>, f: ScanFile)
    ensures Sum(files + [f]) == Sum(files) + |f.payload|
  {
    assert (files + [f])[..|files|] == files;
  }

  lemma AfterReadStaysWithin(s: Scan, info: Stat, relative: string, payload: seq<Byte>, broken: bool,
                             after: Option<Stat>, limit: nat)
    requires Within(s) && !s.stop && |payload| <= limit <= s.budget && limit <= MAX_FILE_BYTES && |s.files| < MAX_FILES
    requires info.size <= MAX_FILE_BYTES
    ensures Within(AfterRead(s.Charge(|payload|), info, relative, payload, broken, after, limit))
  {
    hide Sum;
    SumAppend(s.files, ScanFile(relative, payload, info.size));
  }

  lemma FailStaysWithin(s: Scan, relative: string, why: Why)
    requires Within(s) && why != BudgetMidFile
    ensures Within(s.Fail(relative, why)) && Within(s.SkipLink())
  {
  }

  lemma CollectStaysWithin(e: Entry, info: Stat, relative: string, s: Scan)
    requires Within(s) && !s.stop
    ensures Within(CollectFile(e, info, relative, s).0)
  {
    hide Read, AfterRead, Sum;
    HaltsStayWithin(s, FileBudget);
    HaltsStayWithin(s, ReadBudget);
    FailStaysWithin(s, relative, OverFileBudget);
    FailStaysWithin(s, relative, NotOpened);
    FailStaysWithin(s, relative, ChangedOnOpen);
    if info.size <= MAX_FILE_BYTES && |s.files| < MAX_FILES && e.asFile.FileOpened? && s.budget > 0 {
      var limit := Min(MAX_FILE_BYTES, s.budget);
      var (payload, broken) := Read(e.asFile.answers, limit);
      AfterReadStaysWithin(s, info, relative, payload, broken, e.asFile.after, limit);
    }
  }

  lemma {:induction false} DescendStaysWithin(e: Entry, info: Stat, relative: string, depth: nat, s: Scan)
    requires Within(s) && !s.stop
    ensures Within(Descend(e, info, relative, depth, s).0)
    decreases e, 0
  {
    hide Walk;
    if e.asDir.DirOpened? {
      WalkStaysWithin(e.asDir.listing, relative + "/", depth + 1, s);
    }
  }

  lemma {:induction false} VisitStaysWithin(e: Entry, prefix: string, depth: nat, s: Scan)
    requires Within(s) && !s.stop
    ensures Within(Visit(e, prefix, depth, s).0)
    decreases e, 1
  {
    hide CollectFile, Descend;
    if e.info.Some? {
      CollectStaysWithin(e, e.info.value, prefix + e.name, s);
      DescendStaysWithin(e, e.info.value, prefix + e.name, depth, s);
    }
  }

  lemma {:induction false} EntriesStayWithin(entries: seq<Entry>, breaks: bool, prefix: string, depth: nat, s: Scan)
    requires Within(s)
    ensures Within(WalkEntries(entries, breaks, prefix, depth, s))
    decreases entries
  {
    hide Visit;
    if entries != [] && !s.stop && s.entries < MAX_ENTRIES {
      var counted := s.(entries := s.entries + 1);
      VisitStaysWithin(entries[0], prefix, depth, counted);
      var (t, raised) := Visit(entries[0], prefix, depth, counted);
      if !raised { EntriesStayWithin(entries[1..], breaks, prefix, depth, t); }
    }
  }

  lemma {:induction false} WalkStaysWithin(listing: Listing, prefix: string, depth: nat, s: Scan)
    requires Within(s)
    ensures Within(Walk(listing, prefix, depth, s))
    decreases listing
  {
    hide WalkEntries, Within;
    if listing.Listing? && !s.stop && depth <= MAX_DEPTH {
      EntriesStayWithin(listing.entries, listing.breaks, prefix, depth, s);
    } else {
      HaltsStayWithin(s, DepthLimit);
      HaltsStayWithin(s, CannotList);
    }
  }

  lemma HaltsStayWithin(s: Scan, why: HaltReason)
    requires Within(s)
    ensures Within(s.Halt(why))
  {
  }

  lemma {:induction false} InsertKeeps(file: ScanFile, sorted: seq<ScanFile>)
    ensures multiset(Insert(file, sorted)) == multiset(sorted) + multiset{file}
            && |Insert(file, sorted)| == |sorted| + 1
  {
    hide Before;
    if sorted != [] && Before(file.relative, sorted[|sorted| - 1].relative) {
      var init, last := sorted[..|sorted| - 1], sorted[|sorted| - 1];
      InsertKeeps(file, init);
      assert sorted == init + [last];
    }
  }

  lemma {:induction false} InsertSums(file: ScanFile, sorted: seq<ScanFile>)
    ensures Sum(Insert(file, sorted)) == Sum(sorted) + |file.payload|
  {
    hide Before;
    if sorted != [] && Before(file.relative, sorted[|sorted| - 1].relative) {
      var init, last := sorted[..|sorted| - 1], sorted[|sorted| - 1];
      InsertSums(file, init);
      SumAppend(Insert(file, init), last);
    } else {
      SumAppend(sorted, file);
    }
  }

  lemma {:induction false} SortKeeps(files: seq<ScanFile>)
    ensures multiset(SortByPath(files)) == multiset(files) && |SortByPath(files)| == |files|
    ensures Sum(SortByPath(files)) == Sum(files)
  {
    hide Insert, Before;
    if files != [] {
      var init, last := files[..|files| - 1], files[|files| - 1];
      SortKeeps(init);
      InsertKeeps(last, SortByPath(init));
      InsertSums(last, SortByPath(init));
      assert files == init + [last];
    }
  }

  /** Whatever the file system does: no more than 4 MiB is read, what is kept was read, no more than
      4001 entries are counted, 400 files kept, each whole and at most 512 KiB; a scan that stopped or
      failed anywhere is incomplete; and the last refusal of a file is unreachable. */
  lemma BudgetsHold(root: Root)
    ensures var s := ScanBundle(root);
            && s.bytesRead <= MAX_TOTAL_BYTES && Sum(s.files) <= s.bytesRead
            && s.entries <= MAX_ENTRIES + 1 && |s.files| <= MAX_FILES
            && (forall f | f in s.files :: |f.payload| == f.sizeAtOpen <= MAX_FILE_BYTES)
            && (s.Complete() <==> !s.incomplete) && (s.stop ==> s.incomplete)
            && (root.Pinned? ==> s.bytesRead + s.budget == MAX_TOTAL_BYTES && s.budget >= 0)
            && (forall i | 0 <= i < |s.failures| :: s.failures[i].why != BudgetMidFile)
  {
    hide Walk, SortByPath;
    if root.Pinned? {
      var start := EMPTY.(budget := MAX_TOTAL_BYTES);
      WalkStaysWithin(root.listing, "", 0, start);
      var s := Walk(root.listing, "", 0, start);
      SortKeeps(s.files);
      forall f | f in SortByPath(s.files) ensures |f.payload| == f.sizeAtOpen <= MAX_FILE_BYTES {
        assert f in multiset(SortByPath(s.files));
        assert f in s.files;
      }
    }
  }
}

/** On a tree that stands still, a scan is complete exactly when the tree is within the limits, and
    then it has collected every regular file (bundles/validate.py:582-781). */
module ScanRefinement {
  import opened JsonModel
  import opened TextEncoding
  import opened ScanModel
  import opened ScanBudgets

  /** A directory tree; the order of children is the order in which the directory lists them. */
  datatype Node = File(content: seq<Byte>) | Dir(children: seq<Child>) | Link | Special

  datatype Child = Child(name: string, node: Node)

  // ---- a file system that answers according to a tree ----

  /** Reads yield the content in pieces of any size up to the chunk size, then nothing. */
  predicate Delivers(answers: seq<Answer>, content: seq<Byte>)
    decreases |answers|
  {
    if answers == [] then content == []
    else
      && answers[0].Piece?
      && if answers[0].bytes == [] then content == []
         else |answers[0].bytes| <= READ_CHUNK && answers[0].bytes <= content
              && Delivers(answers[1..], content[|answers[0].bytes|..])
  }

  predicate HonestFile(e: Entry, content: seq<Byte>) {
    && e.typed.Some? && e.info.Some? && e.info.value.kind.Regular? && e.info.value.size == |content|
    && e.asFile.FileOpened? && e.asFile.stat.kind.Regular? && e.asFile.stat.SameObject(e.info.value)
    && Delivers(e.asFile.answers, content)
    && e.asFile.after == e.info
  }

  predicate Honest(e: Entry, c: Child)
    decreases e, 0
  {
    && e.name == c.name
    && (Pruned(c.name) ||
        match c.node
        case File(content) => HonestFile(e, content)
        case Dir(children) =>
          && e.typed.Some? && e.info.Some? && e.info.value.kind.Directory?
          && e.asDir.DirOpened? && e.asDir.dirStat.kind.Directory? && e.asDir.dirStat.SameObject(e.info.value)
          && HonestListing(e.asDir.listing, children)
        case Link => e.typed == Some(false) && e.info.Some? && e.info.value.kind.Symlink?
        case Special => e.typed.Some? && e.info.Some? && e.info.value.kind.Other?)
  }

  predicate HonestEntries(entries: seq<Entry>, children: seq<Child>)
    decreases entries
  {
    |entries| == |children| && forall i | 0 <= i < |entries| :: Honest(entries[i], children[i])
  }

  predicate HonestListing(listing: Listing, children: seq<Child>)
    decreases listing
  {
    listing.Listing? && !listing.breaks && HonestEntries(listing.entries, children)
  }

  // ---- what the simple listing says ----

  predicate Enters(c: Child) { !Pruned(c.name) && c.node.Dir? }

  /** The regular files below unpruned names, in the order of the walk. */
  function Files(c: Child, prefix: string): seq<ScanFile>
    decreases c, 0
  {
    if Pruned(c.name) then []
    else
      match c.node
      case File(content) => [ScanFile(prefix + c.name, content, |content|)]
      case Dir(children) => AllFiles(children, prefix + c.name + "/")
      case _ => []
  }

  function AllFiles(children: seq<Child>, prefix: string): seq<ScanFile>
    decreases children
  {
    if children == [] then [] else Files(children[0], prefix) + AllFiles(children[1..], prefix)
  }

  /** How many entries are listed in this directory and the directories below it. */
  function Listed(children: seq<Child>): nat
    decreases children
  {
    if children == [] then 0 else 1 + Below(children[0]) + Listed(children[1..])
  }

  function Below(c: Child): nat
    decreases c, 0
  {
    if Enters(c) then Listed(c.node.children) else 0
  }

  function Links(children: seq<Child>): nat
    decreases children
  {
    if children == [] then 0 else LinksOf(children[0]) + Links(children[1..])
  }

  function LinksOf(c: Child): nat
    decreases c, 0
  {
    if Pruned(c.name) then 0 else match c.node case Dir(children) => Links(children) case Link => 1 case _ => 0
  }

  /** No directory at more than 32 levels, nothing that is neither file, directory nor link. */
  predicate Regularly(children: seq<Child>, depth: nat)
    decreases children
  {
    depth <= MAX_DEPTH && forall i | 0 <= i < |children| :: RegularChild(children[i], depth)
  }

  predicate RegularChild(c: Child, depth: nat)
    decreases c, 0
  {
    Pruned(c.name) || (!c.node.Special? && (c.node.Dir? ==> Regularly(c.node.children, depth + 1)))
  }

  /** Whether these files can be collected one by one, with `n` files kept and `b` bytes left. */
  predicate Fit(n: nat, b: int, files: seq<ScanFile>)
    decreases |files|
  {
    files == [] ||
      var size := |files[0].payload|;
      size <= MAX_FILE_BYTES && n < MAX_FILES && b > 0 && size <= b && Fit(n + 1, b - size, files[1..])
  }

  /** The limits, as a condition on the tree. Before every file some budget must be left, so a tree
      of exactly 4 MiB passes only if no empty file comes after the last byte. */
  ghost predicate Scannable(children: seq<Child>) {
    var files := AllFiles(children, "");
    && Regularly(children, 0)
    && Listed(children) <= MAX_ENTRIES
    && |files| <= MAX_FILES
    && (forall f | f in files :: |f.payload| <= MAX_FILE_BYTES)
    && Sum(files) <= MAX_TOTAL_BYTES
    && (forall i | 0 <= i < |files| :: Sum(files[..i]) < MAX_TOTAL_BYTES)
  }

  // ---- the walk on an honest listing ----

  lemma {:induction false} ReadDelivers(answers: seq<Answer>, content: seq<Byte>, n: nat)
    requires Delivers(answers, content)
    ensures Read(answers, n) == (content[..Min(n, |content|)], false)
    decreases |answers|
  {
    if n > 0 && answers != [] && answers[0].bytes != [] {
      var bytes, later := answers[0].bytes, content[|answers[0].bytes|..];
      if |bytes| <= n {
        assert bytes[..Min(|bytes|, Min(n, READ_CHUNK))] == bytes;
        ReadDelivers(answers[1..], later, n - |bytes|);
        TakeMore(content, |bytes|, n);
        assert content[..|bytes|] == bytes;
      } else {
        ReadNoMore(answers[1..]);
        assert bytes[..n] + [] == content[..n];
      }
    }
  }

  lemma ReadNoMore(answers: seq<Answer>)
    ensures Read(answers, 0) == ([], false)
  {
  }

  lemma TakeMore(content: seq<Byte>, k: nat, n: nat)
    requires k <= |content| && k <= n
    ensures content[..Min(n, |content|)] == content[..k] + content[k..][..Min(n - k, |content| - k)]
  {
  }

  lemma {:induction false} SumConcat(a: seq<ScanFile>, b: seq<ScanFile>)
    ensures Sum(a + b) == Sum(a) + Sum(b)
  {
    if b == [] {
      assert a + b == a;
    } else {
      SumConcat(a, b[..|b| - 1]);
      assert (a + b)[..|a + b| - 1] == a + b[..|b| - 1];
    }
  }

  lemma {:induction false} FitConcat(n: nat, b: int, first: seq<ScanFile>, rest: seq<ScanFile>)
    ensures Fit(n, b, first + rest) <==> Fit(n, b, first) && Fit(n + |first|, b - Sum(first), rest)
    decreases |first|
  {
    if first == [] {
      assert first + rest == rest;
    } else {
      assert (first + rest)[1..] == first[1..] + rest;
      assert first == [first[0]] + first[1..];
      SumConcat([first[0]], first[1..]);
      assert Sum([first[0]]) == |first[0].payload| by { SumAppend([], first[0]); assert [] + [first[0]] == [first[0]]; }
      FitConcat(n + 1, b - |first[0].payload|, first[1..], rest);
    }
  }

  /** Nothing has gone wrong yet. */
  predicate Ready(s: Scan) { !s.incomplete && !s.stop && s.failures == [] && s.budget >= 0 }

  function Extended(s: Scan, files: seq<ScanFile>, entries: nat, links: nat): Scan {
    s.(files := s.files + files, entries := s.entries + entries, bytesRead := s.bytesRead + Sum(files),
       budget := s.budget - Sum(files), symlinksSkipped := s.symlinksSkipped + links)
  }

  /** Either all of it was taken in, or the scan is incomplete. */
  ghost predicate Outcome(s: Scan, t: Scan, takes: bool, files: seq<ScanFile>, entries: nat, links: nat) {
    (if takes then t == Extended(s, files, entries, links) && Ready(t) else t.incomplete)
  }

  lemma CollectHonest(e: Entry, content: seq<Byte>, relative: string, s: Scan)
    requires HonestFile(e, content) && Ready(s) && |s.files| <= MAX_FILES
    ensures var f := ScanFile(relative, content, |content|);
            var (t, raised) := CollectFile(e, e.info.value, relative, s);
            !raised && Outcome(s, t, Fit(|s.files|, s.budget, [f]), [f], 0, 0)
  {
    hide Read, Delivers;
    var f := ScanFile(relative, content, |content|);
    assert Sum([f]) == |content| by { SumAppend([], f); assert [] + [f] == [f]; }
    assert [f][1..] == [];
    if s.budget > 0 {
      var limit := Min(MAX_FILE_BYTES, s.budget);
      ReadDelivers(e.asFile.answers, content, limit);
      assert |content| <= limit ==> content[..|content|] == content;
    }
  }

  lemma {:induction false} CollectNeverForgets(e: Entry, info: Stat, relative: string, s: Scan)
    ensures s.incomplete ==> CollectFile(e, info, relative, s).0.incomplete
    ensures |s.files| <= MAX_FILES ==> |CollectFile(e, info, relative, s).0.files| <= MAX_FILES
  {
    hide Read;
  }

  lemma {:induction false} VisitNeverForgets(e: Entry, prefix: string, depth: nat, s: Scan)
    ensures s.incomplete ==> Visit(e, prefix, depth, s).0.incomplete
    decreases e, 1
  {
    hide CollectFile, Walk;
    if e.info.Some? {
      CollectNeverForgets(e, e.info.value, prefix + e.name, s);
      if e.asDir.DirOpened? { WalkNeverForgets(e.asDir.listing, prefix + e.name + "/", depth + 1, s); }
    }
  }

  lemma {:induction false} EntriesNeverForget(entries: seq<Entry>, breaks: bool, prefix: string, depth: nat, s: Scan)
    ensures s.incomplete ==> WalkEntries(entries, breaks, prefix, depth, s).incomplete
    decreases entries
  {
    hide Visit;
    if entries != [] && !s.stop && s.entries < MAX_ENTRIES {
      var counted := s.(entries := s.entries + 1);
      VisitNeverForgets(entries[0], prefix, depth, counted);
      EntriesNeverForget(entries[1..], breaks, prefix, depth, Visit(entries[0], prefix, depth, counted).0);
    }
  }

  lemma {:induction false} WalkNeverForgets(listing: Listing, prefix: string, depth: nat, s: Scan)
    ensures s.incomplete ==> Walk(listing, prefix, depth, s).incomplete
    decreases listing
  {
    hide WalkEntries;
    if listing.Listing? { EntriesNeverForget(listing.entries, listing.breaks, prefix, depth, s); }
  }

  lemma {:induction false} VisitHonest(e: Entry, c: Child, prefix: string, depth: nat, s: Scan)
    requires Honest(e, c) && Ready(s) && |s.files| <= MAX_FILES && s.entries <= MAX_ENTRIES && depth <= MAX_DEPTH
    ensures var (t, raised) := Visit(e, prefix, depth, s);
            var takes := RegularChild(c, depth) && s.entries + Below(c) <= MAX_ENTRIES
                  && Fit(|s.files|, s.budget, Files(c, prefix));
            !raised && Outcome(s, t, takes, Files(c, prefix), Below(c), LinksOf(c))
    decreases e, 1
  {
    hide CollectFile, Walk, HonestFile, HonestListing, AllFiles, Listed, Links, Regularly, Fit;
    NothingFits(s);
    if !Pruned(c.name) {
      if c.node.File? {
        CollectHonest(e, c.node.content, prefix + c.name, s) by { HonestIsTyped(e, c); }
        HonestIsTyped(e, c);
      } else if c.node.Dir? {
        WalkHonest(e.asDir.listing, c.node.children, prefix + c.name + "/", depth + 1, s);
      }
    }
  }

  lemma HonestIsTyped(e: Entry, c: Child)
    requires Honest(e, c) && !Pruned(c.name) && c.node.File?
    ensures e.typed.Some? && e.info.Some? && e.info.value.kind.Regular? && HonestFile(e, c.node.content)
  {
  }

  lemma NothingFits(s: Scan)
    ensures Fit(|s.files|, s.budget, []) && Extended(s, [], 0, 0) == s && Sum([]) == 0
  {
    assert s.files + [] == s.files;
  }

  lemma {:induction false} WalkHonest(listing: Listing, children: seq<Child>, prefix: string, depth: nat, s: Scan)
    requires HonestListing(listing, children) && Ready(s) && |s.files| <= MAX_FILES && s.entries <= MAX_ENTRIES
    ensures var takes := Regularly(children, depth) && s.entries + Listed(children) <= MAX_ENTRIES
                         && Fit(|s.files|, s.budget, AllFiles(children, prefix));
            Outcome(s, Walk(listing, prefix, depth, s), takes, AllFiles(children, prefix), Listed(children),
                    Links(children))
    decreases listing
  {
    hide WalkEntries, HonestEntries, AllFiles, Listed, Links, Fit, Extended;
    if depth <= MAX_DEPTH {
      EntriesHonest(listing.entries, children, prefix, depth, s);
    }
  }

  lemma {:induction false} EntriesHonest(entries: seq<Entry>, children: seq<Child>, prefix: string, depth: nat, s: Scan)
    requires HonestEntries(entries, children) && Ready(s) && |s.files| <= MAX_FILES && s.entries <= MAX_ENTRIES
    requires depth <= MAX_DEPTH
    ensures var takes := Regularly(children, depth) && s.entries + Listed(children) <= MAX_ENTRIES
                         && Fit(|s.files|, s.budget, AllFiles(children, prefix));
            Outcome(s, WalkEntries(entries, false, prefix, depth, s), takes, AllFiles(children, prefix),
                    Listed(children), Links(children))
    decreases entries
  {
    hide Visit, Fit, Files, RegularChild, Honest, Below, LinksOf;
    if entries == [] {
      NothingFits(s);
    } else if s.entries < MAX_ENTRIES {
      var counted := s.(entries := s.entries + 1);
      var c, rest := children[0], children[1..];
      VisitHonest(entries[0], c, prefix, depth, counted);
      var t := Visit(entries[0], prefix, depth, counted).0;
      FitConcat(|s.files|, s.budget, Files(c, prefix), AllFiles(rest, prefix));
      FitCounts(|s.files|, s.budget, Files(c, prefix));
      RegularSplit(children, depth);
      if t.incomplete {
        EntriesNeverForget(entries[1..], false, prefix, depth, t);
      } else {
        EntriesHonest(entries[1..], rest, prefix, depth, t);
        ExtendTwice(s, Files(c, prefix), 1 + Below(c), LinksOf(c), AllFiles(rest, prefix), Listed(rest), Links(rest));
      }
    }
  }

  lemma RegularSplit(children: seq<Child>, depth: nat)
    requires children != []
    ensures Regularly(children, depth) <==> RegularChild(children[0], depth) && Regularly(children[1..], depth)
  {
    hide RegularChild;
    assert children == [children[0]] + children[1..];
  }

  lemma ExtendTwice(s: Scan, a: seq<ScanFile>, n: nat, k: nat, b: seq<ScanFile>, m: nat, l: nat)
    ensures Extended(Extended(s, a, n, k), b, m, l) == Extended(s, a + b, n + m, k + l)
  {
    SumConcat(a, b);
    assert s.files + a + b == s.files + (a + b);
  }

  lemma {:induction false} FitCounts(n: nat, b: int, files: seq<ScanFile>)
    ensures Fit(n, b, files) && n <= MAX_FILES ==> n + |files| <= MAX_FILES
    decreases |files|
  {
    if files != [] { FitCounts(n + 1, b - |files[0].payload|, files[1..]); }
  }

  // ---- the limits, spelled out ----

  lemma {:induction false} FitMeans(n: nat, b: nat, files: seq<ScanFile>)
    requires n <= MAX_FILES
    ensures Fit(n, b, files) <==>
              && n + |files| <= MAX_FILES
              && (forall f | f in files :: |f.payload| <= MAX_FILE_BYTES)
              && Sum(files) <= b
              && (forall i | 0 <= i < |files| :: Sum(files[..i]) < b)
  {
    if files != [] {
      var init, last := files[..|files| - 1], files[|files| - 1];
      assert files == init + [last];
      FitMeans(n, b, init);
      FitConcat(n, b, init, [last]);
      assert forall i | 0 <= i < |init| :: files[..i] == init[..i];
      assert files[..|init|] == init;
      assert Fit(n + |init|, b - Sum(init), [last]) <==>
             |last.payload| <= MAX_FILE_BYTES && n + |init| < MAX_FILES && b - Sum(init) > 0
               && |last.payload| <= b - Sum(init) by {
        assert [last][1..] == [];
      }
    }
  }

  /** On a static tree a scan is complete exactly when the tree is within the limits; then it has
      collected the simple listing, sorted by path, and counted every entry and link. */
  lemma CompleteIffScannable(listing: Listing, children: seq<Child>)
    requires HonestListing(listing, children)
    ensures var s := ScanBundle(Pinned(listing));
            && (s.Complete() <==> Scannable(children))
            && (s.Complete() ==> s.files == SortByPath(AllFiles(children, "")) && s.entries == Listed(children)
                                 && s.bytesRead == Sum(s.files) && s.symlinksSkipped == Links(children))
  {
    hide Walk, AllFiles, Listed, Links, Regularly, Fit, Sum, SortByPath;
    var start := EMPTY.(budget := MAX_TOTAL_BYTES);
    WalkHonest(listing, children, "", 0, start);
    FitMeans(0, MAX_TOTAL_BYTES, AllFiles(children, ""));
    SortKeeps(AllFiles(children, ""));
    assert [] + AllFiles(children, "") == AllFiles(children, "");
    assert Sum([]) == 0 by { NothingFits(start); }
  }

  /** The documented limits are enough: strictly fewer than 4 MiB in all. */
  lemma BelowTheBudgetIsEnough(listing: Listing, children: seq<Child>)
    requires HonestListing(listing, children)
    requires Regularly(children, 0) && Listed(children) <= MAX_ENTRIES
    requires var files := AllFiles(children, "");
             && |files| <= MAX_FILES && Sum(files) < MAX_TOTAL_BYTES
             && forall f | f in files :: |f.payload| <= MAX_FILE_BYTES
    ensures ScanBundle(Pinned(listing)).Complete()
  {
    hide AllFiles, Listed, Regularly, Sum, ScanBundle, HonestListing;
    var files := AllFiles(children, "");
    forall i | 0 <= i < |files| ensures Sum(files[..i]) < MAX_TOTAL_BYTES {
      assert files == files[..i] + files[i..];
      SumConcat(files[..i], files[i..]);
    }
    CompleteIffScannable(listing, children);
  }
}

/** What a complete scan returns, said without the walk: the regular files that a path through
    unpruned, non-link names leads to, each once, in path order. */
module ScanListing {
  import opened JsonModel
  import opened TextEncoding
  import opened ScanModel
  import opened ScanRefinement

  // ---- looking a path up in a tree ----

  function Find(children: seq<Child>, name: string): (r: Option<Node>)
    ensures r.Some? ==> exists i :: 0 <= i < |children| && children[i] == Child(name, r.value)
    ensures r.None? ==> forall i | 0 <= i < |children| :: children[i].name != name
  {
    if children == [] then None
    else if children[0].name == name then
      assert children[0] == Child(name, children[0].node);
      Some(children[0].node)
    else
      var r := Find(children[1..], name);
      assert r.Some? ==> forall i | 0 <= i < |children[1..]| :: children[1..][i] == children[i + 1];
      r
  }

  function FileAt(children: seq<Child>, path: seq<string>): Option<seq<Byte>>
    decreases |path|
  {
    if path == [] then None
    else
      var node := Find(children, path[0]);
      if node.None? then None
      else if |path| == 1 then if node.value.File? then Some(node.value.content) else None
      else if node.value.Dir? then FileAt(node.value.children, path[1..]) else None
  }

  /** Hidden names and two caches; the other names of the source's set are hidden already. */
  predicate Skipped(name: string) { "." <= name || name == "__pycache__" || name == "node_modules" }

  lemma PrunedIsSkipped(name: string)
    ensures Pruned(name) <==> Skipped(name)
  {
  }

  predicate Open(path: seq<string>) { forall i | 0 <= i < |path| :: !Skipped(path[i]) }

  function PathText(path: seq<string>): string
    requires path != []
  {
    if |path| == 1 then path[0] else path[0] + "/" + PathText(path[1..])
  }

  /** Names in one directory are distinct and hold no slash. */
  predicate Tidy(children: seq<Child>)
    decreases children
  {
    && (forall i, j | 0 <= i < j < |children| :: children[i].name != children[j].name)
    && (forall i | 0 <= i < |children| :: TidyChild(children[i]))
  }

  predicate TidyChild(c: Child)
    decreases c, 0
  {
    '/' !in c.name && (c.node.Dir? ==> Tidy(c.node.children))
  }

  /** The file is there, and a path of unpruned names leads to it. */
  ghost predicate Reachable(children: seq<Child>, prefix: string, f: ScanFile) {
    exists path: seq<string> :: path != [] && Leads(children, path, prefix, f)
  }

  ghost predicate Leads(children: seq<Child>, path: seq<string>, prefix: string, f: ScanFile)
    requires path != []
  {
    Open(path) && FileAt(children, path) == Some(f.payload) && f.relative == prefix + PathText(path)
    && f.sizeAtOpen == |f.payload|
  }

  // ---- the simple listing is what is reachable ----

  lemma FindIn(children: seq<Child>, i: nat)
    requires Tidy(children) && i < |children|
    ensures Find(children, children[i].name) == Some(children[i].node)
  {
  }

  lemma {:induction false} ListedIsReachable(children: seq<Child>, prefix: string, i: nat, f: ScanFile)
    requires Tidy(children) && i < |children| && f in Files(children[i], prefix)
    ensures Reachable(children, prefix, f)
    decreases children
  {
    hide Reachable, Tidy;
    var c := children[i];
    FindIn(children, i);
    match c.node
    case File(content) =>
      ReachableHere(children, prefix, i, f);
    case Dir(below) =>
      assert Tidy(below) by { TidyBelow(children, i); }
      var j := IndexOf(below, prefix + c.name + "/", f);
      ListedIsReachable(below, prefix + c.name + "/", j, f);
      ReachableBelow(children, prefix, i, f);
    case _ =>
  }

  lemma TidyBelow(children: seq<Child>, i: nat)
    requires Tidy(children) && i < |children|
    ensures TidyChild(children[i])
  {
  }

  lemma ReachableHere(children: seq<Child>, prefix: string, i: nat, f: ScanFile)
    requires Tidy(children) && i < |children| && children[i].node.File? && f in Files(children[i], prefix)
    ensures Reachable(children, prefix, f)
  {
    FindIn(children, i);
    assert Leads(children, [children[i].name], prefix, f);
  }

  lemma LeadsBelow(children: seq<Child>, prefix: string, name: string, node: Node, path: seq<string>, f: ScanFile)
    requires Find(children, name) == Some(node) && node.Dir? && !Pruned(name)
    requires path != [] && Leads(node.children, path, prefix + name + "/", f)
    ensures Leads(children, [name] + path, prefix, f)
  {
    hide Find, Pruned, Skipped;
    PrunedIsSkipped(name);
    var longer := [name] + path;
    assert longer[1..] == path;
    assert PathText(longer) == name + "/" + PathText(path);
    assert prefix + name + "/" + PathText(path) == prefix + (name + "/" + PathText(path));
  }

  lemma ReachableBelow(children: seq<Child>, prefix: string, i: nat, f: ScanFile)
    requires Tidy(children) && i < |children| && children[i].node.Dir? && !Pruned(children[i].name)
    requires Reachable(children[i].node.children, prefix + children[i].name + "/", f)
    ensures Reachable(children, prefix, f)
  {
    hide Tidy, Leads, Pruned;
    var c := children[i];
    FindIn(children, i);
    var path: seq<string> :| path != [] && Leads(c.node.children, path, prefix + c.name + "/", f);
    LeadsBelow(children, prefix, c.name, c.node, path, f);
  }

  lemma {:induction false} InAll(children: seq<Child>, prefix: string, i: nat, f: ScanFile)
    requires i < |children| && f in Files(children[i], prefix)
    ensures f in AllFiles(children, prefix)
    decreases |children|
  {
    hide Files;
    if i > 0 { InAll(children[1..], prefix, i - 1, f); }
  }

  ghost function IndexOf(children: seq<Child>, prefix: string, f: ScanFile): (i: nat)
    requires f in AllFiles(children, prefix)
    ensures i < |children| && f in Files(children[i], prefix)
    decreases |children|
  {
    if f in Files(children[0], prefix) then 0 else 1 + IndexOf(children[1..], prefix, f)
  }

  lemma {:induction false} ReachableIsListed(children: seq<Child>, prefix: string, path: seq<string>, f: ScanFile)
    requires path != [] && Leads(children, path, prefix, f)
    ensures f in AllFiles(children, prefix)
    decreases |path|
  {
    hide AllFiles;
    var node := Find(children, path[0]).value;
    var i :| 0 <= i < |children| && children[i] == Child(path[0], node);
    if |path| > 1 {
      var rest := path[1..];
      assert prefix + (path[0] + "/" + PathText(rest)) == prefix + path[0] + "/" + PathText(rest);
      ReachableIsListed(node.children, prefix + path[0] + "/", rest, f);
    } else {
      assert f == ScanFile(prefix + path[0], node.content, |node.content|);
    }
    InAll(children, prefix, i, f);
  }

  /** The simple listing holds exactly the files that are reachable. */
  lemma ListingIsReachable(children: seq<Child>, prefix: string, f: ScanFile)
    requires Tidy(children)
    ensures f in AllFiles(children, prefix) <==> Reachable(children, prefix, f)
  {
    hide AllFiles, Tidy, Leads;
    if f in AllFiles(children, prefix) {
      ListedIsReachable(children, prefix, IndexOf(children, prefix, f), f);
    }
    if Reachable(children, prefix, f) {
      var path: seq<string> :| path != [] && Leads(children, path, prefix, f);
      ReachableIsListed(children, prefix, path, f);
    }
  }

  // ---- no path twice ----

  predicate Continues(text: string, head: string) {
    head <= text && (|text| > |head| ==> text[|head|] == '/')
  }

  lemma {:induction false} PathsContinue(c: Child, prefix: string, f: ScanFile)
    requires f in Files(c, prefix)
    ensures Continues(f.relative, prefix + c.name)
    decreases c
  {
    if c.node.Dir? && !Pruned(c.name) {
      var here := prefix + c.name + "/";
      var i := IndexOf(c.node.children, here, f);
      PathsContinue(c.node.children[i], here, f);
      assert here <= f.relative;
      assert f.relative[|prefix + c.name|] == here[|prefix + c.name|];
    }
  }

  lemma SlashInside(text: string, prefix: string, a: string, b: string)
    requires |a| < |b| && Continues(text, prefix + a) && prefix + b <= text
    ensures '/' in b
  {
    assert b[|a|] == (prefix + b)[|prefix + a|] == text[|prefix + a|];
  }

  lemma NamesSeparate(text: string, prefix: string, a: string, b: string)
    requires '/' !in a && '/' !in b && Continues(text, prefix + a) && Continues(text, prefix + b)
    ensures a == b
  {
    if |a| < |b| { SlashInside(text, prefix, a, b); }
    if |b| < |a| { SlashInside(text, prefix, b, a); }
    assert prefix + a == text[..|prefix + a|] && prefix + b == text[..|prefix + b|];
    assert a == (prefix + a)[|prefix|..] && b == (prefix + b)[|prefix|..];
  }

  predicate NoTwins(files: seq<ScanFile>) {
    forall i, j | 0 <= i < j < |files| :: files[i].relative != files[j].relative
  }

  lemma {:induction false} FilesHaveNoTwins(c: Child, prefix: string)
    requires TidyChild(c)
    ensures NoTwins(Files(c, prefix))
    decreases c, 0
  {
    hide NoTwins, AllFiles;
    AtMostOneFile(c, prefix);
    if c.node.Dir? { ListingHasNoTwins(c.node.children, prefix + c.name + "/"); }
  }

  lemma AtMostOneFile(c: Child, prefix: string)
    ensures !c.node.Dir? || Pruned(c.name) ==> NoTwins(Files(c, prefix))
  {
  }

  lemma {:induction false} ListingHasNoTwins(children: seq<Child>, prefix: string)
    requires Tidy(children)
    ensures NoTwins(AllFiles(children, prefix))
    decreases children
  {
    hide Files;
    if children != [] {
      var first, rest := Files(children[0], prefix), AllFiles(children[1..], prefix);
      FilesHaveNoTwins(children[0], prefix);
      ListingHasNoTwins(children[1..], prefix);
      forall i, j | 0 <= i < |first| && 0 <= j < |rest| ensures first[i].relative != rest[j].relative {
        assert first[i] in first && rest[j] in rest;
        var k := IndexOf(children[1..], prefix, rest[j]);
        var other := children[1..][k];
        assert other == children[k + 1];
        PathsContinue(children[0], prefix, first[i]);
        PathsContinue(other, prefix, rest[j]);
        if first[i].relative == rest[j].relative {
          NamesSeparate(first[i].relative, prefix, children[0].name, other.name);
        }
      }
    }
  }

  // ---- path order ----

  lemma {:induction false} BeforeIsTotal(a: string, b: string)
    ensures !(Before(a, b) && Before(b, a)) && (Before(a, b) || Before(b, a) || a == b) && !Before(a, a)
  {
    if a != "" {
      BeforeIsTotal(a[1..], a[1..]);
      if b != "" && a[0] == b[0] {
        BeforeIsTotal(a[1..], b[1..]);
        if a[1..] == b[1..] { assert a == [a[0]] + a[1..] == b; }
      }
    }
  }

  lemma {:induction false} BeforeIsTransitive(a: string, b: string, c: string)
    requires Before(a, b) && Before(b, c)
    ensures Before(a, c)
  {
    if a != "" && a[0] == b[0] == c[0] { BeforeIsTransitive(a[1..], b[1..], c[1..]); }
  }

  /** Strictly ascending paths: sorted, and none twice. */
  predicate Ascending(files: seq<ScanFile>) {
    forall i, j | 0 <= i < j < |files| :: Before(files[i].relative, files[j].relative)
  }

  /** The first string is a proper prefix of the second, or has the smaller character where they part. */
  ghost predicate Precedes(a: string, b: string) {
    exists n: nat {:trigger a[..n]} :: n <= |a| && n < |b| && a[..n] == b[..n] && (n == |a| || a[n] < b[n])
  }

  ghost predicate InOrder(files: seq<ScanFile>) {
    forall i, j | 0 <= i < j < |files| :: Precedes(files[i].relative, files[j].relative)
  }

  lemma {:induction false} BeforePrecedes(a: string, b: string)
    ensures Before(a, b) <==> Precedes(a, b)
  {
    if a == "" || b == "" || a[0] != b[0] {
      assert a[..0] == b[..0];
      if b != "" && a != "" {
        forall n: nat | 0 < n <= |a| && n < |b| ensures a[..n] != b[..n] { assert a[..n][0] != b[..n][0]; }
      }
    } else {
      var x, y := a[1..], b[1..];
      BeforePrecedes(x, y);
      if Precedes(x, y) {
        var n: nat :| n <= |x| && n < |y| && x[..n] == y[..n] && (n == |x| || x[n] < y[n]);
        assert a[..n + 1] == [a[0]] + x[..n] && b[..n + 1] == [b[0]] + y[..n];
      }
      if Precedes(a, b) {
        var n: nat :| n <= |a| && n < |b| && a[..n] == b[..n] && (n == |a| || a[n] < b[n]);
        assert n > 0;
        assert x[..n - 1] == a[..n][1..] && y[..n - 1] == b[..n][1..];
      }
    }
  }

  lemma AscendingIsInOrder(files: seq<ScanFile>)
    ensures Ascending(files) <==> InOrder(files)
  {
    hide Before, Precedes;
    forall i, j | 0 <= i < j < |files|
      ensures Before(files[i].relative, files[j].relative) <==> Precedes(files[i].relative, files[j].relative)
    {
      BeforePrecedes(files[i].relative, files[j].relative);
    }
  }

  lemma {:induction false} InsertAscends(file: ScanFile, sorted: seq<ScanFile>)
    requires Ascending(sorted) && forall g | g in sorted :: g.relative != file.relative
    ensures Ascending(Insert(file, sorted))
    ensures forall g :: g in Insert(file, sorted) <==> g == file || g in sorted
  {
    if sorted != [] {
      var init, last := sorted[..|sorted| - 1], sorted[|sorted| - 1];
      assert sorted == init + [last];
      BeforeIsTotal(file.relative, last.relative);
      if Before(file.relative, last.relative) {
        InsertAscends(file, init);
        var r := Insert(file, init) + [last];
        forall i | 0 <= i < |r| - 1 ensures Before(r[i].relative, last.relative) {
          assert r[i] in Insert(file, init);
        }
      } else {
        forall i | 0 <= i < |sorted| ensures Before(sorted[i].relative, file.relative) {
          if i < |init| { BeforeIsTransitive(sorted[i].relative, last.relative, file.relative); }
        }
      }
    }
  }

  lemma {:induction false} SortAscends(files: seq<ScanFile>)
    requires NoTwins(files)
    ensures Ascending(SortByPath(files))
    ensures forall g :: g in SortByPath(files) <==> g in files
  {
    if files != [] {
      var init, last := files[..|files| - 1], files[|files| - 1];
      assert files == init + [last];
      SortAscends(init);
      InsertAscends(last, SortByPath(init));
    }
  }

  /** There is only one way to list the same files in ascending order. */
  lemma {:induction false} AscendingIsUnique(a: seq<ScanFile>, b: seq<ScanFile>)
    requires Ascending(a) && Ascending(b) && forall f :: f in a <==> f in b
    ensures a == b
    decreases |a|
  {
    if a == [] {
      HasElement(b);
    } else {
      assert a[|a| - 1] in b && b != [];
      assert b[|b| - 1] in a;
      var la, lb := a[|a| - 1], b[|b| - 1];
      LastIsLargest(a, lb);
      LastIsLargest(b, la);
      BeforeIsTotal(la.relative, lb.relative);
      var ia, ib := a[..|a| - 1], b[..|b| - 1];
      assert a == ia + [la] && b == ib + [lb];
      LastIsNotEarlier(a);
      LastIsNotEarlier(b);
      assert la == lb;
      forall f ensures f in ia <==> f in ib {
        assert f in ia <==> f in a && f != la;
        assert f in ib <==> f in b && f != lb;
      }
      AscendingIsUnique(ia, ib);
    }
  }

  lemma HasElement(files: seq<ScanFile>)
    ensures files != [] ==> exists f :: f in files
  {
    assert files != [] ==> files[0] in files;
  }

  lemma LastIsLargest(a: seq<ScanFile>, f: ScanFile)
    requires Ascending(a) && f in a
    ensures f == a[|a| - 1] || Before(f.relative, a[|a| - 1].relative)
  {
  }

  lemma LastIsNotEarlier(a: seq<ScanFile>)
    requires Ascending(a) && a != []
    ensures a[|a| - 1] !in a[..|a| - 1]
  {
    BeforeIsTotal(a[|a| - 1].relative, a[|a| - 1].relative);
  }

  // ---- the main results ----

  /** The scan refines the simple listing: when it reports complete, its files are in ascending path
      order and are exactly the regular files reachable through unpruned, non-link names, each once
      and with its full content. */
  lemma CompleteScanIsTheListing(listing: Listing, children: seq<Child>)
    requires HonestListing(listing, children) && Tidy(children)
    requires ScanBundle(Pinned(listing)).Complete()
    ensures InOrder(ScanBundle(Pinned(listing)).files)
    ensures forall f :: f in ScanBundle(Pinned(listing)).files <==> Reachable(children, "", f)
  {
    hide ScanBundle, SortByPath, AllFiles, Tidy, Reachable, Scannable, HonestListing, Ascending, NoTwins;
    CompleteIffScannable(listing, children);
    ListingHasNoTwins(children, "");
    SortAscends(AllFiles(children, ""));
    AscendingIsInOrder(SortByPath(AllFiles(children, "")));
    forall f ensures f in AllFiles(children, "") <==> Reachable(children, "", f) {
      ListingIsReachable(children, "", f);
    }
  }

  /** Two complete scans of trees that hold the same files return the same files, in whatever order
      the directories list their entries and however the reads are cut. */
  lemma CompleteScansAgree(first: Listing, one: seq<Child>, second: Listing, two: seq<Child>)
    requires HonestListing(first, one) && Tidy(one) && HonestListing(second, two) && Tidy(two)
    requires forall path :: FileAt(one, path) == FileAt(two, path)
    requires ScanBundle(Pinned(first)).Complete() && ScanBundle(Pinned(second)).Complete()
    ensures ScanBundle(Pinned(first)).files == ScanBundle(Pinned(second)).files
  {
    hide ScanBundle, Tidy, HonestListing, Ascending, Reachable;
    CompleteScanIsTheListing(first, one);
    CompleteScanIsTheListing(second, two);
    forall f ensures Reachable(one, "", f) <==> Reachable(two, "", f) {
      SameReach(one, two, f);
      SameReach(two, one, f);
    }
    AscendingIsInOrder(ScanBundle(Pinned(first)).files);
    AscendingIsInOrder(ScanBundle(Pinned(second)).files);
    AscendingIsUnique(ScanBundle(Pinned(first)).files, ScanBundle(Pinned(second)).files);
  }

  lemma SameReach(one: seq<Child>, two: seq<Child>, f: ScanFile)
    requires forall path :: FileAt(one, path) == FileAt(two, path)
    ensures Reachable(one, "", f) ==> Reachable(two, "", f)
  {
    if Reachable(one, "", f) {
      var path: seq<string> :| path != [] && Leads(one, path, "", f);
      assert Leads(two, path, "", f);
    }
  }
}

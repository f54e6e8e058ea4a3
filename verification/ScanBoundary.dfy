/** At the byte budget exactly, the order of a listing decides whether a scan is complete
    (bundles/validate.py:582-640). */
module ScanBoundary {
  import opened TextEncoding
  import opened ScanBudgets
  import opened ScanModel
  import opened ScanRefinement

  // ---- a listing is the sum of its parts ----

  lemma {:induction false} ListingSplits(a: seq<Child>, b: seq<Child>, prefix: string)
    ensures AllFiles(a + b, prefix) == AllFiles(a, prefix) + AllFiles(b, prefix)
    ensures Listed(a + b) == Listed(a) + Listed(b)
  {
    hide Files, Below;
    if a == [] {
      assert a + b == b;
    } else {
      assert (a + b)[0] == a[0] && (a + b)[1..] == a[1..] + b;
      ListingSplits(a[1..], b, prefix);
    }
  }

  lemma RegularSplits(a: seq<Child>, b: seq<Child>, depth: nat)
    requires depth <= MAX_DEPTH
    ensures Regularly(a + b, depth) <==> Regularly(a, depth) && Regularly(b, depth)
  {
    hide RegularChild;
    var both := a + b;
    if Regularly(both, depth) {
      forall i | 0 <= i < |a| ensures RegularChild(a[i], depth) { assert both[i] == a[i]; }
      forall i | 0 <= i < |b| ensures RegularChild(b[i], depth) { assert both[|a| + i] == b[i]; }
    }
  }

  function EmptyFile(name: string): Child { Child(name, File([])) }

  lemma FileListing(name: string, content: seq<Byte>)
    requires !Pruned(name)
    ensures var c := [Child(name, File(content))];
            && AllFiles(c, "") == [ScanFile(name, content, |content|)]
            && Listed(c) == 1 && Regularly(c, 0)
  {
    assert [Child(name, File(content))][1..] == [] && "" + name == name;
  }

  /** There is room for one more entry and one more file. */
  ghost predicate Room(children: seq<Child>) {
    Listed(children) < MAX_ENTRIES && |AllFiles(children, "")| < MAX_FILES
  }

  /** A file listed last can be taken exactly when it fits into what is left and something is left:
      an empty file needs no bytes, but it is refused when there are none. */
  lemma FileAtTheEnd(children: seq<Child>, name: string, content: seq<Byte>)
    requires Scannable(children) && Room(children) && !Pruned(name)
    ensures var used := Sum(AllFiles(children, ""));
            Scannable(children + [Child(name, File(content))]) <==>
              |content| <= MAX_FILE_BYTES && used + |content| <= MAX_TOTAL_BYTES && used < MAX_TOTAL_BYTES
  {
    hide AllFiles, Listed, Regularly, Sum;
    var files, c, f := AllFiles(children, ""), Child(name, File(content)), ScanFile(name, content, |content|);
    ListingSplits(children, [c], "");
    RegularSplits(children, [c], 0);
    FileListing(name, content);
    var all := AllFiles(children + [c], "");
    assert all == files + [f];
    SumAppend(files, f);
    assert all[..|files|] == files;
    assert forall i | 0 <= i < |files| :: all[..i] == files[..i];
    assert all[|files|] == f;
  }

  /** Listed first, an empty file can always be taken. */
  lemma EmptyFileAtTheFront(children: seq<Child>, name: string)
    requires Scannable(children) && Room(children) && !Pruned(name)
    ensures Scannable([EmptyFile(name)] + children)
  {
    hide AllFiles, Listed, Regularly, Sum;
    var files, f := AllFiles(children, ""), ScanFile(name, [], 0);
    ListingSplits([EmptyFile(name)], children, "");
    RegularSplits([EmptyFile(name)], children, 0);
    FileListing(name, []);
    var all := AllFiles([EmptyFile(name)] + children, "");
    assert all == [f] + files;
    EmptyAddsNothing(f, files);
    forall i | 0 <= i < |all| ensures Sum(all[..i]) < MAX_TOTAL_BYTES {
      if i > 0 {
        assert all[..i] == [f] + files[..i - 1];
        EmptyAddsNothing(f, files[..i - 1]);
      } else {
        assert all[..0] == [];
        NothingSums();
      }
    }
  }

  lemma NothingSums()
    ensures Sum([]) == 0
  {
  }

  lemma EmptyAddsNothing(f: ScanFile, files: seq<ScanFile>)
    requires f.payload == []
    ensures Sum([f] + files) == Sum(files)
  {
    SumConcat([f], files);
    SumAppend([], f);
    assert [] + [f] == [f];
  }

  /** The same children in another order: one scan is complete, the other is not. */
  lemma OrderDecides(front: Listing, end: Listing, children: seq<Child>, name: string)
    requires Scannable(children) && Room(children) && !Pruned(name)
    requires Sum(AllFiles(children, "")) == MAX_TOTAL_BYTES
    requires HonestListing(front, [EmptyFile(name)] + children)
    requires HonestListing(end, children + [EmptyFile(name)])
    ensures ScanBundle(Pinned(front)).Complete() && !ScanBundle(Pinned(end)).Complete()
  {
    hide HonestListing, Scannable, ScanBundle, AllFiles, Listed, Sum;
    FileAtTheEnd(children, name, []);
    EmptyFileAtTheFront(children, name);
    CompleteIffScannable(front, [EmptyFile(name)] + children);
    CompleteIffScannable(end, children + [EmptyFile(name)]);
  }

  // ---- eight files of the greatest size fill the budget ----

  function Block(): (content: seq<Byte>)
    ensures |content| == MAX_FILE_BYTES
  {
    seq(MAX_FILE_BYTES, _ => 0)
  }

  function Name(n: nat): (name: string)
    ensures |name| == n + 1 && !Pruned(name)
  {
    seq(n + 1, _ => 'b')
  }

  function Blocks(n: nat): seq<Child> {
    if n == 0 then [] else Blocks(n - 1) + [Child(Name(n), File(Block()))]
  }

  lemma {:induction false} BlocksFill(n: nat)
    requires n <= 8
    ensures Scannable(Blocks(n)) && Room(Blocks(n))
    ensures |AllFiles(Blocks(n), "")| == n == Listed(Blocks(n))
    ensures Sum(AllFiles(Blocks(n), "")) == n * MAX_FILE_BYTES
  {
    hide Scannable, AllFiles, Listed, Block, Name, Sum;
    if n == 0 {
      NothingIsScannable();
    } else {
      BlocksFill(n - 1);
      var c, before := Child(Name(n), File(Block())), Blocks(n - 1);
      assert Blocks(n) == before + [c];
      FileAtTheEnd(before, Name(n), Block());
      FileListing(Name(n), Block());
      ListingSplits(before, [c], "");
      SumAppend(AllFiles(before, ""), ScanFile(Name(n), Block(), MAX_FILE_BYTES));
    }
  }

  lemma NothingIsScannable()
    ensures Scannable([]) && AllFiles([], "") == [] && Listed([]) == 0 && Sum([]) == 0
  {
  }

  /** Trees at the budget exist: 4 MiB in eight files pass, and an empty file after them does not. */
  lemma FullTree()
    ensures Scannable(Blocks(8)) && Room(Blocks(8)) && Sum(AllFiles(Blocks(8), "")) == MAX_TOTAL_BYTES
    ensures Scannable([EmptyFile("e")] + Blocks(8)) && !Scannable(Blocks(8) + [EmptyFile("e")])
  {
    hide Scannable, Room, AllFiles, Sum, Blocks;
    BlocksFill(8);
    EmptyFileAtTheFront(Blocks(8), "e");
    FileAtTheEnd(Blocks(8), "e", []);
  }
}

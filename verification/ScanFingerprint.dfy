/** The content fingerprint of a complete scan (bundles/validate.py:791-805): the outer hash is fed,
    file by file, the path, a NUL and the inner digest of the content. */
module ScanFingerprint {
  import opened JsonModel
  import opened TextEncoding
  import opened ScanModel
  import opened ScanBudgets
  import opened ScanRefinement
  import opened ScanListing

  /** What is fed into the outer hash; `inner` is the digest of one payload. */
  function Stream(files: seq<ScanFile>, inner: seq<Byte> -> seq<Byte>): seq<Byte> {
    if files == [] then []
    else Utf8(files[0].relative) + [0] + inner(files[0].payload) + Stream(files[1..], inner)
  }

  function Fingerprint(s: Scan, inner: seq<Byte> -> seq<Byte>, outer: seq<Byte> -> string): Option<string> {
    if !s.Complete() then None else Some(outer(Stream(s.files, inner)))
  }

  lemma StreamStep(files: seq<ScanFile>, i: nat, inner: seq<Byte> -> seq<Byte>, fed: seq<Byte>)
    requires i < |files|
    ensures fed + Stream(files[i..], inner)
         == fed + Utf8(files[i].relative) + [0] + inner(files[i].payload) + Stream(files[i + 1..], inner)
  {
    hide Utf8;
    assert files[i..][1..] == files[i + 1..];
    var a, b, c := Utf8(files[i].relative), inner(files[i].payload), Stream(files[i + 1..], inner);
    assert fed + (a + [0] + b + c) == fed + a + [0] + b + c;
  }

  /** The loop of the source: three updates of the outer hash for every file. */
  method FingerprintLoop(s: Scan, inner: seq<Byte> -> seq<Byte>, outer: seq<Byte> -> string) returns (r: Option<string>)
    ensures r == Fingerprint(s, inner, outer)
  {
    hide Utf8;
    if !s.Complete() { return None; }
    var fed: seq<Byte> := [];
    assert s.files[0..] == s.files && [] + Stream(s.files, inner) == Stream(s.files, inner);
    for i := 0 to |s.files|
      invariant fed + Stream(s.files[i..], inner) == Stream(s.files, inner)
    {
      var item := s.files[i];
      StreamStep(s.files, i, inner, fed);
      fed := fed + Utf8(item.relative);
      fed := fed + [0];
      fed := fed + inner(item.payload);
    }
    assert fed + [] == fed;
    return Some(outer(fed));
  }

  /** File names hold no NUL. */
  predicate NoNul(files: seq<ScanFile>) { forall i | 0 <= i < |files| :: '\0' !in files[i].relative }

  /** The digest has one length, and does not collide on the payloads at hand. */
  ghost predicate Digests(inner: seq<Byte> -> seq<Byte>, one: seq<ScanFile>, two: seq<ScanFile>, length: nat) {
    && (forall f | f in one :: |inner(f.payload)| == length)
    && (forall f | f in two :: |inner(f.payload)| == length)
    && (forall f, g | f in one && g in two && inner(f.payload) == inner(g.payload) :: f.payload == g.payload)
  }

  lemma UnitHasNoZero(c: char)
    requires c != '\0'
    ensures 0 !in Unit(c)
  {
    var v, u := c as int, Unit(c);
    if v < 0x80 {
      assert u == [v];
    }
  }

  lemma {:induction false} TextHasNoZero(text: string)
    requires '\0' !in text
    ensures 0 !in Utf8(text)
  {
    hide Unit;
    if text != "" {
      assert text[0] in text;
      UnitHasNoZero(text[0]);
      TextHasNoZero(text[1..]);
    }
  }

  /** A NUL ends the path: the first zero byte tells where. */
  lemma FirstZero(a: seq<Byte>, x: seq<Byte>, b: seq<Byte>, y: seq<Byte>)
    requires 0 !in a && 0 !in b && a + [0] + x == b + [0] + y
    ensures a == b && x == y
  {
    var s, t := a + [0] + x, b + [0] + y;
    assert s[|a|] == 0 && t[|b|] == 0;
    assert forall i | 0 <= i < |a| :: s[i] == a[i] && a[i] in a;
    assert forall i | 0 <= i < |b| :: t[i] == b[i] && b[i] in b;
    assert |a| == |b|;
    assert a == s[..|a|] && b == t[..|b|];
    assert x == s[|a| + 1..] && y == t[|b| + 1..];
  }

  /** The first file of two equal streams is the same, and so is what follows. */
  lemma FirstFrame(f: ScanFile, g: ScanFile, x: seq<Byte>, y: seq<Byte>, inner: seq<Byte> -> seq<Byte>)
    requires '\0' !in f.relative && '\0' !in g.relative && |inner(f.payload)| == |inner(g.payload)|
    requires Utf8(f.relative) + [0] + inner(f.payload) + x == Utf8(g.relative) + [0] + inner(g.payload) + y
    ensures f.relative == g.relative && inner(f.payload) == inner(g.payload) && x == y
  {
    hide Utf8;
    var p, q, d, e := Utf8(f.relative), Utf8(g.relative), inner(f.payload), inner(g.payload);
    assert p + [0] + (d + x) == p + [0] + d + x && q + [0] + (e + y) == q + [0] + e + y;
    TextHasNoZero(f.relative);
    TextHasNoZero(g.relative);
    FirstZero(p, d + x, q, e + y);
    DecodeWhole(f.relative);
    DecodeWhole(g.relative);
    assert d == (d + x)[..|d|] && e == (e + y)[..|e|] && x == (d + x)[|d|..] && y == (e + y)[|e|..];
  }

  /** Equal byte streams mean equal paths and contents, file by file. */
  lemma {:induction false} FramingIsUnique(one: seq<ScanFile>, two: seq<ScanFile>, inner: seq<Byte> -> seq<Byte>,
                                           length: nat)
    requires NoNul(one) && NoNul(two) && Digests(inner, one, two, length)
    requires Stream(one, inner) == Stream(two, inner)
    ensures |one| == |two|
    ensures forall i | 0 <= i < |one| :: one[i].relative == two[i].relative && one[i].payload == two[i].payload
    decreases |one|
  {
    hide Utf8;
    if one != [] && two != [] {
      assert one[0] in one && two[0] in two;
      FirstFrame(one[0], two[0], Stream(one[1..], inner), Stream(two[1..], inner), inner);
      FramingIsUnique(one[1..], two[1..], inner, length);
    }
  }

  /** A fingerprint identifies the bundle: if the outer hash does not collide on these two streams,
      two complete scans of static trees have the same fingerprint exactly when they hold the same
      files, in whatever order the directories are listed. */
  lemma FingerprintsAgree(first: Listing, one: seq<Child>, second: Listing, two: seq<Child>,
                          inner: seq<Byte> -> seq<Byte>, outer: seq<Byte> -> string, length: nat)
    requires HonestListing(first, one) && Tidy(one) && HonestListing(second, two) && Tidy(two)
    requires var a, b := ScanBundle(Pinned(first)), ScanBundle(Pinned(second));
             && a.Complete() && b.Complete() && NoNul(a.files) && NoNul(b.files)
             && Digests(inner, a.files, b.files, length)
             && (outer(Stream(a.files, inner)) == outer(Stream(b.files, inner))
                 ==> Stream(a.files, inner) == Stream(b.files, inner))
    ensures Fingerprint(ScanBundle(Pinned(first)), inner, outer)
            == Fingerprint(ScanBundle(Pinned(second)), inner, outer)
       <==> forall f :: Reachable(one, "", f) <==> Reachable(two, "", f)
  {
    hide ScanBundle, Tidy, HonestListing, Ascending, Reachable, Stream, NoNul, Digests;
    var a, b := ScanBundle(Pinned(first)), ScanBundle(Pinned(second));
    CompleteScanIsTheListing(first, one);
    CompleteScanIsTheListing(second, two);
    if Stream(a.files, inner) == Stream(b.files, inner) {
      FramingIsUnique(a.files, b.files, inner, length);
      BudgetsHold(Pinned(first));
      BudgetsHold(Pinned(second));
      forall i | 0 <= i < |a.files| ensures a.files[i] == b.files[i] {
        assert a.files[i] in a.files && b.files[i] in b.files;
      }
      assert a.files == b.files;
    }
    if forall f :: Reachable(one, "", f) <==> Reachable(two, "", f) {
      AscendingIsInOrder(a.files);
      AscendingIsInOrder(b.files);
      AscendingIsUnique(a.files, b.files);
    }
  }
}

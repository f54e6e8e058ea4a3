/** UTF-8, the encoding of every file the host and the bundle tools write or hash. A Dafny `char` is a
    Unicode scalar value. */
module TextEncoding {
  import opened JsonModel

  type Byte = x: int | 0 <= x < 256

  function Unit(c: char): (r: seq<Byte>)
    ensures 1 <= |r| <= 4
  {
    var v := c as int;
    if v < 0x80 then [v]
    else if v < 0x800 then [0xC0 + v / 0x40, 0x80 + v % 0x40]
    else if v < 0x1_0000 then [0xE0 + v / 0x40 / 0x40, 0x80 + v / 0x40 % 0x40, 0x80 + v % 0x40]
    else [0xF0 + v / 0x40 / 0x40 / 0x40, 0x80 + v / 0x40 / 0x40 % 0x40, 0x80 + v / 0x40 % 0x40, 0x80 + v % 0x40]
  }

  function Utf8(text: string): seq<Byte> {
    if text == "" then [] else Unit(text[0]) + Utf8(text[1..])
  }

  function Width(lead: Byte): nat {
    if lead < 0x80 then 1 else if lead < 0xC0 then 0 else if lead < 0xE0 then 2
    else if lead < 0xF0 then 3 else if lead < 0xF8 then 4 else 0
  }

  function Scalar(bytes: seq<int>): int
    requires |bytes| <= 4
  {
    match |bytes|
    case 1 => bytes[0]
    case 2 => (bytes[0] - 0xC0) * 0x40 + bytes[1] - 0x80
    case 3 => (bytes[0] - 0xE0) * 0x1000 + (bytes[1] - 0x80) * 0x40 + bytes[2] - 0x80
    case 4 => (bytes[0] - 0xF0) * 0x4_0000 + (bytes[1] - 0x80) * 0x1000 + (bytes[2] - 0x80) * 0x40 + bytes[3] - 0x80
    case _ => -1
  }

  /** The first character of a strict decoding: only the canonical form of a scalar value is accepted. */
  function Head(bytes: seq<Byte>): Option<char>
    requires bytes != []
  {
    var w := Width(bytes[0]);
    if w == 0 || w > |bytes| then None
    else
      var v := Scalar(bytes[..w]);
      if 0 <= v < 0xD800 || 0xE000 <= v < 0x11_0000 then
        if Unit(v as char) == bytes[..w] then Some(v as char) else None
      else None
  }

  function Decode(bytes: seq<Byte>): Option<string> {
    if bytes == [] then Some("")
    else
      var c := Head(bytes);
      if c.None? || |Unit(c.value)| > |bytes| then None
      else
        var rest := Decode(bytes[|Unit(c.value)|..]);
        if rest.None? then None else Some([c.value] + rest.value)
  }

  lemma WidthOfUnit(c: char)
    ensures Width(Unit(c)[0]) == |Unit(c)| && Scalar(Unit(c)) == c as int
  {
    var v, u := c as int, Unit(c);
    if v < 0x80 {
    } else if v < 0x800 {
      assert |u| == 2;
    } else if v < 0x1_0000 {
      assert |u| == 3;
    } else {
      assert |u| == 4;
    }
  }

  predicate Continues(b: int) { 0x80 <= b < 0xC0 }

  /** The form of RFC 3629, section 3: the lead byte tells the length, the others continue it with six bits
      each, and no shorter form would do. */
  lemma UnitIs(c: char)
    ensures var u: seq<int>, v := Unit(c), c as int;
            && (forall i | 1 <= i < |u| :: Continues(u[i]))
            && (|u| == 1 ==> u[0] == v < 0x80)
            && (|u| == 2 ==> 0xC2 <= u[0] < 0xE0 && v == (u[0] - 0xC0) * 0x40 + (u[1] - 0x80) >= 0x80)
            && (|u| == 3 ==> 0xE0 <= u[0] < 0xF0
                             && v == (u[0] - 0xE0) * 0x1000 + (u[1] - 0x80) * 0x40 + (u[2] - 0x80) >= 0x800)
            && (|u| == 4 ==> 0xF0 <= u[0] < 0xF5
                             && v == (u[0] - 0xF0) * 0x4_0000 + (u[1] - 0x80) * 0x1000 + (u[2] - 0x80) * 0x40
                                     + (u[3] - 0x80) >= 0x1_0000)
  {
    var v := c as int;
    if v >= 0x800 {
      assert v / 0x40 == v / 0x40 / 0x40 * 0x40 + v / 0x40 % 0x40;
      if v >= 0x1_0000 {
        assert v / 0x40 / 0x40 == v / 0x40 / 0x40 / 0x40 * 0x40 + v / 0x40 / 0x40 % 0x40;
      }
    }
  }

  lemma HeadOfUnit(c: char, rest: seq<Byte>)
    ensures Head(Unit(c) + rest) == Some(c)
  {
    hide Unit, Scalar, Width;
    WidthOfUnit(c);
    assert (Unit(c) + rest)[..|Unit(c)|] == Unit(c);
  }

  lemma HeadOfTornUnit(c: char, k: nat)
    requires 0 < k < |Unit(c)|
    ensures Head(Unit(c)[..k]) == None
  {
    hide Unit, Scalar, Width;
    WidthOfUnit(c);
  }

  /** How many whole characters the first `b` bytes hold. */
  function Chars(text: string, b: nat): (n: nat)
    ensures n <= |text|
  {
    if text == "" || |Unit(text[0])| > b then 0 else 1 + Chars(text[1..], b - |Unit(text[0])|)
  }

  lemma {:induction false} Utf8Append(a: string, b: string)
    ensures Utf8(a + b) == Utf8(a) + Utf8(b)
  {
    hide Unit;
    if a == "" {
      assert a + b == b;
    } else {
      assert (a + b)[1..] == a[1..] + b;
      Utf8Append(a[1..], b);
    }
  }

  lemma {:induction false} Utf8Grows(a: string)
    ensures |Utf8(a)| >= |a|
  {
    if a != "" { Utf8Grows(a[1..]); }
  }

  /** A byte prefix of an encoded text decodes exactly when it ends between two characters. */
  lemma {:induction false} DecodePrefix(text: string, b: nat)
    requires b <= |Utf8(text)|
    ensures var n := Chars(text, b);
            Decode(Utf8(text)[..b]) == if |Utf8(text[..n])| == b then Some(text[..n]) else None
  {
    hide Unit, Head;
    var file := Utf8(text);
    if b == 0 {
      DecodeNothing(text);
    } else {
      var u := Unit(text[0]);
      if |u| > b {
        assert file[..b] == u[..b];
        HeadOfTornUnit(text[0], b);
      } else {
        var rest := Utf8(text[1..]);
        assert file[..b] == u + rest[..b - |u|];
        HeadOfUnit(text[0], rest[..b - |u|]);
        assert file[..b][|u|..] == rest[..b - |u|];
        DecodePrefix(text[1..], b - |u|);
        var m := Chars(text[1..], b - |u|);
        assert text[..m + 1][1..] == text[1..][..m];
        assert text[..m + 1] == [text[0]] + text[1..][..m];
      }
    }
  }

  lemma DecodeNothing(text: string)
    ensures Chars(text, 0) == 0 && text[..0] == "" && Decode(Utf8(text)[..0]) == Some("")
  {
  }

  lemma {:induction false} CharsOfAll(text: string)
    ensures Chars(text, |Utf8(text)|) == |text|
  {
    if text != "" { CharsOfAll(text[1..]); }
  }

  lemma DecodeWhole(text: string)
    ensures Decode(Utf8(text)) == Some(text)
  {
    CharsOfAll(text);
    DecodePrefix(text, |Utf8(text)|);
    assert text[..|text|] == text && Utf8(text)[..|Utf8(text)|] == Utf8(text);
  }
}

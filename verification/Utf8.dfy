/** UTF-8: the encoding of section 3 of RFC 3629, the syntax of its section 4, and that the two agree. A Dafny
  * `char` is a Unicode scalar value, as a Rust `char` is. */
module Utf8 {
  import opened Basics

  newtype Byte = x: int | 0 <= x < 256

  // ---------------------------------------------------------------- encoding

  /** `len_utf8`. */
  function Len(c: char): (n: nat)
    ensures 1 <= n <= 4
  {
    var x := c as int;
    if x < 0x80 then 1 else if x < 0x800 then 2 else if x < 0x10000 then 3 else 4
  }

  /** `encode_utf8`. */
  function Encode(c: char): (b: seq<Byte>)
    ensures |b| == Len(c)
  {
    var x := c as int;
    if x < 0x80 then [x as Byte]
    else if x < 0x800 then [(0xC0 + x / 64) as Byte, (0x80 + x % 64) as Byte]
    else if x < 0x10000 then
      [(0xE0 + x / 4096) as Byte, (0x80 + x / 64 % 64) as Byte, (0x80 + x % 64) as Byte]
    else
      [(0xF0 + x / 262144) as Byte, (0x80 + x / 4096 % 64) as Byte, (0x80 + x / 64 % 64) as Byte,
       (0x80 + x % 64) as Byte]
  }

  function EncodeAll(s: seq<char>): seq<Byte> {
    if s == [] then [] else Encode(s[0]) + EncodeAll(s[1..])
  }

  // ---------------------------------------------------------------- syntax

  predicate Tail(b: Byte) {
    0x80 <= b <= 0xBF
  }

  /** The length of the well-formed sequence that `b` starts with, 0 if there is none. */
  function HeadLen(b: seq<Byte>): (n: nat)
    ensures n <= 4 && n <= |b|
  {
    if |b| >= 1 && b[0] <= 0x7F then 1
    else if |b| >= 2 && 0xC2 <= b[0] <= 0xDF && Tail(b[1]) then 2
    else if |b| >= 3 && Tail(b[2])
      && ((b[0] == 0xE0 && 0xA0 <= b[1] <= 0xBF) || (0xE1 <= b[0] <= 0xEC && Tail(b[1]))
        || (b[0] == 0xED && 0x80 <= b[1] <= 0x9F) || (0xEE <= b[0] <= 0xEF && Tail(b[1]))) then 3
    else if |b| >= 4 && Tail(b[2]) && Tail(b[3])
      && ((b[0] == 0xF0 && 0x90 <= b[1] <= 0xBF) || (0xF1 <= b[0] <= 0xF3 && Tail(b[1]))
        || (b[0] == 0xF4 && 0x80 <= b[1] <= 0x8F)) then 4
    else 0
  }

  predicate WellFormed(b: seq<Byte>)
    decreases |b|
  {
    b == [] || (HeadLen(b) > 0 && WellFormed(b[HeadLen(b)..]))
  }

  /** The first character, what `chars().next()` gives. */
  function Head(b: seq<Byte>): char
    requires HeadLen(b) > 0
  {
    var n := HeadLen(b);
    var x :=
      if n == 1 then b[0] as int
      else if n == 2 then (b[0] as int - 0xC0) * 64 + (b[1] as int - 0x80)
      else if n == 3 then (b[0] as int - 0xE0) * 4096 + (b[1] as int - 0x80) * 64 + (b[2] as int - 0x80)
      else
        (b[0] as int - 0xF0) * 262144 + (b[1] as int - 0x80) * 4096 + (b[2] as int - 0x80) * 64 + (b[3] as int - 0x80);
    x as char
  }

  function Decode(b: seq<Byte>): seq<char>
    requires WellFormed(b)
    decreases |b|
  {
    if b == [] then [] else [Head(b)] + Decode(b[HeadLen(b)..])
  }

  lemma {:induction false} HeadOfEncoded(c: char, rest: seq<Byte>)
    ensures HeadLen(Encode(c) + rest) == Len(c)
    ensures Head(Encode(c) + rest) == c
  {
    var x := c as int;
    var b := Encode(c) + rest;
    assert forall i :: 0 <= i < Len(c) ==> b[i] == Encode(c)[i];
    if x < 0x80 {
    } else if x < 0x800 {
    } else if x < 0x10000 {
      assert x / 4096 == x / 64 / 64;
    } else {
      assert x / 4096 == x / 64 / 64;
      assert x / 262144 == x / 4096 / 64;
    }
  }

  lemma Digits(a: nat, r: nat)
    requires r < 64
    ensures (a * 64 + r) / 64 == a && (a * 64 + r) % 64 == r
  {
  }

  lemma {:induction false} EncodedHeadShort(b: seq<Byte>)
    requires 0 < HeadLen(b) <= 2
    ensures Encode(Head(b)) == b[..HeadLen(b)]
  {
    if HeadLen(b) == 2 {
      Digits(b[0] as nat - 0xC0, b[1] as nat - 0x80);
    }
  }

  lemma {:induction false} EncodedHeadThree(b: seq<Byte>)
    requires HeadLen(b) == 3
    ensures Encode(Head(b)) == b[..3]
  {
    var p, q, r := b[0] as nat - 0xE0, b[1] as nat - 0x80, b[2] as nat - 0x80;
    Digits(p * 64 + q, r);
    Digits(p, q);
    var x := p * 4096 + q * 64 + r;
    assert Head(b) as int == x;
    assert x / 4096 == p;
    assert 0x800 <= x < 0x10000;
    assert Encode(Head(b)) == [(0xE0 + p) as Byte, (0x80 + q) as Byte, (0x80 + r) as Byte];
  }

  lemma {:induction false} EncodedHeadFour(b: seq<Byte>)
    requires HeadLen(b) == 4
    ensures Encode(Head(b)) == b[..4]
  {
    var o, p, q, r := b[0] as nat - 0xF0, b[1] as nat - 0x80, b[2] as nat - 0x80, b[3] as nat - 0x80;
    Digits(o * 4096 + p * 64 + q, r);
    Digits(o * 64 + p, q);
    Digits(o, p);
    var x := o * 262144 + p * 4096 + q * 64 + r;
    assert Head(b) as int == x;
    assert x / 262144 == o && x / 4096 == o * 64 + p;
    assert 0x10000 <= x;
    assert Encode(Head(b)) == [(0xF0 + o) as Byte, (0x80 + p) as Byte, (0x80 + q) as Byte, (0x80 + r) as Byte];
  }

  lemma {:induction false} EncodedHead(b: seq<Byte>)
    requires HeadLen(b) > 0
    ensures Encode(Head(b)) == b[..HeadLen(b)]
  {
    if HeadLen(b) == 4 {
      EncodedHeadFour(b);
    } else if HeadLen(b) == 3 {
      EncodedHeadThree(b);
    } else {
      EncodedHeadShort(b);
    }
  }

  /** What is encoded is well-formed and decodes to what it was. */
  lemma {:induction false} EncodedIsWellFormed(s: seq<char>)
    ensures WellFormed(EncodeAll(s)) && Decode(EncodeAll(s)) == s
  {
    if s != [] {
      HeadOfEncoded(s[0], EncodeAll(s[1..]));
      EncodedIsWellFormed(s[1..]);
      assert EncodeAll(s)[Len(s[0])..] == EncodeAll(s[1..]);
    }
  }

  lemma EncodeCons(c: char, rest: seq<char>)
    ensures EncodeAll([c] + rest) == Encode(c) + EncodeAll(rest)
  {
    assert ([c] + rest)[1..] == rest;
  }

  lemma HeadAndRest(b: seq<Byte>)
    requires HeadLen(b) > 0
    ensures Encode(Head(b)) + b[HeadLen(b)..] == b
  {
    EncodedHead(b);
    assert b[..HeadLen(b)] + b[HeadLen(b)..] == b;
  }

  /** What is well-formed is the encoding of what it decodes to. */
  lemma {:induction false} WellFormedIsEncoded(b: seq<Byte>)
    requires WellFormed(b)
    ensures EncodeAll(Decode(b)) == b
    decreases |b|
  {
    if b != [] {
      WellFormedIsEncoded(b[HeadLen(b)..]);
      HeadAndRest(b);
      EncodeCons(Head(b), Decode(b[HeadLen(b)..]));
    }
  }

  // ---------------------------------------------------------------- prefixes

  lemma Assoc(a: seq<Byte>, b: seq<Byte>, c: seq<Byte>)
    ensures (a + b) + c == a + (b + c)
  {
  }

  lemma {:induction false} EncodeSum(s: seq<char>, t: seq<char>)
    ensures EncodeAll(s + t) == EncodeAll(s) + EncodeAll(t)
  {
    if s == [] {
      assert s + t == t;
    } else {
      EncodeSum(s[1..], t);
      assert s + t == [s[0]] + (s[1..] + t);
      EncodeCons(s[0], s[1..] + t);
      Assoc(Encode(s[0]), EncodeAll(s[1..]), EncodeAll(t));
    }
  }

  // ---------------------------------------------------------------- the order

  /** The first byte in which they differ is less in `a`. */
  ghost predicate Precedes(a: seq<Byte>, b: seq<Byte>) {
    exists i :: FirstLess(a, b, i)
  }

  predicate FirstLess(a: seq<Byte>, b: seq<Byte>, i: int) {
    0 <= i < |a| && i < |b| && a[i] < b[i] && forall j :: 0 <= j < i ==> a[j] == b[j]
  }

  lemma OneWay(a: seq<Byte>, b: seq<Byte>)
    requires Precedes(a, b)
    ensures !Precedes(b, a)
  {
    var i :| FirstLess(a, b, i);
    forall j ensures !FirstLess(b, a, j) {
      assert j < i ==> j < 0 || a[j] == b[j];
    }
  }

  /** The first difference of two numbers, by their last digit of base 64 and the rest. */
  lemma DigitsOrder(x: nat, y: nat)
    requires x < y
    ensures x / 64 < y / 64 || (x / 64 == y / 64 && x % 64 < y % 64)
  {
  }

  lemma {:induction false} SameLength(c: char, d: char)
    requires c < d && Len(c) == Len(d)
    ensures Precedes(Encode(c), Encode(d))
  {
    var x, y := c as int, d as int;
    var n := Len(c);
    DigitsOrder(x, y);
    if n > 1 && x / 64 == y / 64 {
      LastDigits(c, d);
    } else if n == 1 {
      assert FirstLess(Encode(c), Encode(d), 0);
    } else {
      HigherDigits(c, d);
    }
  }

  lemma {:induction false} LastDigits(c: char, d: char)
    requires Len(c) == Len(d) > 1 && c as int / 64 == d as int / 64 && c as int % 64 < d as int % 64
    ensures Precedes(Encode(c), Encode(d))
  {
    var x, y, n := c as int, d as int, Len(c);
    assert x / 4096 == x / 64 / 64 && y / 4096 == y / 64 / 64;
    assert x / 262144 == x / 4096 / 64 && y / 262144 == y / 4096 / 64;
    assert forall j :: 0 <= j < n - 1 ==> Encode(c)[j] == Encode(d)[j];
    assert Encode(c)[n - 1] < Encode(d)[n - 1];
    assert FirstLess(Encode(c), Encode(d), n - 1);
  }

  lemma {:induction false} HigherDigits(c: char, d: char)
    requires Len(c) == Len(d) > 1 && c as int / 64 < d as int / 64
    ensures Precedes(Encode(c), Encode(d))
  {
    var x, y, n := c as int, d as int, Len(c);
    DigitsOrder(x / 64, y / 64);
    assert x / 4096 == x / 64 / 64 && y / 4096 == y / 64 / 64;
    assert x / 262144 == x / 4096 / 64 && y / 262144 == y / 4096 / 64;
    if n == 2 {
      assert FirstLess(Encode(c), Encode(d), 0);
    } else if x / 4096 == y / 4096 {
      assert FirstLess(Encode(c), Encode(d), n - 2);
    } else {
      DigitsOrder(x / 4096, y / 4096);
      assert FirstLess(Encode(c), Encode(d), if n == 3 || x / 262144 < y / 262144 then 0 else 1);
    }
  }

  lemma {:induction false} OtherLength(c: char, d: char)
    requires c < d && Len(c) != Len(d)
    ensures Precedes(Encode(c), Encode(d))
  {
    assert FirstLess(Encode(c), Encode(d), 0);
  }

  /** The order of encodings, byte by byte, is the order of the characters. With the syntax this leaves no choice
    * of what encodes which character. */
  lemma {:induction false} OrderIsKept(c: char, d: char)
    ensures c < d <==> Precedes(Encode(c), Encode(d))
  {
    if c < d {
      if Len(c) == Len(d) { SameLength(c, d); } else { OtherLength(c, d); }
    } else if d < c {
      if Len(c) == Len(d) { SameLength(d, c); } else { OtherLength(d, c); }
      OneWay(Encode(d), Encode(c));
    } else if Precedes(Encode(c), Encode(d)) {
      OneWay(Encode(c), Encode(d));
    }
  }

  lemma EncodeOne(c: char)
    ensures EncodeAll([c]) == Encode(c)
  {
  }

  lemma EncodeSplit(s: seq<char>, k: nat)
    requires k <= |s|
    ensures EncodeAll(s) == EncodeAll(s[..k]) + EncodeAll(s[k..])
  {
    var a, b := s[..k], s[k..];
    assert s == a + b;
    EncodeSum(a, b);
  }

  /** How many characters the first `i` bytes encode, if they encode any number exactly. */
  function CutAt(s: seq<char>, i: nat): (r: Option<nat>)
    ensures r.Some? ==> r.value <= |s|
  {
    if i == 0 then Some(0)
    else if s == [] || i < Len(s[0]) then None
    else match CutAt(s[1..], i - Len(s[0]))
      case None => None
      case Some(k) => Some(k + 1)
  }

  /** `is_char_boundary`. */
  predicate Boundary(b: seq<Byte>, i: nat) {
    i == 0 || i == |b| || (i < |b| && !Tail(b[i]))
  }

  lemma {:induction false} CutIsPrefix(s: seq<char>, i: nat, k: nat)
    requires k <= |s|
    ensures CutAt(s, i) == Some(k) <==> |EncodeAll(s[..k])| == i
  {
    if k == 0 {
      assert s[..0] == [];
    } else {
      assert s[..k][1..] == s[1..][..k - 1];
      if i >= Len(s[0]) {
        CutIsPrefix(s[1..], i - Len(s[0]), k - 1);
      }
    }
  }

  lemma {:induction false} EncodedTails(c: char)
    ensures !Tail(Encode(c)[0])
    ensures forall i :: 0 < i < Len(c) ==> Tail(Encode(c)[i])
  {
  }

  /** Self-synchronisation: the boundary check, which looks at one byte, finds exactly the ends of whole
    * prefixes of characters. */
  lemma {:induction false} BoundaryExactly(s: seq<char>, i: nat)
    ensures Boundary(EncodeAll(s), i) <==> CutAt(s, i).Some?
  {
    if s != [] && i > 0 {
      var b, c, rest := EncodeAll(s), s[0], EncodeAll(s[1..]);
      EncodedTails(c);
      if i < Len(c) {
        assert b[i] == Encode(c)[i];
      } else {
        BoundaryExactly(s[1..], i - Len(c));
        if Len(c) <= i < |b| {
          assert b[i] == rest[i - Len(c)];
        }
        if i == Len(c) && s[1..] != [] {
          EncodedTails(s[1]);
        }
      }
    }
  }
}

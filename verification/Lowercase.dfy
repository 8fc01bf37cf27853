/** `str::to_lowercase` (library/alloc/src/str.rs): a chunked pass over the leading ASCII bytes, then character by
  * character, with the one mapping that depends on its context, that of the capital sigma. */
module Lowercase {
  import opened Basics
  import opened Utf8
  import opened StringBuf
  import Uninit

  const CHUNK: nat := 16
  const SIGMA: char := '\U{03A3}'
  const SMALL_SIGMA: char := '\U{03C3}'
  const FINAL_SIGMA: char := '\U{03C2}'

  /** The Unicode tables of `core`: `conversions::to_lower`, which pads with NUL, and the properties Cased and
    * Case_Ignorable. */
  datatype Tables = Tables(
    lower: char -> (char, char, char),
    cased: char -> bool,
    ignorable: char -> bool)

  function AsciiLower(b: Byte): Byte {
    if 0x41 <= b <= 0x5A then b + 0x20 else b
  }

  /** On ASCII the table agrees with `to_ascii_lowercase`. */
  ghost predicate AsciiAgrees(t: Tables) {
    forall c: char :: c as int < 0x80 ==>
      t.lower(c) == (if 'A' <= c <= 'Z' then (c as int + 32) as char else c, '\0', '\0')
  }

  // ---------------------------------------------------------------- the mapping

  /** What the match on the table's triple pushes. */
  function Pushed(l: (char, char, char)): seq<char> {
    if l.1 == '\0' then [l.0] else if l.2 == '\0' then [l.0, l.1] else [l.0, l.1, l.2]
  }

  /** The nearest character that is not case-ignorable exists, and is cased. */
  predicate ThenCased(t: Tables, s: seq<char>) {
    s != [] && (if t.ignorable(s[0]) then ThenCased(t, s[1..]) else t.cased(s[0]))
  }

  function Reversed(s: seq<char>): (r: seq<char>)
    ensures |r| == |s|
    ensures forall i :: 0 <= i < |s| ==> r[i] == s[|s| - 1 - i]
  {
    if s == [] then [] else Reversed(s[1..]) + [s[0]]
  }

  /** Final_Sigma, section 3.13 of the Unicode Standard, as the code decides it: looking back past
    * case-ignorable characters there is a cased one, and looking ahead there is none. */
  ghost predicate FinalSigma(t: Tables, s: seq<char>, k: nat)
    requires k < |s|
  {
    && (exists j :: CasedBefore(t, s, j, k))
    && !(exists j :: CasedAfter(t, s, j, k))
  }

  predicate CasedBefore(t: Tables, s: seq<char>, j: int, k: nat)
    requires k < |s|
  {
    0 <= j < k && !t.ignorable(s[j]) && t.cased(s[j]) && forall m :: j < m < k ==> t.ignorable(s[m])
  }

  predicate CasedAfter(t: Tables, s: seq<char>, j: int, k: nat)
    requires k < |s|
  {
    k < j < |s| && !t.ignorable(s[j]) && t.cased(s[j]) && forall m :: k < m < j ==> t.ignorable(s[m])
  }

  /** What one character becomes. */
  ghost function LowerOne(t: Tables, s: seq<char>, k: nat): seq<char>
    requires k < |s|
  {
    if s[k] == SIGMA then [if FinalSigma(t, s, k) then FINAL_SIGMA else SMALL_SIGMA] else Pushed(t.lower(s[k]))
  }

  /** What the first `k` characters become, each on its own but for the sigma. */
  ghost function LowerTo(t: Tables, s: seq<char>, k: nat): seq<char>
    requires k <= |s|
  {
    if k == 0 then [] else LowerTo(t, s, k - 1) + LowerOne(t, s, k - 1)
  }

  // ---------------------------------------------------------------- what it means

  function Flat(pieces: seq<seq<char>>): seq<char> {
    if pieces == [] then [] else Flat(pieces[..|pieces| - 1]) + pieces[|pieces| - 1]
  }

  /** What the table says, without its padding. */
  predicate Unpadded(r: seq<char>, l: (char, char, char)) {
    && r <= [l.0, l.1, l.2] && 1 <= |r|
    && (|r| == 1 <==> l.1 == '\0') && (|r| == 2 <==> l.1 != '\0' && l.2 == '\0')
  }

  /** Each character becomes what the table says of it alone, but a capital sigma a small one, which is a final one
    * exactly at the end of a word. */
  ghost predicate Lowered(t: Tables, s: seq<char>, pieces: seq<seq<char>>) {
    && |pieces| == |s|
    && forall k :: 0 <= k < |s| ==>
         if s[k] == '\U{03A3}' then pieces[k] == [if FinalSigma(t, s, k) then '\U{03C2}' else '\U{03C3}']
         else Unpadded(pieces[k], t.lower(s[k]))
  }

  lemma {:induction false} LowerIsLowered(t: Tables, s: seq<char>) returns (pieces: seq<seq<char>>)
    ensures Lowered(t, s, pieces) && LowerTo(t, s, |s|) == Flat(pieces)
  {
    pieces := seq(|s|, k requires 0 <= k < |s| => LowerOne(t, s, k));
    FlatTo(t, s, pieces, |s|);
    assert pieces[..|s|] == pieces;
  }

  lemma {:induction false} FlatTo(t: Tables, s: seq<char>, pieces: seq<seq<char>>, k: nat)
    requires k <= |s| == |pieces| && forall i :: 0 <= i < |s| ==> pieces[i] == LowerOne(t, s, i)
    ensures LowerTo(t, s, k) == Flat(pieces[..k])
  {
    if k > 0 {
      FlatTo(t, s, pieces, k - 1);
      assert pieces[..k][..k - 1] == pieces[..k - 1];
    }
  }

  /** With a table that maps the capital sigma to the small one, the mapping differs from the table's, character by
    * character, exactly at the capital sigmas that end a word. */
  lemma OnlyFinalSigmaDiffers(t: Tables, s: seq<char>, pieces: seq<seq<char>>, k: nat)
    requires Lowered(t, s, pieces) && t.lower('\U{03A3}') == ('\U{03C3}', '\0', '\0') && k < |s|
    ensures if s[k] == '\U{03A3}' && FinalSigma(t, s, k) then pieces[k] == ['\U{03C2}']
      else Unpadded(pieces[k], t.lower(s[k]))
  {
  }

  lemma {:induction false} ThenCasedMeans(t: Tables, s: seq<char>)
    ensures ThenCased(t, s) <==>
      exists j :: 0 <= j < |s| && !t.ignorable(s[j]) && t.cased(s[j]) && forall m :: 0 <= m < j ==> t.ignorable(s[m])
  {
    if s != [] {
      ThenCasedMeans(t, s[1..]);
      var r := s[1..];
      if t.ignorable(s[0]) {
        if ThenCased(t, r) {
          var j :| 0 <= j < |r| && !t.ignorable(r[j]) && t.cased(r[j]) && forall m :: 0 <= m < j ==> t.ignorable(r[m]);
          forall m | 0 <= m < j + 1 ensures t.ignorable(s[m]) {
            if m > 0 { assert s[m] == r[m - 1]; }
          }
          assert !t.ignorable(s[j + 1]) && t.cased(s[j + 1]);
        }
        if j :| 0 <= j < |s| && !t.ignorable(s[j]) && t.cased(s[j]) && forall m :: 0 <= m < j ==> t.ignorable(s[m]) {
          assert r[j - 1] == s[j];
          forall m | 0 <= m < j - 1 ensures t.ignorable(r[m]) {
            assert r[m] == s[m + 1];
          }
        }
      }
    }
  }

  /** The two searches of `map_uppercase_sigma` decide Final_Sigma. */
  lemma {:induction false} SearchesDecide(t: Tables, s: seq<char>, k: nat)
    requires k < |s|
    ensures ThenCased(t, Reversed(s[..k])) && !ThenCased(t, s[k + 1..]) <==> FinalSigma(t, s, k)
  {
    BackDecides(t, s, k);
    AheadDecides(t, s, k);
  }

  lemma {:induction false} BackDecides(t: Tables, s: seq<char>, k: nat)
    requires k < |s|
    ensures ThenCased(t, Reversed(s[..k])) <==> exists j :: CasedBefore(t, s, j, k)
  {
    var r := Reversed(s[..k]);
    ThenCasedMeans(t, r);
    if ThenCased(t, r) {
      var j :| 0 <= j < |r| && !t.ignorable(r[j]) && t.cased(r[j]) && forall m :: 0 <= m < j ==> t.ignorable(r[m]);
      forall m | k - 1 - j < m < k ensures t.ignorable(s[m]) {
        assert s[m] == r[k - 1 - m];
      }
      assert CasedBefore(t, s, k - 1 - j, k);
    }
    if j :| CasedBefore(t, s, j, k) {
      assert r[k - 1 - j] == s[j];
      forall m | 0 <= m < k - 1 - j ensures t.ignorable(r[m]) {
        assert r[m] == s[k - 1 - m];
      }
    }
  }

  lemma {:induction false} AheadDecides(t: Tables, s: seq<char>, k: nat)
    requires k < |s|
    ensures ThenCased(t, s[k + 1..]) <==> exists j :: CasedAfter(t, s, j, k)
  {
    var r := s[k + 1..];
    ThenCasedMeans(t, r);
    if ThenCased(t, r) {
      var j :| 0 <= j < |r| && !t.ignorable(r[j]) && t.cased(r[j]) && forall m :: 0 <= m < j ==> t.ignorable(r[m]);
      forall m | k < m < k + 1 + j ensures t.ignorable(s[m]) {
        assert s[m] == r[m - k - 1];
      }
      assert CasedAfter(t, s, k + 1 + j, k);
    }
    if j :| CasedAfter(t, s, j, k) {
      assert r[j - k - 1] == s[j];
      forall m | 0 <= m < j - k - 1 ensures t.ignorable(r[m]) {
        assert r[m] == s[m + k + 1];
      }
    }
  }

  // ---------------------------------------------------------------- the ASCII prefix

  /** How many bytes from the start are ASCII. */
  function AsciiLen(b: seq<Byte>): (n: nat)
    ensures n <= |b|
  {
    if b == [] || b[0] > 127 then 0 else 1 + AsciiLen(b[1..])
  }

  lemma {:induction false} AsciiLenAt(b: seq<Byte>, n: nat)
    requires n <= |b| && forall i :: 0 <= i < n ==> b[i] <= 127
    ensures n <= AsciiLen(b)
    ensures n == |b| || b[n] > 127 ==> AsciiLen(b) == n
  {
    if n > 0 {
      AsciiLenAt(b[1..], n - 1);
    }
  }

  /** Whether all of a chunk is ASCII, by adding up a flag for each byte. */
  method ChunkIsAscii(b: seq<Byte>, at: nat) returns (r: bool)
    requires at + CHUNK <= |b|
    ensures r <==> forall j :: at <= j < at + CHUNK ==> b[j] <= 127
  {
    var isAscii := new bool[CHUNK](_ => false);
    for j := 0 to CHUNK
      invariant forall i :: 0 <= i < j ==> isAscii[i] == (b[at + i] <= 127)
    {
      isAscii[j] := b[at + j] <= 127;
    }
    var sum: nat := 0;
    for j := 0 to CHUNK
      invariant sum <= j && (sum == j <==> forall i :: 0 <= i < j ==> isAscii[i])
    {
      sum := sum + if isAscii[j] then 1 else 0;
    }
    assert forall i :: at <= i < at + CHUNK ==> isAscii[i - at] == (b[i] <= 127);
    r := sum == CHUNK;
  }

  function Converted(b: seq<Byte>, convert: Byte -> Byte): (r: seq<Byte>)
    ensures |r| == |b|
  {
    seq(|b|, i requires 0 <= i < |b| => convert(b[i]))
  }

  /** `convert_while_ascii`: 16 bytes at a time, then byte by byte. All the leading ASCII bytes are converted,
    * and nothing else. */
  method ConvertWhileAscii(b: seq<Byte>, convert: Byte -> Byte) returns (out: seq<Byte>)
    ensures out == Converted(b[..AsciiLen(b)], convert)
  {
    var buf: array<Uninit.Cell<Byte>> := new Uninit.Cell<Byte>[|b|](i => Uninit.Unset);
    var n: nat := 0;
    var ascii := true;
    while n + CHUNK <= |b| && ascii
      invariant n <= |b| && forall i :: 0 <= i < n ==> b[i] <= 127
      invariant forall i :: 0 <= i < n ==> buf[i] == Uninit.Set(convert(b[i]))
      decreases |b| - n, ascii
    {
      ascii := ChunkIsAscii(b, n);
      if ascii {
        for j := 0 to CHUNK
          invariant forall i :: 0 <= i < n + j ==> buf[i] == Uninit.Set(convert(b[i]))
        {
          buf[n + j] := Uninit.Set(convert(b[n + j]));
        }
        n := n + CHUNK;
      }
    }
    while n < |b| && b[n] <= 127
      invariant n <= |b| && forall i :: 0 <= i < n ==> b[i] <= 127
      invariant forall i :: 0 <= i < n ==> buf[i] == Uninit.Set(convert(b[i]))
    {
      buf[n] := Uninit.Set(convert(b[n]));
      n := n + 1;
    }
    AsciiLenAt(b, n);
    out := seq(n, i requires 0 <= i < n && buf[i].Set? reads buf => buf[i].value);
  }

  lemma FirstIsAscii(c: char)
    requires Encode(c)[0] <= 127
    ensures c as int < 0x80 && Encode(c) == [c as int as Byte]
    ensures c != SIGMA
  {
  }

  lemma {:induction false} AsciiStep(t: Tables, s: seq<char>, n: nat)
    requires AsciiAgrees(t) && CutAt(s, n) == Some(n) && n < |EncodeAll(s)| && EncodeAll(s)[n] <= 127
    ensures n < |s| && CutAt(s, n + 1) == Some(n + 1)
    ensures |LowerOne(t, s, n)| == 1 && Encode(LowerOne(t, s, n)[0]) == [AsciiLower(EncodeAll(s)[n])]
  {
    InsideCut(s, n, n);
    assert EncodeAll(s)[n..][0] == EncodeAll(s)[n] == Encode(s[n])[0];
    FirstIsAscii(s[n]);
  }

  lemma AsciiNext(t: Tables, s: seq<char>, n: nat)
    requires AsciiAgrees(t) && CutAt(s, n) == Some(n) && n < |EncodeAll(s)| && EncodeAll(s)[n] <= 127
    ensures n < |s| && CutAt(s, n + 1) == Some(n + 1)
    ensures EncodeAll(LowerTo(t, s, n + 1)) == EncodeAll(LowerTo(t, s, n)) + [AsciiLower(EncodeAll(s)[n])]
  {
    AsciiStep(t, s, n);
    LowerNext(t, s, n);
    EncodeOne(LowerOne(t, s, n)[0]);
    assert LowerOne(t, s, n) == [LowerOne(t, s, n)[0]];
  }

  lemma AsciiGrows(t: Tables, s: seq<char>, n: nat)
    requires AsciiAgrees(t) && CutAt(s, n) == Some(n) && n <= |s| && n < |EncodeAll(s)| && EncodeAll(s)[n] <= 127
    requires Converted(EncodeAll(s)[..n], AsciiLower) == EncodeAll(LowerTo(t, s, n))
    ensures n < |s| && CutAt(s, n + 1) == Some(n + 1)
    ensures Converted(EncodeAll(s)[..n + 1], AsciiLower) == EncodeAll(LowerTo(t, s, n + 1))
  {
    AsciiNext(t, s, n);
    ConvertedNext(EncodeAll(s), n);
  }

  /** The ASCII bytes are as many characters, and mapping the bytes maps the characters. */
  lemma {:induction false} AsciiPrefix(t: Tables, s: seq<char>, n: nat)
    requires AsciiAgrees(t)
    requires n <= |EncodeAll(s)| && forall i :: 0 <= i < n ==> EncodeAll(s)[i] <= 127
    ensures n <= |s| && CutAt(s, n) == Some(n)
    ensures Converted(EncodeAll(s)[..n], AsciiLower) == EncodeAll(LowerTo(t, s, n))
    decreases n
  {
    if n > 0 {
      AsciiPrefix(t, s, n - 1);
      AsciiGrows(t, s, n - 1);
    }
  }

  lemma LowerNext(t: Tables, s: seq<char>, k: nat)
    requires k < |s|
    ensures EncodeAll(LowerTo(t, s, k + 1)) == EncodeAll(LowerTo(t, s, k)) + EncodeAll(LowerOne(t, s, k))
  {
    EncodeSum(LowerTo(t, s, k), LowerOne(t, s, k));
  }

  lemma ConvertedNext(b: seq<Byte>, n: nat)
    requires n < |b|
    ensures Converted(b[..n + 1], AsciiLower) == Converted(b[..n], AsciiLower) + [AsciiLower(b[n])]
  {
  }

  lemma {:induction false} AsciiLenIsAscii(b: seq<Byte>, i: nat)
    requires i < AsciiLen(b)
    ensures b[i] <= 127
  {
    if i > 0 {
      AsciiLenIsAscii(b[1..], i - 1);
    }
  }

  // ---------------------------------------------------------------- the whole

  /** `chars()` of a well-formed string, one after another. */
  method Chars(b: seq<Byte>, ghost s: seq<char>) returns (r: seq<char>)
    requires b == EncodeAll(s)
    ensures r == s
  {
    EncodedIsWellFormed(s);
    r := Decode(b);
  }

  /** `map_uppercase_sigma`, for the capital sigma at byte index `i`, which is two bytes long. */
  method MapUppercaseSigma(t: Tables, b: seq<Byte>, i: nat, ghost s: seq<char>, ghost k: nat) returns (c: char)
    requires b == EncodeAll(s) && CutAt(s, i) == Some(k) && k < |s| && s[k] == SIGMA
    ensures [c] == LowerOne(t, s, k)
  {
    CharAt(s, i, k);
    CutBytes(s, i, k);
    CutBytes(s, i + 2, k + 1);
    SearchesDecide(t, s, k);
    var before := Chars(b[..i], s[..k]);
    var after := Chars(b[i + 2..], s[k + 1..]);
    var isWordFinal := ThenCased(t, Reversed(before)) && !ThenCased(t, after);
    c := if isWordFinal then FINAL_SIGMA else SMALL_SIGMA;
  }

  /** The body of the loop: the sigma by its context, any other character by the table. */
  method LowerCharTo(out: StringBuf, t: Tables, b: seq<Byte>, i: nat, c: char, ghost s: seq<char>, ghost k: nat)
    requires out.Valid() && b == EncodeAll(s) && CutAt(s, i) == Some(k) && k < |s| && c == s[k]
    requires out.chars == LowerTo(t, s, k)
    modifies out, out.buf
    ensures out.Valid() && (out.buf == old(out.buf) || fresh(out.buf))
    ensures out.chars == LowerTo(t, s, k + 1)
  {
    if c == SIGMA {
      var sigma := MapUppercaseSigma(t, b, i, s, k);
      out.Push(sigma);
    } else {
      var l := t.lower(c);
      out.Push(l.0);
      if l.1 != '\0' {
        out.Push(l.1);
        if l.2 != '\0' {
          out.Push(l.2);
        }
      }
    }
  }

  method CharFrom(b: seq<Byte>, i: nat, ghost s: seq<char>, ghost k: nat) returns (c: char)
    requires b == EncodeAll(s) && CutAt(s, i) == Some(k) && i < |b|
    ensures k < |s| && c == s[k] && CutAt(s, i + Len(c)) == Some(k + 1) && i + Len(c) <= |b|
  {
    InsideCut(s, i, k);
    c := Head(b[i..]);
  }

  /** One round of the loop; gives the byte index after the character. */
  method LowerNextChar(out: StringBuf, t: Tables, b: seq<Byte>, i: nat, ghost s: seq<char>, ghost k: nat)
    returns (next: nat)
    requires out.Valid() && b == EncodeAll(s) && CutAt(s, i) == Some(k) && i < |b|
    requires out.chars == LowerTo(t, s, k)
    modifies out, out.buf
    ensures i < next <= |b| && k < |s| && CutAt(s, next) == Some(k + 1)
    ensures out.Valid() && (out.buf == old(out.buf) || fresh(out.buf)) && out.chars == LowerTo(t, s, k + 1)
  {
    var c := CharFrom(b, i, s, k);
    LowerCharTo(out, t, b, i, c, s, k);
    next := i + Len(c);
  }

  /** The loop over the rest of the string, `start` bytes and `k` characters in. */
  method LowerRest(out: StringBuf, t: Tables, b: seq<Byte>, start: nat, ghost s: seq<char>, ghost k: nat)
    requires out.Valid() && b == EncodeAll(s) && CutAt(s, start) == Some(k) && start <= |b|
    requires out.chars == LowerTo(t, s, k)
    modifies out, out.buf
    ensures out.Valid() && (out.buf == old(out.buf) || fresh(out.buf)) && out.chars == LowerTo(t, s, |s|)
  {
    ghost var m := k;
    var i := start;
    while i < |b|
      invariant CutAt(s, i) == Some(m) && i <= |b|
      invariant out.Valid() && (out.buf == old(out.buf) || fresh(out.buf)) && out.chars == LowerTo(t, s, m)
      decreases |b| - i
    {
      i := LowerNextChar(out, t, b, i, s, m);
      m := m + 1;
    }
    EndCut(s, m);
  }

  lemma {:induction false} PrefixLowered(t: Tables, s: seq<char>)
    requires AsciiAgrees(t)
    ensures var n := AsciiLen(EncodeAll(s));
      && n <= |s| && CutAt(s, n) == Some(n)
      && Converted(EncodeAll(s)[..n], AsciiLower) == EncodeAll(LowerTo(t, s, n))
  {
    var b := EncodeAll(s);
    forall i | 0 <= i < AsciiLen(b) ensures b[i] <= 127 {
      AsciiLenIsAscii(b, i);
    }
    AsciiPrefix(t, s, AsciiLen(b));
  }

  /** `to_lowercase`: the mapping of the whole string, each character in the context it has there. */
  method ToLowercase(t: Tables, b: seq<Byte>, ghost s: seq<char>) returns (out: StringBuf)
    requires AsciiAgrees(t) && b == EncodeAll(s)
    ensures fresh(out) && fresh(out.buf) && out.Valid() && out.chars == LowerTo(t, s, |s|)
    ensures exists pieces :: Lowered(t, s, pieces) && out.chars == Flat(pieces)
  {
    out := new StringBuf();
    var prefix := ConvertWhileAscii(b, AsciiLower);
    PrefixLowered(t, s);
    ghost var k: nat := |prefix|;
    out.PushStr(prefix, LowerTo(t, s, k));
    assert [] + LowerTo(t, s, k) == LowerTo(t, s, k);
    LowerRest(out, t, b, |prefix|, s, k);
    ghost var pieces := LowerIsLowered(t, s);
  }
}

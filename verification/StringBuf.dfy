/** `String` (library/alloc/src/string.rs): each operation shifts bytes in place, and is proved to do to the
  * characters what its name says, or to leave them alone and panic. */
module StringBuf {
  import opened Basics
  import opened Utf8

  // ---------------------------------------------------------------- bytes and characters

  lemma {:induction false} CutBytes(s: seq<char>, i: nat, k: nat)
    requires CutAt(s, i) == Some(k)
    ensures k <= |s| && i <= |EncodeAll(s)|
    ensures EncodeAll(s)[..i] == EncodeAll(s[..k]) && EncodeAll(s)[i..] == EncodeAll(s[k..])
  {
    CutIsPrefix(s, i, k);
    EncodeSplit(s, k);
  }

  /** Replacing the bytes between two boundaries replaces the characters between them. */
  lemma {:induction false} SpliceEncodes(s: seq<char>, i: nat, k: nat, j: nat, m: nat, t: seq<char>)
    requires CutAt(s, i) == Some(k) && CutAt(s, j) == Some(m)
    ensures k <= |s| && m <= |s| && i <= |EncodeAll(s)| && j <= |EncodeAll(s)|
    ensures EncodeAll(s)[..i] + EncodeAll(t) + EncodeAll(s)[j..] == EncodeAll(s[..k] + t + s[m..])
  {
    CutBytes(s, i, k);
    CutBytes(s, j, m);
    EncodeSum(s[..k] + t, s[m..]);
    EncodeSum(s[..k], t);
  }

  lemma {:induction false} CutEncodes(s: seq<char>, i: nat, k: nat, j: nat, m: nat)
    requires CutAt(s, i) == Some(k) && CutAt(s, j) == Some(m)
    ensures k <= |s| && m <= |s| && i <= |EncodeAll(s)| && j <= |EncodeAll(s)|
    ensures EncodeAll(s)[..i] + EncodeAll(s)[j..] == EncodeAll(s[..k] + s[m..])
  {
    CutBytes(s, i, k);
    CutBytes(s, j, m);
    EncodeSum(s[..k], s[m..]);
  }

  lemma {:induction false} CutsOrdered(s: seq<char>, i: nat, k: nat, j: nat, m: nat)
    requires CutAt(s, i) == Some(k) && CutAt(s, j) == Some(m)
    ensures i <= j <==> k <= m
  {
    CutIsPrefix(s, i, k);
    CutIsPrefix(s, j, m);
    if k <= m {
      EncodeSplit(s[..m], k);
      assert s[..m][..k] == s[..k];
    } else {
      EncodeSplit(s[..k], m);
      assert s[..k][..m] == s[..m];
      assert s[..k][m..] != [];
      NotEmpty(s[..k][m..]);
    }
  }

  lemma NotEmpty(s: seq<char>)
    requires s != []
    ensures EncodeAll(s) != []
  {
  }

  lemma {:induction false} CutEnd(s: seq<char>)
    ensures CutAt(s, |EncodeAll(s)|) == Some(|s|)
  {
    assert s[..|s|] == s;
    CutIsPrefix(s, |EncodeAll(s)|, |s|);
  }

  lemma {:induction false} NextCut(s: seq<char>, i: nat, k: nat)
    requires CutAt(s, i) == Some(k) && k < |s|
    ensures CutAt(s, i + Len(s[k])) == Some(k + 1)
  {
    CutIsPrefix(s, i, k);
    assert s[..k + 1] == s[..k] + [s[k]];
    EncodeSum(s[..k], [s[k]]);
    EncodeOne(s[k]);
    CutIsPrefix(s, i + Len(s[k]), k + 1);
  }

  lemma EndCut(s: seq<char>, k: nat)
    requires CutAt(s, |EncodeAll(s)|) == Some(k)
    ensures k == |s|
  {
    CutEnd(s);
  }

  /** The character at a boundary, as decoding the bytes from there finds it. */
  lemma {:induction false} CharAt(s: seq<char>, i: nat, k: nat)
    requires CutAt(s, i) == Some(k) && k < |s|
    ensures i < |EncodeAll(s)| && HeadLen(EncodeAll(s)[i..]) == Len(s[k]) && Head(EncodeAll(s)[i..]) == s[k]
    ensures CutAt(s, i + Len(s[k])) == Some(k + 1)
  {
    NextCut(s, i, k);
    CutBytes(s, i, k);
    var rest := s[k + 1..];
    assert s[k..] == [s[k]] + rest;
    EncodeCons(s[k], rest);
    HeadOfEncoded(s[k], EncodeAll(rest));
  }

  // ---------------------------------------------------------------- the buffer

  /** The bounds of a range, as `RangeBounds` gives them. */
  datatype Bound = Included(at: nat) | Excluded(at: nat) | Unbounded

  function StartOf(b: Bound): nat {
    match b
    case Included(n) => n
    case Excluded(n) => n + 1
    case Unbounded => 0
  }

  function EndOf(b: Bound, len: nat): nat {
    match b
    case Included(n) => n + 1
    case Excluded(n) => n
    case Unbounded => len
  }

  /** Which positions a range with these bounds contains. */
  predicate Contains(lower: Bound, upper: Bound, x: nat) {
    && (match lower case Included(n) => n <= x case Excluded(n) => n < x case Unbounded => true)
    && (match upper case Included(n) => x <= n case Excluded(n) => x < n case Unbounded => true)
  }

  lemma RangeContains(lower: Bound, upper: Bound, len: nat, x: nat)
    requires x < len
    ensures StartOf(lower) <= x < EndOf(upper, len) <==> Contains(lower, upper, x)
  {
  }

  /** Where a character begins. */
  function Offset(s: seq<char>, i: nat): nat
    requires i <= |s|
  {
    |EncodeAll(s[..i])|
  }

  lemma {:induction false} OffsetCut(s: seq<char>, i: nat)
    requires i <= |s|
    ensures CutAt(s, Offset(s, i)) == Some(i)
    ensures i < |s| ==> Offset(s, i) < |EncodeAll(s)|
  {
    CutIsPrefix(s, Offset(s, i), i);
    EncodeSplit(s, i);
    if i < |s| { NotEmpty(s[i..]); }
  }

  /** Characters are in the order in which they begin. */
  lemma {:induction false} OffsetOrder(s: seq<char>, i: nat, j: nat, k: nat)
    requires i < |s| && CutAt(s, j) == Some(k)
    ensures Offset(s, i) < j <==> i < k
  {
    OffsetCut(s, i);
    CutsOrdered(s, j, k, Offset(s, i), i);
  }

  /** The characters between two cuts are those that begin in the range. */
  lemma {:induction false} RangeIsCut(s: seq<char>, lower: Bound, upper: Bound, i: nat)
    requires i < |s|
    requires CutAt(s, StartOf(lower)).Some? && CutAt(s, EndOf(upper, |EncodeAll(s)|)).Some?
    ensures CutAt(s, StartOf(lower)).value <= i < CutAt(s, EndOf(upper, |EncodeAll(s)|)).value <==>
      Contains(lower, upper, Offset(s, i))
  {
    OffsetCut(s, i);
    OffsetOrder(s, i, StartOf(lower), CutAt(s, StartOf(lower)).value);
    OffsetOrder(s, i, EndOf(upper, |EncodeAll(s)|), CutAt(s, EndOf(upper, |EncodeAll(s)|)).value);
    RangeContains(lower, upper, |EncodeAll(s)|, Offset(s, i));
  }

  /** The characters of `r` are those of `s` at the indices in `kept`, which `p` lists in order. */
  predicate Picked(s: seq<char>, r: seq<char>, p: seq<nat>, kept: set<nat>) {
    && |p| == |r|
    && (forall i, j :: 0 <= i < j < |p| ==> p[i] < p[j])
    && (forall i :: 0 <= i < |p| ==> p[i] < |s| && p[i] in kept && r[i] == s[p[i]])
    && (forall k :: k in kept ==> k in p)
  }

  lemma PickedOne(s: seq<char>, r: seq<char>, p: seq<nat>, kept: set<nat>, k: nat)
    requires Picked(s, r, p, kept) && k < |s| && forall i :: i in kept ==> i < k
    ensures Picked(s, r + [s[k]], p + [k], kept + {k})
  {
    var p2 := p + [k];
    forall i | i in kept + {k} ensures i in p2 {
      if i == k { assert p2[|p|] == k; } else { assert i in p; }
    }
  }

  lemma PickedBoth(s: seq<char>, r1: seq<char>, p1: seq<nat>, kept1: set<nat>,
                   r2: seq<char>, p2: seq<nat>, kept2: set<nat>)
    requires Picked(s, r1, p1, kept1) && Picked(s, r2, p2, kept2)
    requires forall i, j :: i in kept1 && j in kept2 ==> i < j
    ensures Picked(s, r1 + r2, p1 + p2, kept1 + kept2)
  {
    forall k | k in kept1 + kept2 ensures k in p1 + p2 {
      if k in kept1 { assert k in p1; } else { assert k in p2; }
    }
  }

  /** What a caller's function passed to `retain` does: answers, or panics. */
  datatype Verdict = Keep | Delete | Panic

  /** The first question from `k` on at which `f` panics, or the number of characters. */
  function Stop(s: seq<char>, f: (nat, char) -> Verdict, k: nat): (r: nat)
    requires k <= |s|
    ensures k <= r <= |s|
    ensures r < |s| ==> f(r, s[r]).Panic?
    decreases |s| - k
  {
    if k == |s| || f(k, s[k]).Panic? then k else Stop(s, f, k + 1)
  }

  /** Those of the first `k` characters that `f` keeps. */
  function KeptTo(s: seq<char>, f: (nat, char) -> Verdict, k: nat): seq<char>
    requires k <= |s|
  {
    if k == 0 then [] else KeptTo(s, f, k - 1) + (if f(k - 1, s[k - 1]).Keep? then [s[k - 1]] else [])
  }

  /** `del_bytes`: the bytes of those of the first `k` characters that `f` does not keep. */
  function Deleted(s: seq<char>, f: (nat, char) -> Verdict, k: nat): nat
    requires k <= |s|
  {
    if k == 0 then 0 else Deleted(s, f, k - 1) + (if f(k - 1, s[k - 1]).Keep? then 0 else Len(s[k - 1]))
  }

  lemma {:induction false} KeptAndDeleted(s: seq<char>, f: (nat, char) -> Verdict, k: nat)
    requires k <= |s|
    ensures |EncodeAll(KeptTo(s, f, k))| + Deleted(s, f, k) == |EncodeAll(s[..k])|
  {
    if k > 0 {
      KeptAndDeleted(s, f, k - 1);
      KeptNext(s, f, k - 1);
      assert s[..k] == s[..k - 1] + [s[k - 1]];
      EncodeSum(s[..k - 1], [s[k - 1]]);
      EncodeOne(s[k - 1]);
    }
  }

  /** What the SAFETY comment of `retain` says: a kept character that has to move is no longer than what was
    * deleted before it. */
  predicate EnoughDeleted(s: seq<char>, f: (nat, char) -> Verdict, k: nat)
    requires k < |s|
  {
    f(k, s[k]).Keep? && Deleted(s, f, k) > 0 ==> Deleted(s, f, k) >= Len(s[k])
  }

  predicate NoLonger(s: seq<char>) {
    forall i, j :: 0 <= i < j < |s| ==> Len(s[i]) >= Len(s[j])
  }

  lemma {:induction false} SomeDeleted(s: seq<char>, f: (nat, char) -> Verdict, k: nat) returns (i: nat)
    requires k <= |s| && Deleted(s, f, k) > 0
    ensures i < k && !f(i, s[i]).Keep? && Deleted(s, f, k) >= Len(s[i])
  {
    if !f(k - 1, s[k - 1]).Keep? {
      i := k - 1;
    } else {
      i := SomeDeleted(s, f, k - 1);
    }
  }

  function DeleteOnly(i: nat): (nat, char) -> Verdict {
    (n: nat, c: char) => if n == i then Delete else Keep
  }

  lemma {:induction false} OneDeleted(s: seq<char>, i: nat, k: nat)
    requires k <= |s| && i < |s|
    ensures Deleted(s, DeleteOnly(i), k) == if i < k then Len(s[i]) else 0
  {
    if k > 0 {
      OneDeleted(s, i, k - 1);
    }
  }

  /** The comment holds of a string, whatever is deleted from it, exactly if no character is longer than one
    * before it. */
  lemma {:induction false} EnoughDeletedExactly(s: seq<char>)
    ensures (forall f, k :: 0 <= k < |s| ==> EnoughDeleted(s, f, k)) <==> NoLonger(s)
  {
    if NoLonger(s) {
      forall f: (nat, char) -> Verdict, k | 0 <= k < |s| ensures EnoughDeleted(s, f, k) {
        if Deleted(s, f, k) > 0 {
          var i := SomeDeleted(s, f, k);
        }
      }
    }
    if forall f, k :: 0 <= k < |s| ==> EnoughDeleted(s, f, k) {
      forall i, j | 0 <= i < j < |s| ensures Len(s[i]) >= Len(s[j]) {
        assert EnoughDeleted(s, DeleteOnly(i), j);
        OneDeleted(s, i, j);
      }
    }
  }

  function KeepWide(n: nat, c: char): Verdict {
    if Len(c) == 1 then Delete else Keep
  }

  /** After `a` is deleted, `€` is kept and moved by fewer bytes than it has: its new place overlaps its old. */
  lemma {:induction false} DeletedMayBeShorter()
    ensures var s := ['a', '\U{20AC}'];
      && Stop(s, KeepWide, 0) == 2 && KeptTo(s, KeepWide, 2) == ['\U{20AC}']
      && KeepWide(1, s[1]).Keep? && 0 < Deleted(s, KeepWide, 1) < Len(s[1])
  {
    var s := ['a', '\U{20AC}'];
    assert Stop(s, KeepWide, 1) == 2;
    assert KeptTo(s, KeepWide, 1) == [];
    assert Deleted(s, KeepWide, 0) == 0;
  }

  lemma {:induction false} NextStop(s: seq<char>, f: (nat, char) -> Verdict, i: nat, k: nat)
    requires i <= k < |s| && k <= Stop(s, f, i)
    ensures f(k, s[k]).Panic? <==> Stop(s, f, i) == k
    decreases k - i
  {
    if i < k {
      NextStop(s, f, i + 1, k);
    }
  }

  /** Those of the first `n` questions that are answered with yes. */
  function Kept(s: seq<char>, f: (nat, char) -> Verdict, n: nat): set<nat> {
    set i: nat | i < n && i < |s| && f(i, s[i]).Keep?
  }

  lemma {:induction false} KeptPicks(s: seq<char>, f: (nat, char) -> Verdict, k: nat) returns (p: seq<nat>)
    requires k <= |s|
    ensures Picked(s, KeptTo(s, f, k), p, Kept(s, f, k))
  {
    if k == 0 {
      p := [];
    } else {
      p := KeptPicks(s, f, k - 1);
      if f(k - 1, s[k - 1]).Keep? {
        PickedOne(s, KeptTo(s, f, k - 1), p, Kept(s, f, k - 1), k - 1);
        p := p + [k - 1];
        assert Kept(s, f, k) == Kept(s, f, k - 1) + {k - 1};
      } else {
        assert Kept(s, f, k) == Kept(s, f, k - 1);
      }
    }
  }

  lemma {:induction false} BeforeStop(s: seq<char>, f: (nat, char) -> Verdict, i: nat)
    requires i < Stop(s, f, 0)
    ensures i < |s| && !f(i, s[i]).Panic?
  {
    NextStop(s, f, 0, i);
  }

  lemma {:induction false} KeptNext(s: seq<char>, f: (nat, char) -> Verdict, k: nat)
    requires k < |s|
    ensures EncodeAll(KeptTo(s, f, k + 1))
      == EncodeAll(KeptTo(s, f, k)) + (if f(k, s[k]).Keep? then Encode(s[k]) else [])
  {
    EncodeSum(KeptTo(s, f, k), if f(k, s[k]).Keep? then [s[k]] else []);
    EncodeOne(s[k]);
  }

  /** Before the end, at a boundary, there is a character. */
  lemma {:induction false} InsideCut(s: seq<char>, i: nat, k: nat)
    requires CutAt(s, i) == Some(k) && i < |EncodeAll(s)|
    ensures k < |s| && HeadLen(EncodeAll(s)[i..]) == Len(s[k]) && Head(EncodeAll(s)[i..]) == s[k]
    ensures EncodeAll(s)[i..][..Len(s[k])] == Encode(s[k])
    ensures CutAt(s, i + Len(s[k])) == Some(k + 1) && i + Len(s[k]) <= |EncodeAll(s)|
  {
    CutIsPrefix(s, i, k);
    assert s[..|s|] == s;
    CharAt(s, i, k);
    EncodedHead(EncodeAll(s)[i..]);
    CutBytes(s, i + Len(s[k]), k + 1);
  }

  // ---------------------------------------------------------------- matches

  datatype Span = Span(start: nat, end: nat)

  /** Successive matches, as a searcher reports them: in order, not overlapping, within the string. */
  predicate Successive(ms: seq<Span>, front: nat, end: nat) {
    if ms == [] then front <= end
    else front <= ms[0].start <= ms[0].end <= end && Successive(ms[1..], ms[0].end, end)
  }

  /** Match ends lie on character boundaries. */
  predicate OnBoundaries(s: seq<char>, ms: seq<Span>) {
    forall m :: m in ms ==> CutAt(s, m.start).Some? && CutAt(s, m.end).Some?
  }

  /** What lies before, between and after the matches. */
  function Gaps(ms: seq<Span>, front: nat, end: nat): seq<Span> {
    if ms == [] then [Span(front, end)] else [Span(front, ms[0].start)] + Gaps(ms[1..], ms[0].end, end)
  }

  predicate Ascending(gs: seq<Span>, front: nat, end: nat) {
    if gs == [] then front <= end
    else front <= gs[0].start <= gs[0].end <= end && Ascending(gs[1..], gs[0].end, end)
  }

  function Joined(b: seq<Byte>, gs: seq<Span>, front: nat): seq<Byte>
    requires Ascending(gs, front, |b|)
  {
    if gs == [] then [] else b[gs[0].start..gs[0].end] + Joined(b, gs[1..], gs[0].end)
  }

  /** The characters outside all matches. */
  function Unmatched(s: seq<char>, ms: seq<Span>, k: nat): seq<char>
    requires k <= |s| && OnBoundaries(s, ms)
  {
    if ms == [] then s[k..]
    else
      var from, to := CutAt(s, ms[0].start).value, CutAt(s, ms[0].end).value;
      (if k <= from then s[k..from] else []) + Unmatched(s, ms[1..], to)
  }

  /** The byte lies in no match. */
  predicate Outside(ms: seq<Span>, x: nat) {
    forall m :: m in ms ==> !(m.start <= x < m.end)
  }

  lemma {:induction false} OutsideBefore(ms: seq<Span>, front: nat, end: nat, x: nat)
    requires Successive(ms, front, end) && x < front
    ensures Outside(ms, x)
  {
    if ms != [] {
      OutsideBefore(ms[1..], ms[0].end, end, x);
      forall m | m in ms ensures !(m.start <= x < m.end) {
        if m != ms[0] { assert m in ms[1..]; }
      }
    }
  }

  lemma OutsideRest(ms: seq<Span>, x: nat)
    requires ms != []
    ensures Outside(ms, x) <==> !(ms[0].start <= x < ms[0].end) && Outside(ms[1..], x)
  {
    if Outside(ms[1..], x) && !(ms[0].start <= x < ms[0].end) {
      forall m | m in ms ensures !(m.start <= x < m.end) {
        if m != ms[0] { assert m in ms[1..]; }
      }
    }
    assert ms[0] in ms;
    assert forall m :: m in ms[1..] ==> m in ms;
  }

  function Indices(from: nat, to: nat): (r: seq<nat>)
    requires from <= to
    ensures |r| == to - from && forall i :: 0 <= i < |r| ==> r[i] == from + i
  {
    seq(to - from, i requires 0 <= i < to - from => from + i)
  }

  /** The characters, from the `k`th on, that begin outside every match. */
  function OutsideFrom(s: seq<char>, ms: seq<Span>, k: nat): set<nat> {
    set i: nat | k <= i < |s| && Outside(ms, Offset(s, i))
  }

  lemma {:induction false} UnmatchedPicks(s: seq<char>, ms: seq<Span>, front: nat, k: nat) returns (p: seq<nat>)
    requires CutAt(s, front) == Some(k) && OnBoundaries(s, ms) && Successive(ms, front, |EncodeAll(s)|)
    ensures Picked(s, Unmatched(s, ms, k), p, OutsideFrom(s, ms, k))
    decreases |ms|
  {
    if ms == [] {
      p := RunPicks(s, k, |s|);
      assert OutsideFrom(s, ms, k) == Between(k, |s|);
    } else {
      var m := ms[0];
      var from, to := CutAt(s, m.start).value, CutAt(s, m.end).value;
      assert ms[0] in ms && forall n :: n in ms[1..] ==> n in ms;
      CutsOrdered(s, front, k, m.start, from);
      CutsOrdered(s, m.start, from, m.end, to);
      var head := RunPicks(s, k, from);
      var rest := UnmatchedPicks(s, ms[1..], m.end, to);
      UnmatchedSplit(s, ms, k, from, to);
      PickedBoth(s, s[k..from], head, Between(k, from), Unmatched(s, ms[1..], to), rest,
        OutsideFrom(s, ms[1..], to));
      p := head + rest;
    }
  }

  function Between(from: nat, to: nat): (r: set<nat>)
    ensures forall i: nat :: i in r <==> from <= i < to
  {
    if from < to then Between(from, to - 1) + {to - 1} else {}
  }

  lemma RunPicks(s: seq<char>, from: nat, to: nat) returns (p: seq<nat>)
    requires from <= to <= |s|
    ensures Picked(s, s[from..to], p, Between(from, to))
  {
    p := Indices(from, to);
    forall i | i in Between(from, to) ensures i in p { assert p[i - from] == i; }
  }

  lemma {:induction false} UnmatchedSplit(s: seq<char>, ms: seq<Span>, k: nat, from: nat, to: nat)
    requires ms != [] && k <= from <= to <= |s| && Successive(ms[1..], ms[0].end, |EncodeAll(s)|)
    requires CutAt(s, ms[0].start) == Some(from) && CutAt(s, ms[0].end) == Some(to)
    ensures OutsideFrom(s, ms, k) == Between(k, from) + OutsideFrom(s, ms[1..], to)
  {
    forall i: nat | i < |s|
      ensures i in OutsideFrom(s, ms, k) <==> k <= i < from || i in OutsideFrom(s, ms[1..], to)
    {
      var x := Offset(s, i);
      OffsetOrder(s, i, ms[0].start, from);
      OffsetOrder(s, i, ms[0].end, to);
      OutsideRest(ms, x);
      if x < ms[0].end { OutsideBefore(ms[1..], ms[0].end, |EncodeAll(s)|, x); }
    }
  }

  lemma {:induction false} GapsAscend(ms: seq<Span>, front: nat, end: nat)
    requires Successive(ms, front, end)
    ensures Ascending(Gaps(ms, front, end), front, end)
  {
    if ms != [] {
      GapsAscend(ms[1..], ms[0].end, end);
      assert Gaps(ms, front, end)[1..] == Gaps(ms[1..], ms[0].end, end);
      Later(Gaps(ms[1..], ms[0].end, end), ms[0].start, ms[0].end, end);
    }
  }

  lemma Later(gs: seq<Span>, front: nat, later: nat, end: nat)
    requires Ascending(gs, later, end) && front <= later
    ensures Ascending(gs, front, end)
  {
  }

  lemma {:induction false} GapBytes(s: seq<char>, i: nat, k: nat, j: nat, m: nat)
    requires CutAt(s, i) == Some(k) && CutAt(s, j) == Some(m) && i <= j
    ensures k <= m <= |s| && j <= |EncodeAll(s)| && EncodeAll(s)[i..j] == EncodeAll(s[k..m])
  {
    CutsOrdered(s, i, k, j, m);
    CutBytes(s, i, k);
    CutBytes(s, j, m);
    EncodeSplit(s[..m], k);
    assert s[..m][..k] == s[..k] && s[..m][k..] == s[k..m];
    assert EncodeAll(s)[i..j] == EncodeAll(s)[..j][i..];
  }

  /** The bytes of the gaps encode the characters outside the matches. */
  lemma {:induction false} GapsEncode(s: seq<char>, ms: seq<Span>, front: nat, k: nat)
    requires CutAt(s, front) == Some(k) && OnBoundaries(s, ms) && Successive(ms, front, |EncodeAll(s)|)
    requires Ascending(Gaps(ms, front, |EncodeAll(s)|), front, |EncodeAll(s)|)
    ensures Joined(EncodeAll(s), Gaps(ms, front, |EncodeAll(s)|), front) == EncodeAll(Unmatched(s, ms, k))
    decreases |ms|
  {
    var b := EncodeAll(s);
    if ms == [] {
      CutBytes(s, front, k);
      assert Joined(b, [Span(front, |b|)], front) == b[front..|b|] + [];
    } else {
      var from, to := CutAt(s, ms[0].start).value, CutAt(s, ms[0].end).value;
      GapBytes(s, front, k, ms[0].start, from);
      var gs := Gaps(ms[1..], ms[0].end, |b|);
      GapsAscend(ms[1..], ms[0].end, |b|);
      GapsEncode(s, ms[1..], ms[0].end, to);
      EncodeSum(s[k..from], Unmatched(s, ms[1..], to));
      assert Gaps(ms, front, |b|)[1..] == gs;
      SameJoined(b, gs, ms[0].start, ms[0].end);
    }
  }

  lemma SameJoined(b: seq<Byte>, gs: seq<Span>, front: nat, later: nat)
    requires Ascending(gs, later, |b|) && front <= later
    ensures Ascending(gs, front, |b|) && Joined(b, gs, front) == Joined(b, gs, later)
  {
  }

  function Inserted(s: seq<char>, k: nat, t: seq<char>): seq<char>
    requires k <= |s|
  {
    s[..k] + t + s[k..]
  }

  class StringBuf {
    var buf: array<Byte>
    var len: nat
    ghost var chars: seq<char>

    ghost predicate Valid()
      reads this, buf
    {
      len <= buf.Length && buf[..len] == EncodeAll(chars)
    }

    constructor ()
      ensures Valid() && chars == [] && fresh(buf)
    {
      buf := new Byte[0];
      len, chars := 0, [];
    }

    /** What every operation leaves behind: well-formed UTF-8. */
    lemma AlwaysWellFormed()
      requires Valid()
      ensures WellFormed(buf[..len]) && Decode(buf[..len]) == chars
    {
      EncodedIsWellFormed(chars);
    }

    method Reserve(extra: nat)
      requires len <= buf.Length
      modifies this`buf
      ensures buf == old(buf) || fresh(buf)
      ensures buf.Length >= len + extra && buf[..len] == old(buf[..len])
    {
      if buf.Length < len + extra {
        var bigger := new Byte[len + extra];
        forall i | 0 <= i < len {
          bigger[i] := buf[i];
        }
        assert bigger[..len] == buf[..len];
        buf := bigger;
      }
    }

    /** `ptr::copy` within the buffer; the two places may overlap. */
    method Move(from: nat, to: nat, count: nat)
      requires from + count <= buf.Length && to + count <= buf.Length
      modifies buf
      ensures buf[to..to + count] == old(buf[from..from + count])
      ensures buf[..to] == old(buf[..to]) && buf[to + count..] == old(buf[to + count..])
    {
      forall i | 0 <= i < count {
        buf[to + i] := buf[from + i];
      }
    }

    method Write(to: nat, bytes: seq<Byte>)
      requires to + |bytes| <= buf.Length
      modifies buf
      ensures buf[to..to + |bytes|] == bytes
      ensures buf[..to] == old(buf[..to]) && buf[to + |bytes|..] == old(buf[to + |bytes|..])
    {
      forall i | 0 <= i < |bytes| {
        buf[to + i] := bytes[i];
      }
    }

    method IsBoundary(i: nat) returns (r: bool)
      requires Valid()
      ensures r <==> CutAt(chars, i).Some?
    {
      r := i == 0 || i == len || (i < len && !Tail(buf[i]));
      BoundaryExactly(chars, i);
    }

    // ---------------------------------------------------------------- at the end

    method Push(c: char)
      requires Valid()
      modifies this, buf
      ensures Valid() && (buf == old(buf) || fresh(buf))
      ensures chars == old(chars) + [c]
    {
      Reserve(Len(c));
      Write(len, Encode(c));
      EncodeSum(chars, [c]);
      EncodeOne(c);
      assert buf[..len + Len(c)] == buf[..len] + buf[len..len + Len(c)];
      len := len + Len(c);
      chars := chars + [c];
    }

    method PushStr(bytes: seq<Byte>, ghost t: seq<char>)
      requires Valid() && bytes == EncodeAll(t)
      modifies this, buf
      ensures Valid() && (buf == old(buf) || fresh(buf))
      ensures chars == old(chars) + t
    {
      Reserve(|bytes|);
      Write(len, bytes);
      EncodeSum(chars, t);
      assert buf[..len + |bytes|] == buf[..len] + buf[len..len + |bytes|];
      len := len + |bytes|;
      chars := chars + t;
    }

    /** `chars().rev().next()` looks for the last byte that is not a continuation byte. */
    method Pop() returns (r: Option<char>)
      requires Valid()
      modifies this
      ensures Valid() && buf == old(buf)
      ensures if old(chars) == [] then r == None && chars == []
        else r == Some(old(chars)[|old(chars)| - 1]) && chars == old(chars)[..|old(chars)| - 1]
    {
      if len == 0 {
        if chars != [] { NotEmpty(chars); }
        return None;
      }
      ghost var i := LastChar(chars);
      var at := len - 1;
      while Tail(buf[at])
        invariant i <= at < len
        decreases at
      {
        assert buf[at] == buf[..len][at];
        at := at - 1;
      }
      assert buf[at] == buf[..len][at];
      assert buf[at..len] == buf[..len][at..];
      assert buf[..at] == buf[..len][..at];
      r := Some(Head(buf[at..len]));
      len, chars := len - Len(r.value), chars[..|chars| - 1];
    }

    // ---------------------------------------------------------------- in the middle

    /** Makes room for `bytes` in place of what is between `start` and `end`, by moving what comes after, and
      * writes them there: what `insert`, `insert_str` and `Vec::splice` do. */
    method SpliceBytes(start: nat, end: nat, bytes: seq<Byte>)
      requires start <= end <= len <= buf.Length
      modifies this`buf, this`len, buf
      ensures (buf == old(buf) || fresh(buf)) && len <= buf.Length
      ensures buf[..len] == old(buf[..len])[..start] + bytes + old(buf[..len])[end..]
    {
      Reserve(|bytes|);
      ghost var b := buf[..len];
      var to, count := start + |bytes|, len - end;
      Move(end, to, count);
      ghost var moved := buf[..];
      Write(start, bytes);
      Parts(b, start, end, bytes, moved, buf[..]);
      len := to + count;
    }

    method Splice(start: nat, end: nat, ghost k: nat, ghost m: nat, bytes: seq<Byte>, ghost t: seq<char>)
      requires Valid() && CutAt(chars, start) == Some(k) && CutAt(chars, end) == Some(m) && start <= end
      requires bytes == EncodeAll(t)
      modifies this, buf
      ensures Valid() && (buf == old(buf) || fresh(buf)) && k <= m <= |old(chars)|
      ensures chars == old(chars)[..k] + t + old(chars)[m..]
    {
      CutsOrdered(chars, start, k, end, m);
      SpliceEncodes(chars, start, k, end, m, t);
      SpliceBytes(start, end, bytes);
      chars := chars[..k] + t + chars[m..];
    }

    /** Panics, changing nothing, unless `idx` is the end of a whole number of characters. */
    method Insert(idx: nat, c: char) returns (ok: bool)
      requires Valid()
      modifies this, buf
      ensures Valid() && (buf == old(buf) || fresh(buf))
      ensures ok <==> CutAt(old(chars), idx).Some?
      ensures !ok ==> chars == old(chars)
      ensures ok ==> var k := CutAt(old(chars), idx).value;
        chars == old(chars)[..k] + [c] + old(chars)[k..]
    {
      ok := IsBoundary(idx);
      if ok {
        EncodeOne(c);
        Splice(idx, idx, CutAt(chars, idx).value, CutAt(chars, idx).value, Encode(c), [c]);
      }
    }

    method InsertStr(idx: nat, bytes: seq<Byte>, ghost t: seq<char>) returns (ok: bool)
      requires Valid() && bytes == EncodeAll(t)
      modifies this, buf
      ensures Valid() && (buf == old(buf) || fresh(buf))
      ensures ok <==> CutAt(old(chars), idx).Some?
      ensures !ok ==> chars == old(chars)
      ensures ok ==> var k := CutAt(old(chars), idx).value;
        chars == old(chars)[..k] + t + old(chars)[k..]
    {
      ok := IsBoundary(idx);
      if ok {
        Splice(idx, idx, CutAt(chars, idx).value, CutAt(chars, idx).value, bytes, t);
      }
    }

    /** `Vec::drain` of the bytes between two boundaries. */
    method Cut(start: nat, end: nat, ghost k: nat, ghost m: nat)
      requires Valid() && CutAt(chars, start) == Some(k) && CutAt(chars, end) == Some(m) && start <= end
      modifies this, buf
      ensures Valid() && buf == old(buf) && k <= m
      ensures chars == old(chars)[..k] + old(chars)[m..]
    {
      CutsOrdered(chars, start, k, end, m);
      CutEncodes(chars, start, k, end, m);
      CutBytes(chars, end, m);
      CutRange(start, end);
      chars := chars[..k] + chars[m..];
    }

    method CutRange(start: nat, end: nat)
      requires start <= end <= len <= buf.Length
      modifies this`len, buf
      ensures len <= buf.Length && buf[..len] == old(buf[..len])[..start] + old(buf[..len])[end..]
    {
      var count := len - end;
      Move(end, start, count);
      assert buf[..start + count] == buf[..start] + buf[start..start + count];
      len := start + count;
    }

    /** Gives the character at `idx`, and takes it out; panics if `idx` is no boundary, or is the end. */
    method Remove(idx: nat) returns (r: Option<char>)
      requires Valid()
      modifies this, buf
      ensures Valid() && buf == old(buf)
      ensures var cut := CutAt(old(chars), idx);
        if cut.None? || cut.value == |old(chars)| then r == None && chars == old(chars)
        else r == Some(old(chars)[cut.value]) && chars == old(chars)[..cut.value] + old(chars)[cut.value + 1..]
    {
      var ok := IsBoundary(idx);
      CutEnd(chars);
      if !ok || idx == len {
        return None;
      }
      ghost var k := CutAt(chars, idx).value;
      CutIsPrefix(chars, idx, k);
      assert chars[..|chars|] == chars;
      CharAt(chars, idx, k);
      assert buf[idx..len] == EncodeAll(chars)[idx..];
      var c := Head(buf[idx..len]);
      Cut(idx, idx + Len(c), k, k + 1);
      r := Some(c);
    }

    /** Longer than the string: nothing. Otherwise panics unless at a boundary. */
    method Truncate(newLen: nat) returns (ok: bool)
      requires Valid()
      modifies this
      ensures Valid() && buf == old(buf)
      ensures ok <==> newLen > old(len) || CutAt(old(chars), newLen).Some?
      ensures chars == if ok && newLen <= old(len) then old(chars)[..CutAt(old(chars), newLen).value] else old(chars)
    {
      ok := true;
      if newLen <= len {
        ok := IsBoundary(newLen);
        if ok {
          CutBytes(chars, newLen, CutAt(chars, newLen).value);
          assert buf[..newLen] == buf[..len][..newLen];
          len, chars := newLen, chars[..CutAt(chars, newLen).value];
        }
      }
    }

    method SplitOff(at: nat) returns (r: Option<StringBuf>)
      requires Valid()
      modifies this
      ensures Valid() && buf == old(buf)
      ensures r.Some? <==> CutAt(old(chars), at).Some?
      ensures r.None? ==> chars == old(chars)
      ensures r.Some? ==> fresh(r.value) && fresh(r.value.buf) && r.value.Valid()
      ensures r.Some? ==> chars == old(chars)[..CutAt(old(chars), at).value]
      ensures r.Some? ==> r.value.chars == old(chars)[CutAt(old(chars), at).value..]
    {
      var ok := IsBoundary(at);
      if !ok {
        return None;
      }
      ghost var k := CutAt(chars, at).value;
      CutBytes(chars, at, k);
      assert buf[..at] == buf[..len][..at] && buf[at..len] == buf[..len][at..];
      var other := new StringBuf();
      other.PushStr(buf[at..len], chars[k..]);
      len, chars := at, chars[..k];
      r := Some(other);
    }

    /** `drain`: the checks, and the characters the iterator will give. Nothing is removed yet, so nothing is
      * if the iterator is leaked. */
    method Drain(lower: Bound, upper: Bound) returns (ok: bool, start: nat, end: nat, ghost drained: seq<char>)
      requires Valid()
      ensures start == (match lower case Included(n) => n case Excluded(n) => n + 1 case Unbounded => 0)
      ensures end == (match upper case Included(n) => n + 1 case Excluded(n) => n case Unbounded => len)
      ensures ok <==> start <= end && CutAt(chars, start).Some? && CutAt(chars, end).Some?
      ensures ok ==> CutAt(chars, start).value <= CutAt(chars, end).value
      ensures ok ==> drained == chars[CutAt(chars, start).value..CutAt(chars, end).value]
      ensures ok ==> forall i :: 0 <= i < |chars| ==>
        (CutAt(chars, start).value <= i < CutAt(chars, end).value <==> Contains(lower, upper, Offset(chars, i)))
    {
      start, end, drained := StartOf(lower), EndOf(upper, len), [];
      var atStart := IsBoundary(start);
      var atEnd := IsBoundary(end);
      ok := start <= end <= len && atStart && atEnd;
      if atEnd {
        CutBytes(chars, end, CutAt(chars, end).value);
      }
      if ok {
        CutsOrdered(chars, start, CutAt(chars, start).value, end, CutAt(chars, end).value);
        drained := chars[CutAt(chars, start).value..CutAt(chars, end).value];
        forall i | 0 <= i < |chars|
          ensures CutAt(chars, start).value <= i < CutAt(chars, end).value
            <==> Contains(lower, upper, Offset(chars, i))
        {
          RangeIsCut(chars, lower, upper, i);
        }
      }
    }

    /** `Drop for Drain`: the range is removed, whether or not the iterator was used up. */
    method DropDrain(start: nat, end: nat)
      requires Valid() && start <= end && CutAt(chars, start).Some? && CutAt(chars, end).Some?
      modifies this, buf
      ensures Valid() && buf == old(buf)
      ensures CutAt(old(chars), start).value <= CutAt(old(chars), end).value
      ensures chars == old(chars)[..CutAt(old(chars), start).value] + old(chars)[CutAt(old(chars), end).value..]
    {
      CutBytes(chars, end, CutAt(chars, end).value);
      if start <= end && end <= len {
        Cut(start, end, CutAt(chars, start).value, CutAt(chars, end).value);
      }
    }

    /** `replace_range`: the bounds are checked one by one, and their order only by the splice. */
    method ReplaceRange(lower: Bound, upper: Bound, bytes: seq<Byte>, ghost t: seq<char>)
      returns (ok: bool, ghost k: nat, ghost m: nat)
      requires Valid() && bytes == EncodeAll(t)
      modifies this, buf
      ensures Valid() && (buf == old(buf) || fresh(buf))
      ensures ok <==> var start, end := StartOf(lower), EndOf(upper, old(len));
        start <= end && CutAt(old(chars), start).Some? && CutAt(old(chars), end).Some?
      ensures !ok ==> chars == old(chars)
      ensures ok ==> k <= m <= |old(chars)| && chars == old(chars)[..k] + t + old(chars)[m..]
      ensures ok ==> CutAt(old(chars), StartOf(lower)) == Some(k)
      ensures ok ==> CutAt(old(chars), EndOf(upper, old(len))) == Some(m)
      ensures ok ==> forall i :: 0 <= i < |old(chars)| ==>
        (k <= i < m <==> Contains(lower, upper, Offset(old(chars), i)))
    {
      k, m := 0, 0;
      var start, end := StartOf(lower), EndOf(upper, len);
      var atStart := IsBoundary(start);
      var atEnd := IsBoundary(end);
      ok := (lower.Unbounded? || atStart) && (upper.Unbounded? || atEnd) && start <= end <= len;
      CutEnd(chars);
      if atEnd {
        CutBytes(chars, end, CutAt(chars, end).value);
      }
      if ok {
        k, m := CutAt(chars, start).value, CutAt(chars, end).value;
        forall i | 0 <= i < |chars| ensures k <= i < m <==> Contains(lower, upper, Offset(chars, i)) {
          RangeIsCut(chars, lower, upper, i);
        }
        Splice(start, end, k, m, bytes, t);
      }
    }

    // ---------------------------------------------------------------- sweeps

    method SetLen(newLen: nat, ghost t: seq<char>)
      requires newLen <= buf.Length && buf[..newLen] == EncodeAll(t)
      modifies this`len, this`chars
      ensures Valid() && chars == t
    {
      len, chars := newLen, t;
    }

    /** A kept character is written `del` bytes before where it was read, if any were deleted. This may reach
      * into its own old bytes, though never beyond them: what was not read yet is left alone. */
    method KeepAt(idx: nat, del: nat, c: char)
      requires del <= idx && idx + Len(c) <= len <= buf.Length
      requires buf[idx..len][..Len(c)] == Encode(c)
      modifies buf
      ensures buf[..idx - del + Len(c)] == old(buf[..idx - del]) + Encode(c)
      ensures buf[idx + Len(c)..len] == old(buf[idx..len])[Len(c)..]
    {
      var to := idx - del;
      if del > 0 {
        Write(to, Encode(c));
        assert buf[idx + Len(c)..len] == buf[to + Len(c)..][del..][..len - idx - Len(c)];
      } else {
        assert to == idx;
        forall i | 0 <= i < Len(c) ensures buf[to..to + Len(c)][i] == Encode(c)[i] {
          assert buf[idx + i] == buf[idx..len][..Len(c)][i];
        }
      }
      assert buf[..to + Len(c)] == buf[..to] + buf[to..to + Len(c)];
    }

    /** Where `retain` stands before question `k`: what was kept is compacted, what is unread is untouched. */
    ghost predicate Sweeping(s: seq<char>, f: (nat, char) -> Verdict, k: nat, idx: nat, del: nat)
      reads this, buf
    {
      && len == |EncodeAll(s)| <= buf.Length && del <= idx <= len
      && CutAt(s, idx) == Some(k) && k <= Stop(s, f, 0)
      && buf[..idx - del] == EncodeAll(KeptTo(s, f, k))
      && buf[idx..len] == EncodeAll(s)[idx..]
    }

    /** The counter `del_bytes` is what was deleted. */
    lemma SweepingDeleted(s: seq<char>, f: (nat, char) -> Verdict, k: nat, idx: nat, del: nat)
      requires Sweeping(s, f, k, idx, del)
      ensures k <= |s| && del == Deleted(s, f, k)
    {
      CutIsPrefix(s, idx, k);
      CutBytes(s, idx, k);
      KeptAndDeleted(s, f, k);
      assert |buf[..idx - del]| == idx - del;
    }

    /** A question that `f` answers with yes. */
    method KeepOne(idx: nat, del: nat, c: char, ghost s: seq<char>, ghost f: (nat, char) -> Verdict, ghost k: nat)
      requires Sweeping(s, f, k, idx, del) && k < |s| && c == s[k] && idx < len
      requires f(k, c).Keep?
      modifies buf
      ensures idx + Len(c) <= len && Sweeping(s, f, k + 1, idx + Len(c), del)
    {
      RetainStep(s, f, k, idx);
      KeepAt(idx, del, c);
    }

    /** A question that `f` answers with no: nothing is written. */
    lemma DeleteOne(idx: nat, del: nat, c: char, s: seq<char>, f: (nat, char) -> Verdict, k: nat)
      requires Sweeping(s, f, k, idx, del) && k < |s| && c == s[k] && idx < len
      requires f(k, c).Delete?
      ensures idx + Len(c) <= len && Sweeping(s, f, k + 1, idx + Len(c), del + Len(c))
    {
      RetainStep(s, f, k, idx);
      assert buf[idx + Len(c)..len] == buf[idx..len][Len(c)..];
    }

    /** `get_unchecked(idx..len).chars().next()` */
    method NextChar(idx: nat, ghost s: seq<char>, ghost k: nat, ghost f: (nat, char) -> Verdict) returns (c: char)
      requires CutAt(s, idx) == Some(k) && idx < len == |EncodeAll(s)| <= buf.Length && k <= Stop(s, f, 0)
      requires buf[idx..len] == EncodeAll(s)[idx..]
      ensures k < |s| && c == s[k] && (f(k, c).Panic? <==> Stop(s, f, 0) == k)
    {
      InsideCut(s, idx, k);
      NextStop(s, f, 0, k);
      c := Head(buf[idx..len]);
    }

    /** `retain`. `f(n, c)` is what the caller's function does when asked, as its `n`-th question, about `c`.
      * The guard `SetLenOnDrop` sets the length on the way out also if `f` panics; `asked` lists the
      * questions. */
    method Retain(f: (nat, char) -> Verdict) returns (ok: bool, ghost asked: seq<char>)
      requires Valid()
      modifies this, buf
      ensures Valid() && buf == old(buf)
      ensures asked <= old(chars) && (if ok then asked == old(chars) else asked != [])
      ensures var s, n := old(chars), if ok then |asked| else |asked| - 1;
        && (forall i :: 0 <= i < n ==> !f(i, s[i]).Panic?) && (!ok ==> f(n, s[n]).Panic?)
        && chars == KeptTo(s, f, n)
        && exists p :: Picked(s, chars, p, Kept(s, f, n))
    {
      ghost var s := chars;
      forall i | 0 <= i < Stop(s, f, 0) ensures !f(i, s[i]).Panic? { BeforeStop(s, f, i); }
      ghost var p := KeptPicks(s, f, Stop(s, f, 0));
      var idx: nat, del: nat;
      ok, idx, del, asked := Sweep(f);
      SetLen(idx - del, KeptTo(s, f, Stop(s, f, 0)));
    }

    method Answered(idx: nat, del: nat, c: char, keep: bool,
      ghost s: seq<char>, ghost f: (nat, char) -> Verdict, ghost k: nat) returns (idx2: nat, del2: nat)
      requires Sweeping(s, f, k, idx, del) && k < |s| && c == s[k] && idx < len
      requires !f(k, c).Panic? && keep == f(k, c).Keep?
      modifies buf
      ensures idx < idx2 && Sweeping(s, f, k + 1, idx2, del2)
    {
      idx2, del2 := idx + Len(c), del;
      if keep {
        KeepOne(idx, del, c, s, f, k);
      } else {
        DeleteOne(idx, del, c, s, f, k);
        del2 := del + Len(c);
      }
    }

    /** One round of the loop of `retain`: the question about the character at `idx`, and what follows from the
      * answer. */
    method Ask(f: (nat, char) -> Verdict, k: nat, idx: nat, del: nat)
      returns (c: char, verdict: Verdict, idx2: nat, del2: nat)
      requires Sweeping(chars, f, k, idx, del) && idx < len
      modifies buf
      ensures k < |chars| && c == chars[k] && (verdict.Panic? <==> Stop(chars, f, 0) == k)
      ensures verdict.Panic? ==> idx2 == idx && del2 == del && Sweeping(chars, f, k, idx, del)
      ensures !verdict.Panic? ==> idx < idx2 && Sweeping(chars, f, k + 1, idx2, del2)
    {
      c := NextChar(idx, chars, k, f);
      verdict := f(k, c);
      idx2, del2 := idx, del;
      if !verdict.Panic? {
        idx2, del2 := Answered(idx, del, c, verdict.Keep?, chars, f, k);
      }
    }

    /** The loop of `retain`, to its end or to the question at which `f` panics. */
    method Sweep(f: (nat, char) -> Verdict) returns (ok: bool, idx: nat, del: nat, ghost asked: seq<char>)
      requires Valid()
      modifies buf
      ensures Sweeping(chars, f, Stop(chars, f, 0), idx, del)
      ensures ok <==> Stop(chars, f, 0) == |chars|
      ensures asked == if ok then chars else chars[..Stop(chars, f, 0) + 1]
    {
      var k: nat := 0;
      idx, del, asked, ok := 0, 0, [], true;
      while idx < len
        invariant Sweeping(chars, f, k, idx, del) && asked == chars[..k]
        decreases len - idx
      {
        var c, verdict;
        c, verdict, idx, del := Ask(f, k, idx, del);
        asked := asked + [c];
        assert asked == chars[..k + 1];
        if verdict.Panic? {
          ok := false;
          return;
        }
        k := k + 1;
      }
      EndCut(chars, k);
    }

    /** The first loop of `remove_matches` turns matches into the gaps around them. */
    method Rejections(ms: seq<Span>, end: nat) returns (gs: seq<Span>)
      ensures gs == Gaps(ms, 0, end)
    {
      gs := [];
      var front: nat, i: nat := 0, 0;
      while i < |ms|
        invariant i <= |ms| && gs + Gaps(ms[i..], front, end) == Gaps(ms, 0, end)
      {
        gs, front := gs + [Span(front, ms[i].start)], ms[i].end;
        i := i + 1;
      }
      gs := gs + [Span(front, end)];
    }

    /** One gap copied down to the write position, which it lies at or after. */
    method CopyGap(start: nat, end: nat, w: nat, old_len: nat)
      requires w <= start <= end <= old_len <= buf.Length
      modifies buf
      ensures buf[..w + (end - start)] == old(buf[..w]) + old(buf[start..end])
      ensures buf[end..old_len] == old(buf[end..old_len])
    {
      var count := end - start;
      if start != w {
        Move(start, w, count);
        assert buf[end..old_len] == buf[w + count..][start - w..][..old_len - end];
      }
      assert buf[..w + count] == buf[..w] + buf[w..w + count];
    }

    /** Where the copying loop stands before gap `i`: `b` is what the buffer held, `front` the end of the gap
      * before, and nothing from there on was overwritten yet. */
    ghost predicate Copying(gs: seq<Span>, b: seq<Byte>, i: nat, w: nat, front: nat)
      reads this, buf
    {
      && i <= |gs| && w <= front <= len == |b| <= buf.Length && Ascending(gs[i..], front, |b|)
      && Ascending(gs, 0, |b|)
      && buf[front..len] == b[front..]
      && buf[..w] + Joined(b, gs[i..], front) == Joined(b, gs, 0)
    }

    /** The gap at `i`. No byte of it was overwritten before it is copied. */
    method CopyNext(gs: seq<Span>, ghost b: seq<Byte>, i: nat, w: nat, ghost front: nat) returns (w2: nat)
      requires i < |gs| && Copying(gs, b, i, w, front)
      modifies buf
      ensures Copying(gs, b, i + 1, w2, gs[i].end)
    {
      var start, end := gs[i].start, gs[i].end;
      JoinedNext(b, buf[..w], gs, i, front);
      Middle(b, buf[..], front, start, end);
      CopyGap(start, end, w, len);
      w2 := w + (end - start);
    }

    lemma StartCopying(gs: seq<Span>, b: seq<Byte>)
      requires len == |b| <= buf.Length && buf[..len] == b && Ascending(gs, 0, len)
      ensures Copying(gs, b, 0, 0, 0)
    {
      assert gs[0..] == gs;
    }

    /** The copying loop. */
    method CopyGaps(gs: seq<Span>, ghost b: seq<Byte>) returns (w: nat)
      requires len == |b| <= buf.Length && buf[..len] == b && Ascending(gs, 0, len)
      modifies buf
      ensures w <= len && buf[..w] == Joined(b, gs, 0)
    {
      ghost var front: nat := 0;
      var i: nat := 0;
      w := 0;
      StartCopying(gs, b);
      while i < |gs|
        invariant Copying(gs, b, i, w, front)
      {
        ghost var end := gs[i].end;
        w := CopyNext(gs, b, i, w, front);
        front := end;
        i := i + 1;
      }
      DoneCopying(gs, b, w, front);
    }

    lemma DoneCopying(gs: seq<Span>, b: seq<Byte>, w: nat, front: nat)
      requires Copying(gs, b, |gs|, w, front)
      ensures w <= len <= buf.Length && Ascending(gs, 0, |b|) && buf[..w] == Joined(b, gs, 0)
    {
      assert gs[|gs|..] == [];
      assert buf[..w] + [] == buf[..w];
    }

    /** `remove_matches`, given the matches its searcher finds: what is left are the gaps, in order. */
    method RemoveMatches(ms: seq<Span>)
      requires Valid() && Successive(ms, 0, len) && OnBoundaries(chars, ms)
      modifies this, buf
      ensures Valid() && buf == old(buf)
      ensures chars == Unmatched(old(chars), ms, 0)
      ensures exists p :: Picked(old(chars), chars, p, OutsideFrom(old(chars), ms, 0))
    {
      ghost var p := UnmatchedPicks(chars, ms, 0, 0);
      GapsAscend(ms, 0, len);
      GapsEncode(chars, ms, 0, 0);
      var gs := Rejections(ms, len);
      var w := CopyGaps(gs, EncodeAll(chars));
      SetLen(w, Unmatched(chars, ms, 0));
    }
  }

  lemma Middle(b: seq<Byte>, now: seq<Byte>, front: nat, start: nat, end: nat)
    requires front <= start <= end <= |b| <= |now| && now[front..|b|] == b[front..]
    ensures now[start..end] == b[start..end] && now[end..|b|] == b[end..]
  {
    SliceOfSlice(now, front, |b|, start, end);
    SliceOfSlice(b, front, |b|, start, end);
    SliceOfSlice(now, front, |b|, end, |b|);
    SliceOfSlice(b, front, |b|, end, |b|);
    assert b[front..] == b[front..|b|] && b[end..] == b[end..|b|];
  }

  lemma SliceOfSlice(q: seq<Byte>, a: nat, c: nat, i: nat, j: nat)
    requires a <= i <= j <= c <= |q|
    ensures q[a..c][i - a..j - a] == q[i..j]
  {
    var part := q[a..c];
    forall k | 0 <= k < j - i ensures part[i - a..j - a][k] == q[i..j][k] {
      assert part[i - a..j - a][k] == part[i - a + k];
    }
  }

  lemma {:induction false} JoinedNext(b: seq<Byte>, done: seq<Byte>, gs: seq<Span>, i: nat, front: nat)
    requires i < |gs| && Ascending(gs[i..], front, |b|)
    ensures front <= gs[i].start <= gs[i].end <= |b| && Ascending(gs[i + 1..], gs[i].end, |b|)
    ensures (done + b[gs[i].start..gs[i].end]) + Joined(b, gs[i + 1..], gs[i].end) == done + Joined(b, gs[i..], front)
  {
    assert gs[i..][1..] == gs[i + 1..];
  }

  lemma {:induction false} RetainStep(s: seq<char>, f: (nat, char) -> Verdict, k: nat, i: nat)
    requires CutAt(s, i) == Some(k) && i < |EncodeAll(s)| && k <= Stop(s, f, 0)
    ensures k < |s| && HeadLen(EncodeAll(s)[i..]) > 0 && Head(EncodeAll(s)[i..]) == s[k]
    ensures EncodeAll(s)[i..][..Len(s[k])] == Encode(s[k])
    ensures CutAt(s, i + Len(s[k])) == Some(k + 1) && i + Len(s[k]) <= |EncodeAll(s)|
    ensures EncodeAll(s)[i..][Len(s[k])..] == EncodeAll(s)[i + Len(s[k])..]
    ensures f(k, s[k]).Panic? <==> Stop(s, f, 0) == k
    ensures EncodeAll(KeptTo(s, f, k + 1))
      == EncodeAll(KeptTo(s, f, k)) + (if f(k, s[k]).Keep? then Encode(s[k]) else [])
  {
    InsideCut(s, i, k);
    NextStop(s, f, 0, k);
    KeptNext(s, f, k);
  }

  /** What is in the buffer after the move and the write. */
  lemma Parts(b: seq<Byte>, start: nat, end: nat, bytes: seq<Byte>, moved: seq<Byte>, written: seq<Byte>)
    requires start <= end <= |b| && start + |bytes| + (|b| - end) <= |moved| == |written|
    requires moved[start + |bytes|..start + |bytes| + (|b| - end)] == b[end..]
    requires moved[..start + |bytes|][..start] == b[..start]
    requires written[start..start + |bytes|] == bytes
    requires written[..start] == moved[..start]
    requires written[start + |bytes|..] == moved[start + |bytes|..]
    ensures written[..start + |bytes| + (|b| - end)] == b[..start] + bytes + b[end..]
  {
    var to, count := start + |bytes|, |b| - end;
    assert written[to..to + count] == written[to..][..count];
    assert moved[to..to + count] == moved[to..][..count];
    assert moved[..to][..start] == moved[..start];
    assert written[..to + count] == written[..start] + written[start..to] + written[to..to + count];
  }

  /** The last character's bytes after its first are all continuation bytes, and its first is none. */
  lemma {:induction false} LastChar(s: seq<char>) returns (i: nat)
    requires s != []
    ensures var b, k := EncodeAll(s), |s| - 1;
      && i + Len(s[k]) == |b| && !Tail(b[i]) && b[..i] == EncodeAll(s[..k])
      && (forall j :: i < j < |b| ==> Tail(b[j]))
      && HeadLen(b[i..]) == Len(s[k]) && Head(b[i..]) == s[k]
  {
    var k := |s| - 1;
    var c := s[k];
    i := |EncodeAll(s[..k])|;
    assert s == s[..k] + [c];
    EncodeSum(s[..k], [c]);
    EncodeOne(c);
    EncodedTails(c);
    HeadOfEncoded(c, []);
    assert EncodeAll(s)[i..] == Encode(c) + [];
  }

  // ---------------------------------------------------------------- inverses

  /** `insert` then `remove` at the same byte index gives the character back and leaves the string as it was. */
  lemma {:induction false} InsertThenRemove(s: seq<char>, idx: nat, c: char)
    requires CutAt(s, idx).Some?
    ensures var k := CutAt(s, idx).value;
      var t := Inserted(s, k, [c]);
      && CutAt(t, idx) == Some(k) && k < |t| && t[k] == c
      && t[..k] + t[k + 1..] == s
  {
    var k := CutAt(s, idx).value;
    var t := Inserted(s, k, [c]);
    CutIsPrefix(s, idx, k);
    assert t[..k] == s[..k];
    CutIsPrefix(t, idx, k);
    assert t[k + 1..] == s[k..];
  }

  /** The same, run: the bytes, too, are what they were. */
  method InsertRemove(s: StringBuf, idx: nat, c: char) returns (r: Option<char>)
    requires s.Valid()
    modifies s, s.buf
    ensures s.Valid() && s.chars == old(s.chars) && s.buf[..s.len] == old(s.buf[..s.len])
    ensures r == if CutAt(old(s.chars), idx).Some? then Some(c) else None
  {
    var ok := s.Insert(idx, c);
    if !ok {
      return None;
    }
    InsertThenRemove(old(s.chars), idx, c);
    r := s.Remove(idx);
  }

  method PushPop(s: StringBuf, c: char) returns (r: Option<char>)
    requires s.Valid()
    modifies s, s.buf
    ensures s.Valid() && s.chars == old(s.chars) && s.buf[..s.len] == old(s.buf[..s.len])
    ensures r == Some(c)
  {
    s.Push(c);
    r := s.Pop();
  }
}

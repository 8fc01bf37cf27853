/** `[T]::repeat` (library/alloc/src/slice.rs): a buffer filled by copying itself onto its own end. */
module Repeat {
  import opened Basics
  import opened Uninit

  /** `n` copies of `s`, one after another. */
  function Times<T>(s: seq<T>, n: nat): (r: seq<T>)
  {
    if n == 0 then [] else Times(s, n - 1) + s
  }

  function Pow2(k: nat): (r: nat)
    ensures r > 0
  {
    if k == 0 then 1 else 2 * Pow2(k - 1)
  }

  lemma {:induction false} TimesLength<T>(s: seq<T>, n: nat)
    ensures |Times(s, n)| == |s| * n
  {
    if n > 0 {
      TimesLength(s, n - 1);
      assert |s| * n == |s| * (n - 1) + |s|;
    }
  }

  lemma {:induction false} TimesSum<T>(s: seq<T>, a: nat, b: nat)
    ensures Times(s, a + b) == Times(s, a) + Times(s, b)
  {
    if b > 0 {
      TimesSum(s, a, b - 1);
      assert Times(s, a + b) == Times(s, a + (b - 1)) + s;
    }
  }

  /** Fewer copies are a prefix of more. */
  lemma {:induction false} TimesPrefix<T>(s: seq<T>, a: nat, b: nat)
    requires a <= b
    ensures |s| * a <= |Times(s, b)| && Times(s, b)[..|s| * a] == Times(s, a)
  {
    TimesSum(s, a, b - a);
    TimesLength(s, a);
  }

  /** What `repeat` promises, place by place: copy `j` of element `r`. */
  lemma {:induction false} TimesAt<T>(s: seq<T>, n: nat, j: nat, r: nat)
    requires j < n && r < |s|
    ensures |s| * j + r < |Times(s, n)| && Times(s, n)[|s| * j + r] == s[r]
  {
    TimesLength(s, j);
    TimesPrefix(s, j + 1, n);
    assert Times(s, j + 1) == Times(s, j) + s;
    assert Times(s, n)[..|s| * (j + 1)][|s| * j + r] == s[r];
  }

  lemma MulMono(a: nat, b: nat, d: nat)
    requires a <= b
    ensures a * d <= b * d
  {
  }

  /** `ptr::copy_nonoverlapping(buf, buf + len, count)`: source and target must not overlap, and what is read
    * must have been written. */
  method CopyForward<T>(buf: array<Cell<T>>, len: nat, count: nat)
    requires count <= len && len + count <= buf.Length
    requires AllSet(buf[..count])
    modifies buf
    ensures buf[..len + count] == old(buf[..len]) + old(buf[..count])
    ensures buf[len + count..] == old(buf[len + count..])
  {
    forall i | 0 <= i < count {
      buf[len + i] := buf[i];
    }
  }

  lemma RestFits(l: nat, pow: nat, n: nat)
    requires pow <= n < 2 * pow
    ensures l * n == l * pow + l * (n - pow)
    ensures l > 0 ==> l * (n - pow) < l * pow
  {
    if l > 0 {
      MulMono(n - pow + 1, pow, l);
    }
  }

  /** Halving the count of the copies still to make, while each is made twice as long. */
  lemma HalfStep(m: nat, x: nat, n: nat)
    requires m * x <= n < (m + 1) * x
    ensures (m / 2) * (2 * x) <= n < (m / 2 + 1) * (2 * x)
  {
    var h := m / 2;
    MulMono(2 * h, m, x);
    MulMono(m + 1, 2 * h + 2, x);
    assert (2 * h) * x == h * (2 * x);
    assert (2 * h + 2) * x == (h + 1) * (2 * x);
  }

  lemma Twice(l: nat, pow: nat)
    ensures l * (pow + pow) == l * pow + l * pow
  {
  }

  /** One doubling of the buffer. */
  lemma Doubled<T>(s: seq<T>, pow: nat, n: nat, half: seq<Cell<T>>)
    requires pow + pow <= n && half == Cells(Times(s, pow))
    ensures half + half == Cells(Times(s, pow + pow))
    ensures |half| + |half| <= |s| * n
  {
    TimesSum(s, pow, pow);
    TimesLength(s, pow);
    CellsSum(Times(s, pow), Times(s, pow));
    Twice(|s|, pow);
    MulMono(pow + pow, n, |s|);
  }

  lemma Finished<T>(s: seq<T>, pow: nat, n: nat, most: seq<Cell<T>>)
    requires pow <= n < 2 * pow && most == Cells(Times(s, pow))
    ensures var rest := |s| * n - |most|;
      0 <= rest <= |most| && most + most[..rest] == Cells(Times(s, n))
    ensures s != [] ==> |s| * n - |most| < |most|
  {
    TimesLength(s, pow);
    RestFits(|s|, pow, n);
    TimesSum(s, pow, n - pow);
    TimesPrefix(s, n - pow, pow);
    TimesLength(s, n);
    assert Cells(Times(s, pow))[..|s| * (n - pow)] == Cells(Times(s, n - pow));
  }

  /** The loop: `buf` holds one copy, and is doubled as long as twice as many are not too many. */
  method DoubleUp<T>(buf: array<Cell<T>>, s: seq<T>, n: nat) returns (len: nat, ghost doublings: nat)
    requires n > 0 && buf.Length == |s| * n && |s| <= buf.Length && buf[..|s|] == Cells(s)
    modifies buf
    ensures Pow2(doublings) <= n < Pow2(doublings + 1)
    ensures len <= buf.Length && buf[..len] == Cells(Times(s, Pow2(doublings)))
  {
    len, doublings := |s|, 0;
    var m := n / 2;
    ghost var x := 2;
    assert Times(s, 1) == s;
    while m > 0
      invariant x == 2 * Pow2(doublings) && m * x <= n < (m + 1) * x && Pow2(doublings) <= n
      invariant len <= buf.Length && buf[..len] == Cells(Times(s, Pow2(doublings)))
      decreases m
    {
      MulMono(1, m, x);
      Doubled(s, Pow2(doublings), n, buf[..len]);
      CopyForward(buf, len, len);
      len := len * 2;
      HalfStep(m, x, n);
      m, x := m / 2, 2 * x;
      doublings := doublings + 1;
    }
  }

  /** `repeat`: `None` is the panic on capacity overflow, of the element count or of the bytes, for elements
    * of `size` bytes. The copies double until one more doubling would be too many; the rest is a prefix of
    * the buffer, shorter than it. */
  method RepeatSlice<T>(s: seq<T>, n: nat, size: nat) returns (r: Option<seq<T>>, ghost doublings: nat)
    ensures r == if |s| * n > USIZE_MAX || |s| * n * size > ISIZE_MAX then None else Some(Times(s, n))
    ensures n > 0 && r.Some? ==> Pow2(doublings) <= n < Pow2(doublings + 1)
  {
    doublings := 0;
    if n == 0 {
      return Some([]), 0;
    }
    var capacity := |s| * n;
    if capacity > USIZE_MAX || capacity * size > ISIZE_MAX {
      return None, 0;
    }
    MulMono(1, n, |s|);
    var buf: array<Cell<T>> := new Cell<T>[capacity](i => Unset);
    forall i | 0 <= i < |s| {
      buf[i] := Set(s[i]);
    }
    assert buf[..|s|] == Cells(s);
    var len;
    len, doublings := DoubleUp(buf, s, n);
    Finished(s, Pow2(doublings), n, buf[..len]);
    var rest := capacity - len;
    if rest > 0 {
      assert buf[..rest] == buf[..len][..rest];
      CopyForward(buf, len, rest);
    }
    assert buf[..] == Cells(Times(s, n));
    r := Some(Contents(buf, Times(s, n)));
  }
}

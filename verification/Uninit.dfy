/** Buffers that start out uninitialised, as the spare capacity of a `Vec` does. */
module Uninit {
  import opened Basics

  /** A place in the buffer of a `Vec`, which may not have been written yet. */
  datatype Cell<T> = Unset | Set(value: T)

  function Cells<T>(s: seq<T>): (r: seq<Cell<T>>)
    ensures |r| == |s|
  {
    seq(|s|, i requires 0 <= i < |s| => Set(s[i]))
  }

  predicate AllSet<T>(q: seq<Cell<T>>) {
    forall i :: 0 <= i < |q| ==> q[i].Set?
  }

  lemma CellsSum<T>(a: seq<T>, b: seq<T>)
    ensures Cells(a + b) == Cells(a) + Cells(b)
  {
  }

  /** Everything in the buffer was written. */
  function Contents<T>(buf: array<Cell<T>>, ghost q: seq<T>): (r: seq<T>)
    requires buf[..] == Cells(q)
    reads buf
    ensures r == q
  {
    assert forall i :: 0 <= i < buf.Length ==> buf[i] == buf[..][i];
    seq(buf.Length, i requires 0 <= i < buf.Length && buf[i].Set? reads buf => buf[i].value)
  }
}

/** `join_generic_copy` (library/alloc/src/str.rs): one buffer of the exact total length, filled piece by piece.
  * Every piece is asked for its bytes twice, once for its length and once for its contents, and a caller's
  * `Borrow` may answer differently. */
module Join {
  import opened Basics
  import opened Uninit
  import Utf8

  /** `Unspecified` is a subtraction below zero, which a build without overflow checks would wrap. */
  datatype Outcome<T> = Joined(r: seq<T>) | Panicked | Unspecified

  /** The pieces with the separator between them. */
  function Interleave<T>(pieces: seq<seq<T>>, sep: seq<T>): seq<T> {
    if pieces == [] then []
    else if |pieces| == 1 then pieces[0]
    else Interleave(pieces[..|pieces| - 1], sep) + sep + pieces[|pieces| - 1]
  }

  function TotalLength<T>(pieces: seq<seq<T>>): nat {
    if pieces == [] then 0 else TotalLength(pieces[..|pieces| - 1]) + |pieces[|pieces| - 1]|
  }

  /** The length computed beforehand: a separator for each piece but the first, and the pieces. */
  function Reserved<T>(measured: seq<seq<T>>, sep: seq<T>): nat
    requires measured != []
  {
    |sep| * (|measured| - 1) + TotalLength(measured)
  }

  /** The precomputed length is the length of the result, for every separator. */
  lemma {:induction false} ReservedIsExact<T>(pieces: seq<seq<T>>, sep: seq<T>)
    requires pieces != []
    ensures |Interleave(pieces, sep)| == Reserved(pieces, sep)
  {
    var n := |pieces|;
    if n == 1 {
      assert TotalLength(pieces[..0]) == 0;
    } else {
      ReservedIsExact(pieces[..n - 1], sep);
      assert |sep| * (n - 1) == |sep| * (n - 2) + |sep|;
    }
  }

  /** Place by place: element `r` of piece `i` comes after `i` separators and the pieces before it, and before each
    * piece but the first is the separator. */
  lemma {:induction false} InterleaveAt<T>(pieces: seq<seq<T>>, sep: seq<T>, i: nat, r: nat)
    requires i < |pieces|
    ensures var at := |sep| * i + TotalLength(pieces[..i]);
      && at + |pieces[i]| <= |Interleave(pieces, sep)|
      && (r < |pieces[i]| ==> Interleave(pieces, sep)[at + r] == pieces[i][r])
      && (i > 0 && r < |sep| ==> at >= |sep| && Interleave(pieces, sep)[at - |sep| + r] == sep[r])
    decreases |pieces|
  {
    var n := |pieces|;
    var rest := pieces[..n - 1];
    if i < n - 1 {
      InterleaveAt(rest, sep, i, r);
      assert rest[..i] == pieces[..i];
      assert Interleave(pieces, sep) == Interleave(rest, sep) + (sep + pieces[n - 1]);
    } else if n > 1 {
      ReservedIsExact(rest, sep);
      assert |sep| * (n - 1) == |sep| * (n - 2) + |sep|;
      assert Interleave(pieces, sep) == Interleave(rest, sep) + (sep + pieces[n - 1]);
    } else {
      assert pieces[..0] == [];
    }
  }

  lemma {:induction false} InterleaveNext<T>(pieces: seq<seq<T>>, sep: seq<T>, i: nat)
    requires 0 < i < |pieces|
    ensures Interleave(pieces[..i + 1], sep) == Interleave(pieces[..i], sep) + sep + pieces[i]
  {
    assert pieces[..i + 1][..i] == pieces[..i];
  }

  lemma {:induction false} InterleaveGrows<T>(pieces: seq<seq<T>>, sep: seq<T>, i: nat)
    requires 0 < i <= |pieces|
    ensures |Interleave(pieces[..i], sep)| <= |Interleave(pieces, sep)|
    decreases |pieces| - i
  {
    if i < |pieces| {
      InterleaveNext(pieces, sep, i);
      InterleaveGrows(pieces, sep, i + 1);
    } else {
      assert pieces[..i] == pieces;
    }
  }

  /** `copy_slice_and_advance!`: what is left of the target must have room, or splitting it panics. */
  method CopyAndAdvance<T>(buf: array<Cell<T>>, at: nat, bytes: seq<T>) returns (ok: bool)
    requires at <= buf.Length
    modifies buf
    ensures ok <==> at + |bytes| <= buf.Length
    ensures ok ==> buf[..at + |bytes|] == old(buf[..at]) + Cells(bytes)
    ensures !ok ==> buf[..] == old(buf[..])
  {
    ok := at + |bytes| <= buf.Length;
    if ok {
      forall i | 0 <= i < |bytes| {
        buf[at + i] := Set(bytes[i]);
      }
      assert buf[..at + |bytes|] == buf[..at] + buf[at..at + |bytes|];
    }
  }

  /** The loop of `specialize_for_lengths!`; the arms for short separators differ only in how they are
    * compiled. Gives how much was written, unless it panicked. */
  method CopyRest<T>(buf: array<Cell<T>>, copied: seq<seq<T>>, sep: seq<T>) returns (written: Option<nat>)
    requires copied != [] && |copied[0]| <= buf.Length && buf[..|copied[0]|] == Cells(copied[0])
    modifies buf
    ensures written.Some? <==> |Interleave(copied, sep)| <= buf.Length
    ensures written.Some? ==> written.value == |Interleave(copied, sep)|
    ensures written.Some? ==> buf[..written.value] == Cells(Interleave(copied, sep))
  {
    var at: nat, i: nat := |copied[0]|, 1;
    while i < |copied|
      invariant 1 <= i <= |copied|
      invariant at == |Interleave(copied[..i], sep)| <= buf.Length
      invariant buf[..at] == Cells(Interleave(copied[..i], sep))
    {
      InterleaveNext(copied, sep, i);
      InterleaveGrows(copied, sep, i + 1);
      CellsSum(Interleave(copied[..i], sep), sep);
      CellsSum(Interleave(copied[..i], sep) + sep, copied[i]);
      var ok := CopyAndAdvance(buf, at, sep);
      if !ok {
        return None;
      }
      at := at + |sep|;
      ok := CopyAndAdvance(buf, at, copied[i]);
      if !ok {
        return None;
      }
      at := at + |copied[i]|;
      i := i + 1;
    }
    assert copied[..i] == copied;
    written := Some(at);
  }

  /** `join_generic_copy`, for elements of `size` bytes. `measured` are the pieces as asked for their lengths,
    * `copied` as asked for their contents. What is given out was all written; if the answers agree it is the
    * pieces with the separator between them. */
  method JoinGenericCopy<T>(measured: seq<seq<T>>, copied: seq<seq<T>>, sep: seq<T>, size: nat) returns (r: Outcome<T>)
    requires |measured| == |copied|
    ensures measured == [] ==> r == Joined([])
    ensures measured != [] ==> var reserved := Reserved(measured, sep);
      r == if reserved > USIZE_MAX || reserved * size > ISIZE_MAX then Panicked
        else if |copied[0]| > reserved then Unspecified
        else if |Interleave(copied, sep)| > reserved then Panicked
        else Joined(Interleave(copied, sep))
  {
    if measured == [] {
      return Joined([]);
    }
    var reserved := Reserved(measured, sep);
    if reserved > USIZE_MAX || reserved * size > ISIZE_MAX {
      return Panicked;
    }
    var first := copied[0];
    if |first| > reserved {
      return Unspecified;
    }
    var buf: array<Cell<T>> := new Cell<T>[reserved](i => Unset);
    forall i | 0 <= i < |first| {
      buf[i] := Set(first[i]);
    }
    assert buf[..|first|] == Cells(first);
    var written := CopyRest(buf, copied, sep);
    if written.None? {
      return Panicked;
    }
    r := Joined(Written(buf, written.value, Interleave(copied, sep)));
  }

  /** A first piece that is longer when it is copied than when it was measured reaches the subtraction. */
  method FirstPieceGrows<T>(x: T) returns (r: Outcome<T>)
    ensures r == Unspecified
  {
    r := JoinGenericCopy([[]], [[x]], [], 1);
  }

  function Written<T>(buf: array<Cell<T>>, n: nat, ghost q: seq<T>): (r: seq<T>)
    requires n <= buf.Length && buf[..n] == Cells(q)
    reads buf
    ensures r == q
  {
    assert forall i :: 0 <= i < n ==> buf[i] == buf[..n][i];
    seq(n, i requires 0 <= i < n && buf[i].Set? reads buf => buf[i].value)
  }

  /** With a `Borrow` that answers the same twice, the result is always exact: it has the precomputed length,
    * and only a total that does not fit is refused. */
  lemma {:induction false} HonestBorrowFits<T>(pieces: seq<seq<T>>, sep: seq<T>)
    requires pieces != []
    ensures |pieces[0]| <= Reserved(pieces, sep) == |Interleave(pieces, sep)|
  {
    ReservedIsExact(pieces, sep);
    InterleaveGrows(pieces, sep, 1);
    assert pieces[..1] == [pieces[0]];
  }

  /** `join` of strings: the joined bytes encode the joined characters, so they are well-formed UTF-8. */
  function Encoded(pieces: seq<seq<char>>): (r: seq<seq<Utf8.Byte>>)
    ensures |r| == |pieces|
  {
    seq(|pieces|, i requires 0 <= i < |pieces| => Utf8.EncodeAll(pieces[i]))
  }

  lemma {:induction false} JoinedEncodes(pieces: seq<seq<char>>, sep: seq<char>)
    ensures Interleave(Encoded(pieces), Utf8.EncodeAll(sep)) == Utf8.EncodeAll(Interleave(pieces, sep))
  {
    if |pieces| > 1 {
      var n := |pieces| - 1;
      JoinedEncodes(pieces[..n], sep);
      assert Encoded(pieces)[..n] == Encoded(pieces[..n]);
      Utf8.EncodeSum(Interleave(pieces[..n], sep), sep);
      Utf8.EncodeSum(Interleave(pieces[..n], sep) + sep, pieces[n]);
    }
  }
}

/** `sort_by_cached_key` (library/alloc/src/slice.rs): the keys are sorted with their indices, and the slice
  * is then brought into that order in place, by chasing through the indices already used. */
module SortByKey {
  import opened Basics

  const U32_MAX: nat := 0xFFFF_FFFF

  /** What a total order of keys gives; keys that compare equal may still differ. */
  ghost predicate TotalOrder<K(!new)>(le: (K, K) -> bool) {
    && (forall a, b :: le(a, b) || le(b, a))
    && (forall a, b, c :: le(a, b) && le(b, c) ==> le(a, c))
  }

  /** The order of (key, index) pairs. */
  predicate Before<K>(le: (K, K) -> bool, a: (K, nat), b: (K, nat)) {
    le(a.0, b.0) && (le(b.0, a.0) ==> a.1 < b.1)
  }

  // ---------------------------------------------------------------- the reference

  /** Puts index `n` after all whose key is not greater. */
  function Insert<K>(keys: seq<K>, le: (K, K) -> bool, order: seq<nat>, n: nat): seq<nat>
    requires n < |keys| && forall i :: 0 <= i < |order| ==> order[i] < |keys|
  {
    if order == [] then [n]
    else if le(keys[order[|order| - 1]], keys[n]) then order + [n]
    else Insert(keys, le, order[..|order| - 1], n) + [order[|order| - 1]]
  }

  /** The stable order of the first `n` keys, by insertion. */
  function StableOrder<K>(keys: seq<K>, le: (K, K) -> bool, n: nat): (order: seq<nat>)
    requires n <= |keys|
    ensures forall i :: 0 <= i < |order| ==> order[i] < n
    decreases n
  {
    if n == 0 then []
    else
      InsertRange(keys, le, StableOrder(keys, le, n - 1), n - 1);
      Insert(keys, le, StableOrder(keys, le, n - 1), n - 1)
  }

  lemma InsertRange<K>(keys: seq<K>, le: (K, K) -> bool, order: seq<nat>, n: nat)
    requires n < |keys| && forall i :: 0 <= i < |order| ==> order[i] < n
    ensures forall i :: 0 <= i < |Insert(keys, le, order, n)| ==> Insert(keys, le, order, n)[i] <= n
  {
  }

  function Arrange<T>(xs: seq<T>, order: seq<nat>): (r: seq<T>)
    requires forall i :: 0 <= i < |order| ==> order[i] < |xs|
    ensures |r| == |order|
  {
    seq(|order|, i requires 0 <= i < |order| => xs[order[i]])
  }

  function Tagged<K>(keys: seq<K>, order: seq<nat>): (r: seq<(K, nat)>)
    requires forall i :: 0 <= i < |order| ==> order[i] < |keys|
    ensures |r| == |order|
  {
    seq(|order|, i requires 0 <= i < |order| => (keys[order[i]], order[i]))
  }

  ghost predicate Sorted<K>(le: (K, K) -> bool, pairs: seq<(K, nat)>) {
    forall i, j :: 0 <= i < j < |pairs| ==> Before(le, pairs[i], pairs[j])
  }

  function Upto(n: nat): (r: seq<nat>)
    ensures |r| == n && forall i :: 0 <= i < n ==> r[i] == i
  {
    if n == 0 then [] else Upto(n - 1) + [n - 1]
  }

  lemma {:induction false} InsertSorted<K(!new)>(keys: seq<K>, le: (K, K) -> bool, order: seq<nat>, n: nat)
    requires TotalOrder(le) && n < |keys| && forall i :: 0 <= i < |order| ==> order[i] < n
    requires Sorted(le, Tagged(keys, order))
    ensures var r := Insert(keys, le, order, n);
      && multiset(r) == multiset(order) + multiset{n}
      && (forall i :: 0 <= i < |r| ==> r[i] <= n)
      && Sorted(le, Tagged(keys, r))
  {
    InsertRange(keys, le, order, n);
    if order != [] {
      var k := |order| - 1;
      var last := order[k];
      assert order == order[..k] + [last];
      var r := Insert(keys, le, order, n);
      var t := Tagged(keys, order);
      if le(keys[last], keys[n]) {
        forall i, j | 0 <= i < j < |r| ensures Before(le, Tagged(keys, r)[i], Tagged(keys, r)[j]) {
          if j == k + 1 && i < k {
            assert Before(le, t[i], t[k]);
          } else if j < k + 1 {
            assert Before(le, t[i], t[j]);
          }
        }
      } else {
        assert Tagged(keys, order[..k]) == t[..k];
        InsertSorted(keys, le, order[..k], n);
        var q := Insert(keys, le, order[..k], n);
        forall i, j | 0 <= i < j < |r| ensures Before(le, Tagged(keys, r)[i], Tagged(keys, r)[j]) {
          if j == |r| - 1 {
            assert q[i] in multiset(q);
            if q[i] != n {
              assert q[i] in order[..k];
              var m :| 0 <= m < k && order[m] == q[i];
              assert Before(le, t[m], t[k]);
            }
          } else {
            assert Before(le, Tagged(keys, q)[i], Tagged(keys, q)[j]);
          }
        }
      }
    }
  }

  /** The reference is a stable sort: every index once, keys in order, and equal keys in index order. */
  lemma {:induction false} StableOrderIsStable<K(!new)>(keys: seq<K>, le: (K, K) -> bool, n: nat)
    requires TotalOrder(le) && n <= |keys|
    ensures multiset(StableOrder(keys, le, n)) == multiset(Upto(n))
    ensures Sorted(le, Tagged(keys, StableOrder(keys, le, n)))
  {
    if n > 0 {
      StableOrderIsStable(keys, le, n - 1);
      InsertSorted(keys, le, StableOrder(keys, le, n - 1), n - 1);
    }
  }

  lemma ArrangeNext<T>(xs: seq<T>, order: seq<nat>, k: nat)
    requires k < |xs| && forall i :: 0 <= i < |order| ==> order[i] < |xs|
    ensures multiset(Arrange(xs, order + [k])) == multiset(Arrange(xs, order)) + multiset{xs[k]}
  {
    assert Arrange(xs, order + [k]) == Arrange(xs, order) + [xs[k]];
  }

  lemma {:induction false} InsertArranges<T, K>(xs: seq<T>, keys: seq<K>, le: (K, K) -> bool, order: seq<nat>, n: nat)
    requires n < |keys| == |xs| && forall i :: 0 <= i < |order| ==> order[i] < |xs|
    requires forall i :: 0 <= i < |Insert(keys, le, order, n)| ==> Insert(keys, le, order, n)[i] < |xs|
    ensures multiset(Arrange(xs, Insert(keys, le, order, n))) == multiset(Arrange(xs, order)) + multiset{xs[n]}
  {
    if order == [] {
      ArrangeNext(xs, [], n);
    } else {
      var k := |order| - 1;
      if le(keys[order[k]], keys[n]) {
        ArrangeNext(xs, order, n);
      } else {
        var q := Insert(keys, le, order[..k], n);
        assert forall i :: 0 <= i < |q| ==> q[i] == Insert(keys, le, order, n)[i];
        InsertArranges(xs, keys, le, order[..k], n);
        ArrangeNext(xs, q, order[k]);
        ArrangeNext(xs, order[..k], order[k]);
        assert order == order[..k] + [order[k]];
      }
    }
  }

  /** The arranged elements are the elements. */
  lemma {:induction false} ArrangedIsPermutation<T, K>(xs: seq<T>, keys: seq<K>, le: (K, K) -> bool, n: nat)
    requires n <= |keys| == |xs|
    ensures multiset(Arrange(xs, StableOrder(keys, le, n))) == multiset(xs[..n])
  {
    if n > 0 {
      var order := StableOrder(keys, le, n - 1);
      InsertRange(keys, le, order, n - 1);
      calc {
        multiset(Arrange(xs, Insert(keys, le, order, n - 1)));
      ==  { InsertArranges(xs, keys, le, order, n - 1); }
        multiset(Arrange(xs, order)) + multiset{xs[n - 1]};
      ==  { ArrangedIsPermutation(xs, keys, le, n - 1); }
        multiset(xs[..n - 1]) + multiset{xs[n - 1]};
      ==  { TakeOne(xs, n - 1); }
        multiset(xs[..n]);
      }
    }
  }

  lemma TakeOne<T>(xs: seq<T>, n: nat)
    requires n < |xs|
    ensures multiset(xs[..n + 1]) == multiset(xs[..n]) + multiset{xs[n]}
  {
    assert xs[..n + 1] == xs[..n] + [xs[n]];
  }

  /** The slice holds what was at the indices `p`, each index once; keys do not descend, and where they compare
    * equal the indices ascend. */
  ghost predicate StablySorts<T, K>(was: seq<T>, now: seq<T>, keys: seq<K>, le: (K, K) -> bool, p: seq<nat>) {
    && |p| == |now| == |was| == |keys|
    && (forall i :: 0 <= i < |p| ==> p[i] < |was| && now[i] == was[p[i]])
    && (forall k :: 0 <= k < |was| ==> k in p)
    && (forall i, j :: 0 <= i < j < |p| ==>
          p[i] != p[j] && le(keys[p[i]], keys[p[j]]) && (le(keys[p[j]], keys[p[i]]) ==> p[i] < p[j]))
  }

  lemma {:induction false} OrderStablySorts<T, K(!new)>(xs: seq<T>, keys: seq<K>, le: (K, K) -> bool)
    requires TotalOrder(le) && |xs| == |keys|
    ensures var order := StableOrder(keys, le, |keys|);
      StablySorts(xs, Arrange(xs, order), keys, le, order)
  {
    var n := |keys|;
    var order := StableOrder(keys, le, n);
    StableOrderIsStable(keys, le, n);
    assert |multiset(order)| == |multiset(Upto(n))| == n;
    forall k: nat | k < n ensures k in order {
      assert Upto(n)[k] == k;
      assert k in multiset(Upto(n));
    }
    forall i, j | 0 <= i < j < |order|
      ensures order[i] != order[j] && le(keys[order[i]], keys[order[j]])
        && (le(keys[order[j]], keys[order[i]]) ==> order[i] < order[j])
    {
      assert Before(le, Tagged(keys, order)[i], Tagged(keys, order)[j]);
      OnceIn(order, i, j, n);
    }
  }

  /** No index occurs twice. */
  lemma {:induction false} OnceIn(order: seq<nat>, i: nat, j: nat, n: nat)
    requires multiset(order) == multiset(Upto(n)) && i < j < |order|
    ensures order[i] != order[j]
  {
    if order[i] == order[j] {
      TwiceCounted(order, i, j);
      UptoOnce(n, order[i]);
    }
  }

  // ---------------------------------------------------------------- what sorting the pairs gives

  /** Sorted by the order of pairs, as `sort_unstable` leaves it: no pair is before an earlier one. */
  ghost predicate NotDescending<K>(le: (K, K) -> bool, pairs: seq<(K, nat)>) {
    forall i, j :: 0 <= i < j < |pairs| ==> !Before(le, pairs[j], pairs[i])
  }

  lemma {:induction false} UptoOnce(n: nat, x: nat)
    ensures multiset(Upto(n))[x] == if x < n then 1 else 0
  {
    if n > 0 {
      UptoOnce(n - 1, x);
    }
  }

  lemma TwiceCounted<X>(s: seq<X>, i: nat, j: nat)
    requires i < j < |s| && s[i] == s[j]
    ensures multiset(s)[s[i]] >= 2
  {
    assert s == s[..j] + [s[j]] + s[j + 1..];
    assert s[i] in s[..j];
  }

  lemma {:induction false} TaggedCount<K>(keys: seq<K>, p: seq<nat>, x: (K, nat))
    requires forall i :: 0 <= i < |p| ==> p[i] < |keys|
    ensures multiset(Tagged(keys, p))[x] == if x.1 < |keys| && x.0 == keys[x.1] then multiset(p)[x.1] else 0
  {
    if p != [] {
      var k := |p| - 1;
      TaggedCount(keys, p[..k], x);
      assert p == p[..k] + [p[k]];
      assert Tagged(keys, p) == Tagged(keys, p[..k]) + [(keys[p[k]], p[k])];
    }
  }

  lemma {:induction false} TaggedSame<K>(keys: seq<K>, p: seq<nat>, q: seq<nat>)
    requires forall i :: 0 <= i < |p| ==> p[i] < |keys|
    requires forall i :: 0 <= i < |q| ==> q[i] < |keys|
    requires multiset(p) == multiset(q)
    ensures multiset(Tagged(keys, p)) == multiset(Tagged(keys, q))
  {
    forall x: (K, nat) ensures multiset(Tagged(keys, p))[x] == multiset(Tagged(keys, q))[x] {
      TaggedCount(keys, p, x);
      TaggedCount(keys, q, x);
    }
  }

  lemma {:induction false} SameHead<K(!new)>(le: (K, K) -> bool, a: seq<(K, nat)>, b: seq<(K, nat)>)
    requires TotalOrder(le) && Sorted(le, a) && Sorted(le, b) && multiset(a) == multiset(b) && a != []
    ensures b != [] && a[0] == b[0]
  {
    assert a[0] in multiset(b);
    assert b[0] in multiset(a);
    var m :| 0 <= m < |b| && b[m] == a[0];
    var l :| 0 <= l < |a| && a[l] == b[0];
    assert m > 0 ==> Before(le, b[0], a[0]);
    assert l > 0 ==> Before(le, a[0], b[0]);
  }

  lemma {:induction false} SortedUnique<K(!new)>(le: (K, K) -> bool, a: seq<(K, nat)>, b: seq<(K, nat)>)
    requires TotalOrder(le) && Sorted(le, a) && Sorted(le, b) && multiset(a) == multiset(b)
    ensures a == b
  {
    if a == [] {
      assert b == [];
    } else {
      SameHead(le, a, b);
      assert a == [a[0]] + a[1..] && b == [b[0]] + b[1..];
      assert multiset(a[1..]) == multiset(a) - multiset{a[0]};
      assert multiset(b[1..]) == multiset(b) - multiset{b[0]};
      SortedUnique(le, a[1..], b[1..]);
    }
  }

  lemma {:induction false} TagsDistinct<K(!new)>(keys: seq<K>, pairs: seq<(K, nat)>, i: nat, j: nat)
    requires multiset(pairs) == multiset(Tagged(keys, Upto(|keys|)))
    requires i < j < |pairs|
    ensures pairs[i].1 != pairs[j].1
  {
    var u := Upto(|keys|);
    var t := Tagged(keys, u);
    assert pairs[i] in multiset(t) && pairs[j] in multiset(t);
    if pairs[i].1 == pairs[j].1 {
      assert pairs[i] == pairs[j];
      TwiceCounted(pairs, i, j);
      TaggedCount(keys, u, pairs[i]);
      UptoOnce(|keys|, pairs[i].1);
      assert false;
    }
  }

  /** Whatever sort is used on the pairs, and be it unstable, it leaves the stable order. */
  lemma {:induction false} AnySortIsStable<K(!new)>(keys: seq<K>, le: (K, K) -> bool, pairs: seq<(K, nat)>)
    requires TotalOrder(le)
    requires multiset(pairs) == multiset(Tagged(keys, Upto(|keys|))) && NotDescending(le, pairs)
    ensures pairs == Tagged(keys, StableOrder(keys, le, |keys|))
  {
    forall i, j | 0 <= i < j < |pairs| ensures Before(le, pairs[i], pairs[j]) {
      TagsDistinct(keys, pairs, i, j);
    }
    StableOrderIsStable(keys, le, |keys|);
    TaggedSame(keys, StableOrder(keys, le, |keys|), Upto(|keys|));
    SortedUnique(le, pairs, Tagged(keys, StableOrder(keys, le, |keys|)));
  }

  // ---------------------------------------------------------------- index width

  /** `i as $t`, for an index type whose greatest value is `max`. */
  function Cast(i: nat, max: nat): nat {
    i % (max + 1)
  }

  /** `iter().map(f).enumerate()` with the indices cast. */
  function Enumerated<K>(keys: seq<K>, max: nat): (r: seq<(K, nat)>)
    ensures |r| == |keys|
  {
    seq(|keys|, i requires 0 <= i < |keys| => (keys[i], Cast(i, max)))
  }

  /** The cast loses nothing exactly when the length fits, which is what the code checks for `u32`. */
  lemma {:induction false} CastExactly<K>(keys: seq<K>, max: nat)
    ensures (forall i :: 0 <= i < |keys| ==> Cast(i, max) == i) <==> |keys| <= max + 1
    ensures |keys| <= max + 1 ==> Enumerated(keys, max) == Tagged(keys, Upto(|keys|))
  {
    if |keys| > max + 1 {
      assert Cast(max + 1, max) == 0;
    } else {
      forall i | 0 <= i < |keys| ensures Cast(i, max) == i {
        SmallCast(i, max);
      }
    }
  }

  lemma SmallCast(i: nat, max: nat)
    requires i <= max
    ensures Cast(i, max) == i
  {
  }

  // ---------------------------------------------------------------- the chase

  /** From `x`, the entries of finished positions lead upwards to `y`, the first one not below `i`. */
  predicate Leads(idx: seq<nat>, i: nat, x: nat, y: nat)
    requires i <= |idx|
    decreases i - x
  {
    if x >= i then x == y else idx[x] > x && Leads(idx, i, idx[x], y)
  }

  lemma {:induction false} LeadsOn(idx: seq<nat>, idx2: seq<nat>, i: nat, x: nat, y: nat)
    requires i < |idx| == |idx2| && forall k :: 0 <= k < i ==> idx2[k] == idx[k]
    requires Leads(idx, i, x, y)
    ensures y != i ==> Leads(idx2, i + 1, x, y)
    ensures y == i && idx2[i] > i ==> Leads(idx2, i + 1, x, idx2[i])
    decreases i - x
  {
    if x < i {
      LeadsOn(idx, idx2, i, idx[x], y);
    }
  }

  /** Where the loop stands before round `i`, `cur` naming the element now at each position and `pos` being
    * its inverse: positions below `i` are done, and from every element that is not placed yet the finished
    * entries lead to where it is now, so no chase for it can stop short or run in a circle. */
  ghost predicate Placed(p: seq<nat>, idx: seq<nat>, cur: seq<nat>, pos: seq<nat>, i: nat) {
    && |p| == |idx| == |cur| == |pos| && i <= |p|
    && (forall y :: 0 <= y < |cur| ==> cur[y] < |pos| && pos[cur[y]] == y)
    && (forall e :: 0 <= e < |pos| ==> pos[e] < |cur| && cur[pos[e]] == e)
    && (forall y :: 0 <= y < i ==> cur[y] == p[y])
    && (forall y :: i <= y < |idx| ==> idx[y] == p[y])
    && (forall y :: i <= y < |cur| ==> Leads(idx, i, cur[y], y))
  }

  function Exchanged(q: seq<nat>, i: nat, j: nat): (r: seq<nat>)
    requires i < |q| && j < |q|
  {
    q[i := q[j]][j := q[i]]
  }

  lemma {:induction false} PlacedStep(p: seq<nat>, idx: seq<nat>, cur: seq<nat>, pos: seq<nat>, i: nat, y: nat)
    requires Placed(p, idx, cur, pos, i) && i <= y < |p| && cur[y] == p[i]
    requires i < |p|
    ensures Placed(p, idx[i := y], Exchanged(cur, i, y), Exchanged(pos, cur[i], cur[y]), i + 1)
  {
    var idx2, cur2 := idx[i := y], Exchanged(cur, i, y);
    forall z | i + 1 <= z < |p| ensures Leads(idx2, i + 1, cur2[z], z) {
      LeadsOn(idx, idx2, i, cur[z], z);
      if z == y {
        LeadsOn(idx, idx2, i, cur[i], i);
      }
    }
  }

  lemma {:induction false} PlacedFinds(p: seq<nat>, idx: seq<nat>, cur: seq<nat>, pos: seq<nat>, i: nat)
    returns (y: nat)
    requires Placed(p, idx, cur, pos, i) && i < |p| && p[i] < |p|
    requires forall j, k :: 0 <= j < k < |p| ==> p[j] != p[k]
    ensures i <= y < |p| && cur[y] == p[i]
    ensures idx[i] == p[i] && Leads(idx, i, idx[i], y)
  {
    y := pos[p[i]];
  }

  function Seconds<K>(pairs: seq<(K, nat)>): (r: seq<nat>)
    ensures |r| == |pairs|
  {
    seq(|pairs|, i requires 0 <= i < |pairs| => pairs[i].1)
  }

  /** Follows the finished entries up from the entry at `i`. */
  method Chase<K>(indices: array<(K, nat)>, i: nat, ghost y: nat) returns (index: nat)
    requires i < indices.Length && Leads(Seconds(indices[..]), i, indices[i].1, y)
    ensures index == y
  {
    index := indices[i].1;
    while index < i
      invariant Leads(Seconds(indices[..]), i, index, y)
      decreases i - index
    {
      index := indices[index].1;
    }
  }

  /** The element at each position is the one `cur` names. */
  ghost predicate Shows<T>(now: seq<T>, was: seq<T>, cur: seq<nat>) {
    |now| == |cur| && forall k :: 0 <= k < |cur| ==> cur[k] < |was| && now[k] == was[cur[k]]
  }

  lemma {:induction false} SwapShows<T>(now: seq<T>, was: seq<T>, cur: seq<nat>, i: nat, y: nat)
    requires Shows(now, was, cur) && i < |cur| && y < |cur|
    ensures Shows(now[i := now[y]][y := now[i]], was, Exchanged(cur, i, y))
  {
  }

  method Swap<T>(s: array<T>, i: nat, j: nat)
    requires i < s.Length && j < s.Length
    modifies s
    ensures s[..] == old(s[..])[i := old(s[j])][j := old(s[i])]
  {
    s[i], s[j] := s[j], s[i];
  }

  lemma {:induction false} PlacedStart(p: seq<nat>)
    ensures Placed(p, p, Upto(|p|), Upto(|p|), 0)
  {
  }

  lemma {:induction false} PlacedEnd<T>(p: seq<nat>, idx: seq<nat>, cur: seq<nat>, pos: seq<nat>, now: seq<T>,
                                        was: seq<T>)
    requires Placed(p, idx, cur, pos, |p|) && Shows(now, was, cur)
    ensures |now| == |p| && forall i :: 0 <= i < |p| ==> p[i] < |was| && now[i] == was[p[i]]
  {
  }

  /** One round of the loop: chase, note where the element was found, swap it here. */
  method Round<T, K>(s: array<T>, indices: array<(K, nat)>, i: nat,
    ghost p: seq<nat>, ghost was: seq<T>, ghost cur: seq<nat>, ghost pos: seq<nat>)
    returns (ghost cur2: seq<nat>, ghost pos2: seq<nat>)
    requires indices.Length == s.Length == |p| && (s as object) != (indices as object) && i < |p|
    requires p[i] < |p| && forall j, k :: 0 <= j < k < |p| ==> p[j] != p[k]
    requires Placed(p, Seconds(indices[..]), cur, pos, i) && Shows(s[..], was, cur)
    modifies s, indices
    ensures Placed(p, Seconds(indices[..]), cur2, pos2, i + 1) && Shows(s[..], was, cur2)
  {
    ghost var idx := Seconds(indices[..]);
    ghost var y := PlacedFinds(p, idx, cur, pos, i);
    PlacedStep(p, idx, cur, pos, i, y);
    SwapShows(s[..], was, cur, i, y);
    cur2, pos2 := Exchanged(cur, i, y), Exchanged(pos, cur[i], cur[y]);
    var index := Chase(indices, i, y);
    indices[i] := (indices[i].0, index);
    assert Seconds(indices[..]) == idx[i := y];
    Swap(s, i, index);
  }

  /** The macro `sort_by_key!`, on the pairs as sorted by `sort_unstable`: `p[i]` is where the element comes
    * from that belongs at `i`. */
  method Permute<T, K>(s: array<T>, indices: array<(K, nat)>, ghost p: seq<nat>)
    requires indices.Length == s.Length && (s as object) != (indices as object)
    requires p == Seconds(indices[..])
    requires forall i :: 0 <= i < |p| ==> p[i] < |p|
    requires forall j, k :: 0 <= j < k < |p| ==> p[j] != p[k]
    modifies s, indices
    ensures |p| == s.Length && forall i :: 0 <= i < |p| ==> s[..][i] == old(s[..])[p[i]]
  {
    ghost var was := s[..];
    ghost var cur: seq<nat>, pos: seq<nat> := Upto(s.Length), Upto(s.Length);
    PlacedStart(p);
    for i := 0 to s.Length
      invariant Placed(p, Seconds(indices[..]), cur, pos, i)
      invariant Shows(s[..], was, cur)
    {
      cur, pos := Round(s, indices, i, p, was, cur, pos);
    }
    PlacedEnd(p, Seconds(indices[..]), cur, pos, s[..], was);
  }

  /** `sort_by_cached_key`. `keys` is what the caller's function returned for the elements, each asked once;
    * `small` whether 32-bit indices make the pairs smaller; `sorted` the pairs as `sort_unstable` left them.
    * The slice becomes the stable sort of what it was. */
  method SortByCachedKey<T, K(!new)>(
    s: array<T>, keys: seq<K>, le: (K, K) -> bool, small: bool, sorted: array<(K, nat)>)
    requires TotalOrder(le) && |keys| == s.Length == sorted.Length <= USIZE_MAX
    requires (s as object) != (sorted as object)
    requires var max := if small && s.Length <= U32_MAX then U32_MAX else USIZE_MAX;
      multiset(sorted[..]) == multiset(Enumerated(keys, max))
    requires NotDescending(le, sorted[..])
    modifies s, sorted
    ensures s[..] == Arrange(old(s[..]), StableOrder(keys, le, |keys|))
    ensures exists p :: StablySorts(old(s[..]), s[..], keys, le, p)
  {
    ghost var order := StableOrder(keys, le, |keys|);
    ghost var pairs := sorted[..];
    CastExactly(keys, if small && s.Length <= U32_MAX then U32_MAX else USIZE_MAX);
    AnySortIsStable(keys, le, pairs);
    OrderStablySorts(s[..], keys, le);
    if s.Length < 2 {
      assert |order| == s.Length;
      return;
    }
    forall i, j | 0 <= i < j < s.Length ensures order[i] != order[j] {
      TagsDistinct(keys, pairs, i, j);
    }
    assert Seconds(pairs) == order;
    Permute(s, sorted, order);
  }
}

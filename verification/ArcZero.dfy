/** When a strong count of 0 is permanent. */
module ArcZero {
  import opened Basics
  import opened ArcMachine
  import opened ArcInvariant
  import opened ArcFrames
  import opened ArcLoads
  import opened ArcSteps
  import opened ArcTheorems
  import opened ArcRace

  // ----- A zero that is not -----

  lemma UniqueSetUp(v: int) returns (s: State)
    ensures s == Start(FromUnique, v, {0, 1})
    ensures Snap(s, Idle, Idle, [0], 1, Init(v), [], 0) && s.handles.Keys == {0} && Unborrowed(s, 0, Unique)
  {
    s := Start(FromUnique, v, {0, 1});
  }

  lemma Lend(run: seq<State>, labels: seq<Label>, v: int, s: State) returns (run2: seq<State>, s2: State)
    requires Reaches(run, labels, FromUnique, v, s)
    requires Snap(s, Idle, Idle, [0], 1, Init(v), [], 0) && s.handles.Keys == {0}
    requires Unborrowed(s, 0, Unique)
    ensures Reaches(run2, labels + [TakeSh(0, 0)], FromUnique, v, s2) && run2 == run + [s2]
    ensures Snap(s2, Sh(0), Idle, [0], 1, Init(v), [], 0) && s2.handles.Keys == {0}
    ensures HasKind(s2, 0, Unique) && s2.handles[0].shared == {0} && s2.handles[0].excl.None?
  {
    s2 := Apply(s, TakeSh(0, 0));
    run2 := run + [s2];
    Go(run, labels, FromUnique, v, s, TakeSh(0, 0), s2);
  }

  lemma Downgrades(run: seq<State>, labels: seq<Label>, v: int, s: State) returns (run2: seq<State>, s2: State)
    requires Reaches(run, labels, FromUnique, v, s)
    requires Snap(s, Sh(0), Idle, [0], 1, Init(v), [], 0) && s.handles.Keys == {0}
    requires HasKind(s, 0, Unique) && s.handles[0].shared == {0} && s.handles[0].excl.None?
    ensures Reaches(run2, labels + [WeakAdd(0, 1)], FromUnique, v, s2) && run2 == run + [s2]
    ensures Snap(s2, Sh(0), Idle, [0], 2, Init(v), [], 0) && s2.handles.Keys == {0, 1}
    ensures HasKind(s2, 0, Unique) && s2.handles[0].shared == {0} && s2.handles[0].excl.None? && Unborrowed(s2, 1, Weak)
  {
    s2 := Apply(s, WeakAdd(0, 1));
    run2 := run + [s2];
    Go(run, labels, FromUnique, v, s, WeakAdd(0, 1), s2);
  }

  lemma Returns(run: seq<State>, labels: seq<Label>, v: int, s: State) returns (run2: seq<State>, s2: State)
    requires Reaches(run, labels, FromUnique, v, s)
    requires Snap(s, Sh(0), Idle, [0], 2, Init(v), [], 0) && s.handles.Keys == {0, 1}
    requires HasKind(s, 0, Unique) && s.handles[0].shared == {0} && s.handles[0].excl.None? && Unborrowed(s, 1, Weak)
    ensures Reaches(run2, labels + [Give(0)], FromUnique, v, s2) && run2 == run + [s2]
    ensures Snap(s2, Idle, Idle, [0], 2, Init(v), [], 0) && s2.handles.Keys == {0, 1}
    ensures Unborrowed(s2, 0, Unique) && Unborrowed(s2, 1, Weak)
  {
    s2 := Apply(s, Give(0));
    run2 := run + [s2];
    Go(run, labels, FromUnique, v, s, Give(0), s2);
  }

  lemma LendWeak(run: seq<State>, labels: seq<Label>, v: int, s: State) returns (run2: seq<State>, s2: State)
    requires Reaches(run, labels, FromUnique, v, s)
    requires Snap(s, Idle, Idle, [0], 2, Init(v), [], 0) && s.handles.Keys == {0, 1}
    requires Unborrowed(s, 0, Unique) && Unborrowed(s, 1, Weak)
    ensures Reaches(run2, labels + [TakeSh(1, 1)], FromUnique, v, s2) && run2 == run + [s2]
    ensures Snap(s2, Idle, Sh(1), [0], 2, Init(v), [], 0) && s2.handles.Keys == {0, 1}
    ensures Unborrowed(s2, 0, Unique) && HasKind(s2, 1, Weak)
  {
    s2 := Apply(s, TakeSh(1, 1));
    run2 := run + [s2];
    Go(run, labels, FromUnique, v, s, TakeSh(1, 1), s2);
  }

  lemma ReadsZeroState(v: int, s: State) returns (s2: State)
    requires Snap(s, Idle, Sh(1), [0], 2, Init(v), [], 0) && s.handles.Keys == {0, 1}
    requires Unborrowed(s, 0, Unique) && HasKind(s, 1, Weak)
    ensures Enabled(s, UpLoad(1, 0)) && s2 == Apply(s, UpLoad(1, 0))
    ensures Snap(s2, Idle, Up(1, 0), [0], 2, Init(v), [], 0) && s2.handles.Keys == {0, 1}
    ensures Unborrowed(s2, 0, Unique) && HasKind(s2, 1, Weak)
  {
    s2 := LoadS(s, 1, 0, false, Up(1, 0));
  }

  lemma ReadsZero(run: seq<State>, labels: seq<Label>, v: int, s: State) returns (run2: seq<State>, s2: State)
    requires Reaches(run, labels, FromUnique, v, s)
    requires Snap(s, Idle, Sh(1), [0], 2, Init(v), [], 0) && s.handles.Keys == {0, 1}
    requires Unborrowed(s, 0, Unique) && HasKind(s, 1, Weak)
    ensures Reaches(run2, labels + [UpLoad(1, 0)], FromUnique, v, s2) && run2 == run + [s2]
    ensures Snap(s2, Idle, Up(1, 0), [0], 2, Init(v), [], 0) && s2.handles.Keys == {0, 1}
    ensures Unborrowed(s2, 0, Unique) && HasKind(s2, 1, Weak)
  {
    s2 := ReadsZeroState(v, s);
    run2 := run + [s2];
    Go(run, labels, FromUnique, v, s, UpLoad(1, 0), s2);
  }

  lemma GivesNone(run: seq<State>, labels: seq<Label>, v: int, s: State) returns (run2: seq<State>, s2: State)
    requires Reaches(run, labels, FromUnique, v, s)
    requires Snap(s, Idle, Up(1, 0), [0], 2, Init(v), [], 0) && s.handles.Keys == {0, 1}
    requires Unborrowed(s, 0, Unique) && HasKind(s, 1, Weak)
    ensures Reaches(run2, labels + [UpEnd(1)], FromUnique, v, s2) && run2 == run + [s2]
    ensures Snap(s2, Idle, Sh(1), [0], 2, Init(v), [], 0) && s2.handles.Keys == {0, 1}
    ensures Unborrowed(s2, 0, Unique) && HasKind(s2, 1, Weak)
  {
    s2 := Apply(s, UpEnd(1));
    run2 := run + [s2];
    Go(run, labels, FromUnique, v, s, UpEnd(1), s2);
  }

  lemma MovesOwner(run: seq<State>, labels: seq<Label>, v: int, s: State) returns (run2: seq<State>, s2: State)
    requires Reaches(run, labels, FromUnique, v, s)
    requires Snap(s, Idle, Sh(1), [0], 2, Init(v), [], 0) && s.handles.Keys == {0, 1}
    requires Unborrowed(s, 0, Unique) && HasKind(s, 1, Weak)
    ensures Reaches(run2, labels + [TakeEx(0, 0)], FromUnique, v, s2) && run2 == run + [s2]
    ensures Snap(s2, Ex(0), Sh(1), [0], 2, Init(v), [], 0) && s2.handles.Keys == {0, 1}
    ensures HasKind(s2, 0, Unique) && HasKind(s2, 1, Weak)
  {
    s2 := Apply(s, TakeEx(0, 0));
    run2 := run + [s2];
    Go(run, labels, FromUnique, v, s, TakeEx(0, 0), s2);
  }

  lemma AddsOne(v: int, s: State) returns (s2: State)
    requires Snap(s, Ex(0), Sh(1), [0], 2, Init(v), [], 0) && s.handles.Keys == {0, 1}
    requires HasKind(s, 0, Unique) && HasKind(s, 1, Weak)
    ensures s2 == SetKind(RmwS(s, 0, 1, false, true, Ex(0)), 0, Strong)
    ensures Snap(s2, Ex(0), Sh(1), [0, 1], 2, Init(v), [], 0) && s2.handles.Keys == {0, 1}
    ensures HasKind(s2, 0, Strong) && HasKind(s2, 1, Weak)
  {
    s2 := SetKind(RmwS(s, 0, 1, false, true, Ex(0)), 0, Strong);
  }

  lemma StoresOne(v: int, s: State) returns (s2: State)
    requires Snap(s, Ex(0), Sh(1), [0], 2, Init(v), [], 0) && s.handles.Keys == {0, 1}
    requires HasKind(s, 0, Unique) && HasKind(s, 1, Weak)
    ensures s2 == SetKind(StoreS(s, 0, 1, Ex(0)), 0, Strong)
    ensures Snap(s2, Ex(0), Sh(1), [0, 1], 2, Init(v), [], 0) && s2.handles.Keys == {0, 1}
    ensures HasKind(s2, 0, Strong) && HasKind(s2, 1, Weak)
  {
    s2 := SetKind(StoreS(s, 0, 1, Ex(0)), 0, Strong);
  }

  lemma PublishesState(v: int, s: State) returns (s2: State)
    requires Snap(s, Ex(0), Sh(1), [0], 2, Init(v), [], 0) && s.handles.Keys == {0, 1}
    requires HasKind(s, 0, Unique) && HasKind(s, 1, Weak)
    ensures Enabled(s, Publish(0)) && s2 == Apply(s, Publish(0))
    ensures Snap(s2, Ex(0), Sh(1), [0, 1], 2, Init(v), [], 0) && s2.handles.Keys == {0, 1}
    ensures HasKind(s2, 0, Strong) && HasKind(s2, 1, Weak)
  {
    if s.origin.FromCyclic? { s2 := AddsOne(v, s); } else { s2 := StoresOne(v, s); }
  }

  lemma Publishes(run: seq<State>, labels: seq<Label>, v: int, s: State) returns (run2: seq<State>, s2: State)
    requires Reaches(run, labels, FromUnique, v, s)
    requires Snap(s, Ex(0), Sh(1), [0], 2, Init(v), [], 0) && s.handles.Keys == {0, 1}
    requires HasKind(s, 0, Unique) && HasKind(s, 1, Weak)
    ensures Reaches(run2, labels + [Publish(0)], FromUnique, v, s2) && run2 == run + [s2]
    ensures Snap(s2, Ex(0), Sh(1), [0, 1], 2, Init(v), [], 0) && s2.handles.Keys == {0, 1}
    ensures HasKind(s2, 0, Strong) && HasKind(s2, 1, Weak)
  {
    s2 := PublishesState(v, s);
    run2 := run + [s2];
    Go(run, labels, FromUnique, v, s, Publish(0), s2);
  }

  lemma ReadsOneState(v: int, s: State) returns (s2: State)
    requires Snap(s, Ex(0), Sh(1), [0, 1], 2, Init(v), [], 0) && s.handles.Keys == {0, 1}
    requires HasKind(s, 0, Strong) && HasKind(s, 1, Weak)
    ensures Enabled(s, UpLoad(1, 1)) && s2 == Apply(s, UpLoad(1, 1))
    ensures Snap(s2, Ex(0), Up(1, 1), [0, 1], 2, Init(v), [], 0) && s2.handles.Keys == {0, 1}
    ensures HasKind(s2, 0, Strong) && HasKind(s2, 1, Weak)
  {
    s2 := LoadS(s, 1, 1, false, Up(1, 1));
  }

  lemma ReadsOne(run: seq<State>, labels: seq<Label>, v: int, s: State) returns (run2: seq<State>, s2: State)
    requires Reaches(run, labels, FromUnique, v, s)
    requires Snap(s, Ex(0), Sh(1), [0, 1], 2, Init(v), [], 0) && s.handles.Keys == {0, 1}
    requires HasKind(s, 0, Strong) && HasKind(s, 1, Weak)
    ensures Reaches(run2, labels + [UpLoad(1, 1)], FromUnique, v, s2) && run2 == run + [s2]
    ensures Snap(s2, Ex(0), Up(1, 1), [0, 1], 2, Init(v), [], 0) && s2.handles.Keys == {0, 1}
    ensures HasKind(s2, 0, Strong) && HasKind(s2, 1, Weak)
  {
    s2 := ReadsOneState(v, s);
    run2 := run + [s2];
    Go(run, labels, FromUnique, v, s, UpLoad(1, 1), s2);
  }

  lemma GivesSomeState(v: int, s: State) returns (s2: State)
    requires Snap(s, Ex(0), Up(1, 1), [0, 1], 2, Init(v), [], 0) && s.handles.Keys == {0, 1}
    requires HasKind(s, 0, Strong) && HasKind(s, 1, Weak)
    ensures Enabled(s, UpCas(1, 2)) && s2 == Apply(s, UpCas(1, 2))
    ensures Snap(s2, Ex(0), Sh(1), [0, 1, 2], 2, Init(v), [], 0) && s2.handles.Keys == {0, 1, 2}
    ensures HasKind(s2, 0, Strong) && HasKind(s2, 1, Weak)
  {
    s2 := DoUpgrade(s, 1, 2);
  }

  lemma GivesSome(run: seq<State>, labels: seq<Label>, v: int, s: State) returns (run2: seq<State>, s2: State)
    requires Reaches(run, labels, FromUnique, v, s)
    requires Snap(s, Ex(0), Up(1, 1), [0, 1], 2, Init(v), [], 0) && s.handles.Keys == {0, 1}
    requires HasKind(s, 0, Strong) && HasKind(s, 1, Weak)
    ensures Reaches(run2, labels + [UpCas(1, 2)], FromUnique, v, s2) && run2 == run + [s2]
    ensures Snap(s2, Ex(0), Sh(1), [0, 1, 2], 2, Init(v), [], 0) && s2.handles.Keys == {0, 1, 2}
    ensures HasKind(s2, 0, Strong) && HasKind(s2, 1, Weak)
  {
    s2 := GivesSomeState(v, s);
    run2 := run + [s2];
    Go(run, labels, FromUnique, v, s, UpCas(1, 2), s2);
  }

  lemma WeakMade(run: seq<State>, labels: seq<Label>, v: int, s: State)
    returns (run2: seq<State>, labels2: seq<Label>, s2: State)
    requires Reaches(run, labels, FromUnique, v, s)
    requires Snap(s, Idle, Idle, [0], 1, Init(v), [], 0) && s.handles.Keys == {0}
    requires Unborrowed(s, 0, Unique)
    ensures labels2 == labels + [TakeSh(0, 0), WeakAdd(0, 1), Give(0)] && Reaches(run2, labels2, FromUnique, v, s2)
    ensures |run2| == |run| + 3 && run2[..|run|] == run
    ensures Snap(s2, Idle, Idle, [0], 2, Init(v), [], 0) && s2.handles.Keys == {0, 1}
    ensures Unborrowed(s2, 0, Unique) && Unborrowed(s2, 1, Weak)
  {
    run2, labels2, s2 := run, labels, s;
    run2, s2 := Lend(run2, labels2, v, s2);
    labels2 := labels2 + [TakeSh(0, 0)];
    run2, s2 := Downgrades(run2, labels2, v, s2);
    labels2 := labels2 + [WeakAdd(0, 1)];
    run2, s2 := Returns(run2, labels2, v, s2);
    labels2 := labels2 + [Give(0)];
  }

  lemma FirstTry(run: seq<State>, labels: seq<Label>, v: int, s: State)
    returns (run2: seq<State>, labels2: seq<Label>, s2: State)
    requires Reaches(run, labels, FromUnique, v, s)
    requires Snap(s, Idle, Idle, [0], 2, Init(v), [], 0) && s.handles.Keys == {0, 1}
    requires Unborrowed(s, 0, Unique) && Unborrowed(s, 1, Weak)
    ensures labels2 == labels + [TakeSh(1, 1), UpLoad(1, 0), UpEnd(1)] && Reaches(run2, labels2, FromUnique, v, s2)
    ensures |run2| == |run| + 3 && run2[..|run|] == run
    ensures Snap(s2, Idle, Sh(1), [0], 2, Init(v), [], 0) && s2.handles.Keys == {0, 1}
    ensures Unborrowed(s2, 0, Unique) && HasKind(s2, 1, Weak)
  {
    run2, labels2, s2 := run, labels, s;
    run2, s2 := LendWeak(run2, labels2, v, s2);
    labels2 := labels2 + [TakeSh(1, 1)];
    run2, s2 := ReadsZero(run2, labels2, v, s2);
    labels2 := labels2 + [UpLoad(1, 0)];
    run2, s2 := GivesNone(run2, labels2, v, s2);
    labels2 := labels2 + [UpEnd(1)];
  }

  lemma Published(run: seq<State>, labels: seq<Label>, v: int, s: State)
    returns (run2: seq<State>, labels2: seq<Label>, s2: State)
    requires Reaches(run, labels, FromUnique, v, s)
    requires Snap(s, Idle, Sh(1), [0], 2, Init(v), [], 0) && s.handles.Keys == {0, 1}
    requires Unborrowed(s, 0, Unique) && HasKind(s, 1, Weak)
    ensures labels2 == labels + [TakeEx(0, 0), Publish(0)] && Reaches(run2, labels2, FromUnique, v, s2)
    ensures |run2| == |run| + 2 && run2[..|run|] == run
    ensures Snap(s2, Ex(0), Sh(1), [0, 1], 2, Init(v), [], 0) && s2.handles.Keys == {0, 1}
    ensures HasKind(s2, 0, Strong) && HasKind(s2, 1, Weak)
  {
    run2, labels2, s2 := run, labels, s;
    run2, s2 := MovesOwner(run2, labels2, v, s2);
    labels2 := labels2 + [TakeEx(0, 0)];
    run2, s2 := Publishes(run2, labels2, v, s2);
    labels2 := labels2 + [Publish(0)];
  }

  lemma SecondTry(run: seq<State>, labels: seq<Label>, v: int, s: State)
    returns (run2: seq<State>, labels2: seq<Label>, s2: State)
    requires Reaches(run, labels, FromUnique, v, s)
    requires Snap(s, Ex(0), Sh(1), [0, 1], 2, Init(v), [], 0) && s.handles.Keys == {0, 1}
    requires HasKind(s, 0, Strong) && HasKind(s, 1, Weak)
    ensures labels2 == labels + [UpLoad(1, 1), UpCas(1, 2)] && Reaches(run2, labels2, FromUnique, v, s2)
    ensures |run2| == |run| + 2 && run2[..|run|] == run
    ensures Snap(s2, Ex(0), Sh(1), [0, 1, 2], 2, Init(v), [], 0) && s2.handles.Keys == {0, 1, 2}
    ensures HasKind(s2, 0, Strong) && HasKind(s2, 1, Weak)
  {
    run2, labels2, s2 := run, labels, s;
    run2, s2 := ReadsOne(run2, labels2, v, s2);
    labels2 := labels2 + [UpLoad(1, 1)];
    run2, s2 := GivesSome(run2, labels2, v, s2);
    labels2 := labels2 + [UpCas(1, 2)];
  }

  lemma FirstHalf(v: int) returns (run: seq<State>, labels: seq<Label>, s: State)
    ensures labels == [TakeSh(0, 0), WeakAdd(0, 1), Give(0), TakeSh(1, 1), UpLoad(1, 0), UpEnd(1)]
    ensures Reaches(run, labels, FromUnique, v, s) && |run| == 7
    ensures Snap(s, Idle, Sh(1), [0], 2, Init(v), [], 0) && s.handles.Keys == {0, 1}
    ensures Unborrowed(s, 0, Unique) && HasKind(s, 1, Weak)
  {
    s := UniqueSetUp(v);
    run, labels := [s], [];
    run, labels, s := WeakMade(run, labels, v, s);
    run, labels, s := FirstTry(run, labels, v, s);
  }

  lemma SecondHalf(run: seq<State>, labels: seq<Label>, v: int, s: State)
    returns (run2: seq<State>, labels2: seq<Label>, s2: State)
    requires Reaches(run, labels, FromUnique, v, s)
    requires Snap(s, Idle, Sh(1), [0], 2, Init(v), [], 0) && s.handles.Keys == {0, 1}
    requires Unborrowed(s, 0, Unique) && HasKind(s, 1, Weak)
    ensures labels2 == labels + [TakeEx(0, 0), Publish(0), UpLoad(1, 1), UpCas(1, 2)]
    ensures Reaches(run2, labels2, FromUnique, v, s2) && |run2| == |run| + 4 && run2[..|run|] == run && SVal(s2) == 2
  {
    run2, labels2, s2 := Published(run, labels, v, s);
    ghost var first := run2;
    run2, labels2, s2 := SecondTry(run2, labels2, v, s2);
    assert run2[..|run|] == run2[..|first|][..|run|] == run;
  }

  /** A thread's `upgrade` reads 0 and gives `None`; then the `UniqueArc` becomes an `Arc`, and the
      same thread's next `upgrade` succeeds. So a 0 that `upgrade` reads is not always permanent. */
  lemma {:induction false} ZeroIsNotAlwaysPermanent(v: int) returns (run: seq<State>, labels: seq<Label>)
    ensures RunFrom(run, labels, FromUnique, v, {0, 1}) && |labels| == 10
    ensures labels[4] == UpLoad(1, 0) && labels[5] == UpEnd(1) && SVal(run[6]) == 0
    ensures labels[9] == UpCas(1, 2) && SVal(run[10]) == 2
  {
    var half, labels1, s := FirstHalf(v);
    var s2;
    run, labels, s2 := SecondHalf(half, labels1, v, s);
    assert run[6] == run[..7][6] == half[6] == s;
  }
}

/** `try_unwrap(..).ok()` is not `into_inner`: a run in which both owners try and both fail. */
module ArcRace {
  import opened Basics
  import opened ArcMachine
  import opened ArcTheorems

  /** What matters of a state of the run: two threads, at most two handles, and nothing over the limit. */
  predicate Snap(s: State, p0: Pc, p1: Pc, strong: seq<nat>, weak: nat, data: Data, ended: seq<End>, frees: nat) {
    && !s.aborted && s.threads.Keys == {0, 1} && s.threads[0].pc == p0 && s.threads[1].pc == p1
    && |s.strong| == |strong| > 0 && (forall i :: 0 <= i < |strong| ==> s.strong[i].val == strong[i])
    && WVal(s) == weak && |s.weak| > 0
    && s.data == data && s.ended == ended && s.frees == frees
    && (forall e <- s.events :: e.place.OnStrong? ==> e.place.idx < |strong|)
    && !p0.AbortS? && !p0.AbortW? && !p1.AbortS? && !p1.AbortW?
  }

  predicate Unborrowed(s: State, h: Hid, k: Kind) {
    HasKind(s, h, k) && s.handles[h].excl.None? && s.handles[h].shared == {}
  }

  predicate Gone(s: State, h: Hid) {
    h in s.handles && !s.handles[h].live
  }

  /** No thread is over a limit. */
  predicate Calm(s: State) {
    forall t <- s.threads :: !s.threads[t].pc.AbortS? && !s.threads[t].pc.AbortW?
  }

  lemma SnapIsCalm(s: State, p0: Pc, p1: Pc, strong: seq<nat>, weak: nat, data: Data, ended: seq<End>, frees: nat)
    requires Snap(s, p0, p1, strong, weak, data, ended, frees)
    ensures Calm(s)
  {}

  lemma CalmIsTame(s: State)
    requires Calm(s)
    ensures Tame(s)
  {
    assert OverS(s) == {} && OverW(s) == {};
  }

  /** A run so far, and the state it has reached. */
  ghost predicate Reaches(states: seq<State>, labels: seq<Label>, origin: Origin, v: int, s: State) {
    RunFrom(states, labels, origin, v, {0, 1}) && states[|labels|] == s
  }

  lemma Go(states: seq<State>, labels: seq<Label>, origin: Origin, v: int, s: State, a: Label, s2: State)
    requires Reaches(states, labels, origin, v, s) && Enabled(s, a) && s2 == Apply(s, a) && Calm(s) && Calm(s2)
    ensures Reaches(states + [s2], labels + [a], origin, v, s2)
  {
    var states2, labels2 := states + [s2], labels + [a];
    CalmIsTame(s);
    CalmIsTame(s2);
    forall i | 0 <= i < |labels2| ensures StepAt(states2, labels2, i) {
      if i < |labels| { assert StepAt(states, labels, i); }
    }
  }

  lemma SetUp(v: int) returns (s: State)
    ensures s == Start(FromNew, v, {0, 1})
    ensures Snap(s, Idle, Idle, [1], 1, Init(v), [], 0) && s.handles.Keys == {0} && Unborrowed(s, 0, Strong)
  {
    s := Start(FromNew, v, {0, 1});
  }

  lemma Borrow(run: seq<State>, labels: seq<Label>, v: int, s: State) returns (run2: seq<State>, s2: State)
    requires Reaches(run, labels, FromNew, v, s)
    requires Snap(s, Idle, Idle, [1], 1, Init(v), [], 0) && s.handles.Keys == {0} && Unborrowed(s, 0, Strong)
    ensures Reaches(run2, labels + [TakeSh(0, 0)], FromNew, v, s2)
    ensures Snap(s2, Sh(0), Idle, [1], 1, Init(v), [], 0) && s2.handles.Keys == {0}
    ensures HasKind(s2, 0, Strong) && s2.handles[0].shared == {0} && s2.handles[0].excl.None?
  {
    s2 := Apply(s, TakeSh(0, 0));
    run2 := run + [s2];
    Go(run, labels, FromNew, v, s, TakeSh(0, 0), s2);
  }

  lemma CloneIt(run: seq<State>, labels: seq<Label>, v: int, s: State) returns (run2: seq<State>, s2: State)
    requires Reaches(run, labels, FromNew, v, s)
    requires Snap(s, Sh(0), Idle, [1], 1, Init(v), [], 0) && s.handles.Keys == {0}
    requires HasKind(s, 0, Strong) && s.handles[0].shared == {0} && s.handles[0].excl.None?
    ensures Reaches(run2, labels + [CloneStrong(0, 1)], FromNew, v, s2)
    ensures Snap(s2, Sh(0), Idle, [1, 2], 1, Init(v), [], 0) && s2.handles.Keys == {0, 1} && Unborrowed(s2, 1, Strong)
    ensures HasKind(s2, 0, Strong) && s2.handles[0].shared == {0} && s2.handles[0].excl.None?
  {
    s2 := Apply(s, CloneStrong(0, 1));
    run2 := run + [s2];
    Go(run, labels, FromNew, v, s, CloneStrong(0, 1), s2);
  }

  lemma GiveBack(run: seq<State>, labels: seq<Label>, v: int, s: State) returns (run2: seq<State>, s2: State)
    requires Reaches(run, labels, FromNew, v, s)
    requires Snap(s, Sh(0), Idle, [1, 2], 1, Init(v), [], 0) && s.handles.Keys == {0, 1} && Unborrowed(s, 1, Strong)
    requires HasKind(s, 0, Strong) && s.handles[0].shared == {0} && s.handles[0].excl.None?
    ensures Reaches(run2, labels + [ArcMachine.Give(0)], FromNew, v, s2)
    ensures Snap(s2, Idle, Idle, [1, 2], 1, Init(v), [], 0) && s2.handles.Keys == {0, 1}
    ensures Unborrowed(s2, 0, Strong) && Unborrowed(s2, 1, Strong)
  {
    s2 := Apply(s, ArcMachine.Give(0));
    run2 := run + [s2];
    Go(run, labels, FromNew, v, s, ArcMachine.Give(0), s2);
  }

  lemma MoveIn(run: seq<State>, labels: seq<Label>, v: int, s: State) returns (run2: seq<State>, s2: State)
    requires Reaches(run, labels, FromNew, v, s)
    requires Snap(s, Idle, Idle, [1, 2], 1, Init(v), [], 0)
    requires s.handles.Keys == {0, 1} && Unborrowed(s, 0, Strong) && Unborrowed(s, 1, Strong)
    ensures Reaches(run2, labels + [TakeEx(0, 0)], FromNew, v, s2)
    ensures Snap(s2, Ex(0), Idle, [1, 2], 1, Init(v), [], 0)
    ensures s2.handles.Keys == {0, 1} && HasKind(s2, 0, Strong) && Unborrowed(s2, 1, Strong)
  {
    s2 := Apply(s, TakeEx(0, 0));
    run2 := run + [s2];
    Go(run, labels, FromNew, v, s, TakeEx(0, 0), s2);
  }

  lemma MoveInOther(run: seq<State>, labels: seq<Label>, v: int, s: State) returns (run2: seq<State>, s2: State)
    requires Reaches(run, labels, FromNew, v, s)
    requires Snap(s, Ex(0), Idle, [1, 2], 1, Init(v), [], 0)
    requires s.handles.Keys == {0, 1} && HasKind(s, 0, Strong) && Unborrowed(s, 1, Strong)
    ensures Reaches(run2, labels + [TakeEx(1, 1)], FromNew, v, s2)
    ensures Snap(s2, Ex(0), Ex(1), [1, 2], 1, Init(v), [], 0)
    ensures s2.handles.Keys == {0, 1} && HasKind(s2, 0, Strong) && HasKind(s2, 1, Strong)
  {
    s2 := Apply(s, TakeEx(1, 1));
    run2 := run + [s2];
    Go(run, labels, FromNew, v, s, TakeEx(1, 1), s2);
  }

  lemma Fails(run: seq<State>, labels: seq<Label>, v: int, s: State) returns (run2: seq<State>, s2: State)
    requires Reaches(run, labels, FromNew, v, s)
    requires Snap(s, Ex(0), Ex(1), [1, 2], 1, Init(v), [], 0)
    requires s.handles.Keys == {0, 1} && HasKind(s, 0, Strong) && HasKind(s, 1, Strong)
    ensures Reaches(run2, labels + [UnwrapFail(0, 1)], FromNew, v, s2)
    ensures Snap(s2, Ex(0), Ex(1), [1, 2], 1, Init(v), [], 0)
    ensures s2.handles.Keys == {0, 1} && HasKind(s2, 0, Strong) && HasKind(s2, 1, Strong)
  {
    s2 := Apply(s, UnwrapFail(0, 1));
    run2 := run + [s2];
    Go(run, labels, FromNew, v, s, UnwrapFail(0, 1), s2);
  }

  lemma FailsToo(run: seq<State>, labels: seq<Label>, v: int, s: State) returns (run2: seq<State>, s2: State)
    requires Reaches(run, labels, FromNew, v, s)
    requires Snap(s, Ex(0), Ex(1), [1, 2], 1, Init(v), [], 0)
    requires s.handles.Keys == {0, 1} && HasKind(s, 0, Strong) && HasKind(s, 1, Strong)
    ensures Reaches(run2, labels + [UnwrapFail(1, 1)], FromNew, v, s2)
    ensures Snap(s2, Ex(0), Ex(1), [1, 2], 1, Init(v), [], 0)
    ensures s2.handles.Keys == {0, 1} && HasKind(s2, 0, Strong) && HasKind(s2, 1, Strong)
  {
    s2 := Apply(s, UnwrapFail(1, 1));
    run2 := run + [s2];
    Go(run, labels, FromNew, v, s, UnwrapFail(1, 1), s2);
  }

  lemma DropsIt(run: seq<State>, labels: seq<Label>, v: int, s: State) returns (run2: seq<State>, s2: State)
    requires Reaches(run, labels, FromNew, v, s)
    requires Snap(s, Ex(0), Ex(1), [1, 2], 1, Init(v), [], 0)
    requires s.handles.Keys == {0, 1} && HasKind(s, 0, Strong) && HasKind(s, 1, Strong)
    ensures Reaches(run2, labels + [StrongSub(0, DropIt)], FromNew, v, s2)
    ensures Snap(s2, Idle, Ex(1), [1, 2, 1], 1, Init(v), [], 0)
    ensures s2.handles.Keys == {0, 1} && Gone(s2, 0) && HasKind(s2, 1, Strong)
  {
    SubStep(s, 0);
    SubNotLast(s, v);
    s2 := Apply(s, StrongSub(0, DropIt));
    run2 := run + [s2];
    Go(run, labels, FromNew, v, s, StrongSub(0, DropIt), s2);
  }

  lemma DropsLast(run: seq<State>, labels: seq<Label>, v: int, s: State) returns (run2: seq<State>, s2: State)
    requires Reaches(run, labels, FromNew, v, s)
    requires Snap(s, Idle, Ex(1), [1, 2, 1], 1, Init(v), [], 0)
    requires s.handles.Keys == {0, 1} && Gone(s, 0) && HasKind(s, 1, Strong)
    ensures Reaches(run2, labels + [StrongSub(1, DropIt)], FromNew, v, s2)
    ensures Snap(s2, Idle, Zero(1, DropIt), [1, 2, 1, 0], 1, Init(v), [], 0)
    ensures s2.handles.Keys == {0, 1} && Gone(s2, 0) && HasKind(s2, 1, Unique)
  {
    SubStep(s, 1);
    SubLast(s, v);
    s2 := Apply(s, StrongSub(1, DropIt));
    run2 := run + [s2];
    Go(run, labels, FromNew, v, s, StrongSub(1, DropIt), s2);
  }

  lemma Fences(run: seq<State>, labels: seq<Label>, v: int, s: State) returns (run2: seq<State>, s2: State)
    requires Reaches(run, labels, FromNew, v, s)
    requires Snap(s, Idle, Zero(1, DropIt), [1, 2, 1, 0], 1, Init(v), [], 0)
    requires s.handles.Keys == {0, 1} && Gone(s, 0) && HasKind(s, 1, Unique)
    ensures Reaches(run2, labels + [Fence(1)], FromNew, v, s2)
    ensures Snap(s2, Idle, Own(1, DropIt), [1, 2, 1, 0], 1, Init(v), [], 0)
    ensures s2.handles.Keys == {0, 1} && Gone(s2, 0) && HasKind(s2, 1, Unique)
  {
    s2 := Apply(s, Fence(1));
    run2 := run + [s2];
    Go(run, labels, FromNew, v, s, Fence(1), s2);
  }

  lemma DestroysData(v: int, s: State) returns (s2: State)
    requires Snap(s, Idle, Own(1, DropIt), [1, 2, 1, 0], 1, Init(v), [], 0)
    requires s.handles.Keys == {0, 1} && Gone(s, 0) && HasKind(s, 1, Unique)
    ensures Enabled(s, EndData(1)) && s2 == Apply(s, EndData(1))
    ensures Snap(s2, Idle, WSub(1), [1, 2, 1, 0], 1, Ended, [End(DropIt, v)], 0)
    ensures s2.handles.Keys == {0, 1} && Gone(s2, 0) && HasKind(s2, 1, Unique)
  {
    s2 := DoEndData(s, 1);
    assert s.ended == [] && s2.ended == [End(DropIt, v)];
  }

  lemma Destroys(run: seq<State>, labels: seq<Label>, v: int, s: State) returns (run2: seq<State>, s2: State)
    requires Reaches(run, labels, FromNew, v, s)
    requires Snap(s, Idle, Own(1, DropIt), [1, 2, 1, 0], 1, Init(v), [], 0)
    requires s.handles.Keys == {0, 1} && Gone(s, 0) && HasKind(s, 1, Unique)
    ensures Reaches(run2, labels + [EndData(1)], FromNew, v, s2)
    ensures Snap(s2, Idle, WSub(1), [1, 2, 1, 0], 1, Ended, [End(DropIt, v)], 0)
    ensures s2.handles.Keys == {0, 1} && Gone(s2, 0) && HasKind(s2, 1, Unique)
  {
    s2 := DestroysData(v, s);
    run2 := run + [s2];
    Go(run, labels, FromNew, v, s, EndData(1), s2);
  }

  lemma DropsWeakState(v: int, s: State) returns (s2: State)
    requires Snap(s, Idle, WSub(1), [1, 2, 1, 0], 1, Ended, [End(DropIt, v)], 0)
    requires s.handles.Keys == {0, 1} && Gone(s, 0) && HasKind(s, 1, Unique)
    ensures Enabled(s, WeakSub(1)) && s2 == Apply(s, WeakSub(1))
    ensures Snap(s2, Idle, FreeF, [1, 2, 1, 0], 0, Ended, [End(DropIt, v)], 0)
    ensures s2.handles.Keys == {0, 1} && Gone(s2, 0) && Gone(s2, 1)
  {
    s2 := DoWeakSub(s, 1);
  }

  lemma DropsWeak(run: seq<State>, labels: seq<Label>, v: int, s: State) returns (run2: seq<State>, s2: State)
    requires Reaches(run, labels, FromNew, v, s)
    requires Snap(s, Idle, WSub(1), [1, 2, 1, 0], 1, Ended, [End(DropIt, v)], 0)
    requires s.handles.Keys == {0, 1} && Gone(s, 0) && HasKind(s, 1, Unique)
    ensures Reaches(run2, labels + [WeakSub(1)], FromNew, v, s2)
    ensures Snap(s2, Idle, FreeF, [1, 2, 1, 0], 0, Ended, [End(DropIt, v)], 0)
    ensures s2.handles.Keys == {0, 1} && Gone(s2, 0) && Gone(s2, 1)
  {
    s2 := DropsWeakState(v, s);
    SnapIsCalm(s, Idle, WSub(1), [1, 2, 1, 0], 1, Ended, [End(DropIt, v)], 0);
    SnapIsCalm(s2, Idle, FreeF, [1, 2, 1, 0], 0, Ended, [End(DropIt, v)], 0);
    run2 := run + [s2];
    Go(run, labels, FromNew, v, s, WeakSub(1), s2);
  }

  lemma FencesAgain(run: seq<State>, labels: seq<Label>, v: int, s: State) returns (run2: seq<State>, s2: State)
    requires Reaches(run, labels, FromNew, v, s)
    requires Snap(s, Idle, FreeF, [1, 2, 1, 0], 0, Ended, [End(DropIt, v)], 0)
    requires s.handles.Keys == {0, 1} && Gone(s, 0) && Gone(s, 1)
    ensures Reaches(run2, labels + [Fence(1)], FromNew, v, s2)
    ensures Snap(s2, Idle, FreeIt, [1, 2, 1, 0], 0, Ended, [End(DropIt, v)], 0)
    ensures s2.handles.Keys == {0, 1} && Gone(s2, 0) && Gone(s2, 1)
  {
    s2 := Apply(s, Fence(1));
    run2 := run + [s2];
    Go(run, labels, FromNew, v, s, Fence(1), s2);
  }

  lemma Frees(run: seq<State>, labels: seq<Label>, v: int, s: State) returns (run2: seq<State>, s2: State)
    requires Reaches(run, labels, FromNew, v, s)
    requires Snap(s, Idle, FreeIt, [1, 2, 1, 0], 0, Ended, [End(DropIt, v)], 0)
    requires s.handles.Keys == {0, 1} && Gone(s, 0) && Gone(s, 1)
    ensures Reaches(run2, labels + [ArcMachine.Free(1)], FromNew, v, s2)
    ensures Snap(s2, Idle, Idle, [1, 2, 1, 0], 0, Ended, [End(DropIt, v)], 1)
    ensures s2.handles.Keys == {0, 1} && Gone(s2, 0) && Gone(s2, 1)
  {
    s2 := Apply(s, ArcMachine.Free(1));
    run2 := run + [s2];
    Go(run, labels, FromNew, v, s, ArcMachine.Free(1), s2);
  }

  lemma SubStep(s: State, t: Tid)
    requires !s.aborted && t in s.threads && ExOf(s, s.threads[t].pc, Strong)
    ensures Enabled(s, StrongSub(t, DropIt)) && Apply(s, StrongSub(t, DropIt)) == DoStrongSub(s, t, DropIt)
  {
  }

  lemma SubNotLast(s: State, v: int)
    requires Snap(s, Ex(0), Ex(1), [1, 2], 1, Init(v), [], 0)
    requires s.handles.Keys == {0, 1} && HasKind(s, 0, Strong) && HasKind(s, 1, Strong)
    ensures var s2 := DoStrongSub(s, 0, DropIt);
      && Snap(s2, Idle, Ex(1), [1, 2, 1], 1, Init(v), [], 0)
      && s2.handles.Keys == {0, 1} && Gone(s2, 0) && HasKind(s2, 1, Strong)
  {
  }

  lemma SubLast(s: State, v: int)
    requires Snap(s, Idle, Ex(1), [1, 2, 1], 1, Init(v), [], 0)
    requires s.handles.Keys == {0, 1} && Gone(s, 0) && HasKind(s, 1, Strong)
    ensures var s2 := DoStrongSub(s, 1, DropIt);
      && Snap(s2, Idle, Zero(1, DropIt), [1, 2, 1, 0], 1, Init(v), [], 0)
      && s2.handles.Keys == {0, 1} && Gone(s2, 0) && HasKind(s2, 1, Unique)
  {
  }

  lemma BothOwn(v: int) returns (run: seq<State>, labels: seq<Label>, s: State)
    ensures Reaches(run, labels, FromNew, v, s)
    ensures labels == [TakeSh(0, 0), CloneStrong(0, 1), ArcMachine.Give(0), TakeEx(0, 0), TakeEx(1, 1)]
    ensures Snap(s, Ex(0), Ex(1), [1, 2], 1, Init(v), [], 0)
    ensures s.handles.Keys == {0, 1} && HasKind(s, 0, Strong) && HasKind(s, 1, Strong)
  {
    s := SetUp(v);
    run, labels := [s], [];
    run, s := Borrow(run, [], v, s);
    run, s := CloneIt(run, [] + [TakeSh(0, 0)], v, s);
    run, s := GiveBack(run, [] + [TakeSh(0, 0)] + [CloneStrong(0, 1)], v, s);
    labels := [] + [TakeSh(0, 0)] + [CloneStrong(0, 1)] + [ArcMachine.Give(0)];
    run, s := MoveIn(run, labels, v, s);
    labels := labels + [TakeEx(0, 0)];
    run, s := MoveInOther(run, labels, v, s);
    labels := labels + [TakeEx(1, 1)];
  }

  lemma BothFail(v: int) returns (run: seq<State>, labels: seq<Label>, s: State)
    ensures Reaches(run, labels, FromNew, v, s)
    ensures UnwrapFail(0, 1) in labels && UnwrapFail(1, 1) in labels && forall a :: a in labels ==> !a.UnwrapCas?
    ensures Snap(s, Ex(0), Ex(1), [1, 2], 1, Init(v), [], 0)
    ensures s.handles.Keys == {0, 1} && HasKind(s, 0, Strong) && HasKind(s, 1, Strong)
  {
    run, labels, s := BothOwn(v);
    run, s := Fails(run, labels, v, s);
    labels := labels + [UnwrapFail(0, 1)];
    run, s := FailsToo(run, labels, v, s);
    labels := labels + [UnwrapFail(1, 1)];
  }

  lemma BothDrop(run: seq<State>, labels: seq<Label>, v: int, s: State) returns (run2: seq<State>, s2: State)
    requires Reaches(run, labels, FromNew, v, s)
    requires Snap(s, Ex(0), Ex(1), [1, 2], 1, Init(v), [], 0)
    requires s.handles.Keys == {0, 1} && HasKind(s, 0, Strong) && HasKind(s, 1, Strong)
    ensures Reaches(run2, labels + [StrongSub(0, DropIt)] + [StrongSub(1, DropIt)] + [Fence(1)] + [EndData(1)],
      FromNew, v, s2)
    ensures Snap(s2, Idle, WSub(1), [1, 2, 1, 0], 1, Ended, [End(DropIt, v)], 0)
    ensures s2.handles.Keys == {0, 1} && Gone(s2, 0) && HasKind(s2, 1, Unique)
  {
    var l := labels;
    run2, s2 := DropsIt(run, l, v, s);
    l := l + [StrongSub(0, DropIt)];
    run2, s2 := DropsLast(run2, l, v, s2);
    l := l + [StrongSub(1, DropIt)];
    run2, s2 := Fences(run2, l, v, s2);
    l := l + [Fence(1)];
    run2, s2 := Destroys(run2, l, v, s2);
  }

  lemma BlockGoes(run: seq<State>, labels: seq<Label>, v: int, s: State) returns (run2: seq<State>, s2: State)
    requires Reaches(run, labels, FromNew, v, s)
    requires Snap(s, Idle, WSub(1), [1, 2, 1, 0], 1, Ended, [End(DropIt, v)], 0)
    requires s.handles.Keys == {0, 1} && Gone(s, 0) && HasKind(s, 1, Unique)
    ensures Reaches(run2, labels + [WeakSub(1)] + [Fence(1)] + [ArcMachine.Free(1)], FromNew, v, s2)
    ensures Quiet(s2) && s2.ended == [End(DropIt, v)] && s2.frees == 1
  {
    var l := labels;
    run2, s2 := DropsWeak(run, l, v, s);
    l := l + [WeakSub(1)];
    run2, s2 := FencesAgain(run2, l, v, s2);
    l := l + [Fence(1)];
    run2, s2 := Frees(run2, l, v, s2);
  }

  /** Two threads each own a handle and call `try_unwrap` before either drops: both calls fail, since both
    * see two handles. The handles are then dropped, and the value is destroyed, once, in place. */
  lemma {:induction false} TryUnwrapCanFailForAll(v: int) returns (run: seq<State>, labels: seq<Label>)
    ensures RunFrom(run, labels, FromNew, v, {0, 1})
    ensures UnwrapFail(0, 1) in labels && UnwrapFail(1, 1) in labels && forall a :: a in labels ==> !a.UnwrapCas?
    ensures Quiet(run[|labels|]) && run[|labels|].ended == [End(DropIt, v)] && run[|labels|].frees == 1
  {
    var s;
    run, labels, s := BothFail(v);
    run, s := BothDrop(run, labels, v, s);
    labels := labels + [StrongSub(0, DropIt)] + [StrongSub(1, DropIt)] + [Fence(1)] + [EndData(1)];
    run, s := BlockGoes(run, labels, v, s);
    labels := labels + [WeakSub(1)] + [Fence(1)] + [ArcMachine.Free(1)];
  }
}

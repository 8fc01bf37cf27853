/** When the owner of the implicit weak reference can lift a strong count of 0 by itself. */
module ArcLift {
  import opened Basics
  import opened ArcMachine
  import opened ArcInvariant
  import opened ArcFrames
  import opened ArcLoads
  import opened ArcTurns
  import opened ArcBorrows
  import opened ArcSteps
  import opened ArcTheorems

  // ----- The newest message can always be read -----

  /** Accesses name messages that exist. */
  predicate Placed(s: State) {
    forall e | 0 <= e < |s.events| :: PlaceOk(s, s.events[e].place)
  }

  predicate PlaceOk(s: State, place: Place) {
    && (place.OnStrong? ==> place.idx < |s.strong|)
    && (place.OnWeak? ==> place.idx < |s.weak|)
  }

  lemma BorrowPlaced(s: State, a: Label)
    requires Placed(s) && Enabled(s, a) && (a.Sync? || a.TakeSh? || a.TakeEx? || a.Give?)
    ensures Placed(Apply(s, a))
  {}

  lemma AddPlaced(s: State, a: Label)
    requires Placed(s) && Enabled(s, a) && (a.CloneStrong? || a.DgCas? || a.UpCas? || a.WeakAdd?)
    ensures Placed(Apply(s, a))
  {}

  lemma LoadPlaced(s: State, a: Label)
    requires Placed(s) && Enabled(s, a)
    requires a.DgLoad? || a.DgFail? || a.LockFail? || a.MMLoad? || a.LoadStrong? || a.UpLoad? || a.UpFail?
      || a.UnwrapFail? || a.MMFail?
    ensures Placed(Apply(s, a))
  {}

  lemma DataPlaced(s: State, a: Label)
    requires Placed(s) && Enabled(s, a) && (a.ReadData? || a.MMClone? || a.WriteData? || a.EndData?)
    ensures Placed(Apply(s, a))
  {}

  lemma TurnPlaced(s: State, a: Label)
    requires Placed(s) && Enabled(s, a) && (a.LockCas? || a.UnlockStore? || a.MMRestore? || a.Publish?)
    ensures Placed(Apply(s, a))
  {}

  lemma ZeroPlaced(s: State, a: Label)
    requires Placed(s) && Enabled(s, a) && (a.StrongSub? || a.WeakSub? || a.UnwrapCas? || a.MMCas?)
    ensures Placed(Apply(s, a))
  {}

  lemma LocalPlaced(s: State, a: Label)
    requires Placed(s) && Enabled(s, a)
    requires a.DgPanic? || a.EndMut? || a.UpEnd? || a.UniqueDrop? || a.Fence? || a.Free? || a.Abort?
    ensures Placed(Apply(s, a))
  {}

  lemma StepPlaced(s: State, a: Label)
    requires Placed(s) && Enabled(s, a)
    ensures Placed(Apply(s, a))
  {
    if a.Sync? || a.TakeSh? || a.TakeEx? || a.Give? { BorrowPlaced(s, a); }
    else if a.CloneStrong? || a.DgCas? || a.UpCas? || a.WeakAdd? { AddPlaced(s, a); }
    else if a.ReadData? || a.MMClone? || a.WriteData? || a.EndData? { DataPlaced(s, a); }
    else if a.LockCas? || a.UnlockStore? || a.MMRestore? || a.Publish? { TurnPlaced(s, a); }
    else if a.StrongSub? || a.WeakSub? || a.UnwrapCas? || a.MMCas? { ZeroPlaced(s, a); }
    else if a.DgPanic? || a.EndMut? || a.UpEnd? || a.UniqueDrop? || a.Fence? || a.Free? || a.Abort? {
      LocalPlaced(s, a);
    }
    else { LoadPlaced(s, a); }
  }

  lemma {:induction false} PlacedAt(states: seq<State>, labels: seq<Label>, origin: Origin, v: int, tids: set<Tid>,
                                    i: nat)
    requires RunFrom(states, labels, origin, v, tids) && i < |states|
    ensures Placed(states[i])
  {
    if i > 0 {
      PlacedAt(states, labels, origin, v, tids, i - 1);
      assert StepAt(states, labels, i - 1);
      StepPlaced(states[i - 1], labels[i - 1]);
    }
  }

  // ----- Runs of the owner alone -----

  /** Thread `t`, by steps of its own, lifts `strong` from `s`. */
  ghost predicate Lifts(s: State, t: Tid, states: seq<State>, labels: seq<Label>) {
    OwnRun(s, t, states, labels) && SVal(states[|labels|]) > 0
  }

  /** A run from `s` in which only thread `t` makes a step. */
  ghost predicate OwnRun(s: State, t: Tid, states: seq<State>, labels: seq<Label>) {
    IsRun(states, labels) && states[0] == s && forall a <- labels :: a.t == t
  }

  ghost predicate MayLift(s: State, t: Tid) {
    exists states, labels :: Lifts(s, t, states, labels)
  }

  /** Thread `t` has the owner of the implicit weak reference to itself, or can take it. */
  predicate Owner(s: State, t: Tid, h: Hid) {
    && HasKind(s, h, Unique) && t in s.threads
    && var pc := s.threads[t].pc;
      || (ExclPc(pc) && pc.h == h)
      || (pc.Idle? && s.handles[h].excl.None? && s.handles[h].shared == {})
  }

  /** The owner will end the data: it is about to, or `make_mut` finds Weak handles left. */
  predicate Committed(s: State, t: Tid) {
    Dying(s, t) || (t in s.threads && s.threads[t].pc.MM? && WVal(s) != 1)
  }

  lemma Lifted(s: State, t: Tid)
    requires SVal(s) > 0
    ensures MayLift(s, t)
  {
    assert Lifts(s, t, [s], []);
  }

  lemma Then(s: State, a: Label, s2: State)
    requires IsStep(s, a, s2) && MayLift(s2, a.t)
    ensures MayLift(s, a.t)
  {
    var states, labels :| Lifts(s2, a.t, states, labels);
    var states2, labels2 := [s] + states, [a] + labels;
    forall i | 0 <= i < |labels2| ensures StepAt(states2, labels2, i) {
      if i > 0 { assert StepAt(states, labels, i - 1); }
    }
    assert Lifts(s, a.t, states2, labels2);
  }

  // ----- An owner that has not committed can lift the count -----

  lemma TameSame(s: State, s2: State, t: Tid)
    requires Tame(s) && OnlyThread(s, s2, t)
    requires !s.threads[t].pc.AbortS? && !s.threads[t].pc.AbortW? && !s2.threads[t].pc.AbortS?
      && !s2.threads[t].pc.AbortW?
    ensures Tame(s2)
  {
    OverSame(s, s2, t);
  }

  lemma PublishIsStep(s: State, t: Tid)
    requires Tame(s) && !s.aborted && t in s.threads && ExOf(s, s.threads[t].pc, Unique) && s.data.Init?
    requires Tame(DoPublish(s, t))
    ensures IsStep(s, Publish(t), DoPublish(s, t))
  {}

  lemma RestoreIsStep(s: State, t: Tid)
    requires Tame(s) && !s.aborted && t in s.threads && s.threads[t].pc.MMR? && s.threads[t].pc.h in s.handles
    requires Tame(DoRestore(s, t))
    ensures IsStep(s, MMRestore(t), DoRestore(s, t))
  {}

  function DoInit(s: State, t: Tid): State
    requires t in s.threads
  {
    TouchData(s, t, true, s.threads[t].pc).(data := Init(0))
  }

  lemma InitIsStep(s: State, t: Tid)
    requires Tame(s) && !s.aborted && t in s.threads && ExOf(s, s.threads[t].pc, Unique) && s.data.Uninit?
    ensures IsStep(s, WriteData(t, 0), DoInit(s, t))
    ensures Tame(DoInit(s, t)) && ExOf(DoInit(s, t), s.threads[t].pc, Unique)
  {
    TameSame(s, DoInit(s, t), t);
  }

  function DoSteal(s: State, t: Tid): State
    requires t in s.threads && s.threads[t].pc.MM? && 0 < |s.weak|
  {
    LoadW(s, t, |s.weak| - 1, false, MMR(s.threads[t].pc.h))
  }

  lemma StealIsStep(s: State, t: Tid)
    requires Tame(s) && !s.aborted && t in s.threads && s.threads[t].pc.MM? && 0 < |s.weak| && WVal(s) == 1
    requires ReadableW(s, s.threads[t].view, |s.weak| - 1)
    ensures IsStep(s, MMLoad(t, |s.weak| - 1), DoSteal(s, t))
  {
    TameSame(s, DoSteal(s, t), t);
  }

  lemma PublishLifts(s: State, t: Tid)
    requires Inv(s) && Tame(s) && !s.aborted && t in s.threads && ExOf(s, s.threads[t].pc, Unique) && s.data.Init?
    ensures MayLift(s, t)
  {
    var s2 := DoPublish(s, t);
    KindLive(s, s.threads[t].pc.h);
    UniqueMeansZero(s, s.threads[t].pc.h);
    PublishShape(s, t);
    TameSame(s, s2, t);
    PublishIsStep(s, t);
    Lifted(s2, t);
    Then(s, Publish(t), s2);
  }

  lemma RestoreTurns(s: State, t: Tid)
    requires Inv(s) && t in s.threads && s.threads[t].pc.MMR?
    ensures s.threads[t].pc.h in s.handles && ToOne(s, DoRestore(s, t), t)
  {
    assert UserOk(s, t) && DataPc(s, t);
    KindLive(s, s.threads[t].pc.h);
    UniqueMeansZero(s, s.threads[t].pc.h);
    RestoreShape(s, t);
  }

  lemma RestoreLifts(s: State, t: Tid)
    requires Inv(s) && Tame(s) && !s.aborted && t in s.threads && s.threads[t].pc.MMR?
    ensures MayLift(s, t)
  {
    RestoreTurns(s, t);
    var s2 := DoRestore(s, t);
    TameSame(s, s2, t);
    RestoreIsStep(s, t);
    Lifted(s2, t);
    Then(s, MMRestore(t), s2);
  }

  /** The closure of `new_cyclic` returns the value first. */
  lemma InitLifts(s: State, t: Tid)
    requires Inv(s) && Tame(s) && !s.aborted && t in s.threads && ExOf(s, s.threads[t].pc, Unique) && s.data.Uninit?
    ensures MayLift(s, t)
  {
    KeepsWrite(s, t, 0);
    InitIsStep(s, t);
    PublishLifts(DoInit(s, t), t);
    Then(s, WriteData(t, 0), DoInit(s, t));
  }

  lemma ExLifts(s: State, t: Tid)
    requires Inv(s) && Tame(s) && !s.aborted && t in s.threads && ExOf(s, s.threads[t].pc, Unique)
    ensures MayLift(s, t)
  {
    assert UserOk(s, t);
    KindLive(s, s.threads[t].pc.h);
    assert s.data.Ended? ==> Leaving(s, s.threads[t].pc.h);
    if s.data.Init? { PublishLifts(s, t); } else { InitLifts(s, t); }
  }

  lemma NewestIsReadable(s: State, t: Tid)
    requires Placed(s) && t in s.threads && 0 < |s.weak|
    ensures ReadableW(s, s.threads[t].view, |s.weak| - 1)
  {
    forall e <- s.threads[t].view | e < |s.events| && s.events[e].place.OnWeak?
      ensures s.events[e].place.idx <= |s.weak| - 1
    {
      assert PlaceOk(s, s.events[e].place);
    }
  }

  /** `make_mut` reads the newest weak count, which is 1. */
  lemma LoneLifts(s: State, t: Tid)
    requires Inv(s) && Placed(s) && Tame(s) && !s.aborted && t in s.threads && s.threads[t].pc.MM? && WVal(s) == 1
    ensures MayLift(s, t)
  {
    NewestIsReadable(s, t);
    KeepsStealLoad(s, t, |s.weak| - 1);
    StealIsStep(s, t);
    RestoreLifts(DoSteal(s, t), t);
    Then(s, MMLoad(t, |s.weak| - 1), DoSteal(s, t));
  }

  lemma TakeIsStep(s: State, t: Tid, h: Hid)
    requires Tame(s) && !s.aborted && Owner(s, t, h) && s.threads[t].pc.Idle?
    ensures var s2 := DoTakeEx(s, t, h);
      IsStep(s, TakeEx(t, h), s2) && ExOf(s2, s2.threads[t].pc, Unique)
  {
    TameSame(s, DoTakeEx(s, t, h), t);
  }

  lemma TakenLifts(s: State, t: Tid, h: Hid)
    requires Inv(s) && Tame(s) && !s.aborted && Owner(s, t, h) && s.threads[t].pc.Idle?
    ensures MayLift(s, t)
  {
    TakeIsStep(s, t, h);
    KeepsTakeEx(s, t, h);
    ExLifts(DoTakeEx(s, t, h), t);
    Then(s, TakeEx(t, h), DoTakeEx(s, t, h));
  }

  lemma UncommittedLifts(s: State, t: Tid, h: Hid)
    requires Inv(s) && Placed(s) && Tame(s) && !s.aborted && Owner(s, t, h) && !Committed(s, t)
    ensures MayLift(s, t)
  {
    assert UserOk(s, t) && DataPc(s, t);
    match s.threads[t].pc
    case Idle => TakenLifts(s, t, h);
    case Ex(_) => ExLifts(s, t);
    case MM(_) => LoneLifts(s, t);
    case MMR(_) => RestoreLifts(s, t);
    case _ =>
  }

  // ----- An owner that has committed cannot -----

  lemma CommittedIsZero(s: State, t: Tid)
    requires Inv(s) && Committed(s, t)
    ensures SVal(s) == 0
  {
    if Dying(s, t) {
      DyingIsZero(s, t);
    } else {
      assert UserOk(s, t);
      KindLive(s, s.threads[t].pc.h);
      UniqueMeansZero(s, s.threads[t].pc.h);
    }
  }

  lemma StealOnly(s: State, a: Label)
    requires Enabled(s, a) && s.threads[a.t].pc.MM?
    ensures a.Sync? || a.MMLoad?
  {}

  lemma StealStep(s: State, a: Label, s2: State)
    requires IsStep(s, a, s2) && s.threads[a.t].pc.MM? && WVal(s) != 1 && (a.Sync? || a.MMLoad?)
    requires a.MMLoad? ==> s.weak[a.i].val != 1
    ensures Committed(s2, a.t)
  {}

  /** Whatever old value of `weak` it reads, it is not 1. */
  lemma StealCommits(s: State, a: Label, s2: State)
    requires Inv(s) && IsStep(s, a, s2) && s.threads[a.t].pc.MM? && WVal(s) != 1
    ensures Committed(s2, a.t)
  {
    if a.MMLoad? { StealReads(s, a.t, a.i); }
    StealOnly(s, a);
    StealStep(s, a, s2);
  }

  lemma StealReads(s: State, t: Tid, i: nat)
    requires Inv(s) && t in s.threads && s.threads[t].pc.MM? && WVal(s) != 1 && ReadableW(s, s.threads[t].view, i)
    ensures s.weak[i].val != 1
  {
    if s.weak[i].val == 1 { OneMeansAlone(s, t, i); }
  }

  lemma CommittedStays(s: State, a: Label, s2: State)
    requires Inv(s) && IsStep(s, a, s2) && Committed(s, a.t)
    ensures Committed(s2, a.t)
  {
    if Dying(s, a.t) {
      StepHasShape(s, a, s2);
      DyingStays(s, a, s2, a.t);
    } else {
      StealCommits(s, a, s2);
    }
  }

  lemma CommittedNext(s: State, t: Tid, states: seq<State>, labels: seq<Label>, i: nat)
    requires OwnRun(s, t, states, labels) && Inv(s) && i < |labels| && Committed(states[i], t)
    ensures Committed(states[i + 1], t)
  {
    RunKeeps(states, labels, i);
    assert StepAt(states, labels, i) && labels[i] in labels;
    CommittedStays(states[i], labels[i], states[i + 1]);
  }

  lemma {:induction false} CommittedRun(s: State, t: Tid, states: seq<State>, labels: seq<Label>, i: nat)
    requires OwnRun(s, t, states, labels) && Inv(s) && Committed(s, t) && i < |states|
    ensures Committed(states[i], t)
  {
    if i > 0 {
      CommittedRun(s, t, states, labels, i - 1);
      CommittedNext(s, t, states, labels, i - 1);
    }
  }

  lemma CommittedNeverLifts(s: State, t: Tid)
    requires Inv(s) && Committed(s, t)
    ensures !MayLift(s, t)
  {
    if MayLift(s, t) {
      var states, labels :| Lifts(s, t, states, labels);
      CommittedRun(s, t, states, labels, |labels|);
      RunKeeps(states, labels, |labels|);
      CommittedIsZero(states[|labels|], t);
      assert false;
    }
  }

  // ----- Exactly -----

  /** In every reachable state, the owner of the implicit weak reference can lift the strong count
      from 0 by steps of its own if and only if it has not committed to ending the data. */
  lemma OwnerLiftsExactly(states: seq<State>, labels: seq<Label>, origin: Origin, v: int, tids: set<Tid>,
                          i: nat, t: Tid, h: Hid)
    requires RunFrom(states, labels, origin, v, tids) && i < |states| && !states[i].aborted && Owner(states[i], t, h)
    ensures SVal(states[i]) == 0
    ensures MayLift(states[i], t) <==> !Committed(states[i], t)
  {
    var s := states[i];
    Reachable(states, labels, origin, v, tids, i);
    PlacedAt(states, labels, origin, v, tids, i);
    KindLive(s, h);
    UniqueMeansZero(s, h);
    if Committed(s, t) { CommittedNeverLifts(s, t); } else { UncommittedLifts(s, t, h); }
  }

  /** A count of 0 always has such an owner, until the data has ended. */
  lemma ZeroHasOwner(states: seq<State>, labels: seq<Label>, origin: Origin, v: int, tids: set<Tid>, i: nat)
    requires RunFrom(states, labels, origin, v, tids) && i < |states| && SVal(states[i]) == 0
    ensures states[i].data.Ended? || exists h :: Live(states[i], Unique) == {h}
  {
    var s := states[i];
    Reachable(states, labels, origin, v, tids, i);
    OwnedRun(states, labels, origin, v, tids, i);
    if !s.data.Ended? {
      assert |Live(s, Strong)| == 0;
      var h :| h in Live(s, Unique);
      OwnerIsAlone(s, h);
    }
  }
}

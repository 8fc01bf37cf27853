/** What the protocol guarantees, for every run of any number of threads. */
module ArcTheorems {
  import opened Basics
  import opened ArcMachine
  import opened ArcInvariant
  import opened ArcFrames
  import opened ArcLoads
  import opened ArcAdds
  import opened ArcTurns
  import opened ArcEnds
  import opened ArcBorrows
  import opened ArcSteps
  import opened ArcOwners

  // ----- Every step of every run is safe -----

  lemma {:induction false} RunKeeps(states: seq<State>, labels: seq<Label>, i: nat)
    requires IsRun(states, labels) && Inv(states[0]) && i < |states|
    ensures Inv(states[i])
  {
    if i > 0 {
      RunKeeps(states, labels, i - 1);
      GoesOn(states, labels, i - 1);
    }
  }

  lemma GoesOn(states: seq<State>, labels: seq<Label>, i: nat)
    requires IsRun(states, labels) && i < |labels| && Inv(states[i])
    ensures Inv(states[i + 1])
  {
    assert StepAt(states, labels, i);
    StepKeeps(states[i], labels[i]);
  }

  /** While a thread uses a handle, or any handle is left, the block is allocated. */
  lemma UserTouches(s: State, t: Tid)
    requires Inv(s) && t in s.threads && (SharedPc(s.threads[t].pc) || ExclPc(s.threads[t].pc))
    ensures s.frees == 0 && 0 in s.threads[t].view && WVal(s) > 0
  {
    assert UserOk(s, t);
    var h := s.threads[t].pc.h;
    assert HandleOk(s, h);
    WeakPositive(s, h);
  }

  /** A thread that uses a strong or unique handle has seen every write to the data. */
  lemma UserSeesWrites(s: State, t: Tid)
    requires Inv(s) && t in s.threads && (SharedPc(s.threads[t].pc) || ExclPc(s.threads[t].pc))
    requires s.threads[t].pc.h in s.handles && !s.handles[s.threads[t].pc.h].kind.Weak?
    ensures KnowsWrites(s, s.threads[t].view)
  {
    var h := s.threads[t].pc.h;
    assert UserOk(s, t) && HandleOk(s, h);
    KindLive(s, h);
    forall e | 0 <= e < |s.events| && IsWrite(s.events[e]) ensures e in s.threads[t].view {
      assert SeesWrite(s, h, e);
    }
  }

  /** A thread that may write has seen every access to the data, by anyone, ever. */
  lemma WriterKnowsData(s: State, t: Tid, e: nat)
    requires Inv(s) && t in s.threads && ExclPc(s.threads[t].pc) && !s.threads[t].pc.Zero?
    requires HasMut(s.threads[t].pc) || (s.threads[t].pc.h in s.handles && s.handles[s.threads[t].pc.h].kind.Unique?)
    requires e < |s.events| && IsDataAccess(s.events[e])
    ensures e in s.threads[t].view
  {
    var h := s.threads[t].pc.h;
    assert UserOk(s, t) && DataPc(s, t);
    WriterMay(s, t);
    KindLive(s, h);
    var g := s.events[e].via;
    assert KnownVia(s, e, g) && !DeadUnique(s, g);
    if s.handles[g].live {
      KindLive(s, g);
    } else if s.handles[h].kind.Unique? {
      assert WillHold(s, h, e);
    }
  }

  lemma WriterKnowsAllData(s: State, t: Tid)
    requires Inv(s) && t in s.threads && ExclPc(s.threads[t].pc) && !s.threads[t].pc.Zero?
    requires HasMut(s.threads[t].pc) || (s.threads[t].pc.h in s.handles && s.handles[s.threads[t].pc.h].kind.Unique?)
    ensures KnowsData(s, s.threads[t].view)
  {
    forall e | 0 <= e < |s.events| && IsDataAccess(s.events[e]) ensures e in s.threads[t].view {
      WriterKnowsData(s, t, e);
    }
  }

  lemma FreeIsSafe(s: State, t: Tid)
    requires Inv(s) && t in s.threads && s.threads[t].pc.FreeIt?
    ensures s.frees == 0 && KnowsAll(s, s.threads[t].view) && 0 in s.threads[t].view && !s.data.Init?
    ensures forall h <- s.handles :: !s.handles[h].live
  {
    ZeroMeansNone(s);
    forall h <- s.handles ensures !s.handles[h].live {
      if s.handles[h].live { KindLive(s, h); }
    }
  }

  lemma ReadIsSafe(s: State, t: Tid)
    requires Inv(s) && t in s.threads
    requires ShOf(s, s.threads[t].pc, Strong) || s.threads[t].pc.Cl?
      || (ShOf(s, s.threads[t].pc, Unique) && s.origin.FromUnique?)
    ensures s.data.Init? && KnowsWrites(s, s.threads[t].view)
  {
    var h := s.threads[t].pc.h;
    assert UserOk(s, t) && HandleOk(s, h);
    KindLive(s, h);
    assert s.data.Ended? && h in Live(s, Unique) ==> Leaving(s, h);
    UserSeesWrites(s, t);
  }

  lemma WriteIsSafe(s: State, t: Tid)
    requires Inv(s) && t in s.threads && (s.threads[t].pc.Mut? || ExOf(s, s.threads[t].pc, Unique))
    ensures !s.data.Ended? && KnowsData(s, s.threads[t].view)
  {
    var h := s.threads[t].pc.h;
    assert UserOk(s, t);
    KindLive(s, h);
    assert s.data.Ended? && h in Live(s, Unique) ==> Leaving(s, h);
    WriterKnowsAllData(s, t);
  }

  lemma EndIsSafe(s: State, t: Tid)
    requires Inv(s) && t in s.threads && s.threads[t].pc.Own?
    ensures s.data.Init? && s.ended == [] && KnowsData(s, s.threads[t].view)
  {
    assert UserOk(s, t) && DataPc(s, t);
    WriterKnowsAllData(s, t);
  }

  /** Any access goes to an allocated block whose creation the thread has seen. */
  lemma TouchIsSafe(s: State, a: Label)
    requires Inv(s) && Enabled(s, a) && Touches(a)
    ensures s.frees == 0 && 0 in s.threads[a.t].view
  {
    if a.Free? { FreeIsSafe(s, a.t); } else { UserTouches(s, a.t); }
  }

  lemma WeakAddIsSafe(s: State, t: Tid, n: Hid)
    requires Usage(s) && Counts(s) && Locks(s) && t in s.threads && CanCloneWeak(s, s.threads[t].pc) && n !in s.handles
    requires Tame(s) && Tame(DoWeakAdd(s, t, n))
    ensures WVal(s) + 1 < USIZE_MAX
  {
    KindLive(s, s.threads[t].pc.h);
    NotLocked(s, s.threads[t].pc.h);
    FarFromMax(s);
    if WVal(s) > MAX_REFCOUNT {
      WeakAddShape(s, t, n);
      OverAdd(s, DoWeakAdd(s, t, n), t);
      OneMoreOver(s, DoWeakAdd(s, t, n), t);
    }
  }

  /** One thread more over the limit, and still fewer than it takes to reach `usize::MAX`. */
  lemma OneMoreOver(s: State, s2: State, t: Tid)
    requires Counts(s) && s.locker.None? && Tame(s2) && t !in OverW(s)
    requires OverW(s2) == OverW(s) + {t} && OverS(s2) == OverS(s)
    ensures WVal(s) + 1 < USIZE_MAX
  {
    assert |OverW(s2)| == |OverW(s)| + 1;
  }

  lemma SubIsSafe(s: State, a: Label)
    requires Inv(s) && Tame(s) && Enabled(s, a) && (a.StrongSub? || a.WeakSub?)
    ensures a.StrongSub? ==> SVal(s) >= 1
    ensures a.WeakSub? ==> 1 <= WVal(s) < USIZE_MAX
  {
    assert UserOk(s, a.t);
    var h := s.threads[a.t].pc.h;
    KindLive(s, h);
    if a.StrongSub? {
      assert |Live(s, Strong)| > 0;
    } else {
      NotLocked(s, h);
      WeakPositive(s, h);
      FarFromMax(s);
    }
  }

  lemma CountIsSafe(s: State, a: Label, s2: State)
    requires Inv(s) && IsStep(s, a, s2)
    ensures CountSafe(s, a)
  {
    FarFromMax(s);
    if a.WeakAdd? { WeakAddIsSafe(s, a.t, a.n); }
    if a.WeakSub? || a.StrongSub? { SubIsSafe(s, a); }
  }

  lemma MemoryIsSafe(s: State, a: Label)
    requires Inv(s) && Enabled(s, a)
    ensures MemorySafe(s, a)
  {
    if Touches(a) { TouchIsSafe(s, a); }
    if a.ReadData? || a.MMClone? { ReadStepIsSafe(s, a); }
    if a.WriteData? { WriteStepIsSafe(s, a); }
    if a.EndData? { EndIsSafe(s, a.t); }
    if a.Free? { FreeIsSafe(s, a.t); }
  }

  lemma ReadStepIsSafe(s: State, a: Label)
    requires Inv(s) && Enabled(s, a) && (a.ReadData? || a.MMClone?)
    ensures s.data.Init? && KnowsWrites(s, s.threads[a.t].view)
  {
    ReadIsSafe(s, a.t);
  }

  lemma WriteStepIsSafe(s: State, a: Label)
    requires Inv(s) && Enabled(s, a) && a.WriteData?
    ensures !s.data.Ended? && KnowsData(s, s.threads[a.t].view)
  {
    WriteIsSafe(s, a.t);
  }

  /** A run from a fresh block. */
  predicate RunFrom(states: seq<State>, labels: seq<Label>, origin: Origin, v: int, tids: set<Tid>) {
    IsRun(states, labels) && states[0] == Start(origin, v, tids)
  }

  lemma Reachable(states: seq<State>, labels: seq<Label>, origin: Origin, v: int, tids: set<Tid>, i: nat)
    requires RunFrom(states, labels, origin, v, tids) && i < |states|
    ensures Inv(states[i]) && Tame(states[i])
  {
    StartKeeps(origin, v, tids);
    RunKeeps(states, labels, i);
    if i > 0 { assert StepAt(states, labels, i - 1); }
  }

  /** Memory safety, freedom from data races and exactly-once release, over whole runs. */
  lemma RunsAreSafe(states: seq<State>, labels: seq<Label>, origin: Origin, v: int, tids: set<Tid>, i: nat)
    requires RunFrom(states, labels, origin, v, tids) && i < |labels|
    ensures MemorySafe(states[i], labels[i]) && CountSafe(states[i], labels[i])
  {
    Reachable(states, labels, origin, v, tids, i);
    assert StepAt(states, labels, i);
    CountIsSafe(states[i], labels[i], states[i + 1]);
    MemoryIsSafe(states[i], labels[i]);
  }

  // ----- What the counters say -----

  /** In every reachable state the counters count the handles, and `usize::MAX` in `weak`
      means exactly that one thread holds the lock and no Weak handle exists. */
  lemma CountersCount(states: seq<State>, labels: seq<Label>, origin: Origin, v: int, tids: set<Tid>, i: nat)
    requires RunFrom(states, labels, origin, v, tids) && i < |states|
    ensures var s := states[i];
      && SVal(s) == |Live(s, Strong)| + |OverS(s)|
      && (WVal(s) == USIZE_MAX <==> exists t :: t in s.threads && Locking(s.threads[t].pc))
      && (forall t, u ::
            t in s.threads && u in s.threads && Locking(s.threads[t].pc) && Locking(s.threads[u].pc) ==> t == u)
      && (WVal(s) == USIZE_MAX ==> Live(s, Weak) == {})
      && (WVal(s) != USIZE_MAX ==>
            WVal(s) == |Live(s, Weak)| + |OverW(s)| + (if Live(s, Strong) == {} && Live(s, Unique) == {} then 0 else 1))
      && |Live(s, Unique)| <= 1 && (Live(s, Unique) == {} || SVal(s) == 0)
      && |s.ended| <= 1 && s.frees <= 1
  {
    Reachable(states, labels, origin, v, tids, i);
    var s := states[i];
    FarFromMax(s);
    if Live(s, Unique) != {} { NoOverS(s); }
  }

  /** When everything is given back, the data has ended and the block is free: no leak. */
  predicate Quiet(s: State) {
    (forall t <- s.threads :: s.threads[t].pc.Idle?) && (forall h <- s.handles :: !s.handles[h].live)
  }

  lemma QuietMeansReclaimed(states: seq<State>, labels: seq<Label>, origin: Origin, v: int, tids: set<Tid>, i: nat)
    requires RunFrom(states, labels, origin, v, tids) && i < |states| && Quiet(states[i])
    ensures states[i].frees == 1 && states[i].data.Ended? && |states[i].ended| == 1
  {
    Reachable(states, labels, origin, v, tids, i);
    OwnedRun(states, labels, origin, v, tids, i);
    var s := states[i];
    assert Live(s, Strong) == {} && Live(s, Weak) == {} && Live(s, Unique) == {};
    NoOverW(s);
  }

  lemma {:induction false} OwnedRun(states: seq<State>, labels: seq<Label>, origin: Origin, v: int, tids: set<Tid>,
                                    i: nat)
    requires RunFrom(states, labels, origin, v, tids) && i < |states|
    ensures Owned(states[i])
  {
    if i > 0 {
      OwnedRun(states, labels, origin, v, tids, i - 1);
      OwnedNext(states, labels, origin, v, tids, i - 1);
    } else if origin.FromCyclic? {
      assert 0 in Live(states[0], Unique);
    }
  }

  lemma OwnedNext(states: seq<State>, labels: seq<Label>, origin: Origin, v: int, tids: set<Tid>, i: nat)
    requires RunFrom(states, labels, origin, v, tids) && i < |labels| && Owned(states[i])
    ensures Owned(states[i + 1])
  {
    Reachable(states, labels, origin, v, tids, i);
    assert StepAt(states, labels, i);
    OwnedStep(states[i], labels[i], states[i + 1]);
  }

  // ----- Exclusive access -----

  /** While a thread has the `&mut T` of `get_mut` or `make_mut`, its handle is the only handle
      of any kind, whatever the other threads do. */
  lemma MutMeansAlone(states: seq<State>, labels: seq<Label>, origin: Origin, v: int, tids: set<Tid>, i: nat, t: Tid)
    requires RunFrom(states, labels, origin, v, tids) && i < |states|
    requires t in states[i].threads && states[i].threads[t].pc.Mut?
    ensures var s, h := states[i], states[i].threads[t].pc.h;
      && Live(s, Strong) == {h} && Live(s, Weak) == {} && Live(s, Unique) == {} && s.data.Init?
      && SVal(s) == 1 && (forall u <- s.threads :: u != t ==> !SharedPc(s.threads[u].pc) && !ExclPc(s.threads[u].pc))
  {
    Reachable(states, labels, origin, v, tids, i);
    var s, h := states[i], states[i].threads[t].pc.h;
    assert UserOk(s, t) && DataPc(s, t) && HandleOk(s, h);
    KindLive(s, h);
    forall u <- s.threads | u != t ensures !SharedPc(s.threads[u].pc) && !ExclPc(s.threads[u].pc) {
      assert UserOk(s, u);
    }
    assert OverS(s) == {};
    assert Live(s, Strong) == {h};
  }

  /** A step changes the value only through a handle of its own that is the only strong one. */
  lemma OthersKeepValue(s: State, a: Label, s2: State, g: Hid)
    requires Inv(s) && IsStep(s, a, s2) && g in Live(s, Strong) && g != Via(s.threads[a.t].pc)
    ensures s2.data == s.data
  {
    StepHasShape(s, a, s2);
    if a.WriteData? || a.EndData? {
      assert UserOk(s, a.t);
      WriterMay(s, a.t);
    }
  }

  /** The data becomes what is written to it, or ends; no other step changes it. */
  lemma DataBecomes(s: State, a: Label, s2: State)
    requires IsStep(s, a, s2)
    ensures s2.data == if a.WriteData? then Init(a.val) else if a.EndData? then Ended else s.data
  {
    StepHasShape(s, a, s2);
  }

  // ----- The strong count at 0 -----

  lemma NoStrongStep(s: State, a: Label)
    requires Inv(s) && Enabled(s, a) && SVal(s) == 0
    ensures !a.CloneStrong? && !a.UpCas? && !a.StrongSub? && !a.UnwrapCas? && !a.MMCas?
  {
    assert |Live(s, Strong)| == 0;
    assert UserOk(s, a.t);
    var pc := s.threads[a.t].pc;
    if a.CloneStrong? || a.StrongSub? { KindLive(s, pc.h); }
  }

  lemma ToOneValue(s: State, t: Tid)
    requires Usage(s) && DataOk(s) && t in s.threads && SVal(s) == 0
    requires (s.threads[t].pc.MMR? && s.threads[t].pc.h in s.handles)
      || (ExOf(s, s.threads[t].pc, Unique) && s.data.Init?)
    ensures s.data.Init? && HasKind(s, s.threads[t].pc.h, Unique) && s.handles[s.threads[t].pc.h].excl == Some(t)
    ensures if s.threads[t].pc.MMR? then SVal(DoRestore(s, t)) == 1 else SVal(DoPublish(s, t)) == 1
  {
    assert UserOk(s, t) && DataPc(s, t);
    if s.threads[t].pc.MMR? { RestoreShape(s, t); } else { PublishShape(s, t); }
  }

  lemma ToOneStep(s: State, a: Label, s2: State)
    requires IsStep(s, a, s2) && (a.Publish? || a.MMRestore?)
    ensures s.threads[a.t].pc.MMR? || (ExOf(s, s.threads[a.t].pc, Unique) && s.data.Init?)
    ensures a.MMRestore? <==> s.threads[a.t].pc.MMR?
    ensures s.threads[a.t].pc.h in s.handles
      && (if a.MMRestore? then s2 == DoRestore(s, a.t) else s2 == DoPublish(s, a.t))
  {}

  lemma ZeroLeftBy(s: State, a: Label, s2: State)
    requires Inv(s) && IsStep(s, a, s2) && SVal(s) == 0 && s2.strong != s.strong
    ensures a.Publish? || a.MMRestore?
  {
    NoStrongStep(s, a);
    StepHasShape(s, a, s2);
  }

  lemma OwnerIsAlone(s: State, h: Hid)
    requires Usage(s) && Counts(s) && HasKind(s, h, Unique)
    ensures Live(s, Unique) == {h} && Live(s, Strong) == {}
  {
    KindLive(s, h);
    forall g <- Live(s, Unique) ensures g == h { OnlyUnique(s, g, h); }
  }

  /** `strong` leaves 0 only at the end of `new_cyclic`, in `UniqueArc::into_arc` and in
      `make_mut`, each time through the one handle that owns the implicit weak reference. */
  lemma ZeroToOne(s: State, a: Label, s2: State)
    requires Inv(s) && IsStep(s, a, s2) && SVal(s) == 0 && s2.strong != s.strong
    ensures (a.Publish? || a.MMRestore?) && SVal(s2) == 1 && s.data.Init?
    ensures s.threads[a.t].pc.h in s.handles && s.handles[s.threads[a.t].pc.h].excl == Some(a.t)
    ensures Live(s, Unique) == {s.threads[a.t].pc.h} && Live(s, Strong) == {}
  {
    ZeroLeftBy(s, a, s2);
    ToOneStep(s, a, s2);
    ToOneValue(s, a.t);
    OwnerIsAlone(s, s.threads[a.t].pc.h);
  }

  /** The data has ended, or thread `t` is past the point of no return to ending it. */
  predicate Dying(s: State, t: Tid) {
    s.data.Ended? || (t in s.threads && (s.threads[t].pc.Zero? || s.threads[t].pc.Own?))
  }

  lemma DyingIsZero(s: State, t: Tid)
    requires Inv(s) && Dying(s, t)
    ensures SVal(s) == 0
  {
    if !s.data.Ended? {
      assert UserOk(s, t);
      KindLive(s, s.threads[t].pc.h);
    }
    NoOverS(s);
  }

  lemma DyingStays(s: State, a: Label, s2: State, t: Tid)
    requires Inv(s) && StepShape(s, a, s2) && Dying(s, t)
    ensures Dying(s2, t)
  {
    if a.WriteData? && s.data.Ended? { WriteIsSafe(s, a.t); }
  }

  lemma DyingAt(states: seq<State>, labels: seq<Label>, origin: Origin, v: int, tids: set<Tid>, i: nat, t: Tid)
    requires RunFrom(states, labels, origin, v, tids) && i < |labels| && Dying(states[i], t)
    ensures Dying(states[i + 1], t)
  {
    Reachable(states, labels, origin, v, tids, i);
    assert StepAt(states, labels, i);
    StepHasShape(states[i], labels[i], states[i + 1]);
    DyingStays(states[i], labels[i], states[i + 1], t);
  }

  /** Once dying, dying for ever. */
  lemma {:induction false} DyingForEver(states: seq<State>, labels: seq<Label>, origin: Origin, v: int, tids: set<Tid>,
                                        i: nat, j: nat, t: Tid)
    requires RunFrom(states, labels, origin, v, tids) && i <= j < |states| && Dying(states[i], t)
    ensures Dying(states[j], t)
  {
    if i < j {
      DyingForEver(states, labels, origin, v, tids, i, j - 1, t);
      DyingAt(states, labels, origin, v, tids, j - 1, t);
    }
  }

  /** After a drop, `into_inner`, `try_unwrap` or `make_mut` took `strong` to 0 for good, it
      stays 0 in any continuation, and no later `upgrade` succeeds. */
  lemma NoUpgradeAfterEnd(states: seq<State>, labels: seq<Label>, origin: Origin, v: int, tids: set<Tid>,
                          i: nat, j: nat, t: Tid)
    requires RunFrom(states, labels, origin, v, tids) && i <= j < |labels| && Dying(states[i], t)
    ensures SVal(states[j]) == 0 && !labels[j].UpCas? && !labels[j].CloneStrong?
  {
    DyingForEver(states, labels, origin, v, tids, i, j, t);
    Reachable(states, labels, origin, v, tids, j);
    assert StepAt(states, labels, j);
    DyingStep(states[j], labels[j], states[j + 1], t);
  }

  lemma DyingStep(s: State, a: Label, s2: State, t: Tid)
    requires Inv(s) && IsStep(s, a, s2) && Dying(s, t)
    ensures SVal(s) == 0 && !a.UpCas? && !a.CloneStrong?
  {
    DyingIsZero(s, t);
    NoStrongStep(s, a);
  }

  /** A successful `upgrade` yields data that is initialised, not ended, and all of whose
      writes the upgrading thread has seen. */
  lemma UpgradeSeesData(s: State, t: Tid, n: Hid)
    requires Inv(s) && t in s.threads && s.threads[t].pc.Up? && n !in s.handles
    requires 0 < SVal(s) <= MAX_REFCOUNT && SVal(s) == s.threads[t].pc.cur
    ensures var s2 := DoUpgrade(s, t, n);
      s2.data.Init? && KnowsWrites(s2, s2.threads[t].view) && SVal(s2) == SVal(s) + 1 && HasKind(s2, n, Strong)
  {
    StrongExists(s);
    assert UserOk(s, t);
    var w := s.threads[t].pc.h;
    KindLive(s, w);
    var s2 := DoUpgrade(s, t, n);
    UpgradeShape(s, t, n);
    forall e | 0 <= e < |s2.events| && IsWrite(s2.events[e]) ensures e in s2.threads[t].view {
      assert e < |s.events| && IsWrite(s.events[e]);
      assert e in s.handles[w].base || e in SView(s);
    }
  }
}

/** Every step of the protocol keeps the invariant, and is safe. */
module ArcSteps {
  import opened Basics
  import opened ArcMachine
  import opened ArcInvariant
  import opened ArcFrames
  import opened ArcLoads
  import opened ArcAdds
  import opened ArcTurns
  import opened ArcEnds
  import opened ArcBorrows

  lemma StartKeeps(origin: Origin, v: int, tids: set<Tid>)
    ensures Inv(Start(origin, v, tids)) && Tame(Start(origin, v, tids))
  {
    var s := Start(origin, v, tids);
    assert OverS(s) == {} && OverW(s) == {} && Live(s, Weak) == {};
    if origin.FromNew? {
      assert Live(s, Strong) == {0} && Live(s, Unique) == {};
    } else {
      assert Live(s, Strong) == {} && Live(s, Unique) == {0};
    }
    assert KnownVia(s, 0, 0);
  }

  lemma BorrowSteps(s: State, a: Label)
    requires Inv(s) && Enabled(s, a) && (a.Sync? || a.TakeSh? || a.TakeEx? || a.Give?)
    ensures Inv(Apply(s, a))
  {
    match a
    case Sync(t, v) => KeepsSync(s, t, v);
    case TakeSh(t, h) => KeepsTakeSh(s, t, h);
    case TakeEx(t, h) => KeepsTakeEx(s, t, h);
    case Give(t) => KeepsGive(s, t);
  }

  lemma AddSteps(s: State, a: Label)
    requires Inv(s) && Tame(s) && Enabled(s, a) && (a.CloneStrong? || a.DgCas? || a.UpCas? || a.WeakAdd?)
    ensures Inv(Apply(s, a))
  {
    match a
    case CloneStrong(t, n) => KeepsClone(s, t, n);
    case DgCas(t, n) => KeepsDowngrade(s, t, n);
    case UpCas(t, n) => KeepsUpgrade(s, t, n);
    case WeakAdd(t, n) => KeepsWeakAdd(s, t, n);
  }

  lemma WeakLoadSteps(s: State, a: Label)
    requires Inv(s) && Enabled(s, a) && (a.DgLoad? || a.DgFail? || a.LockFail? || a.MMLoad?)
    ensures Inv(Apply(s, a))
  {
    match a
    case DgLoad(t, i) => KeepsWeakLoad(s, t, i, Dg(s.threads[t].pc.h, s.weak[i].val));
    case DgFail(t, i) => KeepsWeakLoad(s, t, i, Dg(s.threads[t].pc.h, s.weak[i].val));
    case LockFail(t, i) => KeepsWeakLoad(s, t, i, s.threads[t].pc);
    case MMLoad(t, i) => KeepsStealLoad(s, t, i);
  }

  lemma UniqueLoadStep(s: State, a: Label)
    requires Inv(s) && Enabled(s, a) && a.LoadStrong?
    ensures Inv(Apply(s, a))
  {
    KeepsUniqueLoad(s, a.t, a.i);
  }

  lemma StrongLoadSteps(s: State, a: Label)
    requires Inv(s) && Enabled(s, a) && (a.UpLoad? || a.UpFail? || a.UnwrapFail? || a.MMFail?)
    ensures Inv(Apply(s, a))
  {
    match a
    case UpLoad(t, i) => KeepsStrongLoad(s, t, i, Up(s.threads[t].pc.h, s.strong[i].val));
    case UpFail(t, i) => KeepsStrongLoad(s, t, i, Up(s.threads[t].pc.h, s.strong[i].val));
    case UnwrapFail(t, i) => KeepsStrongLoad(s, t, i, s.threads[t].pc);
    case MMFail(t, i) => KeepsStrongLoad(s, t, i, Cl(s.threads[t].pc.h));
  }

  lemma ReadSteps(s: State, a: Label)
    requires Inv(s) && Enabled(s, a) && (a.ReadData? || a.MMClone?)
    ensures Inv(Apply(s, a))
  {
    match a
    case ReadData(t) => KeepsRead(s, t, s.threads[t].pc);
    case MMClone(t) => KeepsRead(s, t, Dr(s.threads[t].pc.h));
  }

  lemma WriteStep(s: State, a: Label)
    requires Inv(s) && Enabled(s, a) && a.WriteData?
    ensures Inv(Apply(s, a))
  {
    KeepsWrite(s, a.t, a.val);
  }

  lemma EndStep(s: State, a: Label)
    requires Inv(s) && Enabled(s, a) && a.EndData?
    ensures Inv(Apply(s, a))
  {
    KeepsEndData(s, a.t);
  }

  lemma TurnSteps(s: State, a: Label)
    requires Inv(s) && Enabled(s, a) && (a.LockCas? || a.UnlockStore? || a.MMRestore? || a.Publish?)
    ensures Inv(Apply(s, a))
  {
    match a
    case LockCas(t) => KeepsLock(s, t);
    case UnlockStore(t) => KeepsUnlock(s, t);
    case MMRestore(t) => KeepsRestore(s, t);
    case Publish(t) => KeepsPublish(s, t);
  }

  lemma ZeroSteps(s: State, a: Label)
    requires Inv(s) && Enabled(s, a) && (a.StrongSub? || a.UnwrapCas? || a.MMCas? || a.WeakSub?)
    ensures Inv(Apply(s, a))
  {
    assert UserOk(s, a.t);
    match a
    case StrongSub(t, f) => KeepsStrongSub(s, t, f);
    case UnwrapCas(t) => KeepsZero(s, t, false, false, Zero(s.threads[t].pc.h, TryUnwrap));
    case MMCas(t) => KeepsZero(s, t, true, false, MM(s.threads[t].pc.h));
    case WeakSub(t) => KeepsWeakSub(s, t);
  }

  lemma LocalSteps(s: State, a: Label)
    requires Inv(s) && Enabled(s, a) && (a.DgPanic? || a.EndMut? || a.UpEnd? || a.UniqueDrop?)
    ensures Inv(Apply(s, a))
  {
    match a
    case DgPanic(t) => KeepsPc(s, t, Sh(s.threads[t].pc.h));
    case EndMut(t) => KeepsPc(s, t, Ex(s.threads[t].pc.h));
    case UpEnd(t) => KeepsPc(s, t, Sh(s.threads[t].pc.h));
    case UniqueDrop(t) => KeepsPc(s, t, Own(s.threads[t].pc.h, DropIt));
  }

  lemma FenceStep(s: State, a: Label)
    requires Inv(s) && Enabled(s, a) && a.Fence?
    ensures Inv(Apply(s, a))
  {
    FenceKeeps(s, a.t);
  }

  lemma FreeStep(s: State, a: Label)
    requires Inv(s) && Enabled(s, a) && a.Free?
    ensures Inv(Apply(s, a))
  {
    KeepsFree(s, SetPc(s, a.t, Idle).(frees := s.frees + 1, freer := None), a.t);
  }

  lemma AbortStep(s: State, a: Label)
    requires Inv(s) && Enabled(s, a) && a.Abort?
    ensures Inv(Apply(s, a))
  {
    AbortKeeps(s, a.t);
  }

  lemma FenceKeeps(s: State, t: Tid)
    requires Inv(s) && t in s.threads && (s.threads[t].pc.Zero? || s.threads[t].pc.FreeF?)
    ensures Inv(DoFence(s, t))
  {
    if s.threads[t].pc.Zero? { KeepsZeroFence(s, t); } else { KeepsFree(s, DoFence(s, t), t); }
  }

  lemma AbortKeeps(s: State, t: Tid)
    requires Inv(s) && t in s.threads
    ensures Inv(s.(aborted := true))
  {
    assert UserOk(s, t) && DataPc(s, t);
    LocalKeeps(s, s.(aborted := true), t);
  }

  /** The invariant is inductive. */
  lemma StepKeeps(s: State, a: Label)
    requires Inv(s) && Tame(s) && Enabled(s, a)
    ensures Inv(Apply(s, a))
  {
    if a.Sync? || a.TakeSh? || a.TakeEx? || a.Give? { BorrowSteps(s, a); }
    else if a.CloneStrong? || a.DgCas? || a.UpCas? || a.WeakAdd? { AddSteps(s, a); }
    else if a.DgLoad? || a.DgFail? || a.LockFail? || a.MMLoad? { WeakLoadSteps(s, a); }
    else if a.LoadStrong? { UniqueLoadStep(s, a); }
    else if a.UpLoad? || a.UpFail? || a.UnwrapFail? || a.MMFail? { StrongLoadSteps(s, a); }
    else if a.ReadData? || a.MMClone? { ReadSteps(s, a); }
    else if a.WriteData? { WriteStep(s, a); }
    else if a.EndData? { EndStep(s, a); }
    else if a.LockCas? || a.UnlockStore? || a.MMRestore? || a.Publish? { TurnSteps(s, a); }
    else if a.StrongSub? || a.UnwrapCas? || a.MMCas? || a.WeakSub? { ZeroSteps(s, a); }
    else if a.DgPanic? || a.EndMut? || a.UpEnd? || a.UniqueDrop? { LocalSteps(s, a); }
    else if a.Fence? { FenceStep(s, a); }
    else if a.Free? { FreeStep(s, a); }
    else { AbortStep(s, a); }
  }

  // ----- What a step may change -----

  predicate IsRmwS(a: Label) {
    a.CloneStrong? || a.UpCas? || a.StrongSub? || a.UnwrapCas? || a.MMCas? || a.MMRestore? || a.Publish?
  }

  /** Where a thread may go. */
  predicate PcNext(p: Pc, a: Label, q: Pc) {
    && (q.Zero? ==> q == p || (a.StrongSub? && q.f == a.f) || (a.UnwrapCas? && q.f.TryUnwrap?))
    && (q.Own? ==>
          q == p || (p.Zero? && q.f == p.f) || (p.MM? && q.f.Steal?) || (a.UniqueDrop? && p.Ex? && q.f.DropIt?))
    && (q.MM? ==> q == p || a.MMCas?)
    && (q.MMR? ==> q == p || p.MM?)
    && (q.Cl? ==> q == p || a.MMFail?)
    && (q.Dr? ==> q == p || p.Cl?)
    && (q.WSub? ==> q == p || (p.Own? && a.EndData?))
    && (p.Zero? ==> q == p || q.Own?)
    && (p.Own? ==> q == p || (a.EndData? && q.WSub?))
    && (p.MM? ==> q == p || q.MMR? || q.Own?)
    && (p.MMR? ==> q == p || q.Mut?)
    && (a.EndData? ==> p.Own? && q.WSub?)
  }

  predicate StepShape(s: State, a: Label, s2: State) {
    && s2.origin == s.origin && OnlyThread(s, s2, a.t)
    && (!a.WriteData? && !a.EndData? ==> s2.data == s.data)
    && (if a.EndData? then
          s.threads[a.t].pc.Own? && s2.data.Ended?
          && s2.ended == s.ended + [End(s.threads[a.t].pc.f, if s.data.Init? then s.data.v else 0)]
        else s2.ended == s.ended)
    && (a.WriteData? ==> s.threads[a.t].pc.Mut? || ExOf(s, s.threads[a.t].pc, Unique))
    && (!IsRmwS(a) ==> s2.strong == s.strong)
    && PcNext(s.threads[a.t].pc, a, s2.threads[a.t].pc)
  }

  lemma BorrowShapes(s: State, a: Label)
    requires Enabled(s, a) && (a.Sync? || a.TakeSh? || a.TakeEx? || a.Give?)
    ensures StepShape(s, a, Apply(s, a))
  {}

  lemma AddShapes(s: State, a: Label)
    requires Enabled(s, a) && (a.CloneStrong? || a.DgCas? || a.UpCas? || a.WeakAdd?)
    ensures StepShape(s, a, Apply(s, a))
  {}

  lemma WeakLoadShapes(s: State, a: Label)
    requires Enabled(s, a) && (a.DgLoad? || a.DgFail? || a.LockFail? || a.MMLoad?)
    ensures StepShape(s, a, Apply(s, a))
  {}

  lemma StrongLoadShapes(s: State, a: Label)
    requires Enabled(s, a) && (a.LoadStrong? || a.UpLoad? || a.UpFail? || a.UnwrapFail? || a.MMFail?)
    ensures StepShape(s, a, Apply(s, a))
  {}

  lemma DataShapes(s: State, a: Label)
    requires Enabled(s, a) && (a.ReadData? || a.MMClone? || a.WriteData? || a.EndData?)
    ensures StepShape(s, a, Apply(s, a))
  {}

  lemma TurnShapes(s: State, a: Label)
    requires Enabled(s, a) && (a.LockCas? || a.UnlockStore? || a.MMRestore? || a.Publish?)
    ensures StepShape(s, a, Apply(s, a))
  {}

  lemma ZeroShapes(s: State, a: Label)
    requires Enabled(s, a) && (a.StrongSub? || a.WeakSub?)
    ensures StepShape(s, a, Apply(s, a))
  {}

  lemma CasShapes(s: State, a: Label)
    requires Enabled(s, a) && (a.UnwrapCas? || a.MMCas?)
    ensures StepShape(s, a, Apply(s, a))
  {}

  lemma LocalShapes(s: State, a: Label)
    requires Enabled(s, a) && (a.DgPanic? || a.EndMut? || a.UpEnd? || a.UniqueDrop?)
    ensures StepShape(s, a, Apply(s, a))
  {}

  lemma LastShapes(s: State, a: Label)
    requires Enabled(s, a) && (a.Fence? || a.Free? || a.Abort?)
    ensures StepShape(s, a, Apply(s, a))
  {}

  lemma StepHasShape(s: State, a: Label, s2: State)
    requires IsStep(s, a, s2)
    ensures StepShape(s, a, s2)
  {
    if a.Sync? || a.TakeSh? || a.TakeEx? || a.Give? { BorrowShapes(s, a); }
    else if a.CloneStrong? || a.DgCas? || a.UpCas? || a.WeakAdd? { AddShapes(s, a); }
    else if a.DgLoad? || a.DgFail? || a.LockFail? || a.MMLoad? { WeakLoadShapes(s, a); }
    else if a.LoadStrong? || a.UpLoad? || a.UpFail? || a.UnwrapFail? || a.MMFail? { StrongLoadShapes(s, a); }
    else if a.ReadData? || a.MMClone? || a.WriteData? || a.EndData? { DataShapes(s, a); }
    else if a.LockCas? || a.UnlockStore? || a.MMRestore? || a.Publish? { TurnShapes(s, a); }
    else if a.StrongSub? || a.WeakSub? { ZeroShapes(s, a); }
    else if a.UnwrapCas? || a.MMCas? { CasShapes(s, a); }
    else if a.DgPanic? || a.EndMut? || a.UpEnd? || a.UniqueDrop? { LocalShapes(s, a); }
    else { LastShapes(s, a); }
  }
}

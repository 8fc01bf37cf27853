/** Data that is not initialised yet has an owner: the handle inside `new_cyclic`. */
module ArcOwners {
  import opened ArcMachine
  import opened ArcInvariant
  import opened ArcSteps

  /** Until the value is there, the handle that owns the implicit weak reference is. */
  predicate Owned(s: State) {
    s.data.Uninit? ==> Live(s, Unique) != {}
  }

  /** The handle is still what it was, unless this step publishes it or gives it up. */
  predicate Stays(s: State, a: Label, s2: State, h: Hid) {
    HasKind(s, h, Unique) && !a.Publish? && !a.MMRestore? && !(a.StrongSub? || a.WeakSub?) ==> HasKind(s2, h, Unique)
  }

  lemma BorrowStays(s: State, a: Label, h: Hid)
    requires Enabled(s, a) && (a.Sync? || a.TakeSh? || a.TakeEx? || a.Give?)
    ensures Stays(s, a, Apply(s, a), h)
  {}

  lemma AddStays(s: State, a: Label, h: Hid)
    requires Enabled(s, a) && (a.CloneStrong? || a.DgCas? || a.UpCas? || a.WeakAdd?)
    ensures Stays(s, a, Apply(s, a), h)
  {}

  lemma LoadStays(s: State, a: Label, h: Hid)
    requires Enabled(s, a)
    requires a.DgLoad? || a.DgFail? || a.LockFail? || a.MMLoad? || a.LoadStrong? || a.UpLoad? || a.UpFail?
      || a.UnwrapFail? || a.MMFail?
    ensures Stays(s, a, Apply(s, a), h)
  {}

  lemma OtherStays(s: State, a: Label, h: Hid)
    requires Enabled(s, a)
    requires a.ReadData? || a.MMClone? || a.WriteData? || a.EndData? || a.LockCas? || a.UnlockStore? || a.DgPanic?
      || a.EndMut? || a.UpEnd? || a.UniqueDrop? || a.Fence? || a.Free? || a.Abort?
    ensures Stays(s, a, Apply(s, a), h)
  {}

  lemma CasStays(s: State, a: Label, h: Hid)
    requires Enabled(s, a) && (a.UnwrapCas? || a.MMCas?)
    ensures Stays(s, a, Apply(s, a), h)
  {}

  lemma SubStays(s: State, a: Label, h: Hid)
    requires Enabled(s, a) && (a.StrongSub? || a.WeakSub?) && HasKind(s, h, Unique) && s.threads[a.t].pc.h != h
    ensures HasKind(Apply(s, a), h, Unique)
  {}

  lemma StepStays(s: State, a: Label, h: Hid)
    requires Enabled(s, a)
    ensures Stays(s, a, Apply(s, a), h)
  {
    if a.Sync? || a.TakeSh? || a.TakeEx? || a.Give? { BorrowStays(s, a, h); }
    else if a.CloneStrong? || a.DgCas? || a.UpCas? || a.WeakAdd? { AddStays(s, a, h); }
    else if a.DgLoad? || a.DgFail? || a.LockFail? || a.MMLoad? || a.LoadStrong? || a.UpLoad? || a.UpFail?
      || a.UnwrapFail? || a.MMFail? { LoadStays(s, a, h); }
    else if a.UnwrapCas? || a.MMCas? { CasStays(s, a, h); }
    else if a.Publish? || a.MMRestore? || a.StrongSub? || a.WeakSub? { }
    else { OtherStays(s, a, h); }
  }

  /** While the data is not initialised, no step can publish the owner or drop it. */
  lemma OwnerSafe(s: State, a: Label, h: Hid)
    requires Inv(s) && Enabled(s, a) && s.data.Uninit? && HasKind(s, h, Unique)
    ensures !a.Publish? && !a.MMRestore?
    ensures a.StrongSub? || a.WeakSub? ==> s.threads[a.t].pc.h != h
  {
    assert UserOk(s, a.t) && DataPc(s, a.t);
  }

  lemma OwnerStays(s: State, a: Label, h: Hid)
    requires Inv(s) && Enabled(s, a) && s.data.Uninit? && HasKind(s, h, Unique)
    ensures HasKind(Apply(s, a), h, Unique)
  {
    OwnerSafe(s, a, h);
    if a.StrongSub? || a.WeakSub? { SubStays(s, a, h); } else { StepStays(s, a, h); }
  }

  lemma DataSet(s: State, a: Label)
    requires Enabled(s, a) && (a.WriteData? || a.EndData?)
    ensures !Apply(s, a).data.Uninit?
  {}

  lemma DataStays(s: State, a: Label, s2: State)
    requires IsStep(s, a, s2) && !s.data.Uninit?
    ensures !s2.data.Uninit?
  {
    StepHasShape(s, a, s2);
    if a.WriteData? || a.EndData? { DataSet(s, a); }
  }

  lemma OwnedStep(s: State, a: Label, s2: State)
    requires Inv(s) && IsStep(s, a, s2) && Owned(s)
    ensures Owned(s2)
  {
    if s.data.Uninit? {
      var h :| h in Live(s, Unique);
      OwnerStays(s, a, h);
      assert h in Live(s2, Unique);
    } else {
      DataStays(s, a, s2);
    }
  }
}

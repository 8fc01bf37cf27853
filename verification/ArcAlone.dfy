/** The steps of the `Arc` methods, one thread at a time: what each atomic operation does to the counters and
  * the data when nobody comes in between and every load sees the last value. */
module ArcAlone {
  import opened Basics
  import opened ArcMachine

  /** What a block looks like from outside. */
  datatype Look = Look(strong: nat, weak: nat, data: Data, ended: seq<End>, frees: nat)

  /** Thread `t` is at `pc` with handle `h`, and the block looks like `c`. */
  predicate On(s: State, t: Tid, pc: Pc, h: Hid, kind: Kind, c: Look) {
    && !s.aborted && t in s.threads && s.threads[t].pc == pc
    && h in s.handles && s.handles[h].kind == kind && (pc.FreeF? || pc.FreeIt? || pc.Idle? || s.handles[h].live)
    && |s.strong| > 0 && |s.weak| > 0
    && (forall e <- s.events :: e.place.OnStrong? ==> e.place.idx < |s.strong|)
    && (forall e <- s.events :: e.place.OnWeak? ==> e.place.idx < |s.weak|)
    && SVal(s) == c.strong && WVal(s) == c.weak && s.data == c.data && s.ended == c.ended && s.frees == c.frees
  }

  lemma Clones(s: State, t: Tid, h: Hid, n: Hid, c: Look)
    requires On(s, t, Sh(h), h, Strong, c)
    requires n !in s.handles && c.strong <= MAX_REFCOUNT
    ensures Enabled(s, CloneStrong(t, n))
      && On(Apply(s, CloneStrong(t, n)), t, Sh(h), h, Strong, c.(strong := c.strong + 1))
  {
  }

  lemma UpLoads(s: State, t: Tid, h: Hid, c: Look)
    requires On(s, t, Sh(h), h, Weak, c)
    ensures Enabled(s, UpLoad(t, |s.strong| - 1))
      && On(Apply(s, UpLoad(t, |s.strong| - 1)), t, Up(h, c.strong), h, Weak, c)
    ensures Apply(s, UpLoad(t, |s.strong| - 1)).handles == s.handles
  {
  }

  lemma UpRefuses(s: State, t: Tid, h: Hid, c: Look)
    requires On(s, t, Up(h, 0), h, Weak, c)
    ensures Enabled(s, UpEnd(t)) && On(Apply(s, UpEnd(t)), t, Sh(h), h, Weak, c)
  {
  }

  lemma UpTakes(s: State, t: Tid, h: Hid, n: Hid, c: Look)
    requires On(s, t, Up(h, c.strong), h, Weak, c)
    requires n !in s.handles && 0 < c.strong <= MAX_REFCOUNT
    ensures Enabled(s, UpCas(t, n)) && On(Apply(s, UpCas(t, n)), t, Sh(h), h, Weak, c.(strong := c.strong + 1))
  {
  }

  lemma UpRetries(s: State, t: Tid, h: Hid, c: Look)
    requires On(s, t, Up(h, c.strong), h, Weak, c) && 0 < c.strong <= MAX_REFCOUNT
    ensures Enabled(s, UpFail(t, |s.strong| - 1))
      && On(Apply(s, UpFail(t, |s.strong| - 1)), t, Up(h, c.strong), h, Weak, c)
  {
  }

  lemma DgLoads(s: State, t: Tid, h: Hid, c: Look)
    requires On(s, t, Sh(h), h, Strong, c)
    ensures Enabled(s, DgLoad(t, |s.weak| - 1)) && On(Apply(s, DgLoad(t, |s.weak| - 1)), t, Dg(h, c.weak), h, Strong, c)
    ensures Apply(s, DgLoad(t, |s.weak| - 1)).handles == s.handles
  {
  }

  lemma DgTakes(s: State, t: Tid, h: Hid, n: Hid, c: Look)
    requires On(s, t, Dg(h, c.weak), h, Strong, c)
    requires n !in s.handles && c.weak <= MAX_REFCOUNT
    ensures Enabled(s, DgCas(t, n)) && On(Apply(s, DgCas(t, n)), t, Sh(h), h, Strong, c.(weak := c.weak + 1))
  {
  }

  lemma DgRetries(s: State, t: Tid, h: Hid, c: Look)
    requires On(s, t, Dg(h, c.weak), h, Strong, c) && c.weak <= MAX_REFCOUNT
    ensures Enabled(s, DgFail(t, |s.weak| - 1))
      && On(Apply(s, DgFail(t, |s.weak| - 1)), t, Dg(h, c.weak), h, Strong, c)
  {
  }

  lemma Subs(s: State, t: Tid, h: Hid, f: Finish, c: Look)
    requires On(s, t, Ex(h), h, Strong, c)
    requires c.strong > 1 && (f.DropIt? || f.IntoInner?)
    ensures Enabled(s, StrongSub(t, f)) && On(Apply(s, StrongSub(t, f)), t, Idle, h, Strong, c.(strong := c.strong - 1))
  {
  }

  lemma SubIsSub(s: State, t: Tid, f: Finish)
    requires !s.aborted && t in s.threads && ExOf(s, s.threads[t].pc, Strong) && (f.DropIt? || f.IntoInner?)
    ensures Enabled(s, StrongSub(t, f)) && Apply(s, StrongSub(t, f)) == DoStrongSub(s, t, f)
  {
  }

  lemma LastSub(s: State, t: Tid, h: Hid, f: Finish, c: Look)
    requires On(s, t, Ex(h), h, Strong, c) && c.strong == 1
    ensures On(DoStrongSub(s, t, f), t, Zero(h, f), h, Unique, c.(strong := 0))
  {
  }

  lemma SubsLast(s: State, t: Tid, h: Hid, f: Finish, c: Look)
    requires On(s, t, Ex(h), h, Strong, c)
    requires c.strong == 1 && (f.DropIt? || f.IntoInner?)
    ensures Enabled(s, StrongSub(t, f)) && On(Apply(s, StrongSub(t, f)), t, Zero(h, f), h, Unique, c.(strong := 0))
  {
    SubIsSub(s, t, f);
    LastSub(s, t, h, f, c);
  }

  lemma Fences(s: State, t: Tid, h: Hid, f: Finish, c: Look)
    requires On(s, t, Zero(h, f), h, Unique, c)
    ensures Enabled(s, Fence(t)) && On(Apply(s, Fence(t)), t, Own(h, f), h, Unique, c)
  {
  }

  lemma EndsData(s: State, t: Tid, h: Hid, f: Finish, c: Look)
    requires On(s, t, Own(h, f), h, Unique, c)
    requires c.data.Init?
    ensures Enabled(s, EndData(t))
      && On(Apply(s, EndData(t)), t, WSub(h), h, Unique, c.(data := Ended, ended := c.ended + [End(f, c.data.v)]))
  {
  }

  lemma WeakSubs(s: State, t: Tid, h: Hid, kind: Kind, pc: Pc, c: Look)
    requires On(s, t, pc, h, kind, c)
    requires (pc == WSub(h) && kind.Unique?) || (pc == Ex(h) && kind.Weak?)
    requires c.weak > 1
    ensures Enabled(s, WeakSub(t)) && On(Apply(s, WeakSub(t)), t, Idle, h, kind, c.(weak := c.weak - 1))
  {
  }

  lemma WeakSubsLast(s: State, t: Tid, h: Hid, kind: Kind, pc: Pc, c: Look)
    requires On(s, t, pc, h, kind, c)
    requires (pc == WSub(h) && kind.Unique?) || (pc == Ex(h) && kind.Weak?)
    requires c.weak == 1
    ensures Enabled(s, WeakSub(t)) && On(Apply(s, WeakSub(t)), t, FreeF, h, kind, c.(weak := 0))
  {
  }

  lemma FencesFree(s: State, t: Tid, h: Hid, kind: Kind, c: Look)
    requires On(s, t, FreeF, h, kind, c)
    ensures Enabled(s, Fence(t)) && On(Apply(s, Fence(t)), t, FreeIt, h, kind, c)
  {
  }

  lemma Frees(s: State, t: Tid, h: Hid, kind: Kind, c: Look)
    requires On(s, t, FreeIt, h, kind, c)
    ensures Enabled(s, Free(t)) && On(Apply(s, Free(t)), t, Idle, h, kind, c.(frees := c.frees + 1))
  {
  }

  lemma Unwraps(s: State, t: Tid, h: Hid, c: Look)
    requires On(s, t, Ex(h), h, Strong, c)
    requires c.strong == 1
    ensures Enabled(s, UnwrapCas(t)) && On(Apply(s, UnwrapCas(t)), t, Zero(h, TryUnwrap), h, Unique, c.(strong := 0))
  {
  }

  lemma UnwrapRefuses(s: State, t: Tid, h: Hid, c: Look)
    requires On(s, t, Ex(h), h, Strong, c)
    requires c.strong != 1
    ensures Enabled(s, UnwrapFail(t, |s.strong| - 1))
      && On(Apply(s, UnwrapFail(t, |s.strong| - 1)), t, Ex(h), h, Strong, c)
  {
  }

  /** Where `is_unique` is called from, and `get_mut`. */
  function Borrowed(h: Hid, ex: bool): Pc { if ex then Ex(h) else Sh(h) }

  lemma Locks(s: State, t: Tid, h: Hid, ex: bool, c: Look)
    requires On(s, t, Borrowed(h, ex), h, Strong, c)
    requires c.weak == 1
    ensures Enabled(s, LockCas(t)) && On(Apply(s, LockCas(t)), t, Lock(h, ex), h, Strong, c.(weak := USIZE_MAX))
  {
  }

  lemma LockRefuses(s: State, t: Tid, h: Hid, ex: bool, c: Look)
    requires On(s, t, Borrowed(h, ex), h, Strong, c)
    requires c.weak != 1
    ensures Enabled(s, LockFail(t, |s.weak| - 1))
      && On(Apply(s, LockFail(t, |s.weak| - 1)), t, Borrowed(h, ex), h, Strong, c)
  {
  }

  lemma StrongLoads(s: State, t: Tid, h: Hid, ex: bool, c: Look)
    requires On(s, t, Lock(h, ex), h, Strong, c)
    ensures Enabled(s, LoadStrong(t, |s.strong| - 1))
      && On(Apply(s, LoadStrong(t, |s.strong| - 1)), t, Unlock(h, ex, c.strong == 1), h, Strong, c)
  {
  }

  lemma Unlocks(s: State, t: Tid, h: Hid, ex: bool, unique: bool, c: Look)
    requires On(s, t, Unlock(h, ex, unique), h, Strong, c)
    ensures Enabled(s, UnlockStore(t))
      && On(Apply(s, UnlockStore(t)), t, if ex && unique then Mut(h) else Borrowed(h, ex), h, Strong, c.(weak := 1))
  {
  }

  lemma WeakAdds(s: State, t: Tid, h: Hid, n: Hid, kind: Kind, c: Look)
    requires On(s, t, Sh(h), h, kind, c) && !kind.Strong? && n !in s.handles && c.weak <= MAX_REFCOUNT
    ensures Enabled(s, WeakAdd(t, n)) && On(Apply(s, WeakAdd(t, n)), t, Sh(h), h, kind, c.(weak := c.weak + 1))
  {
  }

  lemma Publishes(s: State, t: Tid, h: Hid, c: Look)
    requires On(s, t, Ex(h), h, Unique, c) && c.strong == 0 && c.data.Init?
    ensures Enabled(s, Publish(t)) && Apply(s, Publish(t)) == DoPublish(s, t)
    ensures On(DoPublish(s, t), t, Ex(h), h, Strong, c.(strong := 1))
  {
  }

  lemma UniqueDrops(s: State, t: Tid, h: Hid, c: Look)
    requires On(s, t, Ex(h), h, Unique, c) && s.origin.FromUnique?
    ensures Enabled(s, UniqueDrop(t)) && On(Apply(s, UniqueDrop(t)), t, Own(h, DropIt), h, Unique, c)
  {
  }

  lemma MakesZero(s: State, t: Tid, h: Hid, c: Look)
    requires On(s, t, Ex(h), h, Strong, c)
    requires c.strong == 1
    ensures Enabled(s, MMCas(t)) && On(Apply(s, MMCas(t)), t, MM(h), h, Unique, c.(strong := 0))
  {
  }

  lemma MakeRefuses(s: State, t: Tid, h: Hid, c: Look)
    requires On(s, t, Ex(h), h, Strong, c)
    requires c.strong != 1
    ensures Enabled(s, MMFail(t, |s.strong| - 1)) && On(Apply(s, MMFail(t, |s.strong| - 1)), t, Cl(h), h, Strong, c)
  {
  }

  lemma ClonesData(s: State, t: Tid, h: Hid, c: Look)
    requires On(s, t, Cl(h), h, Strong, c)
    ensures Enabled(s, MMClone(t)) && On(Apply(s, MMClone(t)), t, Dr(h), h, Strong, c)
  {
  }

  lemma DropsOld(s: State, t: Tid, h: Hid, c: Look)
    requires On(s, t, Dr(h), h, Strong, c)
    requires c.strong > 1
    ensures Enabled(s, StrongSub(t, DropIt))
      && On(Apply(s, StrongSub(t, DropIt)), t, Idle, h, Strong, c.(strong := c.strong - 1))
  {
  }

  lemma WeakLoads(s: State, t: Tid, h: Hid, c: Look)
    requires On(s, t, MM(h), h, Unique, c)
    ensures Enabled(s, MMLoad(t, |s.weak| - 1))
      && On(Apply(s, MMLoad(t, |s.weak| - 1)), t, if c.weak != 1 then Own(h, Steal) else MMR(h), h, Unique, c)
  {
  }

  lemma Restores(s: State, t: Tid, h: Hid, c: Look)
    requires On(s, t, MMR(h), h, Unique, c)
    ensures Enabled(s, MMRestore(t)) && On(Apply(s, MMRestore(t)), t, Mut(h), h, Strong, c.(strong := 1))
  {
  }
}

/** What happens over the limits of the counters, while `weak` is locked, and through the `&mut T` that was lent. */
module ArcLimits {
  import opened Basics
  import opened ArcMachine
  import opened ArcAlone
  import opened ArcCalls

  // ----- Increments over the limit abort the process -----

  /** A strong increment from above the limit makes no handle, and leaves its thread about to abort. */
  lemma CloneOverLimit(s: State, t: Tid, h: Hid, n: Hid, c: Look)
    requires On(s, t, Sh(h), h, Strong, c) && n !in s.handles && c.strong > MAX_REFCOUNT
    ensures Enabled(s, CloneStrong(t, n))
    ensures var s2 := Apply(s, CloneStrong(t, n));
      t in s2.threads && s2.threads[t].pc == AbortS(h) && s2.handles == s.handles
  {}

  lemma WeakCloneOverLimit(s: State, t: Tid, h: Hid, n: Hid, kind: Kind, c: Look)
    requires On(s, t, Sh(h), h, kind, c) && !kind.Strong? && n !in s.handles && c.weak > MAX_REFCOUNT
    ensures Enabled(s, WeakAdd(t, n))
    ensures var s2 := Apply(s, WeakAdd(t, n));
      t in s2.threads && s2.threads[t].pc == AbortW(h) && s2.handles == s.handles
  {}

  lemma OnlyAborts(s: State, a: Label)
    requires Enabled(s, a) && (s.threads[a.t].pc.AbortS? || s.threads[a.t].pc.AbortW?) && !a.Sync?
    ensures a == Abort(a.t) && Apply(s, a).aborted
  {}

  /** Such a thread does nothing more to the block than to abort, and then no thread makes a step. */
  lemma AbortEndsAll(s: State, a: Label, b: Label)
    requires Enabled(s, a) && (s.threads[a.t].pc.AbortS? || s.threads[a.t].pc.AbortW?) && !a.Sync?
    ensures a == Abort(a.t) && !Enabled(Apply(s, a), b)
  {
    OnlyAborts(s, a);
  }

  lemma CanAbort(s: State, t: Tid)
    requires !s.aborted && t in s.threads && (s.threads[t].pc.AbortS? || s.threads[t].pc.AbortW?)
    ensures Enabled(s, Abort(t))
  {}

  // ----- Compare-and-exchange loops refuse -----

  /** `downgrade` of a count over the limit panics, and changes nothing. */
  lemma DowngradeOverLimit(s: State, t: Tid, h: Hid, cur: nat, c: Look, a: Label)
    requires On(s, t, Dg(h, cur), h, Strong, c) && MAX_REFCOUNT < cur < USIZE_MAX
    requires Enabled(s, a) && a.t == t && !a.Sync?
    ensures a == DgPanic(t) && On(Apply(s, a), t, Sh(h), h, Strong, c)
  {
    NextBorrow(s, a);
  }

  /** `downgrade` that read the lock only reads again. */
  lemma DowngradeSpins(s: State, t: Tid, h: Hid, c: Look, a: Label)
    requires On(s, t, Dg(h, USIZE_MAX), h, Strong, c)
    requires Enabled(s, a) && a.t == t && !a.Sync?
    ensures a.DgLoad? && a.i < |s.weak| && On(Apply(s, a), t, Dg(h, s.weak[a.i].val), h, Strong, c)
  {
    NextBorrow(s, a);
  }

  /** `upgrade` of a count over the limit panics, and changes nothing. */
  lemma UpgradeOverLimit(s: State, t: Tid, h: Hid, cur: nat, c: Look, a: Label)
    requires On(s, t, Up(h, cur), h, Weak, c) && cur > MAX_REFCOUNT
    requires Enabled(s, a) && a.t == t && !a.Sync?
    ensures a == UpEnd(t) && On(Apply(s, a), t, Sh(h), h, Weak, c)
  {
    NextBorrow(s, a);
  }

  // ----- The value -----

  /** Through the `&mut T` of `get_mut` or `make_mut` the value can be set, and the borrow be given back. */
  lemma MutSets(s: State, t: Tid, h: Hid, c: Look, val: int)
    requires On(s, t, Mut(h), h, Strong, c)
    ensures Enabled(s, WriteData(t, val))
      && On(Apply(s, WriteData(t, val)), t, Mut(h), h, Strong, c.(data := Init(val)))
    ensures Enabled(s, EndMut(t)) && On(Apply(s, EndMut(t)), t, Ex(h), h, Strong, c)
  {}

  /** So can that of a `UniqueArc`; in `new_cyclic` it is set once. */
  lemma OwnerSets(s: State, t: Tid, h: Hid, c: Look, val: int)
    requires On(s, t, Ex(h), h, Unique, c) && (s.origin.FromCyclic? ==> c.data.Uninit?)
    ensures Enabled(s, WriteData(t, val)) && On(Apply(s, WriteData(t, val)), t, Ex(h), h, Unique, c.(data := Init(val)))
  {}

  /** Through a shared `Arc` it can be read. */
  lemma SharedReads(s: State, t: Tid, h: Hid, c: Look)
    requires On(s, t, Sh(h), h, Strong, c)
    ensures Enabled(s, ReadData(t)) && On(Apply(s, ReadData(t)), t, Sh(h), h, Strong, c)
  {}
}

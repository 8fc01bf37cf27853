/** Taking and giving back handles, fences, and the end of the block. */
module ArcBorrows {
  import opened Basics
  import opened ArcMachine
  import opened ArcInvariant
  import opened ArcFrames
  import opened ArcEnds

  predicate Plain(pc: Pc) { pc.Idle? || pc.Sh? || pc.Ex? }

  /** Thread `t` takes handle `h` or gives it back; what may be known of `h` does not shrink. */
  ghost predicate Borrow(s: State, s2: State, t: Tid, h: Hid) {
    && NoAccess(s, s2, t) && h in s.handles && h in s2.handles
    && s2.handles == s.handles[h := s2.handles[h]]
    && s2.handles[h].kind == s.handles[h].kind && s2.handles[h].live == s.handles[h].live
    && s2.handles[h].born == s.handles[h].born && s.handles[h].base <= s2.handles[h].base
    && Plain(s.threads[t].pc) && Plain(s2.threads[t].pc) && s2.threads[t].pend == s.threads[t].pend
    && (forall e | 0 <= e < |s.events| && Holds(s, h, e) :: Holds(s2, h, e))
    && (forall e | 0 <= e < |s.events| && SeesWrite(s, h, e) :: SeesWrite(s2, h, e))
    && (s.handles[h].excl.Some? ==> s.handles[h].excl == Some(t))
  }

  lemma LiveBorrow(s: State, s2: State, t: Tid, h: Hid, k: Kind)
    requires Borrow(s, s2, t, h)
    ensures Live(s2, k) == Live(s, k)
  {}

  lemma KnownBorrow(s: State, s2: State, t: Tid, h: Hid)
    requires Usage(s) && Known(s) && Borrow(s, s2, t, h)
    ensures Known(s2)
  {
    LiveBorrow(s, s2, t, h, Strong);
    LiveBorrow(s, s2, t, h, Unique);
    forall e | 0 <= e < |s2.events| ensures KnownVia(s2, e, s2.events[e].via) {
      assert KnownVia(s, e, s.events[e].via);
      assert Holds(s, h, e) ==> Holds(s2, h, e);
      forall u | u in Live(s, Unique) && WillHold(s, u, e) ensures WillHold(s2, u, e) {}
    }
  }

  lemma WritesBorrow(s: State, s2: State, t: Tid, h: Hid)
    requires Writes(s) && Borrow(s, s2, t, h)
    ensures Writes(s2)
  {
    LiveBorrow(s, s2, t, h, Strong);
    LiveBorrow(s, s2, t, h, Weak);
    LiveBorrow(s, s2, t, h, Unique);
    forall e, g | 0 <= e < |s2.events| && IsWrite(s2.events[e]) && g in s2.handles
      ensures g in Live(s2, Strong) || g in Live(s2, Unique) ==> SeesWrite(s2, g, e)
    {
      assert g in Live(s, Strong) || g in Live(s, Unique) ==> SeesWrite(s, g, e);
    }
  }

  lemma DataBorrow(s: State, s2: State, t: Tid, h: Hid)
    requires DataOk(s) && Borrow(s, s2, t, h)
    ensures DataOk(s2)
  {
    LiveBorrow(s, s2, t, h, Strong);
    LiveBorrow(s, s2, t, h, Unique);
    forall u <- s2.threads ensures DataPc(s2, u) { assert DataPc(s, u); }
    forall g <- Live(s2, Unique) ensures s2.data.Ended? ==> Leaving(s2, g) {
      assert s.data.Ended? ==> Leaving(s, g);
    }
    forall g <- s2.handles ensures DeadUnique(s2, g) ==> DeadUnique(s, g) {}
  }

  lemma RestBorrow(s: State, s2: State, t: Tid, h: Hid)
    requires Counts(s) && Locks(s) && Freeing(s) && Rises(s) && StrongHistory(s) && WeakHistory(s)
      && Borrow(s, s2, t, h)
    ensures Counts(s2) && Locks(s2) && Freeing(s2) && Rises(s2) && StrongHistory(s2) && WeakHistory(s2)
  {
    LiveBorrow(s, s2, t, h, Strong);
    LiveBorrow(s, s2, t, h, Weak);
    LiveBorrow(s, s2, t, h, Unique);
    OverSame(s, s2, t);
    forall g <- Live(s2, Strong) ensures BornAfterRise(s, g) ==> BornAfterRise(s2, g) {}
  }

  lemma BorrowKeeps(s: State, s2: State, t: Tid, h: Hid)
    requires Inv(s) && Borrow(s, s2, t, h) && Usage(s2)
    ensures Inv(s2)
  {
    KnownBorrow(s, s2, t, h);
    WritesBorrow(s, s2, t, h);
    DataBorrow(s, s2, t, h);
    RestBorrow(s, s2, t, h);
  }

  lemma TakeShShape(s: State, t: Tid, h: Hid)
    requires Usage(s) && t in s.threads && s.threads[t].pc.Idle?
    requires h in s.handles && s.handles[h].live && s.handles[h].excl.None?
    ensures Usage(DoTakeSh(s, t, h)) && Borrow(s, DoTakeSh(s, t, h), t, h)
  {
    var s2 := DoTakeSh(s, t, h);
    assert HandleOk(s, h);
    forall u <- s2.threads ensures UserOk(s2, u) { assert UserOk(s, u); }
    forall g <- s2.handles ensures HandleOk(s2, g) { assert HandleOk(s, g); }
  }

  lemma TakeExShape(s: State, t: Tid, h: Hid)
    requires Usage(s) && t in s.threads && s.threads[t].pc.Idle?
    requires h in s.handles && s.handles[h].live && s.handles[h].excl.None? && s.handles[h].shared == {}
    ensures Usage(DoTakeEx(s, t, h)) && Borrow(s, DoTakeEx(s, t, h), t, h)
  {
    var s2 := DoTakeEx(s, t, h);
    assert HandleOk(s, h);
    forall u <- s2.threads ensures UserOk(s2, u) { assert UserOk(s, u); }
    forall g <- s2.handles ensures HandleOk(s2, g) { assert HandleOk(s, g); }
  }

  lemma GiveUsage(s: State, t: Tid)
    requires Usage(s) && t in s.threads && (s.threads[t].pc.Sh? || s.threads[t].pc.Ex?)
      && s.threads[t].pc.h in s.handles
    ensures Usage(DoGive(s, t))
  {
    var s2, h := DoGive(s, t), s.threads[t].pc.h;
    assert UserOk(s, t) && HandleOk(s, h);
    forall u <- s2.threads ensures UserOk(s2, u) { assert UserOk(s, u); }
    forall g <- s2.handles ensures HandleOk(s2, g) { assert HandleOk(s, g); }
  }

  lemma GiveBorrow(s: State, t: Tid)
    requires Usage(s) && t in s.threads && (s.threads[t].pc.Sh? || s.threads[t].pc.Ex?)
      && s.threads[t].pc.h in s.handles
    ensures Borrow(s, DoGive(s, t), t, s.threads[t].pc.h)
  {
    assert UserOk(s, t) && HandleOk(s, s.threads[t].pc.h);
  }

  lemma KeepsTakeSh(s: State, t: Tid, h: Hid)
    requires Inv(s) && t in s.threads && s.threads[t].pc.Idle?
    requires h in s.handles && s.handles[h].live && s.handles[h].excl.None?
    ensures Inv(DoTakeSh(s, t, h))
  {
    TakeShShape(s, t, h);
    BorrowKeeps(s, DoTakeSh(s, t, h), t, h);
  }

  lemma KeepsTakeEx(s: State, t: Tid, h: Hid)
    requires Inv(s) && t in s.threads && s.threads[t].pc.Idle?
    requires h in s.handles && s.handles[h].live && s.handles[h].excl.None? && s.handles[h].shared == {}
    ensures Inv(DoTakeEx(s, t, h))
  {
    TakeExShape(s, t, h);
    BorrowKeeps(s, DoTakeEx(s, t, h), t, h);
  }

  lemma KeepsGive(s: State, t: Tid)
    requires Inv(s) && t in s.threads && (s.threads[t].pc.Sh? || s.threads[t].pc.Ex?) && s.threads[t].pc.h in s.handles
    ensures Inv(DoGive(s, t))
  {
    GiveUsage(s, t);
    GiveBorrow(s, t);
    BorrowKeeps(s, DoGive(s, t), t, s.threads[t].pc.h);
  }

  // ----- Local steps -----

  lemma KeepsSync(s: State, t: Tid, v: View)
    requires Inv(s) && t in s.threads
    ensures Inv(s.(threads := s.threads[t := s.threads[t].(view := s.threads[t].view + v)]))
  {
    var s2 := s.(threads := s.threads[t := s.threads[t].(view := s.threads[t].view + v)]);
    assert UserOk(s, t) && DataPc(s, t);
    LocalKeeps(s, s2, t);
  }

  predicate PcMove(s: State, p: Pc, pc: Pc) {
    || ((p.Dg? || p.Up?) && pc == Sh(p.h))
    || (p.Mut? && pc == Ex(p.h))
    || (ExOf(s, p, Unique) && s.origin.FromUnique? && pc == Own(p.h, DropIt))
  }

  lemma PcShape(s: State, t: Tid, pc: Pc)
    requires Usage(s) && t in s.threads && PcMove(s, s.threads[t].pc, pc)
    ensures LocalStep(s, SetPc(s, t, pc), t)
    ensures s.threads[t].pc.h in s.handles && KindOk(pc, s.handles[s.threads[t].pc.h].kind)
  {
    assert UserOk(s, t);
  }

  lemma UniqueHasData(s: State, t: Tid)
    requires Usage(s) && DataOk(s) && t in s.threads && ExOf(s, s.threads[t].pc, Unique) && s.origin.FromUnique?
    ensures s.data.Init?
  {
    var h := s.threads[t].pc.h;
    assert UserOk(s, t);
    KindLive(s, h);
    assert s.data.Ended? ==> Leaving(s, h);
  }

  lemma KeepsPc(s: State, t: Tid, pc: Pc)
    requires Inv(s) && t in s.threads && PcMove(s, s.threads[t].pc, pc)
    ensures Inv(SetPc(s, t, pc))
  {
    PcShape(s, t, pc);
    assert DataPc(s, t);
    if pc.Own? { UniqueHasData(s, t); }
    LocalKeeps(s, SetPc(s, t, pc), t);
  }

  lemma ZeroFenceShape(s: State, t: Tid)
    requires Usage(s) && t in s.threads && s.threads[t].pc.Zero?
    ensures LocalStep(s, DoFence(s, t), t)
    ensures s.threads[t].pc.h in s.handles
      && KindOk(DoFence(s, t).threads[t].pc, s.handles[s.threads[t].pc.h].kind)
    ensures DoFence(s, t).threads[t].pc.Own? && DoFence(s, t).data == s.data
  {
    assert UserOk(s, t);
  }

  lemma KeepsZeroFence(s: State, t: Tid)
    requires Inv(s) && t in s.threads && s.threads[t].pc.Zero?
    ensures Inv(DoFence(s, t))
  {
    ZeroFenceShape(s, t);
    assert DataPc(s, t);
    LocalKeeps(s, DoFence(s, t), t);
  }

  /** Once the weak count is 0 no handle is left. */
  lemma ZeroMeansNone(s: State)
    requires Counts(s) && Locks(s) && WVal(s) == 0
    ensures Live(s, Strong) == {} && Live(s, Weak) == {} && Live(s, Unique) == {}
  {}

  predicate FreeMove(s: State, s2: State, t: Tid)
    requires t in s.threads
  {
    || (s.threads[t].pc.FreeF? && s2 == DoFence(s, t))
    || (s.threads[t].pc.FreeIt? && s2 == SetPc(s, t, Idle).(frees := s.frees + 1, freer := None))
  }

  /** What either move changes: where its thread is, what it knows, and who frees. */
  predicate FreeOnly(s: State, s2: State, t: Tid)
    requires t in s.threads
  {
    && s2 == s.(threads := s2.threads, frees := s2.frees, freer := s2.freer) && OnlyThread(s, s2, t)
    && (s.threads[t].pc.FreeF? || s.threads[t].pc.FreeIt?) && (s2.threads[t].pc.FreeIt? || s2.threads[t].pc.Idle?)
  }

  lemma FreeIsOnly(s: State, s2: State, t: Tid)
    requires t in s.threads && FreeMove(s, s2, t)
    ensures FreeOnly(s, s2, t)
  {}

  lemma FreeUsage(s: State, s2: State, t: Tid)
    requires Usage(s) && t in s.threads && FreeOnly(s, s2, t)
    ensures Usage(s2)
  {
    forall u <- s2.threads ensures UserOk(s2, u) { assert UserOk(s, u); }
    forall h <- s2.handles ensures HandleOk(s2, h) { assert HandleOk(s, h); }
  }

  lemma FreeFreeing(s: State, s2: State, t: Tid)
    requires Freeing(s) && t in s.threads && FreeMove(s, s2, t)
    ensures Freeing(s2) && WVal(s) == 0
  {}

  lemma FreeData(s: State, s2: State, t: Tid)
    requires Locks(s) && DataOk(s) && t in s.threads && FreeOnly(s, s2, t)
    requires Live(s, Strong) == {} && Live(s, Weak) == {} && Live(s, Unique) == {}
    ensures Locks(s2) && DataOk(s2)
  {
    LiveSame(s, s2, Strong);
    LiveSame(s, s2, Weak);
    LiveSame(s, s2, Unique);
    forall u <- s2.threads ensures DataPc(s2, u) { assert DataPc(s, u); }
  }

  lemma FreeKnown(s: State, s2: State, t: Tid)
    requires Known(s) && t in s.threads && FreeOnly(s, s2, t)
    requires Live(s, Strong) == {} && Live(s, Weak) == {} && Live(s, Unique) == {} && WVal(s) == 0
    ensures Known(s2)
  {
    LiveSame(s, s2, Strong);
    LiveSame(s, s2, Weak);
    LiveSame(s, s2, Unique);
    forall g <- s2.handles ensures !s2.handles[g].live { if s.handles[g].live { KindLive(s, g); } }
    forall e | 0 <= e < |s2.events| ensures KnownVia(s2, e, s2.events[e].via) {
      assert KnownVia(s, e, s.events[e].via);
    }
  }

  lemma FreeRest(s: State, s2: State, t: Tid)
    requires Writes(s) && Rises(s) && StrongHistory(s) && WeakHistory(s) && t in s.threads && FreeOnly(s, s2, t)
    requires Live(s, Strong) == {} && Live(s, Weak) == {} && Live(s, Unique) == {}
    ensures Writes(s2) && Rises(s2) && StrongHistory(s2) && WeakHistory(s2)
  {
    LiveSame(s, s2, Strong);
    LiveSame(s, s2, Weak);
    LiveSame(s, s2, Unique);
  }

  lemma KeepsFree(s: State, s2: State, t: Tid)
    requires Inv(s) && t in s.threads && FreeMove(s, s2, t)
    ensures Inv(s2)
  {
    FreeIsOnly(s, s2, t);
    FreeUsage(s, s2, t);
    OverSame(s, s2, t);
    CountsSame(s, s2);
    FreeFreeing(s, s2, t);
    ZeroMeansNone(s);
    FreeData(s, s2, t);
    FreeKnown(s, s2, t);
    FreeRest(s, s2, t);
  }
}

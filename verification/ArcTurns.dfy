/**
  The steps that change what a handle is: locking and unlocking the weak counter, writing and
  ending the data, taking the strong count from 1 to 0 and from 0 to 1.
 */
module ArcTurns {
  import opened Basics
  import opened ArcMachine
  import opened ArcInvariant
  import opened ArcFrames
  import opened ArcAdds

  // ----- Lock and unlock -----

  /** An access that changes the weak counter only. */
  predicate WeakTurn(s: State, s2: State, t: Tid) {
    && Stays(s, s2, t) && WroteW(s, s2) && s2.handles == s.handles
    && s2.data == s.data && s2.ended == s.ended && s2.origin == s.origin && s2.frees == s.frees && s2.freer == s.freer
    && s.threads[t].pc.h in s.handles
    && KindOk(s2.threads[t].pc, s.handles[s.threads[t].pc.h].kind)
    && !s.threads[t].pc.AbortS? && !s2.threads[t].pc.AbortS? && !s.threads[t].pc.AbortW? && !s2.threads[t].pc.AbortW?
    && !s.threads[t].pc.Zero? && !s.threads[t].pc.WSub?
  }

  lemma WeakTurnKeeps(s: State, s2: State, t: Tid)
    requires Inv(s) && WeakTurn(s, s2, t) && s.handles[s.threads[t].pc.h].kind.Strong?
    requires WView(s) <= WView(s2) && WVal(s2) > 0 && WVal(s2) != WVal(s) && DataPc(s2, t)
    ensures Usage(s2) && Known(s2) && DataOk(s2) && Writes(s2) && Freeing(s2)
  {
    assert UserOk(s, t);
    WeakPositive(s, s.threads[t].pc.h);
    UsageStays(s, s2, t);
    LiveSame(s, s2, Strong);
    LiveSame(s, s2, Unique);
    KnownStays(s, s2, t);
    WeakTurnData(s, s2, t);
  }

  lemma WeakTurnData(s: State, s2: State, t: Tid)
    requires Usage(s) && DataOk(s) && Writes(s) && Freeing(s) && WeakTurn(s, s2, t)
    requires WVal(s) > 0 && WVal(s2) > 0 && DataPc(s2, t)
    ensures DataOk(s2) && Writes(s2) && Freeing(s2)
  {
    DataSame(s, s2, t);
    WritesStays(s, s2, t);
  }

  lemma WeakTurnRises(s: State, s2: State, t: Tid)
    requires Usage(s) && Rises(s) && StrongHistory(s) && WeakHistory(s)
    requires WeakTurn(s, s2, t) && s.handles[s.threads[t].pc.h].kind.Strong?
    requires WVal(s) > 0 && WVal(s2) != WVal(s) && s2.wrise == |s.events|
    ensures Rises(s2) && StrongHistory(s2) && WeakHistory(s2)
    ensures OverS(s2) == OverS(s) && OverW(s2) == OverW(s)
  {
    LiveSame(s, s2, Strong);
    LiveSame(s, s2, Unique);
    HistoryW(s, s2);
    OverSame(s, s2, t);
    forall h <- Live(s2, Strong) ensures BornAfterRise(s, h) ==> BornAfterRise(s2, h) {}
  }

  lemma NoOverW(s: State)
    requires Usage(s) && Live(s, Weak) == {} && Live(s, Unique) == {}
    ensures OverW(s) == {}
  {
    if t :| t in OverW(s) {
      assert UserOk(s, t);
      KindLive(s, s.threads[t].pc.h);
    }
  }

  lemma NoOverS(s: State)
    requires Usage(s) && Live(s, Strong) == {}
    ensures OverS(s) == {}
  {
    if t :| t in OverS(s) {
      assert UserOk(s, t);
      KindLive(s, s.threads[t].pc.h);
    }
  }

  function DoLock(s: State, t: Tid): State
    requires t in s.threads && (s.threads[t].pc.Sh? || s.threads[t].pc.Ex?)
  {
    RmwW(s, t, USIZE_MAX, true, false, Lock(s.threads[t].pc.h, s.threads[t].pc.Ex?)).(locker := Some(t))
  }

  lemma LockShape(s: State, t: Tid)
    requires Usage(s) && Locks(s) && t in s.threads && WVal(s) == 1
    requires ShOf(s, s.threads[t].pc, Strong) || ExOf(s, s.threads[t].pc, Strong)
    ensures var s2 := DoLock(s, t);
      && WeakTurn(s, s2, t) && WVal(s2) == USIZE_MAX && s2.locker == Some(t) && s2.threads[t].pc.Lock?
      && s2.wrise == |s.events| && WView(s) <= WView(s2) <= s2.threads[t].view
  {
    RmwShapeW(s, t, USIZE_MAX, true, false, DoLock(s, t).threads[t].pc);
  }

  lemma KeepsLock(s: State, t: Tid)
    requires Inv(s) && t in s.threads && WVal(s) == 1
    requires ShOf(s, s.threads[t].pc, Strong) || ExOf(s, s.threads[t].pc, Strong)
    ensures Inv(DoLock(s, t))
  {
    var s2 := DoLock(s, t);
    LockShape(s, t);
    KindLive(s, s.threads[t].pc.h);
    WeakTurnKeeps(s, s2, t);
    WeakTurnRises(s, s2, t);
    LockCounts(s, s2, t);
  }

  lemma LockCounts(s: State, s2: State, t: Tid)
    requires Counts(s) && Locks(s) && WeakTurn(s, s2, t) && OverS(s2) == OverS(s) && OverW(s2) == OverW(s)
    requires WVal(s) == 1 && WVal(s2) == USIZE_MAX && s2.locker == Some(t) && s2.threads[t].pc.Lock?
    requires Live(s, Strong) != {} && WView(s2) <= s2.threads[t].view
    ensures Counts(s2) && Locks(s2)
  {
    LiveSame(s, s2, Strong);
    LiveSame(s, s2, Weak);
    LiveSame(s, s2, Unique);
  }

  lemma UnlockCounts(s: State, s2: State, t: Tid)
    requires Usage(s) && Counts(s) && Locks(s) && WeakTurn(s, s2, t) && OverS(s2) == OverS(s) && OverW(s2) == OverW(s)
    requires WVal(s2) == 1 && s.threads[t].pc.Unlock? && s2.locker == None && !Locking(s2.threads[t].pc)
    requires Live(s, Strong) != {}
    ensures Counts(s2) && Locks(s2)
  {
    LiveSame(s, s2, Strong);
    LiveSame(s, s2, Weak);
    LiveSame(s, s2, Unique);
    NoOverW(s);
  }

  lemma UnlockShape(s: State, t: Tid)
    requires Usage(s) && Locks(s) && t in s.threads && s.threads[t].pc.Unlock?
    ensures var s2 := DoUnlock(s, t);
      && WeakTurn(s, s2, t) && WVal(s2) == 1 && s2.locker == None && !Locking(s2.threads[t].pc)
      && s2.wrise == |s.events| && WView(s) <= WView(s2)
      && (s2.threads[t].pc.Mut? ==> HasMut(s.threads[t].pc)) && !s2.threads[t].pc.Unlock?
      && (s2.threads[t].pc.Mut? || s2.threads[t].pc.Sh? || s2.threads[t].pc.Ex?)
  {
    assert UserOk(s, t);
  }

  lemma KeepsUnlock(s: State, t: Tid)
    requires Inv(s) && t in s.threads && s.threads[t].pc.Unlock?
    ensures Inv(DoUnlock(s, t))
  {
    var s2 := DoUnlock(s, t);
    UnlockShape(s, t);
    assert UserOk(s, t) && DataPc(s, t);
    KindLive(s, s.threads[t].pc.h);
    WeakTurnKeeps(s, s2, t);
    WeakTurnRises(s, s2, t);
    UnlockCounts(s, s2, t);
  }

  // ----- Writing and ending the data -----

  /** An access to the data that may replace it. */
  predicate DataTurn(s: State, s2: State, t: Tid) {
    && Stays(s, s2, t) && SameCounters(s, s2) && s2.handles == s.handles
    && s2.events[|s.events|].place == OnData(true)
    && SameRole(s.threads[t].pc, s2.threads[t].pc) && !s.threads[t].pc.WSub?
    && s.threads[t].pc.h in s.handles
    && KindOk(s2.threads[t].pc, s.handles[s.threads[t].pc.h].kind)
  }

  lemma DataTurnKeeps(s: State, s2: State, t: Tid)
    requires Inv(s) && DataTurn(s, s2, t) && MayWrite(s, t) && !s.handles[s.threads[t].pc.h].kind.Weak?
    requires DataOk(s2)
    ensures Inv(s2)
  {
    assert UserOk(s, t);
    WeakPositive(s, s.threads[t].pc.h);
    UsageStays(s, s2, t);
    LiveSame(s, s2, Strong);
    LiveSame(s, s2, Unique);
    KnownStays(s, s2, t);
    OverSame(s, s2, t);
    CountsSame(s, s2);
    LocksSame(s, s2, t);
    FreeingSame(s, s2, t);
    WritesStays(s, s2, t);
    RisesSame(s, s2, t);
    HistoriesSame(s, s2, t);
  }

  /** Exclusive use of a strong handle that is alone, or of the unique handle, allows writing. */
  lemma WriterMay(s: State, t: Tid)
    requires Usage(s) && Counts(s) && DataOk(s) && t in s.threads && ExclPc(s.threads[t].pc)
    requires HasMut(s.threads[t].pc) || (s.threads[t].pc.h in s.handles && s.handles[s.threads[t].pc.h].kind.Unique?)
    ensures MayWrite(s, t)
  {
    var h := s.threads[t].pc.h;
    assert UserOk(s, t) && DataPc(s, t);
    KindLive(s, h);
    if s.handles[h].kind.Unique? {
      forall g <- Live(s, Unique) ensures g == h { OnlyUnique(s, g, h); }
    } else if g :| g in Live(s, Weak) {
      assert g == h;
    }
  }

  lemma WriteDataOk(s: State, s2: State, t: Tid)
    requires Usage(s) && Counts(s) && DataOk(s) && DataTurn(s, s2, t) && s2.threads[t].pc == s.threads[t].pc
    requires s2.data.Init? && s2.ended == s.ended && (HasMut(s.threads[t].pc) || s.threads[t].pc.Ex?)
    requires MayWrite(s, t) && !s.handles[s.threads[t].pc.h].kind.Weak?
    ensures DataOk(s2)
  {
    var h := s.threads[t].pc.h;
    assert UserOk(s, t) && DataPc(s, t);
    KindLive(s, h);
    LiveSame(s, s2, Strong);
    LiveSame(s, s2, Unique);
    assert s.data.Ended? ==> Leaving(s, h);
    forall u <- s2.threads ensures DataPc(s2, u) { assert DataPc(s, u) && UserOk(s, u); }
    forall g <- s2.handles ensures DeadUnique(s2, g) ==> DeadUnique(s, g) {}
  }

  lemma DataTurnShape(s: State, t: Tid, pc: Pc)
    requires Usage(s) && t in s.threads
    requires (pc == s.threads[t].pc && (pc.Mut? || pc.Ex?)) || (s.threads[t].pc.Own? && pc == WSub(s.threads[t].pc.h))
    ensures var s2 := TouchData(s, t, true, pc);
      && DataTurn(s, s2, t) && s2.ended == s.ended && s2.data == s.data && s2.threads[t].pc == pc
  {
    assert UserOk(s, t);
  }

  lemma WriteKeeps(s: State, s2: State, t: Tid)
    requires Inv(s) && DataTurn(s, s2, t) && s2.threads[t].pc == s.threads[t].pc
    requires s2.data.Init? && s2.ended == s.ended && (s.threads[t].pc.Mut? || ExOf(s, s.threads[t].pc, Unique))
    ensures Inv(s2)
  {
    assert UserOk(s, t);
    WriterMay(s, t);
    WriteDataOk(s, s2, t);
    DataTurnKeeps(s, s2, t);
  }

  lemma KeepsWrite(s: State, t: Tid, v: int)
    requires Inv(s) && t in s.threads && (s.threads[t].pc.Mut? || ExOf(s, s.threads[t].pc, Unique))
    ensures Inv(TouchData(s, t, true, s.threads[t].pc).(data := Init(v)))
  {
    WriteShape(s, t, v);
    WriteKeeps(s, TouchData(s, t, true, s.threads[t].pc).(data := Init(v)), t);
  }

  lemma WriteShape(s: State, t: Tid, v: int)
    requires Usage(s) && t in s.threads && (s.threads[t].pc.Mut? || ExOf(s, s.threads[t].pc, Unique))
    ensures var s2 := TouchData(s, t, true, s.threads[t].pc).(data := Init(v));
      DataTurn(s, s2, t) && s2.threads[t].pc == s.threads[t].pc && s2.data.Init? && s2.ended == s.ended
  {
    DataTurnShape(s, t, s.threads[t].pc);
  }

  lemma EndDataOk(s: State, s2: State, t: Tid)
    requires Usage(s) && Counts(s) && DataOk(s) && DataTurn(s, s2, t)
    requires s.threads[t].pc.Own? && s2.threads[t].pc.WSub?
    requires s2.data.Ended? && |s2.ended| == |s.ended| + 1
    ensures DataOk(s2)
  {
    var h := s.threads[t].pc.h;
    assert UserOk(s, t) && DataPc(s, t) && HandleOk(s, h);
    KindLive(s, h);
    LiveSame(s, s2, Strong);
    LiveSame(s, s2, Unique);
    forall g <- Live(s2, Unique) ensures Leaving(s2, g) { OnlyUnique(s, g, h); }
    forall u <- s2.threads ensures DataPc(s2, u) {
      assert DataPc(s, u);
      if u != t { EndOthers(s, t, u); }
    }
    forall g <- s2.handles ensures DeadUnique(s2, g) ==> DeadUnique(s, g) {}
  }

  /** No other thread uses data that thread `t` owns alone. */
  lemma EndOthers(s: State, t: Tid, u: Tid)
    requires Usage(s) && Counts(s) && t in s.threads && u in s.threads && u != t
    requires ExclPc(s.threads[t].pc) && s.threads[t].pc.h in Live(s, Unique)
    ensures var p := s.threads[u].pc; !p.Zero? && !p.MM? && !p.MMR? && !p.Own? && !p.WSub? && !HasMut(p)
  {
    var h := s.threads[t].pc.h;
    assert UserOk(s, t) && UserOk(s, u);
    var p := s.threads[u].pc;
    if p.Zero? || p.MM? || p.MMR? || p.Own? || p.WSub? || HasMut(p) {
      KindLive(s, p.h);
      if p.h in Live(s, Unique) { OnlyUnique(s, p.h, h); }
    }
  }

  lemma EndDataKeeps(s: State, s2: State, t: Tid)
    requires Inv(s) && DataTurn(s, s2, t) && s.threads[t].pc.Own? && s2.threads[t].pc.WSub?
    requires s2.data.Ended? && |s2.ended| == |s.ended| + 1
    ensures Inv(s2)
  {
    assert UserOk(s, t);
    WriterMay(s, t);
    EndDataOk(s, s2, t);
    DataTurnKeeps(s, s2, t);
  }

  lemma KeepsEndData(s: State, t: Tid)
    requires Inv(s) && t in s.threads && s.threads[t].pc.Own?
    ensures Inv(DoEndData(s, t))
  {
    EndDataShape(s, t);
    EndDataKeeps(s, DoEndData(s, t), t);
  }

  lemma EndDataShape(s: State, t: Tid)
    requires Usage(s) && t in s.threads && s.threads[t].pc.Own?
    ensures var s2 := DoEndData(s, t);
      DataTurn(s, s2, t) && s2.threads[t].pc.WSub? && s2.data.Ended? && |s2.ended| == |s.ended| + 1
  {
    DataTurnShape(s, t, WSub(s.threads[t].pc.h));
  }

  // ----- Strong count 1 to 0 -----

  /** An exclusive access to the strong counter that may change the kind of the handle. */
  predicate StrongTurn(s: State, s2: State, t: Tid) {
    && Stays(s, s2, t) && WroteS(s, s2) && ExclPc(s.threads[t].pc) && s.threads[t].pc.h in s.handles
    && s2.data == s.data && s2.ended == s.ended && s2.origin == s.origin
    && s2.frees == s.frees && s2.freer == s.freer && s2.locker == s.locker
    && s2.handles == s.handles[s.threads[t].pc.h := s2.handles[s.threads[t].pc.h]]
    && KindOk(s2.threads[t].pc, s2.handles[s.threads[t].pc.h].kind)
    && !Locking(s.threads[t].pc) && !Locking(s2.threads[t].pc) && !s.threads[t].pc.WSub? && !s.threads[t].pc.Zero?
  }

  /** The last strong handle takes the count to 0 and keeps the implicit weak reference. */
  predicate ToZero(s: State, s2: State, t: Tid) {
    && StrongTurn(s, s2, t)
    && SVal(s) == 1 && SVal(s2) == 0
    && s.handles[s.threads[t].pc.h].kind.Strong? && s2.handles[s.threads[t].pc.h].kind.Unique?
    && (s2.threads[t].pc.Zero? || s2.threads[t].pc.MM?)
    && SView(s) <= (if s2.threads[t].pc.Zero? then s2.threads[t].pend else s2.threads[t].view)
  }

  lemma ToZeroLive(s: State, s2: State, t: Tid)
    requires Usage(s) && Counts(s) && Locks(s) && ToZero(s, s2, t)
    ensures Live(s, Strong) == {s.threads[t].pc.h} && Live(s2, Strong) == {} && Live(s2, Unique) == {s.threads[t].pc.h}
    ensures Live(s, Unique) == {} && Live(s2, Weak) == Live(s, Weak)
    ensures OverS(s2) == OverS(s) == {} && OverW(s2) == OverW(s) && s.locker.None?
  {
    var h := s.threads[t].pc.h;
    assert UserOk(s, t) && HandleOk(s, h);
    KindLive(s, h);
    forall g <- Live(s, Strong) ensures g == h { OnlyStrong(s, g, h); }
    OverSame(s, s2, t);
    assert |OverS(s)| == 0;
    if s.locker.Some? {
      assert UserOk(s, s.locker.value);
      KindLive(s, s.threads[s.locker.value].pc.h);
    }
    assert Live(s2, Weak) == Live(s, Weak);
    KindLive(s2, h);
    forall g ensures g !in Live(s2, Strong) && (g in Live(s2, Unique) ==> g == h) {
      assert g != h && g in Live(s2, Strong) ==> g in Live(s, Strong);
      assert g != h && g in Live(s2, Unique) ==> g in Live(s, Unique);
    }
  }

  lemma ToZeroKnown(s: State, s2: State, t: Tid)
    requires Usage(s) && Counts(s) && Known(s) && Locks(s) && ToZero(s, s2, t)
    ensures Known(s2)
  {
    ToZeroLive(s, s2, t);
    var h := s.threads[t].pc.h;
    assert UserOk(s2, t) by { assert UserOk(s, t); }
    forall e | 0 <= e < |s2.events| ensures KnownVia(s2, e, s2.events[e].via) {
      if e == |s.events| {
        HoldsNew(s, s2, t);
      } else {
        var g := s.events[e].via;
        assert KnownVia(s, e, g);
        if s.handles[g].live { HoldsStays(s, s2, t, g, e); }
      }
    }
  }

  lemma ToZeroData(s: State, s2: State, t: Tid)
    requires Usage(s) && Counts(s) && DataOk(s) && Locks(s) && ToZero(s, s2, t)
    ensures DataOk(s2)
  {
    ToZeroLive(s, s2, t);
    var h := s.threads[t].pc.h;
    assert UserOk(s, t);
    forall u <- s2.threads ensures DataPc(s2, u) {
      assert DataPc(s, u) && UserOk(s, u);
      if HasMut(s.threads[u].pc) || s.threads[u].pc.MMR? { KindLive(s, s.threads[u].pc.h); }
    }
    forall g <- s2.handles ensures !DeadUnique(s2, g) { assert !DeadUnique(s, g); }
  }

  lemma ToZeroSees(s: State, s2: State, t: Tid, e: nat)
    requires Usage(s) && Counts(s) && Writes(s) && Locks(s) && ToZero(s, s2, t)
    requires e < |s2.events| && IsWrite(s2.events[e])
    ensures SeesWrite(s2, s.threads[t].pc.h, e)
  {
    ToZeroLive(s, s2, t);
    assert UserOk(s, t);
    assert IsWrite(s.events[e]) && SeesWrite(s, s.threads[t].pc.h, e);
  }

  lemma ToZeroWrites(s: State, s2: State, t: Tid)
    requires Usage(s) && Counts(s) && Writes(s) && Locks(s) && ToZero(s, s2, t)
    ensures Writes(s2)
  {
    ToZeroLive(s, s2, t);
    forall e | 0 <= e < |s2.events| && IsWrite(s2.events[e]) ensures SeesWrite(s2, s.threads[t].pc.h, e) {
      ToZeroSees(s, s2, t, e);
    }
    ToZeroAccesses(s, s2, t);
  }

  lemma ToZeroAccesses(s: State, s2: State, t: Tid)
    requires Usage(s) && Writes(s) && ToZero(s, s2, t)
    ensures forall e | 0 <= e < |s2.events| && IsDataAccess(s2.events[e]) ::
      s2.events[e].via in s2.handles && !s2.handles[s2.events[e].via].kind.Weak?
  {
    forall e | 0 <= e < |s2.events| && IsDataAccess(s2.events[e])
      ensures s2.events[e].via in s2.handles && !s2.handles[s2.events[e].via].kind.Weak?
    {
      assert IsDataAccess(s.events[e]);
    }
  }

  lemma ToZeroKeeps(s: State, s2: State, t: Tid)
    requires Inv(s) && ToZero(s, s2, t)
    ensures Inv(s2)
  {
    ToZeroLive(s, s2, t);
    assert UserOk(s, t);
    UsageStays(s, s2, t);
    ToZeroKnown(s, s2, t);
    ToZeroData(s, s2, t);
    ToZeroWrites(s, s2, t);
    ToZeroRest(s, s2, t);
  }

  lemma ToZeroRest(s: State, s2: State, t: Tid)
    requires Usage(s) && Counts(s) && Locks(s) && Freeing(s) && Rises(s) && StrongHistory(s) && WeakHistory(s)
    requires ToZero(s, s2, t)
    ensures Counts(s2) && Locks(s2) && Freeing(s2) && Rises(s2) && StrongHistory(s2) && WeakHistory(s2)
  {
    ToZeroLive(s, s2, t);
    assert UserOk(s, t);
    WeakPositive(s, s.threads[t].pc.h);
    HistoryS(s, s2);
  }

  lemma ZeroShape(s: State, t: Tid, acquire: bool, release: bool, pc: Pc)
    requires Usage(s) && t in s.threads && (s.threads[t].pc.Ex? || s.threads[t].pc.Dr?)
    requires HasKind(s, s.threads[t].pc.h, Strong) && SVal(s) == 1
    requires (pc.Zero? || (pc.MM? && acquire)) && pc.h == s.threads[t].pc.h
    ensures ToZero(s, SetKind(RmwS(s, t, 0, acquire, release, pc), pc.h, Unique), t)
  {
    assert UserOk(s, t);
    RmwShapeS(s, t, 0, acquire, release, pc);
  }

  lemma KeepsZero(s: State, t: Tid, acquire: bool, release: bool, pc: Pc)
    requires Inv(s) && t in s.threads && (s.threads[t].pc.Ex? || s.threads[t].pc.Dr?)
    requires HasKind(s, s.threads[t].pc.h, Strong) && SVal(s) == 1
    requires (pc.Zero? || (pc.MM? && acquire)) && pc.h == s.threads[t].pc.h
    ensures Inv(SetKind(RmwS(s, t, 0, acquire, release, pc), pc.h, Unique))
  {
    ZeroShape(s, t, acquire, release, pc);
    ToZeroKeeps(s, SetKind(RmwS(s, t, 0, acquire, release, pc), pc.h, Unique), t);
  }

  // ----- Strong count 0 to 1 -----

  /** The unique handle becomes a strong one; Release publishes all its thread knows. */
  predicate ToOne(s: State, s2: State, t: Tid) {
    && StrongTurn(s, s2, t)
    && SVal(s) == 0 && SVal(s2) == 1 && s.data.Init?
    && s.handles[s.threads[t].pc.h].kind.Unique? && s2.handles[s.threads[t].pc.h].kind.Strong?
    && ((s.threads[t].pc.Ex? && s2.threads[t].pc.Ex?) || (s.threads[t].pc.MMR? && s2.threads[t].pc.Mut?))
    && s.threads[t].view + {|s.events|} <= SView(s2)
    && (s2.threads[t].pc.Mut? ==> SView(s2) <= s2.threads[t].view)
  }

  lemma ToOneLive(s: State, s2: State, t: Tid)
    requires Usage(s) && Counts(s) && Locks(s) && ToOne(s, s2, t)
    ensures Live(s, Unique) == {s.threads[t].pc.h} && Live(s2, Unique) == {} && Live(s2, Strong) == {s.threads[t].pc.h}
    ensures Live(s, Strong) == {} && Live(s2, Weak) == Live(s, Weak)
    ensures OverS(s2) == OverS(s) == {} && OverW(s2) == OverW(s) && s.locker.None?
  {
    var h := s.threads[t].pc.h;
    assert UserOk(s, t);
    KindLive(s, h);
    forall g <- Live(s, Unique) ensures g == h { OnlyUnique(s, g, h); }
    NotLocked(s, h);
    NoOverS(s);
    OverSame(s, s2, t);
    assert Live(s2, Weak) == Live(s, Weak);
    KindLive(s2, h);
    forall g ensures g !in Live(s2, Unique) && (g in Live(s2, Strong) ==> g == h) {
      assert g != h && g in Live(s2, Unique) ==> g in Live(s, Unique);
      assert g != h && g in Live(s2, Strong) ==> g in Live(s, Strong);
    }
  }

  lemma ToOneKnown(s: State, s2: State, t: Tid)
    requires Usage(s) && Counts(s) && Known(s) && Locks(s) && ToOne(s, s2, t)
    ensures Known(s2)
  {
    ToOneLive(s, s2, t);
    var h := s.threads[t].pc.h;
    assert UserOk(s, t);
    forall e | 0 <= e < |s2.events| ensures KnownVia(s2, e, s2.events[e].via) {
      if e == |s.events| {
        HoldsNew(s, s2, t);
      } else {
        var g := s.events[e].via;
        assert KnownVia(s, e, g);
        if s.handles[g].live { HoldsStays(s, s2, t, g, e); }
        if !s.handles[g].live && s.handles[g].kind.Strong? { assert WillHold(s, h, e); }
      }
    }
  }

  lemma ToOneData(s: State, s2: State, t: Tid)
    requires Usage(s) && Counts(s) && DataOk(s) && Locks(s) && ToOne(s, s2, t)
    ensures DataOk(s2)
  {
    ToOneLive(s, s2, t);
    var h := s.threads[t].pc.h;
    assert UserOk(s, t) && DataPc(s, t);
    KindLive(s, h);
    forall u <- s2.threads ensures DataPc(s2, u) {
      assert DataPc(s, u);
      if u != t { EndOthers(s, t, u); }
    }
    forall g <- s2.handles ensures !DeadUnique(s2, g) { assert !DeadUnique(s, g); }
  }

  lemma ToOneWrites(s: State, s2: State, t: Tid)
    requires Usage(s) && Counts(s) && Writes(s) && Locks(s) && ToOne(s, s2, t)
    ensures Writes(s2)
  {
    ToOneLive(s, s2, t);
    var h := s.threads[t].pc.h;
    assert UserOk(s, t);
    forall e | 0 <= e < |s2.events| && IsWrite(s2.events[e]) ensures SeesWrite(s2, h, e) && e in SView(s2) {
      assert IsWrite(s.events[e]) && SeesWrite(s, h, e);
    }
    forall e | 0 <= e < |s2.events| && IsDataAccess(s2.events[e])
      ensures s2.events[e].via in s2.handles && !s2.handles[s2.events[e].via].kind.Weak?
    {
      assert IsDataAccess(s.events[e]);
    }
  }

  lemma ToOneKeeps(s: State, s2: State, t: Tid)
    requires Inv(s) && ToOne(s, s2, t)
    ensures Inv(s2)
  {
    ToOneLive(s, s2, t);
    assert UserOk(s, t);
    UsageStays(s, s2, t);
    ToOneKnown(s, s2, t);
    ToOneData(s, s2, t);
    ToOneWrites(s, s2, t);
    ToOneRest(s, s2, t);
  }

  lemma ToOneRest(s: State, s2: State, t: Tid)
    requires Usage(s) && Counts(s) && Locks(s) && Freeing(s) && Rises(s) && StrongHistory(s) && WeakHistory(s)
    requires ToOne(s, s2, t)
    ensures Counts(s2) && Locks(s2) && Freeing(s2) && Rises(s2) && StrongHistory(s2) && WeakHistory(s2)
  {
    ToOneLive(s, s2, t);
    assert UserOk(s, t);
    WeakPositive(s, s.threads[t].pc.h);
    HistoryS(s, s2);
  }

  /** Without strong handles the strong count is 0. */
  lemma UniqueMeansZero(s: State, h: Hid)
    requires Usage(s) && Counts(s) && h in Live(s, Unique)
    ensures SVal(s) == 0
  {
    NoOverS(s);
  }

  function DoRestore(s: State, t: Tid): State
    requires t in s.threads && s.threads[t].pc.MMR? && s.threads[t].pc.h in s.handles
  {
    SetKind(StoreS(s, t, 1, Mut(s.threads[t].pc.h)), s.threads[t].pc.h, Strong)
  }

  lemma RestoreShape(s: State, t: Tid)
    requires Usage(s) && t in s.threads && s.threads[t].pc.MMR? && s.threads[t].pc.h in s.handles
    requires SVal(s) == 0 && s.data.Init?
    ensures ToOne(s, DoRestore(s, t), t)
  {
    assert UserOk(s, t);
  }

  lemma KeepsRestore(s: State, t: Tid)
    requires Inv(s) && t in s.threads && s.threads[t].pc.MMR? && s.threads[t].pc.h in s.handles
    ensures Inv(DoRestore(s, t))
  {
    assert UserOk(s, t) && DataPc(s, t);
    KindLive(s, s.threads[t].pc.h);
    UniqueMeansZero(s, s.threads[t].pc.h);
    RestoreShape(s, t);
    ToOneKeeps(s, DoRestore(s, t), t);
  }

  lemma PublishShape(s: State, t: Tid)
    requires Usage(s) && t in s.threads && ExOf(s, s.threads[t].pc, Unique) && SVal(s) == 0 && s.data.Init?
    ensures ToOne(s, DoPublish(s, t), t)
  {
    if s.origin.FromCyclic? { PublishAdd(s, t); } else { PublishStore(s, t); }
  }

  lemma PublishStore(s: State, t: Tid)
    requires Usage(s) && t in s.threads && ExOf(s, s.threads[t].pc, Unique) && SVal(s) == 0 && s.data.Init?
    requires !s.origin.FromCyclic?
    ensures ToOne(s, DoPublish(s, t), t)
  {
    assert UserOk(s, t);
  }

  lemma PublishAdd(s: State, t: Tid)
    requires Usage(s) && t in s.threads && ExOf(s, s.threads[t].pc, Unique) && SVal(s) == 0 && s.data.Init?
    requires s.origin.FromCyclic?
    ensures ToOne(s, DoPublish(s, t), t)
  {
    assert UserOk(s, t);
    RmwShapeS(s, t, 1, false, true, s.threads[t].pc);
  }

  lemma KeepsPublish(s: State, t: Tid)
    requires Inv(s) && t in s.threads && ExOf(s, s.threads[t].pc, Unique) && s.data.Init?
    ensures Inv(DoPublish(s, t))
  {
    KindLive(s, s.threads[t].pc.h);
    UniqueMeansZero(s, s.threads[t].pc.h);
    PublishShape(s, t);
    ToOneKeeps(s, DoPublish(s, t), t);
  }
}

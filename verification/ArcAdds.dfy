/** The steps that add a handle: `clone`, `downgrade`, `upgrade` and `Weak::clone`. */
module ArcAdds {
  import opened Basics
  import opened ArcMachine
  import opened ArcInvariant
  import opened ArcFrames

  // ----- Counter histories -----

  /** `strong` got one more message. */
  predicate WroteS(s: State, s2: State) {
    && s2.weak == s.weak && s2.wrise == s.wrise
    && 0 < |s.strong| && |s2.strong| == |s.strong| + 1 && s2.strong[..|s.strong|] == s.strong
    && |s2.events| == |s.events| + 1 && s2.events[..|s.events|] == s.events
    && s2.events[|s.events|].place == OnStrong(|s.strong|)
    && s2.rise == (if SVal(s) <= 1 && SVal(s) < SVal(s2) then |s.events| else s.rise)
  }

  /** `weak` got one more message. */
  predicate WroteW(s: State, s2: State) {
    && s2.strong == s.strong && s2.rise == s.rise
    && 0 < |s.weak| && |s2.weak| == |s.weak| + 1 && s2.weak[..|s.weak|] == s.weak
    && |s2.events| == |s.events| + 1 && s2.events[..|s.events|] == s.events
    && s2.events[|s.events|].place == OnWeak(|s.weak|)
    && s2.wrise ==
         (if (WVal(s) == 1 && 1 < WVal(s2)) || (WVal(s) == USIZE_MAX && WVal(s2) == 1) then |s.events| else s.wrise)
  }

  lemma RmwShapeS(s: State, t: Tid, val: nat, acquire: bool, release: bool, pc: Pc)
    requires t in s.threads && 0 < |s.strong| && 0 < |s.weak|
    ensures var s2 := RmwS(s, t, val, acquire, release, pc);
      && WroteS(s, s2) && OneAccess(s, s2, t) && SVal(s2) == val && SView(s) <= SView(s2)
      && (acquire ==> SView(s) <= s2.threads[t].view) && SView(s) <= s2.threads[t].pend
      && (release ==> s2.threads[t].view <= SView(s2) + SView(s))
      && (release ==> s.threads[t].view + {|s.events|} <= SView(s2))
  {}

  lemma RmwShapeW(s: State, t: Tid, val: nat, acquire: bool, release: bool, pc: Pc)
    requires t in s.threads && 0 < |s.strong| && 0 < |s.weak| && (WVal(s) == USIZE_MAX ==> val != 1)
    ensures var s2 := RmwW(s, t, val, acquire, release, pc);
      && WroteW(s, s2) && OneAccess(s, s2, t) && WVal(s2) == val && WView(s) <= WView(s2)
      && (acquire ==> WView(s) <= s2.threads[t].view) && WView(s) <= s2.threads[t].pend
      && (release ==> s.threads[t].view + {|s.events|} <= WView(s2))
  {}

  lemma HistoryS(s: State, s2: State)
    requires WroteS(s, s2) && StrongHistory(s) && WeakHistory(s) && SVal(s2) != SVal(s)
    ensures StrongHistory(s2) && WeakHistory(s2)
    ensures RiseIdx(s2) == if s2.rise == s.rise then RiseIdx(s) else |s.strong|
  {
    assert s2.events[s.wrise] == s.events[s.wrise] && s2.events[s.rise] == s.events[s.rise];
    forall i | RiseIdx(s2) <= i < |s2.strong| - 1 && SVal(s2) > 0 ensures s2.strong[i].val != 1 {
      assert s2.strong[i] == s.strong[i];
    }
  }

  lemma HistoryW(s: State, s2: State)
    requires WroteW(s, s2) && StrongHistory(s) && WeakHistory(s) && WVal(s2) != WVal(s) && WVal(s) > 0
    ensures StrongHistory(s2) && WeakHistory(s2)
    ensures RiseIdx(s2) == RiseIdx(s)
  {
    assert s2.events[s.wrise] == s.events[s.wrise] && s2.events[s.rise] == s.events[s.rise];
    forall i | WRiseIdx(s2) <= i < |s2.weak| - 1 && WVal(s2) > 0 ensures s2.weak[i].val != 1 {
      assert s2.weak[i] == s.weak[i];
    }
  }

  // ----- Sets of handles -----

  lemma LiveAdd(s: State, s2: State, n: Hid, k: Kind)
    requires n !in s.handles && n in s2.handles && s2.handles[n].live && s2.handles[n].kind == k
    requires s2.handles == s.handles[n := s2.handles[n]]
    ensures Live(s2, k) == Live(s, k) + {n} && |Live(s2, k)| == |Live(s, k)| + 1
    ensures forall j: Kind :: j != k ==> Live(s2, j) == Live(s, j)
  {
    forall j: Kind | j != k ensures Live(s2, j) == Live(s, j) {}
    assert Live(s2, k) == Live(s, k) + {n};
  }

  /** While someone shares a handle, nobody has `&mut T` or is about to get it back. */
  lemma NobodyAlone(s: State, t: Tid, u: Tid)
    requires Usage(s) && DataOk(s) && t in s.threads && u in s.threads && SharedPc(s.threads[t].pc)
    ensures !HasMut(s.threads[u].pc) && !s.threads[u].pc.MMR?
  {
    assert UserOk(s, t) && UserOk(s, u) && DataPc(s, u);
  }

  /** A shared step that may add a handle. */
  predicate Grows(s: State, s2: State, t: Tid, n: Hid, k: Kind) {
    && Stays(s, s2, t) && SharedPc(s.threads[t].pc)
    && SameRole(s.threads[t].pc, Sh(0)) && !s2.threads[t].pc.Lock? && !s2.threads[t].pc.Unlock?
    && s2.data == s.data && s2.ended == s.ended && s2.frees == s.frees && s2.freer == s.freer
    && s2.locker == s.locker && s2.origin == s.origin
    && n !in s.handles && !k.Unique?
    && (s2.handles == s.handles ||
        s2.handles == s.handles[n := Handle(k, true, s2.threads[t].view, {}, {}, None, |s.events|)])
  }

  lemma DataGrows(s: State, s2: State, t: Tid, n: Hid, k: Kind)
    requires Usage(s) && DataOk(s) && Grows(s, s2, t, n, k)
    requires k.Strong? ==> Live(s, Strong) != {}
    ensures DataOk(s2)
  {
    GrowLive(s, s2, t, n, k);
    forall u <- s2.threads ensures DataPc(s2, u) {
      NobodyAlone(s, t, u);
      assert DataPc(s, u);
    }
    forall h <- Live(s2, Unique) ensures s2.data.Ended? ==> Leaving(s2, h) {
      assert s.data.Ended? ==> Leaving(s, h);
    }
    forall g <- s2.handles ensures DeadUnique(s2, g) ==> g in s.handles && DeadUnique(s, g) {}
  }

  lemma GrowLive(s: State, s2: State, t: Tid, n: Hid, k: Kind)
    requires Grows(s, s2, t, n, k) && (k.Strong? ==> Live(s, Strong) != {})
    ensures Live(s2, Unique) == Live(s, Unique) && (Live(s2, Strong) == {} <==> Live(s, Strong) == {})
    ensures Live(s2, Strong) - {n} <= Live(s, Strong) && Live(s2, Weak) - {n} <= Live(s, Weak)
    ensures Live(s, Strong) <= Live(s2, Strong)
  {
    if s2.handles == s.handles {
      LiveSame(s, s2, Strong);
      LiveSame(s, s2, Unique);
      LiveSame(s, s2, Weak);
    } else {
      LiveAdd(s, s2, n, k);
    }
  }

  lemma WritesGrowsAt(s: State, s2: State, t: Tid, n: Hid, k: Kind, e: nat, h: Hid)
    requires Usage(s) && Writes(s) && Counts(s) && Grows(s, s2, t, n, k) && SView(s) <= SView(s2)
    requires s.threads[t].pc.h in s.handles
    requires k.Strong? ==> Live(s, Strong) != {}
    requires k.Strong? ==> s.handles[s.threads[t].pc.h].kind.Strong? || SView(s) <= s2.threads[t].view
    requires e < |s.events| && IsWrite(s.events[e]) && h in s2.handles
    ensures h in Live(s2, Strong) || h in Live(s2, Unique) ==> SeesWrite(s2, h, e)
    ensures Live(s, Strong) != {} && h in Live(s2, Weak) ==> e in s2.handles[h].base || e in SView(s2)
  {
    var g := s.threads[t].pc.h;
    assert UserOk(s, t) && HandleOk(s, g);
    KindLive(s, g);
    assert g in Live(s, Strong) || g in Live(s, Unique) ==> SeesWrite(s, g, e);
    if h in s.handles {
      assert h in Live(s, Strong) || h in Live(s, Unique) ==> SeesWrite(s, h, e);
      assert HandleOk(s, h);
    }
  }

  lemma WritesGrowsLive(s: State, s2: State, t: Tid, n: Hid, k: Kind, e: nat)
    requires Usage(s) && Writes(s) && Counts(s) && Grows(s, s2, t, n, k) && SView(s) <= SView(s2)
    requires s.threads[t].pc.h in s.handles
    requires !IsDataAccess(s2.events[|s.events|])
    requires k.Strong? ==> Live(s, Strong) != {}
    requires k.Strong? ==> s.handles[s.threads[t].pc.h].kind.Strong? || SView(s) <= s2.threads[t].view
    requires e < |s2.events| && IsWrite(s2.events[e])
    ensures forall h <- s2.handles :: h in Live(s2, Strong) || h in Live(s2, Unique) ==> SeesWrite(s2, h, e)
    ensures Live(s2, Strong) != {} ==> forall h <- Live(s2, Weak) :: e in s2.handles[h].base || e in SView(s2)
  {
    WritesStay(s, s2, t, n, k);
    forall h <- s2.handles
      ensures h in Live(s2, Strong) || h in Live(s2, Unique) ==> SeesWrite(s2, h, e)
      ensures Live(s2, Strong) != {} && h in Live(s2, Weak) ==> e in s2.handles[h].base || e in SView(s2)
    {
      WritesGrowsAt(s, s2, t, n, k, e, h);
    }
  }

  lemma WritesGrows(s: State, s2: State, t: Tid, n: Hid, k: Kind)
    requires Usage(s) && Writes(s) && Counts(s) && Grows(s, s2, t, n, k) && SView(s) <= SView(s2)
    requires s.threads[t].pc.h in s.handles
    requires !IsDataAccess(s2.events[|s.events|])
    requires k.Strong? ==> Live(s, Strong) != {}
    requires k.Strong? ==> s.handles[s.threads[t].pc.h].kind.Strong? || SView(s) <= s2.threads[t].view
    ensures Writes(s2)
  {
    AccessesGrow(s, s2, t, n, k);
    forall e | 0 <= e < |s2.events| && IsWrite(s2.events[e])
      ensures forall h <- s2.handles :: h in Live(s2, Strong) || h in Live(s2, Unique) ==> SeesWrite(s2, h, e)
      ensures Live(s2, Strong) != {} ==> forall h <- Live(s2, Weak) :: e in s2.handles[h].base || e in SView(s2)
    {
      WritesGrowsLive(s, s2, t, n, k, e);
    }
  }

  /** No write was added, and there are strong handles now only if there were before. */
  lemma WritesStay(s: State, s2: State, t: Tid, n: Hid, k: Kind)
    requires Usage(s) && Counts(s) && Grows(s, s2, t, n, k) && !IsDataAccess(s2.events[|s.events|])
    requires k.Strong? ==> Live(s, Strong) != {}
    ensures forall e :: 0 <= e < |s2.events| && IsWrite(s2.events[e]) ==> e < |s.events| && IsWrite(s.events[e])
    ensures Live(s2, Strong) != {} ==> Live(s, Strong) != {}
  {
    GrowLive(s, s2, t, n, k);
  }

  lemma AccessesGrow(s: State, s2: State, t: Tid, n: Hid, k: Kind)
    requires Writes(s) && Grows(s, s2, t, n, k) && !IsDataAccess(s2.events[|s.events|])
    ensures forall e | 0 <= e < |s2.events| && IsDataAccess(s2.events[e]) ::
      s2.events[e].via in s2.handles && !s2.handles[s2.events[e].via].kind.Weak?
  {
    forall e | 0 <= e < |s2.events| && IsDataAccess(s2.events[e])
      ensures s2.events[e].via in s2.handles && !s2.handles[s2.events[e].via].kind.Weak?
    {
      assert IsDataAccess(s.events[e]);
    }
  }

  lemma RisesStrongAdd(s: State, s2: State, t: Tid, n: Hid)
    requires Usage(s) && Counts(s) && Rises(s) && Grows(s, s2, t, n, Strong) && WroteS(s, s2)
    requires s.threads[t].pc.h in s.handles && SVal(s) > 0 && RiseIdx(s2) <= |s.strong|
    requires s2.rise == s.rise ==> RiseIdx(s2) == RiseIdx(s)
    requires Live(s, Strong) != {}
    ensures Rises(s2)
  {
    var g := s.threads[t].pc.h;
    assert UserOk(s, t);
    KindLive(s, g);
    GrowLive(s, s2, t, n, Strong);
    forall h <- Live(s2, Strong)
      ensures BornAfterRise(s2, h) || s2.events[s2.rise].via == h || s2.handles[s2.events[s2.rise].via].kind.Weak?
    {
      if h in s.handles {
        assert BornAfterRise(s, h) && s2.rise == s.rise ==> BornAfterRise(s2, h);
        if SVal(s) == 1 && s.handles[g].kind.Strong? { OnlyStrong(s, g, h); }
      }
    }
  }

  lemma RisesWeakAdd(s: State, s2: State, t: Tid, n: Hid)
    requires Usage(s) && Counts(s) && Rises(s) && Grows(s, s2, t, n, Weak) && WroteW(s, s2)
    requires s.threads[t].pc.h in s.handles && s.locker.None? && RiseIdx(s2) == RiseIdx(s)
    requires WVal(s2) == WVal(s) + 1
    ensures Rises(s2)
  {
    var g := s.threads[t].pc.h;
    assert UserOk(s, t);
    KindLive(s, g);
    GrowLive(s, s2, t, n, Weak);
    if s.handles[g].kind.Weak? {
      assert |Live(s, Weak)| > 0;
    }
    forall h <- Live(s2, Strong) ensures h in s.handles && (BornAfterRise(s, h) ==> BornAfterRise(s2, h)) {}
  }

  lemma LocksGrow(s: State, s2: State, t: Tid, n: Hid, k: Kind)
    requires Locks(s) && Grows(s, s2, t, n, k)
    requires k.Weak? ==> s.locker.None?
    requires k.Strong? ==> s2.weak == s.weak && Live(s, Strong) != {}
    ensures Locks(s2)
  {
    GrowLive(s, s2, t, n, k);
    if k.Strong? { assert n !in Live(s2, Weak); }
  }

  lemma CountsStrongAdd(s: State, s2: State, t: Tid, n: Hid)
    requires Counts(s) && Grows(s, s2, t, n, Strong) && s2.handles != s.handles && Live(s, Strong) != {}
    requires SVal(s) <= MAX_REFCOUNT && SVal(s2) == SVal(s) + 1 && WVal(s2) == WVal(s)
    requires OverS(s2) == OverS(s) && OverW(s2) == OverW(s)
    ensures Counts(s2)
  {
    LiveAdd(s, s2, n, Strong);
  }

  lemma CountsWeakAdd(s: State, s2: State, t: Tid, n: Hid)
    requires Counts(s) && Grows(s, s2, t, n, Weak) && s2.handles != s.handles && s.locker.None?
    requires WVal(s) <= MAX_REFCOUNT && WVal(s2) == WVal(s) + 1 && SVal(s2) == SVal(s)
    requires OverS(s2) == OverS(s) && OverW(s2) == OverW(s)
    ensures Counts(s2)
  {
    LiveAdd(s, s2, n, Weak);
  }

  // ----- The steps -----

  lemma OverAdd(s: State, s2: State, t: Tid)
    requires OnlyThread(s, s2, t) && !s.threads[t].pc.AbortS? && !s.threads[t].pc.AbortW?
    ensures s2.threads[t].pc.AbortS? ==> OverS(s2) == OverS(s) + {t} && OverW(s2) == OverW(s)
    ensures s2.threads[t].pc.AbortW? ==> OverW(s2) == OverW(s) + {t} && OverS(s2) == OverS(s)
  {
    if s2.threads[t].pc.AbortS? { assert OverS(s2) == OverS(s) + {t} && OverW(s2) == OverW(s); }
    if s2.threads[t].pc.AbortW? { assert OverW(s2) == OverW(s) + {t} && OverS(s2) == OverS(s); }
  }

  lemma CountsOver(s: State, s2: State, t: Tid)
    requires Counts(s) && OnlyThread(s, s2, t) && s2.handles == s.handles && s2.locker == s.locker
    requires !s.threads[t].pc.AbortS? && !s.threads[t].pc.AbortW?
    requires
      || (s2.threads[t].pc.AbortS? && SVal(s2) == SVal(s) + 1 && WVal(s2) == WVal(s))
      || (s2.threads[t].pc.AbortW? && WVal(s2) == WVal(s) + 1 && SVal(s2) == SVal(s))
    ensures Counts(s2)
  {
    OverAdd(s, s2, t);
    LiveSame(s, s2, Strong);
    LiveSame(s, s2, Weak);
    LiveSame(s, s2, Unique);
  }

  /** While there is a weak or unique handle the weak counter is not locked. */
  lemma NotLocked(s: State, h: Hid)
    requires Usage(s) && Counts(s) && Locks(s) && (h in Live(s, Weak) || h in Live(s, Unique))
    ensures s.locker.None?
  {
    if s.locker.Some? {
      var u := s.locker.value;
      assert UserOk(s, u);
      KindLive(s, s.threads[u].pc.h);
    }
  }

  /** The counters are far from wrapping, as long as few threads are over the limit. */
  lemma FarFromMax(s: State)
    requires Counts(s) && Tame(s)
    ensures SVal(s) + 1 <= USIZE_MAX
    ensures s.locker.None? ==> WVal(s) + 1 <= USIZE_MAX
  {}

  lemma StrongExists(s: State)
    requires Usage(s) && Counts(s) && SVal(s) > 0
    ensures Live(s, Strong) != {}
  {
    if t :| t in OverS(s) {
      assert UserOk(s, t);
      KindLive(s, s.threads[t].pc.h);
    } else {
      assert OverS(s) == {};
    }
  }

  /** What remains when counts, lifts and histories are dealt with. */
  lemma GrowKeeps(s: State, s2: State, t: Tid, n: Hid, k: Kind)
    requires Usage(s) && Locks(s) && DataOk(s) && Known(s) && Writes(s) && Counts(s)
    requires Grows(s, s2, t, n, k) && s.threads[t].pc.h in s.handles
    requires KindOk(s2.threads[t].pc, s.handles[s.threads[t].pc.h].kind)
    requires SView(s) <= SView(s2) && WView(s) <= WView(s2) && WVal(s) > 0
    requires !IsDataAccess(s2.events[|s.events|])
    requires k.Strong? ==> Live(s, Strong) != {} && s2.weak == s.weak
    requires k.Strong? ==> s.handles[s.threads[t].pc.h].kind.Strong? || SView(s) <= s2.threads[t].view
    requires k.Weak? ==> s.locker.None?
    ensures Usage(s2) && Known(s2) && Writes(s2) && Locks(s2) && DataOk(s2)
  {
    GrowLive(s, s2, t, n, k);
    UsageStays(s, s2, t);
    KnownStays(s, s2, t);
    WritesGrows(s, s2, t, n, k);
    LocksGrow(s, s2, t, n, k);
    DataGrows(s, s2, t, n, k);
  }

  lemma FreeingGrows(s: State, s2: State, t: Tid, n: Hid, k: Kind)
    requires Freeing(s) && Grows(s, s2, t, n, k) && WVal(s) > 0 && WVal(s2) > 0
    ensures Freeing(s2)
  {}

  /** `clone` and `upgrade`. */
  lemma StrongGrowKeeps(s: State, s2: State, t: Tid, n: Hid)
    requires Inv(s) && Grows(s, s2, t, n, Strong) && WroteS(s, s2) && s.threads[t].pc.h in s.handles
    requires KindOk(s2.threads[t].pc, s.handles[s.threads[t].pc.h].kind)
    requires SView(s) <= SView(s2) && SVal(s) > 0 && SVal(s2) == SVal(s) + 1
    requires s.handles[s.threads[t].pc.h].kind.Strong? || SView(s) <= s2.threads[t].view
    requires if s2.handles == s.handles then s2.threads[t].pc.AbortS?
      else SVal(s) <= MAX_REFCOUNT && s2.threads[t].pc.Sh?
    ensures Inv(s2)
  {
    assert UserOk(s, t);
    WeakPositive(s, s.threads[t].pc.h);
    StrongExists(s);
    HistoryS(s, s2);
    RisesStrongAdd(s, s2, t, n);
    if s2.handles == s.handles {
      CountsOver(s, s2, t);
    } else {
      OverSame(s, s2, t);
      CountsStrongAdd(s, s2, t, n);
    }
    FreeingGrows(s, s2, t, n, Strong);
    GrowKeeps(s, s2, t, n, Strong);
  }

  /** `downgrade` and `Weak::clone`. */
  lemma WeakGrowKeeps(s: State, s2: State, t: Tid, n: Hid)
    requires Inv(s) && Grows(s, s2, t, n, Weak) && WroteW(s, s2) && s.threads[t].pc.h in s.handles
    requires KindOk(s2.threads[t].pc, s.handles[s.threads[t].pc.h].kind)
    requires WView(s) <= WView(s2) && s.locker.None? && WVal(s2) == WVal(s) + 1
    requires if s2.handles == s.handles then s2.threads[t].pc.AbortW?
      else WVal(s) <= MAX_REFCOUNT && s2.threads[t].pc.Sh?
    ensures Inv(s2)
  {
    assert UserOk(s, t);
    WeakPositive(s, s.threads[t].pc.h);
    WeakGrowRest(s, s2, t, n);
    WeakGrowMost(s, s2, t, n);
  }

  lemma WeakGrowMost(s: State, s2: State, t: Tid, n: Hid)
    requires Usage(s) && Locks(s) && DataOk(s) && Known(s) && Writes(s) && Counts(s)
    requires Grows(s, s2, t, n, Weak) && WroteW(s, s2) && s.threads[t].pc.h in s.handles
    requires KindOk(s2.threads[t].pc, s.handles[s.threads[t].pc.h].kind)
    requires WView(s) <= WView(s2) && WVal(s) > 0 && s.locker.None?
    ensures Usage(s2) && Known(s2) && Writes(s2) && Locks(s2) && DataOk(s2)
  {
    GrowKeeps(s, s2, t, n, Weak);
  }

  lemma WeakGrowRest(s: State, s2: State, t: Tid, n: Hid)
    requires Usage(s) && Counts(s) && Freeing(s) && StrongHistory(s) && WeakHistory(s) && Rises(s)
    requires Grows(s, s2, t, n, Weak) && WroteW(s, s2) && s.threads[t].pc.h in s.handles
    requires s.locker.None? && WVal(s) > 0 && WVal(s2) == WVal(s) + 1
    requires if s2.handles == s.handles then s2.threads[t].pc.AbortW?
      else WVal(s) <= MAX_REFCOUNT && s2.threads[t].pc.Sh?
    ensures Counts(s2) && Freeing(s2) && StrongHistory(s2) && WeakHistory(s2) && Rises(s2)
  {
    HistoryW(s, s2);
    RisesWeakAdd(s, s2, t, n);
    FreeingGrows(s, s2, t, n, Weak);
    if s2.handles == s.handles {
      CountsOver(s, s2, t);
    } else {
      OverSame(s, s2, t);
      CountsWeakAdd(s, s2, t, n);
    }
  }

  lemma CloneShape(s: State, t: Tid, n: Hid)
    requires Usage(s) && t in s.threads && ShOf(s, s.threads[t].pc, Strong) && n !in s.handles
      && SVal(s) + 1 <= USIZE_MAX
    ensures var s2 := DoCloneStrong(s, t, n);
      && Grows(s, s2, t, n, Strong) && WroteS(s, s2) && SView(s) <= SView(s2) && SVal(s2) == SVal(s) + 1
      && (if SVal(s) > MAX_REFCOUNT then s2.handles == s.handles && s2.threads[t].pc == AbortS(s.threads[t].pc.h)
          else s2.handles != s.handles && s2.threads[t].pc == s.threads[t].pc)
  {
    if SVal(s) > MAX_REFCOUNT { CloneOver(s, t, n); } else { CloneMore(s, t, n); }
  }

  lemma CloneOver(s: State, t: Tid, n: Hid)
    requires Usage(s) && t in s.threads && ShOf(s, s.threads[t].pc, Strong) && n !in s.handles
    requires MAX_REFCOUNT < SVal(s) < USIZE_MAX
    ensures var s2 := DoCloneStrong(s, t, n);
      && Grows(s, s2, t, n, Strong) && WroteS(s, s2) && SView(s) <= SView(s2) && SVal(s2) == SVal(s) + 1
      && s2.handles == s.handles && s2.threads[t].pc == AbortS(s.threads[t].pc.h)
  {
    RmwShapeS(s, t, Inc(SVal(s)), false, false, AbortS(s.threads[t].pc.h));
  }

  lemma CloneMore(s: State, t: Tid, n: Hid)
    requires Usage(s) && t in s.threads && ShOf(s, s.threads[t].pc, Strong) && n !in s.handles
    requires SVal(s) <= MAX_REFCOUNT
    ensures var s2 := DoCloneStrong(s, t, n);
      && Grows(s, s2, t, n, Strong) && WroteS(s, s2) && SView(s) <= SView(s2) && SVal(s2) == SVal(s) + 1
      && s2.handles != s.handles && s2.threads[t].pc == s.threads[t].pc
  {
    RmwShapeS(s, t, Inc(SVal(s)), false, false, Sh(s.threads[t].pc.h));
  }

  lemma KeepsClone(s: State, t: Tid, n: Hid)
    requires Inv(s) && Tame(s) && t in s.threads && ShOf(s, s.threads[t].pc, Strong) && n !in s.handles
    ensures Inv(DoCloneStrong(s, t, n))
  {
    FarFromMax(s);
    CloneShape(s, t, n);
    KindLive(s, s.threads[t].pc.h);
    StrongGrowKeeps(s, DoCloneStrong(s, t, n), t, n);
  }

  lemma UpgradeShape(s: State, t: Tid, n: Hid)
    requires Usage(s) && t in s.threads && s.threads[t].pc.Up? && n !in s.handles
    requires 0 < SVal(s) <= MAX_REFCOUNT && SVal(s) == s.threads[t].pc.cur
    ensures var s2 := DoUpgrade(s, t, n);
      && Grows(s, s2, t, n, Strong) && WroteS(s, s2) && SView(s) <= SView(s2) && SVal(s2) == SVal(s) + 1
      && s2.handles != s.handles && s2.threads[t].pc == Sh(s.threads[t].pc.h) && SView(s) <= s2.threads[t].view
      && s.threads[t].pc.h in s.handles
  {
    assert UserOk(s, t);
    RmwShapeS(s, t, Inc(SVal(s)), true, false, Sh(s.threads[t].pc.h));
  }

  lemma KeepsUpgrade(s: State, t: Tid, n: Hid)
    requires Inv(s) && t in s.threads && s.threads[t].pc.Up? && n !in s.handles
    requires 0 < s.threads[t].pc.cur <= MAX_REFCOUNT && SVal(s) == s.threads[t].pc.cur
    ensures Inv(DoUpgrade(s, t, n))
  {
    UpgradeShape(s, t, n);
    StrongGrowKeeps(s, DoUpgrade(s, t, n), t, n);
  }

  lemma DowngradeShape(s: State, t: Tid, n: Hid)
    requires Usage(s) && t in s.threads && s.threads[t].pc.Dg? && n !in s.handles
    requires WVal(s) <= MAX_REFCOUNT && WVal(s) == s.threads[t].pc.cur
    ensures var s2 := DoDowngrade(s, t, n);
      && Grows(s, s2, t, n, Weak) && WroteW(s, s2) && WView(s) <= WView(s2) && WVal(s2) == WVal(s) + 1
      && s2.handles != s.handles && s2.threads[t].pc == Sh(s.threads[t].pc.h)
      && s.threads[t].pc.h in s.handles
  {
    assert UserOk(s, t);
    RmwShapeW(s, t, Inc(WVal(s)), true, false, Sh(s.threads[t].pc.h));
  }

  lemma KeepsDowngrade(s: State, t: Tid, n: Hid)
    requires Inv(s) && t in s.threads && s.threads[t].pc.Dg? && n !in s.handles
    requires s.threads[t].pc.cur <= MAX_REFCOUNT && WVal(s) == s.threads[t].pc.cur
    ensures Inv(DoDowngrade(s, t, n))
  {
    DowngradeShape(s, t, n);
    WeakGrowKeeps(s, DoDowngrade(s, t, n), t, n);
  }

  lemma WeakAddShape(s: State, t: Tid, n: Hid)
    requires Usage(s) && t in s.threads && CanCloneWeak(s, s.threads[t].pc) && n !in s.handles
    requires WVal(s) + 1 <= USIZE_MAX
    ensures var s2 := DoWeakAdd(s, t, n);
      && Grows(s, s2, t, n, Weak) && WroteW(s, s2) && WView(s) <= WView(s2) && WVal(s2) == WVal(s) + 1
      && (if WVal(s) > MAX_REFCOUNT then s2.handles == s.handles && s2.threads[t].pc == AbortW(s.threads[t].pc.h)
          else s2.handles != s.handles && s2.threads[t].pc == s.threads[t].pc)
  {
    if WVal(s) > MAX_REFCOUNT { WeakAddOver(s, t, n); } else { WeakAddMore(s, t, n); }
  }

  lemma WeakAddOver(s: State, t: Tid, n: Hid)
    requires Usage(s) && t in s.threads && CanCloneWeak(s, s.threads[t].pc) && n !in s.handles
    requires MAX_REFCOUNT < WVal(s) < USIZE_MAX
    ensures var s2 := DoWeakAdd(s, t, n);
      && Grows(s, s2, t, n, Weak) && WroteW(s, s2) && WView(s) <= WView(s2) && WVal(s2) == WVal(s) + 1
      && s2.handles == s.handles && s2.threads[t].pc == AbortW(s.threads[t].pc.h)
  {
    RmwShapeW(s, t, Inc(WVal(s)), false, false, AbortW(s.threads[t].pc.h));
  }

  lemma WeakAddMore(s: State, t: Tid, n: Hid)
    requires Usage(s) && t in s.threads && CanCloneWeak(s, s.threads[t].pc) && n !in s.handles
    requires WVal(s) <= MAX_REFCOUNT
    ensures var s2 := DoWeakAdd(s, t, n);
      && Grows(s, s2, t, n, Weak) && WroteW(s, s2) && WView(s) <= WView(s2) && WVal(s2) == WVal(s) + 1
      && s2.handles != s.handles && s2.threads[t].pc == s.threads[t].pc
  {
    var s1 := RmwW(s, t, Inc(WVal(s)), false, false, Sh(s.threads[t].pc.h));
    RmwShapeW(s, t, Inc(WVal(s)), false, false, Sh(s.threads[t].pc.h));
    AddWeak(s, s1, t, n);
  }

  lemma AddWeak(s: State, s1: State, t: Tid, n: Hid)
    requires t in s.threads && s.threads[t].pc.Sh? && n !in s.handles && s1.handles == s.handles
    requires WroteW(s, s1) && OneAccess(s, s1, t) && s1.threads[t].pc == s.threads[t].pc
    requires s1.data == s.data && s1.ended == s.ended && s1.frees == s.frees && s1.freer == s.freer
    requires s1.locker == s.locker && s1.origin == s.origin
    ensures var s2 := NewHandle(s1, t, n, Weak);
      Grows(s, s2, t, n, Weak) && WroteW(s, s2) && s2.handles != s.handles
  {
    assert n in NewHandle(s1, t, n, Weak).handles;
  }

  lemma KeepsWeakAdd(s: State, t: Tid, n: Hid)
    requires Inv(s) && Tame(s) && t in s.threads && CanCloneWeak(s, s.threads[t].pc) && n !in s.handles
    ensures Inv(DoWeakAdd(s, t, n))
  {
    KindLive(s, s.threads[t].pc.h);
    NotLocked(s, s.threads[t].pc.h);
    FarFromMax(s);
    WeakAddShape(s, t, n);
    WeakGrowKeeps(s, DoWeakAdd(s, t, n), t, n);
  }
}

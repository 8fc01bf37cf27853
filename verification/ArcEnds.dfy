/** The steps that consume a handle, and the steps that access nothing. */
module ArcEnds {
  import opened Basics
  import opened ArcMachine
  import opened ArcInvariant
  import opened ArcFrames
  import opened ArcAdds
  import opened ArcTurns

  // ----- Consuming a handle -----

  /** Thread `t` makes its last access through the handle it holds exclusively. */
  predicate Buries(s: State, s2: State, t: Tid) {
    && OneAccess(s, s2, t) && ExclPc(s.threads[t].pc) && s.threads[t].pc.h in s.handles
    && (s2.threads[t].pc.Idle? || s2.threads[t].pc.FreeF?)
    && s2.handles ==
         s.handles[s.threads[t].pc.h := s.handles[s.threads[t].pc.h].(live := false, shared := {}, excl := None)]
    && s2.data == s.data && s2.ended == s.ended && s2.origin == s.origin
    && s2.frees == s.frees && s2.locker == s.locker
    && !Locking(s.threads[t].pc) && !HasMut(s.threads[t].pc) && !s.threads[t].pc.MMR? && !s.threads[t].pc.Zero?
  }

  lemma UsageBuries(s: State, s2: State, t: Tid)
    requires Usage(s) && Buries(s, s2, t)
    ensures Usage(s2)
  {
    var h := s.threads[t].pc.h;
    assert UserOk(s, t) && HandleOk(s, h);
    forall u <- s2.threads ensures UserOk(s2, u) { assert UserOk(s, u); }
    forall g <- s2.handles ensures HandleOk(s2, g) { assert HandleOk(s, g); }
  }

  lemma BuriesLive(s: State, s2: State, t: Tid, k: Kind)
    requires Usage(s) && Buries(s, s2, t)
    ensures Live(s2, k) == Live(s, k) - {s.threads[t].pc.h}
    ensures s.threads[t].pc.h in Live(s, s.handles[s.threads[t].pc.h].kind)
    ensures s.handles[s.threads[t].pc.h].kind == k ==> |Live(s2, k)| == |Live(s, k)| - 1
    ensures s.handles[s.threads[t].pc.h].kind != k ==> Live(s2, k) == Live(s, k)
    ensures OverS(s2) == OverS(s) && OverW(s2) == OverW(s)
  {
    assert UserOk(s, t);
    KindLive(s, s.threads[t].pc.h);
    assert Live(s2, k) == Live(s, k) - {s.threads[t].pc.h};
    OverSame(s, s2, t);
  }

  /** What the buried handle held, its last user knows; the rest is untouched. */
  lemma HoldsBuries(s: State, s2: State, t: Tid, g: Hid, e: nat)
    requires Usage(s) && Buries(s, s2, t) && g in s.handles && s.handles[g].live && e < |s.events| && WillHold(s, g, e)
    ensures if g == s.threads[t].pc.h then e in s.threads[t].view else WillHold(s2, g, e)
    ensures g != s.threads[t].pc.h && Holds(s, g, e) ==> Holds(s2, g, e)
  {
    assert UserOk(s, t) && HandleOk(s, g);
  }

  lemma BuriesSub(s: State, s2: State, t: Tid, k: Kind)
    requires Buries(s, s2, t)
    ensures Live(s2, k) <= Live(s, k)
    ensures s.handles[s.threads[t].pc.h].kind != k ==> Live(s2, k) == Live(s, k)
  {}

  lemma DataPcBuries(s: State, s2: State, t: Tid, u: Tid)
    requires Usage(s) && DataOk(s) && Buries(s, s2, t) && u in s.threads
    ensures DataPc(s2, u)
  {
    var h := s.threads[t].pc.h;
    assert UserOk(s, t) && HandleOk(s, h) && DataPc(s, u) && UserOk(s, u);
  }

  lemma DataBuries(s: State, s2: State, t: Tid)
    requires Usage(s) && DataOk(s) && Buries(s, s2, t)
    requires s.handles[s.threads[t].pc.h].kind.Strong? ==> Live(s2, Strong) != {}
    requires s.handles[s.threads[t].pc.h].kind.Unique? ==>
      s.threads[t].pc.WSub? && Live(s, Strong) == {} && Live(s2, Unique) == {}
    ensures DataOk(s2)
  {
    var h := s.threads[t].pc.h;
    assert DataPc(s, t);
    BuriesSub(s, s2, t, Strong);
    BuriesSub(s, s2, t, Unique);
    forall u <- s2.threads ensures DataPc(s2, u) { DataPcBuries(s, s2, t, u); }
    forall g <- Live(s2, Unique) ensures s2.data.Ended? ==> Leaving(s2, g) {
      assert s.data.Ended? ==> Leaving(s, g);
      assert HandleOk(s, g);
    }
    forall g <- s2.handles ensures g != h && DeadUnique(s2, g) ==> DeadUnique(s, g) {}
  }

  lemma WritesBuries(s: State, s2: State, t: Tid)
    requires Usage(s) && Writes(s) && Buries(s, s2, t) && SView(s) <= SView(s2) && !IsDataAccess(s2.events[|s.events|])
    ensures Writes(s2)
  {
    BuriesSub(s, s2, t, Strong);
    BuriesSub(s, s2, t, Unique);
    BuriesSub(s, s2, t, Weak);
    forall e, g | 0 <= e < |s2.events| && IsWrite(s2.events[e]) && g in s2.handles
      ensures g in Live(s2, Strong) || g in Live(s2, Unique) ==> SeesWrite(s2, g, e)
      ensures Live(s2, Strong) != {} && g in Live(s2, Weak) ==> e in s2.handles[g].base || e in SView(s2)
    {
      WritesBuriesAt(s, s2, t, e, g);
    }
    forall e | 0 <= e < |s2.events| && IsDataAccess(s2.events[e])
      ensures s2.events[e].via in s2.handles && !s2.handles[s2.events[e].via].kind.Weak?
    {
      assert IsDataAccess(s.events[e]);
    }
  }

  lemma WritesBuriesAt(s: State, s2: State, t: Tid, e: nat, g: Hid)
    requires Usage(s) && Writes(s) && Buries(s, s2, t) && SView(s) <= SView(s2)
    requires e < |s.events| && IsWrite(s.events[e]) && g in s.handles
    ensures g in Live(s2, Strong) || g in Live(s2, Unique) ==> SeesWrite(s2, g, e)
    ensures Live(s2, Strong) != {} && g in Live(s2, Weak) ==> e in s2.handles[g].base || e in SView(s2)
  {
    BuriesSub(s, s2, t, Strong);
    BuriesSub(s, s2, t, Unique);
    BuriesSub(s, s2, t, Weak);
    assert g in Live(s, Strong) || g in Live(s, Unique) ==> SeesWrite(s, g, e);
    assert HandleOk(s, g);
  }

  lemma RisesBuries(s: State, s2: State, t: Tid)
    requires Usage(s) && Rises(s) && Buries(s, s2, t) && s2.rise == s.rise && s2.wrise == s.wrise
    requires RiseIdx(s2) == RiseIdx(s)
    ensures Rises(s2)
  {
    BuriesSub(s, s2, t, Strong);
    BuriesSub(s, s2, t, Unique);
    forall g <- Live(s2, Strong) ensures g in Live(s, Strong) && (BornAfterRise(s, g) ==> BornAfterRise(s2, g)) {}
  }

  // ----- A strong handle that is not the last -----

  predicate StrongEnd(s: State, s2: State, t: Tid) {
    && Buries(s, s2, t) && WroteS(s, s2) && s2.threads[t].pc.Idle? && s2.freer == s.freer
    && s.handles[s.threads[t].pc.h].kind.Strong?
    && SVal(s) >= 2 && SVal(s2) == SVal(s) - 1
    && SView(s) <= SView(s2) && s.threads[t].view + {|s.events|} <= SView(s2)
  }

  lemma StrongEndLive(s: State, s2: State, t: Tid)
    requires Usage(s) && Counts(s) && StrongEnd(s, s2, t)
    ensures Live(s2, Strong) != {} && Usage(s2)
  {
    BuriesLive(s, s2, t, Strong);
    UsageBuries(s, s2, t);
    if Live(s2, Strong) == {} {
      NoOverS(s2);
    }
  }

  lemma StrongEndCounts(s: State, s2: State, t: Tid)
    requires Counts(s) && StrongEnd(s, s2, t) && Live(s2, Strong) != {} && OverS(s2) == OverS(s)
      && OverW(s2) == OverW(s)
    requires |Live(s2, Strong)| == |Live(s, Strong)| - 1
    ensures Counts(s2)
  {
    BuriesSub(s, s2, t, Strong);
    BuriesSub(s, s2, t, Weak);
    BuriesSub(s, s2, t, Unique);
  }

  lemma StrongEndKnown(s: State, s2: State, t: Tid)
    requires Usage(s) && Counts(s) && Known(s) && StrongEnd(s, s2, t)
    ensures Known(s2)
  {
    StrongEndLive(s, s2, t);
    BuriesSub(s, s2, t, Strong);
    forall e | 0 <= e < |s2.events| ensures KnownVia(s2, e, s2.events[e].via) {
      if e < |s.events| {
        var g := s.events[e].via;
        assert KnownVia(s, e, g);
        if s.handles[g].live { HoldsBuries(s, s2, t, g, e); }
      }
    }
  }

  lemma StrongEndKeeps(s: State, s2: State, t: Tid)
    requires Inv(s) && StrongEnd(s, s2, t)
    ensures Inv(s2)
  {
    StrongEndLive(s, s2, t);
    StrongEndKnown(s, s2, t);
    BuriesLive(s, s2, t, Strong);
    StrongEndCounts(s, s2, t);
    DataBuries(s, s2, t);
    WritesBuries(s, s2, t);
    StrongEndRest(s, s2, t);
  }

  lemma StrongEndRest(s: State, s2: State, t: Tid)
    requires Usage(s) && Counts(s) && Locks(s) && Freeing(s) && Rises(s) && StrongHistory(s) && WeakHistory(s)
      && StrongEnd(s, s2, t)
    ensures Locks(s2) && Freeing(s2) && Rises(s2) && StrongHistory(s2) && WeakHistory(s2)
  {
    BuriesSub(s, s2, t, Weak);
    HistoryS(s, s2);
    RisesBuries(s, s2, t);
    assert UserOk(s, t);
    WeakPositive(s, s.threads[t].pc.h);
  }

  lemma StrongEndShape(s: State, t: Tid)
    requires Usage(s) && t in s.threads && (s.threads[t].pc.Ex? || s.threads[t].pc.Dr?)
    requires HasKind(s, s.threads[t].pc.h, Strong) && SVal(s) >= 2
    ensures StrongEnd(s, Bury(RmwS(s, t, Dec(SVal(s)), false, true, Idle), s.threads[t].pc.h), t)
  {
    assert UserOk(s, t);
    RmwShapeS(s, t, Dec(SVal(s)), false, true, Idle);
  }

  lemma KeepsStrongSub(s: State, t: Tid, f: Finish)
    requires Inv(s) && t in s.threads && (s.threads[t].pc.Ex? || s.threads[t].pc.Dr?)
    requires HasKind(s, s.threads[t].pc.h, Strong)
    ensures Inv(DoStrongSub(s, t, f)) && SVal(s) >= 1
  {
    KindLive(s, s.threads[t].pc.h);
    assert |Live(s, Strong)| > 0;
    if SVal(s) == 1 {
      KeepsZero(s, t, false, true, Zero(s.threads[t].pc.h, f));
    } else {
      StrongEndShape(s, t);
      StrongEndKeeps(s, Bury(RmwS(s, t, Dec(SVal(s)), false, true, Idle), s.threads[t].pc.h), t);
    }
  }

  // ----- A weak reference: of a Weak handle, or the implicit one -----

  predicate WeakEnd(s: State, s2: State, t: Tid) {
    && Buries(s, s2, t) && WroteW(s, s2)
    && !s.handles[s.threads[t].pc.h].kind.Strong?
    && (s.handles[s.threads[t].pc.h].kind.Unique? ==> s.threads[t].pc.WSub?)
    && WVal(s) >= 1 && WVal(s2) == WVal(s) - 1
    && WView(s) <= WView(s2) && s.threads[t].view + {|s.events|} <= WView(s2)
    && (if WVal(s2) == 0 then s2.freer == Some(t) && s2.threads[t].pc.FreeF?
        else s2.freer == s.freer && s2.threads[t].pc.Idle?)
    && WView(s) <= s2.threads[t].pend
  }

  lemma WeakEndLive(s: State, s2: State, t: Tid)
    requires Usage(s) && Counts(s) && Locks(s) && WeakEnd(s, s2, t)
    ensures s.locker.None? && Live(s2, Strong) == Live(s, Strong)
    ensures OverS(s2) == OverS(s) && OverW(s2) == OverW(s)
    ensures if s.handles[s.threads[t].pc.h].kind.Unique? then
              Live(s2, Weak) == Live(s, Weak) && Live(s, Strong) == {}
              && Live(s, Unique) != {} && Live(s2, Unique) == {}
            else
              Live(s2, Unique) == Live(s, Unique) && |Live(s2, Weak)| == |Live(s, Weak)| - 1
  {
    BuriesLive(s, s2, t, Strong);
    BuriesLive(s, s2, t, Weak);
    BuriesLive(s, s2, t, Unique);
    NotLocked(s, s.threads[t].pc.h);
  }

  lemma WeakEndCounts(s: State, s2: State, t: Tid)
    requires Usage(s) && Counts(s) && Locks(s) && WeakEnd(s, s2, t)
    ensures Counts(s2) && s.locker.None?
    ensures Live(s2, Strong) == Live(s, Strong)
    ensures s.handles[s.threads[t].pc.h].kind.Unique? ==> Live(s, Strong) == {} && Live(s2, Unique) == {}
    ensures !s.handles[s.threads[t].pc.h].kind.Unique? ==> Live(s2, Unique) == Live(s, Unique)
    ensures WVal(s2) == 0 ==> Live(s2, Strong) == {} && Live(s2, Weak) == {} && Live(s2, Unique) == {}
  {
    WeakEndLive(s, s2, t);
  }

  lemma WeakEndKnown(s: State, s2: State, t: Tid)
    requires Usage(s) && Counts(s) && Locks(s) && Known(s) && WeakEnd(s, s2, t)
    ensures Known(s2)
  {
    WeakEndCounts(s, s2, t);
    assert UserOk(s, t);
    var h := s.threads[t].pc.h;
    KindLive(s, h);
    forall e | 0 <= e < |s2.events| ensures KnownVia(s2, e, s2.events[e].via) {
      if e < |s.events| { WeakEndKnownAt(s, s2, t, e); }
    }
  }

  lemma WeakEndKnownAt(s: State, s2: State, t: Tid, e: nat)
    requires Usage(s) && Counts(s) && Locks(s) && WeakEnd(s, s2, t) && e < |s.events|
    requires KnownVia(s, e, s.events[e].via)
    ensures e < |s2.events| && s2.events[e] == s.events[e] && KnownVia(s2, e, s.events[e].via)
  {
    WeakEndCounts(s, s2, t);
    assert UserOk(s, t);
    var h, g := s.threads[t].pc.h, s.events[e].via;
    KindLive(s, h);
    if s.handles[g].live { HoldsBuries(s, s2, t, g, e); }
    forall u | u in Live(s, Unique) && WillHold(s, u, e)
      ensures if u == h then e in s.threads[t].view else WillHold(s2, u, e)
    {
      HoldsBuries(s, s2, t, u, e);
    }
  }

  /** Whoever takes the weak count to 0 will know every access ever made, after its fence. */
  lemma LastKnowsAll(s: State, s2: State, t: Tid, e: nat)
    requires Usage(s) && Counts(s) && Locks(s) && Known(s) && WeakEnd(s, s2, t) && WVal(s2) == 0 && e < |s.events|
    ensures e in s2.threads[t].view || e in s2.threads[t].pend
  {
    WeakEndCounts(s, s2, t);
    assert UserOk(s, t);
    var h := s.threads[t].pc.h;
    KindLive(s, h);
    var g := s.events[e].via;
    assert KnownVia(s, e, g);
    if s.handles[g].live {
      HoldsBuries(s, s2, t, g, e);
      if g != h { KindLive(s2, g); }
    } else if s.handles[h].kind.Unique? && s.handles[g].kind.Strong? {
      assert WillHold(s, h, e);
      HoldsBuries(s, s2, t, h, e);
    }
  }

  lemma WeakEndFreeing(s: State, s2: State, t: Tid)
    requires Usage(s) && Counts(s) && Locks(s) && Known(s) && Freeing(s) && WeakEnd(s, s2, t)
    ensures Freeing(s2)
  {
    if WVal(s2) == 0 {
      forall e | 0 <= e < |s2.events| ensures e in s2.threads[t].view + s2.threads[t].pend {
        if e < |s.events| { LastKnowsAll(s, s2, t, e); }
      }
    }
  }

  lemma WeakEndKeeps(s: State, s2: State, t: Tid)
    requires Inv(s) && WeakEnd(s, s2, t)
    ensures Inv(s2)
  {
    WeakEndCounts(s, s2, t);
    UsageBuries(s, s2, t);
    WeakEndKnown(s, s2, t);
    WeakEndFreeing(s, s2, t);
    WeakEndData(s, s2, t);
    WeakEndRest(s, s2, t);
  }

  lemma WeakEndData(s: State, s2: State, t: Tid)
    requires Usage(s) && Counts(s) && Locks(s) && DataOk(s) && Writes(s) && WeakEnd(s, s2, t)
    ensures DataOk(s2) && Writes(s2)
  {
    WeakEndCounts(s, s2, t);
    DataBuries(s, s2, t);
    WritesBuries(s, s2, t);
  }

  lemma WeakEndRest(s: State, s2: State, t: Tid)
    requires Usage(s) && Rises(s) && StrongHistory(s) && WeakHistory(s) && WeakEnd(s, s2, t)
    requires Locks(s) && s.locker.None?
    ensures Rises(s2) && StrongHistory(s2) && WeakHistory(s2) && Locks(s2)
  {
    HistoryW(s, s2);
    RisesBuries(s, s2, t);
  }

  lemma WeakEndShape(s: State, t: Tid)
    requires Usage(s) && t in s.threads && 1 <= WVal(s) && s.freer.None?
    requires ExOf(s, s.threads[t].pc, Weak) || (s.threads[t].pc.WSub? && s.threads[t].pc.h in s.handles)
    ensures WeakEnd(s, DoWeakSub(s, t), t)
  {
    assert UserOk(s, t);
    if WVal(s) == 1 {
      RmwShapeW(s, t, 0, false, true, FreeF);
    } else {
      RmwShapeW(s, t, Dec(WVal(s)), false, true, Idle);
    }
  }

  lemma KeepsWeakSub(s: State, t: Tid)
    requires Inv(s) && t in s.threads
    requires ExOf(s, s.threads[t].pc, Weak) || (s.threads[t].pc.WSub? && s.threads[t].pc.h in s.handles)
    ensures Inv(DoWeakSub(s, t)) && WVal(s) >= 1
  {
    assert UserOk(s, t);
    WeakPositive(s, s.threads[t].pc.h);
    WeakEndShape(s, t);
    WeakEndKeeps(s, DoWeakSub(s, t), t);
  }

  // ----- Steps without an access -----

  predicate NoAccess(s: State, s2: State, t: Tid) {
    && OnlyThread(s, s2, t) && SameCounters(s, s2)
    && s2.events == s.events && s2.data == s.data && s2.ended == s.ended
    && s.threads[t].view <= s2.threads[t].view
  }

  /** A change of the thread's own state only. */
  predicate LocalStep(s: State, s2: State, t: Tid) {
    && NoAccess(s, s2, t) && s2.handles == s.handles
    && (s2.threads[t].pc == s.threads[t].pc || SameMode(s.threads[t].pc, s2.threads[t].pc))
    && Locking(s.threads[t].pc) == Locking(s2.threads[t].pc)
    && s.threads[t].pc.AbortS? == s2.threads[t].pc.AbortS? && s.threads[t].pc.AbortW? == s2.threads[t].pc.AbortW?
    && (s.threads[t].pc.FreeF? || s.threads[t].pc.FreeIt? ==> s2.threads[t].pc == s.threads[t].pc)
    && (s.threads[t].pc.WSub? ==> s2.threads[t].pc.WSub?)
    && s.threads[t].pend <= s2.threads[t].pend
    && (s.threads[t].pc.Zero? && !s2.threads[t].pc.Zero? ==> s.threads[t].pend <= s2.threads[t].view)
  }

  lemma UsageLocal(s: State, s2: State, t: Tid)
    requires Usage(s) && LocalStep(s, s2, t)
    requires SameMode(s.threads[t].pc, s2.threads[t].pc) && s.threads[t].pc.h in s.handles ==>
      KindOk(s2.threads[t].pc, s.handles[s.threads[t].pc.h].kind)
    ensures Usage(s2)
  {
    forall u <- s2.threads ensures UserOk(s2, u) { assert UserOk(s, u); }
    forall h <- s2.handles ensures HandleOk(s2, h) { assert HandleOk(s, h); }
  }

  lemma KnownLocal(s: State, s2: State, t: Tid)
    requires Usage(s) && Known(s) && LocalStep(s, s2, t)
    ensures Known(s2)
  {
    LiveSame(s, s2, Strong);
    LiveSame(s, s2, Unique);
    forall e | 0 <= e < |s2.events| ensures KnownVia(s2, e, s2.events[e].via) {
      assert KnownVia(s, e, s.events[e].via);
      forall u | u in Live(s, Unique) && WillHold(s, u, e) ensures WillHold(s2, u, e) {}
    }
  }

  lemma WritesLocal(s: State, s2: State, t: Tid)
    requires Writes(s) && LocalStep(s, s2, t)
    ensures Writes(s2)
  {
    LiveSame(s, s2, Strong);
    LiveSame(s, s2, Weak);
    LiveSame(s, s2, Unique);
    forall e, h | 0 <= e < |s2.events| && IsWrite(s2.events[e]) && h in s2.handles
      ensures h in Live(s2, Strong) || h in Live(s2, Unique) ==> SeesWrite(s2, h, e)
    {
      assert h in Live(s, Strong) || h in Live(s, Unique) ==> SeesWrite(s, h, e);
    }
  }

  lemma LocalKeeps(s: State, s2: State, t: Tid)
    requires Inv(s) && LocalStep(s, s2, t) && DataPc(s2, t)
    requires SameMode(s.threads[t].pc, s2.threads[t].pc) && s.threads[t].pc.h in s.handles ==>
      KindOk(s2.threads[t].pc, s.handles[s.threads[t].pc.h].kind)
    ensures Inv(s2)
  {
    UsageLocal(s, s2, t);
    KnownLocal(s, s2, t);
    WritesLocal(s, s2, t);
    OverSame(s, s2, t);
    CountsSame(s, s2);
    LocksSame(s, s2, t);
    DataSame(s, s2, t);
    LocalRest(s, s2, t);
  }

  lemma LocalRest(s: State, s2: State, t: Tid)
    requires Freeing(s) && Rises(s) && StrongHistory(s) && WeakHistory(s) && LocalStep(s, s2, t)
    ensures Freeing(s2) && Rises(s2) && StrongHistory(s2) && WeakHistory(s2)
  {
    LiveSame(s, s2, Strong);
    LiveSame(s, s2, Unique);
    forall h <- Live(s2, Strong) ensures BornAfterRise(s, h) ==> BornAfterRise(s2, h) {}
  }
}

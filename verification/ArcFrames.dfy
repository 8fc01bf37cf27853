/**
  What the kinds of step have in common.  Each step of the protocol is one of: an access
  through a handle the thread keeps, an access that gives the handle up, a change of who
  borrows what, or a local step.  These lemmas carry the parts of the invariant that depend
  only on that shape.
 */
module ArcFrames {
  import opened Basics
  import opened ArcMachine
  import opened ArcInvariant

  predicate SameMode(p: Pc, q: Pc) {
    && (SharedPc(p) || ExclPc(p))
    && SharedPc(p) == SharedPc(q) && ExclPc(p) == ExclPc(q) && p.h == q.h
  }

  /** Only thread `t` differs. */
  predicate OnlyThread(s: State, s2: State, t: Tid) {
    && t in s.threads
    && s2.threads.Keys == s.threads.Keys
    && (forall u <- s.threads :: u != t ==> s2.threads[u] == s.threads[u])
  }

  /** Thread `t` makes one access through the handle it uses. */
  predicate OneAccess(s: State, s2: State, t: Tid) {
    && OnlyThread(s, s2, t)
    && |s2.events| == |s.events| + 1
    && (forall e :: 0 <= e < |s.events| ==> s2.events[e] == s.events[e])
    && s2.events[|s.events|].who == t
    && s2.events[|s.events|].via == Via(s.threads[t].pc)
    && s.threads[t].view <= s2.threads[t].view
    && |s.events| in s2.threads[t].view
    && 0 < |s2.strong| && 0 < |s2.weak|
  }

  /** The handle in use stays in use; its kind may change; new handles know what `t` knows. */
  predicate Stays(s: State, s2: State, t: Tid) {
    && OneAccess(s, s2, t)
    && SameMode(s.threads[t].pc, s2.threads[t].pc)
    && (forall h <- s.handles :: h in s2.handles
          && (h != s.threads[t].pc.h ==> s2.handles[h] == s.handles[h])
          && s2.handles[h] == s.handles[h].(kind := s2.handles[h].kind))
    && (forall n <- s2.handles :: n !in s.handles ==>
          && s2.handles[n] == Handle(s2.handles[n].kind, true, s2.threads[t].view, {}, {}, None, |s.events|))
  }

  lemma UsageStays(s: State, s2: State, t: Tid)
    requires Usage(s) && Stays(s, s2, t)
    requires s.threads[t].pc.h in s.handles
    requires KindOk(s2.threads[t].pc, s2.handles[s.threads[t].pc.h].kind)
    requires s2.handles[s.threads[t].pc.h].kind == s.handles[s.threads[t].pc.h].kind || ExclPc(s.threads[t].pc)
    ensures Usage(s2)
  {
    var h := s.threads[t].pc.h;
    assert UserOk(s, t) && HandleOk(s, h);
    forall u <- s2.threads ensures UserOk(s2, u) {
      assert UserOk(s, u);
    }
    forall g <- s2.handles ensures HandleOk(s2, g) {
      if g in s.handles { assert HandleOk(s, g); }
    }
  }

  /** Nothing a live handle holds is lost. */
  lemma HoldsStays(s: State, s2: State, t: Tid, h: Hid, e: nat)
    requires Usage(s) && Stays(s, s2, t)
    requires h in s.handles && e < |s.events| && Holds(s, h, e)
    ensures Holds(s2, h, e)
  {
    assert HandleOk(s, h);
  }

  /** The new access is known through its own handle. */
  lemma HoldsNew(s: State, s2: State, t: Tid)
    requires Usage(s) && Stays(s, s2, t)
    ensures Via(s.threads[t].pc) in s2.handles && Holds(s2, Via(s.threads[t].pc), |s.events|)
    ensures s.handles[Via(s.threads[t].pc)].live
  {
    assert UserOk(s, t);
  }

  lemma KnownStays(s: State, s2: State, t: Tid)
    requires Usage(s) && Known(s) && Stays(s, s2, t)
    requires SView(s) <= SView(s2) && WView(s) <= WView(s2) && WVal(s) > 0
    requires forall h <- s.handles :: s2.handles[h] == s.handles[h]
    requires Live(s, Strong) == {} <==> Live(s2, Strong) == {}
    requires Live(s, Unique) == Live(s2, Unique)
    requires !s.threads[t].pc.Zero?
    ensures Known(s2)
  {
    forall e | 0 <= e < |s2.events| ensures KnownVia(s2, e, s2.events[e].via) {
      if e == |s.events| {
        HoldsNew(s, s2, t);
      } else {
        var h := s.events[e].via;
        assert KnownVia(s, e, h);
        if s.handles[h].live {
          HoldsStays(s, s2, t, h, e);
        } else {
          forall u | u in Live(s, Unique) && WillHold(s, u, e) ensures WillHold(s2, u, e) {
            if Holds(s, u, e) { HoldsStays(s, s2, t, u, e); }
          }
        }
      }
    }
  }

  // ----- Accesses that leave the counters and the handles alone -----

  predicate SameCounters(s: State, s2: State) {
    && s2.strong == s.strong && s2.weak == s.weak && s2.rise == s.rise && s2.wrise == s.wrise
    && s2.locker == s.locker && s2.freer == s.freer && s2.frees == s.frees && s2.origin == s.origin
  }

  predicate SameRole(p: Pc, q: Pc) {
    Locking(p) == Locking(q) && p.AbortS? == q.AbortS? && p.AbortW? == q.AbortW?
    && p.FreeF? == q.FreeF? && p.FreeIt? == q.FreeIt? && !p.Zero? && !q.Zero?
  }

  lemma LiveSame(s: State, s2: State, k: Kind)
    requires s2.handles == s.handles
    ensures Live(s2, k) == Live(s, k)
  {}

  lemma OverSame(s: State, s2: State, t: Tid)
    requires OnlyThread(s, s2, t)
    requires s.threads[t].pc.AbortS? == s2.threads[t].pc.AbortS?
    requires s.threads[t].pc.AbortW? == s2.threads[t].pc.AbortW?
    ensures OverS(s2) == OverS(s) && OverW(s2) == OverW(s)
  {}

  lemma CountsSame(s: State, s2: State)
    requires Counts(s) && s2.handles == s.handles && SVal(s2) == SVal(s) && WVal(s2) == WVal(s)
    requires s2.locker == s.locker && OverS(s2) == OverS(s) && OverW(s2) == OverW(s)
    ensures Counts(s2)
  {
    LiveSame(s, s2, Strong);
    LiveSame(s, s2, Weak);
    LiveSame(s, s2, Unique);
  }

  lemma LocksSame(s: State, s2: State, t: Tid)
    requires Locks(s) && OnlyThread(s, s2, t) && s2.handles == s.handles && SameCounters(s, s2)
    requires Locking(s.threads[t].pc) == Locking(s2.threads[t].pc) && s.threads[t].view <= s2.threads[t].view
    ensures Locks(s2)
  {}

  lemma DataSame(s: State, s2: State, t: Tid)
    requires DataOk(s) && OnlyThread(s, s2, t) && s2.handles == s.handles
    requires s2.data == s.data && s2.ended == s.ended && s2.origin == s.origin
    requires SView(s2) == SView(s) && DataPc(s2, t)
    requires s.threads[t].pc.WSub? ==> s2.threads[t].pc.WSub?
    ensures DataOk(s2)
  {
    LiveSame(s, s2, Strong);
    LiveSame(s, s2, Unique);
    forall u <- s2.threads ensures DataPc(s2, u) {
      assert DataPc(s, u);
    }
    forall h <- Live(s2, Unique) ensures s2.data.Ended? ==> Leaving(s2, h) {
      assert s.data.Ended? ==> Leaving(s, h);
    }
    forall g <- s2.handles ensures DeadUnique(s2, g) ==> DeadUnique(s, g) {}
  }

  lemma FreeingSame(s: State, s2: State, t: Tid)
    requires Freeing(s) && OnlyThread(s, s2, t) && SameCounters(s, s2) && WVal(s) > 0
    requires SameRole(s.threads[t].pc, s2.threads[t].pc)
    ensures Freeing(s2)
  {}

  /** The thread may write the data: it has the only strong or unique handle, exclusively, and
      no Weak handle can be upgraded. */
  ghost predicate MayWrite(s: State, t: Tid)
    requires t in s.threads
  {
    && ExclPc(s.threads[t].pc)
    && (Live(s, Weak) == {} || Live(s, Strong) == {})
    && Live(s, Strong) <= {s.threads[t].pc.h} && Live(s, Unique) <= {s.threads[t].pc.h}
  }

  lemma WritesStays(s: State, s2: State, t: Tid)
    requires Usage(s) && Writes(s) && Stays(s, s2, t) && s2.handles == s.handles
    requires SView(s2) == SView(s)
    requires IsDataAccess(s2.events[|s.events|]) ==> !s.handles[Via(s.threads[t].pc)].kind.Weak?
    requires IsWrite(s2.events[|s.events|]) ==> MayWrite(s, t)
    ensures Writes(s2)
  {
    assert UserOk(s, t);
    LiveSame(s, s2, Strong);
    LiveSame(s, s2, Unique);
    LiveSame(s, s2, Weak);
    forall e, h | 0 <= e < |s2.events| && IsWrite(s2.events[e]) && h in s2.handles
      ensures h in Live(s2, Strong) || h in Live(s2, Unique) ==> SeesWrite(s2, h, e)
      ensures Live(s2, Strong) != {} && h in Live(s2, Weak) ==> e in s2.handles[h].base || e in SView(s2)
    {
      if e < |s.events| {
        assert IsWrite(s.events[e]);
        assert h in Live(s, Strong) || h in Live(s, Unique) ==> SeesWrite(s, h, e);
      }
    }
    forall e | 0 <= e < |s2.events| && IsDataAccess(s2.events[e])
      ensures s2.events[e].via in s2.handles && !s2.handles[s2.events[e].via].kind.Weak?
    {
      if e < |s.events| { assert IsDataAccess(s.events[e]); }
    }
  }

  lemma RisesSame(s: State, s2: State, t: Tid)
    requires Usage(s) && Rises(s) && OneAccess(s, s2, t) && s2.handles == s.handles && s2.rise == s.rise
      && s2.wrise == s.wrise
    ensures Rises(s2)
  {
    LiveSame(s, s2, Strong);
    LiveSame(s, s2, Unique);
    forall h <- Live(s2, Strong) ensures BornAfterRise(s, h) ==> BornAfterRise(s2, h) {}
  }

  lemma HistoriesSame(s: State, s2: State, t: Tid)
    requires StrongHistory(s) && WeakHistory(s) && OneAccess(s, s2, t) && SameCounters(s, s2)
    ensures StrongHistory(s2) && WeakHistory(s2)
  {}

  lemma KindLive(s: State, h: Hid)
    requires h in s.handles && s.handles[h].live
    ensures h in Live(s, s.handles[h].kind)
  {}

  /** There is at most one unique handle. */
  lemma OnlyUnique(s: State, g: Hid, h: Hid)
    requires Counts(s) && g in Live(s, Unique) && h in Live(s, Unique)
    ensures g == h
  {
    assert |Live(s, Unique) - {h}| <= 0;
    assert g !in Live(s, Unique) - {h};
  }

  /** While `strong` is 1 there is one strong handle. */
  lemma OnlyStrong(s: State, g: Hid, h: Hid)
    requires Counts(s) && SVal(s) == 1 && g in Live(s, Strong) && h in Live(s, Strong)
    ensures g == h
  {
    assert |Live(s, Strong) - {h}| <= 0;
    assert g !in Live(s, Strong) - {h};
  }

  lemma WeakPositive(s: State, h: Hid)
    requires Counts(s) && Locks(s) && h in s.handles && s.handles[h].live
    ensures WVal(s) > 0
  {
    KindLive(s, h);
    if s.locker.None? && s.handles[h].kind.Weak? { assert |Live(s, Weak)| > 0; }
  }

  /** A load of a counter, or a read of the data. */
  lemma LoadKeeps(s: State, s2: State, t: Tid)
    requires Inv(s) && Stays(s, s2, t) && SameCounters(s, s2) && s2.handles == s.handles
    requires s2.data == s.data && s2.ended == s.ended
    requires !IsWrite(s2.events[|s.events|])
    requires SameRole(s.threads[t].pc, s2.threads[t].pc) && s.threads[t].pc.WSub? == s2.threads[t].pc.WSub?
    requires s.threads[t].pc.h in s.handles && KindOk(s2.threads[t].pc, s.handles[s.threads[t].pc.h].kind)
    requires IsDataAccess(s2.events[|s.events|]) ==> !s.handles[s.threads[t].pc.h].kind.Weak?
    requires DataPc(s2, t)
    ensures Inv(s2)
  {
    assert UserOk(s, t);
    WeakPositive(s, s.threads[t].pc.h);
    OverSame(s, s2, t);
    CountsSame(s, s2);
    LocksSame(s, s2, t);
    DataSame(s, s2, t);
    FreeingSame(s, s2, t);
    HistoriesSame(s, s2, t);
    LoadKnown(s, s2, t);
  }

  /** What a load or a read adds is known to its thread. */
  lemma LoadKnown(s: State, s2: State, t: Tid)
    requires Usage(s) && Known(s) && Writes(s) && Rises(s) && WVal(s) > 0
    requires Stays(s, s2, t) && SameCounters(s, s2) && s2.handles == s.handles
    requires !IsWrite(s2.events[|s.events|]) && SameRole(s.threads[t].pc, s2.threads[t].pc)
    requires s.threads[t].pc.h in s.handles && KindOk(s2.threads[t].pc, s.handles[s.threads[t].pc.h].kind)
    requires IsDataAccess(s2.events[|s.events|]) ==> !s.handles[s.threads[t].pc.h].kind.Weak?
    ensures Usage(s2) && Known(s2) && Writes(s2) && Rises(s2)
  {
    UsageStays(s, s2, t);
    LiveSame(s, s2, Strong);
    LiveSame(s, s2, Unique);
    KnownStays(s, s2, t);
    WritesStays(s, s2, t);
    RisesSame(s, s2, t);
  }
}

/** The steps that only read: a stale value never gives a thread more than it may have. */
module ArcLoads {
  import opened ArcMachine
  import opened ArcInvariant
  import opened ArcFrames

  /** The thread borrows its handle exclusively, or it is the only one to borrow it and has seen what every
      earlier borrower did. */
  predicate Sole(s: State, t: Tid) {
    && t in s.threads && s.threads[t].pc.Lock?
    && var pc, view := s.threads[t].pc, s.threads[t].view;
      pc.ex || (pc.h in s.handles && s.handles[pc.h].shared == {t} && s.handles[pc.h].ret <= view)
  }

  /** If the sole user of a strong handle has the weak counter locked, it knows of the last lift of
      `strong` from 1: made through its own handle, before its handle was made, or through a Weak
      handle whose drop its Acquire lock has seen. */
  lemma LockerIsFresh(s: State, t: Tid, i: nat)
    requires Inv(s) && Sole(s, t)
    requires ReadableS(s, s.threads[t].view, i)
    ensures RiseIdx(s) <= i
  {
    var h, r := s.threads[t].pc.h, s.rise;
    assert UserOk(s, t);
    KindLive(s, h);
    var g := s.events[r].via;
    assert KnownVia(s, r, g);
    if BornAfterRise(s, h) {
      assert s.handles[h].born in s.threads[t].view;
    } else if g != h {
      assert s.handles[g].kind.Weak?;
      assert g !in Live(s, Weak);
      assert r in WView(s);
    }
  }

  /** So a load of `strong` that returns 1 is the newest value, and the handle is alone. */
  lemma UniqueMeansAlone(s: State, t: Tid, i: nat)
    requires Inv(s) && Sole(s, t)
    requires ReadableS(s, s.threads[t].view, i) && s.strong[i].val == 1
    ensures i == |s.strong| - 1 && Alone(s, s.threads[t].pc.h)
  {
    var h := s.threads[t].pc.h;
    assert UserOk(s, t);
    KindLive(s, h);
    assert |Live(s, Strong)| > 0;
    LockerIsFresh(s, t, i);
    assert SVal(s) == 1;
    forall g <- s.handles | s.handles[g].live ensures g == h {
      KindLive(s, g);
      if s.handles[g].kind.Strong? { OnlyStrong(s, g, h); }
    }
  }

  /** After `make_mut` took `strong` to 0 its thread knows of the last step of `weak` from 1. */
  lemma StealerKnowsWRise(s: State, t: Tid)
    requires Inv(s) && t in s.threads && s.threads[t].pc.MM?
    ensures s.wrise in s.threads[t].view
  {
    var h, r := s.threads[t].pc.h, s.wrise;
    assert UserOk(s, t);
    KindLive(s, h);
    var g := s.events[r].via;
    assert KnownVia(s, r, g);
    if s.handles[g].live {
      KindLive(s, g);
      OnlyUnique(s, g, h);
    } else if s.handles[g].kind.Strong? {
      assert WillHold(s, h, r);
    } else {
      assert DeadUnique(s, g);
    }
  }

  /** So a load of `weak` that returns 1 is the newest value, and no Weak handle is left. */
  lemma OneMeansAlone(s: State, t: Tid, i: nat)
    requires Inv(s) && t in s.threads && s.threads[t].pc.MM?
    requires ReadableW(s, s.threads[t].view, i) && s.weak[i].val == 1
    ensures i == |s.weak| - 1 && Alone(s, s.threads[t].pc.h)
  {
    var h := s.threads[t].pc.h;
    assert UserOk(s, t);
    KindLive(s, h);
    StealerKnowsWRise(s, t);
    assert WRiseIdx(s) <= i;
    assert |Live(s, Weak)| == 0;
    forall g <- s.handles | s.handles[g].live ensures g == h {
      KindLive(s, g);
      if s.handles[g].kind.Unique? { OnlyUnique(s, g, h); }
    }
  }

  /** An access by `t` that changes nothing but what is known. */
  lemma QuietAccess(s: State, t: Tid, place: Place, acquire: bool, mv: View, pc: Pc)
    requires Inv(s) && t in s.threads && UserOk(s, t)
    requires SameMode(s.threads[t].pc, pc) && SameRole(s.threads[t].pc, pc)
    requires !s.threads[t].pc.WSub? && !pc.WSub?
    requires KindOk(pc, s.handles[s.threads[t].pc.h].kind)
    requires place != Created(true) && place != OnData(true)
    requires place.OnData? ==> !s.handles[s.threads[t].pc.h].kind.Weak?
    requires DataPc(Access(s, t, place, acquire, mv, pc), t)
    ensures Inv(Access(s, t, place, acquire, mv, pc))
  {
    LoadKeeps(s, Access(s, t, place, acquire, mv, pc), t);
  }

  lemma KeepsWeakLoad(s: State, t: Tid, i: nat, pc: Pc)
    requires Inv(s) && t in s.threads && i < |s.weak|
    requires var p := s.threads[t].pc;
      || (p.Sh? && HasKind(s, p.h, Strong) && pc in {p, Dg(p.h, s.weak[i].val)})
      || (p.Ex? && HasKind(s, p.h, Strong) && pc == p)
      || (p.Dg? && pc == Dg(p.h, s.weak[i].val))
    ensures Inv(LoadW(s, t, i, false, pc))
  {
    assert UserOk(s, t) && DataPc(s, t);
    QuietAccess(s, t, OnWeak(i), false, s.weak[i].view, pc);
  }

  lemma KeepsStrongLoad(s: State, t: Tid, i: nat, pc: Pc)
    requires Inv(s) && t in s.threads && i < |s.strong|
    requires var p := s.threads[t].pc;
      || (p.Sh? && !HasKind(s, p.h, Strong) && pc == Up(p.h, s.strong[i].val))
      || (p.Ex? && HasKind(s, p.h, Strong) && pc in {p, Cl(p.h)})
      || (p.Up? && pc == Up(p.h, s.strong[i].val))
    ensures Inv(LoadS(s, t, i, false, pc))
  {
    assert UserOk(s, t) && DataPc(s, t);
    QuietAccess(s, t, OnStrong(i), false, s.strong[i].view, pc);
  }

  lemma KeepsRead(s: State, t: Tid, pc: Pc)
    requires Inv(s) && t in s.threads
    requires var p := s.threads[t].pc;
      (p.Sh? && !HasKind(s, p.h, Weak) && pc == p) || (p.Cl? && pc == Dr(p.h))
    ensures Inv(TouchData(s, t, false, pc))
  {
    assert UserOk(s, t) && DataPc(s, t);
    QuietAccess(s, t, OnData(false), false, {}, pc);
  }

  lemma KeepsUniqueLoad(s: State, t: Tid, i: nat)
    requires Inv(s) && t in s.threads && s.threads[t].pc.Lock? && ReadableS(s, s.threads[t].view, i)
    ensures Inv(LoadS(s, t, i, true, Unlock(s.threads[t].pc.h, s.threads[t].pc.ex, s.strong[i].val == 1)))
  {
    var pc, one := s.threads[t].pc, s.strong[i].val == 1;
    assert UserOk(s, t) && DataPc(s, t);
    if pc.ex && one {
      UniqueMeansAlone(s, t, i);
    }
    QuietAccess(s, t, OnStrong(i), true, s.strong[i].view, Unlock(pc.h, pc.ex, one));
  }

  lemma KeepsStealLoad(s: State, t: Tid, i: nat)
    requires Inv(s) && t in s.threads && s.threads[t].pc.MM? && ReadableW(s, s.threads[t].view, i)
    ensures Inv(LoadW(s, t, i, false,
      if s.weak[i].val != 1 then Own(s.threads[t].pc.h, Steal) else MMR(s.threads[t].pc.h)))
  {
    var pc := s.threads[t].pc;
    assert UserOk(s, t) && DataPc(s, t);
    if s.weak[i].val == 1 {
      OneMeansAlone(s, t, i);
    }
    QuietAccess(s, t, OnWeak(i), false, s.weak[i].view, if s.weak[i].val != 1 then Own(pc.h, Steal) else MMR(pc.h));
  }
}

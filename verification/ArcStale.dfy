/** When the loads of a lone call read the last value written, and what `upgrade` and `is_unique` may answer when they
  * do not. */
module ArcStale {
  import opened Basics
  import opened ArcMachine
  import opened ArcTheorems
  import opened ArcAlone
  import opened ArcCalls

  // ----- A thread that has seen every access to the counters -----

  predicate Named(s: State, place: Place) {
    exists e :: 0 <= e < |s.events| && s.events[e].place == place
  }

  /** The last value of each counter, unless it is the first, was written by an access. */
  predicate Recorded(s: State) {
    && (|s.strong| > 1 ==> Named(s, OnStrong(|s.strong| - 1)))
    && (|s.weak| > 1 ==> Named(s, OnWeak(|s.weak| - 1)))
  }

  predicate OnCounter(place: Place) { place.OnStrong? || place.OnWeak? }

  predicate KnowsCounters(s: State, view: View) {
    forall e :: 0 <= e < |s.events| && OnCounter(s.events[e].place) ==> e in view
  }

  predicate Informed(s: State, t: Tid) {
    t in s.threads && Recorded(s) && KnowsCounters(s, s.threads[t].view)
  }

  lemma InformedReadsLast(s: State, t: Tid, i: nat)
    requires Informed(s, t)
    ensures ReadableS(s, s.threads[t].view, i) ==> i + 1 == |s.strong|
    ensures ReadableW(s, s.threads[t].view, i) ==> i + 1 == |s.weak|
  {
    if ReadableS(s, s.threads[t].view, i) && |s.strong| > 1 {
      var e :| 0 <= e < |s.events| && s.events[e].place == OnStrong(|s.strong| - 1);
      assert e in s.threads[t].view;
    }
    if ReadableW(s, s.threads[t].view, i) && |s.weak| > 1 {
      var e :| 0 <= e < |s.events| && s.events[e].place == OnWeak(|s.weak| - 1);
      assert e in s.threads[t].view;
    }
  }

  lemma StrongLoadsAreReadable(s: State, a: Label)
    requires Enabled(s, a) && LoadsStrong(a)
    ensures ReadableS(s, s.threads[a.t].view, a.i)
  {}

  lemma WeakLoadsAreReadable(s: State, a: Label)
    requires Enabled(s, a) && LoadsWeak(a)
    ensures ReadableW(s, s.threads[a.t].view, a.i)
  {}

  lemma InformedIsNewest(s: State, a: Label)
    requires Enabled(s, a) && Informed(s, a.t)
    ensures Newest(s, a)
  {
    if LoadsStrong(a) {
      StrongLoadsAreReadable(s, a);
      InformedReadsLast(s, a.t, a.i);
    }
    if LoadsWeak(a) {
      WeakLoadsAreReadable(s, a);
      InformedReadsLast(s, a.t, a.i);
    }
  }

  /** One more access, by thread `t`, to `place`; or none. */
  predicate Grew(s: State, s2: State, t: Tid) {
    && t in s.threads && t in s2.threads && s.threads[t].view <= s2.threads[t].view
    && |s.events| <= |s2.events| <= |s.events| + 1
    && (forall e :: 0 <= e < |s.events| ==> s2.events[e] == s.events[e])
    && (|s2.events| > |s.events| ==> |s.events| in s2.threads[t].view)
    && (s2.strong == s.strong || (|s2.events| > |s.events| && s2.events[|s.events|].place == OnStrong(|s.strong|)
                                  && |s2.strong| == |s.strong| + 1))
    && (s2.weak == s.weak || (|s2.events| > |s.events| && s2.events[|s.events|].place == OnWeak(|s.weak|)
                              && |s2.weak| == |s.weak| + 1))
  }

  lemma BorrowGrew(s: State, a: Label)
    requires Enabled(s, a) && (a.Sync? || a.TakeSh? || a.TakeEx? || a.Give?)
    ensures Grew(s, Apply(s, a), a.t)
  {}

  lemma AddGrew(s: State, a: Label)
    requires Enabled(s, a) && (a.CloneStrong? || a.DgCas? || a.UpCas? || a.WeakAdd?)
    ensures Grew(s, Apply(s, a), a.t)
  {}

  lemma StrongLoadGrew(s: State, a: Label)
    requires Enabled(s, a) && LoadsStrong(a)
    ensures Grew(s, Apply(s, a), a.t) && Apply(s, a).strong == s.strong
  {}

  lemma WeakLoadGrew(s: State, a: Label)
    requires Enabled(s, a) && LoadsWeak(a)
    ensures Grew(s, Apply(s, a), a.t)
  {}

  lemma DataGrew(s: State, a: Label)
    requires Enabled(s, a) && (a.ReadData? || a.MMClone? || a.WriteData? || a.EndData?)
    ensures Grew(s, Apply(s, a), a.t)
  {}

  lemma TurnGrew(s: State, a: Label)
    requires Enabled(s, a) && (a.LockCas? || a.UnlockStore? || a.MMRestore? || a.Publish?)
    ensures Grew(s, Apply(s, a), a.t)
  {}

  lemma ZeroGrew(s: State, a: Label)
    requires Enabled(s, a) && (a.StrongSub? || a.WeakSub? || a.UnwrapCas? || a.MMCas?)
    ensures Grew(s, Apply(s, a), a.t)
  {}

  lemma LocalGrew(s: State, a: Label)
    requires Enabled(s, a)
    requires a.DgPanic? || a.EndMut? || a.UpEnd? || a.UniqueDrop? || a.Fence? || a.Free? || a.Abort?
    ensures Grew(s, Apply(s, a), a.t)
  {}

  lemma StepGrew(s: State, a: Label)
    requires Enabled(s, a)
    ensures Grew(s, Apply(s, a), a.t)
  {
    if a.Sync? || a.TakeSh? || a.TakeEx? || a.Give? { BorrowGrew(s, a); }
    else if a.CloneStrong? || a.DgCas? || a.UpCas? || a.WeakAdd? { AddGrew(s, a); }
    else if LoadsStrong(a) { StrongLoadGrew(s, a); }
    else if LoadsWeak(a) { WeakLoadGrew(s, a); }
    else if a.ReadData? || a.MMClone? || a.WriteData? || a.EndData? { DataGrew(s, a); }
    else if a.LockCas? || a.UnlockStore? || a.MMRestore? || a.Publish? { TurnGrew(s, a); }
    else if a.StrongSub? || a.WeakSub? || a.UnwrapCas? || a.MMCas? { ZeroGrew(s, a); }
    else { LocalGrew(s, a); }
  }

  lemma GrewNames(s: State, s2: State, t: Tid, place: Place)
    requires Grew(s, s2, t) && Named(s, place)
    ensures Named(s2, place)
  {
    var e :| 0 <= e < |s.events| && s.events[e].place == place;
    assert s2.events[e].place == place;
  }

  lemma GrewRecords(s: State, s2: State, t: Tid)
    requires Grew(s, s2, t) && Recorded(s)
    ensures Recorded(s2)
  {
    if s2.strong == s.strong {
      if |s.strong| > 1 { GrewNames(s, s2, t, OnStrong(|s.strong| - 1)); }
    } else {
      assert s2.events[|s.events|].place == OnStrong(|s2.strong| - 1);
    }
    if s2.weak == s.weak {
      if |s.weak| > 1 { GrewNames(s, s2, t, OnWeak(|s.weak| - 1)); }
    } else {
      assert s2.events[|s.events|].place == OnWeak(|s2.weak| - 1);
    }
  }

  /** What a thread does itself it has seen. */
  lemma GrewInforms(s: State, s2: State, t: Tid)
    requires Grew(s, s2, t) && Informed(s, t)
    ensures Informed(s2, t)
  {
    GrewRecords(s, s2, t);
  }

  lemma InformedStays(s: State, a: Label)
    requires Enabled(s, a) && Informed(s, a.t)
    ensures Informed(Apply(s, a), a.t)
  {
    StepGrew(s, a);
    GrewInforms(s, Apply(s, a), a.t);
  }

  lemma {:induction false} InformedGoesOn(s: State, t: Tid, l: seq<Label>, s2: State)
    requires Informed(s, t) && Going(s, t, l, s2)
    ensures Fresh(s, l)
    decreases |l|
  {
    if l != [] {
      InformedIsNewest(s, l[0]);
      InformedStays(s, l[0]);
      InformedGoesOn(Apply(s, l[0]), t, l[1..], s2);
    }
  }

  /** All the loads of a lone call by a thread that has seen every access to the counters read the last value. */
  lemma InformedCallsAreFresh(call: Call, s: State, t: Tid, l: seq<Label>, s2: State)
    requires Informed(s, t) && Lone(call, s, t, l, s2)
    ensures Fresh(s, l)
  {
    InformedIsNewest(s, l[0]);
    InformedStays(s, l[0]);
    InformedGoesOn(Apply(s, l[0]), t, l[1..], s2);
  }

  /** In a program of one thread, that thread has. */
  lemma {:induction false} SoloIsInformed(states: seq<State>, labels: seq<Label>, origin: Origin, v: int,
                                          tids: set<Tid>, t: Tid, i: nat)
    requires RunFrom(states, labels, origin, v, tids) && t in tids && i < |states|
    requires forall a <- labels :: a.t == t
    ensures Informed(states[i], t)
  {
    if i > 0 {
      SoloIsInformed(states, labels, origin, v, tids, t, i - 1);
      assert StepAt(states, labels, i - 1) && labels[i - 1] in labels;
      InformedStays(states[i - 1], labels[i - 1]);
    }
  }

  // ----- A stale upgrade -----

  /** The thread may still read `val` in `strong`. */
  ghost predicate MayRead(s: State, t: Tid, val: nat) {
    t in s.threads && exists i: nat :: ReadableS(s, s.threads[t].view, i) && s.strong[i].val == val
  }

  /** No value of `strong` is over the limit. */
  predicate InLimits(s: State) {
    forall i :: 0 <= i < |s.strong| ==> s.strong[i].val <= MAX_REFCOUNT
  }

  /** What may be read after a step that writes nothing could be read before. */
  lemma ReadBefore(s: State, s2: State, t: Tid, val: nat)
    requires Grew(s, s2, t) && s2.strong == s.strong && MayRead(s2, t, val)
    ensures MayRead(s, t, val)
  {
    var i: nat :| ReadableS(s2, s2.threads[t].view, i) && s2.strong[i].val == val;
    assert ReadableS(s, s.threads[t].view, i);
  }

  lemma UpLoadReads(s: State, a: Label)
    requires Enabled(s, a) && (a.UpLoad? || a.UpFail?)
    ensures a.t in Apply(s, a).threads && Apply(s, a).threads[a.t].pc.Up?
    ensures MayRead(s, a.t, Apply(s, a).threads[a.t].pc.cur)
  {
    StrongLoadsAreReadable(s, a);
  }

  lemma SyncKeepsUp(s: State, a: Label)
    requires Enabled(s, a) && a.Sync?
    ensures a.t in Apply(s, a).threads && Apply(s, a).threads[a.t].pc == s.threads[a.t].pc
    ensures Apply(s, a).strong == s.strong
  {}

  lemma UpRests(s: State, a: Label)
    requires Enabled(s, a) && (a.UpCas? || a.UpEnd?)
    ensures a.t in Apply(s, a).threads && Resting(Apply(s, a).threads[a.t].pc)
    ensures a.UpEnd? ==> s.threads[a.t].pc.Up? && (s.threads[a.t].pc.cur == 0 || s.threads[a.t].pc.cur > MAX_REFCOUNT)
  {}

  lemma {:induction false} RefusedReadZero(s: State, t: Tid, l: seq<Label>, s2: State)
    requires Going(s, t, l, s2) && s.threads[t].pc.Up? && InLimits(s) && l != [] && l[|l| - 1].UpEnd?
    requires s.threads[t].pc.cur <= MAX_REFCOUNT
    ensures s.threads[t].pc.cur == 0 || MayRead(s, t, 0)
    decreases |l|
  {
    var a, s1 := l[0], Apply(s, l[0]);
    NextLabelUp(s, a);
    if a.UpCas? || a.UpEnd? {
      UpRests(s, a);
    } else {
      StepGrew(s, a);
      if a.Sync? {
        SyncKeepsUp(s, a);
      } else {
        UpLoadReads(s, a);
        StrongLoadGrew(s, a);
      }
      assert l[1..][|l[1..]| - 1] == l[|l| - 1];
      RefusedReadZero(s1, t, l[1..], s2);
      if MayRead(s1, t, 0) { ReadBefore(s, s1, t, 0); }
    }
  }

  lemma NextLabelUp(s: State, a: Label)
    requires Enabled(s, a) && s.threads[a.t].pc.Up?
    ensures a.Sync? || a.UpCas? || a.UpFail? || a.UpEnd?
  {
    if !a.Sync? { NextBorrow(s, a); }
  }

  lemma StaleRefuses(s: State, t: Tid, h: Hid, c: Look, i: nat) returns (l: seq<Label>, s2: State)
    requires On(s, t, Sh(h), h, Weak, c) && ReadableS(s, s.threads[t].view, i) && s.strong[i].val == 0
    ensures l == [UpLoad(t, i), UpEnd(t)] && Lone(UpgradeCall, s, t, l, s2)
  {
    var s1 := Apply(s, UpLoad(t, i));
    s2 := Apply(s1, UpEnd(t));
    l := [UpLoad(t, i), UpEnd(t)];
    assert l[1..] == [UpEnd(t)] && l[1..][1..] == [];
    assert Going(s2, t, [], s2);
    assert Going(s1, t, [UpEnd(t)], s2);
  }

  /** A lone `upgrade` that gives `None`. */
  ghost predicate Refused(s: State, t: Tid, l: seq<Label>, s2: State) {
    Lone(UpgradeCall, s, t, l, s2) && l[|l| - 1].UpEnd?
  }

  /** Of a block with a strong owner, a lone `upgrade` may give `None` exactly if its thread can still read an old 0:
      it has not seen that the count left it. */
  lemma {:induction false} LoneUpgradeRefusesExactly(s: State, t: Tid, h: Hid, c: Look)
    requires On(s, t, Sh(h), h, Weak, c) && c.strong > 0 && InLimits(s)
    ensures (exists l, s2 :: Refused(s, t, l, s2)) <==> MayRead(s, t, 0)
  {
    if MayRead(s, t, 0) {
      var i: nat :| ReadableS(s, s.threads[t].view, i) && s.strong[i].val == 0;
      var l, s2 := StaleRefuses(s, t, h, c, i);
      assert Refused(s, t, l, s2);
    }
    if l, s2 :| Refused(s, t, l, s2) {
      RefusedFirst(s, t, l, s2);
    }
  }

  lemma RefusedFirst(s: State, t: Tid, l: seq<Label>, s2: State)
    requires Refused(s, t, l, s2) && InLimits(s)
    ensures MayRead(s, t, 0)
  {
    var a, s1 := l[0], Apply(s, l[0]);
    UpLoadReads(s, a);
    StrongLoadGrew(s, a);
    assert l[1..][|l[1..]| - 1] == l[|l| - 1];
    RefusedReadZero(s1, t, l[1..], s2);
    if MayRead(s1, t, 0) { ReadBefore(s, s1, t, 0); }
  }
}

/** What `is_unique` answers, and what an answer is worth. */
module ArcUnique {
  import opened Basics
  import opened ArcMachine
  import opened ArcInvariant
  import opened ArcLoads
  import opened ArcSteps
  import opened ArcTheorems
  import opened ArcAlone
  import opened ArcCalls

  /** Among the steps is the unlocking of an `is_unique`, or `get_mut`, that found the handle unique. */
  ghost predicate SaysYes(s: State, t: Tid, l: seq<Label>)
    decreases |l|
  {
    && l != [] && t in s.threads
    && (|| (l[0] == UnlockStore(t) && s.threads[t].pc.Unlock? && s.threads[t].pc.unique)
        || (Enabled(s, l[0]) && SaysYes(Apply(s, l[0]), t, l[1..])))
  }

  lemma UnlockIsStep(s: State, a: Label)
    requires Enabled(s, a) && a.UnlockStore?
    ensures s.threads[a.t].pc.Unlock?
  {}

  lemma UnlockingOnly(s: State, t: Tid, a: Label)
    requires Enabled(s, a) && a.t == t && s.threads[t].pc.Unlock?
    ensures a.Sync? || a == UnlockStore(t)
  {
    if !a.Sync? { NextBorrow(s, a); }
  }

  lemma MidSays(s: State, t: Tid, h: Hid, c: Look, a: Label)
    requires AtMid(IsUniqueCall, s, t, h, c) && Enabled(s, a) && a.t == t && Newest(s, a)
    ensures At(IsUniqueCall, Apply(s, a), t, h, c)
    ensures a.UnlockStore? ==> s.threads[t].pc == Unlock(h, false, c.strong == 1)
    ensures a == UnlockStore(t) <==> AtEnd(IsUniqueCall, Apply(s, a), t, h, c)
  {
    MidStep(IsUniqueCall, s, t, h, c, a);
    if a.UnlockStore? {
      UnlockIsStep(s, a);
      var c1 := c.(weak := USIZE_MAX);
      Unlocks(s, t, h, false, c.strong == 1, c1);
      assert c1.(weak := 1) == c;
    } else if a.Sync? {
      SyncStays(s, a, t, s.threads[t].pc, h, Strong, Seen(s));
    } else {
      NextBorrow(s, a);
      StrongLoads(s, t, h, false, Seen(s));
    }
  }

  lemma {:induction false} GoingSays(s: State, t: Tid, h: Hid, c: Look, l: seq<Label>, s2: State)
    requires AtMid(IsUniqueCall, s, t, h, c) && Going(s, t, l, s2) && ArcCalls.Fresh(s, l)
    ensures SaysYes(s, t, l) <==> c.strong == 1
    decreases |l|
  {
    MidIsBusy(IsUniqueCall, s, t, h, c);
    var s1 := Apply(s, l[0]);
    MidSays(s, t, h, c, l[0]);
    if AtEnd(IsUniqueCall, s1, t, h, c) {
      EndIsResting(IsUniqueCall, s1, t, h, c);
      assert l[1..] == [];
    } else {
      GoingSays(s1, t, h, c, l[1..], s2);
    }
  }

  /** A lone `is_unique` whose loads read the last values says yes exactly if there is one strong handle and no Weak
      one, gives the borrow back, and leaves the block as it was. */
  lemma {:induction false} IsUniqueAnswers(s: State, t: Tid, h: Hid, c: Look, l: seq<Label>, s2: State)
    requires AtStart(IsUniqueCall, s, t, h, c) && Lone(IsUniqueCall, s, t, l, s2) && ArcCalls.Fresh(s, l)
    ensures SaysYes(s, t, l) <==> c.strong == 1 && c.weak == 1
    ensures On(s2, t, Sh(h), h, Strong, c)
  {
    CallReturns(IsUniqueCall, s, t, h, c, l, s2);
    if c.weak == 1 {
      FirstLocks(s, t, h, c, l[0]);
      GoingSays(Apply(s, l[0]), t, h, c, l[1..], s2);
    } else {
      FirstFails(s, t, h, c, l[0]);
    }
  }

  lemma FirstLocks(s: State, t: Tid, h: Hid, c: Look, a: Label)
    requires AtStart(IsUniqueCall, s, t, h, c) && c.weak == 1
    requires Entry(IsUniqueCall, a) && Enabled(s, a) && a.t == t && Newest(s, a)
    ensures a == LockCas(t) && AtMid(IsUniqueCall, Apply(s, a), t, h, c)
  {
    ArcAlone.Locks(s, t, h, false, c);
    IsMid(IsUniqueCall, Apply(s, LockCas(t)), t, h, c, Lock(h, false), Strong, c.(weak := USIZE_MAX));
  }

  lemma FirstFails(s: State, t: Tid, h: Hid, c: Look, a: Label)
    requires AtStart(IsUniqueCall, s, t, h, c) && c.weak != 1
    requires Entry(IsUniqueCall, a) && Enabled(s, a) && a.t == t && Newest(s, a)
    ensures a.LockFail? && t in Apply(s, a).threads && Resting(Apply(s, a).threads[t].pc)
  {
    LockRefuses(s, t, h, false, c);
  }

  // ----- In any run -----

  predicate NoAnswer(s: State, a: Label)
    requires Enabled(s, a)
  {
    a.t in Apply(s, a).threads && !Apply(s, a).threads[a.t].pc.Unlock?
  }

  lemma AddNoAnswer(s: State, a: Label)
    requires Enabled(s, a)
    requires a.TakeSh? || a.TakeEx? || a.Give? || a.CloneStrong? || a.DgCas? || a.UpCas? || a.WeakAdd?
    ensures NoAnswer(s, a)
  {}

  lemma LoadNoAnswer(s: State, a: Label)
    requires Enabled(s, a) && (LoadsStrong(a) || LoadsWeak(a)) && !a.LoadStrong?
    ensures NoAnswer(s, a)
  {}

  lemma TurnNoAnswer(s: State, a: Label)
    requires Enabled(s, a)
    requires a.LockCas? || a.UnlockStore? || a.MMRestore? || a.Publish? || a.StrongSub? || a.WeakSub? || a.UnwrapCas?
      || a.MMCas?
    ensures NoAnswer(s, a)
  {}

  lemma LocalNoAnswer(s: State, a: Label)
    requires Enabled(s, a)
    requires a.DgPanic? || a.EndMut? || a.UpEnd? || a.UniqueDrop? || a.Fence? || a.Free? || a.ReadData? || a.MMClone?
      || a.EndData?
    ensures NoAnswer(s, a)
  {}

  lemma LastNoAnswer(s: State, a: Label)
    requires Enabled(s, a) && (a.WriteData? || a.Abort?)
    ensures NoAnswer(s, a)
  {}

  lemma SyncStaysThere(s: State, a: Label)
    requires Enabled(s, a) && a.Sync?
    ensures Apply(s, a).threads[a.t].pc == s.threads[a.t].pc
  {}

  lemma UnlockStep(s: State, a: Label)
    requires Enabled(s, a) && a.t in Apply(s, a).threads && Apply(s, a).threads[a.t].pc.Unlock?
    ensures a.Sync? || a.LoadStrong?
    ensures a.Sync? ==> Apply(s, a).threads[a.t].pc == s.threads[a.t].pc
  {
    if a.Sync? {
      SyncStaysThere(s, a);
    } else if a.TakeSh? || a.TakeEx? || a.Give? || a.CloneStrong? || a.DgCas? || a.UpCas? || a.WeakAdd? {
      AddNoAnswer(s, a);
    } else if (LoadsStrong(a) || LoadsWeak(a)) && !a.LoadStrong? {
      LoadNoAnswer(s, a);
    } else if a.WriteData? || a.Abort? {
      LastNoAnswer(s, a);
    } else if a.LockCas? || a.UnlockStore? || a.MMRestore? || a.Publish? || a.StrongSub? || a.WeakSub? || a.UnwrapCas?
      || a.MMCas? {
      TurnNoAnswer(s, a);
    } else if !a.LoadStrong? {
      LocalNoAnswer(s, a);
    }
  }

  lemma LoadedAnswer(s: State, t: Tid, j: nat)
    requires Enabled(s, LoadStrong(t, j))
    ensures t in s.threads && s.threads[t].pc.Lock? && ReadableS(s, s.threads[t].view, j)
    ensures t in Apply(s, LoadStrong(t, j)).threads
    ensures Apply(s, LoadStrong(t, j)).threads[t].pc ==
      Unlock(s.threads[t].pc.h, s.threads[t].pc.ex, s.strong[j].val == 1)
  {}

  /** The answer that thread `t` is about to give at `p` was read at step `k`. */
  predicate ReadAt(s: State, a: Label, t: Tid, p: Pc) {
    && a.LoadStrong? && a.t == t && t in s.threads && s.threads[t].pc.Lock?
    && ReadableS(s, s.threads[t].view, a.i)
    && p == Unlock(s.threads[t].pc.h, s.threads[t].pc.ex, s.strong[a.i].val == 1)
  }

  lemma OtherStays(states: seq<State>, labels: seq<Label>, i: nat, t: Tid)
    requires i < |labels| < |states| && StepAt(states, labels, i) && t in states[i + 1].threads && labels[i].t != t
    ensures t in states[i].threads && states[i].threads[t] == states[i + 1].threads[t]
  {
    StepHasShape(states[i], labels[i], states[i + 1]);
  }

  lemma OwnStep(states: seq<State>, labels: seq<Label>, i: nat, t: Tid)
    requires i < |labels| < |states| && StepAt(states, labels, i) && t in states[i + 1].threads
    requires labels[i].t == t && states[i + 1].threads[t].pc.Unlock?
    ensures t in states[i].threads
    ensures ReadAt(states[i], labels[i], t, states[i + 1].threads[t].pc)
      || states[i].threads[t].pc == states[i + 1].threads[t].pc
  {
    UnlockStep(states[i], labels[i]);
    if labels[i].LoadStrong? { LoadedAnswer(states[i], t, labels[i].i); }
  }

  lemma {:induction false} AnswerWasRead(states: seq<State>, labels: seq<Label>, origin: Origin, v: int,
                                         tids: set<Tid>, i: nat, t: Tid) returns (k: nat)
    requires RunFrom(states, labels, origin, v, tids) && i < |states|
    requires t in states[i].threads && states[i].threads[t].pc.Unlock?
    ensures k < i && ReadAt(states[k], labels[k], t, states[i].threads[t].pc)
  {
    k := i - 1;
    assert StepAt(states, labels, k);
    if labels[k].t != t {
      OtherStays(states, labels, k, t);
      k := AnswerWasRead(states, labels, origin, v, tids, k, t);
    } else {
      OwnStep(states, labels, k, t);
      if !ReadAt(states[k], labels[k], t, states[i].threads[t].pc) {
        k := AnswerWasRead(states, labels, origin, v, tids, k, t);
      }
    }
  }

  /** In any run, a yes, shared or exclusive, was a 1 that the thread read under the lock; and if it was the sole user
      of its handle then, that handle was the only one of any kind. */
  lemma YesMeansAlone(states: seq<State>, labels: seq<Label>, origin: Origin, v: int, tids: set<Tid>, i: nat, t: Tid)
    returns (k: nat)
    requires RunFrom(states, labels, origin, v, tids) && i < |states|
    requires t in states[i].threads && states[i].threads[t].pc.Unlock?
    ensures k < i && ReadAt(states[k], labels[k], t, states[i].threads[t].pc)
    ensures states[i].threads[t].pc.unique <==> states[k].strong[labels[k].i].val == 1
    ensures states[i].threads[t].pc.unique && Sole(states[k], t) ==> Alone(states[k], states[i].threads[t].pc.h)
  {
    k := AnswerWasRead(states, labels, origin, v, tids, i, t);
    if states[i].threads[t].pc.unique && Sole(states[k], t) {
      Reachable(states, labels, origin, v, tids, k);
      UniqueMeansAlone(states[k], t, labels[k].i);
    }
  }
}

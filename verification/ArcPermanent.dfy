/** When a strong count of 0 is permanent, whatever any threads do. */
module ArcPermanent {
  import opened Basics
  import opened ArcMachine
  import opened ArcInvariant
  import opened ArcFrames
  import opened ArcAdds
  import opened ArcTurns
  import opened ArcBorrows
  import opened ArcSteps
  import opened ArcTheorems
  import opened ArcLift
  import ArcOwners

  /** Some run leads from `s` to `s2`. */
  ghost predicate Leads(s: State, s2: State) {
    exists states, labels :: Path(states, labels, s, s2)
  }

  ghost predicate Path(states: seq<State>, labels: seq<Label>, s: State, s2: State) {
    IsRun(states, labels) && states[0] == s && states[|labels|] == s2
  }

  ghost predicate MayBeLifted(s: State) {
    exists s2 :: Leads(s, s2) && SVal(s2) > 0
  }

  lemma {:induction false} LeadsOn(s: State, s1: State, s2: State)
    requires Leads(s, s1) && Leads(s1, s2)
    ensures Leads(s, s2)
  {
    var p, l :| Path(p, l, s, s1);
    var q, m :| Path(q, m, s1, s2);
    var states, labels := p + q[1..], l + m;
    forall i | 0 <= i < |labels| ensures StepAt(states, labels, i) {
      if i < |l| { assert StepAt(p, l, i); } else { assert StepAt(q, m, i - |l|); }
    }
    assert Path(states, labels, s, s2);
  }

  lemma StepLeads(s: State, a: Label, s2: State)
    requires IsStep(s, a, s2)
    ensures Leads(s, s2)
  {
    assert StepAt([s, s2], [a], 0);
    assert Path([s, s2], [a], s, s2);
  }

  lemma LiftedLater(s: State, s1: State)
    requires Leads(s, s1) && MayBeLifted(s1)
    ensures MayBeLifted(s)
  {
    var s2 :| Leads(s1, s2) && SVal(s2) > 0;
    LeadsOn(s, s1, s2);
  }

  lemma LiftedAlone(s: State, t: Tid)
    requires MayLift(s, t)
    ensures MayBeLifted(s)
  {
    var states, labels :| Lifts(s, t, states, labels);
    assert Path(states, labels, s, states[|labels|]);
  }

  // ----- The condition -----

  /** A handle that owns the implicit weak reference can still become strong: its user is not past the point of no
      return, or will find no Weak handle left, the others having had the chance to drop theirs; or it can be taken.
      A thread that is about to abort gives nothing back. */
  predicate LiftableAt(s: State, h: Hid)
    requires h in s.handles
  {
    match s.handles[h].excl
    case Some(t) =>
      && t in s.threads
      && var pc := s.threads[t].pc;
        pc.Ex? || pc.MMR? || (pc.MM? && (WVal(s) == 1 || (OverW(s) == {} && s.threads.Keys != {t})))
    case None =>
      (forall t <- s.handles[h].shared :: t !in OverW(s)) && s.threads.Keys != OverW(s)
  }

  predicate Liftable(s: State) {
    exists h <- s.handles :: HasKind(s, h, Unique) && LiftableAt(s, h)
  }

  ghost predicate Going(s: State) { Inv(s) && Placed(s) && Tame(s) && !s.aborted }

  // ----- Giving back -----

  /** Thread `u` gave back what it used, and nothing else changed. */
  predicate GaveBack(s: State, s2: State, u: Tid) {
    && OnlyThread(s, s2, u) && s2.threads[u].pc.Idle?
    && SVal(s2) == SVal(s) && WVal(s2) == WVal(s)
    && s2.handles.Keys == s.handles.Keys
    && forall g <- s.handles ::
         && s2.handles[g].live == s.handles[g].live && s2.handles[g].kind == s.handles[g].kind
         && s2.handles[g].shared == s.handles[g].shared - {u}
         && s2.handles[g].excl == if s.handles[g].excl == Some(u) then None else s.handles[g].excl
  }

  /** Thread `u` moved on within its call. */
  predicate MovedOn(s: State, s2: State, u: Tid) {
    OnlyThread(s, s2, u) && SVal(s2) == SVal(s) && WVal(s2) == WVal(s) && s2.handles == s.handles
  }

  lemma BackAfter(s: State, s1: State, s2: State, u: Tid)
    requires MovedOn(s, s1, u) && GaveBack(s1, s2, u)
    ensures GaveBack(s, s2, u)
  {}

  lemma GiveIsStep(s: State, u: Tid)
    requires Tame(s) && !s.aborted && u in s.threads && (s.threads[u].pc.Sh? || s.threads[u].pc.Ex?)
    requires s.threads[u].pc.h in s.handles
    ensures IsStep(s, Give(u), DoGive(s, u)) && Tame(DoGive(s, u)) && !DoGive(s, u).aborted
  {
    TameSame(s, DoGive(s, u), u);
  }

  lemma Gives(s: State, u: Tid) returns (s2: State)
    requires Going(s) && u in s.threads && (s.threads[u].pc.Sh? || s.threads[u].pc.Ex?)
    ensures Leads(s, s2) && Going(s2) && GaveBack(s, s2, u)
  {
    assert UserOk(s, u);
    s2 := DoGive(s, u);
    GiveIsStep(s, u);
    KeepsGive(s, u);
    StepPlaced(s, Give(u));
    StepLeads(s, Give(u), s2);
    GiveGivesBack(s, u);
  }

  lemma GiveGivesBack(s: State, u: Tid)
    requires Usage(s) && u in s.threads && (s.threads[u].pc.Sh? || s.threads[u].pc.Ex?)
    requires s.threads[u].pc.h in s.handles
    ensures GaveBack(s, DoGive(s, u), u)
  {
    assert UserOk(s, u);
    forall g <- s.handles ensures g != s.threads[u].pc.h ==> u !in s.handles[g].shared && s.handles[g].excl != Some(u) {
      assert HandleOk(s, g);
    }
    assert HandleOk(s, s.threads[u].pc.h);
  }

  lemma StrongReadable(s: State, t: Tid)
    requires Placed(s) && t in s.threads && 0 < |s.strong|
    ensures ReadableS(s, s.threads[t].view, |s.strong| - 1)
  {
    forall e <- s.threads[t].view | e < |s.events| && s.events[e].place.OnStrong?
      ensures s.events[e].place.idx <= |s.strong| - 1
    {
      assert PlaceOk(s, s.events[e].place);
    }
  }

  /** An `upgrade` reads the newest strong count, which is 0. */
  function DoRead(s: State, u: Tid): State
    requires u in s.threads && s.threads[u].pc.Up? && 0 < |s.strong|
  {
    LoadS(s, u, |s.strong| - 1, false, Up(s.threads[u].pc.h, 0))
  }

  lemma ReadIsStep(s: State, u: Tid)
    requires Tame(s) && !s.aborted && u in s.threads && s.threads[u].pc.Up? && 0 < |s.strong| && SVal(s) == 0
    requires 0 < s.threads[u].pc.cur <= MAX_REFCOUNT && ReadableS(s, s.threads[u].view, |s.strong| - 1)
    ensures IsStep(s, UpFail(u, |s.strong| - 1), DoRead(s, u)) && Tame(DoRead(s, u)) && !DoRead(s, u).aborted
    ensures MovedOn(s, DoRead(s, u), u) && DoRead(s, u).threads[u].pc == Up(s.threads[u].pc.h, 0)
  {
    TameSame(s, DoRead(s, u), u);
  }

  lemma RefuseIsStep(s: State, u: Tid)
    requires Tame(s) && !s.aborted && u in s.threads && s.threads[u].pc.Up?
    requires s.threads[u].pc.cur == 0 || s.threads[u].pc.cur > MAX_REFCOUNT
    ensures var s2 := SetPc(s, u, Sh(s.threads[u].pc.h));
      IsStep(s, UpEnd(u), s2) && Tame(s2) && !s2.aborted && MovedOn(s, s2, u) && s2.threads[u].pc.Sh?
  {
    TameSame(s, SetPc(s, u, Sh(s.threads[u].pc.h)), u);
  }

  lemma Refuses(s: State, u: Tid) returns (s2: State)
    requires Going(s) && u in s.threads && s.threads[u].pc.Up?
    requires s.threads[u].pc.cur == 0 || s.threads[u].pc.cur > MAX_REFCOUNT
    ensures Leads(s, s2) && Going(s2) && MovedOn(s, s2, u) && s2.threads[u].pc.Sh?
  {
    s2 := SetPc(s, u, Sh(s.threads[u].pc.h));
    RefuseIsStep(s, u);
    KeepsPc(s, u, Sh(s.threads[u].pc.h));
    StepPlaced(s, UpEnd(u));
    StepLeads(s, UpEnd(u), s2);
  }

  lemma Reads(s: State, u: Tid) returns (s2: State)
    requires Going(s) && u in s.threads && s.threads[u].pc.Up? && SVal(s) == 0
    requires 0 < s.threads[u].pc.cur <= MAX_REFCOUNT
    ensures Leads(s, s2) && Going(s2) && MovedOn(s, s2, u) && s2.threads[u].pc.Up? && s2.threads[u].pc.cur == 0
  {
    s2 := DoRead(s, u);
    StrongReadable(s, u);
    ReadIsStep(s, u);
    StepKeeps(s, UpFail(u, |s.strong| - 1));
    StepPlaced(s, UpFail(u, |s.strong| - 1));
    StepLeads(s, UpFail(u, |s.strong| - 1), s2);
  }

  lemma SettlesUp(s: State, u: Tid) returns (s2: State)
    requires Going(s) && u in s.threads && s.threads[u].pc.Up?
    requires s.threads[u].pc.cur == 0 || s.threads[u].pc.cur > MAX_REFCOUNT
    ensures Leads(s, s2) && Going(s2) && GaveBack(s, s2, u)
  {
    var s1 := Refuses(s, u);
    s2 := Gives(s1, u);
    LeadsOn(s, s1, s2);
    BackAfter(s, s1, s2, u);
  }

  /** Any borrower, whatever it is doing, can come to an end and give its handle back. */
  lemma Settles(s: State, u: Tid) returns (s2: State)
    requires Going(s) && u in s.threads && SVal(s) == 0
    requires s.threads[u].pc.Sh? || s.threads[u].pc.Ex? || s.threads[u].pc.Up?
    ensures Leads(s, s2) && Going(s2) && GaveBack(s, s2, u)
  {
    if !s.threads[u].pc.Up? {
      s2 := Gives(s, u);
    } else if s.threads[u].pc.cur == 0 || s.threads[u].pc.cur > MAX_REFCOUNT {
      s2 := SettlesUp(s, u);
    } else {
      var s1 := Reads(s, u);
      s2 := SettlesUp(s1, u);
      LeadsOn(s, s1, s2);
      BackAfter(s, s1, s2, u);
    }
  }

  // ----- Lifting, with the help of every thread -----

  /** While a handle owns the implicit weak reference, a thread other than its user and not about to abort is idle or
      borrows. */
  lemma OthersBorrow(s: State, u: Tid, h: Hid)
    requires Inv(s) && HasKind(s, h, Unique) && s.handles[h].excl != Some(u) && u in s.threads
    requires !s.threads[u].pc.AbortW?
    ensures var pc := s.threads[u].pc; pc.Idle? || pc.Sh? || pc.Ex? || pc.Up?
  {
    var pc := s.threads[u].pc;
    KindLive(s, h);
    WeakPositive(s, h);
    if SharedPc(pc) || ExclPc(pc) {
      assert UserOk(s, u);
      KindLive(s, pc.h);
      if s.handles[pc.h].kind.Unique? { OnlyUnique(s, pc.h, h); }
    }
  }

  lemma BackKeepsOwner(s: State, s2: State, u: Tid, h: Hid)
    requires GaveBack(s, s2, u) && HasKind(s, h, Unique) && !s.threads[u].pc.AbortW? && !s.threads[u].pc.AbortS?
    ensures HasKind(s2, h, Unique) && OverW(s2) == OverW(s)
    ensures Live(s2, Weak) == Live(s, Weak) && s2.threads.Keys == s.threads.Keys
  {
    OverSame(s, s2, u);
  }

  lemma TakenIsLifted(s: State, u: Tid, h: Hid)
    requires Going(s) && HasKind(s, h, Unique) && s.handles[h].excl.None? && s.handles[h].shared == {}
    requires u in s.threads && s.threads[u].pc.Idle?
    ensures MayBeLifted(s)
  {
    TakenLifts(s, u, h);
    LiftedAlone(s, u);
  }

  /** An owner that nobody uses is taken by whoever can settle. */
  lemma UnusedLifts(s: State, h: Hid)
    requires Going(s) && SVal(s) == 0 && HasKind(s, h, Unique) && s.handles[h].excl.None? && s.handles[h].shared == {}
    requires LiftableAt(s, h)
    ensures MayBeLifted(s)
  {
    assert OverW(s) <= s.threads.Keys;
    var u :| u in s.threads && u !in OverW(s);
    OthersBorrow(s, u, h);
    if s.threads[u].pc.Idle? {
      TakenIsLifted(s, u, h);
    } else {
      var s2 := Settles(s, u);
      BackKeepsOwner(s, s2, u, h);
      TakenIsLifted(s2, u, h);
      LiftedLater(s, s2);
    }
  }

  lemma BackIsLiftable(s: State, s2: State, u: Tid, h: Hid)
    requires GaveBack(s, s2, u) && HasKind(s, h, Unique) && s.handles[h].excl.None? && LiftableAt(s, h)
    requires u in s.handles[h].shared && !s.threads[u].pc.AbortW? && !s.threads[u].pc.AbortS?
    ensures s2.handles[h].excl.None? && s2.handles[h].shared < s.handles[h].shared && LiftableAt(s2, h)
  {
    BackKeepsOwner(s, s2, u, h);
  }

  /** Its borrowers give it back first. */
  lemma {:induction false} SharedLifts(s: State, h: Hid)
    requires Going(s) && SVal(s) == 0 && HasKind(s, h, Unique) && s.handles[h].excl.None? && LiftableAt(s, h)
    ensures MayBeLifted(s)
    decreases s.handles[h].shared
  {
    if s.handles[h].shared == {} {
      UnusedLifts(s, h);
    } else {
      var u :| u in s.handles[h].shared;
      assert HandleOk(s, h);
      OthersBorrow(s, u, h);
      var s2 := Settles(s, u);
      BackKeepsOwner(s, s2, u, h);
      BackIsLiftable(s, s2, u, h);
      SharedLifts(s2, h);
      LiftedLater(s, s2);
    }
  }

  // ----- Lifting past the Weak handles -----

  /** The threads, other than `t`, that are not idle. */
  function Busy(s: State, t: Tid): set<Tid> { set u | u in s.threads && u != t && !s.threads[u].pc.Idle? }

  /** Thread `t` has taken `strong` to 0 in `make_mut` and will look at `weak`; nobody is about to abort. */
  predicate Looking(s: State, t: Tid, h: Hid) {
    && HasKind(s, h, Unique) && s.handles[h].excl == Some(t) && t in s.threads && s.threads[t].pc == MM(h)
    && OverW(s) == {}
  }

  /** With every other thread idle, one of them takes a Weak handle and drops it. */
  lemma UnusedWeak(s: State, t: Tid, h: Hid, w: Hid)
    requires Usage(s) && Looking(s, t, h) && Busy(s, t) == {} && w in Live(s, Weak)
    ensures s.handles[w].excl.None? && s.handles[w].shared == {}
  {
    assert HandleOk(s, w);
    forall u <- s.threads | u != t ensures s.threads[u].pc.Idle? {
      assert u !in Busy(s, t);
    }
  }

  /** Thread `u` holds the Weak handle, and nothing else changed. */
  predicate WeakTaken(s: State, s2: State, u: Tid, w: Hid) {
    && OnlyThread(s, s2, u) && s2.threads[u].pc == Ex(w) && SVal(s2) == SVal(s) && WVal(s2) == WVal(s)
    && HasKind(s2, w, Weak) && s2.handles == s.handles[w := s2.handles[w]]
  }

  /** One Weak handle fewer, and nothing else changed. */
  predicate WeakLess(s: State, s2: State, u: Tid, w: Hid) {
    && OnlyThread(s, s2, u) && s2.threads[u].pc.Idle? && SVal(s2) == SVal(s)
    && w in s.handles && w in s2.handles && s2.handles == s.handles[w := s2.handles[w]] && !s2.handles[w].live
  }

  lemma TakeWeakIsStep(s: State, u: Tid, w: Hid)
    requires Tame(s) && !s.aborted && u in s.threads && s.threads[u].pc.Idle? && HasKind(s, w, Weak)
    requires s.handles[w].excl.None? && s.handles[w].shared == {}
    ensures var s2 := DoTakeEx(s, u, w);
      IsStep(s, TakeEx(u, w), s2) && Tame(s2) && !s2.aborted && WeakTaken(s, s2, u, w)
  {
    TameSame(s, DoTakeEx(s, u, w), u);
  }

  lemma DropWeakIsStep(s: State, u: Tid, w: Hid)
    requires Tame(s) && !s.aborted && u in s.threads && s.threads[u].pc == Ex(w) && HasKind(s, w, Weak) && WVal(s) > 1
    ensures var s2 := DoWeakSub(s, u);
      IsStep(s, WeakSub(u), s2) && Tame(s2) && !s2.aborted && WeakLess(s, s2, u, w)
  {
    TameSame(s, DoWeakSub(s, u), u);
  }

  lemma TakesWeak(s: State, u: Tid, w: Hid) returns (s2: State)
    requires Going(s) && u in s.threads && s.threads[u].pc.Idle? && HasKind(s, w, Weak)
    requires s.handles[w].excl.None? && s.handles[w].shared == {}
    ensures Leads(s, s2) && Going(s2) && WeakTaken(s, s2, u, w)
  {
    s2 := DoTakeEx(s, u, w);
    TakeWeakIsStep(s, u, w);
    KeepsTakeEx(s, u, w);
    StepPlaced(s, TakeEx(u, w));
    StepLeads(s, TakeEx(u, w), s2);
  }

  lemma DropsWeak(s: State, u: Tid, w: Hid) returns (s2: State)
    requires Going(s) && u in s.threads && s.threads[u].pc == Ex(w) && HasKind(s, w, Weak) && WVal(s) > 1
    ensures Leads(s, s2) && Going(s2) && WeakLess(s, s2, u, w)
  {
    s2 := DoWeakSub(s, u);
    DropWeakIsStep(s, u, w);
    StepKeeps(s, WeakSub(u));
    StepPlaced(s, WeakSub(u));
    StepLeads(s, WeakSub(u), s2);
  }

  lemma LessAfter(s: State, s1: State, s2: State, u: Tid, w: Hid)
    requires HasKind(s, w, Weak) && WeakTaken(s, s1, u, w) && WeakLess(s1, s2, u, w)
    ensures WeakLess(s, s2, u, w)
  {}

  lemma WeakGoes(s: State, u: Tid, w: Hid) returns (s2: State)
    requires Going(s) && u in s.threads && s.threads[u].pc.Idle? && HasKind(s, w, Weak) && WVal(s) > 1
    requires s.handles[w].excl.None? && s.handles[w].shared == {}
    ensures Leads(s, s2) && Going(s2) && WeakLess(s, s2, u, w)
  {
    var s1 := TakesWeak(s, u, w);
    s2 := DropsWeak(s1, u, w);
    LeadsOn(s, s1, s2);
    LessAfter(s, s1, s2, u, w);
  }

  lemma LessIsLooking(s: State, s2: State, t: Tid, h: Hid, u: Tid, w: Hid)
    requires Looking(s, t, h) && WeakLess(s, s2, u, w) && u != t && s.threads[u].pc.Idle? && w in Live(s, Weak)
    ensures Looking(s2, t, h) && Live(s2, Weak) == Live(s, Weak) - {w} && Busy(s2, t) == Busy(s, t)
  {
    OverSame(s, s2, u);
  }

  lemma BackIsLooking(s: State, s2: State, t: Tid, h: Hid, u: Tid)
    requires Looking(s, t, h) && GaveBack(s, s2, u) && u != t && u in Busy(s, t)
    requires !s.threads[u].pc.AbortW? && !s.threads[u].pc.AbortS?
    ensures Looking(s2, t, h) && Live(s2, Weak) == Live(s, Weak) && Busy(s2, t) == Busy(s, t) - {u}
  {
    BackKeepsOwner(s, s2, u, h);
  }

  lemma LooksAtWeaks(s: State, t: Tid, h: Hid)
    requires Inv(s) && Looking(s, t, h)
    ensures WVal(s) == |Live(s, Weak)| + 1
  {
    KindLive(s, h);
    NotLocked(s, h);
  }

  /** The other threads give everything back and drop the Weak handles one by one. */
  lemma {:induction false} LookingLifts(s: State, t: Tid, h: Hid, u: Tid)
    requires Going(s) && SVal(s) == 0 && Looking(s, t, h) && u in s.threads && u != t
    ensures MayBeLifted(s)
    decreases Live(s, Weak), Busy(s, t)
  {
    LooksAtWeaks(s, t, h);
    if Live(s, Weak) == {} {
      LoneLifts(s, t);
      LiftedAlone(s, t);
    } else if Busy(s, t) != {} {
      var b :| b in Busy(s, t);
      assert b !in OverW(s);
      OthersBorrow(s, b, h);
      var s2 := Settles(s, b);
      BackIsLooking(s, s2, t, h, b);
      LookingLifts(s2, t, h, u);
      LiftedLater(s, s2);
    } else {
      var w :| w in Live(s, Weak);
      UnusedWeak(s, t, h, w);
      assert u !in Busy(s, t);
      var s2 := WeakGoes(s, u, w);
      LessIsLooking(s, s2, t, h, u, w);
      LookingLifts(s2, t, h, u);
      LiftedLater(s, s2);
    }
  }

  lemma LiftableLifts(s: State, h: Hid)
    requires Going(s) && SVal(s) == 0 && HasKind(s, h, Unique) && LiftableAt(s, h)
    ensures MayBeLifted(s)
  {
    if s.handles[h].excl.None? {
      SharedLifts(s, h);
    } else {
      var t := s.handles[h].excl.value;
      assert HandleOk(s, h);
      if s.threads[t].pc.MM? && WVal(s) != 1 {
        var u :| u in s.threads && u != t;
        LookingLifts(s, t, h, u);
      } else {
        OwnerIsLive(s, t, h);
        UncommittedLifts(s, t, h);
        LiftedAlone(s, t);
      }
    }
  }

  lemma OwnerIsLive(s: State, t: Tid, h: Hid)
    requires Inv(s) && HasKind(s, h, Unique) && s.handles[h].excl == Some(t) && t in s.threads
    requires s.threads[t].pc.Ex? || s.threads[t].pc.MM? || s.threads[t].pc.MMR?
    ensures !s.data.Ended? && s.threads[t].pc.h == h
  {
    assert HandleOk(s, h);
    KindLive(s, h);
    assert s.data.Ended? ==> Leaving(s, h);
  }

  // ----- Never lifted -----

  /** The owner looks for Weak handles while another thread is about to abort with one. */
  predicate Held(s: State, t: Tid, v: Tid) {
    t in s.threads && s.threads[t].pc.MM? && v in s.threads && s.threads[v].pc.AbortW?
  }

  /** The owner finds Weak handles left, and there is no other thread. */
  predicate Single(s: State, t: Tid) {
    s.threads.Keys == {t} && s.threads[t].pc.MM? && WVal(s) != 1
  }

  /** A thread is about to abort while it borrows the owner. */
  predicate Pinned(s: State, v: Tid, h: Hid) {
    v in s.threads && s.threads[v].pc == AbortW(h) && HasKind(s, h, Unique)
  }

  /** Every thread is about to abort. */
  predicate Dead(s: State) { SVal(s) == 0 && forall t <- s.threads :: s.threads[t].pc.AbortW? }

  /** What no step of any thread leads out of. */
  ghost predicate Stuck(s: State) {
    || (exists t :: Dying(s, t)) || (exists t, v :: Held(s, t, v)) || (exists t :: Single(s, t))
    || (exists v, h :: Pinned(s, v, h)) || Dead(s)
  }

  lemma AbortOnly(s: State, a: Label)
    requires Enabled(s, a) && s.threads[a.t].pc.AbortW?
    ensures (a.Sync? || a.Abort?) && a.t in Apply(s, a).threads && Apply(s, a).threads[a.t].pc == s.threads[a.t].pc
    ensures Apply(s, a).strong == s.strong && Apply(s, a).handles == s.handles
  {}

  lemma AbortStays(s: State, a: Label, s2: State, v: Tid)
    requires IsStep(s, a, s2) && v in s.threads && s.threads[v].pc.AbortW?
    ensures v in s2.threads && s2.threads[v].pc == s.threads[v].pc
  {
    if a.t == v { AbortOnly(s, a); }
    StepHasShape(s, a, s2);
  }

  /** A thread about to abort keeps `weak` from being 1 while an owner lives. */
  lemma HeldIsNotOne(s: State, t: Tid, v: Tid)
    requires Inv(s) && Held(s, t, v)
    ensures WVal(s) != 1
  {
    assert UserOk(s, t);
    var h := s.threads[t].pc.h;
    KindLive(s, h);
    NotLocked(s, h);
    assert v in OverW(s);
    assert |OverW(s)| > 0;
  }

  lemma HeldStays(s: State, a: Label, s2: State, t: Tid, v: Tid)
    requires Inv(s) && IsStep(s, a, s2) && Held(s, t, v)
    ensures Held(s2, t, v) || Dying(s2, t)
  {
    HeldIsNotOne(s, t, v);
    AbortStays(s, a, s2, v);
    StepHasShape(s, a, s2);
    if a.t == t { StealCommits(s, a, s2); }
  }

  lemma SingleStays(s: State, a: Label, s2: State, t: Tid)
    requires Inv(s) && IsStep(s, a, s2) && Single(s, t)
    ensures Single(s2, t) || Dying(s2, t)
  {
    StepHasShape(s, a, s2);
    CommittedStays(s, a, s2);
  }

  /** The owner is that handle, and nobody has it exclusively. */
  lemma PinnedIsUnused(s: State, v: Tid, h: Hid)
    requires Inv(s) && Pinned(s, v, h)
    ensures s.handles[h].excl.None? && SVal(s) == 0
    ensures forall g <- s.handles :: HasKind(s, g, Unique) ==> g == h
  {
    KindLive(s, h);
    UniqueMeansZero(s, h);
    assert UserOk(s, v) && HandleOk(s, h);
    forall g <- s.handles ensures HasKind(s, g, Unique) ==> g == h {
      if HasKind(s, g, Unique) {
        KindLive(s, g);
        OnlyUnique(s, g, h);
      }
    }
  }

  lemma OwnerUser(s: State, a: Label)
    requires Inv(s) && Enabled(s, a)
    ensures a.Publish? || a.MMRestore? || (a.WeakSub? && s.threads[a.t].pc.WSub?) ==>
      HasKind(s, s.threads[a.t].pc.h, Unique) && s.handles[s.threads[a.t].pc.h].excl == Some(a.t)
    ensures a.WeakSub? && !s.threads[a.t].pc.WSub? ==> HasKind(s, s.threads[a.t].pc.h, Weak)
  {
    assert UserOk(s, a.t);
  }

  lemma PinnedKeepsKind(s: State, a: Label, v: Tid, h: Hid)
    requires Inv(s) && Enabled(s, a) && Pinned(s, v, h)
    ensures HasKind(Apply(s, a), h, Unique)
  {
    PinnedIsUnused(s, v, h);
    NoStrongStep(s, a);
    OwnerUser(s, a);
    if a.WeakSub? { ArcOwners.SubStays(s, a, h); } else { ArcOwners.StepStays(s, a, h); }
  }

  lemma PinnedStays(s: State, a: Label, s2: State, v: Tid, h: Hid)
    requires Inv(s) && IsStep(s, a, s2) && Pinned(s, v, h)
    ensures Pinned(s2, v, h)
  {
    AbortStays(s, a, s2, v);
    PinnedKeepsKind(s, a, v, h);
  }

  lemma DeadStays(s: State, a: Label, s2: State)
    requires IsStep(s, a, s2) && Dead(s)
    ensures Dead(s2)
  {
    AbortOnly(s, a);
    StepHasShape(s, a, s2);
  }

  lemma StuckStays(s: State, a: Label, s2: State)
    requires Inv(s) && IsStep(s, a, s2) && Stuck(s)
    ensures Stuck(s2)
  {
    if t :| Dying(s, t) {
      StepHasShape(s, a, s2);
      DyingStays(s, a, s2, t);
    } else if t, v :| Held(s, t, v) {
      HeldStays(s, a, s2, t, v);
    } else if t :| Single(s, t) {
      SingleStays(s, a, s2, t);
    } else if v, h :| Pinned(s, v, h) {
      PinnedStays(s, a, s2, v, h);
    } else {
      DeadStays(s, a, s2);
    }
  }

  lemma StuckIsZero(s: State)
    requires Inv(s) && Stuck(s)
    ensures SVal(s) == 0
  {
    if t :| Dying(s, t) {
      DyingIsZero(s, t);
    } else if t, v :| Held(s, t, v) {
      HeldIsNotOne(s, t, v);
      CommittedIsZero(s, t);
    } else if t :| Single(s, t) {
      CommittedIsZero(s, t);
    } else if v, h :| Pinned(s, v, h) {
      PinnedIsUnused(s, v, h);
    }
  }

  lemma StuckNext(states: seq<State>, labels: seq<Label>, s: State, s2: State, i: nat)
    requires Path(states, labels, s, s2) && Inv(s) && i < |labels| && Stuck(states[i])
    ensures Stuck(states[i + 1])
  {
    RunKeeps(states, labels, i);
    assert StepAt(states, labels, i);
    StuckStays(states[i], labels[i], states[i + 1]);
  }

  lemma {:induction false} StuckForEver(states: seq<State>, labels: seq<Label>, s: State, s2: State, i: nat)
    requires Path(states, labels, s, s2) && Inv(s) && Stuck(s) && i < |states|
    ensures Stuck(states[i])
  {
    if i > 0 {
      StuckForEver(states, labels, s, s2, i - 1);
      StuckNext(states, labels, s, s2, i - 1);
    }
  }

  lemma StuckNeverLifts(s: State)
    requires Inv(s) && Stuck(s)
    ensures !MayBeLifted(s)
  {
    if s2 :| Leads(s, s2) && SVal(s2) > 0 {
      var states, labels :| Path(states, labels, s, s2);
      StuckForEver(states, labels, s, s2, |labels|);
      RunKeeps(states, labels, |labels|);
      StuckIsZero(s2);
      assert false;
    }
  }

  lemma UserStuck(s: State, t: Tid, h: Hid)
    requires Inv(s) && HasKind(s, h, Unique) && s.handles[h].excl == Some(t) && !LiftableAt(s, h)
    ensures Stuck(s)
  {
    assert HandleOk(s, h) && UserOk(s, t) && DataPc(s, t);
    var pc := s.threads[t].pc;
    if pc.MM? {
      if v :| v in OverW(s) {
        assert Held(s, t, v);
      } else {
        assert Single(s, t);
      }
    } else {
      assert Dying(s, t);
    }
  }

  lemma UnusedStuck(s: State, h: Hid)
    requires Inv(s) && SVal(s) == 0 && HasKind(s, h, Unique) && s.handles[h].excl.None? && !LiftableAt(s, h)
    ensures Stuck(s)
  {
    assert HandleOk(s, h);
    if v :| v in s.handles[h].shared && v in OverW(s) {
      assert Pinned(s, v, h);
    } else {
      assert s.threads.Keys == OverW(s);
      assert Dead(s);
    }
  }

  lemma NotLiftableIsStuck(s: State, h: Hid)
    requires Inv(s) && SVal(s) == 0 && HasKind(s, h, Unique) && !LiftableAt(s, h)
    ensures Stuck(s)
  {
    if s.handles[h].excl.Some? { UserStuck(s, s.handles[h].excl.value, h); } else { UnusedStuck(s, h); }
  }

  // ----- Exactly -----

  lemma EndedIsNotLiftable(s: State)
    requires Inv(s) && s.data.Ended?
    ensures !Liftable(s) && Stuck(s)
  {
    assert Dying(s, 0);
    forall h <- s.handles ensures !(HasKind(s, h, Unique) && LiftableAt(s, h)) {
      if HasKind(s, h, Unique) {
        KindLive(s, h);
        assert Leaving(s, h);
      }
    }
  }

  lemma OwnedExactly(s: State, h: Hid)
    requires Going(s) && SVal(s) == 0 && Live(s, Unique) == {h}
    ensures MayBeLifted(s) <==> Liftable(s)
  {
    assert h in Live(s, Unique);
    forall g <- s.handles ensures HasKind(s, g, Unique) ==> g == h {
      if HasKind(s, g, Unique) { KindLive(s, g); }
    }
    if LiftableAt(s, h) {
      LiftableLifts(s, h);
    } else {
      NotLiftableIsStuck(s, h);
      StuckNeverLifts(s);
    }
  }

  /** In every reachable state in which the strong count is 0, some run of any threads lifts it if and only if the
      condition holds. */
  lemma ZeroIsPermanentExactly(states: seq<State>, labels: seq<Label>, origin: Origin, v: int, tids: set<Tid>, i: nat)
    requires RunFrom(states, labels, origin, v, tids) && i < |states| && !states[i].aborted && SVal(states[i]) == 0
    ensures MayBeLifted(states[i]) <==> Liftable(states[i])
  {
    var s := states[i];
    Reachable(states, labels, origin, v, tids, i);
    PlacedAt(states, labels, origin, v, tids, i);
    ZeroHasOwner(states, labels, origin, v, tids, i);
    if s.data.Ended? {
      EndedIsNotLiftable(s);
      StuckNeverLifts(s);
    } else {
      var h :| Live(s, Unique) == {h};
      OwnedExactly(s, h);
    }
  }

  // ----- The same with two threads and nobody about to abort -----

  lemma DyingIsNotLiftable(s: State, t: Tid)
    requires Inv(s) && Dying(s, t)
    ensures !Liftable(s)
  {
    if s.data.Ended? {
      EndedIsNotLiftable(s);
    } else {
      assert UserOk(s, t);
      var g := s.threads[t].pc.h;
      KindLive(s, g);
      forall h <- s.handles ensures HasKind(s, h, Unique) ==> h == g {
        if HasKind(s, h, Unique) {
          KindLive(s, h);
          OnlyUnique(s, h, g);
        }
      }
    }
  }

  lemma CalmIsLiftable(s: State, h: Hid)
    requires Inv(s) && HasKind(s, h, Unique) && OverW(s) == {} && |s.threads.Keys| > 1
    requires forall t :: !Dying(s, t)
    ensures Liftable(s)
  {
    assert HandleOk(s, h) && !Dying(s, 0);
    if s.handles[h].excl.Some? {
      var t := s.handles[h].excl.value;
      assert UserOk(s, t) && DataPc(s, t) && !Dying(s, t);
      assert s.threads.Keys != {t};
    }
    assert LiftableAt(s, h);
  }

  /** With two threads or more, none of them about to abort, a count of 0 is permanent if and only if the data has
      ended or its last owner is past the point of no return. */
  lemma ZeroIsPermanentIfDying(states: seq<State>, labels: seq<Label>, origin: Origin, v: int, tids: set<Tid>, i: nat)
    requires RunFrom(states, labels, origin, v, tids) && i < |states| && !states[i].aborted && SVal(states[i]) == 0
    requires |states[i].threads.Keys| > 1 && OverW(states[i]) == {}
    ensures !MayBeLifted(states[i]) <==> exists t :: Dying(states[i], t)
  {
    var s := states[i];
    Reachable(states, labels, origin, v, tids, i);
    ZeroIsPermanentExactly(states, labels, origin, v, tids, i);
    ZeroHasOwner(states, labels, origin, v, tids, i);
    if t :| Dying(s, t) {
      DyingIsNotLiftable(s, t);
    } else {
      assert !Dying(s, 0);
      var h :| Live(s, Unique) == {h};
      assert h in Live(s, Unique);
      CalmIsLiftable(s, h);
    }
  }
}

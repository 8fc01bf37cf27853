/** Every call of an `Arc` method by a thread alone, whose loads read the last value written, does to its block what
  * the `Rc` method of the same name does, and gives the same answer, as long as no counter is over `Arc`'s limit. */
module ArcRcAgree {
  import opened Basics
  import opened ArcMachine
  import opened ArcAlone
  import opened ArcCalls
  import ArcUnique
  import R = RcMachine
  import RcRuns
  import RcTheorems

  /** An `Arc` block read as an `Rc` block with a value that owns nothing. */
  function Abs(c: Look): R.Block {
    R.Block(c.strong, c.weak, match c.data
      case Uninit => R.Uninit
      case Init(v) => R.Init(R.Value(v, [], []))
      case Ended => if c.ended != [] && c.ended[|c.ended| - 1].how.DropIt? then R.Dead else R.Moved,
      c.frees > 0)
  }

  /** The `Rc` heap holds the same block at `a`, and is running. */
  ghost predicate Same(c: Look, r: R.State, a: R.Addr) {
    a < |r.blocks| && r.blocks[a] == Abs(c) && r.status.Running?
  }

  /** Every other block is as it was. */
  ghost predicate Elsewhere(r: R.State, r2: R.State, a: R.Addr) {
    |r2.blocks| == |r.blocks| && forall b :: 0 <= b < |r.blocks| && b != a ==> r2.blocks[b] == r.blocks[b]
  }

  /** One block more, which holds `v`; but for it and block `a`, every block is as it was. */
  ghost predicate NewValue(r: R.State, r2: R.State, a: R.Addr, v: int) {
    && |r2.blocks| == |r.blocks| + 1 && r2.blocks[|r.blocks|].slot == R.Init(R.Value(v, [], []))
    && forall b :: 0 <= b < |r.blocks| && b != a ==> r2.blocks[b] == r.blocks[b]
  }

  /** A call by thread `t` alone of a method of handle `h`, from a state in which the block looks like `c` and like
    * block `a` of the `Rc` heap. */
  ghost predicate Called(call: Call, s: State, t: Tid, h: Hid, c: Look, r: R.State, a: R.Addr,
                         l: seq<Label>, s2: State) {
    && AtStart(call, s, t, h, c) && ArcCalls.Ready(call, c) && Alive(c) && Same(c, r, a)
    && Lone(call, s, t, l, s2) && ArcCalls.Fresh(s, l)
  }

  // ----- The `Rc` side -----

  lemma WeakGoneAgrees(c: Look, r: R.State, a: R.Addr)
    requires Same(c, r, a) && Alive(c)
    ensures Same(WeakGone(c), R.DropWeak(r, a), a) && Elsewhere(r, R.DropWeak(r, a), a)
  {
  }

  /** The last drop of a value that owns nothing. */
  lemma {:induction false} RcLastDrop(c: Look, r: R.State, a: R.Addr)
    requires Same(c, r, a) && Alive(c) && c.strong == 1 && c.data.Init?
    ensures Same(Finished(c, DropIt), RcRuns.RunTo(R.DropStrong(r, a), |r.stack|), a)
    ensures Elsewhere(r, RcRuns.RunTo(R.DropStrong(r, a), |r.stack|), a)
  {
    var x := R.DropStrong(r, a);
    var m := x.(stack := r.stack);
    assert x.stack == [R.Let(R.Implicit(a))] + r.stack;
    assert RcRuns.Pushed(m, R.Let(R.Implicit(a))) == x;
    RcRuns.PushedRuns(m, R.Let(R.Implicit(a)));
    assert Same(ValueGone(c, DropIt), m, a);
    WeakGoneAgrees(ValueGone(c, DropIt), m, a);
  }

  /** Moving the value out. */
  lemma {:induction false} RcMovesOut(c: Look, r: R.State, a: R.Addr, f: Finish)
    requires Same(c, r, a) && Alive(c) && c.strong == 1 && c.data.Init? && !f.DropIt?
    ensures Same(Finished(c, f), RcRuns.RunTo(R.Unwrap(r, a), |r.stack|), a)
    ensures Elsewhere(r, RcRuns.RunTo(R.Unwrap(r, a), |r.stack|), a)
  {
    var x := R.Unwrap(r, a);
    var m := x.(stack := r.stack);
    assert RcRuns.Pushed(m, R.Let(R.Implicit(a))) == x;
    RcRuns.PushedRuns(m, R.Let(R.Implicit(a)));
    assert Same(ValueGone(c, f), m, a);
    WeakGoneAgrees(ValueGone(c, f), m, a);
  }

  lemma {:induction false} RcGivesUp(c: Look, r: R.State, a: R.Addr)
    requires Same(c, r, a) && Alive(c) && c.strong > 1 && c.data.Init? && R.Strong(a) in r.roots
    ensures var r2 := RcRuns.RunTo(R.DoIntoInner(r, a), |r.stack|);
      Same(c.(strong := c.strong - 1), r2, a) && Elsewhere(r, r2, a)
  {
    var m := R.Lose(r, R.Strong(a));
    assert RcRuns.Pushed(m, R.Let(R.Strong(a))) == R.DoIntoInner(r, a);
    RcRuns.PushedRuns(m, R.Let(R.Strong(a)));
    RcTheorems.DropExec(m, a);
  }

  lemma {:induction false} RcMakeMut(c: Look, r: R.State, a: R.Addr)
    requires Same(c, r, a) && Alive(c) && c.strong > 0 && c.data.Init? && R.Strong(a) in r.roots
    ensures var x := R.DoMakeMut(r, a, [], []);
      && a < |x.blocks| && x.status.Running?
      && (if R.Lone(r.blocks[a]) then x == r else NewValue(r, x, a, c.data.v))
      && (c.strong > 1 ==> x.blocks[a] == r.blocks[a] && x.stack == [R.Let(R.Strong(a))] + r.stack)
      && (c.strong == 1 ==> x.stack == r.stack)
      && (c.strong == 1 && c.weak > 1 ==> x.blocks[a] == R.Block(0, c.weak - 1, R.Moved, false))
  {
  }

  lemma {:induction false} RcInPlace(c: Look, r: R.State, a: R.Addr)
    requires Same(c, r, a) && Alive(c) && c.strong == 1 && c.weak == 1 && c.data.Init? && R.Strong(a) in r.roots
    ensures RcRuns.RunTo(R.DoMakeMut(r, a, [], []), |r.stack|) == r
  {
    RcMakeMut(c, r, a);
  }

  lemma {:induction false} RcCopies(c: Look, r: R.State, a: R.Addr)
    requires Same(c, r, a) && Alive(c) && c.strong > 1 && c.data.Init? && R.Strong(a) in r.roots
    ensures var r2 := RcRuns.RunTo(R.DoMakeMut(r, a, [], []), |r.stack|);
      Same(c.(strong := c.strong - 1), r2, a) && NewValue(r, r2, a, c.data.v)
  {
    RcMakeMut(c, r, a);
    var x := R.DoMakeMut(r, a, [], []);
    var m := x.(stack := r.stack);
    assert RcRuns.Pushed(m, R.Let(R.Strong(a))) == x;
    RcRuns.PushedRuns(m, R.Let(R.Strong(a)));
    RcTheorems.DropExec(m, a);
  }

  lemma {:induction false} RcSteals(c: Look, r: R.State, a: R.Addr)
    requires Same(c, r, a) && Alive(c) && c.strong == 1 && c.weak > 1 && c.data.Init? && R.Strong(a) in r.roots
    ensures var r2 := RcRuns.RunTo(R.DoMakeMut(r, a, [], []), |r.stack|);
      Same(Finished(c, Steal), r2, a) && NewValue(r, r2, a, c.data.v)
  {
    RcMakeMut(c, r, a);
  }

  // ----- clone, downgrade, upgrade -----

  lemma Ends(call: Call, s: State, t: Tid, h: Hid, c: Look, r: R.State, a: R.Addr, l: seq<Label>, s2: State)
    requires Called(call, s, t, h, c, r, a, l, s2)
    ensures On(s2, t, EndPc(call, h, c), h, EndKind(call, c), EndLook(call, c)) && Seen(s2) == EndLook(call, c)
  {
    CallReturns(call, s, t, h, c, l, s2);
  }

  lemma {:induction false} CloneAgrees(s: State, t: Tid, h: Hid, c: Look, r: R.State, a: R.Addr,
                                       l: seq<Label>, s2: State)
    requires Called(CloneCall, s, t, h, c, r, a, l, s2) && 0 < c.strong
    ensures On(s2, t, Sh(h), h, Strong, Seen(s2))
    ensures Same(Seen(s2), R.IncStrong(r, a), a) && Elsewhere(r, R.IncStrong(r, a), a)
  {
    Ends(CloneCall, s, t, h, c, r, a, l, s2);
  }

  lemma {:induction false} DowngradeAgrees(s: State, t: Tid, h: Hid, c: Look, r: R.State, a: R.Addr,
                                           l: seq<Label>, s2: State)
    requires Called(DowngradeCall, s, t, h, c, r, a, l, s2)
    ensures On(s2, t, Sh(h), h, Strong, Seen(s2))
    ensures Same(Seen(s2), R.IncWeak(r, a), a) && Elsewhere(r, R.IncWeak(r, a), a)
  {
    Ends(DowngradeCall, s, t, h, c, r, a, l, s2);
  }

  lemma {:induction false} LastOfUpgrade(s: State, t: Tid, h: Hid, c: Look, l: seq<Label>, s2: State)
    requires ArcCalls.Ready(UpgradeCall, c) && AtMid(UpgradeCall, s, t, h, c)
    requires Going(s, t, l, s2) && ArcCalls.Fresh(s, l)
    ensures l != [] && (l[|l| - 1].UpCas? <==> c.strong > 0) && (l[|l| - 1].UpEnd? <==> c.strong == 0)
    decreases |l|
  {
    MidIsBusy(UpgradeCall, s, t, h, c);
    var s1 := Apply(s, l[0]);
    MidStep(UpgradeCall, s, t, h, c, l[0]);
    if AtMid(UpgradeCall, s1, t, h, c) {
      LastOfUpgrade(s1, t, h, c, l[1..], s2);
    } else {
      EndIsResting(UpgradeCall, s1, t, h, c);
      LastStep(s, t, h, c, l[0]);
    }
  }

  lemma LastStep(s: State, t: Tid, h: Hid, c: Look, a: Label)
    requires ArcCalls.Ready(UpgradeCall, c) && AtMid(UpgradeCall, s, t, h, c) && Enabled(s, a) && a.t == t
    requires Newest(s, a) && !AtMid(UpgradeCall, Apply(s, a), t, h, c)
    ensures if c.strong > 0 then a.UpCas? else a.UpEnd?
  {
    if a.Sync? {
      SyncStays(s, a, t, s.threads[t].pc, h, Weak, c);
      IsMid(UpgradeCall, Apply(s, a), t, h, c, s.threads[t].pc, Weak, c);
    } else {
      NextBorrow(s, a);
      if a.UpFail? {
        UpRetries(s, t, h, c);
        IsMid(UpgradeCall, Apply(s, a), t, h, c, Up(h, c.strong), Weak, c);
      }
    }
  }

  lemma UpgradeBegins(s: State, t: Tid, h: Hid, c: Look, a: Label)
    requires AtStart(UpgradeCall, s, t, h, c) && Entry(UpgradeCall, a) && Enabled(s, a) && a.t == t && Newest(s, a)
    ensures AtMid(UpgradeCall, Apply(s, a), t, h, c)
  {
    UpLoads(s, t, h, c);
    IsMid(UpgradeCall, Apply(s, a), t, h, c, Up(h, c.strong), Weak, c);
  }

  /** `upgrade` gives `Some` under the same condition, and then counts one more. */
  lemma {:induction false} UpgradeAgrees(s: State, t: Tid, h: Hid, c: Look, r: R.State, a: R.Addr,
                                         l: seq<Label>, s2: State)
    requires Called(UpgradeCall, s, t, h, c, r, a, l, s2)
    ensures l[|l| - 1].UpCas? <==> R.Upgrades(r, R.WeakTo(a))
    ensures l[|l| - 1].UpEnd? <==> !R.Upgrades(r, R.WeakTo(a))
    ensures On(s2, t, Sh(h), h, Weak, Seen(s2))
    ensures Same(Seen(s2), if R.Upgrades(r, R.WeakTo(a)) then R.IncStrong(r, a) else r, a)
  {
    Ends(UpgradeCall, s, t, h, c, r, a, l, s2);
    UpgradeBegins(s, t, h, c, l[0]);
    LastOfUpgrade(Apply(s, l[0]), t, h, c, l[1..], s2);
  }

  lemma {:induction false} WeakCloneAgrees(kind: Kind, s: State, t: Tid, h: Hid, c: Look, r: R.State, a: R.Addr,
                                           l: seq<Label>, s2: State)
    requires Called(WeakCloneCall(kind), s, t, h, c, r, a, l, s2)
    ensures On(s2, t, Sh(h), h, kind, Seen(s2))
    ensures Same(Seen(s2), R.IncWeak(r, a), a) && Elsewhere(r, R.IncWeak(r, a), a)
  {
    Ends(WeakCloneCall(kind), s, t, h, c, r, a, l, s2);
  }

  /** `into_arc` publishes the same block as `into_rc`. */
  lemma {:induction false} IntoArcAgrees(s: State, t: Tid, h: Hid, c: Look, r: R.State, a: R.Addr,
                                         l: seq<Label>, s2: State)
    requires Called(PublishCall, s, t, h, c, r, a, l, s2) && R.Unique(a) in r.roots
    ensures On(s2, t, Ex(h), h, Strong, Seen(s2))
    ensures Same(Seen(s2), R.DoIntoRc(r, a), a) && Elsewhere(r, R.DoIntoRc(r, a), a)
  {
    Ends(PublishCall, s, t, h, c, r, a, l, s2);
  }

  // ----- drops -----

  lemma {:induction false} RcUniqueDrop(c: Look, r: R.State, a: R.Addr)
    requires Same(c, r, a) && Alive(c) && c.strong == 0 && c.data.Init?
    ensures Same(Finished(c, DropIt), RcRuns.RunTo(R.DropSlow(r, a), |r.stack|), a)
    ensures Elsewhere(r, RcRuns.RunTo(R.DropSlow(r, a), |r.stack|), a)
  {
    var x := R.DropSlow(r, a);
    var m := x.(stack := r.stack);
    assert x.stack == [R.Let(R.Implicit(a))] + r.stack;
    assert RcRuns.Pushed(m, R.Let(R.Implicit(a))) == x;
    RcRuns.PushedRuns(m, R.Let(R.Implicit(a)));
    assert Same(ValueGone(c, DropIt), m, a);
    WeakGoneAgrees(ValueGone(c, DropIt), m, a);
  }

  lemma {:induction false} UniqueDropAgrees(s: State, t: Tid, h: Hid, c: Look, r: R.State, a: R.Addr,
                                            l: seq<Label>, s2: State)
    requires Called(UniqueDropCall, s, t, h, c, r, a, l, s2)
    ensures On(s2, t, Idle, h, Unique, Seen(s2))
    ensures Same(Seen(s2), RcRuns.RunTo(R.DropSlow(r, a), |r.stack|), a)
    ensures Elsewhere(r, RcRuns.RunTo(R.DropSlow(r, a), |r.stack|), a)
  {
    Ends(UniqueDropCall, s, t, h, c, r, a, l, s2);
    RcUniqueDrop(c, r, a);
  }

  lemma {:induction false} WeakDropAgrees(s: State, t: Tid, h: Hid, c: Look, r: R.State, a: R.Addr,
                                          l: seq<Label>, s2: State)
    requires Called(WeakDropCall, s, t, h, c, r, a, l, s2)
    ensures On(s2, t, Idle, h, Weak, Seen(s2))
    ensures Same(Seen(s2), R.DropWeak(r, a), a) && Elsewhere(r, R.DropWeak(r, a), a)
  {
    Ends(WeakDropCall, s, t, h, c, r, a, l, s2);
    WeakGoneAgrees(c, r, a);
  }

  lemma {:induction false} DropAgrees(s: State, t: Tid, h: Hid, c: Look, r: R.State, a: R.Addr,
                                      l: seq<Label>, s2: State)
    requires Called(ReleaseCall(DropIt), s, t, h, c, r, a, l, s2)
    ensures On(s2, t, Idle, h, if c.strong > 1 then Strong else Unique, Seen(s2))
    ensures Same(Seen(s2), RcRuns.RunTo(R.DropStrong(r, a), |r.stack|), a)
    ensures Elsewhere(r, RcRuns.RunTo(R.DropStrong(r, a), |r.stack|), a)
  {
    Ends(ReleaseCall(DropIt), s, t, h, c, r, a, l, s2);
    if c.strong == 1 { RcLastDrop(c, r, a); }
  }

  /** `into_inner` gives the value in the same case, the last handle's, and drops the handle in the other. */
  lemma {:induction false} IntoInnerAgrees(s: State, t: Tid, h: Hid, c: Look, r: R.State, a: R.Addr,
                                           l: seq<Label>, s2: State)
    requires Called(ReleaseCall(IntoInner), s, t, h, c, r, a, l, s2) && R.Strong(a) in r.roots
    ensures On(s2, t, Idle, h, if c.strong > 1 then Strong else Unique, Seen(s2))
    ensures s2.ended ==
      if r.blocks[a].strong == 1 then c.ended + [End(IntoInner, r.blocks[a].slot.v.payload)] else c.ended
    ensures Same(Seen(s2), RcRuns.RunTo(R.DoIntoInner(r, a), |r.stack|), a)
    ensures Elsewhere(r, RcRuns.RunTo(R.DoIntoInner(r, a), |r.stack|), a)
  {
    Ends(ReleaseCall(IntoInner), s, t, h, c, r, a, l, s2);
    if c.strong == 1 { RcMovesOut(c, r, a, IntoInner); } else { RcGivesUp(c, r, a); }
  }

  /** `try_unwrap`: the value in the same case, otherwise the handle back and nothing changed. */
  lemma {:induction false} TryUnwrapAgrees(s: State, t: Tid, h: Hid, c: Look, r: R.State, a: R.Addr,
                                           l: seq<Label>, s2: State)
    requires Called(UnwrapCall, s, t, h, c, r, a, l, s2) && R.Strong(a) in r.roots
    ensures if r.blocks[a].strong == 1 then
        On(s2, t, Idle, h, Unique, Seen(s2)) && s2.ended == c.ended + [End(TryUnwrap, r.blocks[a].slot.v.payload)]
      else
        On(s2, t, Ex(h), h, Strong, c)
    ensures Same(Seen(s2), RcRuns.RunTo(R.DoTryUnwrap(r, a), |r.stack|), a)
    ensures Elsewhere(r, RcRuns.RunTo(R.DoTryUnwrap(r, a), |r.stack|), a)
  {
    Ends(UnwrapCall, s, t, h, c, r, a, l, s2);
    if c.strong == 1 { RcMovesOut(c, r, a, TryUnwrap); }
  }

  // ----- is_unique, get_mut, make_mut -----

  /** `is_unique` says the same, and leaves everything as it was. */
  lemma {:induction false} IsUniqueAgrees(s: State, t: Tid, h: Hid, c: Look, r: R.State, a: R.Addr,
                                          l: seq<Label>, s2: State)
    requires Called(IsUniqueCall, s, t, h, c, r, a, l, s2)
    ensures ArcUnique.SaysYes(s, t, l) <==> R.Lone(r.blocks[a])
    ensures On(s2, t, Sh(h), h, Strong, c)
  {
    ArcUnique.IsUniqueAnswers(s, t, h, c, l, s2);
  }

  /** `get_mut` hands out the reference in the same case, and leaves the counters as they were. */
  lemma {:induction false} GetMutAgrees(s: State, t: Tid, h: Hid, c: Look, r: R.State, a: R.Addr,
                                        l: seq<Label>, s2: State)
    requires Called(GetMutCall, s, t, h, c, r, a, l, s2)
    ensures On(s2, t, if R.Lone(r.blocks[a]) then Mut(h) else Ex(h), h, Strong, c)
  {
    Ends(GetMutCall, s, t, h, c, r, a, l, s2);
  }

  /** `make_mut` takes the same branch: a copy, with one strong handle less on the old block; the value moved
    * and the old block left to its `Weak`s; or the block itself. */
  lemma {:induction false} MakeMutAgrees(s: State, t: Tid, h: Hid, c: Look, r: R.State, a: R.Addr,
                                         l: seq<Label>, s2: State)
    requires Called(MakeMutCall, s, t, h, c, r, a, l, s2) && R.Strong(a) in r.roots
    ensures On(s2, t, if R.Lone(r.blocks[a]) then Mut(h) else Idle, h,
      if c.strong == 1 && c.weak > 1 then Unique else Strong, Seen(s2))
    ensures var r2 := RcRuns.RunTo(R.DoMakeMut(r, a, [], []), |r.stack|);
      Same(Seen(s2), r2, a) && if R.Lone(r.blocks[a]) then r2 == r else NewValue(r, r2, a, c.data.v)
  {
    Ends(MakeMutCall, s, t, h, c, r, a, l, s2);
    if c.strong > 1 {
      RcCopies(c, r, a);
    } else if c.weak == 1 {
      RcInPlace(c, r, a);
    } else {
      RcSteals(c, r, a);
    }
  }
}

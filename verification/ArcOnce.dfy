/** `into_inner` against `try_unwrap`, and the value through `make_mut`. */
module ArcOnce {
  import opened ArcMachine
  import opened ArcInvariant
  import opened ArcFrames
  import opened ArcTurns
  import opened ArcSteps
  import opened ArcTheorems

  // ----- into_inner -----

  /** No owner of the value gives it up except by `into_inner`: not by a drop, a `try_unwrap` that succeeds, or a
      `make_mut` that leaves the block to its Weak handles. */
  predicate OnlyIntoInner(s: State, a: Label) {
    && !(a.StrongSub? && !a.f.IntoInner?) && !a.UnwrapCas? && !a.UniqueDrop?
    && (a.MMLoad? && a.i < |s.weak| ==> s.weak[a.i].val == 1)
  }

  predicate IntoPc(pc: Pc) { pc.Zero? || pc.Own? ==> pc.f.IntoInner? }

  ghost predicate IntoState(s: State) {
    && (forall t <- s.threads :: IntoPc(s.threads[t].pc))
    && (forall e <- s.ended :: e.how.IntoInner?)
  }

  lemma OnlyLooks(s: State, a: Label)
    requires Enabled(s, a) && s.threads[a.t].pc.MM?
    ensures a.Sync? || (a.MMLoad? && a.i < |s.weak|)
  {}

  lemma LooksAndStays(s: State, a: Label)
    requires Enabled(s, a) && s.threads[a.t].pc.MM? && (a.Sync? || (a.MMLoad? && s.weak[a.i].val == 1))
    ensures a.t in Apply(s, a).threads && !Apply(s, a).threads[a.t].pc.Own?
  {}

  lemma StealsAfterLoad(s: State, a: Label, s2: State)
    requires IsStep(s, a, s2) && s.threads[a.t].pc.MM? && a.t in s2.threads && s2.threads[a.t].pc.Own?
    ensures a.MMLoad? && a.i < |s.weak| && s.weak[a.i].val != 1
  {
    OnlyLooks(s, a);
    if a.Sync? || s.weak[a.i].val == 1 { LooksAndStays(s, a); }
  }

  lemma IntoStep(s: State, a: Label, s2: State)
    requires StepShape(s, a, s2) && IntoState(s) && OnlyIntoInner(s, a)
    requires s.threads[a.t].pc.MM? ==> !s2.threads[a.t].pc.Own?
    ensures IntoState(s2)
  {
    assert IntoPc(s.threads[a.t].pc);
  }

  lemma IntoNext(states: seq<State>, labels: seq<Label>, i: nat)
    requires i < |labels| < |states| && StepAt(states, labels, i)
    requires IntoState(states[i]) && OnlyIntoInner(states[i], labels[i])
    ensures IntoState(states[i + 1])
  {
    var s, a, s2 := states[i], labels[i], states[i + 1];
    StepHasShape(s, a, s2);
    if s.threads[a.t].pc.MM? && s2.threads[a.t].pc.Own? { StealsAfterLoad(s, a, s2); }
    IntoStep(s, a, s2);
  }

  lemma {:induction false} IntoRun(states: seq<State>, labels: seq<Label>, origin: Origin, v: int, tids: set<Tid>,
                                   i: nat)
    requires RunFrom(states, labels, origin, v, tids) && i < |states|
    requires forall k :: 0 <= k < |labels| ==> OnlyIntoInner(states[k], labels[k])
    ensures IntoState(states[i])
  {
    if i > 0 {
      IntoRun(states, labels, origin, v, tids, i - 1);
      assert StepAt(states, labels, i - 1);
      IntoNext(states, labels, i - 1);
    }
  }

  /** The step that ended the data took what the block held then. */
  predicate EndedAt(states: seq<State>, labels: seq<Label>, k: nat, end: End) {
    && k < |labels| && k < |states| && labels[k].EndData? && states[k].data == Init(end.v)
  }

  lemma EndedStep(s: State, a: Label, s2: State)
    requires Inv(s) && IsStep(s, a, s2) && |s2.ended| == 1 && s.ended != s2.ended
    ensures a.EndData? && s.data == Init(s2.ended[0].v)
  {
    StepHasShape(s, a, s2);
    if a.EndData? { EndIsSafe(s, a.t); }
  }

  lemma {:induction false} EndedBy(states: seq<State>, labels: seq<Label>, origin: Origin, v: int, tids: set<Tid>,
                                   i: nat) returns (k: nat)
    requires RunFrom(states, labels, origin, v, tids) && i < |states| && |states[i].ended| == 1
    ensures EndedAt(states, labels, k, states[i].ended[0])
  {
    if i > 0 {
      if states[i].ended == states[i - 1].ended {
        k := EndedBy(states, labels, origin, v, tids, i - 1);
      } else {
        k := i - 1;
        Reachable(states, labels, origin, v, tids, k);
        assert StepAt(states, labels, k);
        EndedStep(states[k], labels[k], states[i]);
      }
    }
  }

  /** If only `into_inner` makes an owner give the value up, exactly one call of the whole run moves it out, as
      the block held it then, and it is never dropped in place. */
  lemma IntoInnerExactlyOnce(states: seq<State>, labels: seq<Label>, origin: Origin, v: int, tids: set<Tid>)
    requires RunFrom(states, labels, origin, v, tids) && Quiet(states[|labels|])
    requires forall k :: 0 <= k < |labels| ==> OnlyIntoInner(states[k], labels[k])
    ensures |states[|labels|].ended| == 1 && states[|labels|].ended[0].how.IntoInner?
    ensures exists k :: EndedAt(states, labels, k, states[|labels|].ended[0])
  {
    QuietMeansReclaimed(states, labels, origin, v, tids, |labels|);
    IntoRun(states, labels, origin, v, tids, |labels|);
    assert states[|labels|].ended[0] in states[|labels|].ended;
    var k := EndedBy(states, labels, origin, v, tids, |labels|);
  }

  // ----- make_mut -----

  predicate Making(pc: Pc) { pc.MM? || pc.MMR? || (pc.Own? && pc.f.Steal?) }

  /** Nobody else touches the value while `make_mut` has the strong count at 0. */
  lemma MakingAlone(s: State, a: Label, s2: State, t: Tid)
    requires Inv(s) && StepShape(s, a, s2) && t in s.threads && Making(s.threads[t].pc) && a.t != t
    ensures s2.data == s.data && s2.ended == s.ended && s2.threads[t] == s.threads[t]
  {
    assert UserOk(s, t);
    KindLive(s, s.threads[t].pc.h);
    if a.EndData? { EndOthers(s, t, a.t); }
    if a.WriteData? { NoOtherWriter(s, t, a.t); }
  }

  lemma NoOtherWriter(s: State, t: Tid, u: Tid)
    requires Inv(s) && t in s.threads && u in s.threads && u != t && Making(s.threads[t].pc)
    ensures !(s.threads[u].pc.Mut? || ExOf(s, s.threads[u].pc, Unique))
  {
    assert UserOk(s, t) && UserOk(s, u);
    if s.threads[u].pc.Mut? || ExOf(s, s.threads[u].pc, Unique) {
      KindLive(s, s.threads[t].pc.h);
      WriterMay(s, u);
    }
  }

  /** The value is `v`, or was moved out by `make_mut` as `v`. */
  predicate Carries(s: State, t: Tid, v: int) {
    && t in s.threads
    && (if s.threads[t].pc.WSub? then s.ended == [End(Steal, v)] else s.data == Init(v) && s.ended == [])
    && (Making(s.threads[t].pc) || s.threads[t].pc.Mut? || s.threads[t].pc.WSub?)
  }

  lemma MakeMutStep(s: State, a: Label, s2: State, t: Tid, v: int)
    requires Inv(s) && StepShape(s, a, s2) && t in s.threads && Making(s.threads[t].pc) && s.data == Init(v)
      && s.ended == []
    ensures Carries(s2, t, v)
  {
    if a.t != t { MakingAlone(s, a, s2, t); }
  }

  lemma MakeMutAt(states: seq<State>, labels: seq<Label>, origin: Origin, v0: int, tids: set<Tid>, i: nat, t: Tid,
                  v: int)
    requires RunFrom(states, labels, origin, v0, tids) && i < |labels|
    requires Carries(states[i], t, v) && Making(states[i].threads[t].pc)
    ensures Carries(states[i + 1], t, v)
  {
    Reachable(states, labels, origin, v0, tids, i);
    assert StepAt(states, labels, i);
    StepHasShape(states[i], labels[i], states[i + 1]);
    MakeMutStep(states[i], labels[i], states[i + 1], t, v);
  }

  /** From the CAS of `make_mut` on, the value stays `v` until the `&mut T` is handed out over
      it (restore) or it is moved into the new allocation (steal). */
  lemma {:induction false} MakeMutKeepsValue(states: seq<State>, labels: seq<Label>, origin: Origin, v0: int,
                                             tids: set<Tid>, i: nat, j: nat, t: Tid, v: int)
    requires RunFrom(states, labels, origin, v0, tids) && i <= j < |states|
    requires Carries(states[i], t, v)
    requires forall k :: i <= k < j ==> t in states[k].threads && Making(states[k].threads[t].pc)
    ensures Carries(states[j], t, v)
  {
    if i < j {
      MakeMutKeepsValue(states, labels, origin, v0, tids, i, j - 1, t, v);
      MakeMutAt(states, labels, origin, v0, tids, j - 1, t, v);
    }
  }

  /** Between the failed CAS of `make_mut` and its clone of the data, and until it drops the old handle. */
  predicate Copying(pc: Pc) { pc.Cl? || pc.Dr? }

  lemma CopyingAlone(s: State, t: Tid, u: Tid)
    requires Inv(s) && t in s.threads && u in s.threads && u != t && Copying(s.threads[t].pc)
    ensures s.data.Init? && !s.threads[u].pc.Own? && !(s.threads[u].pc.Mut? || ExOf(s, s.threads[u].pc, Unique))
  {
    assert UserOk(s, t) && UserOk(s, u) && HandleOk(s, s.threads[t].pc.h);
    KindLive(s, s.threads[t].pc.h);
    var p := s.threads[u].pc;
    if p.Own? || p.Mut? || ExOf(s, p, Unique) {
      KindLive(s, p.h);
      WriterMay(s, u);
    }
  }

  lemma CopyingInit(s: State, t: Tid)
    requires Inv(s) && t in s.threads && Copying(s.threads[t].pc)
    ensures s.data.Init?
  {
    assert UserOk(s, t);
    KindLive(s, s.threads[t].pc.h);
  }

  lemma CopyingStep(s: State, a: Label, s2: State, t: Tid)
    requires Inv(s) && StepShape(s, a, s2) && a.t in s.threads && t in s.threads && Copying(s.threads[t].pc)
    ensures s2.data == s.data && s.data.Init?
  {
    CopyingInit(s, t);
    if a.t != t { CopyingAlone(s, t, a.t); }
  }

  lemma CopyingAt(states: seq<State>, labels: seq<Label>, origin: Origin, v0: int, tids: set<Tid>, i: nat, t: Tid)
    requires RunFrom(states, labels, origin, v0, tids) && i < |labels|
    requires t in states[i].threads && Copying(states[i].threads[t].pc)
    ensures states[i + 1].data == states[i].data && states[i].data.Init?
  {
    Reachable(states, labels, origin, v0, tids, i);
    assert StepAt(states, labels, i);
    StepHasShape(states[i], labels[i], states[i + 1]);
    CopyingStep(states[i], labels[i], states[i + 1], t);
  }

  /** In the branch that copies, the value read by the clone is the one the thread saw when its CAS failed, and
      the old block keeps it until the thread gives up its handle. */
  lemma {:induction false} MakeMutCopiesValue(states: seq<State>, labels: seq<Label>, origin: Origin, v0: int,
                                              tids: set<Tid>, i: nat, j: nat, t: Tid)
    requires RunFrom(states, labels, origin, v0, tids) && i <= j < |states|
    requires forall k :: i <= k < j ==> t in states[k].threads && Copying(states[k].threads[t].pc)
    ensures states[j].data == states[i].data && (i < j ==> states[i].data.Init?)
  {
    if i < j {
      MakeMutCopiesValue(states, labels, origin, v0, tids, i, j - 1, t);
      CopyingAt(states, labels, origin, v0, tids, j - 1, t);
    }
  }
}

/** Runs in which a thread alone gets an old answer: `upgrade` refuses although a strong handle exists, and `is_unique`
  * of a handle that others share says yes although there are two. */
module ArcOld {
  import opened Basics
  import opened ArcMachine
  import opened ArcTheorems
  import opened ArcRace
  import opened ArcAlone
  import opened ArcCalls
  import opened ArcStale
  import R = RcMachine
  import ArcRcAgree

  /** Two threads, where they are and what they have seen, the counters and the accesses so far. */
  predicate Tale(s: State, p0: Pc, v0: View, p1: Pc, v1: View, strong: seq<nat>, weak: seq<nat>, places: seq<Place>) {
    && !s.aborted && s.threads.Keys == {0, 1}
    && s.threads[0].pc == p0 && s.threads[0].view == v0 && s.threads[1].pc == p1 && s.threads[1].view == v1
    && |s.strong| == |strong| > 0 && (forall i :: 0 <= i < |strong| ==> s.strong[i].val == strong[i])
    && |s.weak| == |weak| > 0 && (forall i :: 0 <= i < |weak| ==> s.weak[i].val == weak[i])
    && |s.events| == |places| && (forall e :: 0 <= e < |places| ==> s.events[e].place == places[e])
    && !p0.AbortS? && !p0.AbortW? && !p1.AbortS? && !p1.AbortW?
  }

  /** A live handle: who borrows it, and what its next borrower learns. */
  predicate Has(s: State, h: Hid, kind: Kind, base: View, ret: View, shared: set<Tid>, excl: Option<Tid>) {
    && HasKind(s, h, kind) && s.handles[h].base == base && s.handles[h].ret == ret
    && s.handles[h].shared == shared && s.handles[h].excl == excl
  }

  lemma TaleIsCalm(s: State, p0: Pc, v0: View, p1: Pc, v1: View, strong: seq<nat>, weak: seq<nat>, places: seq<Place>)
    requires Tale(s, p0, v0, p1, v1, strong, weak, places)
    ensures Calm(s)
  {}

  lemma OwnerMade(v: int) returns (s: State)
    ensures s == Start(FromUnique, v, {0, 1})
    ensures Tale(s, Idle, {}, Idle, {}, [0], [1], [Created(true)])
    ensures s.handles.Keys == {0} && s.data == Init(v) && s.origin == FromUnique
    ensures s.frees == 0 && s.ended == [] && Has(s, 0, Unique, {0}, {}, {}, None)
  {
    s := Start(FromUnique, v, {0, 1});
  }

  lemma OwnerLent(v: int, s: State) returns (s2: State)
    requires Tale(s, Idle, {}, Idle, {}, [0], [1], [Created(true)])
    requires s.handles.Keys == {0} && s.data == Init(v) && s.origin == FromUnique
    requires s.frees == 0 && s.ended == [] && Has(s, 0, Unique, {0}, {}, {}, None)
    ensures Enabled(s, TakeSh(0, 0)) && s2 == Apply(s, TakeSh(0, 0)) && Calm(s) && Calm(s2)
    ensures Tale(s2, Sh(0), {0}, Idle, {}, [0], [1], [Created(true)])
    ensures s2.handles.Keys == {0} && s2.data == Init(v) && s2.origin == FromUnique
    ensures s2.frees == 0 && s2.ended == [] && Has(s2, 0, Unique, {0}, {}, {0}, None)
  {
    s2 := Apply(s, TakeSh(0, 0));
    TaleIsCalm(s, Idle, {}, Idle, {}, [0], [1], [Created(true)]);
    TaleIsCalm(s2, Sh(0), {0}, Idle, {}, [0], [1], [Created(true)]);
  }

  lemma WeakMade(v: int, s: State) returns (s2: State)
    requires Tale(s, Sh(0), {0}, Idle, {}, [0], [1], [Created(true)])
    requires s.handles.Keys == {0} && s.data == Init(v) && s.origin == FromUnique
    requires s.frees == 0 && s.ended == [] && Has(s, 0, Unique, {0}, {}, {0}, None)
    ensures Enabled(s, WeakAdd(0, 1)) && s2 == Apply(s, WeakAdd(0, 1)) && Calm(s) && Calm(s2)
    ensures Tale(s2, Sh(0), {0, 1}, Idle, {}, [0], [1, 2], [Created(true), OnWeak(1)])
    ensures s2.handles.Keys == {0, 1} && s2.data == Init(v) && s2.origin == FromUnique
    ensures s2.frees == 0 && s2.ended == [] && Has(s2, 0, Unique, {0}, {}, {0}, None)
    ensures Has(s2, 1, Weak, {0, 1}, {}, {}, None)
  {
    s2 := Apply(s, WeakAdd(0, 1));
    TaleIsCalm(s, Sh(0), {0}, Idle, {}, [0], [1], [Created(true)]);
    TaleIsCalm(s2, Sh(0), {0, 1}, Idle, {}, [0], [1, 2], [Created(true), OnWeak(1)]);
  }

  lemma OwnerBack(v: int, s: State) returns (s2: State)
    requires Tale(s, Sh(0), {0, 1}, Idle, {}, [0], [1, 2], [Created(true), OnWeak(1)])
    requires s.handles.Keys == {0, 1} && s.data == Init(v) && s.origin == FromUnique
    requires s.frees == 0 && s.ended == [] && Has(s, 0, Unique, {0}, {}, {0}, None)
    requires Has(s, 1, Weak, {0, 1}, {}, {}, None)
    ensures Enabled(s, Give(0)) && s2 == Apply(s, Give(0)) && Calm(s) && Calm(s2)
    ensures Tale(s2, Idle, {0, 1}, Idle, {}, [0], [1, 2], [Created(true), OnWeak(1)])
    ensures s2.handles.Keys == {0, 1} && s2.data == Init(v) && s2.origin == FromUnique
    ensures s2.frees == 0 && s2.ended == [] && Has(s2, 0, Unique, {0}, {0, 1}, {}, None)
    ensures Has(s2, 1, Weak, {0, 1}, {}, {}, None)
  {
    s2 := Apply(s, Give(0));
    TaleIsCalm(s, Sh(0), {0, 1}, Idle, {}, [0], [1, 2], [Created(true), OnWeak(1)]);
    TaleIsCalm(s2, Idle, {0, 1}, Idle, {}, [0], [1, 2], [Created(true), OnWeak(1)]);
  }

  lemma WeakLent(v: int, s: State) returns (s2: State)
    requires Tale(s, Idle, {0, 1}, Idle, {}, [0], [1, 2], [Created(true), OnWeak(1)])
    requires s.handles.Keys == {0, 1} && s.data == Init(v) && s.origin == FromUnique
    requires s.frees == 0 && s.ended == [] && Has(s, 0, Unique, {0}, {0, 1}, {}, None)
    requires Has(s, 1, Weak, {0, 1}, {}, {}, None)
    ensures Enabled(s, TakeSh(1, 1)) && s2 == Apply(s, TakeSh(1, 1)) && Calm(s) && Calm(s2)
    ensures Tale(s2, Idle, {0, 1}, Sh(1), {0, 1}, [0], [1, 2], [Created(true), OnWeak(1)])
    ensures s2.handles.Keys == {0, 1} && s2.data == Init(v) && s2.origin == FromUnique
    ensures s2.frees == 0 && s2.ended == [] && Has(s2, 0, Unique, {0}, {0, 1}, {}, None)
    ensures Has(s2, 1, Weak, {0, 1}, {}, {1}, None)
  {
    s2 := Apply(s, TakeSh(1, 1));
    TaleIsCalm(s, Idle, {0, 1}, Idle, {}, [0], [1, 2], [Created(true), OnWeak(1)]);
    TaleIsCalm(s2, Idle, {0, 1}, Sh(1), {0, 1}, [0], [1, 2], [Created(true), OnWeak(1)]);
  }

  lemma OwnerTaken(v: int, s: State) returns (s2: State)
    requires Tale(s, Idle, {0, 1}, Sh(1), {0, 1}, [0], [1, 2], [Created(true), OnWeak(1)])
    requires s.handles.Keys == {0, 1} && s.data == Init(v) && s.origin == FromUnique
    requires s.frees == 0 && s.ended == [] && Has(s, 0, Unique, {0}, {0, 1}, {}, None)
    requires Has(s, 1, Weak, {0, 1}, {}, {1}, None)
    ensures Enabled(s, TakeEx(0, 0)) && s2 == Apply(s, TakeEx(0, 0)) && Calm(s) && Calm(s2)
    ensures Tale(s2, Ex(0), {0, 1}, Sh(1), {0, 1}, [0], [1, 2], [Created(true), OnWeak(1)])
    ensures s2.handles.Keys == {0, 1} && s2.data == Init(v) && s2.origin == FromUnique
    ensures s2.frees == 0 && s2.ended == [] && Has(s2, 0, Unique, {0}, {0, 1}, {}, Some(0))
    ensures Has(s2, 1, Weak, {0, 1}, {}, {1}, None)
  {
    s2 := Apply(s, TakeEx(0, 0));
    TaleIsCalm(s, Idle, {0, 1}, Sh(1), {0, 1}, [0], [1, 2], [Created(true), OnWeak(1)]);
    TaleIsCalm(s2, Ex(0), {0, 1}, Sh(1), {0, 1}, [0], [1, 2], [Created(true), OnWeak(1)]);
  }

  lemma OwnerShared(v: int, s: State) returns (s2: State)
    requires Tale(s, Ex(0), {0, 1}, Sh(1), {0, 1}, [0], [1, 2], [Created(true), OnWeak(1)])
    requires s.handles.Keys == {0, 1} && s.data == Init(v) && s.origin == FromUnique
    requires s.frees == 0 && s.ended == [] && Has(s, 0, Unique, {0}, {0, 1}, {}, Some(0))
    requires Has(s, 1, Weak, {0, 1}, {}, {1}, None)
    ensures Enabled(s, Publish(0)) && s2 == Apply(s, Publish(0)) && Calm(s) && Calm(s2)
    ensures Tale(s2, Ex(0), {0, 1, 2}, Sh(1), {0, 1}, [0, 1], [1, 2], [Created(true), OnWeak(1), OnStrong(1)])
    ensures s2.handles.Keys == {0, 1} && s2.data == Init(v) && s2.origin == FromUnique
    ensures s2.frees == 0 && s2.ended == [] && Has(s2, 0, Strong, {0}, {0, 1}, {}, Some(0))
    ensures Has(s2, 1, Weak, {0, 1}, {}, {1}, None)
  {
    s2 := Apply(s, Publish(0));
    TaleIsCalm(s, Ex(0), {0, 1}, Sh(1), {0, 1}, [0], [1, 2], [Created(true), OnWeak(1)]);
    TaleIsCalm(s2, Ex(0), {0, 1, 2}, Sh(1), {0, 1}, [0, 1], [1, 2], [Created(true), OnWeak(1), OnStrong(1)]);
  }

  lemma ArcMade(v: int) returns (s: State)
    ensures s == Start(FromNew, v, {0, 1})
    ensures Tale(s, Idle, {}, Idle, {}, [1], [1], [Created(true)])
    ensures s.handles.Keys == {0} && s.weak[0].view == {} && s.strong[0].view == {}
    ensures Has(s, 0, Strong, {0}, {}, {}, None)
  {
    s := Start(FromNew, v, {0, 1});
  }

  lemma ArcLent(v: int, s: State) returns (s2: State)
    requires Tale(s, Idle, {}, Idle, {}, [1], [1], [Created(true)])
    requires s.handles.Keys == {0} && s.weak[0].view == {} && s.strong[0].view == {}
    requires Has(s, 0, Strong, {0}, {}, {}, None)
    ensures Enabled(s, TakeSh(0, 0)) && s2 == Apply(s, TakeSh(0, 0)) && Calm(s) && Calm(s2)
    ensures Tale(s2, Sh(0), {0}, Idle, {}, [1], [1], [Created(true)])
    ensures s2.handles.Keys == {0} && s2.weak[0].view == {} && s2.strong[0].view == {}
    ensures Has(s2, 0, Strong, {0}, {}, {0}, None)
  {
    s2 := Apply(s, TakeSh(0, 0));
    TaleIsCalm(s, Idle, {}, Idle, {}, [1], [1], [Created(true)]);
    TaleIsCalm(s2, Sh(0), {0}, Idle, {}, [1], [1], [Created(true)]);
  }

  lemma ArcLentTwice(v: int, s: State) returns (s2: State)
    requires Tale(s, Sh(0), {0}, Idle, {}, [1], [1], [Created(true)])
    requires s.handles.Keys == {0} && s.weak[0].view == {} && s.strong[0].view == {}
    requires Has(s, 0, Strong, {0}, {}, {0}, None)
    ensures Enabled(s, TakeSh(1, 0)) && s2 == Apply(s, TakeSh(1, 0)) && Calm(s) && Calm(s2)
    ensures Tale(s2, Sh(0), {0}, Sh(0), {0}, [1], [1], [Created(true)])
    ensures s2.handles.Keys == {0} && s2.weak[0].view == {} && s2.strong[0].view == {}
    ensures Has(s2, 0, Strong, {0}, {}, {0, 1}, None)
  {
    s2 := Apply(s, TakeSh(1, 0));
    TaleIsCalm(s, Sh(0), {0}, Idle, {}, [1], [1], [Created(true)]);
    TaleIsCalm(s2, Sh(0), {0}, Sh(0), {0}, [1], [1], [Created(true)]);
  }

  lemma ArcCloned(v: int, s: State) returns (s2: State)
    requires Tale(s, Sh(0), {0}, Sh(0), {0}, [1], [1], [Created(true)])
    requires s.handles.Keys == {0} && s.weak[0].view == {} && s.strong[0].view == {}
    requires Has(s, 0, Strong, {0}, {}, {0, 1}, None)
    ensures Enabled(s, CloneStrong(1, 1)) && s2 == Apply(s, CloneStrong(1, 1)) && Calm(s) && Calm(s2)
    ensures Tale(s2, Sh(0), {0}, Sh(0), {0, 1}, [1, 2], [1], [Created(true), OnStrong(1)])
    ensures s2.handles.Keys == {0, 1} && s2.weak[0].view == {} && s2.strong[0].view == {}
    ensures Has(s2, 0, Strong, {0}, {}, {0, 1}, None) && Has(s2, 1, Strong, {0, 1}, {}, {}, None)
  {
    s2 := Apply(s, CloneStrong(1, 1));
    TaleIsCalm(s, Sh(0), {0}, Sh(0), {0}, [1], [1], [Created(true)]);
    TaleIsCalm(s2, Sh(0), {0}, Sh(0), {0, 1}, [1, 2], [1], [Created(true), OnStrong(1)]);
  }

  lemma ArcLocked(v: int, s: State) returns (s2: State)
    requires Tale(s, Sh(0), {0}, Sh(0), {0, 1}, [1, 2], [1], [Created(true), OnStrong(1)])
    requires s.handles.Keys == {0, 1} && s.weak[0].view == {} && s.strong[0].view == {}
    requires Has(s, 0, Strong, {0}, {}, {0, 1}, None) && Has(s, 1, Strong, {0, 1}, {}, {}, None)
    ensures Enabled(s, LockCas(0)) && s2 == Apply(s, LockCas(0)) && Calm(s) && Calm(s2)
    ensures Tale(s2, Lock(0, false), {0, 2}, Sh(0), {0, 1}, [1, 2], [1, USIZE_MAX],
      [Created(true), OnStrong(1), OnWeak(1)])
    ensures s2.handles.Keys == {0, 1} && s2.strong[0].view == {}
    ensures Has(s2, 0, Strong, {0}, {}, {0, 1}, None) && Has(s2, 1, Strong, {0, 1}, {}, {}, None)
  {
    s2 := Apply(s, LockCas(0));
    TaleIsCalm(s, Sh(0), {0}, Sh(0), {0, 1}, [1, 2], [1], [Created(true), OnStrong(1)]);
    TaleIsCalm(s2, Lock(0, false), {0, 2}, Sh(0), {0, 1}, [1, 2], [1, USIZE_MAX],
      [Created(true), OnStrong(1), OnWeak(1)]);
  }

  lemma ArcAsked(v: int, s: State) returns (s2: State)
    requires Tale(s, Lock(0, false), {0, 2}, Sh(0), {0, 1}, [1, 2], [1, USIZE_MAX],
      [Created(true), OnStrong(1), OnWeak(1)])
    requires s.handles.Keys == {0, 1} && s.strong[0].view == {} && Has(s, 0, Strong, {0}, {}, {0, 1}, None)
    requires Has(s, 1, Strong, {0, 1}, {}, {}, None)
    ensures Enabled(s, LoadStrong(0, 0)) && s2 == Apply(s, LoadStrong(0, 0)) && Calm(s) && Calm(s2)
    ensures Tale(s2, Unlock(0, false, true), {0, 2, 3}, Sh(0), {0, 1}, [1, 2], [1, USIZE_MAX],
      [Created(true), OnStrong(1), OnWeak(1), OnStrong(0)])
    ensures s2.handles.Keys == {0, 1} && Has(s2, 0, Strong, {0}, {}, {0, 1}, None)
    ensures Has(s2, 1, Strong, {0, 1}, {}, {}, None)
  {
    s2 := Apply(s, LoadStrong(0, 0));
    TaleIsCalm(s, Lock(0, false), {0, 2}, Sh(0), {0, 1}, [1, 2], [1, USIZE_MAX],
      [Created(true), OnStrong(1), OnWeak(1)]);
    TaleIsCalm(s2, Unlock(0, false, true), {0, 2, 3}, Sh(0), {0, 1}, [1, 2], [1, USIZE_MAX],
      [Created(true), OnStrong(1), OnWeak(1), OnStrong(0)]);
  }

  lemma WeakFrom(run: seq<State>, labels: seq<Label>, v: int, s: State)
    returns (run2: seq<State>, labels2: seq<Label>, s2: State)
    requires Reaches(run, labels, FromUnique, v, s) && Tale(s, Idle, {}, Idle, {}, [0], [1], [Created(true)])
    requires s.handles.Keys == {0} && s.data == Init(v) && s.origin == FromUnique
    requires s.frees == 0 && s.ended == [] && Has(s, 0, Unique, {0}, {}, {}, None)
    ensures labels2 == labels + [TakeSh(0, 0), WeakAdd(0, 1)] && Reaches(run2, labels2, FromUnique, v, s2)
    ensures Tale(s2, Sh(0), {0, 1}, Idle, {}, [0], [1, 2], [Created(true), OnWeak(1)])
    ensures s2.handles.Keys == {0, 1} && s2.data == Init(v) && s2.origin == FromUnique
    ensures s2.frees == 0 && s2.ended == [] && Has(s2, 0, Unique, {0}, {}, {0}, None)
    ensures Has(s2, 1, Weak, {0, 1}, {}, {}, None)
  {
    run2, labels2, s2 := run, labels, s;
    var n1 := OwnerLent(v, s2);
    Go(run2, labels2, FromUnique, v, s2, TakeSh(0, 0), n1);
    run2, labels2, s2 := run2 + [n1], labels2 + [TakeSh(0, 0)], n1;
    var n2 := WeakMade(v, s2);
    Go(run2, labels2, FromUnique, v, s2, WeakAdd(0, 1), n2);
    run2, labels2, s2 := run2 + [n2], labels2 + [WeakAdd(0, 1)], n2;
  }

  lemma WeakHandedOver(run: seq<State>, labels: seq<Label>, v: int, s: State)
    returns (run2: seq<State>, labels2: seq<Label>, s2: State)
    requires Reaches(run, labels, FromUnique, v, s)
    requires Tale(s, Sh(0), {0, 1}, Idle, {}, [0], [1, 2], [Created(true), OnWeak(1)])
    requires s.handles.Keys == {0, 1} && s.data == Init(v) && s.origin == FromUnique
    requires s.frees == 0 && s.ended == [] && Has(s, 0, Unique, {0}, {}, {0}, None)
    requires Has(s, 1, Weak, {0, 1}, {}, {}, None)
    ensures labels2 == labels + [Give(0), TakeSh(1, 1)] && Reaches(run2, labels2, FromUnique, v, s2)
    ensures Tale(s2, Idle, {0, 1}, Sh(1), {0, 1}, [0], [1, 2], [Created(true), OnWeak(1)])
    ensures s2.handles.Keys == {0, 1} && s2.data == Init(v) && s2.origin == FromUnique
    ensures s2.frees == 0 && s2.ended == [] && Has(s2, 0, Unique, {0}, {0, 1}, {}, None)
    ensures Has(s2, 1, Weak, {0, 1}, {}, {1}, None)
  {
    run2, labels2, s2 := run, labels, s;
    var n3 := OwnerBack(v, s2);
    Go(run2, labels2, FromUnique, v, s2, Give(0), n3);
    run2, labels2, s2 := run2 + [n3], labels2 + [Give(0)], n3;
    var n4 := WeakLent(v, s2);
    Go(run2, labels2, FromUnique, v, s2, TakeSh(1, 1), n4);
    run2, labels2, s2 := run2 + [n4], labels2 + [TakeSh(1, 1)], n4;
  }

  lemma SharedUnseen(run: seq<State>, labels: seq<Label>, v: int, s: State)
    returns (run2: seq<State>, labels2: seq<Label>, s2: State)
    requires Reaches(run, labels, FromUnique, v, s)
    requires Tale(s, Idle, {0, 1}, Sh(1), {0, 1}, [0], [1, 2], [Created(true), OnWeak(1)])
    requires s.handles.Keys == {0, 1} && s.data == Init(v) && s.origin == FromUnique
    requires s.frees == 0 && s.ended == [] && Has(s, 0, Unique, {0}, {0, 1}, {}, None)
    requires Has(s, 1, Weak, {0, 1}, {}, {1}, None)
    ensures labels2 == labels + [TakeEx(0, 0), Publish(0)] && Reaches(run2, labels2, FromUnique, v, s2)
    ensures Tale(s2, Ex(0), {0, 1, 2}, Sh(1), {0, 1}, [0, 1], [1, 2], [Created(true), OnWeak(1), OnStrong(1)])
    ensures s2.handles.Keys == {0, 1} && s2.data == Init(v) && s2.origin == FromUnique
    ensures s2.frees == 0 && s2.ended == [] && Has(s2, 0, Strong, {0}, {0, 1}, {}, Some(0))
    ensures Has(s2, 1, Weak, {0, 1}, {}, {1}, None)
  {
    run2, labels2, s2 := run, labels, s;
    var n5 := OwnerTaken(v, s2);
    Go(run2, labels2, FromUnique, v, s2, TakeEx(0, 0), n5);
    run2, labels2, s2 := run2 + [n5], labels2 + [TakeEx(0, 0)], n5;
    var n6 := OwnerShared(v, s2);
    Go(run2, labels2, FromUnique, v, s2, Publish(0), n6);
    run2, labels2, s2 := run2 + [n6], labels2 + [Publish(0)], n6;
  }

  lemma ClonedUnseen(run: seq<State>, labels: seq<Label>, v: int, s: State)
    returns (run2: seq<State>, labels2: seq<Label>, s2: State)
    requires Reaches(run, labels, FromNew, v, s) && Tale(s, Idle, {}, Idle, {}, [1], [1], [Created(true)])
    requires s.handles.Keys == {0} && s.weak[0].view == {} && s.strong[0].view == {}
    requires Has(s, 0, Strong, {0}, {}, {}, None)
    ensures labels2 == labels + [TakeSh(0, 0), TakeSh(1, 0), CloneStrong(1, 1)]
    ensures Reaches(run2, labels2, FromNew, v, s2)
    ensures Tale(s2, Sh(0), {0}, Sh(0), {0, 1}, [1, 2], [1], [Created(true), OnStrong(1)])
    ensures s2.handles.Keys == {0, 1} && s2.weak[0].view == {} && s2.strong[0].view == {}
    ensures Has(s2, 0, Strong, {0}, {}, {0, 1}, None) && Has(s2, 1, Strong, {0, 1}, {}, {}, None)
  {
    run2, labels2, s2 := run, labels, s;
    var n1 := ArcLent(v, s2);
    Go(run2, labels2, FromNew, v, s2, TakeSh(0, 0), n1);
    run2, labels2, s2 := run2 + [n1], labels2 + [TakeSh(0, 0)], n1;
    var n2 := ArcLentTwice(v, s2);
    Go(run2, labels2, FromNew, v, s2, TakeSh(1, 0), n2);
    run2, labels2, s2 := run2 + [n2], labels2 + [TakeSh(1, 0)], n2;
    var n3 := ArcCloned(v, s2);
    Go(run2, labels2, FromNew, v, s2, CloneStrong(1, 1), n3);
    run2, labels2, s2 := run2 + [n3], labels2 + [CloneStrong(1, 1)], n3;
  }

  lemma AskedUnseen(run: seq<State>, labels: seq<Label>, v: int, s: State)
    returns (run2: seq<State>, labels2: seq<Label>, s2: State)
    requires Reaches(run, labels, FromNew, v, s)
    requires Tale(s, Sh(0), {0}, Sh(0), {0, 1}, [1, 2], [1], [Created(true), OnStrong(1)])
    requires s.handles.Keys == {0, 1} && s.weak[0].view == {} && s.strong[0].view == {}
    requires Has(s, 0, Strong, {0}, {}, {0, 1}, None) && Has(s, 1, Strong, {0, 1}, {}, {}, None)
    ensures labels2 == labels + [LockCas(0), LoadStrong(0, 0)] && Reaches(run2, labels2, FromNew, v, s2)
    ensures Tale(s2, Unlock(0, false, true), {0, 2, 3}, Sh(0), {0, 1}, [1, 2], [1, USIZE_MAX],
      [Created(true), OnStrong(1), OnWeak(1), OnStrong(0)])
    ensures s2.handles.Keys == {0, 1} && Has(s2, 0, Strong, {0}, {}, {0, 1}, None)
    ensures Has(s2, 1, Strong, {0, 1}, {}, {}, None)
  {
    run2, labels2, s2 := run, labels, s;
    var n4 := ArcLocked(v, s2);
    Go(run2, labels2, FromNew, v, s2, LockCas(0), n4);
    run2, labels2, s2 := run2 + [n4], labels2 + [LockCas(0)], n4;
    var n5 := ArcAsked(v, s2);
    Go(run2, labels2, FromNew, v, s2, LoadStrong(0, 0), n5);
    run2, labels2, s2 := run2 + [n5], labels2 + [LoadStrong(0, 0)], n5;
  }

  /** The block after the sixth step, as thread 1 sees its handle. */
  const SHARED_LOOK := Look(1, 2, Init(7), [], 0)

  lemma CanBeRefused(s: State)
    requires Tale(s, Ex(0), {0, 1, 2}, Sh(1), {0, 1}, [0, 1], [1, 2], [Created(true), OnWeak(1), OnStrong(1)])
    requires s.handles.Keys == {0, 1} && s.data == Init(7) && s.origin == FromUnique
    requires s.frees == 0 && s.ended == [] && Has(s, 0, Strong, {0}, {0, 1}, {}, Some(0))
    requires Has(s, 1, Weak, {0, 1}, {}, {1}, None)
    ensures AtStart(UpgradeCall, s, 1, 1, SHARED_LOOK) && ArcCalls.Ready(UpgradeCall, SHARED_LOOK)
    ensures ReadableS(s, s.threads[1].view, 0) && s.strong[0].val == 0
  {
    forall e <- s.events ensures e.place.OnStrong? ==> e.place.idx < |s.strong| {}
  }

  /** After `UniqueArc::into_arc`, a thread that holds a Weak from before upgrades alone and gets `None`, where the
    * `Rc` of the same block gives `Some`. */
  lemma {:induction false} LoneUpgradeCanRefuse()
    returns (run: seq<State>, labels: seq<Label>, s: State, l: seq<Label>, s2: State)
    ensures RunFrom(run, labels, FromUnique, 7, {0, 1}) && run[|labels|] == s
    ensures AtStart(UpgradeCall, s, 1, 1, SHARED_LOOK) && ArcCalls.Ready(UpgradeCall, SHARED_LOOK)
    ensures Lone(UpgradeCall, s, 1, l, s2) && l[|l| - 1].UpEnd?
    ensures forall r: R.State, a: R.Addr ::
      ArcRcAgree.Same(SHARED_LOOK, r, a) ==> R.Upgrades(r, R.WeakTo(a))
  {
    s := OwnerMade(7);
    run, labels := [s], [];
    run, labels, s := WeakFrom(run, labels, 7, s);
    run, labels, s := WeakHandedOver(run, labels, 7, s);
    run, labels, s := SharedUnseen(run, labels, 7, s);
    CanBeRefused(s);
    l, s2 := StaleRefuses(s, 1, 1, SHARED_LOOK, 0);
  }

  /** Thread 0 asks whether handle 0 is unique, having borrowed it before thread 1 cloned it, and is told that it is. */
  lemma {:induction false} SharedIsUniqueCanBeOld(v: int) returns (run: seq<State>, labels: seq<Label>)
    ensures RunFrom(run, labels, FromNew, v, {0, 1}) && |labels| == 5
    ensures labels[3] == LockCas(0) && labels[4] == LoadStrong(0, 0)
    ensures 0 in run[5].threads && run[5].threads[0].pc == Unlock(0, false, true) && SVal(run[5]) == 2
  {
    var s := ArcMade(v);
    run, labels := [s], [];
    run, labels, s := ClonedUnseen(run, labels, v, s);
    run, labels, s := AskedUnseen(run, labels, v, s);
  }
}

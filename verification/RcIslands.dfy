/** A strong cycle that nobody outside holds a handle to is never touched again: the leak that the module
  * documentation of `Rc` warns of. */
module RcIslands {
  import opened RcMachine
  import opened RcInvariant
  import opened RcSteps
  import opened RcRuns
  import opened RcTheorems
  import opened RcReclaim

  predicate Away(m: multiset<Handle>, c: set<Addr>) {
    forall h :: h in m && !h.Dangling? ==> h.at !in c
  }

  /** No handle to the blocks of `c` is in the running code or in a value of another block. */
  ghost predicate Island(s: State, c: set<Addr>) {
    && (forall a :: a in c ==> a < |s.blocks|)
    && Away(Open(s), c)
    && forall b :: 0 <= b < |s.blocks| && b !in c ==> Away(Fields(s.blocks[b]), c)
  }

  ghost predicate SameOn(s: State, s2: State, c: set<Addr>) {
    && |s.blocks| <= |s2.blocks|
    && forall a :: a in c && a < |s.blocks| ==> s2.blocks[a] == s.blocks[a]
  }

  ghost predicate Untouched(s: State, s2: State, c: set<Addr>) {
    Island(s2, c) && SameOn(s, s2, c)
  }

  /** Only block `a` and fresh blocks changed, and all that the program and they hold is outside. */
  lemma {:induction false} OutsideOnly(s: State, s2: State, a: Addr, c: set<Addr>)
    requires Island(s, c) && a !in c && |s.blocks| <= |s2.blocks|
    requires forall b :: 0 <= b < |s.blocks| && b != a ==> s2.blocks[b] == s.blocks[b]
    requires forall b :: 0 <= b < |s2.blocks| && (b == a || |s.blocks| <= b) ==> Away(Fields(s2.blocks[b]), c)
    requires Away(Open(s2), c)
    ensures Untouched(s, s2, c)
  {
  }

  /** Only the counts of block `a` changed. */
  lemma {:induction false} CountsAway(s: State, a: Addr, b: Block, c: set<Addr>)
    requires Island(s, c) && a < |s.blocks| && a !in c && Fields(b) == Fields(s.blocks[a])
    ensures Untouched(s, Set(s, a, b), c)
  {
    assert Away(Fields(b), c);
    OutsideOnly(s, Set(s, a, b), a, c);
  }

  lemma {:induction false} PushOpen(s: State, h: Handle)
    ensures Open(s.(stack := [Let(h)] + s.stack)) == Open(s) + multiset{h}
  {
    assert ([Let(h)] + s.stack)[1..] == s.stack;
  }

  lemma {:induction false} DropSlowAway(s: State, a: Addr, c: set<Addr>)
    requires Island(s, c) && a !in c
    ensures Untouched(s, DropSlow(s, a), c)
  {
    if Alive(s, a) && s.blocks[a].slot.Init? {
      var v := s.blocks[a].slot.v;
      TodoPending(v.dtor, v.fields, [Let(Implicit(a))] + s.stack);
      assert ([Let(Implicit(a))] + s.stack)[1..] == s.stack;
      assert Open(DropSlow(s, a)) == Open(s) + Fields(s.blocks[a]) + multiset{Implicit(a)};
      assert Away(Fields(s.blocks[a]), c);
      OutsideOnly(s, DropSlow(s, a), a, c);
    }
  }

  lemma {:induction false} DropStrongAway(s: State, a: Addr, c: set<Addr>)
    requires Island(s, c) && a !in c
    ensures Untouched(s, DropStrong(s, a), c)
  {
    if Alive(s, a) && s.blocks[a].strong > 0 {
      var b := s.blocks[a].(strong := s.blocks[a].strong - 1);
      CountsAway(s, a, b, c);
      DropSlowAway(Set(s, a, b), a, c);
    }
  }

  lemma {:induction false} DropWeakAway(s: State, a: Addr, c: set<Addr>)
    requires Island(s, c) && a !in c
    ensures Untouched(s, DropWeak(s, a), c)
  {
    if Alive(s, a) && s.blocks[a].weak > 0 {
      CountsAway(s, a, DropWeak(s, a).blocks[a], c);
    }
  }

  lemma {:induction false} ReleaseAway(s: State, h: Handle, c: set<Addr>)
    requires Island(s, c) && (h.Dangling? || h.at !in c)
    ensures Untouched(s, Release(s, h), c)
  {
    match h
    case Strong(a) => DropStrongAway(s, a, c);
    case Unique(a) => DropSlowAway(s, a, c);
    case WeakTo(a) => DropWeakAway(s, a, c);
    case Cyclic(a) => DropWeakAway(s, a, c);
    case Implicit(a) => DropWeakAway(s, a, c);
    case Dangling =>
  }

  lemma {:induction false} FoundAway(s: State, h: Handle, p: Place, c: set<Addr>)
    requires Island(s, c) && Found(s, h, p)
    ensures h.Dangling? || h.at !in c
  {
    if p.Inside? {
      assert Strong(p.block) in Open(s) || Unique(p.block) in Open(s);
      assert h in Fields(s.blocks[p.block]);
    }
  }

  lemma {:induction false} IncAway(s: State, a: Addr, c: set<Addr>)
    requires Island(s, c) && a !in c
    ensures Untouched(s, IncStrong(s, a), c) && Untouched(s, IncWeak(s, a), c)
  {
    if Alive(s, a) {
      CountsAway(s, a, s.blocks[a].(strong := WrappingInc(s.blocks[a].strong)), c);
      CountsAway(s, a, s.blocks[a].(weak := WrappingInc(s.blocks[a].weak)), c);
    }
  }

  lemma {:induction false} GiveAway(s: State, s1: State, h: Handle, c: set<Addr>)
    requires Untouched(s, s1, c) && (h.Dangling? || h.at !in c)
    ensures Untouched(s, Give(s1, h), c)
  {
    assert Open(Give(s1, h)) == Open(s1) + multiset{h};
  }

  lemma {:induction false} WeakAway(s: State, a: Addr, c: set<Addr>)
    requires Island(s, c) && a !in c
    ensures var s' := IncWeak(s, a);
      Untouched(s, if s'.status.Running? then Give(s', WeakTo(a)) else s', c)
  {
    IncAway(s, a, c);
    GiveAway(s, IncWeak(s, a), WeakTo(a), c);
  }

  lemma {:induction false} StrongAway(s: State, a: Addr, c: set<Addr>)
    requires Island(s, c) && a !in c
    ensures var s' := IncStrong(s, a);
      Untouched(s, if s'.status.Running? then Give(s', Strong(a)) else s', c)
  {
    IncAway(s, a, c);
    GiveAway(s, IncStrong(s, a), Strong(a), c);
  }

  lemma {:induction false} CloneAway(s: State, h: Handle, p: Place, c: set<Addr>)
    requires Island(s, c)
    ensures Untouched(s, DoClone(s, h, p), c)
  {
    SelfAway(s, c, Fault);
    if Found(s, h, p) {
      FoundAway(s, h, p, c);
      match h
      case Strong(a) => StrongAway(s, a, c);
      case WeakTo(a) => WeakAway(s, a, c);
      case Dangling => GiveAway(s, s, h, c);
      case _ =>
    }
  }

  lemma {:induction false} DowngradeAway(s: State, h: Handle, p: Place, c: set<Addr>)
    requires Island(s, c)
    ensures Untouched(s, DoDowngrade(s, h, p), c)
  {
    SelfAway(s, c, Fault);
    if Found(s, h, p) && !h.Dangling? {
      FoundAway(s, h, p, c);
      WeakAway(s, h.at, c);
    }
  }

  lemma {:induction false} UpgradeAway(s: State, h: Handle, p: Place, c: set<Addr>)
    requires Island(s, c)
    ensures Untouched(s, DoUpgrade(s, h, p), c)
  {
    SelfAway(s, c, Fault);
    if Found(s, h, p) && !h.Dangling? {
      FoundAway(s, h, p, c);
      StrongAway(s, h.at, c);
    }
  }

  lemma {:induction false} NewAway(s: State, v: Value, strong: nat, h: Handle, c: set<Addr>)
    requires Island(s, c) && Movable(s, v.fields) && !h.Dangling? && h.at == |s.blocks|
    ensures Untouched(s, Fresh(Spend(s, v.fields), strong, Init(v), h), c)
  {
    var s2 := Fresh(Spend(s, v.fields), strong, Init(v), h);
    assert Away(multiset(v.fields), c);
    OutsideOnly(s, s2, |s.blocks|, c);
  }

  lemma {:induction false} IntoRcAway(s: State, a: Addr, c: set<Addr>)
    requires Island(s, c)
    ensures Untouched(s, DoIntoRc(s, a), c)
  {
    SelfAway(s, c, Fault);
    if Unique(a) in s.roots {
      assert Unique(a) in Open(s);
      if Alive(s, a) {
        var s1 := Set(s, a, s.blocks[a].(strong := 1));
        CountsAway(s, a, s1.blocks[a], c);
        LoseAway(s, s1, Unique(a), c);
        GiveAway(s, Lose(s1, Unique(a)), Strong(a), c);
      }
    }
  }

  lemma {:induction false} LoseAway(s: State, s1: State, h: Handle, c: set<Addr>)
    requires Untouched(s, s1, c)
    ensures Untouched(s, Lose(s1, h), c)
  {
    assert forall x :: x in Open(Lose(s1, h)) ==> x in Open(s1);
  }

  lemma {:induction false} CyclicEndAway(s: State, a: Addr, v: Value, c: set<Addr>)
    requires Island(s, c)
    ensures Untouched(s, DoCyclicEnd(s, a, v), c)
  {
    SelfAway(s, c, Fault);
    if Cyclic(a) in s.roots && Movable(Lose(s, Cyclic(a)), v.fields) && Alive(s, a) && s.blocks[a].strong == 0 {
      assert Cyclic(a) in Open(s);
      assert Away(multiset(v.fields), c);
      OutsideOnly(s, DoCyclicEnd(s, a, v), a, c);
    }
  }

  lemma {:induction false} UnwrapAway(s: State, a: Addr, c: set<Addr>)
    requires Island(s, c) && Strong(a) in s.roots
    ensures Untouched(s, Unwrap(s, a), c)
  {
    SelfAway(s, c, Fault);
    assert Strong(a) in Open(s);
    if Alive(s, a) && s.blocks[a].strong > 0 && s.blocks[a].slot.Init? {
      var s2 := Unwrap(s, a);
      PushOpen(s2.(stack := s.stack), Implicit(a));
      assert Away(Fields(s.blocks[a]), c);
      OutsideOnly(s, s2, a, c);
    }
  }

  lemma {:induction false} MoveAway(s: State, a: Addr, c: set<Addr>)
    requires Island(s, c)
    ensures Untouched(s, DoTryUnwrap(s, a), c) && Untouched(s, DoIntoInner(s, a), c)
  {
    SelfAway(s, c, Fault);
    DropAway(s, Strong(a), c);
    if Strong(a) in s.roots {
      UnwrapAway(s, a, c);
    }
  }

  lemma {:induction false} DropAway(s: State, h: Handle, c: set<Addr>)
    requires Island(s, c)
    ensures Untouched(s, DoDrop(s, h), c)
  {
    if h in s.roots {
      PushOpen(Lose(s, h), h);
      assert Open(DoDrop(s, h)) == Open(s);
    }
  }

  lemma {:induction false} OwnsAway(s: State, a: Addr, c: set<Addr>)
    requires Away(Open(s), c) && Owns(s, a)
    ensures a !in c
  {
    assert Strong(a) in Open(s) || Unique(a) in Open(s);
  }

  lemma {:induction false} GetMutAway(s: State, a: Addr, payload: int, c: set<Addr>)
    requires Island(s, c)
    ensures Untouched(s, DoGetMut(s, a, payload), c)
  {
    if Strong(a) in s.roots {
      assert Strong(a) in Open(s);
      if Alive(s, a) && s.blocks[a].slot.Init? {
        assert Away(Fields(s.blocks[a]), c);
        OutsideOnly(s, DoGetMut(s, a, payload), a, c);
      }
    }
  }

  lemma {:induction false} PutAway(s: State, a: Addr, h: Handle, c: set<Addr>)
    requires Island(s, c)
    ensures Untouched(s, DoPut(s, a, h), c)
  {
    if Movable(s, [h]) && Owns(Lose(s, h), a) {
      assert h in multiset([h]);
      assert Owns(s, a);
      OwnsAway(s, a, c);
      if Alive(s, a) && s.blocks[a].slot.Init? {
        var s2 := DoPut(s, a, h);
        assert Fields(s2.blocks[a]) == Fields(s.blocks[a]) + multiset{h};
        OutsideOnly(s, s2, a, c);
      }
    }
  }

  lemma {:induction false} TakeAway(s: State, a: Addr, h: Handle, c: set<Addr>)
    requires Island(s, c)
    ensures Untouched(s, DoTake(s, a, h), c)
  {
    if Owns(s, a) && Alive(s, a) && Holds(s.blocks[a], h) {
      OwnsAway(s, a, c);
      var s2 := DoTake(s, a, h);
      assert Fields(s.blocks[a]) == Fields(s2.blocks[a]) + multiset{h};
      assert Open(s2) == Open(s) + multiset{h};
      OutsideOnly(s, s2, a, c);
    }
  }

  lemma {:induction false} CopyAway(s: State, a: Addr, copy: Value, c: set<Addr>)
    requires Island(s, c) && Strong(a) in s.roots && multiset(copy.fields) <= Lose(s, Strong(a)).roots
    ensures var n := Strong(|s.blocks|);
      Untouched(s,
        Fresh(Spend(Lose(s, Strong(a)), copy.fields), 1, Init(copy), n).(stack := [Let(Strong(a))] + s.stack), c)
  {
    var s2 := Fresh(Spend(Lose(s, Strong(a)), copy.fields), 1, Init(copy), Strong(|s.blocks|));
    PushOpen(s2, Strong(a));
    assert Strong(a) in Open(s);
    assert Away(multiset(copy.fields), c);
    OutsideOnly(s, s2.(stack := [Let(Strong(a))] + s.stack), |s.blocks|, c);
  }

  lemma {:induction false} StealAway(s: State, a: Addr, b: Block, c: set<Addr>)
    requires Island(s, c) && Strong(a) in s.roots && a < |s.blocks| && !b.slot.Init?
    ensures Untouched(s, Fresh(Lose(Set(s, a, b), Strong(a)), 1, s.blocks[a].slot, Strong(|s.blocks|)), c)
  {
    assert Strong(a) in Open(s);
    assert Away(Fields(s.blocks[a]), c);
    OutsideOnly(s, Fresh(Lose(Set(s, a, b), Strong(a)), 1, s.blocks[a].slot, Strong(|s.blocks|)), a, c);
  }

  lemma {:induction false} SelfAway(s: State, c: set<Addr>, why: Status)
    requires Island(s, c)
    ensures Untouched(s, s, c) && Untouched(s, Halt(s, why), c)
  {
  }

  lemma {:induction false} MakeMutAway(s: State, a: Addr, fields: seq<Handle>, dtor: seq<Op>, c: set<Addr>)
    requires Island(s, c)
    ensures Untouched(s, DoMakeMut(s, a, fields, dtor), c)
  {
    var s2 := DoMakeMut(s, a, fields, dtor);
    SelfAway(s, c, Fault);
    if s2 != s && s2 != Halt(s, Fault) {
      if s.blocks[a].strong != 1 {
        CopyAway(s, a, Value(s.blocks[a].slot.v.payload, fields, dtor), c);
      } else {
        StealAway(s, a, Block(0, s.blocks[a].weak - 1, Moved, false), c);
      }
    }
  }

  lemma {:induction false} PerformAway(s: State, op: Op, c: set<Addr>)
    requires Island(s, c)
    ensures Untouched(s, Perform(s, op), c)
  {
    match op
    case New(v) => if Movable(s, v.fields) { NewAway(s, v, 1, Strong(|s.blocks|), c); }
    case NewUnique(v) => if Movable(s, v.fields) { NewAway(s, v, 0, Unique(|s.blocks|), c); }
    case IntoRc(a) => IntoRcAway(s, a, c);
    case CyclicBegin => OutsideOnly(s, Fresh(s, 0, Uninit, Cyclic(|s.blocks|)), |s.blocks|, c);
    case CyclicEnd(a, v) => CyclicEndAway(s, a, v, c);
    case Clone(h, p) => CloneAway(s, h, p, c);
    case Downgrade(h, p) => DowngradeAway(s, h, p, c);
    case Upgrade(h, p) => UpgradeAway(s, h, p, c);
    case Drop(h) => DropAway(s, h, c);
    case TryUnwrap(a) => MoveAway(s, a, c);
    case IntoInner(a) => MoveAway(s, a, c);
    case GetMut(a, payload) => GetMutAway(s, a, payload, c);
    case MakeMut(a, fields, dtor) => MakeMutAway(s, a, fields, dtor, c);
    case Put(a, h) => PutAway(s, a, h, c);
    case Take(a, h) => TakeAway(s, a, h, c);
  }

  lemma {:induction false} StepAway(s: State, c: set<Addr>)
    requires Island(s, c) && s.stack != []
    ensures Untouched(s, Step(s), c)
  {
    var r := s.(stack := s.stack[1..]);
    assert Open(s) == Open(r) + (if s.stack[0].Let? then multiset{s.stack[0].h} else multiset{});
    assert Island(r, c);
    if s.status.Running? {
      match s.stack[0]
      case Let(h) => ReleaseAway(r, h, c);
      case Do(op) => PerformAway(r, op, c);
    }
  }

  /** Whatever the program and the destructors do, the blocks of an island keep their values and their
    * counts for ever. */
  lemma {:induction false} IslandsStayForEver(s: State, c: set<Addr>, n: nat)
    requires Inv(s) && Island(s, c)
    ensures Island(After(s, n), c)
    ensures forall a :: a in c ==> After(s, n).blocks[a] == s.blocks[a]
    decreases n
  {
    if n != 0 && s.stack != [] {
      StepAway(s, c);
      StepKeeps(s);
      IslandsStayForEver(Step(s), c, n - 1);
    }
  }

  /** Each block of `c` is owned by the value of a block of `c`, as on a strong cycle. */
  ghost predicate Bound(s: State, c: set<Addr>)
    requires forall a :: a in c ==> a < |s.blocks|
  {
    forall a :: a in c ==> exists b :: b in c && Strong(a) in Fields(s.blocks[b])
  }

  lemma {:induction false} BoundIsCounted(s: State, c: set<Addr>, a: Addr)
    requires Inv(s) && s.status.Running? && Island(s, c) && Bound(s, c) && a in c
    ensures s.blocks[a].strong > 0 && s.blocks[a].slot.Init? && !s.blocks[a].freed
  {
    var b :| b in c && Strong(a) in Fields(s.blocks[b]);
    OwnedHas(s.blocks, b, Strong(a));
    assert Strong(a) in Held(s);
    HolderSees(s.blocks, Held(s), Strong(a));
  }

  /** So on a strong cycle that nobody outside points to, no value is ever destroyed and no block freed. */
  lemma {:induction false} CyclesLeak(s: State, c: set<Addr>, n: nat, a: Addr)
    requires Inv(s) && s.status.Running? && Island(s, c) && Bound(s, c) && a in c
    ensures var t := After(s, n);
      && a < |t.blocks| && t.blocks[a] == s.blocks[a] && a !in t.destroyed
      && t.blocks[a].strong > 0 && t.blocks[a].slot.Init? && !t.blocks[a].freed
  {
    BoundIsCounted(s, c, a);
    IslandsStayForEver(s, c, n);
    RunsKeep(s, n);
  }

  // ---------------------------------------------------------------- a program that leaks

  const ALONE := Value(7, [], [])
  const SELF := Value(7, [Strong(0)], [])

  /** A value that is given a strong handle to itself, and then left. */
  const PROGRAM := [New(ALONE), Clone(Strong(0), Local), Put(0, Strong(0)), Drop(Strong(0))]

  function One(strong: nat, v: Value, roots: multiset<Handle>, stack: seq<Task>): State {
    State([Block(strong, 1, Init(v), false)], roots, stack, [], Running)
  }

  lemma TaskList(a: Op, b: Op, c: Op, d: Op)
    ensures Dos([a, b, c, d]) == [Do(a), Do(b), Do(c), Do(d)]
  {
    assert [a, b, c, d][1..] == [b, c, d] && [b, c, d][1..] == [c, d] && [c, d][1..] == [d] && [d][1..] == [];
    assert Todo([], [], []) == [];
    assert Todo([d], [], []) == [Do(d)];
    assert Todo([c, d], [], []) == [Do(c), Do(d)];
    assert Todo([b, c, d], [], []) == [Do(b), Do(c), Do(d)];
  }

  lemma MakesAlone(s: State)
    requires s == EMPTY.(stack := [Do(PROGRAM[0]), Do(PROGRAM[1]), Do(PROGRAM[2]), Do(PROGRAM[3])])
    ensures Step(s) == One(1, ALONE, multiset{Strong(0)}, [Do(PROGRAM[1]), Do(PROGRAM[2]), Do(PROGRAM[3])])
  {
    assert s.stack[1..] == [Do(PROGRAM[1]), Do(PROGRAM[2]), Do(PROGRAM[3])];
  }

  lemma MakesTwo(s: State)
    requires s == One(1, ALONE, multiset{Strong(0)}, [Do(PROGRAM[1]), Do(PROGRAM[2]), Do(PROGRAM[3])])
    ensures Step(s) == One(2, ALONE, multiset{Strong(0), Strong(0)}, [Do(PROGRAM[2]), Do(PROGRAM[3])])
  {
    assert s.stack[1..] == [Do(PROGRAM[2]), Do(PROGRAM[3])];
    assert Strong(0) in Open(s.(stack := s.stack[1..]));
  }

  lemma StepsOn(s: State, s2: State)
    requires s.stack != [] && s2 == Step(s)
    ensures RunTo(s, 0) == RunTo(s2, 0)
  {
  }

  lemma MakesSelf() returns (s: State)
    ensures s == One(2, SELF, multiset{Strong(0)}, [Do(PROGRAM[3])]) && RunTo(Start(PROGRAM), 0) == RunTo(s, 0)
  {
    TaskList(PROGRAM[0], PROGRAM[1], PROGRAM[2], PROGRAM[3]);
    var s0 := Start(PROGRAM);
    MakesAlone(s0);
    var s1 := One(1, ALONE, multiset{Strong(0)}, [Do(PROGRAM[1]), Do(PROGRAM[2]), Do(PROGRAM[3])]);
    StepsOn(s0, s1);
    MakesTwo(s1);
    var s2 := One(2, ALONE, multiset{Strong(0), Strong(0)}, [Do(PROGRAM[2]), Do(PROGRAM[3])]);
    StepsOn(s1, s2);
    PutsSelf(s2);
    s := One(2, SELF, multiset{Strong(0)}, [Do(PROGRAM[3])]);
    StepsOn(s2, s);
  }

  lemma PutsSelf(s: State)
    requires s == One(2, ALONE, multiset{Strong(0), Strong(0)}, [Do(PROGRAM[2]), Do(PROGRAM[3])])
    ensures Step(s) == One(2, SELF, multiset{Strong(0)}, [Do(PROGRAM[3])])
  {
    var r := s.(stack := s.stack[1..]);
    assert Lose(r, Strong(0)).roots == multiset{Strong(0)};
    assert Owns(Lose(r, Strong(0)), 0);
    assert multiset([Strong(0)]) == multiset{Strong(0)} <= r.roots;
    assert ALONE.fields + [Strong(0)] == SELF.fields;
  }

  lemma Leaves(s: State)
    requires s == One(2, SELF, multiset{Strong(0)}, [Do(PROGRAM[3])])
    ensures RunTo(s, 0) == One(1, SELF, multiset{}, [])
  {
    var s1 := Step(s);
    assert s1.stack == [Let(Strong(0))];
    assert s1 == One(2, SELF, multiset{}, [Let(Strong(0))]);
    var s2 := Step(s1);
    assert s2 == One(1, SELF, multiset{}, []);
    assert RunTo(s2, 0) == s2;
    assert RunTo(s1, 0) == s2;
  }

  /** The program ends holding nothing, and its value lives on, on a cycle of its own. */
  lemma {:induction false} CycleIsLeft()
    ensures var t := RunTo(Start(PROGRAM), 0);
      && t.stack == [] && t.roots == multiset{} && Island(t, {0}) && Bound(t, {0}) && t.blocks[0].slot == Init(SELF)
  {
    var s := MakesSelf();
    Leaves(s);
    var t := RunTo(Start(PROGRAM), 0);
    assert Open(t) == multiset{};
    assert Strong(0) in Fields(t.blocks[0]);
  }
}

/** Every step of the `Rc` heap does some of the work there is, so every re-entrant drop ends: even in a
  * heap with cycles, and even if destructors run programs of their own. */
module RcRuns {
  import opened RcMachine
  import opened RcInvariant
  import opened RcSteps

  lemma {:induction false} DropSlowWorks(s: State, a: Addr)
    requires Alive(s, a) && s.blocks[a].slot.Init?
    ensures Work(DropSlow(s, a)) < Work(s)
  {
    var v := s.blocks[a].slot.v;
    TodoW(v.dtor, v.fields, [Let(Implicit(a))] + s.stack);
    assert ([Let(Implicit(a))] + s.stack)[1..] == s.stack;
    BlocksWSet(s.blocks, a, s.blocks[a].(slot := Dead));
  }

  lemma {:induction false} ReleaseWorks(s: State, h: Handle)
    ensures Work(Release(s, h)) < Work(s) || (Work(Release(s, h)) == Work(s) && Release(s, h).stack == s.stack)
  {
    if h.Dangling? || !Alive(s, h.at) {
    } else if h.Unique? {
      if s.blocks[h.at].slot.Init? { DropSlowWorks(s, h.at); }
    } else if h.Strong? {
      if s.blocks[h.at].strong > 0 {
        var s' := Set(s, h.at, s.blocks[h.at].(strong := s.blocks[h.at].strong - 1));
        BlocksWSet(s.blocks, h.at, s'.blocks[h.at]);
        if s'.blocks[h.at].strong == 0 && s'.blocks[h.at].slot.Init? { DropSlowWorks(s', h.at); }
      }
    } else if s.blocks[h.at].weak > 0 {
      BlocksWSet(s.blocks, h.at, DropWeak(s, h.at).blocks[h.at]);
    }
  }

  lemma {:induction false} FreshWorks(s: State, strong: nat, slot: Slot, h: Handle)
    ensures Work(Fresh(s, strong, slot, h)) == Work(s) + BlockW(Block(strong, 1, slot, false))
  {
    BlocksWPush(s.blocks, Block(strong, 1, slot, false));
  }

  lemma {:induction false} SetWorks(s: State, a: Addr, b: Block)
    requires a < |s.blocks|
    ensures Work(Set(s, a, b)) == Work(s) - BlockW(s.blocks[a]) + BlockW(b)
  {
    BlocksWSet(s.blocks, a, b);
  }

  lemma {:induction false} IncWorks(s: State, a: Addr)
    ensures Work(IncStrong(s, a)) == Work(s) && Work(IncWeak(s, a)) == Work(s)
  {
    if Alive(s, a) {
      if s.blocks[a].strong > 0 { SetWorks(s, a, s.blocks[a].(strong := WrappingInc(s.blocks[a].strong))); }
      if s.blocks[a].weak > 0 { SetWorks(s, a, s.blocks[a].(weak := WrappingInc(s.blocks[a].weak))); }
    }
  }

  lemma {:induction false} CloneWorks(s: State, h: Handle, p: Place)
    ensures Work(DoClone(s, h, p)) == Work(s)
  {
    if !h.Dangling? {
      IncWorks(s, h.at);
    }
  }

  lemma {:induction false} DowngradeWorks(s: State, h: Handle, p: Place)
    ensures Work(DoDowngrade(s, h, p)) == Work(s)
  {
    if !h.Dangling? {
      IncWorks(s, h.at);
    }
  }

  lemma {:induction false} UpgradeWorks(s: State, h: Handle, p: Place)
    ensures Work(DoUpgrade(s, h, p)) == Work(s)
  {
    if !h.Dangling? {
      IncWorks(s, h.at);
    }
  }

  lemma {:induction false} PublishWorks(s: State, a: Addr, v: Value)
    ensures Work(DoIntoRc(s, a)) <= Work(s)
    ensures Work(DoCyclicEnd(s, a, v)) <= Work(s) + 1 + OpsW(v.dtor)
  {
    if Alive(s, a) {
      SetWorks(s, a, s.blocks[a].(strong := 1));
      SetWorks(s, a, s.blocks[a].(strong := 1, slot := Init(v)));
    }
  }

  lemma {:induction false} MoveWorks(s: State, a: Addr)
    ensures Work(DoTryUnwrap(s, a)) <= Work(s)
    ensures Work(DoIntoInner(s, a)) <= Work(s)
  {
    if Alive(s, a) && s.blocks[a].strong > 0 {
      SetWorks(s, a, s.blocks[a].(strong := s.blocks[a].strong - 1, slot := Moved));
    }
    assert ([Let(Implicit(a))] + s.stack)[1..] == s.stack;
    assert ([Let(Strong(a))] + s.stack)[1..] == s.stack;
  }

  lemma {:induction false} EditWorks(s: State, a: Addr, payload: int, h: Handle)
    ensures Work(DoGetMut(s, a, payload)) == Work(s)
    ensures Work(DoPut(s, a, h)) == Work(s)
    ensures Work(DoTake(s, a, h)) == Work(s)
  {
    if Alive(s, a) && s.blocks[a].slot.Init? {
      var v := s.blocks[a].slot.v;
      SetWorks(s, a, s.blocks[a].(slot := Init(v.(payload := payload))));
      SetWorks(s, a, s.blocks[a].(slot := Init(v.(fields := v.fields + [h]))));
      if h in v.fields {
        SetWorks(s, a, s.blocks[a].(slot := Init(v.(fields := Without(v.fields, h)))));
      }
    }
  }

  lemma {:induction false} CopyWorks(s: State, a: Addr, copy: Value)
    ensures var n := Strong(|s.blocks|);
      Work(Fresh(Spend(Lose(s, Strong(a)), copy.fields), 1, Init(copy), n).(stack := [Let(Strong(a))] + s.stack))
      == Work(s) + 1 + OpsW(copy.dtor)
  {
    FreshWorks(Spend(Lose(s, Strong(a)), copy.fields), 1, Init(copy), Strong(|s.blocks|));
    assert ([Let(Strong(a))] + s.stack)[1..] == s.stack;
  }

  lemma {:induction false} StealWorks(s: State, a: Addr, b: Block)
    requires a < |s.blocks| && s.blocks[a].slot.Init? && b.slot.Moved?
    ensures Work(Fresh(Lose(Set(s, a, b), Strong(a)), 1, s.blocks[a].slot, Strong(|s.blocks|))) == Work(s)
  {
    SetWorks(s, a, b);
    FreshWorks(Lose(Set(s, a, b), Strong(a)), 1, s.blocks[a].slot, Strong(|s.blocks|));
  }

  lemma {:induction false} MakeMutWorks(s: State, a: Addr, fields: seq<Handle>, dtor: seq<Op>)
    ensures Work(DoMakeMut(s, a, fields, dtor)) <= Work(s) + 1 + OpsW(dtor)
  {
    if Alive(s, a) && s.blocks[a].slot.Init? {
      CopyWorks(s, a, Value(s.blocks[a].slot.v.payload, fields, dtor));
      if s.blocks[a].weak > 0 {
        StealWorks(s, a, Block(0, s.blocks[a].weak - 1, Moved, false));
      }
    }
  }

  lemma {:induction false} PerformWorks(s: State, op: Op)
    ensures Work(Perform(s, op)) < Work(s) + OpW(op)
  {
    match op
    case New(v) => FreshWorks(Spend(s, v.fields), 1, Init(v), Strong(|s.blocks|));
    case NewUnique(v) => FreshWorks(Spend(s, v.fields), 0, Init(v), Unique(|s.blocks|));
    case IntoRc(a) => PublishWorks(s, a, Value(0, [], []));
    case CyclicBegin => FreshWorks(s, 0, Uninit, Cyclic(|s.blocks|));
    case CyclicEnd(a, v) => PublishWorks(s, a, v);
    case Clone(h, p) => CloneWorks(s, h, p);
    case Downgrade(h, p) => DowngradeWorks(s, h, p);
    case Upgrade(h, p) => UpgradeWorks(s, h, p);
    case Drop(h) => assert ([Let(h)] + s.stack)[1..] == s.stack;
    case TryUnwrap(a) => MoveWorks(s, a);
    case IntoInner(a) => MoveWorks(s, a);
    case GetMut(a, payload) => EditWorks(s, a, payload, Dangling);
    case MakeMut(a, fields, dtor) => MakeMutWorks(s, a, fields, dtor);
    case Put(a, h) => EditWorks(s, a, 0, h);
    case Take(a, h) => EditWorks(s, a, 0, h);
  }

  /** Every step leaves less work, or the same work and a shorter stack. */
  lemma {:induction false} StepWorks(s: State)
    requires s.stack != []
    ensures Work(Step(s)) < Work(s) || (Work(Step(s)) == Work(s) && |Step(s).stack| < |s.stack|)
  {
    var r := s.(stack := s.stack[1..]);
    match s.stack[0]
    case Let(h) =>
      assert Work(s) == Work(r);
      ReleaseWorks(r, h);
    case Do(op) =>
      assert Work(s) == Work(r) + OpW(op);
      PerformWorks(r, op);
  }

  // ---------------------------------------------------------------- runs

  /** Runs until only the bottom `d` tasks are left: the whole of a call, with everything it sets off. */
  function RunTo(s: State, d: nat): State
    decreases Work(s), |s.stack|
  {
    if |s.stack| <= d then s else StepWorks(s); RunTo(Step(s), d)
  }

  /** The state after `n` steps of a run. */
  function After(s: State, n: nat): State
    decreases n
  {
    if n == 0 || s.stack == [] then s else After(Step(s), n - 1)
  }

  function Dos(ops: seq<Op>): seq<Task> {
    Todo(ops, [], [])
  }

  /** A program, from an empty heap. */
  function Start(program: seq<Op>): State {
    EMPTY.(stack := Dos(program))
  }

  /** A step leaves what is below the top of the stack alone. */
  lemma {:induction false} StepBottom(s: State)
    requires s.stack != []
    ensures |Step(s).stack| >= |s.stack| - 1
    ensures Step(s).stack[|Step(s).stack| - (|s.stack| - 1)..] == s.stack[1..]
  {
    var r := s.(stack := s.stack[1..]);
    if s.status.Running? {
      match s.stack[0]
      case Let(h) => ReleaseBottom(r, h);
      case Do(op) => PerformBottom(r, op);
    }
  }

  ghost predicate Above(s: State, s2: State) {
    |s2.stack| >= |s.stack| && s2.stack[|s2.stack| - |s.stack|..] == s.stack
  }

  lemma {:induction false} DropStrongBottom(s: State, a: Addr)
    ensures Above(s, DropStrong(s, a))
  {
    if Alive(s, a) && s.blocks[a].strong > 0 {
      DropSlowBottom(Set(s, a, s.blocks[a].(strong := s.blocks[a].strong - 1)), a);
    }
  }

  lemma {:induction false} ReleaseBottom(s: State, h: Handle)
    ensures Above(s, Release(s, h))
  {
    match h
    case Strong(a) => DropStrongBottom(s, a);
    case Unique(a) => DropSlowBottom(s, a);
    case WeakTo(a) => assert DropWeak(s, a).stack == s.stack;
    case Cyclic(a) => assert DropWeak(s, a).stack == s.stack;
    case Implicit(a) => assert DropWeak(s, a).stack == s.stack;
    case Dangling =>
  }

  lemma EndsInEnd(q: seq<Task>, u: seq<Task>, rest: seq<Task>)
    requires |rest| <= |u| <= |q| && q[|q| - |u|..] == u && u[|u| - |rest|..] == rest
    ensures q[|q| - |rest|..] == rest
  {
  }

  lemma TodoBottom(q: seq<Task>, t: Task, rest: seq<Task>)
    requires |q| >= |rest| + 1 && q[|q| - (|rest| + 1)..] == [t] + rest
    ensures q[|q| - |rest|..] == rest
  {
    var u := [t] + rest;
    assert u[1..] == rest;
    EndsInEnd(q, u, rest);
  }

  lemma {:induction false} DropSlowBottom(s: State, a: Addr)
    ensures Above(s, DropSlow(s, a))
  {
    if Alive(s, a) && s.blocks[a].slot.Init? {
      TodoBottom(DropSlow(s, a).stack, Let(Implicit(a)), s.stack);
    }
  }

  lemma {:induction false} MoveBottom(s: State, op: Op)
    requires op.Drop? || op.TryUnwrap? || op.IntoInner? || op.MakeMut?
    ensures Above(s, Perform(s, op))
  {
    var q := Perform(s, op).stack;
    assert q != s.stack ==> q[1..] == s.stack;
  }

  lemma {:induction false} PerformBottom(s: State, op: Op)
    ensures Above(s, Perform(s, op))
  {
    if op.Drop? || op.TryUnwrap? || op.IntoInner? || op.MakeMut? {
      MoveBottom(s, op);
    } else {
      assert Perform(s, op).stack == s.stack;
    }
  }

  lemma Suffix(q: seq<Task>, t: seq<Task>, d: nat)
    requires d <= |t| <= |q| && q[|q| - |t|..] == t
    ensures q[|q| - d..] == t[|t| - d..]
  {
  }

  lemma {:induction false} RunBottom(s: State, d: nat)
    requires d <= |s.stack|
    ensures RunTo(s, d).stack == s.stack[|s.stack| - d..]
    decreases Work(s), |s.stack|
  {
    if |s.stack| > d {
      StepWorks(s);
      StepBottom(s);
      Suffix(Step(s).stack, s.stack[1..], d);
      Suffix(s.stack, s.stack[1..], d);
      RunBottom(Step(s), d);
    }
  }

  /** A call runs inside the call that made it. */
  lemma {:induction false} RunSplit(s: State, d1: nat, d: nat)
    requires d <= d1
    ensures RunTo(RunTo(s, d1), d) == RunTo(s, d)
    decreases Work(s), |s.stack|
  {
    if |s.stack| > d1 {
      StepWorks(s);
      RunSplit(Step(s), d1, d);
    }
  }

  lemma {:induction false} RunKeeps(s: State, d: nat)
    requires Inv(s)
    ensures Inv(RunTo(s, d))
    ensures Work(RunTo(s, d)) <= Work(s)
    decreases Work(s), |s.stack|
  {
    if |s.stack| > d {
      StepWorks(s);
      StepKeeps(s);
      RunKeeps(Step(s), d);
    }
  }

  // ---------------------------------------------------------------- calls

  function Pushed(s: State, t: Task): State {
    s.(stack := [t] + s.stack)
  }

  lemma {:induction false} PushedStep(s: State, t: Task)
    ensures Step(Pushed(s, t)) == Exec(s, t)
  {
    assert ([t] + s.stack)[1..] == s.stack;
    assert s.(stack := s.stack) == s;
  }

  /** A call that has carried out the task on top of the stack, with all that it set off, leaves the rest
    * of the stack, and the run continues as if it had been the machine's own. */
  lemma {:induction false} Called(r: State, t: Task, after: State, d: nat)
    requires Inv(Pushed(r, t)) && d <= |r.stack|
    requires after == RunTo(Exec(r, t), |r.stack|)
    ensures Inv(after) && after.stack == r.stack
    ensures RunTo(after, d) == RunTo(Pushed(r, t), d)
    ensures Work(after) <= Work(Pushed(r, t))
  {
    var p := Pushed(r, t);
    PushedStep(r, t);
    StepWorks(p);
    StepKeeps(p);
    StepBottom(p);
    assert p.stack[1..] == r.stack;
    RunKeeps(Step(p), |p.stack| - 1);
    RunBottom(Step(p), |p.stack| - 1);
    RunSplit(Step(p), |p.stack| - 1, d);
  }

  lemma {:induction false} ImplicitDropped(r: State, a: Addr)
    requires r.status.Running? && Tally(r.blocks, Held(r) + multiset{Implicit(a)}) && Logged(r)
    ensures Alive(r, a) && r.blocks[a].weak > 0
    ensures Inv(DropWeak(r, a)) && DropWeak(r, a).status.Running?
    ensures DropWeak(r, a).stack == r.stack
  {
    WeakDown(r.blocks, Held(r), Implicit(a));
    DropWeakSound(r, Implicit(a), a);
  }

  lemma UnwrapPushed(s: State, a: Addr)
    requires s.status.Running? && Alive(s, a) && s.blocks[a].strong == 1 && s.blocks[a].slot.Init?
    ensures var r := Unwrap(s, a).(stack := s.stack);
      && Pushed(r, Let(Implicit(a))) == Unwrap(s, a)
      && Exec(r, Let(Implicit(a))) == DropWeak(r, a)
  {
  }

  lemma {:induction false} UnwrapReady(s: State, a: Addr)
    requires Inv(s) && s.status.Running? && Strong(a) in s.roots && Alive(s, a) && s.blocks[a].strong == 1
    ensures s.blocks[a].slot.Init?
    ensures var r := Unwrap(s, a).(stack := s.stack);
      r.status.Running? && Logged(r) && Tally(r.blocks, Held(r) + multiset{Implicit(a)})
  {
    StrongCounted(s, a);
    UnwrapSound(s, a);
    UnwrapMild(s, a);
    PushHeld(Unwrap(s, a).(stack := s.stack), Implicit(a));
  }

  /** Moving a value out ends with the drop of the made-up `Weak`, which sets nothing else off. */
  lemma {:induction false} UnwrapRun(s: State, a: Addr)
    requires Inv(s) && s.status.Running? && Strong(a) in s.roots && Alive(s, a) && s.blocks[a].strong == 1
    ensures s.blocks[a].slot.Init?
    ensures var r := Unwrap(s, a).(stack := s.stack);
      && Alive(r, a) && r.blocks[a].weak > 0
      && RunTo(Unwrap(s, a), |s.stack|) == DropWeak(r, a)
      && Inv(DropWeak(r, a)) && DropWeak(r, a).status.Running?
  {
    StrongCounted(s, a);
    var r := Unwrap(s, a).(stack := s.stack);
    UnwrapReady(s, a);
    ImplicitDropped(r, a);
    UnwrapPushed(s, a);
    PushedRuns(r, Let(Implicit(a)));
  }

  lemma {:induction false} Popped(p: State)
    requires p.stack != []
    ensures var r := p.(stack := p.stack[1..]);
      && Pushed(r, p.stack[0]) == p
      && Work(p) == Work(r) + (if p.stack[0].Do? then OpW(p.stack[0].op) else 0)
  {
    assert [p.stack[0]] + p.stack[1..] == p.stack;
  }

  lemma {:induction false} StrongCounted(s: State, a: Addr)
    requires Inv(s) && s.status.Running? && Strong(a) in s.roots
    ensures Alive(s, a) && s.blocks[a].slot.Init? && s.blocks[a].strong == Held(s)[Strong(a)] > 0
    ensures s.blocks[a].weak > 0
  {
    assert Strong(a) in Held(s);
    HolderSees(s.blocks, Held(s), Strong(a));
    assert Good(s.blocks[a], Held(s), a);
  }

  lemma {:induction false} OpOwnsNothing(s: State, op: Op)
    ensures Inv(s) <==> Inv(Pushed(s, Do(op)))
  {
    assert ([Do(op)] + s.stack)[1..] == s.stack;
    assert Held(Pushed(s, Do(op))) == Held(s);
  }

  lemma {:induction false} PushedRuns(s: State, t: Task)
    ensures RunTo(Pushed(s, t), |s.stack|) == RunTo(Exec(s, t), |s.stack|)
  {
    PushedStep(s, t);
    StepWorks(Pushed(s, t));
    assert RunTo(Pushed(s, t), |s.stack|) == RunTo(Step(Pushed(s, t)), |s.stack|);
  }

  lemma {:induction false} RootSees(s: State, h: Handle)
    requires Inv(s) && s.status.Running? && h in s.roots && !h.Dangling?
    ensures Alive(s, h.at)
    ensures h.Unique? || h.Cyclic? ==> s.blocks[h.at].strong == 0
  {
    assert h in Held(s);
    HolderSees(s.blocks, Held(s), h);
  }

  lemma {:induction false} OwnerSees(s: State, s1: State, a: Addr)
    requires Inv(s) && s.status.Running? && Owns(s1, a) && Open(s1) <= Open(s)
    ensures Alive(s, a) && s.blocks[a].slot.Init?
  {
    assert Owns(s, a);
    OwnerHeld(s, a);
  }

  lemma {:induction false} DropRuns(s: State, h: Handle)
    requires Inv(s) && s.status.Running? && h in s.roots
    ensures Pushed(Lose(s, h), Let(h)) == DoDrop(s, h) && Inv(DoDrop(s, h))
    ensures RunTo(DoDrop(s, h), |s.stack|) == RunTo(Exec(Lose(s, h), Let(h)), |s.stack|)
    ensures Work(Lose(s, h)) == Work(s)
  {
    PushedRuns(Lose(s, h), Let(h));
    DropSound(s, h);
  }

  lemma {:induction false} CopyRuns(s: State, a: Addr, fields: seq<Handle>, dtor: seq<Op>)
    requires Inv(s) && s.status.Running? && Strong(a) in s.roots && Movable(Lose(s, Strong(a)), fields)
    requires Alive(s, a) && s.blocks[a].slot.Init? && s.blocks[a].strong != 1
    ensures var x := DoMakeMut(s, a, fields, dtor);
      && Inv(x) && x.stack == [Let(Strong(a))] + s.stack
      && RunTo(x, |s.stack|) == RunTo(Exec(x.(stack := s.stack), Let(Strong(a))), |s.stack|)
      && Work(x.(stack := s.stack)) == Work(s) + 1 + OpsW(dtor)
  {
    var x := DoMakeMut(s, a, fields, dtor);
    PushedRuns(x.(stack := s.stack), Let(Strong(a)));
    MakeMutSound(s, a, fields, dtor);
    MakeMutMild(s, a, fields, dtor);
    FreshWorks(Spend(Lose(s, Strong(a)), fields), 1, Init(Value(s.blocks[a].slot.v.payload, fields, dtor)),
      Strong(|s.blocks|));
  }

  lemma StealIs(s: State, a: Addr, fields: seq<Handle>, dtor: seq<Op>)
    requires Strong(a) in s.roots && Movable(Lose(s, Strong(a)), fields)
    requires Alive(s, a) && s.blocks[a].slot.Init? && s.blocks[a].strong == 1 && s.blocks[a].weak > 1
    ensures DoMakeMut(s, a, fields, dtor) == s.(
      blocks := s.blocks[a := Block(0, s.blocks[a].weak - 1, Moved, false)] + [Block(1, 1, s.blocks[a].slot, false)],
      roots := s.roots - multiset{Strong(a)} + multiset{Strong(|s.blocks|)})
  {
  }

  lemma {:induction false} StealKeeps(s: State, a: Addr, fields: seq<Handle>, dtor: seq<Op>)
    requires Inv(s) && s.status.Running?
    requires DoMakeMut(s, a, fields, dtor).stack == s.stack
    ensures Inv(DoMakeMut(s, a, fields, dtor))
    ensures RunTo(DoMakeMut(s, a, fields, dtor), |s.stack|) == DoMakeMut(s, a, fields, dtor)
  {
    MakeMutSound(s, a, fields, dtor);
    MakeMutMild(s, a, fields, dtor);
  }

  lemma {:induction false} AloneCounted(s: State, a: Addr)
    requires Inv(s) && s.status.Running? && Strong(a) in s.roots
    ensures Alive(s, a) && s.blocks[a].slot.Init? && s.blocks[a].strong > 0 && s.blocks[a].weak > 0
    ensures s.blocks[a].strong == Held(s)[Strong(a)]
    ensures s.blocks[a].weak == Held(s)[WeakTo(a)] + 1
  {
    StrongCounted(s, a);
    assert Good(s.blocks[a], Held(s), a);
  }

  lemma {:induction false} StartKeeps(program: seq<Op>)
    ensures Inv(Start(program))
  {
    TodoPending(program, [], []);
    assert Held(Start(program)) == multiset{};
  }

  /** Whoever holds a handle may drop it: the block is there, and if it is an owner so is the value. */
  lemma {:induction false} HandleSees(s: State, h: Handle)
    requires Inv(Pushed(s, Let(h))) && s.status.Running? && !h.Dangling?
    ensures Alive(s, h.at) && s.blocks[h.at].weak > 0
    ensures h.Strong? ==> s.blocks[h.at].strong > 0
    ensures h.Strong? || h.Unique? ==> s.blocks[h.at].slot.Init?
  {
    PushHeld(s, h);
    HolderSees(s.blocks, Held(s) + multiset{h}, h);
  }

  /** A handle the program can reach leads to a block that is there. */
  lemma {:induction false} FoundSees(s: State, h: Handle, p: Place)
    requires Inv(s) && s.status.Running? && Found(s, h, p) && !h.Dangling?
    ensures Alive(s, h.at) && s.blocks[h.at].weak > 0
    ensures h.Strong? ==> s.blocks[h.at].strong > 0
    ensures s.blocks[h.at].strong > 0 <==> Strong(h.at) in Held(s)
  {
    FoundHeld(s, h, p);
    HolderSees(s.blocks, Held(s), h);
    assert Good(s.blocks[h.at], Held(s), h.at);
  }
}

/** What becomes of the values: each step of the `Rc` heap changes just the value its task names, and as it says. */
module RcValues {
  import opened Basics
  import opened RcMachine
  import opened RcInvariant
  import opened RcSteps
  import opened RcRuns
  import opened RcTheorems

  /** The task releases the last owner of block `b`. */
  predicate Destroys(r: State, h: Handle, b: Addr)
    requires b < |r.blocks|
  {
    (h == Strong(b) && r.blocks[b].strong == 1) || h == Unique(b)
  }

  /** The operation takes the value out of block `b`: the only strong handle is unwrapped, or `make_mut` leaves the
    * block to its `Weak`s. */
  predicate TakesOut(r: State, op: Op, b: Addr)
    requires b < |r.blocks|
  {
    && Strong(b) in r.roots && r.blocks[b].strong == 1
    && match op
      case TryUnwrap(a) => a == b
      case IntoInner(a) => a == b
      case MakeMut(a, fields, _) => a == b && Movable(Lose(r, Strong(a)), fields) && r.blocks[b].weak != 1
      case _ => false
  }

  /** What operation `op` makes of a value `v` that it does not take out. */
  predicate Edited(r: State, op: Op, b: Addr, v: Value, w: Value)
    requires b < |r.blocks|
  {
    if op.GetMut? && op.a == b && Strong(b) in r.roots && r.blocks[b].strong == 1 && r.blocks[b].weak == 1 then
      w == Value(op.payload, v.fields, v.dtor)
    else if op.Put? && op.a == b && Movable(r, [op.h]) && Owns(Lose(r, op.h), b) then
      w == Value(v.payload, v.fields + [op.h], v.dtor)
    else if op.Take? && op.a == b && Owns(r, b) && op.h in v.fields then
      w.payload == v.payload && w.dtor == v.dtor && multiset(w.fields) + multiset{op.h} == multiset(v.fields)
    else
      w == v
  }

  /** What becomes of the slot of block `b` when task `t` is carried out in `r`. */
  predicate Becomes(r: State, t: Task, b: Addr, y: Slot)
    requires b < |r.blocks|
  {
    match r.blocks[b].slot
    case Init(v) =>
      if t.Let? then (if Destroys(r, t.h, b) then y == Dead else y == Init(v))
      else if TakesOut(r, t.op, b) then y == Moved
      else y.Init? && Edited(r, t.op, b, v, y.v)
    case Uninit =>
      if t.Do? && t.op.CyclicEnd? && t.op.a == b && Cyclic(b) in r.roots && Movable(Lose(r, Cyclic(b)), t.op.v.fields)
      then y == Init(t.op.v)
      else y == Uninit
    case Dead => y == Dead
    case Moved => y == Moved
  }

  /** The slots of the blocks that task `t` makes in `r`: one with the value it was given, copied or moved. */
  function Made(r: State, t: Task): seq<Slot> {
    match t
    case Let(_) => []
    case Do(op) =>
      match op
      case New(v) => if Movable(r, v.fields) then [Init(v)] else []
      case NewUnique(v) => if Movable(r, v.fields) then [Init(v)] else []
      case CyclicBegin => [Uninit]
      case MakeMut(a, fields, dtor) =>
        if Strong(a) !in r.roots || !Movable(Lose(r, Strong(a)), fields) || a >= |r.blocks| || !r.blocks[a].slot.Init?
        then []
        else if r.blocks[a].strong != 1 then [Init(Value(r.blocks[a].slot.v.payload, fields, dtor))]
        else if r.blocks[a].weak != 1 then [r.blocks[a].slot]
        else []
      case _ => []
  }

  ghost predicate Lawful(r: State, t: Task, s2: State) {
    && |s2.blocks| == |r.blocks| + |Made(r, t)|
    && (forall b :: 0 <= b < |r.blocks| ==> Becomes(r, t, b, s2.blocks[b].slot))
    && (forall i :: 0 <= i < |Made(r, t)| ==> s2.blocks[|r.blocks| + i].slot == Made(r, t)[i])
  }

  // ---------------------------------------------------------------- tasks that leave every value alone

  predicate Leaves(op: Op) {
    op.New? || op.NewUnique? || op.IntoRc? || op.CyclicBegin? || op.Clone? || op.Downgrade? || op.Upgrade? || op.Drop?
  }

  ghost predicate SameSlots(r: State, s2: State) {
    |r.blocks| <= |s2.blocks| && forall b :: 0 <= b < |r.blocks| ==> s2.blocks[b].slot == r.blocks[b].slot
  }

  lemma LeftAlone(r: State, op: Op, b: Addr)
    requires Leaves(op) && b < |r.blocks|
    ensures Becomes(r, Do(op), b, r.blocks[b].slot)
  {
  }

  lemma LeavesLawful(r: State, op: Op, s2: State)
    requires Leaves(op) && SameSlots(r, s2) && |s2.blocks| == |r.blocks| + |Made(r, Do(op))|
    requires forall i :: 0 <= i < |Made(r, Do(op))| ==> s2.blocks[|r.blocks| + i].slot == Made(r, Do(op))[i]
    ensures Lawful(r, Do(op), s2)
  {
    forall b | 0 <= b < |r.blocks| ensures Becomes(r, Do(op), b, s2.blocks[b].slot) {
      LeftAlone(r, op, b);
    }
  }

  lemma FreshSlots(r: State, strong: nat, slot: Slot, h: Handle)
    ensures SameSlots(r, Fresh(r, strong, slot, h)) && |Fresh(r, strong, slot, h).blocks| == |r.blocks| + 1
    ensures Fresh(r, strong, slot, h).blocks[|r.blocks|].slot == slot
  {
  }

  lemma IncSlots(r: State, a: Addr)
    ensures SameSlots(r, IncStrong(r, a)) && |IncStrong(r, a).blocks| == |r.blocks|
    ensures SameSlots(r, IncWeak(r, a)) && |IncWeak(r, a).blocks| == |r.blocks|
  {
  }

  lemma IntoRcSlots(r: State, a: Addr)
    ensures SameSlots(r, DoIntoRc(r, a)) && |DoIntoRc(r, a).blocks| == |r.blocks|
  {
  }

  lemma CloneSlots(r: State, h: Handle, p: Place)
    ensures SameSlots(r, DoClone(r, h, p)) && |DoClone(r, h, p).blocks| == |r.blocks|
  {
    if !h.Dangling? { IncSlots(r, h.at); }
  }

  lemma DowngradeSlots(r: State, h: Handle, p: Place)
    ensures SameSlots(r, DoDowngrade(r, h, p)) && |DoDowngrade(r, h, p).blocks| == |r.blocks|
  {
    if !h.Dangling? { IncSlots(r, h.at); }
  }

  lemma UpgradeSlots(r: State, h: Handle, p: Place)
    ensures SameSlots(r, DoUpgrade(r, h, p)) && |DoUpgrade(r, h, p).blocks| == |r.blocks|
  {
    if !h.Dangling? { IncSlots(r, h.at); }
  }

  lemma NewLawful(r: State, v: Value)
    ensures Lawful(r, Do(New(v)), Perform(r, New(v))) && Lawful(r, Do(NewUnique(v)), Perform(r, NewUnique(v)))
  {
    var q := Spend(r, v.fields);
    FreshSlots(q, 1, Init(v), Strong(|r.blocks|));
    FreshSlots(q, 0, Init(v), Unique(|r.blocks|));
    LeavesLawful(r, New(v), Perform(r, New(v)));
    LeavesLawful(r, NewUnique(v), Perform(r, NewUnique(v)));
  }

  lemma LeavingLawful(r: State, op: Op)
    requires Leaves(op)
    ensures Lawful(r, Do(op), Perform(r, op))
  {
    match op
    case New(v) => NewLawful(r, v);
    case NewUnique(v) => NewLawful(r, v);
    case IntoRc(a) =>
      IntoRcSlots(r, a);
      LeavesLawful(r, op, DoIntoRc(r, a));
    case CyclicBegin =>
      FreshSlots(r, 0, Uninit, Cyclic(|r.blocks|));
      LeavesLawful(r, op, Fresh(r, 0, Uninit, Cyclic(|r.blocks|)));
    case Clone(h, p) =>
      CloneSlots(r, h, p);
      LeavesLawful(r, op, DoClone(r, h, p));
    case Downgrade(h, p) =>
      DowngradeSlots(r, h, p);
      LeavesLawful(r, op, DoDowngrade(r, h, p));
    case Upgrade(h, p) =>
      UpgradeSlots(r, h, p);
      LeavesLawful(r, op, DoUpgrade(r, h, p));
    case Drop(h) =>
      LeavesLawful(r, op, DoDrop(r, h));
  }

  // ---------------------------------------------------------------- the others

  lemma StrongBecomes(r: State, a: Addr, b: Addr)
    requires Alive(r, a) && r.blocks[a].strong > 0 && r.blocks[a].slot.Init? && b < |r.blocks|
    ensures |DropStrong(r, a).blocks| == |r.blocks| && Becomes(r, Let(Strong(a)), b, DropStrong(r, a).blocks[b].slot)
  {
  }

  lemma UniqueBecomes(r: State, a: Addr, b: Addr)
    requires Alive(r, a) && r.blocks[a].slot.Init? && b < |r.blocks|
    ensures |DropSlow(r, a).blocks| == |r.blocks| && Becomes(r, Let(Unique(a)), b, DropSlow(r, a).blocks[b].slot)
  {
  }

  lemma WeakBecomes(r: State, h: Handle, b: Addr)
    requires h.WeakTo? || h.Cyclic? || h.Implicit? || h.Dangling?
    requires b < |r.blocks|
    ensures |Release(r, h).blocks| == |r.blocks| && Becomes(r, Let(h), b, Release(r, h).blocks[b].slot)
  {
  }

  lemma {:induction false} ReleaseBecomes(r: State, h: Handle, b: Addr)
    requires r.status.Running? && Tally(r.blocks, Held(r) + multiset{h}) && b < |r.blocks|
    ensures |Release(r, h).blocks| == |r.blocks| && Becomes(r, Let(h), b, Release(r, h).blocks[b].slot)
  {
    if h.Strong? {
      StrongDown(r.blocks, Held(r), h.at);
      StrongBecomes(r, h.at, b);
    } else if h.Unique? {
      UniqueLast(r.blocks, Held(r), h.at);
      UniqueBecomes(r, h.at, b);
    } else {
      WeakBecomes(r, h, b);
    }
  }

  lemma ReleaseLength(r: State, h: Handle)
    ensures |Release(r, h).blocks| == |r.blocks|
  {
  }

  lemma {:induction false} ReleaseLawful(r: State, h: Handle)
    requires r.status.Running? && Tally(r.blocks, Held(r) + multiset{h})
    ensures Lawful(r, Let(h), Release(r, h))
  {
    ReleaseLength(r, h);
    forall b | 0 <= b < |r.blocks| ensures Becomes(r, Let(h), b, Release(r, h).blocks[b].slot) {
      ReleaseBecomes(r, h, b);
    }
  }

  lemma {:induction false} RootLives(r: State, h: Handle)
    requires Ready(r) && h in r.roots && !h.Dangling?
    ensures Alive(r, h.at)
    ensures h.Strong? ==> r.blocks[h.at].strong > 0 && r.blocks[h.at].slot.Init? && r.blocks[h.at].weak > 0
    ensures h.Cyclic? ==> r.blocks[h.at].strong == 0 && r.blocks[h.at].slot.Uninit?
  {
    assert h in Held(r);
    HolderSees(r.blocks, Held(r), h);
  }

  lemma {:induction false} CyclicEndBecomes(r: State, a: Addr, v: Value, b: Addr)
    requires Ready(r) && b < |r.blocks|
    ensures |DoCyclicEnd(r, a, v).blocks| == |r.blocks|
    ensures Becomes(r, Do(CyclicEnd(a, v)), b, DoCyclicEnd(r, a, v).blocks[b].slot)
  {
    if Cyclic(a) in r.roots { RootLives(r, Cyclic(a)); }
  }

  lemma UnwrapBecomes(r: State, a: Addr, op: Op, b: Addr)
    requires op == IntoInner(a) || op == TryUnwrap(a)
    requires Alive(r, a) && r.blocks[a].strong == 1 && r.blocks[a].slot.Init? && Strong(a) in r.roots && b < |r.blocks|
    ensures |Unwrap(r, a).blocks| == |r.blocks| && Becomes(r, Do(op), b, Unwrap(r, a).blocks[b].slot)
  {
  }

  lemma KeptBecomes(r: State, a: Addr, b: Addr)
    requires b < |r.blocks| && (Strong(a) !in r.roots || (a < |r.blocks| && r.blocks[a].strong != 1))
    ensures Becomes(r, Do(IntoInner(a)), b, r.blocks[b].slot) && Becomes(r, Do(TryUnwrap(a)), b, r.blocks[b].slot)
  {
  }

  lemma {:induction false} TryUnwrapBecomes(r: State, a: Addr, b: Addr)
    requires Ready(r) && b < |r.blocks|
    ensures |DoTryUnwrap(r, a).blocks| == |r.blocks|
    ensures Becomes(r, Do(TryUnwrap(a)), b, DoTryUnwrap(r, a).blocks[b].slot)
  {
    if Strong(a) in r.roots { RootLives(r, Strong(a)); }
    if Strong(a) in r.roots && r.blocks[a].strong == 1 {
      UnwrapBecomes(r, a, TryUnwrap(a), b);
    } else {
      KeptBecomes(r, a, b);
    }
  }

  lemma {:induction false} IntoInnerBecomes(r: State, a: Addr, b: Addr)
    requires Ready(r) && b < |r.blocks|
    ensures |DoIntoInner(r, a).blocks| == |r.blocks|
    ensures Becomes(r, Do(IntoInner(a)), b, DoIntoInner(r, a).blocks[b].slot)
  {
    if Strong(a) in r.roots { RootLives(r, Strong(a)); }
    if Strong(a) in r.roots && r.blocks[a].strong == 1 {
      UnwrapBecomes(r, a, IntoInner(a), b);
    } else {
      KeptBecomes(r, a, b);
      assert DoIntoInner(r, a).blocks == r.blocks;
    }
  }

  lemma {:induction false} GetMutBecomes(r: State, a: Addr, payload: int, b: Addr)
    requires Ready(r) && b < |r.blocks|
    ensures |DoGetMut(r, a, payload).blocks| == |r.blocks|
    ensures Becomes(r, Do(GetMut(a, payload)), b, DoGetMut(r, a, payload).blocks[b].slot)
  {
    if Strong(a) in r.roots { RootLives(r, Strong(a)); }
  }

  lemma {:induction false} PutBecomes(r: State, a: Addr, h: Handle, b: Addr)
    requires Ready(r) && b < |r.blocks|
    ensures |DoPut(r, a, h).blocks| == |r.blocks|
    ensures Becomes(r, Do(Put(a, h)), b, DoPut(r, a, h).blocks[b].slot)
  {
    if Owns(Lose(r, h), a) {
      assert Owns(r, a);
      OwnerHeld(r, a);
    }
  }

  lemma {:induction false} TakeBecomes(r: State, a: Addr, h: Handle, b: Addr)
    requires Ready(r) && b < |r.blocks|
    ensures |DoTake(r, a, h).blocks| == |r.blocks|
    ensures Becomes(r, Do(Take(a, h)), b, DoTake(r, a, h).blocks[b].slot)
  {
    if Owns(r, a) { OwnerHeld(r, a); }
  }

  /** An operation that may change, or take out, the value of a block. */
  predicate Handles(op: Op) { !Leaves(op) && !op.MakeMut? }

  lemma {:induction false} HandlesBecomes(r: State, op: Op, b: Addr)
    requires Ready(r) && Handles(op) && b < |r.blocks|
    ensures |Perform(r, op).blocks| == |r.blocks| && Becomes(r, Do(op), b, Perform(r, op).blocks[b].slot)
  {
    match op
    case CyclicEnd(a, v) => CyclicEndBecomes(r, a, v, b);
    case TryUnwrap(a) => TryUnwrapBecomes(r, a, b);
    case IntoInner(a) => IntoInnerBecomes(r, a, b);
    case GetMut(a, payload) => GetMutBecomes(r, a, payload, b);
    case Put(a, h) => PutBecomes(r, a, h, b);
    case Take(a, h) => TakeBecomes(r, a, h, b);
  }

  lemma GetMutLength(r: State, a: Addr, payload: int)
    ensures |DoGetMut(r, a, payload).blocks| == |r.blocks|
  {
  }

  lemma PutLength(r: State, a: Addr, h: Handle)
    ensures |DoPut(r, a, h).blocks| == |r.blocks|
  {
  }

  lemma TakeLength(r: State, a: Addr, h: Handle)
    ensures |DoTake(r, a, h).blocks| == |r.blocks|
  {
  }

  lemma MoveLength(r: State, a: Addr, v: Value)
    ensures |DoTryUnwrap(r, a).blocks| == |DoIntoInner(r, a).blocks| == |DoCyclicEnd(r, a, v).blocks| == |r.blocks|
  {
  }

  lemma {:induction false} HandlesLength(r: State, op: Op)
    requires Handles(op)
    ensures |Perform(r, op).blocks| == |r.blocks|
  {
    match op
    case CyclicEnd(a, v) => MoveLength(r, a, v);
    case TryUnwrap(a) => MoveLength(r, a, Value(0, [], []));
    case IntoInner(a) => MoveLength(r, a, Value(0, [], []));
    case GetMut(a, payload) => GetMutLength(r, a, payload);
    case Put(a, h) => PutLength(r, a, h);
    case Take(a, h) => TakeLength(r, a, h);
  }

  lemma {:induction false} HandlesLawful(r: State, op: Op)
    requires Ready(r) && Handles(op)
    ensures Lawful(r, Do(op), Perform(r, op))
  {
    HandlesLength(r, op);
    forall b | 0 <= b < |r.blocks| ensures Becomes(r, Do(op), b, Perform(r, op).blocks[b].slot) {
      HandlesBecomes(r, op, b);
    }
  }

  lemma CopyLawful(r: State, a: Addr, fields: seq<Handle>, dtor: seq<Op>)
    requires Alive(r, a) && r.blocks[a].slot.Init? && r.blocks[a].strong > 1 && Strong(a) in r.roots
    requires Movable(Lose(r, Strong(a)), fields)
    ensures var s2 := DoMakeMut(r, a, fields, dtor);
      && SameSlots(r, s2) && |s2.blocks| == |r.blocks| + 1
      && s2.blocks[|r.blocks|].slot == Init(Value(r.blocks[a].slot.v.payload, fields, dtor))
  {
  }

  lemma StealLawful(r: State, a: Addr, fields: seq<Handle>, dtor: seq<Op>)
    requires Alive(r, a) && r.blocks[a].slot.Init? && r.blocks[a].strong == 1 && r.blocks[a].weak > 1
    requires Strong(a) in r.roots && Movable(Lose(r, Strong(a)), fields)
    ensures var s2 := DoMakeMut(r, a, fields, dtor);
      && |s2.blocks| == |r.blocks| + 1 && s2.blocks[|r.blocks|].slot == r.blocks[a].slot && s2.blocks[a].slot == Moved
      && forall b :: 0 <= b < |r.blocks| && b != a ==> s2.blocks[b].slot == r.blocks[b].slot
  {
  }

  lemma StayBecomes(r: State, a: Addr, fields: seq<Handle>, dtor: seq<Op>, b: Addr)
    requires b < |r.blocks| && (Strong(a) in r.roots ==> a < |r.blocks| && r.blocks[a].slot.Init?)
    requires !TakesOut(r, MakeMut(a, fields, dtor), b)
    ensures Becomes(r, Do(MakeMut(a, fields, dtor)), b, r.blocks[b].slot)
  {
  }

  lemma GoneBecomes(r: State, a: Addr, fields: seq<Handle>, dtor: seq<Op>)
    requires a < |r.blocks| && r.blocks[a].slot.Init? && TakesOut(r, MakeMut(a, fields, dtor), a)
    ensures Becomes(r, Do(MakeMut(a, fields, dtor)), a, Moved)
  {
  }

  lemma InPlace(r: State, a: Addr, fields: seq<Handle>, dtor: seq<Op>)
    requires Strong(a) in r.roots ==>
      Alive(r, a) && r.blocks[a].slot.Init? && (Movable(Lose(r, Strong(a)), fields) ==> Lone(r.blocks[a]))
    ensures DoMakeMut(r, a, fields, dtor) == r && Made(r, Do(MakeMut(a, fields, dtor))) == []
  {
  }

  /** Only the value that is taken out changes, and the new block holds what it should. */
  lemma Assembled(r: State, op: Op, s2: State)
    requires op.MakeMut? && (Strong(op.a) in r.roots ==> op.a < |r.blocks| && r.blocks[op.a].slot.Init?)
    requires |s2.blocks| == |r.blocks| + |Made(r, Do(op))|
    requires |Made(r, Do(op))| > 0 ==> s2.blocks[|r.blocks|].slot == Made(r, Do(op))[0]
    requires forall b :: 0 <= b < |r.blocks| ==>
      s2.blocks[b].slot == if TakesOut(r, op, b) then Moved else r.blocks[b].slot
    ensures Lawful(r, Do(op), s2)
  {
    forall b | 0 <= b < |r.blocks| ensures Becomes(r, Do(op), b, s2.blocks[b].slot) {
      if TakesOut(r, op, b) {
        GoneBecomes(r, op.a, op.fields, op.dtor);
      } else {
        StayBecomes(r, op.a, op.fields, op.dtor, b);
      }
    }
  }

  lemma Branches(r: State, a: Addr, fields: seq<Handle>, dtor: seq<Op>)
    requires Strong(a) in r.roots && Movable(Lose(r, Strong(a)), fields) && Alive(r, a) && r.blocks[a].slot.Init?
    requires r.blocks[a].strong > 0 && r.blocks[a].weak > 0 && !Lone(r.blocks[a])
    ensures var op, s2 := MakeMut(a, fields, dtor), DoMakeMut(r, a, fields, dtor);
      && |s2.blocks| == |r.blocks| + 1 && Made(r, Do(op)) == [s2.blocks[|r.blocks|].slot]
      && forall b :: 0 <= b < |r.blocks| ==>
           s2.blocks[b].slot == if TakesOut(r, op, b) then Moved else r.blocks[b].slot
  {
    if r.blocks[a].strong > 1 { CopyLawful(r, a, fields, dtor); } else { StealLawful(r, a, fields, dtor); }
  }

  lemma {:induction false} MakeMutLawful(r: State, a: Addr, fields: seq<Handle>, dtor: seq<Op>)
    requires Ready(r)
    ensures Lawful(r, Do(MakeMut(a, fields, dtor)), DoMakeMut(r, a, fields, dtor))
  {
    if Strong(a) in r.roots { RootLives(r, Strong(a)); }
    if Strong(a) in r.roots && Movable(Lose(r, Strong(a)), fields) && !Lone(r.blocks[a]) {
      Branches(r, a, fields, dtor);
    } else {
      InPlace(r, a, fields, dtor);
    }
    Assembled(r, MakeMut(a, fields, dtor), DoMakeMut(r, a, fields, dtor));
  }

  // ---------------------------------------------------------------- every step

  lemma {:induction false} PerformLawful(r: State, op: Op)
    requires Ready(r)
    ensures Lawful(r, Do(op), Perform(r, op))
  {
    if op.MakeMut? {
      MakeMutLawful(r, op.a, op.fields, op.dtor);
    } else if Leaves(op) {
      LeavingLawful(r, op);
    } else {
      HandlesLawful(r, op);
    }
  }

  /** Every step of every run: a value stays what it is, unless the step is `get_mut` of a lone handle, which sets
    * its payload; a handle moved into or out of it; its end, in place or by being taken out. New blocks hold the
    * values they were made with. */
  lemma {:induction false} StepKeepsValues(s: State)
    requires Inv(s) && s.status.Running? && s.stack != []
    ensures Lawful(s.(stack := s.stack[1..]), s.stack[0], Step(s))
  {
    var r := s.(stack := s.stack[1..]);
    match s.stack[0]
    case Let(h) =>
      assert Held(s) == Held(r) + multiset{h};
      ReleaseLawful(r, h);
    case Do(op) =>
      assert Held(s) == Held(r);
      PerformLawful(r, op);
  }

  /** The same at any point of the run of any program. */
  lemma {:induction false} RunKeepsValues(program: seq<Op>, n: nat)
    requires var s := After(Start(program), n);
      s.status.Running? && s.stack != []
    ensures var s := After(Start(program), n);
      Lawful(s.(stack := s.stack[1..]), s.stack[0], Step(s))
  {
    RunsAreSafe(program, n);
    StepKeepsValues(After(Start(program), n));
  }

  // ---------------------------------------------------------------- when the process aborts

  /** The operation would lift a count that is `usize::MAX`. */
  predicate Overflows(r: State, op: Op) {
    match op
    case Clone(h, p) =>
      && Found(r, h, p) && (h.Strong? || h.WeakTo?) && h.at < |r.blocks|
      && (if h.Strong? then r.blocks[h.at].strong else r.blocks[h.at].weak) == USIZE_MAX
    case Downgrade(h, p) =>
      && Found(r, h, p) && (h.Strong? || h.Unique? || h.Cyclic?) && h.at < |r.blocks|
      && r.blocks[h.at].weak == USIZE_MAX
    case Upgrade(h, p) =>
      && Found(r, h, p) && (h.WeakTo? || h.Cyclic?) && h.at < |r.blocks|
      && r.blocks[h.at].strong == USIZE_MAX
    case _ => false
  }

  lemma {:induction false} FoundLives(r: State, h: Handle, p: Place)
    requires Ready(r) && Found(r, h, p) && !h.Dangling?
    ensures Alive(r, h.at) && 0 < r.blocks[h.at].weak <= USIZE_MAX && r.blocks[h.at].strong <= USIZE_MAX
    ensures h.Strong? ==> r.blocks[h.at].strong > 0
  {
    FoundHeld(r, h, p);
    HolderSees(r.blocks, Held(r), h);
    assert Good(r.blocks[h.at], Held(r), h.at);
  }

  lemma {:induction false} CloneAborts(r: State, h: Handle, p: Place)
    requires Ready(r)
    ensures DoClone(r, h, p).status == if Overflows(r, Clone(h, p)) then Aborted else Running
  {
    if Found(r, h, p) && !h.Dangling? { FoundLives(r, h, p); }
  }

  lemma {:induction false} DowngradeAborts(r: State, h: Handle, p: Place)
    requires Ready(r)
    ensures DoDowngrade(r, h, p).status == if Overflows(r, Downgrade(h, p)) then Aborted else Running
  {
    if Found(r, h, p) && !h.Dangling? { FoundLives(r, h, p); }
  }

  lemma {:induction false} UpgradeAborts(r: State, h: Handle, p: Place)
    requires Ready(r)
    ensures DoUpgrade(r, h, p).status == if Overflows(r, Upgrade(h, p)) then Aborted else Running
  {
    if Found(r, h, p) && !h.Dangling? { FoundLives(r, h, p); }
  }

  lemma OtherStatus(r: State, op: Op)
    requires !op.Clone? && !op.Downgrade? && !op.Upgrade?
    ensures Perform(r, op).status == r.status || Perform(r, op).status.Fault?
  {
  }

  lemma {:induction false} PerformAborts(r: State, op: Op)
    requires Ready(r)
    ensures Perform(r, op).status == if Overflows(r, op) then Aborted else Running
  {
    PerformSound(r, op);
    match op
    case Clone(h, p) => CloneAborts(r, h, p);
    case Downgrade(h, p) => DowngradeAborts(r, h, p);
    case Upgrade(h, p) => UpgradeAborts(r, h, p);
    case _ => OtherStatus(r, op);
  }

  /** The process aborts exactly when a count that is `usize::MAX` would be lifted. */
  lemma {:induction false} AbortsExactly(s: State)
    requires Inv(s) && s.status.Running? && s.stack != []
    ensures var r := s.(stack := s.stack[1..]);
      Step(s).status == if s.stack[0].Do? && Overflows(r, s.stack[0].op) then Aborted else Running
  {
    var r := s.(stack := s.stack[1..]);
    match s.stack[0]
    case Let(h) =>
      assert Held(s) == Held(r) + multiset{h};
      ReleaseSound(r, h);
    case Do(op) =>
      assert Held(s) == Held(r);
      PerformAborts(r, op);
  }
}

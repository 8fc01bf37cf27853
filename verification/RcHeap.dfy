/** `Rc`, `Weak` and `UniqueRc` as the calls they are: counters set in place, values destroyed by re-entrant
  * drops. Each method is proved to do what the machine of RcMachine does, run until the call returns. */
module RcHeap {
  import opened Basics
  import opened RcMachine
  import opened RcInvariant
  import opened RcSteps
  import opened RcRuns
  import opened RcLedger

  class Heap {
    var blocks: seq<Block>
    var roots: multiset<Handle>
    var status: Status
    // What the calling methods still have to do; only `Found` looks at it.
    var stack: seq<Task>
    var destroyed: seq<Addr>

    function St(): State
      reads this
    {
      State(blocks, roots, stack, destroyed, status)
    }

    constructor ()
      ensures St() == EMPTY && Inv(St())
    {
      blocks, roots, status, stack, destroyed := [], multiset{}, Running, [], [];
    }

    // ---------------------------------------------------------------- RcInnerPtr

    method IncStrong(a: Addr)
      requires Alive(St(), a) && blocks[a].strong != 0
      modifies this
      ensures St() == RcMachine.IncStrong(old(St()), a)
    {
      var strong := WrappingInc(blocks[a].strong);
      if strong == 0 {
        status := Aborted;
      } else {
        blocks := blocks[a := blocks[a].(strong := strong)];
      }
    }

    method IncWeak(a: Addr)
      requires Alive(St(), a) && blocks[a].weak != 0
      modifies this
      ensures St() == RcMachine.IncWeak(old(St()), a)
    {
      var weak := WrappingInc(blocks[a].weak);
      if weak == 0 {
        status := Aborted;
      } else {
        blocks := blocks[a := blocks[a].(weak := weak)];
      }
    }

    // ---------------------------------------------------------------- drops

    /** `Drop for Weak`; also the end of `drop_slow` and of `Drop for UniqueRc`. */
    method DropWeak(a: Addr)
      requires Alive(St(), a) && blocks[a].weak > 0
      modifies this
      ensures St() == RcMachine.DropWeak(old(St()), a)
    {
      blocks := blocks[a := blocks[a].(weak := blocks[a].weak - 1)];
      if blocks[a].weak == 0 {
        blocks := blocks[a := blocks[a].(freed := true)];
      }
    }

    /** `drop_slow`: the value is destroyed, then the local `_weak` leaves its scope. */
    method DropSlow(a: Addr)
      requires Alive(St(), a) && blocks[a].slot.Init? && status.Running?
      requires Inv(RcMachine.DropSlow(St(), a))
      modifies this
      ensures Inv(St())
      ensures St() == RunTo(RcMachine.DropSlow(old(St()), a), |old(stack)|)
      decreases Work(St()), 1
    {
      ghost var d := |stack|;
      ghost var s1 := RcMachine.DropSlow(St(), a);
      DropSlowWorks(St(), a);
      var v := blocks[a].slot.v;
      var tail := [Let(Implicit(a))] + stack;
      blocks := blocks[a := blocks[a].(slot := Dead)];
      stack := Todo(v.dtor, v.fields, tail);
      destroyed := destroyed + [a];
      assert St() == s1;
      DropInPlace(v, tail, d);
      CallDrop(Implicit(a), d);
    }

    /** `ptr::drop_in_place`: the value's own destructor, then its fields in order. */
    method DropInPlace(v: Value, tail: seq<Task>, ghost d: nat)
      requires Inv(St()) && stack == Todo(v.dtor, v.fields, tail) && d < |tail|
      modifies this
      ensures Inv(St()) && stack == tail
      ensures RunTo(St(), d) == RunTo(old(St()), d) && Work(St()) <= old(Work(St()))
      decreases Work(St()), 9
    {
      ghost var end, work := RunTo(St(), d), Work(St());
      var i := 0;
      assert v.dtor[0..] == v.dtor;
      while i < |v.dtor|
        invariant 0 <= i <= |v.dtor|
        invariant stack == Todo(v.dtor[i..], v.fields, tail)
        invariant Inv(St()) && RunTo(St(), d) == end && Work(St()) <= work
      {
        CallOp(v.dtor[i], d);
        i := i + 1;
      }
      var j := 0;
      assert v.fields[0..] == v.fields;
      while j < |v.fields|
        invariant 0 <= j <= |v.fields|
        invariant stack == Todo([], v.fields[j..], tail)
        invariant Inv(St()) && RunTo(St(), d) == end && Work(St()) <= work
      {
        CallDrop(v.fields[j], d);
        j := j + 1;
      }
    }

    /** Takes the operation on top of the stack off and carries it out. */
    method CallOp(op: Op, ghost d: nat)
      requires Inv(St()) && stack != [] && stack[0] == Do(op) && d < |stack|
      modifies this
      ensures Inv(St()) && stack == old(stack[1..])
      ensures RunTo(St(), d) == RunTo(old(St()), d) && Work(St()) <= old(Work(St()))
      decreases Work(St()), 8
    {
      ghost var p := St();
      Popped(p);
      stack := stack[1..];
      ghost var r := St();
      PerformOp(op);
      Called(r, Do(op), St(), d);
    }

    /** Takes the handle on top of the stack off and drops it. */
    method CallDrop(h: Handle, ghost d: nat)
      requires Inv(St()) && stack != [] && stack[0] == Let(h) && d < |stack|
      modifies this
      ensures Inv(St()) && stack == old(stack[1..])
      ensures RunTo(St(), d) == RunTo(old(St()), d) && Work(St()) <= old(Work(St()))
      decreases Work(St()), 8
    {
      ghost var p := St();
      Popped(p);
      stack := stack[1..];
      ghost var r := St();
      DropHandle(h);
      Called(r, Let(h), St(), d);
    }

    /** Drops a handle, of whichever kind. */
    method DropHandle(h: Handle)
      requires Inv(Pushed(St(), Let(h)))
      modifies this
      ensures Inv(St())
      ensures St() == RunTo(Exec(old(St()), Let(h)), |old(stack)|)
      decreases Work(St()), 4
    {
      PushedStep(St(), Let(h));
      StepKeeps(Pushed(St(), Let(h)));
      if !status.Running? {
        return;
      }
      if !h.Dangling? { HandleSees(St(), h); }
      match h {
        case Strong(a) => DropRc(a);
        case Unique(a) => DropSlow(a);
        case WeakTo(a) => DropWeak(a);
        case Cyclic(a) => DropWeak(a);
        case Implicit(a) => DropWeak(a);
        case Dangling =>
      }
    }

    /** `Drop for Rc`. */
    method DropRc(a: Addr)
      requires status.Running? && Alive(St(), a) && blocks[a].strong > 0 && blocks[a].slot.Init?
      requires Inv(DropStrong(St(), a))
      modifies this
      ensures Inv(St())
      ensures St() == RunTo(DropStrong(old(St()), a), |old(stack)|)
      decreases Work(St()), 3
    {
      SetWorks(St(), a, blocks[a].(strong := blocks[a].strong - 1));
      blocks := blocks[a := blocks[a].(strong := blocks[a].strong - 1)];
      if blocks[a].strong == 0 {
        DropSlow(a);
      }
    }

    // ---------------------------------------------------------------- making values

    /** `Rc::new`. */
    method New(v: Value) returns (h: Handle)
      requires Inv(St()) && status.Running? && Movable(St(), v.fields)
      modifies this
      ensures Inv(St()) && Held(St()) == old(Held(St())) + multiset{h} && Upgrades(St(), WeakTo(|old(blocks)|))
      ensures St() == Fresh(Spend(old(St()), v.fields), 1, Init(v), h) && h == Strong(|old(blocks)|)
    {
      NewLedger(St(), v, 1, Strong(|blocks|));
      h := Strong(|blocks|);
      blocks := blocks + [Block(1, 1, Init(v), false)];
      roots := roots - multiset(v.fields) + multiset{h};
    }

    /** `UniqueRc::new_in`: no strong handle, so that nothing can be upgraded yet. */
    method NewUnique(v: Value) returns (h: Handle)
      requires Inv(St()) && status.Running? && Movable(St(), v.fields)
      modifies this
      ensures Inv(St()) && Held(St()) == old(Held(St())) + multiset{h} && !Upgrades(St(), WeakTo(|old(blocks)|))
      ensures St() == Fresh(Spend(old(St()), v.fields), 0, Init(v), h) && h == Unique(|old(blocks)|)
    {
      NewLedger(St(), v, 0, Unique(|blocks|));
      h := Unique(|blocks|);
      blocks := blocks + [Block(0, 1, Init(v), false)];
      roots := roots - multiset(v.fields) + multiset{h};
    }

    /** `UniqueRc::into_rc`. */
    method IntoRc(a: Addr) returns (h: Handle)
      requires Inv(St()) && status.Running? && Unique(a) in roots && Alive(St(), a)
      modifies this
      ensures Inv(St()) && Held(St()) == old(Held(St())) - multiset{Unique(a)} + multiset{h}
      ensures !old(Upgrades(St(), WeakTo(a))) && Upgrades(St(), WeakTo(a))
      ensures a < |blocks| && blocks[a].slot == old(blocks[a].slot)
      ensures St() == DoIntoRc(old(St()), a) && h == Strong(a)
    {
      RootSees(St(), Unique(a));
      IntoRcLedger(St(), a);
      blocks := blocks[a := blocks[a].(strong := 1)];
      h := Strong(a);
      roots := roots - multiset{Unique(a)} + multiset{h};
    }

    /** The part of `new_cyclic_in` before it calls `data_fn`; the result is its local `weak`. */
    method CyclicBegin() returns (weak: Handle)
      requires Inv(St()) && status.Running?
      modifies this
      ensures Inv(St()) && Held(St()) == old(Held(St())) + multiset{weak} && !Upgrades(St(), weak)
      ensures St() == Fresh(old(St()), 0, Uninit, weak) && weak == Cyclic(|old(blocks)|)
    {
      BeginLedger(St());
      weak := Cyclic(|blocks|);
      blocks := blocks + [Block(0, 1, Uninit, false)];
      roots := roots + multiset{weak};
    }

    /** The part of `new_cyclic_in` after `data_fn` returned `v`: `weak` is forgotten, not dropped. */
    method CyclicEnd(a: Addr, v: Value) returns (h: Handle)
      requires Inv(St()) && status.Running? && Cyclic(a) in roots && Movable(Lose(St(), Cyclic(a)), v.fields)
      requires Alive(St(), a) && blocks[a].strong == 0
      modifies this
      ensures Inv(St()) && Held(St()) == old(Held(St())) - multiset{Cyclic(a)} + multiset{h}
      ensures !old(Upgrades(St(), WeakTo(a))) && Upgrades(St(), WeakTo(a))
      ensures a < |blocks| && blocks[a].slot == Init(v)
      ensures St() == DoCyclicEnd(old(St()), a, v) && h == Strong(a)
    {
      ghost var s := St();
      ghost var s2 := DoCyclicEnd(s, a, v);
      EndLedger(s, a, v);
      EndParts(s, a, v);
      blocks := blocks[a := blocks[a].(slot := Init(v))];
      blocks := blocks[a := blocks[a].(strong := 1)];
      h := Strong(a);
      roots := roots - multiset{Cyclic(a)} - multiset(v.fields) + multiset{h};
      assert St() == s2;
    }

    // ---------------------------------------------------------------- handles from handles

    /** `Clone for Rc` and `Clone for Weak`; `CloneLedger` says what this does to the handles. */
    method CloneHandle(h: Handle, ghost p: Place)
      requires Inv(St()) && status.Running? && Found(St(), h, p)
      modifies this
      ensures St() == DoClone(old(St()), h, p) && stack == old(stack)
    {
      if !h.Dangling? { FoundSees(St(), h, p); }
      match h {
        case Strong(a) => IncStrong(a);
        case WeakTo(a) => IncWeak(a);
        case Dangling =>
        case _ => return;
      }
      if status.Running? { roots := roots + multiset{h}; }
    }

    /** `Rc::downgrade` and `UniqueRc::downgrade`. */
    method Downgrade(h: Handle, ghost p: Place)
      requires Inv(St()) && status.Running? && Found(St(), h, p) && (h.Strong? || h.Unique? || h.Cyclic?)
      modifies this
      ensures Inv(St()) && (status.Running? ==> Held(St()) == old(Held(St())) + multiset{WeakTo(h.at)})
      ensures St() == DoDowngrade(old(St()), h, p) && stack == old(stack)
    {
      DowngradeLedger(St(), h, p);
      FoundSees(St(), h, p);
      IncWeak(h.at);
      if status.Running? { roots := roots + multiset{WeakTo(h.at)}; }
    }

    /** `Weak::upgrade`: `Some` exactly if the value has a strong owner, unless the process aborts. */
    method Upgrade(h: Handle, ghost p: Place) returns (r: Option<Handle>)
      requires Inv(St()) && status.Running? && Found(St(), h, p)
      requires h.WeakTo? || h.Cyclic? || h.Dangling?
      modifies this
      ensures Inv(St())
      ensures status.Running? ==> Held(St()) == old(Held(St())) + (if r.Some? then multiset{r.value} else multiset{})
      ensures St() == DoUpgrade(old(St()), h, p) && stack == old(stack)
      ensures status.Running? ==> (r.Some? <==> old(Upgrades(St(), h)))
      ensures r.Some? ==> r.value == Strong(h.at) && Strong(h.at) in old(Held(St()))
    {
      if h.Dangling? { return None; }
      UpgradeLedger(St(), h, p);
      FoundSees(St(), h, p);
      if blocks[h.at].strong == 0 { return None; }
      IncStrong(h.at);
      if !status.Running? { return None; }
      roots := roots + multiset{Strong(h.at)};
      r := Some(Strong(h.at));
    }

    // ---------------------------------------------------------------- taking values out

    /** `Rc::try_unwrap`: the value, exactly if the handle was the only strong one. The fields of the value
      * are the caller's from then on. */
    method TryUnwrap(a: Addr) returns (r: Option<Value>)
      requires Inv(St()) && status.Running? && Strong(a) in roots
      modifies this
      ensures Inv(St()) && status.Running?
      ensures St() == RunTo(DoTryUnwrap(old(St()), a), |old(stack)|)
      ensures r.Some? <==> old(Held(St()))[Strong(a)] == 1
      ensures r.Some? ==> old(a < |blocks| && blocks[a].slot == Init(r.value)) && destroyed == old(destroyed)
      ensures r.None? ==> St() == old(St())
    {
      StrongCounted(St(), a);
      if blocks[a].strong != 1 { return None; }
      UnwrapRun(St(), a);
      ghost var s := St();
      var v := blocks[a].slot.v;
      roots := roots - multiset{Strong(a)} + multiset(v.fields);
      blocks := blocks[a := blocks[a].(strong := blocks[a].strong - 1, slot := Moved)];
      assert St() == Unwrap(s, a).(stack := s.stack);
      DropWeak(a);
      r := Some(v);
    }

    /** `Drop` of a local. */
    method DropRoot(h: Handle)
      requires Inv(St()) && status.Running? && h in roots
      modifies this
      ensures Inv(St())
      ensures St() == RunTo(DoDrop(old(St()), h), |old(stack)|)
      decreases Work(St()), 5
    {
      ghost var s := St();
      DropRuns(s, h);
      roots := roots - multiset{h};
      assert Pushed(St(), Let(h)) == DoDrop(s, h);
      DropHandle(h);
    }

    /** `Rc::into_inner`: as `try_unwrap`, but a handle that is not the only one is dropped. */
    method IntoInner(a: Addr) returns (r: Option<Value>)
      requires Inv(St()) && status.Running? && Strong(a) in roots
      modifies this
      ensures Inv(St())
      ensures St() == RunTo(DoIntoInner(old(St()), a), |old(stack)|)
      ensures r.Some? <==> old(Held(St()))[Strong(a)] == 1
      ensures r.Some? ==> old(a < |blocks| && blocks[a].slot == Init(r.value)) && destroyed == old(destroyed)
      decreases Work(St()), 6
    {
      StrongCounted(St(), a);
      r := TryUnwrap(a);
      if r.None? { DropRoot(Strong(a)); }
    }

    // ---------------------------------------------------------------- mutation

    /** `Rc::get_mut` and a write through what it gives. */
    method GetMut(a: Addr, payload: int) returns (ok: bool)
      requires Inv(St()) && status.Running? && Strong(a) in roots
      modifies this
      ensures St() == DoGetMut(old(St()), a, payload) && stack == old(stack)
      ensures ok <==> old(Held(St()))[Strong(a)] == 1 && old(Held(St()))[WeakTo(a)] == 0
      ensures !ok ==> St() == old(St())
    {
      StrongCounted(St(), a);
      assert Good(blocks[a], Held(St()), a);
      ok := blocks[a].weak - 1 == 0 && blocks[a].strong == 1;
      if ok {
        blocks := blocks[a := blocks[a].(slot := Init(blocks[a].slot.v.(payload := payload)))];
      }
    }

    /** The branch of `make_mut` for a shared value: the copy is complete before the assignment to the
      * caller's handle drops the old one. */
    method ReplaceByCopy(a: Addr, fields: seq<Handle>, dtor: seq<Op>) returns (h: Handle)
      requires Inv(St()) && status.Running? && Strong(a) in roots && Movable(Lose(St(), Strong(a)), fields)
      requires Alive(St(), a) && blocks[a].slot.Init? && blocks[a].strong != 1
      modifies this
      ensures Inv(St())
      ensures St() == RunTo(DoMakeMut(old(St()), a, fields, dtor), |old(stack)|)
      ensures h == Strong(|old(blocks)|)
      decreases Work(St()) + 1 + OpsW(dtor), 5
    {
      ghost var s := St();
      CopyRuns(s, a, fields, dtor);
      ghost var x := DoMakeMut(s, a, fields, dtor);
      h := Strong(|blocks|);
      blocks := blocks + [Block(1, 1, Init(Value(blocks[a].slot.v.payload, fields, dtor)), false)];
      roots := roots - multiset{Strong(a)} - multiset(fields) + multiset{h};
      assert St() == x.(stack := s.stack);
      assert Pushed(St(), Let(Strong(a))) == x;
      DropHandle(Strong(a));
    }

    /** The branch for a value that only `Weak`s share: it is moved, and the old block left to them. */
    method Steal(a: Addr, ghost fields: seq<Handle>, ghost dtor: seq<Op>) returns (h: Handle)
      requires Inv(St()) && status.Running? && Strong(a) in roots && Movable(Lose(St(), Strong(a)), fields)
      requires Alive(St(), a) && blocks[a].slot.Init? && blocks[a].strong == 1 && blocks[a].weak > 1
      modifies this
      ensures St() == DoMakeMut(old(St()), a, fields, dtor)
      ensures h == Strong(|old(blocks)|)
    {
      StealIs(St(), a, fields, dtor);
      h := Strong(|blocks|);
      var v, b := blocks[a].slot.v, blocks[a];
      b := b.(strong := b.strong - 1, slot := Moved);
      b := b.(weak := b.weak - 1);
      assert b == Block(0, blocks[a].weak - 1, Moved, false);
      blocks := blocks[a := b] + [Block(1, 1, Init(v), false)];
      roots := roots - multiset{Strong(a)} + multiset{h};
    }

    /** `Rc::make_mut`: the handle `h` it leaves its caller with is the old one exactly if that was alone. */
    method MakeMut(a: Addr, fields: seq<Handle>, dtor: seq<Op>) returns (h: Handle)
      requires Inv(St()) && status.Running? && Strong(a) in roots && Movable(Lose(St(), Strong(a)), fields)
      modifies this
      ensures Inv(St())
      ensures St() == RunTo(DoMakeMut(old(St()), a, fields, dtor), |old(stack)|)
      ensures h == if old(Held(St()))[Strong(a)] == 1 && old(Held(St()))[WeakTo(a)] == 0 then Strong(a)
        else Strong(|old(blocks)|)
      decreases Work(St()) + 1 + OpsW(dtor), 6
    {
      AloneCounted(St(), a);
      if blocks[a].strong != 1 {
        h := ReplaceByCopy(a, fields, dtor);
      } else if blocks[a].weak - 1 != 0 {
        StealKeeps(St(), a, fields, dtor);
        h := Steal(a, fields, dtor);
      } else {
        h := Strong(a);
      }
    }

    /** A handle moved into the value of block `a`, through a `RefCell` say. */
    method Put(a: Addr, h: Handle)
      requires Inv(St()) && status.Running? && Movable(St(), [h]) && Owns(Lose(St(), h), a)
      modifies this
      ensures St() == DoPut(old(St()), a, h) && stack == old(stack)
    {
      OwnerSees(St(), Lose(St(), h), a);
      var v := blocks[a].slot.v;
      roots := roots - multiset{h};
      blocks := blocks[a := blocks[a].(slot := Init(v.(fields := v.fields + [h])))];
    }

    /** A handle taken out of the value of block `a`. */
    method Take(a: Addr, h: Handle)
      requires Inv(St()) && status.Running? && Owns(St(), a) && Alive(St(), a) && Holds(blocks[a], h)
      modifies this
      ensures St() == DoTake(old(St()), a, h) && stack == old(stack)
    {
      var v := blocks[a].slot.v;
      blocks := blocks[a := blocks[a].(slot := Init(v.(fields := Without(v.fields, h))))];
      roots := roots + multiset{h};
    }

    // ---------------------------------------------------------------- programs

    method PerformNew(op: Op)
      requires Inv(St()) && status.Running? && (op.New? || op.NewUnique? || op.CyclicBegin?)
      modifies this
      ensures St() == RunTo(Perform(old(St()), op), |old(stack)|)
      decreases Work(Pushed(St(), Do(op))), 6
    {
      match op {
        case New(v) => if Movable(St(), v.fields) { var _ := New(v); }
        case NewUnique(v) => if Movable(St(), v.fields) { var _ := NewUnique(v); }
        case CyclicBegin => var _ := CyclicBegin();
      }
    }

    method PerformPublish(op: Op)
      requires Inv(St()) && status.Running? && (op.IntoRc? || op.CyclicEnd?)
      modifies this
      ensures St() == RunTo(Perform(old(St()), op), |old(stack)|)
      decreases Work(Pushed(St(), Do(op))), 6
    {
      match op {
        case IntoRc(a) =>
          if Unique(a) in roots { RootSees(St(), Unique(a)); var _ := IntoRc(a); }
        case CyclicEnd(a, v) =>
          if Cyclic(a) in roots && Movable(Lose(St(), Cyclic(a)), v.fields) {
            RootSees(St(), Cyclic(a));
            var _ := CyclicEnd(a, v);
          }
      }
    }

    method PerformBorrow(op: Op)
      requires Inv(St()) && status.Running? && (op.Clone? || op.Downgrade? || op.Upgrade?)
      modifies this
      ensures St() == Perform(old(St()), op) && stack == old(stack)
    {
      if !Found(St(), op.h, op.p) {
        return;
      }
      match op {
        case Clone(h, p) => CloneHandle(h, p);
        case Downgrade(h, p) => if h.Strong? || h.Unique? || h.Cyclic? { Downgrade(h, p); }
        case Upgrade(h, p) => if h.WeakTo? || h.Cyclic? { var _ := Upgrade(h, p); }
      }
    }

    method PerformMove(op: Op)
      requires Inv(St()) && status.Running? && (op.Drop? || op.TryUnwrap? || op.IntoInner? || op.MakeMut?)
      modifies this
      ensures St() == RunTo(Perform(old(St()), op), |old(stack)|)
      decreases Work(Pushed(St(), Do(op))), 6
    {
      match op {
        case Drop(h) => if h in roots { DropRoot(h); }
        case TryUnwrap(a) => if Strong(a) in roots { var _ := TryUnwrap(a); }
        case IntoInner(a) => if Strong(a) in roots { var _ := IntoInner(a); }
        case MakeMut(a, fields, dtor) =>
          if Strong(a) in roots && Movable(Lose(St(), Strong(a)), fields) { var _ := MakeMut(a, fields, dtor); }
      }
    }

    method PerformEdit(op: Op)
      requires Inv(St()) && status.Running? && (op.GetMut? || op.Put? || op.Take?)
      modifies this
      ensures St() == Perform(old(St()), op) && stack == old(stack)
    {
      match op {
        case GetMut(a, payload) => if Strong(a) in roots { var _ := GetMut(a, payload); }
        case Put(a, h) => if Movable(St(), [h]) && Owns(Lose(St(), h), a) { Put(a, h); }
        case Take(a, h) =>
          if Owns(St(), a) {
            OwnerSees(St(), St(), a);
            if Holds(blocks[a], h) { Take(a, h); }
          }
      }
    }

    /** One operation of a program or a destructor; one whose handles are not there is skipped. */
    method PerformOp(op: Op)
      requires Inv(Pushed(St(), Do(op)))
      modifies this
      ensures St() == RunTo(Exec(old(St()), Do(op)), |old(stack)|)
      decreases Work(Pushed(St(), Do(op))), 7
    {
      OpOwnsNothing(St(), op);
      if !status.Running? { return; }
      match op {
        case New(_) | NewUnique(_) | CyclicBegin => PerformNew(op);
        case IntoRc(_) | CyclicEnd(_, _) => PerformPublish(op);
        case Clone(_, _) | Downgrade(_, _) | Upgrade(_, _) => PerformBorrow(op);
        case Drop(_) | TryUnwrap(_) | IntoInner(_) | MakeMut(_, _, _) => PerformMove(op);
        case GetMut(_, _) | Put(_, _) | Take(_, _) => PerformEdit(op);
      }
    }

    method RunOps(program: seq<Op>)
      requires Inv(St()) && stack == Todo(program, [], [])
      modifies this
      ensures Inv(St()) && stack == [] && RunTo(St(), 0) == RunTo(old(St()), 0)
    {
      ghost var end := RunTo(St(), 0);
      var i := 0;
      assert program[0..] == program;
      while i < |program|
        invariant 0 <= i <= |program|
        invariant stack == Todo(program[i..], [], [])
        invariant Inv(St()) && RunTo(St(), 0) == end
      {
        CallOp(program[i], 0);
        i := i + 1;
      }
    }

    /** A whole program on an empty heap: the methods above do exactly what the machine does, so all that
      * RcTheorems proves of its runs holds of theirs. */
    method RunProgram(program: seq<Op>)
      requires St() == EMPTY
      modifies this
      ensures St() == RunTo(Start(program), 0) && Inv(St())
    {
      StartKeeps(program);
      stack := Todo(program, [], []);
      assert St() == Start(program);
      RunOps(program);
    }
  }
}

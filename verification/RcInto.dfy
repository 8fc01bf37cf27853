/** `Rc::into_inner` in any program: if nothing else releases a strong handle, exactly one caller gets the value. */
module RcInto {
  import opened RcMachine
  import opened RcInvariant
  import opened RcSteps
  import opened RcRuns
  import opened RcTheorems

  /** The next step is an `into_inner` that returns the value of block `a`. */
  predicate Gives(s: State, a: Addr) {
    && s.status.Running? && s.stack != [] && s.stack[0] == Do(IntoInner(a))
    && Strong(a) in s.roots && a < |s.blocks| && s.blocks[a].strong == 1
  }

  /** How many of the first `n` steps return the value of block `a`. */
  function Given(s: State, n: nat, a: Addr): nat
    decreases n
  {
    if n == 0 || s.stack == [] then 0 else (if Gives(s, a) then 1 else 0) + Given(Step(s), n - 1, a)
  }

  /** The next step is an `into_inner` of a handle that is there; one that does not return the value drops it. */
  predicate Called(s: State, a: Addr) {
    s.stack != [] && s.stack[0] == Do(IntoInner(a)) && Strong(a) in s.roots
  }

  /** The operation moves the value of block `a` out: a `try_unwrap` that succeeds, or a `make_mut` that leaves
    * the block to its `Weak`s. */
  predicate Takes(s: State, op: Op, a: Addr) {
    && Strong(a) in s.roots && a < |s.blocks| && s.blocks[a].strong == 1
    && (op == TryUnwrap(a) || (op.MakeMut? && op.a == a && s.blocks[a].weak != 1))
  }

  /** The next task does not release a strong handle to `a`, other than by the drop that is `due` inside
    * `into_inner`. */
  predicate Allowed(s: State, a: Addr, due: bool)
    requires s.stack != []
  {
    match s.stack[0]
    case Let(h) => h != Unique(a) && (h == Strong(a) ==> due)
    case Do(op) => !Takes(s, op, a)
  }

  predicate OnlyInto(s: State, n: nat, a: Addr, due: bool)
    decreases n
  {
    n == 0 || s.stack == [] || (Allowed(s, a, due) && OnlyInto(Step(s), n - 1, a, Called(s, a)))
  }

  // ---------------------------------------------------------------- what moves a value out

  predicate Unmoved(s: State, s2: State, a: Addr) {
    a < |s2.blocks| && s2.blocks[a].slot.Moved? ==> a < |s.blocks| && s.blocks[a].slot.Moved?
  }

  lemma PublishUnmoved(s: State, b: Addr, v: Value, a: Addr)
    ensures Unmoved(s, DoIntoRc(s, b), a) && Unmoved(s, DoCyclicEnd(s, b, v), a)
  {}

  lemma IncUnmoved(s: State, b: Addr, a: Addr)
    ensures Unmoved(s, IncStrong(s, b), a) && Unmoved(s, IncWeak(s, b), a)
  {}

  lemma CloneUnmoved(s: State, h: Handle, p: Place, a: Addr)
    ensures Unmoved(s, DoClone(s, h, p), a)
  {
    if !h.Dangling? { IncUnmoved(s, h.at, a); }
  }

  lemma DowngradeUnmoved(s: State, h: Handle, p: Place, a: Addr)
    ensures Unmoved(s, DoDowngrade(s, h, p), a)
  {
    if !h.Dangling? { IncUnmoved(s, h.at, a); }
  }

  lemma UpgradeUnmoved(s: State, h: Handle, p: Place, a: Addr)
    ensures Unmoved(s, DoUpgrade(s, h, p), a)
  {
    if !h.Dangling? { IncUnmoved(s, h.at, a); }
  }

  lemma MoveUnmoved(s: State, b: Addr, a: Addr)
    ensures !Takes(s, TryUnwrap(b), a) ==> Unmoved(s, DoTryUnwrap(s, b), a)
    ensures !(b == a && Strong(a) in s.roots && a < |s.blocks| && s.blocks[a].strong == 1) ==>
      Unmoved(s, DoIntoInner(s, b), a)
  {}

  lemma GetMutUnmoved(s: State, b: Addr, payload: int, a: Addr)
    ensures Unmoved(s, DoGetMut(s, b, payload), a)
  {}

  lemma PutUnmoved(s: State, b: Addr, h: Handle, a: Addr)
    ensures Unmoved(s, DoPut(s, b, h), a)
  {}

  lemma TakeUnmoved(s: State, b: Addr, h: Handle, a: Addr)
    ensures Unmoved(s, DoTake(s, b, h), a)
  {}

  lemma MakeMutUnmoved(s: State, b: Addr, fields: seq<Handle>, dtor: seq<Op>, a: Addr)
    requires !Takes(s, MakeMut(b, fields, dtor), a)
    ensures Unmoved(s, DoMakeMut(s, b, fields, dtor), a)
  {}

  lemma {:induction false} PerformUnmoved(s: State, op: Op, a: Addr)
    requires !Takes(s, op, a)
    requires !(op == IntoInner(a) && Strong(a) in s.roots && a < |s.blocks| && s.blocks[a].strong == 1)
    ensures Unmoved(s, Perform(s, op), a)
  {
    match op
    case IntoRc(b) => PublishUnmoved(s, b, Value(0, [], []), a);
    case CyclicEnd(b, v) => PublishUnmoved(s, b, v, a);
    case Clone(h, p) => CloneUnmoved(s, h, p, a);
    case Downgrade(h, p) => DowngradeUnmoved(s, h, p, a);
    case Upgrade(h, p) => UpgradeUnmoved(s, h, p, a);
    case TryUnwrap(b) => MoveUnmoved(s, b, a);
    case IntoInner(b) => MoveUnmoved(s, b, a);
    case GetMut(b, payload) => GetMutUnmoved(s, b, payload, a);
    case MakeMut(b, fields, dtor) => MakeMutUnmoved(s, b, fields, dtor, a);
    case Put(b, h) => PutUnmoved(s, b, h, a);
    case Take(b, h) => TakeUnmoved(s, b, h, a);
    case _ =>
  }

  // ---------------------------------------------------------------- one step

  /** If the drop inside `into_inner` is due, it is not the last. */
  predicate DueIsShared(s: State, a: Addr, due: bool) {
    due && s.status.Running? && s.stack != [] && s.stack[0] == Let(Strong(a)) ==>
      a < |s.blocks| && s.blocks[a].strong > 1
  }

  lemma {:induction false} ReleaseGives(s: State, h: Handle, a: Addr)
    requires !Over(s, a) && h != Unique(a) && (h == Strong(a) ==> a < |s.blocks| && s.blocks[a].strong > 1)
    ensures !Over(Release(s, h), a)
  {}

  lemma {:induction false} GivenMoves(r: State, a: Addr)
    requires Strong(a) in r.roots && Alive(r, a) && r.blocks[a].strong == 1 && r.blocks[a].slot.Init?
    ensures Over(DoIntoInner(r, a), a)
  {}

  lemma {:induction false} OpGives(r: State, op: Op, a: Addr)
    requires Ready(r) && !Over(r, a) && !Takes(r, op, a)
    ensures Over(Perform(r, op), a) <==>
      op == IntoInner(a) && Strong(a) in r.roots && a < |r.blocks| && r.blocks[a].strong == 1
  {
    if op == IntoInner(a) && Strong(a) in r.roots && a < |r.blocks| && r.blocks[a].strong == 1 {
      assert Strong(a) in Held(r);
      HolderSees(r.blocks, Held(r), Strong(a));
      GivenMoves(r, a);
    } else {
      PerformUnmoved(r, op, a);
      PerformMild(r, op);
    }
  }

  lemma {:induction false} StepGives(s: State, a: Addr, due: bool)
    requires Inv(s) && s.stack != [] && Allowed(s, a, due) && DueIsShared(s, a, due) && !Over(s, a)
    ensures Over(Step(s), a) <==> Gives(s, a)
  {
    var r := s.(stack := s.stack[1..]);
    if s.status.Running? {
      match s.stack[0]
      case Let(h) => ReleaseGives(r, h, a);
      case Do(op) =>
        assert Held(s) == Held(r);
        OpGives(r, op, a);
    }
  }

  lemma {:induction false} StepShares(s: State, a: Addr)
    requires Inv(s) && Called(s, a)
    ensures DueIsShared(Step(s), a, true)
  {
    if s.status.Running? {
      assert Strong(a) in Held(s);
      HolderSees(s.blocks, Held(s), Strong(a));
      IntoInnerExec(s.(stack := s.stack[1..]), a);
    }
  }

  // ---------------------------------------------------------------- whole runs

  lemma {:induction false} GivenNoMore(s: State, n: nat, a: Addr)
    requires Inv(s) && Over(s, a)
    ensures Given(s, n, a) == 0
    decreases n
  {
    if n != 0 && s.stack != [] {
      StepKeeps(s);
      StepAges(s);
      assert Later(s.blocks[a], Step(s).blocks[a]);
      if s.status.Running? { assert Good(s.blocks[a], Held(s), a); }
      GivenNoMore(Step(s), n - 1, a);
    }
  }

  lemma {:induction false} MovedForEver(s: State, n: nat, a: Addr)
    requires Inv(s) && a < |s.blocks| && s.blocks[a].slot.Moved?
    ensures a < |After(s, n).blocks| && After(s, n).blocks[a].slot.Moved?
    decreases n
  {
    if n != 0 && s.stack != [] {
      StepKeeps(s);
      StepAges(s);
      assert Later(s.blocks[a], Step(s).blocks[a]);
      MovedForEver(Step(s), n - 1, a);
    }
  }

  lemma {:induction false} GivenNow(s: State, n: nat, a: Addr)
    requires s.stack != [] && n > 0 && Inv(Step(s)) && a < |Step(s).blocks| && Step(s).blocks[a].slot.Moved?
    ensures a < |After(s, n).blocks| && After(s, n).blocks[a].slot.Moved?
    ensures Given(s, n, a) == if Gives(s, a) then 1 else 0
  {
    GivenNoMore(Step(s), n - 1, a);
    MovedForEver(Step(s), n - 1, a);
  }

  lemma {:induction false} StepMoves(s: State, a: Addr)
    requires Inv(s) && Gives(s, a)
    ensures Inv(Step(s)) && a < |Step(s).blocks| && Step(s).blocks[a].slot.Moved?
  {
    StepKeeps(s);
    var r := s.(stack := s.stack[1..]);
    assert Strong(a) in Held(s);
    HolderSees(s.blocks, Held(s), Strong(a));
    IntoInnerExec(r, a);
  }

  lemma {:induction false} GivenOnce(s: State, n: nat, a: Addr, due: bool)
    requires Inv(s) && OnlyInto(s, n, a, due) && DueIsShared(s, a, due) && !Over(s, a)
    ensures var t := After(s, n);
      && (Over(t, a) ==> t.blocks[a].slot.Moved?)
      && Given(s, n, a) == if Over(t, a) then 1 else 0
    decreases n
  {
    if n != 0 && s.stack != [] {
      StepKeeps(s);
      StepGives(s, a, due);
      if Gives(s, a) {
        StepMoves(s, a);
        GivenNow(s, n, a);
      } else {
        if Called(s, a) { StepShares(s, a); }
        GivenOnce(Step(s), n - 1, a, Called(s, a));
      }
    }
  }

  /** The block had a value, and nothing owns it any more. */
  predicate GoneFrom(t: State, a: Addr) {
    a < |t.blocks| && !t.blocks[a].slot.Uninit? && Strong(a) !in Held(t) && Unique(a) !in Held(t)
  }

  /** In any run of any program in which only `into_inner` releases strong handles to `a`: the value is never
    * destroyed in place, at most one call returns it, and exactly one did once the strong handles are gone. */
  lemma {:induction false} IntoInnerReturnsOnce(program: seq<Op>, n: nat, a: Addr)
    requires OnlyInto(Start(program), n, a, false)
    ensures var t := After(Start(program), n);
      && a !in t.destroyed
      && Given(Start(program), n, a) <= 1
      && (t.status.Running? && GoneFrom(t, a) ==> Given(Start(program), n, a) == 1)
  {
    StartKeeps(program);
    RunsKeep(Start(program), n);
    GivenOnce(Start(program), n, a, false);
    var t := After(Start(program), n);
    if t.status.Running? && a < |t.blocks| { assert Good(t.blocks[a], Held(t), a); }
  }
}

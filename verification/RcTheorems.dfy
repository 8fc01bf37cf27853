/** What the `Rc` heap promises, over every run of every program and every destructor. */
module RcTheorems {
  import opened RcMachine
  import opened RcInvariant
  import opened RcSteps
  import opened RcRuns

  // ---------------------------------------------------------------- every run

  lemma {:induction false} RunsKeep(s: State, n: nat)
    requires Inv(s)
    ensures Inv(After(s, n))
    decreases n
  {
    if n != 0 && s.stack != [] {
      StepKeeps(s);
      RunsKeep(Step(s), n - 1);
    }
  }

  /** No run of any program, destructors included, ever touches a freed block, frees one twice, destroys a
    * value that is not there or takes a count below zero; and its counts are always the handles. */
  lemma {:induction false} RunsAreSafe(program: seq<Op>, n: nat)
    ensures Inv(After(Start(program), n))
  {
    StartKeeps(program);
    RunsKeep(Start(program), n);
  }

  /** In any run, a block is freed exactly when no `Weak` is left and nothing holds the implicit one. */
  lemma {:induction false} FreedExactlyAtLastWeak(program: seq<Op>, n: nat, a: Addr)
    requires var s := After(Start(program), n);
      s.status.Running? && a < |s.blocks|
    ensures var s := After(Start(program), n);
      s.blocks[a].freed <==>
        Held(s)[WeakTo(a)] == 0 && Held(s)[Strong(a)] == 0 && Held(s)[Unique(a)] == 0
        && Held(s)[Cyclic(a)] == 0 && Held(s)[Implicit(a)] == 0
  {
    RunsAreSafe(program, n);
    var s := After(Start(program), n);
    assert Good(s.blocks[a], Held(s), a);
  }

  /** In any run, what `get_mut` checks means what it is for: one handle in all. */
  lemma {:induction false} LoneMeansAlone(program: seq<Op>, n: nat, a: Addr)
    requires var s := After(Start(program), n);
      s.status.Running? && a < |s.blocks|
    ensures var s := After(Start(program), n);
      && (Lone(s.blocks[a]) <==> Held(s)[Strong(a)] == 1 && Held(s)[WeakTo(a)] == 0)
      && (Lone(s.blocks[a]) ==> Held(s)[Unique(a)] == Held(s)[Cyclic(a)] == Held(s)[Implicit(a)] == 0)
  {
    RunsAreSafe(program, n);
    var s := After(Start(program), n);
    assert Good(s.blocks[a], Held(s), a);
  }

  // ---------------------------------------------------------------- upgrade

  /** In any run, `upgrade` gives `Some` exactly when a strong handle exists, and then the value is there. */
  lemma {:induction false} UpgradeExactly(program: seq<Op>, n: nat, a: Addr)
    requires var s := After(Start(program), n);
      s.status.Running? && WeakTo(a) in Held(s)
    ensures var s := After(Start(program), n);
      && (Upgrades(s, WeakTo(a)) <==> Strong(a) in Held(s))
      && (Upgrades(s, WeakTo(a)) ==> s.blocks[a].slot.Init?)
      && (Unique(a) in Held(s) || Cyclic(a) in Held(s) || Implicit(a) in Held(s) ==> !Upgrades(s, WeakTo(a)))
  {
    RunsAreSafe(program, n);
    var s := After(Start(program), n);
    HolderSees(s.blocks, Held(s), WeakTo(a));
    assert Good(s.blocks[a], Held(s), a);
  }

  predicate Over(s: State, a: Addr) {
    a < |s.blocks| && (s.blocks[a].slot.Dead? || s.blocks[a].slot.Moved?)
  }

  /** Once the value of a block was destroyed, or moved out by `try_unwrap`, `into_inner` or `make_mut`,
    * every later `upgrade` of that block gives `None`. */
  lemma {:induction false} OverForEver(s: State, n: nat, a: Addr)
    requires Inv(s) && Over(s, a)
    ensures Over(After(s, n), a)
    ensures After(s, n).status.Running? ==> !Upgrades(After(s, n), WeakTo(a))
    decreases n
  {
    if n != 0 && s.stack != [] {
      StepKeeps(s);
      StepAges(s);
      assert Later(s.blocks[a], Step(s).blocks[a]);
      OverForEver(Step(s), n - 1, a);
    } else if s.status.Running? {
      assert Good(s.blocks[a], Held(s), a);
    }
  }

  // ---------------------------------------------------------------- destruction

  /** Values are destroyed in the order of the log, and each at most once. */
  lemma {:induction false} DestroyedAtMostOnce(s: State, n: nat)
    requires Inv(s)
    ensures s.destroyed <= After(s, n).destroyed
    ensures forall i, j :: 0 <= i < j < |After(s, n).destroyed| ==> After(s, n).destroyed[i] != After(s, n).destroyed[j]
    decreases n
  {
    if n != 0 && s.stack != [] {
      StepKeeps(s);
      StepAges(s);
      DestroyedAtMostOnce(Step(s), n - 1);
    }
  }

  predicate RestsOn(stack: seq<Task>, bottom: seq<Task>) {
    |stack| >= |bottom| && stack[|stack| - |bottom|..] == bottom
  }

  lemma {:induction false} StillPending(stack: seq<Task>, bottom: seq<Task>, a: Addr)
    requires RestsOn(stack, bottom)
    requires bottom != [] && bottom[0] == Let(Implicit(a))
    ensures Implicit(a) in Pending(stack)
    decreases |stack|
  {
    if |stack| > |bottom| {
      StillPending(stack[1..], bottom, a);
    }
  }

  lemma {:induction false} StepRestsOn(s: State, bottom: seq<Task>)
    requires RestsOn(s.stack, bottom) && |s.stack| > |bottom|
    ensures RestsOn(Step(s).stack, bottom)
  {
    StepBottom(s);
    Suffix(Step(s).stack, s.stack[1..], |bottom|);
    Suffix(s.stack, s.stack[1..], |bottom|);
  }

  /** The next task drops the last strong handle, or the `UniqueRc`, of block `a`. */
  predicate AboutToDestroy(s: State, a: Addr) {
    && s.status.Running? && s.stack != [] && a < |s.blocks|
    && ((s.stack[0] == Let(Strong(a)) && s.blocks[a].strong == 1) || s.stack[0] == Let(Unique(a)))
  }

  lemma {:induction false} DestroyerSees(s: State, a: Addr)
    requires Inv(s) && AboutToDestroy(s, a)
    ensures Alive(s, a) && s.blocks[a].slot.Init?
  {
    var h := s.stack[0].h;
    assert h in Held(s);
    HolderSees(s.blocks, Held(s), h);
  }

  lemma {:induction false} LastDropExec(r: State, a: Addr)
    requires r.status.Running? && Alive(r, a) && r.blocks[a].strong == 1 && r.blocks[a].slot.Init?
    ensures Exec(r, Let(Strong(a))) == DropSlow(Set(r, a, r.blocks[a].(strong := 0)), a)
  {
  }

  lemma {:induction false} DropSlowRests(r: State, a: Addr)
    requires Alive(r, a) && r.blocks[a].slot.Init?
    ensures RestsOn(DropSlow(r, a).stack, [Let(Implicit(a))] + r.stack)
    ensures Death(r, DropSlow(r, a), a)
  {
  }

  /** The step that starts a destruction puts the value's destructor and fields on top of the implicit weak
    * reference. */
  lemma {:induction false} DestructionStarts(s: State, a: Addr)
    requires Inv(s) && AboutToDestroy(s, a)
    ensures RestsOn(Step(s).stack, [Let(Implicit(a))] + s.stack[1..])
    ensures a < |Step(s).blocks| && Step(s).blocks[a].slot.Dead? && Step(s).destroyed == s.destroyed + [a]
  {
    DestroyerSees(s, a);
    var r := s.(stack := s.stack[1..]);
    if s.stack[0] == Let(Strong(a)) {
      LastDropExec(r, a);
      DropSlowRests(Set(r, a, r.blocks[a].(strong := 0)), a);
    } else {
      DropSlowRests(r, a);
    }
  }

  lemma {:induction false} TodoAt(ops: seq<Op>, fields: seq<Handle>, rest: seq<Task>, i: nat)
    requires i < |ops| + |fields|
    ensures Todo(ops, fields, rest)[i] == if i < |ops| then Do(ops[i]) else Let(fields[i - |ops|])
  {
    if i > 0 {
      if ops != [] { TodoAt(ops[1..], fields, rest, i - 1); } else { TodoAt([], fields[1..], rest, i - 1); }
    }
  }

  /** What that step leaves to do: the operations of the destructor, then the drops of the fields, each in order,
    * then the drop of the implicit weak reference, and then what there was. */
  lemma {:induction false} DestructionOrder(s: State, a: Addr)
    requires Inv(s) && AboutToDestroy(s, a)
    ensures Alive(s, a) && s.blocks[a].slot.Init?
    ensures var v, q := s.blocks[a].slot.v, Step(s).stack;
      var n := |v.dtor| + |v.fields|;
      && |q| == n + |s.stack|
      && (forall i :: 0 <= i < |v.dtor| ==> q[i] == Do(v.dtor[i]))
      && (forall j :: 0 <= j < |v.fields| ==> q[|v.dtor| + j] == Let(v.fields[j]))
      && q[n..] == [Let(Implicit(a))] + s.stack[1..]
  {
    DestroyerSees(s, a);
    DestructionStack(s, a);
    TodoOrder(s.blocks[a].slot.v, [Let(Implicit(a))] + s.stack[1..]);
  }

  lemma {:induction false} DestructionStack(s: State, a: Addr)
    requires AboutToDestroy(s, a) && Alive(s, a) && s.blocks[a].slot.Init?
    ensures var v := s.blocks[a].slot.v;
      Step(s).stack == Todo(v.dtor, v.fields, [Let(Implicit(a))] + s.stack[1..])
  {
    var r := s.(stack := s.stack[1..]);
    if s.stack[0] == Let(Strong(a)) { LastDropExec(r, a); }
  }

  lemma {:induction false} TodoOrder(v: Value, rest: seq<Task>)
    ensures var q, n := Todo(v.dtor, v.fields, rest), |v.dtor| + |v.fields|;
      && |q| == n + |rest|
      && (forall i :: 0 <= i < |v.dtor| ==> q[i] == Do(v.dtor[i]))
      && (forall j :: 0 <= j < |v.fields| ==> q[|v.dtor| + j] == Let(v.fields[j]))
      && q[n..] == rest
  {
    forall i | 0 <= i < |v.dtor| ensures Todo(v.dtor, v.fields, rest)[i] == Do(v.dtor[i]) {
      TodoAt(v.dtor, v.fields, rest, i);
    }
    forall j | 0 <= j < |v.fields| ensures Todo(v.dtor, v.fields, rest)[|v.dtor| + j] == Let(v.fields[j]) {
      TodoAt(v.dtor, v.fields, rest, |v.dtor| + j);
    }
  }

  /** So each task of a destruction comes to the top when those before it, with all they set off, are done. */
  lemma {:induction false} EachInTurn(s: State, a: Addr, i: nat)
    requires Inv(s) && AboutToDestroy(s, a) && i < |Step(s).stack|
    ensures RunTo(Step(s), |Step(s).stack| - i).stack == Step(s).stack[i..]
  {
    RunBottom(Step(s), |Step(s).stack| - i);
  }

  /** From the step that starts to destroy a value until its destructor has run and its last field is dropped
    * (for as long, that is, as anything is left above the implicit weak reference), through everything those
    * set off, its block is not freed, though the value may hold the only `Weak` to it, and every `upgrade` of
    * it gives `None`. */
  lemma {:induction false} DestructionIsBracketed(s: State, a: Addr, n: nat)
    requires Inv(s) && AboutToDestroy(s, a)
    requires forall k :: 0 <= k < n ==> |After(Step(s), k).stack| > |s.stack|
    ensures After(Step(s), n).status.Running? ==>
      Alive(After(Step(s), n), a) && !Upgrades(After(Step(s), n), WeakTo(a))
  {
    var s1 := Step(s);
    var bottom := [Let(Implicit(a))] + s.stack[1..];
    StepKeeps(s);
    DestructionStarts(s, a);
    RunsKeep(s1, n);
    BottomStays(s1, n, bottom);
    ImplicitProtects(After(s1, n), bottom, a);
  }

  lemma {:induction false} ImplicitProtects(t: State, bottom: seq<Task>, a: Addr)
    requires Inv(t) && RestsOn(t.stack, bottom) && bottom != [] && bottom[0] == Let(Implicit(a))
    ensures t.status.Running? ==> Alive(t, a) && !Upgrades(t, WeakTo(a))
  {
    StillPending(t.stack, bottom, a);
    if t.status.Running? {
      assert Implicit(a) in Held(t);
      HolderSees(t.blocks, Held(t), Implicit(a));
      assert Good(t.blocks[a], Held(t), a);
    }
  }

  /** And the destruction does end there: what is left then is to drop the implicit weak reference. */
  lemma {:induction false} DestructionEnds(s: State, a: Addr)
    requires Inv(s) && AboutToDestroy(s, a)
    ensures RunTo(Step(s), |s.stack|).stack == [Let(Implicit(a))] + s.stack[1..]
  {
    DestructionStarts(s, a);
    RunBottom(Step(s), |s.stack|);
  }

  lemma {:induction false} BottomStays(s: State, n: nat, bottom: seq<Task>)
    requires RestsOn(s.stack, bottom)
    requires forall k :: 0 <= k < n ==> |After(s, k).stack| > |bottom|
    ensures RestsOn(After(s, n).stack, bottom)
    decreases n
  {
    if n != 0 {
      assert After(s, 0) == s;
      StepRestsOn(s, bottom);
      var next := Step(s);
      forall k | 0 <= k < n - 1 ensures |After(next, k).stack| > |bottom| {
        assert After(s, k + 1) == After(next, k);
      }
      BottomStays(next, n - 1, bottom);
    }
  }

  // ---------------------------------------------------------------- calls

  /** A call is a run, so what holds after any number of steps holds when it returns. */
  lemma {:induction false} CallIsRun(s: State, d: nat) returns (n: nat)
    ensures RunTo(s, d) == After(s, n)
    decreases Work(s), |s.stack|
  {
    if |s.stack| <= d {
      n := 0;
    } else {
      StepWorks(s);
      var k := CallIsRun(Step(s), d);
      n := k + 1;
    }
  }

  /** What `make_mut` leaves: `h` is the only handle to a block with the value its caller saw at `a`. */
  ghost predicate Made(s: State, t: State, a: Addr, h: Addr)
    requires Alive(s, a) && s.blocks[a].slot.Init?
  {
    && t.status.Running? && Inv(t)
    && Alive(t, h) && Lone(t.blocks[h]) && Strong(h) in t.roots
    && t.blocks[h].slot.Init? && t.blocks[h].slot.v.payload == s.blocks[a].slot.v.payload
    && (s.blocks[a].strong == 1 ==> t.blocks[h].slot == s.blocks[a].slot)
    && (s.blocks[a].strong > 1 ==> a < |t.blocks| && t.blocks[a] == s.blocks[a].(strong := s.blocks[a].strong - 1))
    && |s.blocks| <= |t.blocks|
    && forall b :: 0 <= b < |s.blocks| && b != a ==> t.blocks[b] == s.blocks[b]
  }

  lemma {:induction false} MadeByCopy(s: State, a: Addr, fields: seq<Handle>, dtor: seq<Op>)
    requires Inv(s) && s.status.Running? && Strong(a) in s.roots && Movable(Lose(s, Strong(a)), fields)
    requires Alive(s, a) && s.blocks[a].slot.Init? && s.blocks[a].strong > 1
    ensures Made(s, RunTo(DoMakeMut(s, a, fields, dtor), |s.stack|), a, |s.blocks|)
  {
    CopyEnds(s, a, fields, dtor);
  }

  lemma {:induction false} MadeBySteal(s: State, a: Addr, fields: seq<Handle>, dtor: seq<Op>)
    requires Inv(s) && s.status.Running? && Strong(a) in s.roots && Movable(Lose(s, Strong(a)), fields)
    requires Alive(s, a) && s.blocks[a].slot.Init? && s.blocks[a].strong == 1 && s.blocks[a].weak > 1
    ensures Made(s, RunTo(DoMakeMut(s, a, fields, dtor), |s.stack|), a, |s.blocks|)
  {
    StealKeeps(s, a, fields, dtor);
  }

  /** `make_mut`, in each of its three branches, gives a handle to a block nobody else has any handle to,
    * with the value its caller saw; every other block, and the old one as its other owners see it, keeps
    * its value. */
  lemma {:induction false} MakeMutKeepsValues(s: State, a: Addr, fields: seq<Handle>, dtor: seq<Op>)
    requires Inv(s) && s.status.Running? && Strong(a) in s.roots && Movable(Lose(s, Strong(a)), fields)
    ensures Alive(s, a) && s.blocks[a].slot.Init?
    ensures Made(s, RunTo(DoMakeMut(s, a, fields, dtor), |s.stack|), a, if Lone(s.blocks[a]) then a else |s.blocks|)
  {
    AloneCounted(s, a);
    if s.blocks[a].strong != 1 {
      MadeByCopy(s, a, fields, dtor);
    } else if s.blocks[a].weak != 1 {
      MadeBySteal(s, a, fields, dtor);
    }
  }

  lemma {:induction false} CopyEnds(s: State, a: Addr, fields: seq<Handle>, dtor: seq<Op>)
    requires Inv(s) && s.status.Running? && Strong(a) in s.roots && Movable(Lose(s, Strong(a)), fields)
    requires Alive(s, a) && s.blocks[a].slot.Init? && s.blocks[a].strong > 1
    ensures var y := DoMakeMut(s, a, fields, dtor).(stack := s.stack);
      var t := RunTo(DoMakeMut(s, a, fields, dtor), |s.stack|);
      t == Set(y, a, s.blocks[a].(strong := s.blocks[a].strong - 1)) && Inv(t)
  {
    CopyRuns(s, a, fields, dtor);
    var x := DoMakeMut(s, a, fields, dtor);
    var y := x.(stack := s.stack);
    var t := Exec(y, Let(Strong(a)));
    assert t == Set(y, a, s.blocks[a].(strong := s.blocks[a].strong - 1));
    assert RunTo(t, |s.stack|) == t;
    RunKeeps(x, |s.stack|);
  }

  function Each(a: Addr, k: nat): seq<Task> {
    if k == 0 then [] else [Do(IntoInner(a))] + Each(a, k - 1)
  }

  lemma {:induction false} StepTwice(s: State) returns (t: State)
    requires Inv(s) && s.stack != [] && Step(s).stack != []
    ensures t == Step(Step(s)) && Inv(t) && RunTo(s, 0) == RunTo(t, 0)
  {
    StepKeeps(s);
    StepKeeps(Step(s));
    StepWorks(s);
    StepWorks(Step(s));
    t := Step(Step(s));
  }

  /** `into_inner` on a handle that is not the last is its drop, and on the last moves the value out. */
  lemma {:induction false} IntoInnerExec(r: State, a: Addr)
    requires r.status.Running? && Strong(a) in r.roots && Alive(r, a) && r.blocks[a].strong > 0
    ensures var x := Exec(r, Do(IntoInner(a)));
      if r.blocks[a].strong == 1 then x == Unwrap(r, a) else x == Pushed(Lose(r, Strong(a)), Let(Strong(a)))
  {
  }

  lemma {:induction false} DropExec(r: State, a: Addr)
    requires r.status.Running? && Alive(r, a) && r.blocks[a].strong > 1
    ensures Exec(r, Let(Strong(a))) == Set(r, a, r.blocks[a].(strong := r.blocks[a].strong - 1))
  {
  }

  lemma {:induction false} DropOneOf(s: State, a: Addr) returns (t: State)
    requires Inv(s) && s.status.Running? && Strong(a) in s.roots && s.stack != [] && s.stack[0] == Do(IntoInner(a))
    requires a < |s.blocks| && s.blocks[a].strong > 1
    ensures RunTo(s, 0) == RunTo(t, 0)
    ensures Inv(t) && t.status.Running? && t.stack == s.stack[1..] && t.destroyed == s.destroyed
    ensures t.roots == s.roots - multiset{Strong(a)}
    ensures t.blocks == s.blocks[a := s.blocks[a].(strong := s.blocks[a].strong - 1)]
  {
    assert Alive(s, a) by { StrongCounted(s, a); }
    var r := s.(stack := s.stack[1..]);
    IntoInnerExec(r, a);
    PushedStep(Lose(r, Strong(a)), Let(Strong(a)));
    DropExec(Lose(r, Strong(a)), a);
    t := StepTwice(s);
  }

  lemma {:induction false} TakeLast(s: State, a: Addr)
    requires Inv(s) && s.status.Running? && s.stack == [Do(IntoInner(a))]
    requires a < |s.blocks| && s.roots[Strong(a)] == s.blocks[a].strong == 1
    ensures var t := RunTo(s, 0);
      && t.status.Running? && t.stack == []
      && a < |t.blocks| && t.blocks[a].slot.Moved? && t.destroyed == s.destroyed
      && t.roots == s.roots[Strong(a) := 0] + Fields(s.blocks[a])
  {
    var r := s.(stack := []);
    assert Pushed(r, Do(IntoInner(a))) == s;
    OpOwnsNothing(r, IntoInner(a));
    StrongCounted(r, a);
    IntoInnerExec(r, a);
    PushedRuns(r, Do(IntoInner(a)));
    UnwrapRun(r, a);
    TakenOut(r, a);
  }

  lemma {:induction false} TakenOut(r: State, a: Addr)
    requires r.status.Running? && Alive(r, a) && r.blocks[a].slot.Init?
    requires r.roots[Strong(a)] == r.blocks[a].strong == 1 && r.blocks[a].weak > 0
    ensures var t := DropWeak(Unwrap(r, a).(stack := r.stack), a);
      && t.status.Running? && t.stack == r.stack
      && a < |t.blocks| && t.blocks[a].slot.Moved? && t.destroyed == r.destroyed
      && t.roots == r.roots[Strong(a) := 0] + Fields(r.blocks[a])
  {
    assert r.roots - multiset{Strong(a)} == r.roots[Strong(a) := 0];
  }

  lemma LessOne(m: multiset<Handle>, h: Handle)
    requires h in m
    ensures (m - multiset{h})[h] == m[h] - 1 && (m - multiset{h})[h := 0] == m[h := 0]
  {
  }

  /** If every strong handle is consumed by `into_inner`, the value is moved out, exactly once, by the last of
    * them, and is never destroyed in place. */
  lemma {:induction false} IntoInnerEach(s: State, a: Addr, k: nat)
    requires Inv(s) && s.status.Running? && s.stack == Each(a, k) && k > 0
    requires a < |s.blocks| && s.roots[Strong(a)] == s.blocks[a].strong == k
    ensures var t := RunTo(s, 0);
      && t.status.Running? && t.stack == []
      && a < |t.blocks| && t.blocks[a].slot.Moved? && t.destroyed == s.destroyed
      && t.roots == s.roots[Strong(a) := 0] + Fields(s.blocks[a])
    decreases k
  {
    if k == 1 {
      assert Each(a, 0) == [];
      TakeLast(s, a);
    } else {
      var t := DropOneOf(s, a);
      assert t.stack == Each(a, k - 1);
      IntoInnerEach(t, a, k - 1);
      LessOne(s.roots, Strong(a));
    }
  }
}

/** The hard case of a destruction, run: a value whose block has no `Weak` but the one in the value itself, and
  * whose destructor tries to upgrade it. */
module RcSelf {
  import opened RcMachine
  import opened RcInvariant
  import opened RcRuns
  import opened RcTheorems

  const TRY := Upgrade(WeakTo(0), Local)
  const SELF := Value(7, [WeakTo(0)], [TRY])

  /** `Rc::new_cyclic`, whose closure keeps a clone of the weak it is lent in the value; then the drop. */
  const PROGRAM := [CyclicBegin, Downgrade(Cyclic(0), Local), CyclicEnd(0, SELF), Drop(Strong(0))]

  function Only(b: Block, roots: multiset<Handle>, stack: seq<Task>, destroyed: seq<Addr>): State {
    State([b], roots, stack, destroyed, Running)
  }

  const BUILT := Only(Block(1, 2, Init(SELF), false), multiset{Strong(0)}, [Do(Drop(Strong(0)))], [])
  const LAST := Only(Block(1, 2, Init(SELF), false), multiset{}, [Let(Strong(0))], [])
  const DYING := Only(Block(0, 2, Dead, false), multiset{}, [Do(TRY), Let(WeakTo(0)), Let(Implicit(0))], [0])
  const TRIED := Only(Block(0, 2, Dead, false), multiset{}, [Let(WeakTo(0)), Let(Implicit(0))], [0])
  const EMPTIED := Only(Block(0, 1, Dead, false), multiset{}, [Let(Implicit(0))], [0])
  const FREED := Only(Block(0, 0, Dead, true), multiset{}, [], [0])

  lemma ProgramTasks(ops: seq<Op>)
    ensures |Dos(ops)| == |ops| && forall i :: 0 <= i < |ops| ==> Dos(ops)[i] == Do(ops[i])
  {
    if ops != [] {
      ProgramTasks(ops[1..]);
    }
  }

  lemma Building()
    ensures After(Start(PROGRAM), 3) == BUILT
  {
    var s0 := Start(PROGRAM);
    var d := Do(Drop(Strong(0)));
    ProgramTasks(PROGRAM);
    assert s0.stack == [Do(PROGRAM[0]), Do(PROGRAM[1]), Do(PROGRAM[2]), d];
    var s1 := Step(s0);
    assert s1 == Only(Block(0, 1, Uninit, false), multiset{Cyclic(0)}, [Do(PROGRAM[1]), Do(PROGRAM[2]), d], []);
    var s2 := Step(s1);
    assert s2 == Only(Block(0, 2, Uninit, false), multiset{Cyclic(0), WeakTo(0)}, [Do(PROGRAM[2]), d], []) by {
      assert Cyclic(0) in Open(s1.(stack := s1.stack[1..]));
    }
    Closing(s2);
    assert After(s0, 3) == After(s1, 2) == After(s2, 1) == After(Step(s2), 0);
  }

  lemma Closing(s: State)
    requires s == Only(Block(0, 2, Uninit, false), multiset{Cyclic(0), WeakTo(0)},
      [Do(CyclicEnd(0, SELF)), Do(Drop(Strong(0)))], [])
    ensures Step(s) == BUILT
  {
    assert s.stack[1..] == BUILT.stack;
    assert multiset{Cyclic(0), WeakTo(0)} - multiset{Cyclic(0)} == multiset(SELF.fields);
    assert Step(s).blocks == BUILT.blocks;
    assert Step(s).roots == BUILT.roots;
  }

  lemma TodoNone(rest: seq<Task>)
    ensures Todo([], [], rest) == rest
  {
  }

  lemma TodoField(h: Handle, rest: seq<Task>)
    ensures Todo([], [h], rest) == [Let(h)] + rest
  {
    TodoNone(rest);
    assert [h][1..] == [];
  }

  lemma TodoSelf(op: Op, h: Handle, rest: seq<Task>)
    ensures Todo([op], [h], rest) == [Do(op), Let(h)] + rest
  {
    TodoField(h, rest);
    assert [op][1..] == [];
    assert [Do(op)] + ([Let(h)] + rest) == [Do(op), Let(h)] + rest;
  }

  lemma LetGo()
    ensures Step(BUILT) == LAST
  {
    assert BUILT.roots - multiset{Strong(0)} == multiset{};
    assert [Let(Strong(0))] + BUILT.stack[1..] == LAST.stack;
  }

  lemma Dropping()
    ensures Step(LAST) == DYING
  {
    var r := LAST.(stack := []);
    assert LAST.stack[1..] == [];
    LastDropExec(r, 0);
    var r1 := Set(r, 0, Block(0, 2, Init(SELF), false));
    TodoSelf(TRY, WeakTo(0), [Let(Implicit(0))] + r1.stack);
    assert DropSlow(r1, 0) == DYING;
  }

  lemma Destroying()
    ensures Step(DYING) == TRIED && Step(TRIED) == EMPTIED && Step(EMPTIED) == FREED
    ensures Found(DYING.(stack := DYING.stack[1..]), WeakTo(0), Local)
  {
    var r := DYING.(stack := DYING.stack[1..]);
    assert r == TRIED;
    assert Pending(r.stack) == multiset{WeakTo(0)} + Pending(r.stack[1..]);
    assert WeakTo(0) in Open(r);
    assert TRIED.stack[1..] == EMPTIED.stack;
  }

  /** The destructor does get to try, and gains no handle; the block lives until the value's last field is
    * dropped, although that was its only `Weak`, and is freed right after; the value is destroyed once. */
  lemma {:induction false} SelfWeakIsSafe()
    ensures After(Start(PROGRAM), 4) == LAST && AboutToDestroy(LAST, 0)
    ensures After(Start(PROGRAM), 5) == DYING && Found(DYING.(stack := DYING.stack[1..]), WeakTo(0), Local)
    ensures After(Start(PROGRAM), 6) == TRIED && After(Start(PROGRAM), 7) == EMPTIED
    ensures After(Start(PROGRAM), 8) == FREED
  {
    Building();
    LetGo();
    Dropping();
    Destroying();
    Onwards(Start(PROGRAM), 3);
    Onwards(Start(PROGRAM), 4);
    Onwards(Start(PROGRAM), 5);
    Onwards(Start(PROGRAM), 6);
    Onwards(Start(PROGRAM), 7);
  }

  lemma {:induction false} Onwards(s: State, n: nat)
    ensures var t := After(s, n);
      After(s, n + 1) == if t.stack == [] then t else Step(t)
    decreases n
  {
    if n > 0 && s.stack != [] {
      Onwards(Step(s), n - 1);
    }
  }
}

/** Which values live on: in a heap without ownership cycles exactly those the program can reach, and a
  * strong cycle nobody outside holds a handle to for ever. */
module RcReclaim {
  import opened RcMachine
  import opened RcInvariant
  import opened RcSteps
  import opened RcRuns
  import opened RcTheorems

  predicate Owning(held: multiset<Handle>, a: Addr) {
    Strong(a) in held || Unique(a) in held
  }

  /** Ownership between values goes down in rank; `Weak` handles may point anywhere. */
  ghost predicate Acyclic(s: State, rank: Addr -> nat) {
    forall a, b: Addr :: 0 <= a < |s.blocks| && Owning(Fields(s.blocks[a]), b) ==> rank(b) < rank(a)
  }

  /** The program owns `p[0]`, and the value of each block on the way owns the next. */
  ghost predicate Path(s: State, p: seq<Addr>) {
    && p != [] && Owning(s.roots, p[0])
    && (forall i :: 0 <= i < |p| ==> p[i] < |s.blocks|)
    && forall i :: 0 < i < |p| ==> Owning(Fields(s.blocks[p[i - 1]]), p[i])
  }

  function MaxRank(n: nat, rank: Addr -> nat): (r: nat)
    ensures forall a :: 0 <= a < n ==> rank(a) <= r
  {
    if n == 0 then 0
    else if rank(n - 1) > MaxRank(n - 1, rank) then rank(n - 1) else MaxRank(n - 1, rank)
  }

  lemma OwnedIn(blocks: seq<Block>, h: Handle) returns (b: Addr)
    requires h in Owned(blocks)
    ensures b < |blocks| && h in Fields(blocks[b])
  {
    if h in Fields(blocks[|blocks| - 1]) {
      b := |blocks| - 1;
    } else {
      b := OwnedIn(blocks[..|blocks| - 1], h);
    }
  }

  lemma OwnedHas(blocks: seq<Block>, b: Addr, h: Handle)
    requires b < |blocks| && h in Fields(blocks[b])
    ensures h in Owned(blocks)
  {
    if b < |blocks| - 1 {
      OwnedHas(blocks[..|blocks| - 1], b, h);
    }
  }

  /** Without ownership cycles, a value that is left is one the program can reach through owners. */
  lemma {:induction false} LiveIsReachable(s: State, rank: Addr -> nat, a: Addr) returns (p: seq<Addr>)
    requires Inv(s) && s.status.Running? && s.stack == [] && Acyclic(s, rank)
    requires a < |s.blocks| && s.blocks[a].slot.Init?
    ensures Path(s, p) && p[|p| - 1] == a
    decreases MaxRank(|s.blocks|, rank) - rank(a)
  {
    if Owning(s.roots, a) {
      p := [a];
    } else {
      var b := OwnerBlock(s, a);
      var q := LiveIsReachable(s, rank, b);
      p := q + [a];
    }
  }

  /** A value the program does not own itself is owned by another value. */
  lemma {:induction false} OwnerBlock(s: State, a: Addr) returns (b: Addr)
    requires Inv(s) && s.status.Running? && s.stack == []
    requires a < |s.blocks| && s.blocks[a].slot.Init? && !Owning(s.roots, a)
    ensures b < |s.blocks| && s.blocks[b].slot.Init? && Owning(Fields(s.blocks[b]), a)
  {
    assert Good(s.blocks[a], Held(s), a);
    b := OwnedIn(s.blocks, if Held(s)[Strong(a)] > 0 then Strong(a) else Unique(a));
  }

  /** What the program can reach through owners is alive, cycles or not. */
  lemma {:induction false} ReachableIsLive(s: State, p: seq<Addr>, i: nat)
    requires Inv(s) && s.status.Running? && s.stack == []
    requires Path(s, p) && i < |p|
    ensures s.blocks[p[i]].slot.Init? && !s.blocks[p[i]].freed
  {
    var h := if i == 0 then (if Strong(p[0]) in s.roots then Strong(p[0]) else Unique(p[0]))
      else (if Strong(p[i]) in Fields(s.blocks[p[i - 1]]) then Strong(p[i]) else Unique(p[i]));
    if i > 0 {
      OwnedHas(s.blocks, p[i - 1], h);
    }
    assert h in Held(s);
    HolderSees(s.blocks, Held(s), h);
  }

  lemma NoneOwned(blocks: seq<Block>)
    requires forall a :: 0 <= a < |blocks| ==> !blocks[a].slot.Init?
    ensures Owned(blocks) == multiset{}
  {
    if blocks != [] {
      NoneOwned(blocks[..|blocks| - 1]);
    }
  }

  /** No block is left. */
  predicate AllReclaimed(s: State) {
    forall a :: 0 <= a < |s.blocks| ==> s.blocks[a].freed && !s.blocks[a].slot.Init?
  }

  /** Only handles to nothing are left. */
  predicate OnlyDangling(held: multiset<Handle>) {
    forall h :: h in held ==> h.Dangling?
  }

  lemma {:induction false} NoRootsNoValues(s: State, rank: Addr -> nat)
    requires Inv(s) && s.status.Running? && s.stack == [] && OnlyDangling(s.roots) && Acyclic(s, rank)
    ensures AllReclaimed(s)
  {
    forall a | 0 <= a < |s.blocks| ensures !s.blocks[a].slot.Init? {
      if s.blocks[a].slot.Init? {
        var p := LiveIsReachable(s, rank, a);
      }
    }
    NoneOwned(s.blocks);
    assert Held(s) == s.roots;
    forall a | 0 <= a < |s.blocks| ensures s.blocks[a].freed {
      assert Good(s.blocks[a], Held(s), a);
    }
  }

  lemma {:induction false} NoBlocksNoRoots(s: State)
    requires Inv(s) && s.status.Running? && AllReclaimed(s)
    ensures OnlyDangling(s.roots)
  {
    forall h | h in s.roots ensures h.Dangling? {
      if !h.Dangling? {
        assert h in Held(s);
        HolderSees(s.blocks, Held(s), h);
      }
    }
  }

  lemma {:induction false} ProgramEnds(program: seq<Op>)
    ensures Inv(RunTo(Start(program), 0)) && RunTo(Start(program), 0).stack == []
  {
    StartKeeps(program);
    RunKeeps(Start(program), 0);
    RunBottom(Start(program), 0);
  }

  /** A heap that holds nothing cyclic is empty exactly if the program has no handle. */
  lemma {:induction false} ReclaimedExactly(s: State, rank: Addr -> nat)
    requires Inv(s) && s.status.Running? && s.stack == [] && Acyclic(s, rank)
    ensures AllReclaimed(s) <==> OnlyDangling(s.roots)
  {
    if OnlyDangling(s.roots) { NoRootsNoValues(s, rank); }
    if AllReclaimed(s) { NoBlocksNoRoots(s); }
  }

  /** A program, with destructors that run any code, that ends without an ownership cycle has destroyed or
    * moved out every value and freed every block exactly if it has no handle left. */
  lemma {:induction false} ProgramReclaimsExactly(program: seq<Op>, rank: Addr -> nat)
    requires var t := RunTo(Start(program), 0);
      t.status.Running? && Acyclic(t, rank)
    ensures AllReclaimed(RunTo(Start(program), 0)) <==> OnlyDangling(RunTo(Start(program), 0).roots)
  {
    ProgramEnds(program);
    ReclaimedExactly(RunTo(Start(program), 0), rank);
  }

  // ---------------------------------------------------------------- dropping everything

  /** Only drops are left to run, and no value has a destructor of its own. */
  ghost predicate PlainDrops(s: State) {
    && (forall i :: 0 <= i < |s.stack| ==> s.stack[i].Let?)
    && (forall a :: 0 <= a < |s.blocks| && s.blocks[a].slot.Init? ==> s.blocks[a].slot.v.dtor == [])
  }

  lemma TodoLets(fields: seq<Handle>, rest: seq<Task>)
    requires forall i :: 0 <= i < |rest| ==> rest[i].Let?
    ensures forall i :: 0 <= i < |Todo([], fields, rest)| ==> Todo([], fields, rest)[i].Let?
  {
    if fields != [] {
      TodoLets(fields[1..], rest);
    }
  }

  /** A plain drop only takes away: the program's handles stay, and no value gains one. */
  ghost predicate Shrinks(s: State, s2: State) {
    && s2.roots == s.roots && |s2.blocks| == |s.blocks|
    && s2.status == s.status
    && forall a :: 0 <= a < |s.blocks| ==> s2.blocks[a].slot == s.blocks[a].slot || !s2.blocks[a].slot.Init?
  }

  lemma {:induction false} DropSlowShrinks(s: State, a: Addr)
    requires PlainDrops(s)
    requires Alive(s, a) && s.blocks[a].slot.Init?
    ensures PlainDrops(DropSlow(s, a)) && Shrinks(s, DropSlow(s, a))
  {
    TodoLets(s.blocks[a].slot.v.fields, [Let(Implicit(a))] + s.stack);
  }

  lemma {:induction false} CountsShrink(s: State, a: Addr, b: Block)
    requires PlainDrops(s) && a < |s.blocks| && b.slot == s.blocks[a].slot
    ensures PlainDrops(Set(s, a, b)) && Shrinks(s, Set(s, a, b))
  {
  }

  lemma {:induction false} DropStrongShrinks(s: State, a: Addr)
    requires PlainDrops(s) && !DropStrong(s, a).status.Fault? && s.status.Running?
    ensures PlainDrops(DropStrong(s, a)) && Shrinks(s, DropStrong(s, a))
  {
    var b := s.blocks[a].(strong := s.blocks[a].strong - 1);
    CountsShrink(s, a, b);
    if b.strong == 0 {
      DropSlowShrinks(Set(s, a, b), a);
    }
  }

  lemma {:induction false} DropWeakShrinks(s: State, a: Addr)
    requires PlainDrops(s) && !DropWeak(s, a).status.Fault? && s.status.Running?
    ensures PlainDrops(DropWeak(s, a)) && Shrinks(s, DropWeak(s, a))
  {
    CountsShrink(s, a, DropWeak(s, a).blocks[a]);
  }

  lemma {:induction false} ReleaseShrinks(s: State, h: Handle)
    requires PlainDrops(s) && !Release(s, h).status.Fault? && s.status.Running?
    ensures PlainDrops(Release(s, h)) && Shrinks(s, Release(s, h))
  {
    match h
    case Unique(a) => DropSlowShrinks(s, a);
    case Strong(a) => DropStrongShrinks(s, a);
    case WeakTo(a) => DropWeakShrinks(s, a);
    case Cyclic(a) => DropWeakShrinks(s, a);
    case Implicit(a) => DropWeakShrinks(s, a);
    case Dangling =>
  }

  lemma {:induction false} ShrinksKeepsAcyclic(s: State, s2: State, rank: Addr -> nat)
    requires Shrinks(s, s2) && Acyclic(s, rank)
    ensures Acyclic(s2, rank)
  {
    forall a, b: Addr | 0 <= a < |s2.blocks| && Owning(Fields(s2.blocks[a]), b) ensures rank(b) < rank(a) {
      assert Fields(s.blocks[a]) == Fields(s2.blocks[a]);
    }
  }

  lemma {:induction false} DropsRun(s: State, rank: Addr -> nat)
    requires Inv(s) && s.status.Running? && PlainDrops(s) && Acyclic(s, rank)
    ensures var t := RunTo(s, 0);
      Inv(t) && t.status.Running? && t.stack == [] && t.roots == s.roots && Acyclic(t, rank)
    decreases Work(s), |s.stack|
  {
    if s.stack != [] {
      StepWorks(s);
      StepKeeps(s);
      var r := s.(stack := s.stack[1..]);
      assert PlainDrops(r);
      ReleaseShrinks(r, s.stack[0].h);
      ShrinksKeepsAcyclic(s, Step(s), rank);
      DropsRun(Step(s), rank);
    }
  }

  /** If ownership has no cycle, dropping every handle the program has, in any order, destroys every value
    * and frees every block; `Weak` back-edges do not prevent it. */
  lemma {:induction false} DroppingAllReclaimsAll(s: State, rank: Addr -> nat, handles: seq<Handle>)
    requires Inv(s) && s.status.Running? && s.stack == [] && PlainDrops(s) && Acyclic(s, rank)
    requires multiset(handles) == s.roots
    ensures var t := RunTo(s.(roots := multiset{}, stack := Todo([], handles, [])), 0);
      && t.status.Running? && t.stack == [] && AllReclaimed(t)
  {
    var s1 := s.(roots := multiset{}, stack := Todo([], handles, []));
    AllPending(s, handles);
    TodoLets(handles, []);
    assert Acyclic(s1, rank);
    DropsRun(s1, rank);
    NoRootsNoValues(RunTo(s1, 0), rank);
  }

  lemma AllPending(s: State, handles: seq<Handle>)
    requires Inv(s) && s.status.Running? && s.stack == [] && multiset(handles) == s.roots
    ensures Inv(s.(roots := multiset{}, stack := Todo([], handles, [])))
  {
    TodoPending([], handles, []);
    SameSum(s.roots, Pending([]), Owned(s.blocks));
  }

  lemma SameSum(r: multiset<Handle>, p: multiset<Handle>, o: multiset<Handle>)
    ensures (multiset{} + (r + p)) + o == (r + p) + o
  {
  }
}

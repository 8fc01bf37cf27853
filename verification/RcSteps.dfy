/** Each step of the `Rc` heap keeps the invariant; no step is a fault. */
module RcSteps {
  import opened Basics
  import opened RcMachine
  import opened RcInvariant

  /** What a step must reach: no fault, and unless the process aborted, counts that agree. */
  ghost predicate Sound(s: State) {
    && !s.status.Fault?
    && (s.status.Running? ==> Tally(s.blocks, Held(s)))
  }

  ghost predicate Ready(s: State) {
    s.status.Running? && Tally(s.blocks, Held(s))
  }

  // ---------------------------------------------------------------- how each part moves the handles

  lemma Cancel(x: multiset<Handle>, y: multiset<Handle>, f: multiset<Handle>)
    requires x + f == y + f
    ensures x == y
  {
    forall h: Handle ensures x[h] == y[h] {
      assert (x + f)[h] == (y + f)[h];
    }
  }

  lemma SetHeld(s: State, a: Addr, b: Block)
    requires a < |s.blocks| && Fields(b) == Fields(s.blocks[a])
    ensures Held(Set(s, a, b)) == Held(s)
  {
    OwnedSet(s.blocks, a, b);
    Cancel(Owned(s.blocks[a := b]), Owned(s.blocks), Fields(b));
  }

  /** Destroying a value hands its fields to the running calls and adds the `_weak` of `drop_slow`. */
  lemma DropSlowHeld(s: State, a: Addr)
    requires Alive(s, a) && s.blocks[a].slot.Init?
    ensures Held(DropSlow(s, a)) == Held(s) + multiset{Implicit(a)}
  {
    var s2 := DropSlow(s, a);
    var v := s.blocks[a].slot.v;
    var f := multiset(v.fields);
    TodoPending(v.dtor, v.fields, [Let(Implicit(a))] + s.stack);
    OwnedSet(s.blocks, a, s2.blocks[a]);
    assert ([Let(Implicit(a))] + s.stack)[1..] == s.stack;
    HandedOver(s.roots, Pending(s.stack), Owned(s2.blocks), f, multiset{Implicit(a)}, Owned(s.blocks));
  }

  lemma HandedOver(r: multiset<Handle>, p: multiset<Handle>, o2: multiset<Handle>, f: multiset<Handle>,
    i: multiset<Handle>, o: multiset<Handle>)
    requires o2 + f == o + multiset{}
    ensures (r + (f + (i + p))) + o2 == ((r + p) + o) + i
  {
    forall x: Handle ensures ((r + (f + (i + p))) + o2)[x] == (((r + p) + o) + i)[x] {
      assert (o2 + f)[x] == (o + multiset{})[x];
    }
  }

  lemma PushHeld(s: State, h: Handle)
    ensures Held(s.(stack := [Let(h)] + s.stack)) == Held(s) + multiset{h}
  {
    assert ([Let(h)] + s.stack)[1..] == s.stack;
  }

  lemma FreshHeld(s: State, strong: nat, slot: Slot, h: Handle)
    ensures Held(Fresh(s, strong, slot, h)) == Held(s) + Fields(Block(strong, 1, slot, false)) + multiset{h}
  {
    OwnedPush(s.blocks, Block(strong, 1, slot, false));
    Regroup(s.roots, Pending(s.stack), Owned(s.blocks), Fields(Block(strong, 1, slot, false)), multiset{h});
  }

  lemma Regroup(r: multiset<Handle>, p: multiset<Handle>, o: multiset<Handle>, f: multiset<Handle>, h: multiset<Handle>)
    ensures ((r + h) + p) + (o + f) == ((r + p) + o) + f + h
  {
    forall x: Handle ensures (((r + h) + p) + (o + f))[x] == (((r + p) + o) + f + h)[x] {}
  }

  lemma GiveHeld(s: State, h: Handle)
    ensures Held(Give(s, h)) == Held(s) + multiset{h}
  {
  }

  lemma LoseHeld(s: State, h: Handle)
    requires h in s.roots
    ensures Held(s) == Held(Lose(s, h)) + multiset{h}
  {
  }

  lemma SpendHeld(s: State, fields: seq<Handle>)
    requires multiset(fields) <= s.roots
    ensures Held(s) == Held(Spend(s, fields)) + multiset(fields)
  {
  }

  /** A value whose fields change by the same handles that leave, or join, the program. */
  lemma SlotHeld(s: State, a: Addr, b: Block)
    requires a < |s.blocks|
    ensures Held(Set(s, a, b)) + Fields(s.blocks[a]) == Held(s) + Fields(b)
  {
    OwnedSet(s.blocks, a, b);
    Shuffle(Owned(s.blocks[a := b]), Owned(s.blocks), Fields(s.blocks[a]), Fields(b), Open(s));
    assert Owned(s.blocks[a := b]) + Open(s) == Held(Set(s, a, b));
    assert Owned(s.blocks) + Open(s) == Held(s);
  }

  // ---------------------------------------------------------------- drops

  lemma {:induction false} LastDropSound(s: State, a: Addr)
    requires s.status.Running? && Tally(s.blocks, Held(s) + multiset{Strong(a)})
    requires Alive(s, a) && s.blocks[a].strong == 1 && s.blocks[a].slot.Init?
    ensures Ready(DropSlow(Set(s, a, s.blocks[a].(strong := 0)), a))
  {
    var b := s.blocks[a].(strong := 0);
    var s' := Set(s, a, b);
    StrongLast(s.blocks, Held(s), a, Dead);
    SetHeld(s, a, b);
    DropSlowHeld(s', a);
    assert s'.blocks[a := b.(slot := Dead)] == s.blocks[a := b.(slot := Dead)];
  }

  lemma {:induction false} DropStrongSound(s: State, a: Addr)
    requires s.status.Running? && Tally(s.blocks, Held(s) + multiset{Strong(a)})
    ensures Ready(DropStrong(s, a))
  {
    StrongDown(s.blocks, Held(s), a);
    if s.blocks[a].strong == 1 {
      LastDropSound(s, a);
    } else {
      SetHeld(s, a, s.blocks[a].(strong := s.blocks[a].strong - 1));
    }
  }

  lemma WeakGone(s: State, a: Addr)
    requires Alive(s, a) && s.blocks[a].weak > 0
    ensures var b := s.blocks[a].(weak := s.blocks[a].weak - 1);
      var b2 := if b.weak == 0 then b.(freed := true) else b;
      DropWeak(s, a) == Set(s, a, b2) && Held(Set(s, a, b2)) == Held(s)
  {
    SetHeld(s, a, DropWeak(s, a).blocks[a]);
  }

  lemma {:induction false} DropWeakSound(s: State, h: Handle, a: Addr)
    requires h == WeakTo(a) || h == Cyclic(a) || h == Implicit(a)
    requires s.status.Running? && Tally(s.blocks, Held(s) + multiset{h})
    ensures Ready(DropWeak(s, a))
  {
    WeakDown(s.blocks, Held(s), h);
    WeakGone(s, a);
  }

  lemma {:induction false} DropUniqueSound(s: State, a: Addr)
    requires s.status.Running? && Tally(s.blocks, Held(s) + multiset{Unique(a)})
    ensures Ready(DropSlow(s, a))
  {
    UniqueLast(s.blocks, Held(s), a);
    DropSlowHeld(s, a);
  }

  lemma {:induction false} ReleaseSound(s: State, h: Handle)
    requires s.status.Running? && Tally(s.blocks, Held(s) + multiset{h})
    ensures Ready(Release(s, h))
  {
    match h
    case Strong(a) => DropStrongSound(s, a);
    case Unique(a) => DropUniqueSound(s, a);
    case WeakTo(a) => DropWeakSound(s, h, a);
    case Cyclic(a) => DropWeakSound(s, h, a);
    case Implicit(a) => DropWeakSound(s, h, a);
    case Dangling => DanglingFree(s.blocks, Held(s));
  }

  // ---------------------------------------------------------------- handles made

  lemma {:induction false} FoundHeld(s: State, h: Handle, p: Place)
    requires Found(s, h, p)
    ensures h in Held(s)
  {
    if p.Inside? {
      var b := s.blocks[p.block];
      OwnedSet(s.blocks, p.block, b.(slot := Dead));
      assert Fields(b)[h] > 0;
      assert (Owned(s.blocks[p.block := b.(slot := Dead)]) + Fields(b))[h] > 0;
    }
  }

  lemma {:induction false} StrongMade(s: State, a: Addr)
    requires Ready(s) && a < |s.blocks| && 0 < s.blocks[a].strong
    ensures var s' := IncStrong(s, a);
      Sound(if s'.status.Running? then Give(s', Strong(a)) else s')
  {
    HolderStrong(s, a);
    if s.blocks[a].strong < USIZE_MAX {
      StrongUp(s.blocks, Held(s), a);
      SetHeld(s, a, s.blocks[a].(strong := s.blocks[a].strong + 1));
      GiveHeld(IncStrong(s, a), Strong(a));
    }
  }

  lemma HolderStrong(s: State, a: Addr)
    requires Ready(s) && a < |s.blocks| && 0 < s.blocks[a].strong
    ensures !s.blocks[a].freed && s.blocks[a].strong <= USIZE_MAX
  {
    assert Good(s.blocks[a], Held(s), a);
  }

  lemma HolderWeak(s: State, a: Addr)
    requires Ready(s) && a < |s.blocks| && !s.blocks[a].freed
    ensures 0 < s.blocks[a].weak <= USIZE_MAX
  {
    assert Good(s.blocks[a], Held(s), a);
  }

  lemma {:induction false} WeakMade(s: State, a: Addr)
    requires Ready(s) && a < |s.blocks| && !s.blocks[a].freed
    ensures var s' := IncWeak(s, a);
      Sound(if s'.status.Running? then Give(s', WeakTo(a)) else s')
  {
    HolderWeak(s, a);
    if s.blocks[a].weak < USIZE_MAX {
      WeakUp(s.blocks, Held(s), a);
      SetHeld(s, a, s.blocks[a].(weak := s.blocks[a].weak + 1));
      GiveHeld(IncWeak(s, a), WeakTo(a));
    }
  }

  lemma {:induction false} CloneSound(s: State, h: Handle, p: Place)
    requires Ready(s)
    ensures Sound(DoClone(s, h, p))
  {
    if Found(s, h, p) {
      FoundHeld(s, h, p);
      match h
      case Dangling =>
        DanglingFree(s.blocks, Held(s));
        GiveHeld(s, Dangling);
      case Strong(a) =>
        HolderSees(s.blocks, Held(s), h);
        StrongMade(s, a);
      case WeakTo(a) =>
        HolderSees(s.blocks, Held(s), h);
        WeakMade(s, a);
      case _ =>
    }
  }

  lemma {:induction false} DowngradeSound(s: State, h: Handle, p: Place)
    requires Ready(s)
    ensures Sound(DoDowngrade(s, h, p))
  {
    if Found(s, h, p) && !h.Dangling? {
      FoundHeld(s, h, p);
      HolderSees(s.blocks, Held(s), h);
      WeakMade(s, h.at);
    }
  }

  lemma {:induction false} UpgradeSound(s: State, h: Handle, p: Place)
    requires Ready(s)
    ensures Sound(DoUpgrade(s, h, p))
  {
    if Found(s, h, p) && !h.Dangling? {
      FoundHeld(s, h, p);
      HolderSees(s.blocks, Held(s), h);
      if s.blocks[h.at].strong > 0 {
        StrongMade(s, h.at);
      }
    }
  }

  // ---------------------------------------------------------------- values made and moved

  lemma {:induction false} NewSound(s: State, v: Value, strong: nat, h: Handle)
    requires Ready(s) && Movable(s, v.fields)
    requires (h == Strong(|s.blocks|) && strong == 1) || (h == Unique(|s.blocks|) && strong == 0)
    ensures Ready(Fresh(Spend(s, v.fields), strong, Init(v), h))
  {
    Born(s.blocks, Held(s), strong, Init(v), h);
    SpendHeld(s, v.fields);
    FreshHeld(Spend(s, v.fields), strong, Init(v), h);
  }

  lemma {:induction false} CyclicBeginSound(s: State)
    requires Ready(s)
    ensures Ready(Perform(s, CyclicBegin))
  {
    var h := Cyclic(|s.blocks|);
    Born(s.blocks, Held(s), 0, Uninit, h);
    FreshHeld(s, 0, Uninit, h);
    assert Held(Fresh(s, 0, Uninit, h)) == Held(s) + multiset{h};
  }

  lemma {:induction false} IntoRcSound(s: State, a: Addr)
    requires Ready(s)
    ensures Ready(DoIntoRc(s, a))
  {
    if Unique(a) in s.roots {
      var r := Lose(s, Unique(a));
      LoseHeld(s, Unique(a));
      HolderSees(s.blocks, Held(s), Unique(a));
      var b := s.blocks[a].(strong := 1);
      Published(s.blocks, Held(r), Unique(a), b.slot);
      SetHeld(r, a, b);
      GiveHeld(Set(r, a, b), Strong(a));
      assert DoIntoRc(s, a) == Give(Set(r, a, b), Strong(a));
    }
  }

  lemma {:induction false} CyclicEndSound(s: State, a: Addr, v: Value)
    requires Ready(s)
    ensures Ready(DoCyclicEnd(s, a, v))
  {
    var h := Cyclic(a);
    if h in s.roots && Movable(Lose(s, h), v.fields) {
      LoseHeld(s, h);
      HolderSees(s.blocks, Held(s), h);
      var b := s.blocks[a].(strong := 1, slot := Init(v));
      Published(s.blocks, Held(Lose(s, h)), h, Init(v));
      CyclicEndHeld(Lose(s, h), a, v, b);
    }
  }

  lemma {:induction false} CyclicEndHeld(s: State, a: Addr, v: Value, b: Block)
    requires a < |s.blocks| && !s.blocks[a].slot.Init? && b.slot == Init(v)
    requires multiset(v.fields) <= s.roots
    ensures Held(Give(Spend(Set(s, a, b), v.fields), Strong(a))) == Held(s) + multiset{Strong(a)}
  {
    SlotHeld(s, a, b);
    SpendHeld(Set(s, a, b), v.fields);
    Cancel(Held(Spend(Set(s, a, b), v.fields)), Held(s), multiset(v.fields));
    GiveHeld(Spend(Set(s, a, b), v.fields), Strong(a));
  }

  lemma {:induction false} DropSound(s: State, h: Handle)
    requires Ready(s)
    ensures Ready(DoDrop(s, h))
  {
    if h in s.roots {
      LoseHeld(s, h);
      PushHeld(Lose(s, h), h);
      assert s.stack == Lose(s, h).stack;
    }
  }

  // ---------------------------------------------------------------- values moved

  lemma {:induction false} UnwrapHeld(r: State, a: Addr, b: Block)
    requires a < |r.blocks| && r.blocks[a].slot.Init? && b.slot.Moved?
    ensures var f := multiset(r.blocks[a].slot.v.fields);
      var s' := Set(r, a, b);
      Held(s'.(roots := s'.roots + f, stack := [Let(Implicit(a))] + r.stack)) == Held(r) + multiset{Implicit(a)}
  {
    var f := multiset(r.blocks[a].slot.v.fields);
    var s' := Set(r, a, b);
    var s2 := s'.(roots := s'.roots + f);
    SlotHeld(r, a, b);
    assert Held(s2) == Held(s') + f;
    PushHeld(s2, Implicit(a));
  }

  lemma {:induction false} UnwrapSound(s: State, a: Addr)
    requires Ready(s) && Strong(a) in s.roots
    requires a < |s.blocks| && s.blocks[a].strong == 1
    ensures Ready(Unwrap(s, a))
  {
    var r := Lose(s, Strong(a));
    LoseHeld(s, Strong(a));
    HolderSees(s.blocks, Held(s), Strong(a));
    StrongLast(s.blocks, Held(r), a, Moved);
    UnwrapHeld(r, a, s.blocks[a].(strong := 0, slot := Moved));
  }

  lemma {:induction false} IntoInnerSound(s: State, a: Addr)
    requires Ready(s)
    ensures Ready(DoTryUnwrap(s, a)) && Ready(DoIntoInner(s, a))
  {
    if Strong(a) in s.roots {
      HolderSees(s.blocks, Held(s), Strong(a));
      if s.blocks[a].strong == 1 {
        UnwrapSound(s, a);
      } else {
        DropSound(s, Strong(a));
      }
    }
  }

  lemma {:induction false} GetMutSound(s: State, a: Addr, payload: int)
    requires Ready(s)
    ensures Ready(DoGetMut(s, a, payload))
  {
    if Strong(a) in s.roots {
      HolderSees(s.blocks, Held(s), Strong(a));
      var v := s.blocks[a].slot.v.(payload := payload);
      ValueChanged(s.blocks, Held(s), a, v);
      SetHeld(s, a, s.blocks[a].(slot := Init(v)));
    }
  }

  lemma {:induction false} CopySound(s: State, a: Addr, copy: Value)
    requires Ready(s) && Strong(a) in s.roots && multiset(copy.fields) <= Lose(s, Strong(a)).roots
    ensures var n := Strong(|s.blocks|);
      Ready(Fresh(Spend(Lose(s, Strong(a)), copy.fields), 1, Init(copy), n).(stack := [Let(Strong(a))] + s.stack))
  {
    var n := Strong(|s.blocks|);
    var r := Lose(s, Strong(a));
    var r' := Spend(r, copy.fields);
    var s2 := Fresh(r', 1, Init(copy), n);
    Born(s.blocks, Held(s), 1, Init(copy), n);
    LoseHeld(s, Strong(a));
    SpendHeld(r, copy.fields);
    FreshHeld(r', 1, Init(copy), n);
    PushHeld(s2, Strong(a));
    assert Held(s2.(stack := [Let(Strong(a))] + s2.stack)) == Held(s) + multiset{n};
  }

  lemma {:induction false} StealHeld(r: State, a: Addr, b: Block, n: Handle)
    requires a < |r.blocks| && r.blocks[a].slot.Init? && b.slot.Moved?
    ensures Held(Fresh(Set(r, a, b), 1, r.blocks[a].slot, n)) == Held(r) + multiset{n}
  {
    SlotHeld(r, a, b);
    FreshHeld(Set(r, a, b), 1, r.blocks[a].slot, n);
    assert Held(Set(r, a, b)) + Fields(r.blocks[a]) == Held(r);
  }

  lemma {:induction false} StealSound(s: State, a: Addr)
    requires Ready(s) && Strong(a) in s.roots
    requires a < |s.blocks| && s.blocks[a].strong == 1 && s.blocks[a].weak > 1 && s.blocks[a].slot.Init?
    ensures var b := Block(0, s.blocks[a].weak - 1, Moved, false);
      Ready(Fresh(Lose(Set(s, a, b), Strong(a)), 1, s.blocks[a].slot, Strong(|s.blocks|)))
  {
    var b := Block(0, s.blocks[a].weak - 1, Moved, false);
    StealTally(s, a);
    StealHeld(Lose(s, Strong(a)), a, b, Strong(|s.blocks|));
    assert Lose(Set(s, a, b), Strong(a)) == Set(Lose(s, Strong(a)), a, b);
  }

  lemma {:induction false} StealTally(s: State, a: Addr)
    requires Ready(s) && Strong(a) in s.roots
    requires a < |s.blocks| && s.blocks[a].strong == 1 && s.blocks[a].weak > 1 && s.blocks[a].slot.Init?
    ensures Tally(s.blocks[a := Block(0, s.blocks[a].weak - 1, Moved, false)] + [Block(1, 1, s.blocks[a].slot, false)],
      Held(Lose(s, Strong(a))) + multiset{Strong(|s.blocks|)})
  {
    LoseHeld(s, Strong(a));
    LeftToWeaks(s.blocks, Held(Lose(s, Strong(a))), a);
    Born(s.blocks[a := Block(0, s.blocks[a].weak - 1, Moved, false)], Held(Lose(s, Strong(a))), 1, s.blocks[a].slot,
      Strong(|s.blocks|));
  }

  lemma {:induction false} MakeMutSound(s: State, a: Addr, fields: seq<Handle>, dtor: seq<Op>)
    requires Ready(s)
    ensures Ready(DoMakeMut(s, a, fields, dtor))
  {
    if Strong(a) in s.roots && Movable(Lose(s, Strong(a)), fields) {
      HolderSees(s.blocks, Held(s), Strong(a));
      if s.blocks[a].strong != 1 {
        CopySound(s, a, Value(s.blocks[a].slot.v.payload, fields, dtor));
      } else if s.blocks[a].weak != 1 {
        StealSound(s, a);
      }
    }
  }

  lemma {:induction false} OwnerHeld(s: State, a: Addr)
    requires Ready(s) && Owns(s, a)
    ensures Alive(s, a) && s.blocks[a].slot.Init?
  {
    var h := if Strong(a) in Open(s) then Strong(a) else Unique(a);
    assert h in Held(s);
    HolderSees(s.blocks, Held(s), h);
  }

  lemma {:induction false} PutSound(s: State, a: Addr, h: Handle)
    requires Ready(s)
    ensures Ready(DoPut(s, a, h))
  {
    if Movable(s, [h]) && Owns(Lose(s, h), a) {
      var r := Lose(s, h);
      assert h in multiset([h]);
      assert Owns(s, a);
      OwnerHeld(s, a);
      LoseHeld(s, h);
      var v := s.blocks[a].slot.v;
      var v' := v.(fields := v.fields + [h]);
      var b := s.blocks[a].(slot := Init(v'));
      ValueChanged(s.blocks, Held(s), a, v');
      SlotHeld(r, a, b);
      assert Fields(b) == multiset{h} + Fields(s.blocks[a]);
      Cancel(Held(Set(r, a, b)), Held(s), Fields(s.blocks[a]));
      assert DoPut(s, a, h) == Set(r, a, b);
    }
  }

  lemma {:induction false} TakeSound(s: State, a: Addr, h: Handle)
    requires Ready(s)
    ensures Ready(DoTake(s, a, h))
  {
    if Owns(s, a) {
      OwnerHeld(s, a);
      if Holds(s.blocks[a], h) {
        var v := s.blocks[a].slot.v;
        var v' := v.(fields := Without(v.fields, h));
        var b := s.blocks[a].(slot := Init(v'));
        ValueChanged(s.blocks, Held(s), a, v');
        SlotHeld(s, a, b);
        assert Fields(s.blocks[a]) == multiset{h} + Fields(b);
        GiveHeld(Set(s, a, b), h);
        Cancel(Held(Give(Set(s, a, b), h)), Held(s), Fields(b));
      }
    }
  }

  // ---------------------------------------------------------------- steps

  lemma {:induction false} PerformSound(s: State, op: Op)
    requires Ready(s)
    ensures Sound(Perform(s, op))
  {
    match op
    case New(v) => if Movable(s, v.fields) { NewSound(s, v, 1, Strong(|s.blocks|)); }
    case NewUnique(v) => if Movable(s, v.fields) { NewSound(s, v, 0, Unique(|s.blocks|)); }
    case IntoRc(a) => IntoRcSound(s, a);
    case CyclicBegin => CyclicBeginSound(s);
    case CyclicEnd(a, v) => CyclicEndSound(s, a, v);
    case Clone(h, p) => CloneSound(s, h, p);
    case Downgrade(h, p) => DowngradeSound(s, h, p);
    case Upgrade(h, p) => UpgradeSound(s, h, p);
    case Drop(h) => DropSound(s, h);
    case TryUnwrap(a) => IntoInnerSound(s, a);
    case IntoInner(a) => IntoInnerSound(s, a);
    case GetMut(a, payload) => GetMutSound(s, a, payload);
    case MakeMut(a, fields, dtor) => MakeMutSound(s, a, fields, dtor);
    case Put(a, h) => PutSound(s, a, h);
    case Take(a, h) => TakeSound(s, a, h);
  }

  lemma {:induction false} StepSound(s: State)
    requires Sound(s) && s.stack != []
    ensures Sound(Step(s))
  {
    var r := s.(stack := s.stack[1..]);
    if s.status.Running? {
      match s.stack[0]
      case Let(h) =>
        assert Held(s) == Held(r) + multiset{h};
        ReleaseSound(r, h);
      case Do(op) =>
        assert Held(s) == Held(r);
        PerformSound(r, op);
    }
  }

  /** The life of a block goes one way: a freed block is never touched again, and a value that was
    * destroyed or moved out never comes back. */
  predicate Later(b: Block, b2: Block) {
    && (b.freed ==> b2 == b)
    && (b.slot.Dead? ==> b2.slot.Dead?)
    && (b.slot.Moved? ==> b2.slot.Moved?)
    && (b.slot.Init? ==> !b2.slot.Uninit?)
  }

  ghost predicate Aged(s: State, s2: State) {
    && |s.blocks| <= |s2.blocks|
    && forall a :: 0 <= a < |s.blocks| ==> Later(s.blocks[a], s2.blocks[a])
  }

  /** No value was destroyed. */
  ghost predicate NoDeath(s: State, s2: State) {
    && |s.blocks| <= |s2.blocks|
    && s2.destroyed == s.destroyed
    && (forall a :: 0 <= a < |s.blocks| ==> (s2.blocks[a].slot.Dead? <==> s.blocks[a].slot.Dead?))
    && (forall a :: |s.blocks| <= a < |s2.blocks| ==> !s2.blocks[a].slot.Dead?)
  }

  /** Just the value of block `a` was destroyed. */
  ghost predicate Death(s: State, s2: State, a: Addr) {
    && |s2.blocks| == |s.blocks|
    && s2.destroyed == s.destroyed + [a]
    && a < |s.blocks| && s.blocks[a].slot.Init? && s2.blocks[a].slot.Dead?
    && (forall b :: 0 <= b < |s.blocks| && b != a ==> s2.blocks[b] == s.blocks[b])
  }

  ghost predicate Mild(s: State, s2: State) {
    Aged(s, s2) && NoDeath(s, s2)
  }

  lemma {:induction false} FreshMild(s: State, strong: nat, slot: Slot, h: Handle)
    requires !slot.Dead?
    ensures Mild(s, Fresh(s, strong, slot, h))
  {
  }

  lemma {:induction false} IntoRcMild(s: State, a: Addr)
    ensures Mild(s, DoIntoRc(s, a))
  {
  }

  lemma {:induction false} CyclicEndMild(s: State, a: Addr, v: Value)
    requires Cyclic(a) in s.roots ==> a < |s.blocks| && s.blocks[a].slot.Uninit?
    ensures Mild(s, DoCyclicEnd(s, a, v))
  {
  }

  lemma {:induction false} IncMild(s: State, a: Addr)
    ensures Mild(s, IncStrong(s, a)) && Mild(s, IncWeak(s, a))
  {
  }

  lemma {:induction false} CloneMild(s: State, h: Handle, p: Place)
    ensures Mild(s, DoClone(s, h, p))
  {
    assert Mild(s, s);
    if !h.Dangling? {
      IncMild(s, h.at);
    }
  }

  lemma {:induction false} DowngradeMild(s: State, h: Handle, p: Place)
    ensures Mild(s, DoDowngrade(s, h, p))
  {
    assert Mild(s, s);
    if !h.Dangling? {
      IncMild(s, h.at);
    }
  }

  lemma {:induction false} UpgradeMild(s: State, h: Handle, p: Place)
    ensures Mild(s, DoUpgrade(s, h, p))
  {
    assert Mild(s, s);
    if !h.Dangling? {
      IncMild(s, h.at);
    }
  }

  lemma {:induction false} UnwrapMild(s: State, a: Addr)
    ensures Mild(s, Unwrap(s, a))
  {
  }

  lemma {:induction false} MoveMild(s: State, a: Addr)
    ensures Mild(s, DoTryUnwrap(s, a)) && Mild(s, DoIntoInner(s, a))
  {
    UnwrapMild(s, a);
    SameHeap(s, DoDrop(s, Strong(a)), s);
    assert Mild(s, s) && Mild(s, Halt(s, Fault)) && Mild(s, DoDrop(s, Strong(a)));
  }

  lemma {:induction false} SlotMild(s: State, r: State, a: Addr, v: Value)
    requires r.blocks == s.blocks && r.destroyed == s.destroyed
    requires Alive(s, a) && s.blocks[a].slot.Init?
    ensures Mild(s, Set(r, a, s.blocks[a].(slot := Init(v))))
  {
  }

  lemma {:induction false} GetMutMild(s: State, a: Addr, payload: int)
    ensures Mild(s, DoGetMut(s, a, payload))
  {
    assert Mild(s, s) && Mild(s, Halt(s, Fault));
    if Alive(s, a) && s.blocks[a].slot.Init? {
      SlotMild(s, s, a, s.blocks[a].slot.v.(payload := payload));
    }
  }

  lemma {:induction false} PutMild(s: State, a: Addr, h: Handle)
    ensures Mild(s, DoPut(s, a, h))
  {
    assert Mild(s, s) && Mild(s, Halt(s, Fault));
    if Alive(s, a) && s.blocks[a].slot.Init? {
      var v := s.blocks[a].slot.v;
      SlotMild(s, Lose(s, h), a, v.(fields := v.fields + [h]));
    }
  }

  lemma {:induction false} TakeMild(s: State, a: Addr, h: Handle)
    ensures Mild(s, DoTake(s, a, h))
  {
    assert Mild(s, s) && Mild(s, Halt(s, Fault));
    if Alive(s, a) && Holds(s.blocks[a], h) {
      var v := s.blocks[a].slot.v;
      SlotMild(s, Give(s, h), a, v.(fields := Without(v.fields, h)));
    }
  }

  lemma {:induction false} CopyMild(s: State, r: State, copy: Value, n: Handle, stack: seq<Task>)
    requires r.blocks == s.blocks && r.destroyed == s.destroyed
    ensures Mild(s, Fresh(r, 1, Init(copy), n).(stack := stack))
  {
  }

  lemma {:induction false} StealMild(s: State, a: Addr, b: Block, n: Handle)
    requires Alive(s, a) && s.blocks[a].slot.Init? && b.slot.Moved?
    ensures Mild(s, Fresh(Lose(Set(s, a, b), Strong(a)), 1, s.blocks[a].slot, n))
  {
  }

  lemma {:induction false} MakeMutMild(s: State, a: Addr, fields: seq<Handle>, dtor: seq<Op>)
    ensures Mild(s, DoMakeMut(s, a, fields, dtor))
  {
    var s2 := DoMakeMut(s, a, fields, dtor);
    assert Mild(s, s) && Mild(s, Halt(s, Fault));
    if s2 != s && s2 != Halt(s, Fault) {
      var n := Strong(|s.blocks|);
      if s.blocks[a].strong != 1 {
        var r := Spend(Lose(s, Strong(a)), fields);
        CopyMild(s, r, Value(s.blocks[a].slot.v.payload, fields, dtor), n, [Let(Strong(a))] + s.stack);
      } else {
        StealMild(s, a, Block(0, s.blocks[a].weak - 1, Moved, false), n);
      }
    }
  }

  lemma {:induction false} SameHeap(s: State, r: State, s2: State)
    requires r.blocks == s.blocks && r.destroyed == s.destroyed
    ensures Aged(r, s2) <==> Aged(s, s2)
    ensures NoDeath(r, s2) <==> NoDeath(s, s2)
    ensures forall a :: Death(r, s2, a) <==> Death(s, s2, a)
  {
  }

  lemma {:induction false} NewMild(s: State, v: Value, strong: nat, h: Handle)
    ensures Mild(s, Fresh(Spend(s, v.fields), strong, Init(v), h))
  {
    FreshMild(Spend(s, v.fields), strong, Init(v), h);
    SameHeap(s, Spend(s, v.fields), Fresh(Spend(s, v.fields), strong, Init(v), h));
  }

  lemma {:induction false} CyclicSlot(s: State, a: Addr)
    requires Ready(s) && Cyclic(a) in s.roots
    ensures a < |s.blocks| && s.blocks[a].slot.Uninit?
  {
    assert Cyclic(a) in Held(s);
    HolderSees(s.blocks, Held(s), Cyclic(a));
  }

  lemma {:induction false} PerformMild(s: State, op: Op)
    requires Ready(s)
    ensures Mild(s, Perform(s, op))
  {
    assert Mild(s, s);
    match op
    case New(v) => NewMild(s, v, 1, Strong(|s.blocks|));
    case NewUnique(v) => NewMild(s, v, 0, Unique(|s.blocks|));
    case IntoRc(a) => IntoRcMild(s, a);
    case CyclicBegin => FreshMild(s, 0, Uninit, Cyclic(|s.blocks|));
    case CyclicEnd(a, v) =>
      if Cyclic(a) in s.roots { CyclicSlot(s, a); }
      CyclicEndMild(s, a, v);
    case Clone(h, p) => CloneMild(s, h, p);
    case Downgrade(h, p) => DowngradeMild(s, h, p);
    case Upgrade(h, p) => UpgradeMild(s, h, p);
    case Drop(h) => SameHeap(s, DoDrop(s, h), s);
    case TryUnwrap(a) => MoveMild(s, a);
    case IntoInner(a) => MoveMild(s, a);
    case GetMut(a, payload) => GetMutMild(s, a, payload);
    case MakeMut(a, fields, dtor) => MakeMutMild(s, a, fields, dtor);
    case Put(a, h) => PutMild(s, a, h);
    case Take(a, h) => TakeMild(s, a, h);
  }

  lemma {:induction false} ReleaseAges(s: State, h: Handle)
    requires s.status.Running?
    ensures Aged(s, Release(s, h))
    ensures NoDeath(s, Release(s, h)) || (!h.Dangling? && Death(s, Release(s, h), h.at))
  {
  }

  lemma {:induction false} StepAges(s: State)
    requires Sound(s) && s.stack != []
    ensures Aged(s, Step(s))
    ensures NoDeath(s, Step(s)) || (s.stack[0].Let? && !s.stack[0].h.Dangling? && Death(s, Step(s), s.stack[0].h.at))
  {
    var r := s.(stack := s.stack[1..]);
    SameHeap(s, r, Step(s));
    if s.status.Running? {
      match s.stack[0]
      case Let(h) =>
        ReleaseAges(r, h);
      case Do(op) =>
        assert Ready(r) by { assert Held(s) == Held(r); }
        PerformMild(r, op);
    }
  }

  /** Every step keeps the invariant: the counts are the handles, nothing undefined happens, and the log of
    * destroyed values stays exact and free of repetition. */
  lemma {:induction false} StepKeeps(s: State)
    requires Inv(s) && s.stack != []
    ensures Inv(Step(s))
  {
    StepSound(s);
    StepAges(s);
    if !NoDeath(s, Step(s)) {
      LogGrows(s, Step(s), s.stack[0].h.at);
    }
  }

  lemma {:induction false} LogGrows(s: State, s2: State, a: Addr)
    requires Logged(s) && Death(s, s2, a)
    ensures Logged(s2)
  {
    assert a !in s.destroyed;
  }
}

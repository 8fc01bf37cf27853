/** What the operations that make handles do to the handles that exist. */
module RcLedger {
  import opened Basics
  import opened RcMachine
  import opened RcInvariant
  import opened RcSteps

  lemma {:induction false} Settled(s: State, s2: State)
    requires Inv(s) && Sound(s2) && Mild(s, s2)
    ensures Inv(s2)
  {
  }

  lemma {:induction false} NewLedger(s: State, v: Value, strong: nat, h: Handle)
    requires Inv(s) && s.status.Running? && Movable(s, v.fields)
    requires (h == Strong(|s.blocks|) && strong == 1) || (h == Unique(|s.blocks|) && strong == 0)
    ensures var s2 := Fresh(Spend(s, v.fields), strong, Init(v), h);
      Inv(s2) && Held(s2) == Held(s) + multiset{h}
  {
    NewSound(s, v, strong, h);
    NewMild(s, v, strong, h);
    Settled(s, Fresh(Spend(s, v.fields), strong, Init(v), h));
    SpendHeld(s, v.fields);
    FreshHeld(Spend(s, v.fields), strong, Init(v), h);
  }

  lemma {:induction false} BeginLedger(s: State)
    requires Inv(s) && s.status.Running?
    ensures var h := Cyclic(|s.blocks|);
      var s2 := Fresh(s, 0, Uninit, h);
      Inv(s2) && Held(s2) == Held(s) + multiset{h}
  {
    CyclicBeginSound(s);
    FreshMild(s, 0, Uninit, Cyclic(|s.blocks|));
    Settled(s, Fresh(s, 0, Uninit, Cyclic(|s.blocks|)));
    FreshHeld(s, 0, Uninit, Cyclic(|s.blocks|));
    assert Held(s) + multiset{} == Held(s);
  }

  lemma {:induction false} IntoRcLedger(s: State, a: Addr)
    requires Inv(s) && s.status.Running? && Unique(a) in s.roots
    ensures var s2 := DoIntoRc(s, a);
      && Inv(s2) && s2.status.Running?
      && Held(s2) == Held(s) - multiset{Unique(a)} + multiset{Strong(a)}
      && !Upgrades(s, WeakTo(a)) && Upgrades(s2, WeakTo(a))
  {
    var r := Lose(s, Unique(a));
    IntoRcSound(s, a);
    IntoRcMild(s, a);
    Settled(s, DoIntoRc(s, a));
    LoseHeld(s, Unique(a));
    HolderSees(s.blocks, Held(s), Unique(a));
    var b := s.blocks[a].(strong := 1);
    SetHeld(r, a, b);
    GiveHeld(Set(r, a, b), Strong(a));
    assert DoIntoRc(s, a) == Give(Set(r, a, b), Strong(a));
  }

  lemma {:induction false} EndHeld(s: State, a: Addr, v: Value)
    requires Cyclic(a) in s.roots && Movable(Lose(s, Cyclic(a)), v.fields)
    requires Alive(s, a) && s.blocks[a].strong == 0 && s.blocks[a].slot.Uninit?
    ensures Held(DoCyclicEnd(s, a, v)) == Held(Lose(s, Cyclic(a))) + multiset{Strong(a)}
    ensures DoCyclicEnd(s, a, v).status == s.status
  {
    var r := Lose(s, Cyclic(a));
    var b := s.blocks[a].(strong := 1, slot := Init(v));
    CyclicEndHeld(r, a, v, b);
    assert DoCyclicEnd(s, a, v) == Give(Spend(Set(r, a, b), v.fields), Strong(a));
  }

  lemma {:induction false} EndLedger(s: State, a: Addr, v: Value)
    requires Inv(s) && s.status.Running? && Cyclic(a) in s.roots && Movable(Lose(s, Cyclic(a)), v.fields)
    ensures Inv(DoCyclicEnd(s, a, v)) && DoCyclicEnd(s, a, v).status.Running?
    ensures Held(DoCyclicEnd(s, a, v)) == Held(s) - multiset{Cyclic(a)} + multiset{Strong(a)}
    ensures !Upgrades(s, WeakTo(a)) && Upgrades(DoCyclicEnd(s, a, v), WeakTo(a))
  {
    LoseHeld(s, Cyclic(a));
    HolderSees(s.blocks, Held(s), Cyclic(a));
    CyclicEndSound(s, a, v);
    CyclicEndMild(s, a, v);
    Settled(s, DoCyclicEnd(s, a, v));
    EndHeld(s, a, v);
  }

  /** The end of `new_cyclic_in`, one assignment after another. */
  lemma EndParts(s: State, a: Addr, v: Value)
    requires Cyclic(a) in s.roots && Movable(Lose(s, Cyclic(a)), v.fields) && Alive(s, a) && s.blocks[a].strong == 0
    ensures var b := s.blocks[a].(slot := Init(v));
      DoCyclicEnd(s, a, v) == s.(
        blocks := s.blocks[a := b][a := b.(strong := 1)],
        roots := s.roots - multiset{Cyclic(a)} - multiset(v.fields) + multiset{Strong(a)})
  {
  }

  /** The handles that a clone adds. */
  function Copied(h: Handle): multiset<Handle> {
    if h.Strong? || h.WeakTo? || h.Dangling? then multiset{h} else multiset{}
  }

  lemma {:induction false} StrongAdded(s: State, a: Addr)
    requires s.status.Running? && IncStrong(s, a).status.Running?
    ensures Held(Give(IncStrong(s, a), Strong(a))) == Held(s) + multiset{Strong(a)}
  {
    SetHeld(s, a, s.blocks[a].(strong := WrappingInc(s.blocks[a].strong)));
    GiveHeld(IncStrong(s, a), Strong(a));
  }

  lemma {:induction false} WeakAdded(s: State, a: Addr)
    requires s.status.Running? && IncWeak(s, a).status.Running?
    ensures Held(Give(IncWeak(s, a), WeakTo(a))) == Held(s) + multiset{WeakTo(a)}
  {
    SetHeld(s, a, s.blocks[a].(weak := WrappingInc(s.blocks[a].weak)));
    GiveHeld(IncWeak(s, a), WeakTo(a));
  }

  lemma {:induction false} CloneHeld(s: State, h: Handle, p: Place)
    requires s.status.Running? && Found(s, h, p) && DoClone(s, h, p).status.Running?
    ensures Held(DoClone(s, h, p)) == Held(s) + Copied(h)
  {
    match h
    case Strong(a) => StrongAdded(s, a);
    case WeakTo(a) => WeakAdded(s, a);
    case Dangling => GiveHeld(s, h);
    case _ => assert Held(s) + multiset{} == Held(s);
  }

  lemma {:induction false} CloneLedger(s: State, h: Handle, p: Place)
    requires Inv(s) && s.status.Running? && Found(s, h, p)
    ensures Inv(DoClone(s, h, p))
    ensures DoClone(s, h, p).status.Running? ==> Held(DoClone(s, h, p)) == Held(s) + Copied(h)
  {
    CloneSound(s, h, p);
    CloneMild(s, h, p);
    Settled(s, DoClone(s, h, p));
    if DoClone(s, h, p).status.Running? { CloneHeld(s, h, p); }
  }

  lemma {:induction false} DowngradeLedger(s: State, h: Handle, p: Place)
    requires Inv(s) && s.status.Running? && Found(s, h, p) && (h.Strong? || h.Unique? || h.Cyclic?)
    ensures var s2 := DoDowngrade(s, h, p);
      Inv(s2) && (s2.status.Running? ==> Held(s2) == Held(s) + multiset{WeakTo(h.at)})
  {
    DowngradeSound(s, h, p);
    DowngradeMild(s, h, p);
    Settled(s, DoDowngrade(s, h, p));
    if IncWeak(s, h.at).status.Running? { WeakAdded(s, h.at); }
  }

  lemma {:induction false} UpgradeHeld(s: State, h: Handle, p: Place)
    requires s.status.Running? && Found(s, h, p) && (h.WeakTo? || h.Cyclic?) && DoUpgrade(s, h, p).status.Running?
    ensures Held(DoUpgrade(s, h, p)) == if Upgrades(s, h) then Held(s) + multiset{Strong(h.at)} else Held(s)
  {
    if Upgrades(s, h) { StrongAdded(s, h.at); }
  }

  lemma {:induction false} UpgradeLedger(s: State, h: Handle, p: Place)
    requires Inv(s) && s.status.Running? && Found(s, h, p) && (h.WeakTo? || h.Cyclic?)
    ensures Inv(DoUpgrade(s, h, p))
    ensures DoUpgrade(s, h, p).status.Running? ==>
      Held(DoUpgrade(s, h, p)) == if Upgrades(s, h) then Held(s) + multiset{Strong(h.at)} else Held(s)
  {
    UpgradeSound(s, h, p);
    UpgradeMild(s, h, p);
    Settled(s, DoUpgrade(s, h, p));
    if DoUpgrade(s, h, p).status.Running? { UpgradeHeld(s, h, p); }
  }
}

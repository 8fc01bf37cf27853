/** Every count of the `Rc` heap is the number of handles that exist, at every step of every program. */
module RcInvariant {
  import opened Basics
  import opened RcMachine

  /** The handles a block's value owns. */
  function Fields(b: Block): multiset<Handle> {
    if b.slot.Init? then multiset(b.slot.v.fields) else multiset{}
  }

  function Owned(blocks: seq<Block>): multiset<Handle> {
    if blocks == [] then multiset{} else Owned(blocks[..|blocks| - 1]) + Fields(blocks[|blocks| - 1])
  }

  /** Every handle that exists: in the program, in the running destructors, inside the values. */
  function Held(s: State): multiset<Handle> {
    Open(s) + Owned(s.blocks)
  }

  /** How many of the things that share one unit of `weak` exist for block `a`: its strong handles
    * together, a `UniqueRc`, a running `new_cyclic_in`, a running `drop_slow`. */
  function Custody(held: multiset<Handle>, a: Addr): nat {
    (if held[Strong(a)] > 0 then 1 else 0) + held[Unique(a)] + held[Cyclic(a)] + held[Implicit(a)]
  }

  /** What the counters and the value of block `a` say, in terms of the handles that exist. */
  predicate Good(b: Block, held: multiset<Handle>, a: Addr) {
    && b.strong == held[Strong(a)] <= USIZE_MAX
    && Custody(held, a) <= 1
    && b.weak == held[WeakTo(a)] + Custody(held, a) <= USIZE_MAX
    && (b.freed <==> b.weak == 0)
    && (b.slot.Init? <==> held[Strong(a)] > 0 || held[Unique(a)] > 0)
    && (b.slot.Uninit? ==> held[Strong(a)] == 0 && held[Unique(a)] == 0)
    && (held[Cyclic(a)] > 0 ==> b.slot.Uninit?)
    && (held[Implicit(a)] > 0 ==> b.slot.Dead? || b.slot.Moved?)
  }

  /** The blocks agree with the handles that exist. */
  ghost predicate Tally(blocks: seq<Block>, held: multiset<Handle>) {
    && (forall h :: h in held ==> Target(h) < |blocks|)
    && (forall a {:trigger Good(blocks[a], held, a)} :: 0 <= a < |blocks| ==> Good(blocks[a], held, a))
  }

  /** The log of destructions has no repetition, and lists exactly the values destroyed in place. */
  ghost predicate Logged(s: State) {
    && (forall i, j :: 0 <= i < j < |s.destroyed| ==> s.destroyed[i] != s.destroyed[j])
    && (forall a: Addr :: a in s.destroyed <==> a < |s.blocks| && s.blocks[a].slot.Dead?)
  }

  ghost predicate Inv(s: State) {
    && !s.status.Fault?
    && Logged(s)
    && (s.status.Running? ==> Tally(s.blocks, Held(s)))
  }

  lemma Shuffle(x: multiset<Handle>, y: multiset<Handle>, f: multiset<Handle>, g: multiset<Handle>, z: multiset<Handle>)
    requires x + f == y + g
    ensures (x + z) + f == (y + z) + g
  {
    forall h: Handle ensures ((x + z) + f)[h] == ((y + z) + g)[h] {
      assert (x + f)[h] == (y + g)[h];
    }
  }

  lemma OwnedSet(blocks: seq<Block>, a: nat, b: Block)
    requires a < |blocks|
    ensures Owned(blocks[a := b]) + Fields(blocks[a]) == Owned(blocks) + Fields(b)
  {
    var k := |blocks| - 1;
    var next := blocks[a := b];
    if a == k {
      assert next[..k] == blocks[..k];
      assert next[k] == b;
    } else {
      OwnedSet(blocks[..k], a, b);
      assert next[..k] == blocks[..k][a := b];
      assert next[k] == blocks[k];
      Shuffle(Owned(next[..k]), Owned(blocks[..k]), Fields(blocks[a]), Fields(b), Fields(blocks[k]));
    }
  }

  lemma OwnedPush(blocks: seq<Block>, b: Block)
    ensures Owned(blocks + [b]) == Owned(blocks) + Fields(b)
  {
    assert (blocks + [b])[..|blocks|] == blocks;
  }

  lemma TodoPending(ops: seq<Op>, fields: seq<Handle>, rest: seq<Task>)
    ensures Pending(Todo(ops, fields, rest)) == multiset(fields) + Pending(rest)
  {
    if ops != [] {
      TodoPending(ops[1..], fields, rest);
    } else if fields != [] {
      TodoPending([], fields[1..], rest);
      assert multiset(fields) == multiset{fields[0]} + multiset(fields[1..]) by {
        assert fields == [fields[0]] + fields[1..];
      }
    }
  }

  /** Only the blocks in `touched` changed, and only handles to them. */
  lemma {:induction false} Kept(
    blocks: seq<Block>, held: multiset<Handle>, blocks2: seq<Block>, held2: multiset<Handle>, touched: set<Addr>)
    requires Tally(blocks, held)
    requires |blocks| <= |blocks2|
    requires forall a :: a in touched ==> a < |blocks2| && Good(blocks2[a], held2, a)
    requires forall a :: |blocks| <= a < |blocks2| ==> a in touched
    requires forall a :: 0 <= a < |blocks| && a !in touched ==> blocks2[a] == blocks[a]
    requires forall h: Handle :: !h.Dangling? && Target(h) !in touched ==> held2[h] == held[h]
    ensures Tally(blocks2, held2)
  {
    forall a | 0 <= a < |blocks2| ensures Good(blocks2[a], held2, a) {
      if a !in touched {
        assert Good(blocks[a], held, a);
        assert Target(Strong(a)) == a && Target(WeakTo(a)) == a && Target(Unique(a)) == a;
        assert Target(Cyclic(a)) == a && Target(Implicit(a)) == a;
      }
    }
    forall h | h in held2 ensures Target(h) < |blocks2| {
      if !h.Dangling? && Target(h) !in touched {
        assert held[h] > 0;
      }
    }
  }

  // ---------------------------------------------------------------- one entry of the ledger

  /** Only block `a` and handles to it changed. */
  lemma {:induction false} Entry(blocks: seq<Block>, held: multiset<Handle>, a: Addr, b: Block, held2: multiset<Handle>)
    requires Tally(blocks, held) && a < |blocks|
    requires Good(b, held2, a)
    requires forall h: Handle :: !h.Dangling? && Target(h) != a ==> held2[h] == held[h]
    ensures Tally(blocks[a := b], held2)
  {
    Kept(blocks, held, blocks[a := b], held2, {a});
  }

  lemma {:induction false} StrongDown(blocks: seq<Block>, m: multiset<Handle>, a: Addr)
    requires Tally(blocks, m + multiset{Strong(a)})
    ensures a < |blocks| && !blocks[a].freed && blocks[a].strong > 0 && blocks[a].slot.Init?
    ensures blocks[a].strong > 1 ==> Tally(blocks[a := blocks[a].(strong := blocks[a].strong - 1)], m)
  {
    var held := m + multiset{Strong(a)};
    assert Strong(a) in held && Target(Strong(a)) == a;
    assert Good(blocks[a], held, a);
    if blocks[a].strong > 1 {
      Entry(blocks, held, a, blocks[a].(strong := blocks[a].strong - 1), m);
    }
  }

  /** The last strong handle goes, whether its value is destroyed or moved out. */
  lemma {:induction false} StrongLast(blocks: seq<Block>, m: multiset<Handle>, a: Addr, slot: Slot)
    requires Tally(blocks, m + multiset{Strong(a)})
    requires a < |blocks| && blocks[a].strong == 1 && (slot.Dead? || slot.Moved?)
    ensures Tally(blocks[a := blocks[a].(strong := 0, slot := slot)], m + multiset{Implicit(a)})
  {
    var held := m + multiset{Strong(a)};
    assert Good(blocks[a], held, a);
    Entry(blocks, held, a, blocks[a].(strong := 0, slot := slot), m + multiset{Implicit(a)});
  }

  lemma {:induction false} UniqueLast(blocks: seq<Block>, m: multiset<Handle>, a: Addr)
    requires Tally(blocks, m + multiset{Unique(a)})
    ensures a < |blocks| && !blocks[a].freed && blocks[a].strong == 0 && blocks[a].slot.Init?
    ensures Tally(blocks[a := blocks[a].(slot := Dead)], m + multiset{Implicit(a)})
  {
    var held := m + multiset{Unique(a)};
    assert Unique(a) in held && Target(Unique(a)) == a;
    assert Good(blocks[a], held, a);
    Entry(blocks, held, a, blocks[a].(slot := Dead), m + multiset{Implicit(a)});
  }

  lemma {:induction false} WeakDown(blocks: seq<Block>, m: multiset<Handle>, h: Handle)
    requires h.WeakTo? || h.Cyclic? || h.Implicit?
    requires Tally(blocks, m + multiset{h})
    ensures h.at < |blocks| && !blocks[h.at].freed && blocks[h.at].weak > 0
    ensures var b := blocks[h.at].(weak := blocks[h.at].weak - 1);
      Tally(blocks[h.at := if b.weak == 0 then b.(freed := true) else b], m)
  {
    var held := m + multiset{h};
    assert h in held && Target(h) == h.at;
    assert Good(blocks[h.at], held, h.at);
    var b := blocks[h.at].(weak := blocks[h.at].weak - 1);
    Entry(blocks, held, h.at, if b.weak == 0 then b.(freed := true) else b, m);
  }

  lemma {:induction false} StrongUp(blocks: seq<Block>, m: multiset<Handle>, a: Addr)
    requires Tally(blocks, m) && a < |blocks| && 0 < blocks[a].strong < USIZE_MAX
    ensures !blocks[a].freed
    ensures Tally(blocks[a := blocks[a].(strong := blocks[a].strong + 1)], m + multiset{Strong(a)})
  {
    assert Good(blocks[a], m, a);
    Entry(blocks, m, a, blocks[a].(strong := blocks[a].strong + 1), m + multiset{Strong(a)});
  }

  lemma {:induction false} WeakUp(blocks: seq<Block>, m: multiset<Handle>, a: Addr)
    requires Tally(blocks, m) && a < |blocks| && 0 < blocks[a].weak < USIZE_MAX
    ensures Tally(blocks[a := blocks[a].(weak := blocks[a].weak + 1)], m + multiset{WeakTo(a)})
  {
    assert Good(blocks[a], m, a);
    Entry(blocks, m, a, blocks[a].(weak := blocks[a].weak + 1), m + multiset{WeakTo(a)});
  }

  /** Whoever holds any handle to a block holds one unit of a count, so the block is there. */
  lemma {:induction false} HolderSees(blocks: seq<Block>, m: multiset<Handle>, h: Handle)
    requires Tally(blocks, m) && h in m && !h.Dangling?
    ensures h.at < |blocks| && !blocks[h.at].freed && blocks[h.at].weak > 0
    ensures h.Strong? ==> blocks[h.at].strong > 0
    ensures h.Strong? || h.Unique? ==> blocks[h.at].slot.Init?
    ensures h.Unique? || h.Cyclic? ==> blocks[h.at].strong == 0
    ensures h.Cyclic? ==> blocks[h.at].slot.Uninit?
  {
    assert Target(h) == h.at;
    assert Good(blocks[h.at], m, h.at);
  }

  lemma {:induction false} Born(blocks: seq<Block>, m: multiset<Handle>, strong: nat, slot: Slot, h: Handle)
    requires Tally(blocks, m)
    requires (h.Strong? && strong == 1 && slot.Init?) || (h.Unique? && strong == 0 && slot.Init?)
      || (h.Cyclic? && strong == 0 && slot.Uninit?)
    requires h.at == |blocks|
    ensures Tally(blocks + [Block(strong, 1, slot, false)], m + multiset{h})
  {
    var n := |blocks|;
    var held := m + multiset{h};
    assert m[Strong(n)] == 0 && m[WeakTo(n)] == 0 && m[Unique(n)] == 0 && m[Cyclic(n)] == 0 && m[Implicit(n)] == 0 by {
      assert Target(Strong(n)) == n && Target(WeakTo(n)) == n && Target(Unique(n)) == n;
      assert Target(Cyclic(n)) == n && Target(Implicit(n)) == n;
    }
    assert Target(h) == n;
    Kept(blocks, m, blocks + [Block(strong, 1, slot, false)], held, {n});
  }

  /** The sole `UniqueRc`, or the end of `new_cyclic_in`, becomes the first strong handle. */
  lemma {:induction false} Published(blocks: seq<Block>, m: multiset<Handle>, h: Handle, slot: Slot)
    requires h.Unique? || h.Cyclic?
    requires Tally(blocks, m + multiset{h}) && slot.Init?
    ensures h.at < |blocks| && !blocks[h.at].freed && blocks[h.at].strong == 0
    ensures Tally(blocks[h.at := blocks[h.at].(strong := 1, slot := slot)], m + multiset{Strong(h.at)})
  {
    var a := h.at;
    HolderSees(blocks, m + multiset{h}, h);
    assert Good(blocks[a], m + multiset{h}, a);
    Entry(blocks, m + multiset{h}, a, blocks[a].(strong := 1, slot := slot), m + multiset{Strong(a)});
  }

  /** `make_mut` leaves a block to its `Weak`s: both counts go down and nothing is destroyed. */
  lemma {:induction false} LeftToWeaks(blocks: seq<Block>, m: multiset<Handle>, a: Addr)
    requires Tally(blocks, m + multiset{Strong(a)})
    requires a < |blocks| && blocks[a].strong == 1 && blocks[a].weak > 1
    ensures Tally(blocks[a := Block(0, blocks[a].weak - 1, Moved, false)], m)
  {
    HolderSees(blocks, m + multiset{Strong(a)}, Strong(a));
    assert Good(blocks[a], m + multiset{Strong(a)}, a);
    Entry(blocks, m + multiset{Strong(a)}, a, Block(0, blocks[a].weak - 1, Moved, false), m);
  }

  lemma {:induction false} ValueChanged(blocks: seq<Block>, m: multiset<Handle>, a: Addr, v: Value)
    requires Tally(blocks, m) && a < |blocks| && blocks[a].slot.Init?
    ensures Tally(blocks[a := blocks[a].(slot := Init(v))], m)
  {
    assert Good(blocks[a], m, a);
    Entry(blocks, m, a, blocks[a].(slot := Init(v)), m);
  }

  lemma {:induction false} DanglingFree(blocks: seq<Block>, m: multiset<Handle>)
    ensures Tally(blocks, m + multiset{Dangling}) <==> Tally(blocks, m)
  {
    if Tally(blocks, m + multiset{Dangling}) {
      Kept(blocks, m + multiset{Dangling}, blocks, m, {});
    }
    if Tally(blocks, m) {
      Kept(blocks, m, blocks, m + multiset{Dangling}, {});
    }
  }
}

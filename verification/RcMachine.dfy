/** The heap of `Rc`, `Weak` and `UniqueRc` (library/alloc/src/rc.rs) as a machine.
  *
  * Values own further handles, so destroying one value may destroy others before it returns. What the
  * call stack still has to do is the explicit `stack` of tasks; a program is a stack of operations, and a
  * destructor (`Value.dtor`) is a list of the same operations, run before the fields are dropped.
  */
module RcMachine {
  import opened Basics

  type Addr = nat

  /** A handle to a block. `Implicit` is the weak reference all strong handles share while `drop_slow`
    * holds it in its local `_weak`; `Cyclic` is the local `weak` of a running `new_cyclic_in`;
    * `Dangling` is the result of `Weak::new`. */
  datatype Handle =
    | Strong(at: Addr)
    | WeakTo(at: Addr)
    | Unique(at: Addr)
    | Cyclic(at: Addr)
    | Implicit(at: Addr)
    | Dangling

  datatype Value = Value(payload: int, fields: seq<Handle>, dtor: seq<Op>)

  /** Where an operation finds the handle it borrows: in a local of the program, or inside the value of
    * a block whose owner is a local. */
  datatype Place = Local | Inside(block: Addr)

  /** What a program, or the destructor of a value, can do. An operation whose handles are not there does
    * not compile in Rust and is skipped. */
  datatype Op =
    | New(v: Value)
    | NewUnique(v: Value)
    | IntoRc(a: Addr)
    | CyclicBegin
    | CyclicEnd(a: Addr, v: Value)
    | Clone(h: Handle, p: Place)
    | Downgrade(h: Handle, p: Place)
    | Upgrade(h: Handle, p: Place)
    | Drop(h: Handle)
    | TryUnwrap(a: Addr)
    | IntoInner(a: Addr)
    | GetMut(a: Addr, payload: int)
    | MakeMut(a: Addr, fields: seq<Handle>, dtor: seq<Op>)
    | Put(a: Addr, h: Handle)
    | Take(a: Addr, h: Handle)

  datatype Slot = Init(v: Value) | Uninit | Dead | Moved

  datatype Block = Block(strong: nat, weak: nat, slot: Slot, freed: bool)

  /** One thing the running calls still have to do: an operation, or the drop of a handle they own. */
  datatype Task = Do(op: Op) | Let(h: Handle)

  /** `Aborted` is the deliberate abort on counter overflow, `Fault` anything undefined: a freed block
    * touched, a value that is not there destroyed, a count taken below zero. */
  datatype Status = Running | Aborted | Fault

  datatype State = State(
    blocks: seq<Block>,
    roots: multiset<Handle>,
    stack: seq<Task>,
    destroyed: seq<Addr>,
    status: Status)

  const EMPTY := State([], multiset{}, [], [], Running)

  function Target(h: Handle): int {
    if h.Dangling? then -1 else h.at
  }

  predicate Alive(s: State, a: Addr) {
    a < |s.blocks| && !s.blocks[a].freed
  }

  function Set(s: State, a: Addr, b: Block): State
    requires a < |s.blocks|
  {
    s.(blocks := s.blocks[a := b])
  }

  function Give(s: State, h: Handle): State {
    s.(roots := s.roots + multiset{h})
  }

  function Lose(s: State, h: Handle): State {
    s.(roots := s.roots - multiset{h})
  }

  function Halt(s: State, why: Status): State {
    s.(status := why)
  }

  /** The tasks of destroying a value: its destructor, then its fields in order. */
  function Todo(ops: seq<Op>, fields: seq<Handle>, rest: seq<Task>): (r: seq<Task>)
    ensures |r| == |ops| + |fields| + |rest|
    ensures r[|r| - |rest|..] == rest
  {
    if ops != [] then [Do(ops[0])] + Todo(ops[1..], fields, rest)
    else if fields != [] then [Let(fields[0])] + Todo([], fields[1..], rest)
    else rest
  }

  // ---------------------------------------------------------------- counters

  /** `wrapping_add(1)` of a `usize`. */
  function WrappingInc(n: nat): nat {
    if n == USIZE_MAX then 0 else n + 1
  }

  function IncStrong(s: State, a: Addr): State {
    if !Alive(s, a) || s.blocks[a].strong == 0 then Halt(s, Fault)
    else
      var strong := WrappingInc(s.blocks[a].strong);
      if strong == 0 then Halt(s, Aborted) else Set(s, a, s.blocks[a].(strong := strong))
  }

  function IncWeak(s: State, a: Addr): State {
    if !Alive(s, a) || s.blocks[a].weak == 0 then Halt(s, Fault)
    else
      var weak := WrappingInc(s.blocks[a].weak);
      if weak == 0 then Halt(s, Aborted) else Set(s, a, s.blocks[a].(weak := weak))
  }

  // ---------------------------------------------------------------- drops

  /** `drop_slow`: the value is destroyed in place while the implicit weak reference, reconstructed as a
    * `Weak`, waits to be dropped when the call leaves its scope. */
  function DropSlow(s: State, a: Addr): State {
    if !Alive(s, a) || !s.blocks[a].slot.Init? then Halt(s, Fault)
    else
      var v := s.blocks[a].slot.v;
      Set(s, a, s.blocks[a].(slot := Dead))
        .(stack := Todo(v.dtor, v.fields, [Let(Implicit(a))] + s.stack), destroyed := s.destroyed + [a])
  }

  /** `Drop for Rc`. */
  function DropStrong(s: State, a: Addr): State {
    if !Alive(s, a) || s.blocks[a].strong == 0 then Halt(s, Fault)
    else
      var s' := Set(s, a, s.blocks[a].(strong := s.blocks[a].strong - 1));
      if s'.blocks[a].strong == 0 then DropSlow(s', a) else s'
  }

  /** `Drop for Weak`. */
  function DropWeak(s: State, a: Addr): State {
    if !Alive(s, a) || s.blocks[a].weak == 0 then Halt(s, Fault)
    else
      var b := s.blocks[a].(weak := s.blocks[a].weak - 1);
      Set(s, a, if b.weak == 0 then b.(freed := true) else b)
  }

  function Release(s: State, h: Handle): State {
    match h
    case Strong(a) => DropStrong(s, a)
    case Unique(a) => DropSlow(s, a)
    case WeakTo(a) => DropWeak(s, a)
    case Cyclic(a) => DropWeak(s, a)
    case Implicit(a) => DropWeak(s, a)
    case Dangling => s
  }

  // ---------------------------------------------------------------- operations

  function Pending(stack: seq<Task>): multiset<Handle> {
    if stack == [] then multiset{}
    else (if stack[0].Let? then multiset{stack[0].h} else multiset{}) + Pending(stack[1..])
  }

  /** The handles the running code can name directly: the program's own, and those the running
    * destructors are about to drop. */
  function Open(s: State): multiset<Handle> {
    s.roots + Pending(s.stack)
  }

  predicate Owns(s: State, a: Addr) {
    Strong(a) in Open(s) || Unique(a) in Open(s)
  }

  predicate Holds(b: Block, h: Handle) {
    b.slot.Init? && h in b.slot.v.fields
  }

  predicate Found(s: State, h: Handle, p: Place) {
    match p
    case Local => h in Open(s)
    case Inside(a) => Owns(s, a) && Alive(s, a) && Holds(s.blocks[a], h)
  }

  /** The local `weak` of `new_cyclic_in` is only lent out, and the local `_weak` of `drop_slow` is
    * never seen, so neither can be moved into a value. */
  predicate Movable(s: State, fields: seq<Handle>) {
    multiset(fields) <= s.roots && forall h :: h in fields ==> !h.Cyclic? && !h.Implicit?
  }

  function Fresh(s: State, strong: nat, slot: Slot, h: Handle): State {
    Give(s.(blocks := s.blocks + [Block(strong, 1, slot, false)]), h)
  }

  function Spend(s: State, fields: seq<Handle>): State {
    s.(roots := s.roots - multiset(fields))
  }

  function DoIntoRc(s: State, a: Addr): State {
    if Unique(a) !in s.roots then s
    else if !Alive(s, a) then Halt(s, Fault)
    else Give(Lose(Set(s, a, s.blocks[a].(strong := 1)), Unique(a)), Strong(a))
  }

  function DoCyclicEnd(s: State, a: Addr, v: Value): State {
    if Cyclic(a) !in s.roots || !Movable(Lose(s, Cyclic(a)), v.fields) then s
    else if !Alive(s, a) || s.blocks[a].strong != 0 then Halt(s, Fault)
    else Give(Spend(Lose(Set(s, a, s.blocks[a].(strong := 1, slot := Init(v))), Cyclic(a)), v.fields), Strong(a))
  }

  function DoClone(s: State, h: Handle, p: Place): State {
    if !Found(s, h, p) then s
    else match h
      case Strong(a) => var s' := IncStrong(s, a); if s'.status.Running? then Give(s', h) else s'
      case WeakTo(a) => var s' := IncWeak(s, a); if s'.status.Running? then Give(s', h) else s'
      case Dangling => Give(s, h)
      case _ => s
  }

  /** `Rc::downgrade`, `UniqueRc::downgrade`, and `Weak::clone` of the weak that `new_cyclic_in` lends. */
  function DoDowngrade(s: State, h: Handle, p: Place): State {
    if !Found(s, h, p) || !(h.Strong? || h.Unique? || h.Cyclic?) then s
    else var s' := IncWeak(s, h.at); if s'.status.Running? then Give(s', WeakTo(h.at)) else s'
  }

  /** `Weak::upgrade` and whether it gives `Some`; the weak that `new_cyclic_in` lends can also be tried. */
  predicate Upgrades(s: State, h: Handle) {
    (h.WeakTo? || h.Cyclic?) && Alive(s, h.at) && s.blocks[h.at].strong != 0
  }

  function DoUpgrade(s: State, h: Handle, p: Place): State {
    if !Found(s, h, p) || !(h.WeakTo? || h.Cyclic?) then s
    else if !Alive(s, h.at) then Halt(s, Fault)
    else if !Upgrades(s, h) then s
    else var s' := IncStrong(s, h.at); if s'.status.Running? then Give(s', Strong(h.at)) else s'
  }

  function DoDrop(s: State, h: Handle): State {
    if h !in s.roots then s else Lose(s, h).(stack := [Let(h)] + s.stack)
  }

  /** Moves the value out: `strong` goes to zero and the implicit weak is dropped as a made-up `Weak`. */
  function Unwrap(s: State, a: Addr): State {
    if !Alive(s, a) || s.blocks[a].strong == 0 || !s.blocks[a].slot.Init? then Halt(s, Fault)
    else
      var v := s.blocks[a].slot.v;
      var s' := Lose(Set(s, a, s.blocks[a].(strong := s.blocks[a].strong - 1, slot := Moved)), Strong(a));
      s'.(roots := s'.roots + multiset(v.fields), stack := [Let(Implicit(a))] + s.stack)
  }

  function DoTryUnwrap(s: State, a: Addr): State {
    if Strong(a) !in s.roots then s
    else if !Alive(s, a) then Halt(s, Fault)
    else if s.blocks[a].strong == 1 then Unwrap(s, a) else s
  }

  function DoIntoInner(s: State, a: Addr): State {
    if Strong(a) !in s.roots then s
    else if !Alive(s, a) then Halt(s, Fault)
    else if s.blocks[a].strong == 1 then Unwrap(s, a) else DoDrop(s, Strong(a))
  }

  /** `is_unique`: one strong handle, and no weak one besides the implicit. */
  predicate Lone(b: Block) {
    b.weak == 1 && b.strong == 1
  }

  function DoGetMut(s: State, a: Addr, payload: int): State {
    if Strong(a) !in s.roots then s
    else if !Alive(s, a) || !s.blocks[a].slot.Init? then Halt(s, Fault)
    else if Lone(s.blocks[a]) then
      Set(s, a, s.blocks[a].(slot := Init(s.blocks[a].slot.v.(payload := payload))))
    else s
  }

  /** `make_mut`, the caller's `Clone` supplying `fields` and `dtor` of the copy. The handle of the caller
    * is replaced by one to a fresh block: with the copy, or with the value itself when only `Weak`s are
    * left; otherwise it stays. */
  function DoMakeMut(s: State, a: Addr, fields: seq<Handle>, dtor: seq<Op>): State {
    if Strong(a) !in s.roots || !Movable(Lose(s, Strong(a)), fields) then s
    else if !Alive(s, a) || !s.blocks[a].slot.Init? then Halt(s, Fault)
    else
      var v := s.blocks[a].slot.v;
      var n := |s.blocks|;
      if s.blocks[a].strong != 1 then
        var s' := Spend(Lose(s, Strong(a)), fields);
        Fresh(s', 1, Init(Value(v.payload, fields, dtor)), Strong(n)).(stack := [Let(Strong(a))] + s.stack)
      else if s.blocks[a].weak != 1 then
        if s.blocks[a].weak == 0 then Halt(s, Fault)
        else
          var b := Block(0, s.blocks[a].weak - 1, Moved, false);
          Fresh(Lose(Set(s, a, b), Strong(a)), 1, Init(v), Strong(n))
      else s
  }

  /** A handle moved into, or out of, a value through interior mutability. */
  function DoPut(s: State, a: Addr, h: Handle): State {
    if !Movable(s, [h]) || !Owns(Lose(s, h), a) then s
    else if !Alive(s, a) || !s.blocks[a].slot.Init? then Halt(s, Fault)
    else
      var v := s.blocks[a].slot.v;
      Lose(Set(s, a, s.blocks[a].(slot := Init(v.(fields := v.fields + [h])))), h)
  }

  function Without(q: seq<Handle>, h: Handle): (r: seq<Handle>)
    requires h in q
    ensures multiset(q) == multiset(r) + multiset{h}
  {
    if q[0] == h then assert q == [h] + q[1..]; q[1..]
    else assert q == [q[0]] + q[1..]; [q[0]] + Without(q[1..], h)
  }

  function DoTake(s: State, a: Addr, h: Handle): State {
    if !Owns(s, a) then s
    else if !Alive(s, a) then Halt(s, Fault)
    else if !Holds(s.blocks[a], h) then s
    else
      var v := s.blocks[a].slot.v;
      Give(Set(s, a, s.blocks[a].(slot := Init(v.(fields := Without(v.fields, h))))), h)
  }

  function Perform(s: State, op: Op): State {
    match op
    case New(v) => if Movable(s, v.fields) then Fresh(Spend(s, v.fields), 1, Init(v), Strong(|s.blocks|)) else s
    case NewUnique(v) => if Movable(s, v.fields) then Fresh(Spend(s, v.fields), 0, Init(v), Unique(|s.blocks|)) else s
    case IntoRc(a) => DoIntoRc(s, a)
    case CyclicBegin => Fresh(s, 0, Uninit, Cyclic(|s.blocks|))
    case CyclicEnd(a, v) => DoCyclicEnd(s, a, v)
    case Clone(h, p) => DoClone(s, h, p)
    case Downgrade(h, p) => DoDowngrade(s, h, p)
    case Upgrade(h, p) => DoUpgrade(s, h, p)
    case Drop(h) => DoDrop(s, h)
    case TryUnwrap(a) => DoTryUnwrap(s, a)
    case IntoInner(a) => DoIntoInner(s, a)
    case GetMut(a, payload) => DoGetMut(s, a, payload)
    case MakeMut(a, fields, dtor) => DoMakeMut(s, a, fields, dtor)
    case Put(a, h) => DoPut(s, a, h)
    case Take(a, h) => DoTake(s, a, h)
  }

  /** What carrying out one task does. After a halt nothing has an effect any more. */
  function Exec(s: State, t: Task): State {
    if !s.status.Running? then s
    else match t
      case Let(h) => Release(s, h)
      case Do(op) => Perform(s, op)
  }

  /** One step: the task on top of the stack. */
  function Step(s: State): State
    requires s.stack != []
  {
    Exec(s.(stack := s.stack[1..]), s.stack[0])
  }

  // ---------------------------------------------------------------- the measure

  function OpW(op: Op): nat
    decreases op
  {
    match op
    case New(v) => 2 + OpsW(v.dtor)
    case NewUnique(v) => 2 + OpsW(v.dtor)
    case CyclicEnd(_, v) => 2 + OpsW(v.dtor)
    case MakeMut(_, _, dtor) => 2 + OpsW(dtor)
    case _ => 1
  }

  function OpsW(ops: seq<Op>): nat
    decreases ops
  {
    if ops == [] then 0 else OpW(ops[0]) + OpsW(ops[1..])
  }

  function StackW(stack: seq<Task>): nat {
    if stack == [] then 0 else (if stack[0].Do? then OpW(stack[0].op) else 0) + StackW(stack[1..])
  }

  function BlockW(b: Block): nat {
    if b.slot.Init? then 1 + OpsW(b.slot.v.dtor) else 0
  }

  function BlocksW(blocks: seq<Block>): nat {
    if blocks == [] then 0 else BlocksW(blocks[..|blocks| - 1]) + BlockW(blocks[|blocks| - 1])
  }

  /** Values still to destroy plus operations still to run, counting those inside values. */
  function Work(s: State): nat {
    StackW(s.stack) + BlocksW(s.blocks)
  }

  lemma BlocksWSet(blocks: seq<Block>, a: nat, b: Block)
    requires a < |blocks|
    ensures BlocksW(blocks[a := b]) == BlocksW(blocks) - BlockW(blocks[a]) + BlockW(b)
  {
    var k := |blocks| - 1;
    if a == k {
      assert blocks[a := b][..k] == blocks[..k];
    } else {
      BlocksWSet(blocks[..k], a, b);
      assert blocks[a := b][..k] == blocks[..k][a := b];
    }
  }

  lemma BlocksWPush(blocks: seq<Block>, b: Block)
    ensures BlocksW(blocks + [b]) == BlocksW(blocks) + BlockW(b)
  {
    assert (blocks + [b])[..|blocks|] == blocks;
  }

  lemma TodoW(ops: seq<Op>, fields: seq<Handle>, rest: seq<Task>)
    ensures StackW(Todo(ops, fields, rest)) == OpsW(ops) + StackW(rest)
  {
    if ops != [] {
      TodoW(ops[1..], fields, rest);
    } else if fields != [] {
      TodoW([], fields[1..], rest);
    }
  }
}

/**
  The reference-counting protocol of `Arc`, `Weak`, `UniqueArc` and `new_cyclic` on one
  allocation, as a state machine over single atomic operations.

  Memory model.  Each counter is the sequence of messages written to it, in modification
  order.  A view is a set of event numbers: the memory accesses known to have happened
  before.  A plain load may return any message that is not older than one its thread already
  knows of; a read-modify-write always continues the last message.  An Acquire operation joins
  the view of the message it reads, a Release operation attaches the view of its thread, a
  read-modify-write of either kind continues the release sequence of the message it replaces,
  and a plain store starts a new one (section 6.9.2.1 of ISO C++20).  An Acquire fence joins
  every message view read so far.

  Ownership.  Handles live in a pool.  A thread takes a handle shared (`&Arc`, `&Weak`) or
  exclusive (`&mut Arc`, or by value), and gives it back.  A shared taker learns what was known
  when the handle was last exclusive, an exclusive taker also learns what every earlier shared
  taker gave back; that is the synchronisation a borrow or a move between threads brings.
 */
module ArcMachine {
  import opened Basics

  const MAX_REFCOUNT: nat := 0x7FFF_FFFF_FFFF_FFFF

  type Tid = nat
  type Hid = nat
  type View = set<nat>

  /** A value written to a counter, with the view its release sequence carries. */
  datatype Msg = Msg(val: nat, view: View)

  datatype Place = Created(init: bool) | OnStrong(idx: nat) | OnWeak(idx: nat) | OnData(write: bool)

  /** A memory access: who made it, through which handle, and to what. */
  datatype Event = Event(who: Tid, via: Hid, place: Place)

  /** `Unique` owns the implicit weak reference alone while the strong count is 0: a
      `UniqueArc`, the handle inside `new_cyclic`, or an `Arc` that took the count to 0. */
  datatype Kind = Strong | Weak | Unique

  datatype Handle = Handle(kind: Kind, live: bool, base: View, ret: View, shared: set<Tid>, excl: Option<Tid>,
    born: nat)

  /** What the thread that took the strong count to 0 does with the data. */
  datatype Finish = DropIt | IntoInner | TryUnwrap | Steal

  datatype Pc =
    | Idle
    | Sh(h: Hid)                             // shared borrow
    | Dg(h: Hid, cur: nat)                   // `downgrade`, after its load
    | Up(h: Hid, cur: nat)                   // `upgrade`, after its load
    | Lock(h: Hid, ex: bool)                 // `is_unique`, weak counter locked
    | Unlock(h: Hid, ex: bool, unique: bool) // `is_unique`, about to unlock
    | AbortS(h: Hid)                         // strong increment over the limit
    | AbortW(h: Hid)                         // weak increment over the limit
    | Ex(h: Hid)                             // exclusive borrow
    | Mut(h: Hid)                            // holds the `&mut T` of `get_mut` or `make_mut`
    | Zero(h: Hid, f: Finish)                // took strong to 0, Acquire fence to come
    | MM(h: Hid)                             // `make_mut`, took strong to 0
    | MMR(h: Hid)                            // `make_mut`, about to restore strong to 1
    | Own(h: Hid, f: Finish)                 // about to end the data
    | WSub(h: Hid)                           // about to drop its weak reference
    | Cl(h: Hid)                             // `make_mut`, about to clone the data
    | Dr(h: Hid)                             // `make_mut`, about to drop the old handle
    | FreeF                                  // took weak to 0, Acquire fence to come
    | FreeIt                                 // about to deallocate

  datatype Thread = Thread(pc: Pc, view: View, pend: View)

  datatype Data = Uninit | Init(v: int) | Ended
  datatype End = End(how: Finish, v: int)
  datatype Origin = FromNew | FromUnique | FromCyclic

  /** `events`, `rise`, `wrise`, `locker`, `freer` and the views are bookkeeping; the rest is
      the memory of the program.  `rise` is the last event that lifted `strong` from 0 or 1,
      `wrise` the last that moved `weak` from 1 or unlocked it. */
  datatype State = State(
    strong: seq<Msg>, weak: seq<Msg>, data: Data, ended: seq<End>, frees: nat, aborted: bool,
    handles: map<Hid, Handle>, threads: map<Tid, Thread>, events: seq<Event>,
    rise: nat, wrise: nat, locker: Option<Tid>, freer: Option<Tid>, origin: Origin)

  function SVal(s: State): nat { if |s.strong| == 0 then 0 else s.strong[|s.strong| - 1].val }
  function WVal(s: State): nat { if |s.weak| == 0 then 0 else s.weak[|s.weak| - 1].val }
  function SView(s: State): View { if |s.strong| == 0 then {} else s.strong[|s.strong| - 1].view }
  function WView(s: State): View { if |s.weak| == 0 then {} else s.weak[|s.weak| - 1].view }

  predicate SharedPc(pc: Pc) {
    match pc
    case Sh(_) => true
    case Dg(_, _) => true
    case Up(_, _) => true
    case AbortS(_) => true
    case AbortW(_) => true
    case Lock(_, ex) => !ex
    case Unlock(_, ex, _) => !ex
    case _ => false
  }

  predicate ExclPc(pc: Pc) {
    match pc
    case Ex(_) => true
    case Mut(_) => true
    case Zero(_, _) => true
    case MM(_) => true
    case MMR(_) => true
    case Own(_, _) => true
    case WSub(_) => true
    case Cl(_) => true
    case Dr(_) => true
    case Lock(_, ex) => ex
    case Unlock(_, ex, _) => ex
    case _ => false
  }

  function Via(pc: Pc): Hid { if SharedPc(pc) || ExclPc(pc) then pc.h else 0 }

  // ----- Memory accesses -----

  /** Coherence: message `i` may be read unless the view knows a later one. */
  predicate ReadableS(s: State, view: View, i: nat) {
    && i < |s.strong|
    && forall e <- view :: e < |s.events| && s.events[e].place.OnStrong? ==> s.events[e].place.idx <= i
  }

  predicate ReadableW(s: State, view: View, i: nat) {
    && i < |s.weak|
    && forall e <- view :: e < |s.events| && s.events[e].place.OnWeak? ==> s.events[e].place.idx <= i
  }

  /** Thread `t` performs one access, reading a message with view `mv` if it reads a counter. */
  function Access(s: State, t: Tid, place: Place, acquire: bool, mv: View, pc: Pc): State
    requires t in s.threads
  {
    var th := s.threads[t];
    s.(events := s.events + [Event(t, Via(th.pc), place)],
       threads := s.threads[t := Thread(pc, th.view + {|s.events|} + (if acquire then mv else {}), th.pend + mv)])
  }

  function LoadS(s: State, t: Tid, i: nat, acquire: bool, pc: Pc): State
    requires t in s.threads && i < |s.strong|
  {
    Access(s, t, OnStrong(i), acquire, s.strong[i].view, pc)
  }

  function LoadW(s: State, t: Tid, i: nat, acquire: bool, pc: Pc): State
    requires t in s.threads && i < |s.weak|
  {
    Access(s, t, OnWeak(i), acquire, s.weak[i].view, pc)
  }

  function RmwS(s: State, t: Tid, val: nat, acquire: bool, release: bool, pc: Pc): State
    requires t in s.threads
  {
    var e := |s.events|;
    var mv := SView(s) + (if release then s.threads[t].view + {e} else {});
    Access(s, t, OnStrong(|s.strong|), acquire, SView(s), pc)
      .(strong := s.strong + [Msg(val, mv)],
        rise := if SVal(s) <= 1 && SVal(s) < val then e else s.rise)
  }

  function RmwW(s: State, t: Tid, val: nat, acquire: bool, release: bool, pc: Pc): State
    requires t in s.threads
  {
    var e := |s.events|;
    var mv := WView(s) + (if release then s.threads[t].view + {e} else {});
    Access(s, t, OnWeak(|s.weak|), acquire, WView(s), pc)
      .(weak := s.weak + [Msg(val, mv)],
        wrise := if WVal(s) == 1 && 1 < val then e else s.wrise)
  }

  function StoreS(s: State, t: Tid, val: nat, pc: Pc): State
    requires t in s.threads
  {
    var e := |s.events|;
    Access(s, t, OnStrong(|s.strong|), false, {}, pc)
      .(strong := s.strong + [Msg(val, s.threads[t].view + {e})], rise := e)
  }

  function StoreW(s: State, t: Tid, val: nat, pc: Pc): State
    requires t in s.threads
  {
    var e := |s.events|;
    Access(s, t, OnWeak(|s.weak|), false, {}, pc)
      .(weak := s.weak + [Msg(val, s.threads[t].view + {e})], wrise := e)
  }

  function TouchData(s: State, t: Tid, write: bool, pc: Pc): State
    requires t in s.threads
  {
    Access(s, t, OnData(write), false, {}, pc)
  }

  function SetPc(s: State, t: Tid, pc: Pc): State
    requires t in s.threads
  {
    s.(threads := s.threads[t := s.threads[t].(pc := pc)])
  }

  /** A new handle, made by the last event; its owner knows what thread `t` knows now. */
  function NewHandle(s: State, t: Tid, n: Hid, kind: Kind): State
    requires t in s.threads && 0 < |s.events|
  {
    s.(handles := s.handles[n := Handle(kind, true, s.threads[t].view, {}, {}, None, |s.events| - 1)])
  }

  function SetKind(s: State, h: Hid, kind: Kind): State
    requires h in s.handles
  {
    s.(handles := s.handles[h := s.handles[h].(kind := kind)])
  }

  function Bury(s: State, h: Hid): State
    requires h in s.handles
  {
    s.(handles := s.handles[h := s.handles[h].(live := false, shared := {}, excl := None)])
  }

  // ----- Steps -----

  datatype Label =
    | Sync(t: Tid, view: View)         // any other synchronisation
    | TakeSh(t: Tid, h: Hid)
    | TakeEx(t: Tid, h: Hid)
    | Give(t: Tid)
    | CloneStrong(t: Tid, n: Hid)      // Arc::clone: fetch_add
    | DgLoad(t: Tid, i: nat)           // Arc::downgrade: load, also while locked
    | DgCas(t: Tid, n: Hid)
    | DgFail(t: Tid, i: nat)
    | DgPanic(t: Tid)
    | LockCas(t: Tid)                  // Arc::is_unique and get_mut
    | LockFail(t: Tid, i: nat)
    | LoadStrong(t: Tid, i: nat)
    | UnlockStore(t: Tid)
    | EndMut(t: Tid)
    | UpLoad(t: Tid, i: nat)           // Weak::upgrade
    | UpCas(t: Tid, n: Hid)
    | UpFail(t: Tid, i: nat)
    | UpEnd(t: Tid)
    | WeakAdd(t: Tid, n: Hid)          // Weak::clone and UniqueArc::downgrade
    | ReadData(t: Tid)
    | WriteData(t: Tid, val: int)
    | StrongSub(t: Tid, f: Finish)     // Arc::drop and into_inner
    | UnwrapCas(t: Tid)                // Arc::try_unwrap
    | UnwrapFail(t: Tid, i: nat)
    | MMCas(t: Tid)                    // Arc::make_mut
    | MMFail(t: Tid, i: nat)
    | MMClone(t: Tid)
    | MMLoad(t: Tid, i: nat)
    | MMRestore(t: Tid)
    | Fence(t: Tid)
    | EndData(t: Tid)
    | WeakSub(t: Tid)                  // Weak::drop
    | Free(t: Tid)
    | Publish(t: Tid)                  // UniqueArc::into_arc, end of new_cyclic
    | UniqueDrop(t: Tid)               // UniqueArc::drop
    | Abort(t: Tid)

  predicate HasKind(s: State, h: Hid, k: Kind) {
    h in s.handles && s.handles[h].live && s.handles[h].kind == k
  }

  predicate ShOf(s: State, pc: Pc, k: Kind) { pc.Sh? && HasKind(s, pc.h, k) }

  predicate ExOf(s: State, pc: Pc, k: Kind) { pc.Ex? && HasKind(s, pc.h, k) }

  predicate CanCloneWeak(s: State, pc: Pc) { ShOf(s, pc, Weak) || ShOf(s, pc, Unique) }

  predicate CanUpgrade(s: State, pc: Pc) {
    ShOf(s, pc, Weak) || (ShOf(s, pc, Unique) && s.origin.FromCyclic?)
  }

  predicate Enabled(s: State, a: Label) {
    && !s.aborted
    && a.t in s.threads
    && var th := s.threads[a.t];
    match a
    case Sync(_, v) => forall e <- v :: e < |s.events|
    case TakeSh(_, h) => th.pc.Idle? && h in s.handles && s.handles[h].live && s.handles[h].excl.None?
    case TakeEx(_, h) =>
      th.pc.Idle? && h in s.handles && s.handles[h].live && s.handles[h].excl.None? && s.handles[h].shared == {}
    case Give(_) => (th.pc.Sh? || th.pc.Ex?) && th.pc.h in s.handles
    case CloneStrong(_, n) => ShOf(s, th.pc, Strong) && n !in s.handles
    case DgLoad(_, i) =>
      && (ShOf(s, th.pc, Strong) || (th.pc.Dg? && th.pc.cur == USIZE_MAX))
      && ReadableW(s, th.view, i)
    case DgCas(_, n) => th.pc.Dg? && th.pc.cur <= MAX_REFCOUNT && WVal(s) == th.pc.cur && n !in s.handles
    case DgFail(_, i) => th.pc.Dg? && th.pc.cur <= MAX_REFCOUNT && ReadableW(s, th.view, i)
    case DgPanic(_) => th.pc.Dg? && MAX_REFCOUNT < th.pc.cur < USIZE_MAX
    case LockCas(_) => (ShOf(s, th.pc, Strong) || ExOf(s, th.pc, Strong)) && WVal(s) == 1
    case LockFail(_, i) =>
      (ShOf(s, th.pc, Strong) || ExOf(s, th.pc, Strong)) && ReadableW(s, th.view, i) && s.weak[i].val != 1
    case LoadStrong(_, i) => th.pc.Lock? && ReadableS(s, th.view, i)
    case UnlockStore(_) => th.pc.Unlock?
    case EndMut(_) => th.pc.Mut?
    case UpLoad(_, i) => CanUpgrade(s, th.pc) && ReadableS(s, th.view, i)
    case UpCas(_, n) => th.pc.Up? && 0 < th.pc.cur <= MAX_REFCOUNT && SVal(s) == th.pc.cur && n !in s.handles
    case UpFail(_, i) => th.pc.Up? && 0 < th.pc.cur <= MAX_REFCOUNT && ReadableS(s, th.view, i)
    case UpEnd(_) => th.pc.Up? && (th.pc.cur == 0 || MAX_REFCOUNT < th.pc.cur)
    case WeakAdd(_, n) => CanCloneWeak(s, th.pc) && n !in s.handles
    case ReadData(_) => ShOf(s, th.pc, Strong) || (ShOf(s, th.pc, Unique) && s.origin.FromUnique?)
    case WriteData(_, _) => th.pc.Mut? || (ExOf(s, th.pc, Unique) && (s.origin.FromCyclic? ==> s.data.Uninit?))
    case StrongSub(_, f) =>
      (ExOf(s, th.pc, Strong) && (f.DropIt? || f.IntoInner?)) || (th.pc.Dr? && f.DropIt? && th.pc.h in s.handles)
    case UnwrapCas(_) => ExOf(s, th.pc, Strong) && SVal(s) == 1
    case UnwrapFail(_, i) => ExOf(s, th.pc, Strong) && ReadableS(s, th.view, i) && s.strong[i].val != 1
    case MMCas(_) => ExOf(s, th.pc, Strong) && SVal(s) == 1
    case MMFail(_, i) => ExOf(s, th.pc, Strong) && ReadableS(s, th.view, i) && s.strong[i].val != 1
    case MMClone(_) => th.pc.Cl?
    case MMLoad(_, i) => th.pc.MM? && ReadableW(s, th.view, i)
    case MMRestore(_) => th.pc.MMR? && th.pc.h in s.handles
    case Fence(_) => th.pc.Zero? || th.pc.FreeF?
    case EndData(_) => th.pc.Own?
    case WeakSub(_) => ExOf(s, th.pc, Weak) || (th.pc.WSub? && th.pc.h in s.handles)
    case Free(_) => th.pc.FreeIt?
    case Publish(_) => ExOf(s, th.pc, Unique) && s.data.Init?
    case UniqueDrop(_) => ExOf(s, th.pc, Unique) && s.origin.FromUnique?
    case Abort(_) => th.pc.AbortS? || th.pc.AbortW?
  }

  /** An increment wraps like a `usize`. */
  function Inc(v: nat): nat { if v == USIZE_MAX then 0 else v + 1 }

  /** A decrement wraps like a `usize`. */
  function Dec(v: nat): nat { if v == 0 then USIZE_MAX else v - 1 }

  function DoTakeSh(s: State, t: Tid, h: Hid): State
    requires t in s.threads && h in s.handles
  {
    var th, hd := s.threads[t], s.handles[h];
    s.(threads := s.threads[t := th.(pc := Sh(h), view := th.view + hd.base)],
       handles := s.handles[h := hd.(shared := hd.shared + {t})])
  }

  function DoTakeEx(s: State, t: Tid, h: Hid): State
    requires t in s.threads && h in s.handles
  {
    var th, hd := s.threads[t], s.handles[h];
    s.(threads := s.threads[t := th.(pc := Ex(h), view := th.view + hd.base + hd.ret)],
       handles := s.handles[h := hd.(excl := Some(t))])
  }

  function DoGive(s: State, t: Tid): State
    requires t in s.threads && (s.threads[t].pc.Sh? || s.threads[t].pc.Ex?) && s.threads[t].pc.h in s.handles
  {
    var th := s.threads[t];
    var hd := s.handles[th.pc.h];
    SetPc(s, t, Idle)
      .(handles := s.handles[th.pc.h :=
        if th.pc.Sh? then hd.(shared := hd.shared - {t}, ret := hd.ret + th.view)
        else hd.(excl := None, base := th.view)])
  }

  function DoCloneStrong(s: State, t: Tid, n: Hid): State
    requires t in s.threads && ShOf(s, s.threads[t].pc, Strong)
  {
    var h := s.threads[t].pc.h;
    if SVal(s) > MAX_REFCOUNT then RmwS(s, t, Inc(SVal(s)), false, false, AbortS(h))
    else NewHandle(RmwS(s, t, Inc(SVal(s)), false, false, Sh(h)), t, n, Strong)
  }

  function DoWeakAdd(s: State, t: Tid, n: Hid): State
    requires t in s.threads && s.threads[t].pc.Sh?
  {
    var h := s.threads[t].pc.h;
    if WVal(s) > MAX_REFCOUNT then RmwW(s, t, Inc(WVal(s)), false, false, AbortW(h))
    else NewHandle(RmwW(s, t, Inc(WVal(s)), false, false, Sh(h)), t, n, Weak)
  }

  function DoUpgrade(s: State, t: Tid, n: Hid): State
    requires t in s.threads && s.threads[t].pc.Up?
  {
    NewHandle(RmwS(s, t, Inc(s.threads[t].pc.cur), true, false, Sh(s.threads[t].pc.h)), t, n, Strong)
  }

  function DoDowngrade(s: State, t: Tid, n: Hid): State
    requires t in s.threads && s.threads[t].pc.Dg?
  {
    NewHandle(RmwW(s, t, Inc(s.threads[t].pc.cur), true, false, Sh(s.threads[t].pc.h)), t, n, Weak)
  }

  function DoStrongSub(s: State, t: Tid, f: Finish): State
    requires t in s.threads && (s.threads[t].pc.Ex? || s.threads[t].pc.Dr?) && s.threads[t].pc.h in s.handles
  {
    var h := s.threads[t].pc.h;
    if SVal(s) == 1 then SetKind(RmwS(s, t, 0, false, true, Zero(h, f)), h, Unique)
    else Bury(RmwS(s, t, Dec(SVal(s)), false, true, Idle), h)
  }

  function DoWeakSub(s: State, t: Tid): State
    requires t in s.threads && (s.threads[t].pc.Ex? || s.threads[t].pc.WSub?) && s.threads[t].pc.h in s.handles
  {
    var h := s.threads[t].pc.h;
    if WVal(s) == 1 then Bury(RmwW(s, t, 0, false, true, FreeF), h).(freer := Some(t))
    else Bury(RmwW(s, t, Dec(WVal(s)), false, true, Idle), h)
  }

  function DoUnlock(s: State, t: Tid): State
    requires t in s.threads && s.threads[t].pc.Unlock?
  {
    var pc := s.threads[t].pc;
    StoreW(s, t, 1, if !pc.ex then Sh(pc.h) else if pc.unique then Mut(pc.h) else Ex(pc.h)).(locker := None)
  }

  function DoFence(s: State, t: Tid): State
    requires t in s.threads && (s.threads[t].pc.Zero? || s.threads[t].pc.FreeF?)
  {
    var th := s.threads[t];
    s.(threads := s.threads[t := Thread(
      if th.pc.Zero? then Own(th.pc.h, th.pc.f) else FreeIt, th.view + th.pend, th.pend)])
  }

  function DoEndData(s: State, t: Tid): State
    requires t in s.threads && s.threads[t].pc.Own?
  {
    var pc := s.threads[t].pc;
    TouchData(s, t, true, WSub(pc.h))
      .(data := Ended, ended := s.ended + [End(pc.f, if s.data.Init? then s.data.v else 0)])
  }

  function DoPublish(s: State, t: Tid): State
    requires t in s.threads && s.threads[t].pc.Ex? && s.threads[t].pc.h in s.handles
  {
    var h := s.threads[t].pc.h;
    SetKind(
      if s.origin.FromCyclic? then RmwS(s, t, Inc(SVal(s)), false, true, Ex(h)) else StoreS(s, t, 1, Ex(h)),
      h, Strong)
  }

  function Apply(s: State, a: Label): State
    requires Enabled(s, a)
  {
    var th := s.threads[a.t];
    match a
    case Sync(t, v) => s.(threads := s.threads[t := th.(view := th.view + v)])
    case TakeSh(t, h) => DoTakeSh(s, t, h)
    case TakeEx(t, h) => DoTakeEx(s, t, h)
    case Give(t) => DoGive(s, t)
    case CloneStrong(t, n) => DoCloneStrong(s, t, n)
    case DgLoad(t, i) => LoadW(s, t, i, false, Dg(th.pc.h, s.weak[i].val))
    case DgCas(t, n) => DoDowngrade(s, t, n)
    case DgFail(t, i) => LoadW(s, t, i, false, Dg(th.pc.h, s.weak[i].val))
    case DgPanic(t) => SetPc(s, t, Sh(th.pc.h))
    case LockCas(t) => RmwW(s, t, USIZE_MAX, true, false, Lock(th.pc.h, th.pc.Ex?)).(locker := Some(t))
    case LockFail(t, i) => LoadW(s, t, i, false, th.pc)
    case LoadStrong(t, i) => LoadS(s, t, i, true, Unlock(th.pc.h, th.pc.ex, s.strong[i].val == 1))
    case UnlockStore(t) => DoUnlock(s, t)
    case EndMut(t) => SetPc(s, t, Ex(th.pc.h))
    case UpLoad(t, i) => LoadS(s, t, i, false, Up(th.pc.h, s.strong[i].val))
    case UpCas(t, n) => DoUpgrade(s, t, n)
    case UpFail(t, i) => LoadS(s, t, i, false, Up(th.pc.h, s.strong[i].val))
    case UpEnd(t) => SetPc(s, t, Sh(th.pc.h))
    case WeakAdd(t, n) => DoWeakAdd(s, t, n)
    case ReadData(t) => TouchData(s, t, false, th.pc)
    case WriteData(t, v) => TouchData(s, t, true, th.pc).(data := Init(v))
    case StrongSub(t, f) => DoStrongSub(s, t, f)
    case UnwrapCas(t) => SetKind(RmwS(s, t, 0, false, false, Zero(th.pc.h, TryUnwrap)), th.pc.h, Unique)
    case UnwrapFail(t, i) => LoadS(s, t, i, false, th.pc)
    case MMCas(t) => SetKind(RmwS(s, t, 0, true, false, MM(th.pc.h)), th.pc.h, Unique)
    case MMFail(t, i) => LoadS(s, t, i, false, Cl(th.pc.h))
    case MMClone(t) => TouchData(s, t, false, Dr(th.pc.h))
    case MMLoad(t, i) => LoadW(s, t, i, false, if s.weak[i].val != 1 then Own(th.pc.h, Steal) else MMR(th.pc.h))
    case MMRestore(t) => SetKind(StoreS(s, t, 1, Mut(th.pc.h)), th.pc.h, Strong)
    case Fence(t) => DoFence(s, t)
    case EndData(t) => DoEndData(s, t)
    case WeakSub(t) => DoWeakSub(s, t)
    case Free(t) => SetPc(s, t, Idle).(frees := s.frees + 1, freer := None)
    case Publish(t) => DoPublish(s, t)
    case UniqueDrop(t) => SetPc(s, t, Own(th.pc.h, DropIt))
    case Abort(t) => s.(aborted := true)
  }

  // ----- Starting states -----

  /** `Arc::new` (strong 1), `UniqueArc::new_in` and `new_cyclic_in` (strong 0). */
  function Start(origin: Origin, v: int, tids: set<Tid>): State {
    State(
      [Msg(if origin.FromNew? then 1 else 0, {})], [Msg(1, {})],
      if origin.FromCyclic? then Uninit else Init(v), [], 0, false,
      map[0 := Handle(if origin.FromNew? then Strong else Unique, true, {0}, {}, {}, None, 0)],
      map t | t in tids :: Thread(Idle, {}, {}),
      [Event(0, 0, Created(!origin.FromCyclic?))], 0, 0, None, None, origin)
  }

  // ----- What the counters count -----

  function Live(s: State, k: Kind): set<Hid> {
    set h | h in s.handles && s.handles[h].live && s.handles[h].kind == k
  }

  /** Threads that incremented `strong` past the limit and have not aborted the process yet. */
  function OverS(s: State): set<Tid> { set t | t in s.threads && s.threads[t].pc.AbortS? }

  function OverW(s: State): set<Tid> { set t | t in s.threads && s.threads[t].pc.AbortW? }

  /** The assumption under which the source calls its overflow check sufficient. */
  predicate Tame(s: State) { |OverS(s)| + |OverW(s)| < MAX_REFCOUNT }

  // ----- Executions -----

  predicate IsStep(s: State, a: Label, s2: State) {
    Enabled(s, a) && s2 == Apply(s, a) && Tame(s) && Tame(s2)
  }

  predicate StepAt(states: seq<State>, labels: seq<Label>, i: nat)
    requires i < |labels| < |states|
  {
    IsStep(states[i], labels[i], states[i + 1])
  }

  predicate IsRun(states: seq<State>, labels: seq<Label>) {
    && |states| == |labels| + 1
    && forall i :: 0 <= i < |labels| ==> StepAt(states, labels, i)
  }

  // ----- What a step may and may not do -----

  predicate IsWrite(ev: Event) { ev.place == Created(true) || ev.place == OnData(true) }

  predicate IsDataAccess(ev: Event) { ev.place == Created(true) || ev.place.OnData? }

  ghost predicate KnowsWrites(s: State, view: View) {
    forall e :: 0 <= e < |s.events| && IsWrite(s.events[e]) ==> e in view
  }

  ghost predicate KnowsData(s: State, view: View) {
    forall e :: 0 <= e < |s.events| && IsDataAccess(s.events[e]) ==> e in view
  }

  ghost predicate KnowsAll(s: State, view: View) {
    forall e :: 0 <= e < |s.events| ==> e in view
  }

  /** The step accesses the counters or the data of the block. */
  predicate Touches(a: Label) {
    !(a.Sync? || a.TakeSh? || a.TakeEx? || a.Give? || a.DgPanic? || a.EndMut? || a.UpEnd? || a.Fence?
      || a.UniqueDrop? || a.Abort?)
  }

  /** No use after free, no data race, nothing released twice or too early. */
  ghost predicate MemorySafe(s: State, a: Label) {
    && a.t in s.threads
    && var view := s.threads[a.t].view;
    && (Touches(a) ==> s.frees == 0 && 0 in view)
    && (a.ReadData? || a.MMClone? ==> s.data.Init? && KnowsWrites(s, view))
    && (a.WriteData? ==> !s.data.Ended? && KnowsData(s, view))
    && (a.EndData? ==> s.data.Init? && s.ended == [] && KnowsData(s, view))
    && (a.Free? ==> KnowsAll(s, view) && !s.data.Init? && forall h <- s.handles :: !s.handles[h].live)
  }

  /** No counter wraps, and no increment forges the lock. */
  predicate CountSafe(s: State, a: Label) {
    && (a.CloneStrong? || a.UpCas? ==> SVal(s) + 1 <= USIZE_MAX)
    && (a.WeakAdd? || a.DgCas? ==> WVal(s) + 1 < USIZE_MAX)
    && (a.StrongSub? ==> SVal(s) >= 1)
    && (a.WeakSub? ==> 1 <= WVal(s) < USIZE_MAX)
  }
}

/** The invariant of the `Arc` protocol. */
module ArcInvariant {
  import opened Basics
  import opened ArcMachine

  // ----- Who uses which handle -----

  predicate KindOk(pc: Pc, k: Kind) {
    match pc
    case Dg(_, _) => k.Strong?
    case AbortS(_) => k.Strong?
    case Lock(_, _) => k.Strong?
    case Unlock(_, _, _) => k.Strong?
    case Mut(_) => k.Strong?
    case Cl(_) => k.Strong?
    case Dr(_) => k.Strong?
    case Up(_, _) => !k.Strong?
    case AbortW(_) => !k.Strong?
    case Zero(_, _) => k.Unique?
    case MM(_) => k.Unique?
    case MMR(_) => k.Unique?
    case Own(_, _) => k.Unique?
    case WSub(_) => k.Unique?
    case _ => true
  }

  predicate UserOk(s: State, t: Tid)
    requires t in s.threads
  {
    var th := s.threads[t];
    SharedPc(th.pc) || ExclPc(th.pc) ==>
      && th.pc.h in s.handles
      && var hd := s.handles[th.pc.h];
      && hd.live && KindOk(th.pc, hd.kind) && hd.base <= th.view
      && (SharedPc(th.pc) ==> t in hd.shared)
      && (ExclPc(th.pc) ==> hd.excl == Some(t) && hd.ret <= th.view)
  }

  predicate HandleOk(s: State, h: Hid)
    requires h in s.handles
  {
    var hd := s.handles[h];
    && (forall t <- hd.shared :: t in s.threads && SharedPc(s.threads[t].pc) && s.threads[t].pc.h == h)
    && (hd.excl.Some? ==>
          && hd.shared == {} && hd.excl.value in s.threads
          && ExclPc(s.threads[hd.excl.value].pc) && s.threads[hd.excl.value].pc.h == h)
    && (if hd.live then 0 in hd.base else hd.shared == {} && hd.excl.None?)
  }

  ghost predicate Usage(s: State) {
    && 0 < |s.strong| && 0 < |s.weak| && 0 < |s.events|
    && (forall t <- s.threads :: UserOk(s, t))
    && (forall h <- s.handles :: HandleOk(s, h))
  }

  // ----- Counts, lock and data -----

  ghost predicate Counts(s: State) {
    && SVal(s) == |Live(s, Strong)| + |OverS(s)|
    && SVal(s) <= MAX_REFCOUNT + 1 + |OverS(s)|
    && |Live(s, Unique)| <= 1
    && (Live(s, Unique) == {} || Live(s, Strong) == {})
    && (s.locker.None? ==>
          && WVal(s) <= MAX_REFCOUNT + 1 + |OverW(s)|
          && WVal(s) == |Live(s, Weak)| + |OverW(s)|
               + (if Live(s, Strong) == {} && Live(s, Unique) == {} then 0 else 1))
  }

  predicate Locking(pc: Pc) { pc.Lock? || pc.Unlock? }

  ghost predicate Locks(s: State) {
    && (forall t <- s.threads :: Locking(s.threads[t].pc) ==> s.locker == Some(t))
    && (s.locker.Some? ==>
          && WVal(s) == USIZE_MAX
          && s.locker.value in s.threads
          && Locking(s.threads[s.locker.value].pc)
          && Live(s, Weak) == {}
          && WView(s) <= s.threads[s.locker.value].view)
  }

  /** The thread holds, or is about to be given, `&mut T`. */
  predicate HasMut(pc: Pc) { pc.Mut? || (pc.Unlock? && pc.ex && pc.unique) }

  ghost predicate Alone(s: State, h: Hid) {
    forall g <- s.handles :: s.handles[g].live ==> g == h
  }

  ghost predicate DataPc(s: State, t: Tid)
    requires t in s.threads
  {
    var pc := s.threads[t].pc;
    && (pc.Zero? || pc.MM? || pc.MMR? || pc.Own? ==> s.data.Init?)
    && (pc.WSub? ==> s.data.Ended?)
    && (HasMut(pc) ==> Alone(s, pc.h) && SView(s) <= s.threads[t].view)
    && (pc.MMR? ==> Alone(s, pc.h))
  }

  /** The only unique handle left after the data ended is on its way out. */
  predicate Leaving(s: State, h: Hid)
    requires h in s.handles
  {
    var x := s.handles[h].excl;
    x.Some? && x.value in s.threads && s.threads[x.value].pc.WSub?
  }

  predicate DeadUnique(s: State, h: Hid)
    requires h in s.handles
  {
    !s.handles[h].live && s.handles[h].kind.Unique?
  }

  ghost predicate DataOk(s: State) {
    && (s.data.Uninit? ==> s.origin.FromCyclic?)
    && (Live(s, Strong) != {} ==> s.data.Init?)
    && (s.data.Init? ==> Live(s, Strong) != {} || Live(s, Unique) != {})
    && (forall t <- s.threads :: DataPc(s, t))
    && (s.data.Ended? ==> forall h <- Live(s, Unique) :: Leaving(s, h))
    && |s.ended| == (if s.data.Ended? then 1 else 0)
    && (forall g <- s.handles :: DeadUnique(s, g) ==> Live(s, Strong) == {} && Live(s, Unique) == {})
  }

  /** The last weak reference and the deallocation. */
  ghost predicate Freeing(s: State) {
    && (WVal(s) == 0 <==> s.frees != 0 || s.freer.Some?)
    && s.frees <= 1
    && (s.freer.Some? ==>
          && s.frees == 0 && s.freer.value in s.threads
          && var th := s.threads[s.freer.value];
          && (th.pc.FreeF? || th.pc.FreeIt?)
          && KnowsAll(s, if th.pc.FreeF? then th.view + th.pend else th.view))
    && (forall t <- s.threads :: s.threads[t].pc.FreeF? || s.threads[t].pc.FreeIt? ==> s.freer == Some(t))
  }

  // ----- What is known where -----

  /** Event `e` is known to whoever may next use `h` exclusively. */
  predicate Holds(s: State, h: Hid, e: nat)
    requires h in s.handles && e < |s.events|
  {
    var hd := s.handles[h];
    if hd.excl.Some? then
      hd.excl.value in s.threads && e in s.threads[hd.excl.value].view
    else
      var u := s.events[e].who;
      e in hd.base || e in hd.ret || (u in hd.shared && u in s.threads && e in s.threads[u].view)
  }

  /** As `Holds`, also counting what the coming Acquire fence will bring. */
  predicate WillHold(s: State, h: Hid, e: nat)
    requires h in s.handles && e < |s.events|
  {
    var x := s.handles[h].excl;
    Holds(s, h, e) || (x.Some? && x.value in s.threads && s.threads[x.value].pc.Zero? && e in s.threads[x.value].pend)
  }

  ghost predicate KnownVia(s: State, e: nat, h: Hid)
    requires e < |s.events|
  {
    && h in s.handles
    && (s.handles[h].live ==> Holds(s, h, e))
    && (!s.handles[h].live && s.handles[h].kind.Strong? ==>
          if Live(s, Strong) != {} then e in SView(s)
          else if Live(s, Unique) != {} then forall u <- Live(s, Unique) :: WillHold(s, u, e)
          else WVal(s) > 0 ==> e in WView(s))
    && (!s.handles[h].live && !s.handles[h].kind.Strong? && WVal(s) > 0 ==> e in WView(s))
  }

  /** Every access so far is known to the handle it was made through, or, once that handle is
      gone, to the counter it was dropped on or to whoever took over from that counter. */
  ghost predicate Known(s: State) {
    forall e | 0 <= e < |s.events| :: KnownVia(s, e, s.events[e].via)
  }

  /** Every holder of a strong or unique handle knows every write to the data. */
  predicate SeesWrite(s: State, h: Hid, e: nat)
    requires h in s.handles
  {
    var hd := s.handles[h];
    if hd.excl.Some? then hd.excl.value in s.threads && e in s.threads[hd.excl.value].view else e in hd.base
  }

  ghost predicate Writes(s: State) {
    && (forall e | 0 <= e < |s.events| && IsDataAccess(s.events[e]) ::
          s.events[e].via in s.handles && !s.handles[s.events[e].via].kind.Weak?)
    && (forall e, h | 0 <= e < |s.events| && IsWrite(s.events[e]) && h in Live(s, Strong) :: SeesWrite(s, h, e))
    && (forall e, h | 0 <= e < |s.events| && IsWrite(s.events[e]) && h in Live(s, Unique) :: SeesWrite(s, h, e))
    && (Live(s, Strong) != {} ==> forall e, h | 0 <= e < |s.events| && IsWrite(s.events[e]) && h in Live(s, Weak) ::
          e in s.handles[h].base || e in SView(s))
  }

  // ----- Stale reads -----

  function RiseIdx(s: State): nat
  {
    if s.rise < |s.events| && s.events[s.rise].place.OnStrong? then s.events[s.rise].place.idx else 0
  }

  function WRiseIdx(s: State): nat
  {
    if s.wrise < |s.events| && s.events[s.wrise].place.OnWeak? then s.events[s.wrise].place.idx else 0
  }

  /** Since the last lift from 1 the counter has been at least 2, except perhaps now. */
  ghost predicate StrongHistory(s: State) {
    && s.rise < |s.events|
    && RiseIdx(s) < |s.strong|
    && (SVal(s) > 0 ==> forall i :: RiseIdx(s) <= i < |s.strong| - 1 ==> s.strong[i].val != 1)
  }

  ghost predicate WeakHistory(s: State) {
    && s.wrise < |s.events|
    && WRiseIdx(s) < |s.weak|
    && (WVal(s) > 0 ==> forall i :: WRiseIdx(s) <= i < |s.weak| - 1 ==> s.weak[i].val != 1)
  }

  /** The event that made the handle is known to its holders and not older than the last lift. */
  predicate BornAfterRise(s: State, h: Hid)
    requires h in s.handles
  {
    var b := s.handles[h].born;
    && b in s.handles[h].base && b < |s.events|
    && (if s.events[b].place.OnStrong? then RiseIdx(s) <= s.events[b].place.idx else RiseIdx(s) == 0)
  }

  ghost predicate Rises(s: State) {
    && s.rise < |s.events| && s.events[s.rise].via in s.handles
    && s.wrise < |s.events| && s.events[s.wrise].via in s.handles
    && (forall h <- Live(s, Strong) ::
          || BornAfterRise(s, h)
          || s.events[s.rise].via == h
          || s.handles[s.events[s.rise].via].kind.Weak?)
    && (s.handles[s.events[s.wrise].via].kind.Weak? ==> Live(s, Strong) == {} && Live(s, Unique) == {})
  }

  ghost predicate Inv(s: State) {
    && Usage(s) && Counts(s) && Locks(s) && DataOk(s) && Freeing(s)
    && Known(s) && Writes(s) && StrongHistory(s) && WeakHistory(s) && Rises(s)
  }
}

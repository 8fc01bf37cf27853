/** Whole calls of the `Arc` methods by one thread alone: every sequence of its steps from the first operation of the
  * method until it returns, with whatever retries and synchronisation in between. */
module ArcCalls {
  import opened Basics
  import opened ArcMachine
  import opened ArcAlone

  /** `ReleaseCall` is `drop` or `into_inner`; `WeakCloneCall` is `Weak::clone`, or `UniqueArc::downgrade`;
    * `PublishCall` is `into_arc`. */
  datatype Call =
    | CloneCall | DowngradeCall | UpgradeCall | WeakCloneCall(kind: Kind) | ReleaseCall(f: Finish) | WeakDropCall
    | UnwrapCall | IsUniqueCall | GetMutCall | MakeMutCall | PublishCall | UniqueDropCall

  /** The first operation of the method. */
  predicate Entry(call: Call, a: Label) {
    match call
    case CloneCall => a.CloneStrong?
    case DowngradeCall => a.DgLoad?
    case UpgradeCall => a.UpLoad?
    case WeakCloneCall(_) => a.WeakAdd?
    case ReleaseCall(f) => a.StrongSub? && a.f == f
    case WeakDropCall => a.WeakSub?
    case UnwrapCall => a.UnwrapCas? || a.UnwrapFail?
    case IsUniqueCall => a.LockCas? || a.LockFail?
    case GetMutCall => a.LockCas? || a.LockFail?
    case MakeMutCall => a.MMCas? || a.MMFail?
    case PublishCall => a.Publish?
    case UniqueDropCall => a.UniqueDrop?
  }

  /** Between calls. */
  predicate Resting(pc: Pc) { pc.Idle? || pc.Sh? || pc.Ex? || pc.Mut? }

  /** Thread `t` goes on alone by the steps `l` until its call returns, in state `s2`. */
  ghost predicate Going(s: State, t: Tid, l: seq<Label>, s2: State)
    decreases |l|
  {
    && t in s.threads
    && if Resting(s.threads[t].pc) then l == [] && s2 == s
      else l != [] && l[0].t == t && Enabled(s, l[0]) && Going(Apply(s, l[0]), t, l[1..], s2)
  }

  /** The steps `l` are one call, by thread `t` alone. */
  ghost predicate Lone(call: Call, s: State, t: Tid, l: seq<Label>, s2: State) {
    l != [] && l[0].t == t && Entry(call, l[0]) && Enabled(s, l[0]) && Going(Apply(s, l[0]), t, l[1..], s2)
  }

  predicate LoadsStrong(a: Label) { a.LoadStrong? || a.UpLoad? || a.UpFail? || a.UnwrapFail? || a.MMFail? }

  predicate LoadsWeak(a: Label) { a.DgLoad? || a.DgFail? || a.LockFail? || a.MMLoad? }

  /** If the step loads a counter, it reads the last value written. */
  predicate Newest(s: State, a: Label) {
    (LoadsStrong(a) ==> a.i + 1 == |s.strong|) && (LoadsWeak(a) ==> a.i + 1 == |s.weak|)
  }

  ghost predicate Fresh(s: State, l: seq<Label>)
    decreases |l|
  {
    l == [] || (Newest(s, l[0]) && (Enabled(s, l[0]) ==> Fresh(Apply(s, l[0]), l[1..])))
  }

  // ----- What a call must be given, and what it leaves -----

  predicate Alive(c: Look) { c.frees == 0 && 0 < c.weak }

  /** No counter is over the limit, and the source's own demands. */
  predicate Ready(call: Call, c: Look) {
    match call
    case CloneCall => c.strong <= MAX_REFCOUNT
    case DowngradeCall => c.weak <= MAX_REFCOUNT
    case UpgradeCall => c.strong <= MAX_REFCOUNT
    case WeakCloneCall(kind) => c.weak <= MAX_REFCOUNT && !kind.Strong?
    case ReleaseCall(f) => 0 < c.strong && 0 < c.weak && c.data.Init? && (f.DropIt? || f.IntoInner?)
    case WeakDropCall => 0 < c.weak
    case UnwrapCall => 0 < c.strong && 0 < c.weak && c.data.Init?
    case IsUniqueCall => true
    case GetMutCall => true
    case MakeMutCall => 0 < c.strong && 0 < c.weak && c.data.Init?
    case PublishCall => c.strong == 0 && c.data.Init?
    case UniqueDropCall => c.strong == 0 && 0 < c.weak && c.data.Init?
  }

  function StartPc(call: Call, h: Hid): Pc {
    match call
    case CloneCall => Sh(h)
    case DowngradeCall => Sh(h)
    case UpgradeCall => Sh(h)
    case WeakCloneCall(_) => Sh(h)
    case IsUniqueCall => Sh(h)
    case _ => Ex(h)
  }

  function StartKind(call: Call): Kind {
    match call
    case UpgradeCall => Weak
    case WeakDropCall => Weak
    case WeakCloneCall(kind) => kind
    case PublishCall => Unique
    case UniqueDropCall => Unique
    case _ => Strong
  }

  function WeakGone(c: Look): Look
    requires c.weak > 0
  {
    if c.weak == 1 then c.(weak := 0, frees := c.frees + 1) else c.(weak := c.weak - 1)
  }

  /** The value was ended by the last strong handle. */
  function ValueGone(c: Look, f: Finish): Look
    requires c.data.Init?
  {
    c.(strong := 0, data := Ended, ended := c.ended + [End(f, c.data.v)])
  }

  function Finished(c: Look, f: Finish): Look
    requires c.data.Init? && c.weak > 0
  {
    WeakGone(ValueGone(c, f))
  }

  function EndLook(call: Call, c: Look): Look
    requires Ready(call, c)
  {
    match call
    case CloneCall => c.(strong := c.strong + 1)
    case DowngradeCall => c.(weak := c.weak + 1)
    case UpgradeCall => if c.strong == 0 then c else c.(strong := c.strong + 1)
    case WeakCloneCall(_) => c.(weak := c.weak + 1)
    case ReleaseCall(f) => if c.strong > 1 then c.(strong := c.strong - 1) else Finished(c, f)
    case WeakDropCall => WeakGone(c)
    case UnwrapCall => if c.strong > 1 then c else Finished(c, TryUnwrap)
    case IsUniqueCall => c
    case GetMutCall => c
    case MakeMutCall =>
      if c.strong > 1 then c.(strong := c.strong - 1) else if c.weak > 1 then Finished(c, Steal) else c
    case PublishCall => c.(strong := 1)
    case UniqueDropCall => Finished(c, DropIt)
  }

  function EndKind(call: Call, c: Look): Kind {
    match call
    case UpgradeCall => Weak
    case WeakDropCall => Weak
    case WeakCloneCall(kind) => kind
    case UniqueDropCall => Unique
    case ReleaseCall(_) => if c.strong > 1 then Strong else Unique
    case UnwrapCall => if c.strong > 1 then Strong else Unique
    case MakeMutCall => if c.strong > 1 || c.weak == 1 then Strong else Unique
    case _ => Strong
  }

  function EndPc(call: Call, h: Hid, c: Look): Pc {
    match call
    case UnwrapCall => if c.strong > 1 then Ex(h) else Idle
    case GetMutCall => if c.strong == 1 && c.weak == 1 then Mut(h) else Ex(h)
    case MakeMutCall => if c.strong == 1 && c.weak == 1 then Mut(h) else Idle
    case ReleaseCall(_) => Idle
    case WeakDropCall => Idle
    case PublishCall => Ex(h)
    case UniqueDropCall => Idle
    case _ => Sh(h)
  }

  ghost predicate AtEnd(call: Call, s: State, t: Tid, h: Hid, c: Look)
    requires Ready(call, c)
  {
    On(s, t, EndPc(call, h, c), h, EndKind(call, c), EndLook(call, c))
  }

  // ----- In the middle of a call -----

  /** From the last decrement of `strong`, or the value about to be stolen, to the end. */
  predicate Ending(h: Hid, f: Finish, c0: Look, pc: Pc, kind: Kind, c: Look) {
    && c0.strong <= 1 && c0.data.Init? && kind.Unique?
    && (|| (c == c0.(strong := 0) && (pc == Zero(h, f) || pc == Own(h, f)))
        || (c == ValueGone(c0, f) && pc == WSub(h))
        || (c0.weak == 1 && c == ValueGone(c0, f).(weak := 0) && (pc.FreeF? || pc.FreeIt?)))
  }

  /** With `weak` locked. */
  predicate Checking(h: Hid, ex: bool, c0: Look, pc: Pc, kind: Kind, c: Look) {
    && (pc == Lock(h, ex) || pc == Unlock(h, ex, c0.strong == 1))
    && kind.Strong? && c0.weak == 1 && c == c0.(weak := USIZE_MAX)
  }

  predicate Mid(call: Call, h: Hid, c0: Look, pc: Pc, kind: Kind, c: Look) {
    match call
    case CloneCall => false
    case WeakCloneCall(_) => false
    case PublishCall => false
    case UniqueDropCall => Ending(h, DropIt, c0, pc, kind, c)
    case DowngradeCall => pc == Dg(h, c0.weak) && kind.Strong? && c == c0
    case UpgradeCall => pc == Up(h, c0.strong) && kind.Weak? && c == c0
    case ReleaseCall(f) => Ending(h, f, c0, pc, kind, c)
    case WeakDropCall => (pc.FreeF? || pc.FreeIt?) && kind.Weak? && c0.weak == 1 && c == c0.(weak := 0)
    case UnwrapCall => Ending(h, TryUnwrap, c0, pc, kind, c)
    case IsUniqueCall => Checking(h, false, c0, pc, kind, c)
    case GetMutCall => Checking(h, true, c0, pc, kind, c)
    case MakeMutCall =>
      || ((pc == Cl(h) || pc == Dr(h)) && kind.Strong? && c0.strong > 1 && c == c0)
      || ((pc == MM(h) || (pc == MMR(h) && c0.weak == 1)) && kind.Unique? && c0.strong == 1 && c == c0.(strong := 0))
      || (c0.weak > 1 && Ending(h, Steal, c0, pc, kind, c))
  }

  function Seen(s: State): Look { Look(SVal(s), WVal(s), s.data, s.ended, s.frees) }

  ghost predicate AtMid(call: Call, s: State, t: Tid, h: Hid, c0: Look) {
    && t in s.threads && h in s.handles
    && On(s, t, s.threads[t].pc, h, s.handles[h].kind, Seen(s))
    && Mid(call, h, c0, s.threads[t].pc, s.handles[h].kind, Seen(s))
  }

  ghost predicate At(call: Call, s: State, t: Tid, h: Hid, c0: Look)
    requires Ready(call, c0)
  {
    AtMid(call, s, t, h, c0) || AtEnd(call, s, t, h, c0)
  }

  lemma IsMid(call: Call, s: State, t: Tid, h: Hid, c0: Look, pc: Pc, kind: Kind, c: Look)
    requires On(s, t, pc, h, kind, c) && Mid(call, h, c0, pc, kind, c)
    ensures AtMid(call, s, t, h, c0)
  {
    assert Seen(s) == c;
  }

  // ----- Which step comes next -----

  lemma NextEnding(s: State, a: Label)
    requires Enabled(s, a) && !a.Sync?
    ensures var pc := s.threads[a.t].pc;
      && (pc.Zero? ==> a == Fence(a.t)) && (pc.Own? ==> a == EndData(a.t)) && (pc.WSub? ==> a == WeakSub(a.t))
      && (pc.FreeF? ==> a == Fence(a.t)) && (pc.FreeIt? ==> a == Free(a.t))
  {}

  lemma NextBorrow(s: State, a: Label)
    requires Enabled(s, a) && !a.Sync?
    ensures var pc := s.threads[a.t].pc;
      && (pc.Up? ==> a.UpCas? || a.UpFail? || a.UpEnd?)
      && (pc.Dg? ==> a.DgCas? || a.DgFail? || a.DgPanic? || (a.DgLoad? && pc.cur == USIZE_MAX))
      && (pc.Lock? ==> a.LoadStrong?) && (pc.Unlock? ==> a == UnlockStore(a.t))
  {}

  lemma NextMake(s: State, a: Label)
    requires Enabled(s, a) && !a.Sync?
    ensures var pc := s.threads[a.t].pc;
      && (pc.MM? ==> a.MMLoad?) && (pc.MMR? ==> a == MMRestore(a.t))
      && (pc.Cl? ==> a == MMClone(a.t)) && (pc.Dr? ==> a == StrongSub(a.t, DropIt))
  {}

  lemma SyncStays(s: State, a: Label, t: Tid, pc: Pc, h: Hid, kind: Kind, c: Look)
    requires On(s, t, pc, h, kind, c) && Enabled(s, a) && a.Sync? && a.t == t
    ensures On(Apply(s, a), t, pc, h, kind, c)
  {}

  // ----- One step in the middle -----

  /** The call ends with a value that is given up. */
  predicate EndsBy(call: Call, f: Finish, c0: Look) {
    || call == ReleaseCall(f) || (call.UnwrapCall? && f.TryUnwrap?) || (call.UniqueDropCall? && f.DropIt?)
    || (call.MakeMutCall? && f.Steal? && c0.weak > 1)
  }

  lemma EndingDataStep(call: Call, s: State, t: Tid, h: Hid, c0: Look, a: Label, f: Finish)
    requires AtMid(call, s, t, h, c0) && Ready(call, c0) && Enabled(s, a) && a.t == t && !a.Sync?
    requires Ending(h, f, c0, s.threads[t].pc, s.handles[h].kind, Seen(s)) && EndsBy(call, f, c0)
    requires s.threads[t].pc.Zero? || s.threads[t].pc.Own?
    ensures At(call, Apply(s, a), t, h, c0)
  {
    NextEnding(s, a);
    if s.threads[t].pc.Zero? {
      Fences(s, t, h, f, Seen(s));
      IsMid(call, Apply(s, a), t, h, c0, Own(h, f), Unique, Seen(s));
    } else {
      EndsData(s, t, h, f, Seen(s));
      IsMid(call, Apply(s, a), t, h, c0, WSub(h), Unique, ValueGone(c0, f));
    }
  }

  lemma EndingWeakStep(call: Call, s: State, t: Tid, h: Hid, c0: Look, a: Label, f: Finish)
    requires AtMid(call, s, t, h, c0) && Ready(call, c0) && Enabled(s, a) && a.t == t && !a.Sync?
    requires Ending(h, f, c0, s.threads[t].pc, s.handles[h].kind, Seen(s)) && EndsBy(call, f, c0)
    requires s.threads[t].pc.WSub?
    ensures At(call, Apply(s, a), t, h, c0)
  {
    NextEnding(s, a);
    var c := Seen(s);
    if c0.weak > 1 {
      WeakSubs(s, t, h, Unique, WSub(h), c);
    } else {
      WeakSubsLast(s, t, h, Unique, WSub(h), c);
      IsMid(call, Apply(s, a), t, h, c0, FreeF, Unique, c.(weak := 0));
    }
  }

  lemma EndingFreeStep(call: Call, s: State, t: Tid, h: Hid, c0: Look, a: Label, f: Finish)
    requires AtMid(call, s, t, h, c0) && Ready(call, c0) && Enabled(s, a) && a.t == t && !a.Sync?
    requires Ending(h, f, c0, s.threads[t].pc, s.handles[h].kind, Seen(s)) && EndsBy(call, f, c0)
    requires s.threads[t].pc.FreeF? || s.threads[t].pc.FreeIt?
    ensures At(call, Apply(s, a), t, h, c0)
  {
    NextEnding(s, a);
    if s.threads[t].pc.FreeF? {
      FencesFree(s, t, h, Unique, Seen(s));
      IsMid(call, Apply(s, a), t, h, c0, FreeIt, Unique, Seen(s));
    } else {
      Frees(s, t, h, Unique, Seen(s));
    }
  }

  lemma EndingStep(call: Call, s: State, t: Tid, h: Hid, c0: Look, a: Label, f: Finish)
    requires AtMid(call, s, t, h, c0) && Ready(call, c0) && Enabled(s, a) && a.t == t && !a.Sync?
    requires Ending(h, f, c0, s.threads[t].pc, s.handles[h].kind, Seen(s)) && EndsBy(call, f, c0)
    ensures At(call, Apply(s, a), t, h, c0)
  {
    var pc := s.threads[t].pc;
    if pc.Zero? || pc.Own? {
      EndingDataStep(call, s, t, h, c0, a, f);
    } else if pc.WSub? {
      EndingWeakStep(call, s, t, h, c0, a, f);
    } else {
      EndingFreeStep(call, s, t, h, c0, a, f);
    }
  }

  lemma UpgradeStep(s: State, t: Tid, h: Hid, c0: Look, a: Label)
    requires AtMid(UpgradeCall, s, t, h, c0) && Ready(UpgradeCall, c0)
    requires Enabled(s, a) && a.t == t && !a.Sync? && Newest(s, a)
    ensures At(UpgradeCall, Apply(s, a), t, h, c0)
  {
    NextBorrow(s, a);
    if a.UpCas? {
      UpTakes(s, t, h, a.n, c0);
    } else if a.UpFail? {
      UpRetries(s, t, h, c0);
      IsMid(UpgradeCall, Apply(s, a), t, h, c0, Up(h, c0.strong), Weak, c0);
    } else {
      assert c0.strong == 0;
      UpRefuses(s, t, h, c0);
    }
  }

  lemma DowngradeStep(s: State, t: Tid, h: Hid, c0: Look, a: Label)
    requires AtMid(DowngradeCall, s, t, h, c0) && Ready(DowngradeCall, c0)
    requires Enabled(s, a) && a.t == t && !a.Sync? && Newest(s, a)
    ensures At(DowngradeCall, Apply(s, a), t, h, c0)
  {
    NextBorrow(s, a);
    if a.DgCas? {
      DgTakes(s, t, h, a.n, c0);
    } else {
      assert a.DgFail?;
      DgRetries(s, t, h, c0);
      IsMid(DowngradeCall, Apply(s, a), t, h, c0, Dg(h, c0.weak), Strong, c0);
    }
  }

  lemma WeakDropStep(s: State, t: Tid, h: Hid, c0: Look, a: Label)
    requires AtMid(WeakDropCall, s, t, h, c0) && Ready(WeakDropCall, c0) && Enabled(s, a) && a.t == t && !a.Sync?
    ensures At(WeakDropCall, Apply(s, a), t, h, c0)
  {
    NextEnding(s, a);
    var c := c0.(weak := 0);
    if s.threads[t].pc.FreeF? {
      FencesFree(s, t, h, Weak, c);
      IsMid(WeakDropCall, Apply(s, a), t, h, c0, FreeIt, Weak, c);
    } else {
      Frees(s, t, h, Weak, c);
    }
  }

  lemma UniqueStep(call: Call, s: State, t: Tid, h: Hid, c0: Look, a: Label)
    requires call.IsUniqueCall? || call.GetMutCall?
    requires AtMid(call, s, t, h, c0) && Enabled(s, a) && a.t == t && !a.Sync? && Newest(s, a)
    ensures At(call, Apply(s, a), t, h, c0)
  {
    NextBorrow(s, a);
    var c, ex, unique := c0.(weak := USIZE_MAX), call.GetMutCall?, c0.strong == 1;
    if s.threads[t].pc.Lock? {
      StrongLoads(s, t, h, ex, c);
      IsMid(call, Apply(s, a), t, h, c0, Unlock(h, ex, unique), Strong, c);
    } else {
      Unlocks(s, t, h, ex, unique, c);
      assert c.(weak := 1) == c0;
    }
  }

  lemma CopyStep(s: State, t: Tid, h: Hid, c0: Look, a: Label)
    requires AtMid(MakeMutCall, s, t, h, c0) && Ready(MakeMutCall, c0) && c0.strong > 1
    requires Enabled(s, a) && a.t == t && !a.Sync?
    ensures At(MakeMutCall, Apply(s, a), t, h, c0)
  {
    NextMake(s, a);
    if s.threads[t].pc.Cl? {
      ClonesData(s, t, h, c0);
      IsMid(MakeMutCall, Apply(s, a), t, h, c0, Dr(h), Strong, c0);
    } else {
      DropsOld(s, t, h, c0);
    }
  }

  lemma StealStep(s: State, t: Tid, h: Hid, c0: Look, a: Label)
    requires AtMid(MakeMutCall, s, t, h, c0) && Ready(MakeMutCall, c0) && c0.strong == 1
    requires s.threads[t].pc.MM? || s.threads[t].pc.MMR?
    requires Enabled(s, a) && a.t == t && !a.Sync? && Newest(s, a)
    ensures At(MakeMutCall, Apply(s, a), t, h, c0)
  {
    if s.threads[t].pc.MM? {
      LookStep(s, t, h, c0, a);
    } else {
      NextMake(s, a);
      Restores(s, t, h, c0.(strong := 0));
      assert c0.(strong := 0).(strong := 1) == c0;
    }
  }

  lemma LookStep(s: State, t: Tid, h: Hid, c0: Look, a: Label)
    requires AtMid(MakeMutCall, s, t, h, c0) && Ready(MakeMutCall, c0) && c0.strong == 1 && s.threads[t].pc.MM?
    requires Enabled(s, a) && a.t == t && !a.Sync? && Newest(s, a)
    ensures AtMid(MakeMutCall, Apply(s, a), t, h, c0)
  {
    NextMake(s, a);
    var c := c0.(strong := 0);
    WeakLoads(s, t, h, c);
    IsMid(MakeMutCall, Apply(s, a), t, h, c0, if c.weak != 1 then Own(h, Steal) else MMR(h), Unique, c);
  }

  lemma MakeMutStep(s: State, t: Tid, h: Hid, c0: Look, a: Label)
    requires AtMid(MakeMutCall, s, t, h, c0) && Ready(MakeMutCall, c0)
    requires Enabled(s, a) && a.t == t && !a.Sync? && Newest(s, a)
    ensures At(MakeMutCall, Apply(s, a), t, h, c0)
  {
    if c0.strong > 1 {
      CopyStep(s, t, h, c0, a);
    } else if s.threads[t].pc.MM? || s.threads[t].pc.MMR? {
      StealStep(s, t, h, c0, a);
    } else {
      EndingStep(MakeMutCall, s, t, h, c0, a, Steal);
    }
  }

  lemma MidStep(call: Call, s: State, t: Tid, h: Hid, c0: Look, a: Label)
    requires AtMid(call, s, t, h, c0) && Ready(call, c0) && Enabled(s, a) && a.t == t && Newest(s, a)
    ensures At(call, Apply(s, a), t, h, c0)
  {
    if a.Sync? {
      SyncStays(s, a, t, s.threads[t].pc, h, s.handles[h].kind, Seen(s));
      IsMid(call, Apply(s, a), t, h, c0, s.threads[t].pc, s.handles[h].kind, Seen(s));
    } else {
      match call
      case DowngradeCall => DowngradeStep(s, t, h, c0, a);
      case UpgradeCall => UpgradeStep(s, t, h, c0, a);
      case ReleaseCall(f) => EndingStep(call, s, t, h, c0, a, f);
      case WeakDropCall => WeakDropStep(s, t, h, c0, a);
      case UnwrapCall => EndingStep(call, s, t, h, c0, a, TryUnwrap);
      case IsUniqueCall => UniqueStep(call, s, t, h, c0, a);
      case GetMutCall => UniqueStep(call, s, t, h, c0, a);
      case MakeMutCall => MakeMutStep(s, t, h, c0, a);
      case UniqueDropCall => EndingStep(call, s, t, h, c0, a, DropIt);
      case _ =>
    }
  }

  // ----- The first step -----

  ghost predicate AtStart(call: Call, s: State, t: Tid, h: Hid, c: Look) {
    On(s, t, StartPc(call, h), h, StartKind(call), c) && (call.UniqueDropCall? ==> s.origin.FromUnique?)
  }

  lemma ShareStep(call: Call, s: State, t: Tid, h: Hid, c: Look, a: Label)
    requires call.CloneCall? || call.DowngradeCall? || call.UpgradeCall? || call.WeakCloneCall?
    requires AtStart(call, s, t, h, c) && Ready(call, c)
    requires Entry(call, a) && Enabled(s, a) && a.t == t && Newest(s, a)
    ensures At(call, Apply(s, a), t, h, c)
  {
    match call
    case CloneCall => Clones(s, t, h, a.n, c);
    case WeakCloneCall(kind) => WeakAdds(s, t, h, a.n, kind, c);
    case DowngradeCall =>
      DgLoads(s, t, h, c);
      IsMid(call, Apply(s, a), t, h, c, Dg(h, c.weak), Strong, c);
    case UpgradeCall =>
      UpLoads(s, t, h, c);
      IsMid(call, Apply(s, a), t, h, c, Up(h, c.strong), Weak, c);
  }

  lemma ReleaseStep(call: Call, s: State, t: Tid, h: Hid, c: Look, a: Label)
    requires call.ReleaseCall? || call.WeakDropCall?
    requires AtStart(call, s, t, h, c) && Ready(call, c)
    requires Entry(call, a) && Enabled(s, a) && a.t == t
    ensures At(call, Apply(s, a), t, h, c)
  {
    if call.ReleaseCall? && c.strong > 1 {
      Subs(s, t, h, call.f, c);
    } else if call.ReleaseCall? {
      SubsLast(s, t, h, call.f, c);
      IsMid(call, Apply(s, a), t, h, c, Zero(h, call.f), Unique, c.(strong := 0));
    } else if c.weak > 1 {
      WeakSubs(s, t, h, Weak, Ex(h), c);
    } else {
      WeakSubsLast(s, t, h, Weak, Ex(h), c);
      IsMid(call, Apply(s, a), t, h, c, FreeF, Weak, c.(weak := 0));
    }
  }

  lemma UnwrapStep(s: State, t: Tid, h: Hid, c: Look, a: Label)
    requires AtStart(UnwrapCall, s, t, h, c) && Ready(UnwrapCall, c)
    requires Entry(UnwrapCall, a) && Enabled(s, a) && a.t == t && Newest(s, a)
    ensures At(UnwrapCall, Apply(s, a), t, h, c)
  {
    if c.strong == 1 {
      assert a == UnwrapCas(t);
      Unwraps(s, t, h, c);
      IsMid(UnwrapCall, Apply(s, a), t, h, c, Zero(h, TryUnwrap), Unique, c.(strong := 0));
    } else {
      assert a.UnwrapFail?;
      UnwrapRefuses(s, t, h, c);
    }
  }

  lemma CheckStep(call: Call, s: State, t: Tid, h: Hid, c: Look, a: Label)
    requires call.IsUniqueCall? || call.GetMutCall?
    requires AtStart(call, s, t, h, c)
    requires Entry(call, a) && Enabled(s, a) && a.t == t && Newest(s, a)
    ensures At(call, Apply(s, a), t, h, c)
  {
    var ex := call.GetMutCall?;
    if c.weak == 1 {
      assert a == LockCas(t);
      Locks(s, t, h, ex, c);
      IsMid(call, Apply(s, a), t, h, c, Lock(h, ex), Strong, c.(weak := USIZE_MAX));
    } else {
      assert a.LockFail?;
      LockRefuses(s, t, h, ex, c);
    }
  }

  lemma OwnerStep(call: Call, s: State, t: Tid, h: Hid, c: Look, a: Label)
    requires call.PublishCall? || call.UniqueDropCall?
    requires AtStart(call, s, t, h, c) && Ready(call, c)
    requires Entry(call, a) && Enabled(s, a) && a.t == t
    ensures At(call, Apply(s, a), t, h, c)
  {
    if call.PublishCall? {
      Publishes(s, t, h, c);
    } else {
      UniqueDrops(s, t, h, c);
      assert c.(strong := 0) == c;
      IsMid(call, Apply(s, a), t, h, c, Own(h, DropIt), Unique, c);
    }
  }

  lemma MakeStep(s: State, t: Tid, h: Hid, c: Look, a: Label)
    requires AtStart(MakeMutCall, s, t, h, c) && Ready(MakeMutCall, c)
    requires Entry(MakeMutCall, a) && Enabled(s, a) && a.t == t && Newest(s, a)
    ensures At(MakeMutCall, Apply(s, a), t, h, c)
  {
    if c.strong == 1 {
      assert a == MMCas(t);
      MakesZero(s, t, h, c);
      IsMid(MakeMutCall, Apply(s, a), t, h, c, MM(h), Unique, c.(strong := 0));
    } else {
      assert a.MMFail?;
      MakeRefuses(s, t, h, c);
      IsMid(MakeMutCall, Apply(s, a), t, h, c, Cl(h), Strong, c);
    }
  }

  lemma FirstStep(call: Call, s: State, t: Tid, h: Hid, c: Look, a: Label)
    requires AtStart(call, s, t, h, c) && Ready(call, c)
    requires Entry(call, a) && Enabled(s, a) && a.t == t && Newest(s, a)
    ensures At(call, Apply(s, a), t, h, c)
  {
    if call.CloneCall? || call.DowngradeCall? || call.UpgradeCall? || call.WeakCloneCall? {
      ShareStep(call, s, t, h, c, a);
    } else if call.ReleaseCall? || call.WeakDropCall? {
      ReleaseStep(call, s, t, h, c, a);
    } else if call.UnwrapCall? {
      UnwrapStep(s, t, h, c, a);
    } else if call.IsUniqueCall? || call.GetMutCall? {
      CheckStep(call, s, t, h, c, a);
    } else if call.MakeMutCall? {
      MakeStep(s, t, h, c, a);
    } else {
      OwnerStep(call, s, t, h, c, a);
    }
  }

  // ----- Whole calls -----

  lemma MidIsBusy(call: Call, s: State, t: Tid, h: Hid, c: Look)
    requires AtMid(call, s, t, h, c)
    ensures t in s.threads && !Resting(s.threads[t].pc)
  {}

  lemma EndIsResting(call: Call, s: State, t: Tid, h: Hid, c: Look)
    requires Ready(call, c) && AtEnd(call, s, t, h, c)
    ensures t in s.threads && Resting(s.threads[t].pc)
  {}

  lemma {:induction false} GoingEnds(call: Call, s: State, t: Tid, h: Hid, c: Look, l: seq<Label>, s2: State)
    requires Ready(call, c) && At(call, s, t, h, c) && Going(s, t, l, s2) && Fresh(s, l)
    ensures AtEnd(call, s2, t, h, c)
    decreases |l|
  {
    if AtMid(call, s, t, h, c) {
      MidIsBusy(call, s, t, h, c);
      MidStep(call, s, t, h, c, l[0]);
      GoingEnds(call, Apply(s, l[0]), t, h, c, l[1..], s2);
    } else {
      EndIsResting(call, s, t, h, c);
    }
  }

  /** Every call by a thread alone whose loads read the last value ends in the same way. */
  lemma {:induction false} CallReturns(call: Call, s: State, t: Tid, h: Hid, c: Look, l: seq<Label>, s2: State)
    requires AtStart(call, s, t, h, c) && Ready(call, c) && Lone(call, s, t, l, s2) && Fresh(s, l)
    ensures AtEnd(call, s2, t, h, c)
  {
    FirstStep(call, s, t, h, c, l[0]);
    GoingEnds(call, Apply(s, l[0]), t, h, c, l[1..], s2);
  }

  // ----- Such calls exist -----

  /** How many steps are left at most, if none fails. */
  function Left(pc: Pc): nat {
    match pc
    case MM(_) => 6
    case Zero(_, _) => 5
    case Own(_, _) => 4
    case WSub(_) => 3
    case FreeF => 2
    case FreeIt => 1
    case MMR(_) => 1
    case Cl(_) => 2
    case Dr(_) => 1
    case Lock(_, _) => 2
    case Unlock(_, _, _) => 1
    case Up(_, _) => 1
    case Dg(_, _) => 1
    case _ => 0
  }

  lemma {:induction false} Above(ids: set<Hid>) returns (n: Hid)
    ensures forall i <- ids :: i < n
  {
    n := 0;
    if ids != {} {
      var i :| i in ids;
      var m := Above(ids - {i});
      n := if i < m then m else i + 1;
      forall j <- ids ensures j < n { assert j == i || j in ids - {i}; }
    }
  }

  /** Step `a` is possible, reads what is new and brings the call nearer to its end. */
  ghost predicate Nearer(s: State, t: Tid, a: Label) {
    && Enabled(s, a) && a.t == t && Newest(s, a)
    && t in s.threads && t in Apply(s, a).threads
    && Left(Apply(s, a).threads[t].pc) < Left(s.threads[t].pc)
  }

  lemma ZeroGoesOn(s: State, t: Tid, h: Hid, c: Look, f: Finish) returns (a: Label)
    requires On(s, t, Zero(h, f), h, Unique, c)
    ensures Nearer(s, t, a)
  {
    a := Fence(t);
    Fences(s, t, h, f, c);
  }

  lemma OwnGoesOn(s: State, t: Tid, h: Hid, c: Look, f: Finish) returns (a: Label)
    requires On(s, t, Own(h, f), h, Unique, c) && c.data.Init?
    ensures Nearer(s, t, a)
  {
    a := EndData(t);
    EndsData(s, t, h, f, c);
  }

  lemma WSubGoesOn(s: State, t: Tid, h: Hid, c: Look) returns (a: Label)
    requires On(s, t, WSub(h), h, Unique, c) && c.weak > 0
    ensures Nearer(s, t, a)
  {
    a := WeakSub(t);
    if c.weak > 1 { WSubLeaves(s, t, h, c); } else { WSubLast(s, t, h, c); }
  }

  lemma WSubLeaves(s: State, t: Tid, h: Hid, c: Look)
    requires On(s, t, WSub(h), h, Unique, c) && c.weak > 1
    ensures Nearer(s, t, WeakSub(t))
  {
    WeakSubs(s, t, h, Unique, WSub(h), c);
  }

  lemma WSubLast(s: State, t: Tid, h: Hid, c: Look)
    requires On(s, t, WSub(h), h, Unique, c) && c.weak == 1
    ensures Nearer(s, t, WeakSub(t))
  {
    WeakSubsLast(s, t, h, Unique, WSub(h), c);
  }

  lemma FreeGoesOn(s: State, t: Tid, h: Hid, kind: Kind, c: Look) returns (a: Label)
    requires On(s, t, FreeF, h, kind, c) || On(s, t, FreeIt, h, kind, c)
    ensures Nearer(s, t, a)
  {
    a := if s.threads[t].pc.FreeF? then Fence(t) else Free(t);
    if s.threads[t].pc.FreeF? { FencesFree(s, t, h, kind, c); } else { Frees(s, t, h, kind, c); }
  }

  lemma DgGoesOn(s: State, t: Tid, h: Hid, c: Look) returns (a: Label)
    requires On(s, t, Dg(h, c.weak), h, Strong, c) && c.weak <= MAX_REFCOUNT
    ensures Nearer(s, t, a)
  {
    var n := Above(s.handles.Keys);
    a := DgCas(t, n);
    DgTakes(s, t, h, n, c);
  }

  lemma UpGoesOn(s: State, t: Tid, h: Hid, c: Look) returns (a: Label)
    requires On(s, t, Up(h, c.strong), h, Weak, c) && c.strong <= MAX_REFCOUNT
    ensures Nearer(s, t, a)
  {
    if c.strong == 0 {
      a := UpEnd(t);
      UpRefuses(s, t, h, c);
    } else {
      var n := Above(s.handles.Keys);
      a := UpCas(t, n);
      UpTakes(s, t, h, n, c);
    }
  }

  lemma LockGoesOn(s: State, t: Tid, h: Hid, ex: bool, c: Look) returns (a: Label)
    requires On(s, t, Lock(h, ex), h, Strong, c)
    ensures Nearer(s, t, a)
  {
    a := LoadStrong(t, |s.strong| - 1);
    StrongLoads(s, t, h, ex, c);
  }

  lemma UnlockGoesOn(s: State, t: Tid, h: Hid, ex: bool, unique: bool, c: Look) returns (a: Label)
    requires On(s, t, Unlock(h, ex, unique), h, Strong, c)
    ensures Nearer(s, t, a)
  {
    a := UnlockStore(t);
    Unlocks(s, t, h, ex, unique, c);
  }

  lemma StealGoesOn(s: State, t: Tid, h: Hid, c: Look) returns (a: Label)
    requires On(s, t, MM(h), h, Unique, c)
    ensures Nearer(s, t, a)
  {
    a := MMLoad(t, |s.weak| - 1);
    WeakLoads(s, t, h, c);
  }

  lemma RestoreGoesOn(s: State, t: Tid, h: Hid, c: Look) returns (a: Label)
    requires On(s, t, MMR(h), h, Unique, c)
    ensures Nearer(s, t, a)
  {
    a := MMRestore(t);
    Restores(s, t, h, c);
  }

  lemma CopyGoesOn(s: State, t: Tid, h: Hid, c: Look) returns (a: Label)
    requires On(s, t, Cl(h), h, Strong, c) || (On(s, t, Dr(h), h, Strong, c) && c.strong > 1)
    ensures Nearer(s, t, a)
  {
    a := if s.threads[t].pc.Cl? then MMClone(t) else StrongSub(t, DropIt);
    if s.threads[t].pc.Cl? { ClonesData(s, t, h, c); } else { DropsOld(s, t, h, c); }
  }

  lemma MidGoesOn(call: Call, s: State, t: Tid, h: Hid, c0: Look) returns (a: Label)
    requires AtMid(call, s, t, h, c0) && Ready(call, c0)
    ensures Nearer(s, t, a)
  {
    var pc, kind, c := s.threads[t].pc, s.handles[h].kind, Seen(s);
    if pc.Up? {
      a := UpGoesOn(s, t, h, c);
    } else if pc.Dg? {
      a := DgGoesOn(s, t, h, c);
    } else if pc.Lock? {
      a := LockGoesOn(s, t, h, pc.ex, c);
    } else if pc.Unlock? {
      a := UnlockGoesOn(s, t, h, pc.ex, pc.unique, c);
    } else if pc.MM? {
      a := StealGoesOn(s, t, h, c);
    } else if pc.MMR? {
      a := RestoreGoesOn(s, t, h, c);
    } else if pc.Cl? || pc.Dr? {
      a := CopyGoesOn(s, t, h, c);
    } else if pc.Zero? {
      a := ZeroGoesOn(s, t, h, c, pc.f);
    } else if pc.Own? {
      a := OwnGoesOn(s, t, h, c, pc.f);
    } else if pc.WSub? {
      a := WSubGoesOn(s, t, h, c);
    } else {
      a := FreeGoesOn(s, t, h, kind, c);
    }
  }

  lemma AddCan(call: Call, s: State, t: Tid, h: Hid, c: Look) returns (a: Label)
    requires call.CloneCall? || call.WeakCloneCall?
    requires AtStart(call, s, t, h, c) && Ready(call, c)
    ensures Entry(call, a) && Enabled(s, a) && a.t == t && Newest(s, a)
  {
    var n := Above(s.handles.Keys);
    if call.CloneCall? {
      a := CloneStrong(t, n);
      Clones(s, t, h, n, c);
    } else {
      a := WeakAdd(t, n);
      WeakAdds(s, t, h, n, call.kind, c);
    }
  }

  lemma ShareCan(call: Call, s: State, t: Tid, h: Hid, c: Look) returns (a: Label)
    requires call.CloneCall? || call.DowngradeCall? || call.UpgradeCall? || call.WeakCloneCall?
    requires AtStart(call, s, t, h, c) && Ready(call, c)
    ensures Entry(call, a) && Enabled(s, a) && a.t == t && Newest(s, a)
  {
    match call
    case CloneCall => a := AddCan(call, s, t, h, c);
    case WeakCloneCall(_) => a := AddCan(call, s, t, h, c);
    case DowngradeCall =>
      a := DgLoad(t, |s.weak| - 1);
      DgLoads(s, t, h, c);
    case UpgradeCall =>
      a := UpLoad(t, |s.strong| - 1);
      UpLoads(s, t, h, c);
  }

  lemma UnwrapCan(s: State, t: Tid, h: Hid, c: Look) returns (a: Label)
    requires AtStart(UnwrapCall, s, t, h, c)
    ensures Entry(UnwrapCall, a) && Enabled(s, a) && a.t == t && Newest(s, a)
  {
    a := if c.strong == 1 then UnwrapCas(t) else UnwrapFail(t, |s.strong| - 1);
    if c.strong == 1 { Unwraps(s, t, h, c); } else { UnwrapRefuses(s, t, h, c); }
  }

  lemma CheckCan(call: Call, s: State, t: Tid, h: Hid, c: Look) returns (a: Label)
    requires call.IsUniqueCall? || call.GetMutCall?
    requires AtStart(call, s, t, h, c)
    ensures Entry(call, a) && Enabled(s, a) && a.t == t && Newest(s, a)
  {
    var ex := call.GetMutCall?;
    a := if c.weak == 1 then LockCas(t) else LockFail(t, |s.weak| - 1);
    if c.weak == 1 { Locks(s, t, h, ex, c); } else { LockRefuses(s, t, h, ex, c); }
  }

  lemma OwnerCan(call: Call, s: State, t: Tid, h: Hid, c: Look) returns (a: Label)
    requires call.PublishCall? || call.UniqueDropCall?
    requires AtStart(call, s, t, h, c) && Ready(call, c)
    ensures Entry(call, a) && Enabled(s, a) && a.t == t && Newest(s, a)
  {
    a := if call.PublishCall? then Publish(t) else UniqueDrop(t);
    if call.PublishCall? { Publishes(s, t, h, c); } else { UniqueDrops(s, t, h, c); }
  }

  lemma MakeMutCan(s: State, t: Tid, h: Hid, c: Look) returns (a: Label)
    requires AtStart(MakeMutCall, s, t, h, c)
    ensures Entry(MakeMutCall, a) && Enabled(s, a) && a.t == t && Newest(s, a)
  {
    a := if c.strong == 1 then MMCas(t) else MMFail(t, |s.strong| - 1);
    if c.strong == 1 { MakesZero(s, t, h, c); } else { MakeRefuses(s, t, h, c); }
  }

  lemma FirstCan(call: Call, s: State, t: Tid, h: Hid, c: Look) returns (a: Label)
    requires AtStart(call, s, t, h, c) && Ready(call, c)
    ensures Entry(call, a) && Enabled(s, a) && a.t == t && Newest(s, a)
  {
    if call.CloneCall? || call.DowngradeCall? || call.UpgradeCall? || call.WeakCloneCall? {
      a := ShareCan(call, s, t, h, c);
    } else if call.ReleaseCall? {
      a := StrongSub(t, call.f);
      SubIsSub(s, t, call.f);
    } else if call.WeakDropCall? {
      a := WeakSub(t);
      if c.weak > 1 { WeakSubs(s, t, h, Weak, Ex(h), c); } else { WeakSubsLast(s, t, h, Weak, Ex(h), c); }
    } else if call.UnwrapCall? {
      a := UnwrapCan(s, t, h, c);
    } else if call.IsUniqueCall? || call.GetMutCall? {
      a := CheckCan(call, s, t, h, c);
    } else if call.MakeMutCall? {
      a := MakeMutCan(s, t, h, c);
    } else {
      a := OwnerCan(call, s, t, h, c);
    }
  }

  lemma GoesOn(s: State, t: Tid, a: Label, l: seq<Label>, s2: State)
    requires t in s.threads && !Resting(s.threads[t].pc) && Enabled(s, a) && a.t == t && Newest(s, a)
    requires Going(Apply(s, a), t, l, s2) && Fresh(Apply(s, a), l)
    ensures Going(s, t, [a] + l, s2) && Fresh(s, [a] + l)
  {
    assert ([a] + l)[1..] == l;
  }

  lemma {:induction false} GoingCan(call: Call, s: State, t: Tid, h: Hid, c: Look) returns (l: seq<Label>, s2: State)
    requires Ready(call, c) && At(call, s, t, h, c)
    ensures Going(s, t, l, s2) && Fresh(s, l)
    decreases if t in s.threads then Left(s.threads[t].pc) else 0
  {
    if AtMid(call, s, t, h, c) {
      MidIsBusy(call, s, t, h, c);
      var a := MidGoesOn(call, s, t, h, c);
      MidStep(call, s, t, h, c, a);
      var l1;
      l1, s2 := GoingCan(call, Apply(s, a), t, h, c);
      GoesOn(s, t, a, l1, s2);
      l := [a] + l1;
    } else {
      EndIsResting(call, s, t, h, c);
      l, s2 := [], s;
    }
  }

  /** From any such state the method can be called, and returns. */
  lemma {:induction false} CallCan(call: Call, s: State, t: Tid, h: Hid, c: Look) returns (l: seq<Label>, s2: State)
    requires AtStart(call, s, t, h, c) && Ready(call, c)
    ensures Lone(call, s, t, l, s2) && Fresh(s, l)
  {
    var a := FirstCan(call, s, t, h, c);
    FirstStep(call, s, t, h, c, a);
    var l1;
    l1, s2 := GoingCan(call, Apply(s, a), t, h, c);
    l := [a] + l1;
    assert l[1..] == l1;
  }
}

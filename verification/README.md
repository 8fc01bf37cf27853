# Verified models of the `alloc` crate

This project models the parts of Rust's `alloc` crate whose correctness rests on unsafe code, and proves what
they promise:

- **`Arc`, `Weak`, `UniqueArc`** (`ArcMachine` and the other `Arc*` files): the reference-counting protocol of one
  allocation, as a machine whose steps are single atomic operations of any number of threads. Each counter is its
  sequence of messages; a plain load may be stale, a message carries the view of its release sequence, and views
  say which accesses are known to have happened before (section 6.9.2.1, [intro.races], of ISO C++20). Handles
  live in a pool and are borrowed shared or exclusively, as Rust's types demand. Every Relaxed, Acquire and
  Release in the source is that of the step which models it, and the safety proofs need them.
- **`Rc`, `Weak`, `UniqueRc`** (`RcMachine` and the other `Rc*` files): a heap whose values own further handles and
  have destructors that are programs themselves, so that a drop re-enters the heap. `RcMachine` is the heap with
  an explicit stack of what is still to do; `RcHeap.Heap` is a class with the recursive methods of the source, each
  proved to do what the machine does. `ArcRcAgree` compares the two pointer types: every call of an `Arc` method by a
  thread alone (`ArcCalls`) whose loads read the last value. In a program of one thread they do
  (`ArcStale.SoloIsInformed`); where they need not, `upgrade` may refuse (`ArcStale.LoneUpgradeRefusesExactly`).
- **Slices** (`SortByKey`, `Repeat`), **strings** (`Utf8`, `StringBuf`, `Join`, `Lowercase`): algorithms that work in
  place on a buffer, proved against functions on elements or characters. A Dafny `char` is a Unicode scalar
  value; the encoding and its syntax are those of sections 3 and 4 of RFC 3629.
- **`Global`** (`GlobalAlloc`): growing and shrinking over a heap of blocks, with an allocator that may fail at will.

Three places where the source and its comments differ, and where the model follows the source:

- `library/alloc/src/sync.rs:3079` calls a strong count of 0 permanent. `ArcZero.ZeroIsNotAlwaysPermanent` is a run in
  which `upgrade` reads 0, `into_arc` lifts it to 1, and an `upgrade` by the same thread then succeeds.
  `ArcPermanent.ZeroIsPermanentExactly` gives the exact condition, over all continuations of all threads; with two
  threads or more, none of them about to abort, it is that the data has ended or its last owner is past the point of
  no return (`ArcPermanent.ZeroIsPermanentIfDying`).
- `library/alloc/src/string.rs:1668-1669` says that at least as many bytes were deleted as the next kept character is
  long. `StringBuf.DeletedMayBeShorter` deletes an `a` and keeps the euro sign after it, whose three bytes move by
  one. What the comment says holds for every choice of what to delete exactly if no character of the string is longer
  than one before it (`StringBuf.EnoughDeletedExactly`). The copy is safe for another reason: it never reaches past the
  character it copies (`StringBuf.StringBuf.KeepAt`).
- `join_generic_copy` subtracts the length of the first piece, as asked for the second time, from the length it
  computed. If a `Borrow` gives more bytes then (`Join.FirstPieceGrows`), the difference is below zero; this is the
  outcome `Unspecified` of `Join.JoinGenericCopy`, which occurs exactly when the first piece alone exceeds the
  computed length.

What the models take from elsewhere is a parameter: the answers of the system allocator, the result of
`sort_unstable`, the matches of a searcher, the Unicode tables, the keys and answers of the caller's functions, the
second answer of a `Borrow`.

## Model

| member | source | states |
|---|---|---|
| ArcSteps.StepKeeps | library/alloc/src/sync.rs:377-391 | the protocol's invariant is inductive: every one of the 36 kinds of step, by any thread, keeps it |
| ArcTheorems.RunsAreSafe | library/alloc/src/sync.rs:2630-2679 | in every run, no access to a freed block, no data race, the data ended and the block freed only by a thread that has seen every earlier access; no counter wraps or forges the lock |
| ArcTheorems.CountersCount | library/alloc/src/sync.rs:384-387 | `strong` is the number of strong handles (plus threads about to abort); `weak` that of weak handles plus one, or `usize::MAX` exactly while one thread holds the lock, and then no `Weak` exists |
| ArcTheorems.QuietMeansReclaimed | library/alloc/src/sync.rs:1923-1934 | when no handle is left of a block, made by `Arc::new`, `UniqueArc::new` or `new_cyclic`, the data has ended once and the block was freed once: nothing leaks |
| ArcTheorems.MutMeansAlone | library/alloc/src/sync.rs:2439-2450 | while `&mut T` from `get_mut` or `make_mut` is out, its handle is the only one of any kind and nobody else uses any |
| ArcLoads.UniqueMeansAlone | library/alloc/src/sync.rs:2577-2599 | the load of `strong` under the lock, stale or not, reads 1 only if the handle is alone; for `get_mut`, and for an `is_unique` whose thread is the only borrower of the handle and has seen what earlier ones did |
| ArcUnique.IsUniqueAnswers | library/alloc/src/sync.rs:2577-2599 | every lone `is_unique` whose loads read the last values says yes exactly if there is one strong handle and no `Weak`, and leaves borrow and block as they were |
| ArcUnique.YesMeansAlone | library/alloc/src/sync.rs:2577-2599 | in any run, interleaved or not, the answer is whether the value read under the lock was 1; a yes to the sole user of a handle means that it was the only one |
| ArcLoads.OneMeansAlone | library/alloc/src/sync.rs:2314-2367 | the Relaxed load of `weak` in `make_mut`, stale or not, reads 1 only if no `Weak` is left |
| ArcTheorems.OthersKeepValue | library/alloc/src/sync.rs:2303-2373 | a step changes the value only through the only strong handle there is |
| ArcTheorems.DataBecomes | library/alloc/src/sync.rs:2303-2373 | over all 36 kinds of step the data becomes what is written, or ends, or stays |
| ArcTheorems.ZeroToOne | library/alloc/src/sync.rs:4445-4458 | `strong` leaves 0 only in `into_arc`, at the end of `new_cyclic` and in the restore of `make_mut`, each by the sole owner of the implicit weak reference, on initialised data |
| ArcTheorems.NoUpgradeAfterEnd | library/alloc/src/sync.rs:3073-3101 | once `strong` went to 0 for good, it is 0 in every continuation and no `upgrade` or `clone` succeeds |
| ArcZero.ZeroIsNotAlwaysPermanent | library/alloc/src/sync.rs:3073-3101 | a run in which `upgrade` reads 0 and fails, and the same thread's next `upgrade` succeeds |
| ArcLift.OwnerLiftsExactly | library/alloc/src/sync.rs:3078-3082 | in every reachable state the owner of the implicit weak reference can lift the 0 by steps of its own if and only if the data has not ended, it is not about to end it, and `make_mut` did not leave `Weak` handles to find |
| ArcPermanent.ZeroIsPermanentExactly | library/alloc/src/sync.rs:3078-3082 | in every reachable state with count 0 some run of any threads lifts it if and only if its owner can still become strong: unused, by a thread that can take it; used, when its user is not past the point of no return and, if it looks for `Weak` handles, finds none or leaves them to other threads none of which is about to abort |
| ArcPermanent.ZeroIsPermanentIfDying | library/alloc/src/sync.rs:3078-3082 | with two threads or more and none about to abort: the 0 is permanent if and only if the data has ended or is past the point of no return |
| ArcLift.ZeroHasOwner | library/alloc/src/sync.rs:4445-4458 | while the count is 0 there is exactly one such owner, until the data has ended |
| ArcTheorems.UpgradeSeesData | library/alloc/src/sync.rs:3073-3101 | a successful `upgrade` gives initialised data all of whose writes its thread has seen |
| ArcEnds.LastKnowsAll | library/alloc/src/sync.rs:3291-3317 | the thread that takes `weak` to 0 learns, through its fence, of every access ever made to the block |
| ArcOnce.IntoInnerExactlyOnce | library/alloc/src/sync.rs:1133-1158 | if the owners of a block, however it was made, give its value up only by `into_inner` (a `make_mut` in place is no giving up), exactly one call of the run gives the value the block held then, which is never dropped in place |
| ArcRace.TryUnwrapCanFailForAll | library/alloc/src/sync.rs:1018-1033 | a run in which both owners' `try_unwrap` fail, and the value is then destroyed once, in place |
| ArcOnce.MakeMutKeepsValue | library/alloc/src/sync.rs:2303-2373 | from the CAS of `make_mut` until the reference is out or the value moved, no other thread can change or end the value |
| ArcOnce.MakeMutCopiesValue | library/alloc/src/sync.rs:2303-2373 | in the branch that copies, from the failed CAS until the old handle is dropped the data is what it was, so that is what the copy is made of |
| ArcRcAgree.CloneAgrees | library/alloc/src/sync.rs:2187-2221 | every `clone` by a thread alone changes the block as `Rc::clone` does |
| ArcRcAgree.DowngradeAgrees | library/alloc/src/sync.rs:1727-1762 | likewise every lone `downgrade` whose loads read the last value, retries included |
| ArcRcAgree.UpgradeAgrees | library/alloc/src/rc.rs:3342-3356 | likewise every lone `upgrade`: it ends in its CAS exactly for the blocks for which `Rc` gives `Some`, and counts the same |
| ArcRcAgree.DropAgrees | library/alloc/src/rc.rs:2293-2300 | every lone drop, through fence, end of the data and of the block, leaves what the `Rc` call leaves, for a value that owns nothing; the other `Rc` blocks stay |
| ArcRcAgree.WeakDropAgrees | library/alloc/src/rc.rs:3474-3485 | likewise every lone drop of a `Weak` |
| ArcRcAgree.WeakCloneAgrees | library/alloc/src/sync.rs:3223-3238 | every lone `Weak::clone`, or `UniqueArc::downgrade`, changes the block as `Rc` does |
| ArcRcAgree.IntoArcAgrees | library/alloc/src/rc.rs:4029-4043 | every lone `UniqueArc::into_arc` leaves the block that `UniqueRc::into_rc` leaves |
| ArcRcAgree.UniqueDropAgrees | library/alloc/src/sync.rs:4522-4530 | every lone drop of a `UniqueArc` leaves the block that the drop of a `UniqueRc` leaves |
| ArcRcAgree.TryUnwrapAgrees | library/alloc/src/rc.rs:958-977 | every lone `try_unwrap` gives the value or the handle back in the same cases, with the same block left and the other blocks as they were |
| ArcRcAgree.IntoInnerAgrees | library/alloc/src/rc.rs:1009-1011 | every lone `into_inner` gives the value in the same case and drops the handle in the other, likewise |
| ArcRcAgree.GetMutAgrees | library/alloc/src/rc.rs:1730-1732 | every lone `get_mut` gives the reference for the same blocks, and its lock leaves no trace |
| ArcRcAgree.IsUniqueAgrees | library/alloc/src/rc.rs:1700-1705 | every lone `is_unique` gives the answer `Rc` gives |
| ArcRcAgree.MakeMutAgrees | library/alloc/src/rc.rs:1878-1930 | every lone `make_mut` takes the same branch of the three, with the same effect on the old block and the same new value |
| ArcCalls.CallReturns | library/alloc/src/sync.rs:1727-2679 | the general form: from its first operation until it returns, with any retries and synchronisation, a lone call of any of the methods ends with the thread, the handle and the block as the method demands |
| ArcCalls.CallCan | library/alloc/src/sync.rs:1727-2679 | and from every such state there is such a call |
| ArcLimits.AbortEndsAll | library/alloc/src/sync.rs:2187-2221 | a thread whose increment went over the limit can only abort, and nobody makes a step after that |
| ArcLimits.CloneOverLimit | library/alloc/src/sync.rs:2187-2221 | such an increment makes no handle |
| ArcLimits.DowngradeOverLimit | library/alloc/src/sync.rs:1727-1762 | `downgrade` of a count over the limit panics and changes nothing |
| ArcLimits.DowngradeSpins | library/alloc/src/sync.rs:1727-1762 | `downgrade` that reads the lock does nothing but read again |
| ArcLimits.UpgradeOverLimit | library/alloc/src/sync.rs:3073-3101 | `upgrade` of a count over the limit panics and changes nothing |
| ArcLimits.MutSets | library/alloc/src/sync.rs:2439-2450 | through the `&mut T` of `get_mut` or `make_mut` the value can be set, and the borrow given back |
| ArcStale.InformedCallsAreFresh | library/alloc/src/sync.rs:3073-3101 | a thread that has seen every access to the counters reads the last value in each load of such a call |
| ArcStale.SoloIsInformed | library/alloc/src/sync.rs:3073-3101 | in a program of one thread that thread always has |
| ArcStale.LoneUpgradeRefusesExactly | library/alloc/src/sync.rs:3073-3101 | of a block with a strong owner a lone `upgrade` may give `None` exactly if its thread can still read an old 0 |
| ArcOld.LoneUpgradeCanRefuse | library/alloc/src/sync.rs:4445-4458 | a run to such a state, by `into_arc`; `Rc` would give `Some` |
| ArcOld.SharedIsUniqueCanBeOld | library/alloc/src/sync.rs:2577-2599 | a run in which a shared `is_unique` says yes while there are two strong handles |
| RcSteps.StepKeeps | library/alloc/src/rc.rs:3548-3619 | every step of the heap, in the middle of any destruction, keeps each count equal to the handles that exist; none touches a freed block or takes a count below zero |
| RcRuns.StepWorks | library/alloc/src/rc.rs:385-396 | every step leaves less work to do, so every re-entrant drop ends, in cyclic heaps too |
| RcRuns.Called | library/alloc/src/rc.rs:2293-2300 | a call carries out its task and all that it sets off, and hands the rest of the stack back untouched |
| RcTheorems.RunsAreSafe | library/alloc/src/rc.rs:411-423 | no run of any program, with any destructors, does anything undefined; its counts are always the handles |
| RcValues.RunKeepsValues | library/alloc/src/rc.rs:411-423 | at any step of any run every value stays what it is, except that `get_mut` of a lone handle sets the payload given, a handle may move into or out of the value, and its end takes it away; a new block holds the value it was made with |
| RcValues.AbortsExactly | library/alloc/src/rc.rs:3560-3613 | the process aborts exactly when a count that is `usize::MAX` would be lifted |
| RcTheorems.FreedExactlyAtLastWeak | library/alloc/src/rc.rs:3474-3485 | at any point of any run a block is freed exactly when no handle of any kind, and no running destruction, is left |
| RcTheorems.DestroyedAtMostOnce | library/alloc/src/rc.rs:385-396 | in any run each value is destroyed at most once, and what was destroyed stays so |
| RcTheorems.DestructionIsBracketed | library/alloc/src/rc.rs:385-396 | from the step that drops the last owner until the last field of the value is dropped, the block is not freed and every `upgrade` of it fails, whatever the destruction sets off and even if the value holds the only `Weak` to itself |
| RcTheorems.DestructionEnds | library/alloc/src/rc.rs:385-396 | and that destruction ends, leaving just the implicit weak reference to drop |
| RcTheorems.DestructionOrder | library/alloc/src/rc.rs:385-396 | the destructor's operations run first, in order, then the fields are dropped in order, then the implicit weak reference |
| RcTheorems.EachInTurn | library/alloc/src/rc.rs:385-396 | each of them comes when those before it, with all they set off, are done |
| RcSelf.SelfWeakIsSafe | library/alloc/src/rc.rs:385-396 | that case run: a value with the only `Weak` to itself, whose destructor tries to upgrade it |
| RcTheorems.UpgradeExactly | library/alloc/src/rc.rs:3342-3356 | at any point of any run `upgrade` succeeds exactly when a strong handle exists, and then the value is there; never for a `UniqueRc`, in `new_cyclic`, or during the destruction |
| RcTheorems.OverForEver | library/alloc/src/rc.rs:3342-3356 | once the value is destroyed or moved out, every later `upgrade` fails |
| RcTheorems.LoneMeansAlone | library/alloc/src/rc.rs:1700-1705 | at any point of any run what `is_unique` reads means that one strong handle is the only handle of any kind |
| RcTheorems.MakeMutKeepsValues | library/alloc/src/rc.rs:1878-1930 | in all three branches the caller ends up alone on a block with the value it saw; every other block, and the old one for its other owners, keeps its value |
| RcTheorems.IntoInnerEach | library/alloc/src/rc.rs:979-1011 | a program of nothing but `into_inner` calls, one for each strong handle: the last moves the value out and nothing is destroyed in place |
| RcInto.IntoInnerReturnsOnce | library/alloc/src/rc.rs:979-1011 | in any run in which the value of a block leaves its owners only by `into_inner` (a `try_unwrap` that fails and a `make_mut` in place are no leaving), it is never destroyed in place, at most one call returns it, and exactly one has once nothing owns it |
| RcReclaim.LiveIsReachable | library/alloc/src/rc.rs:30-33 | without ownership cycles, a value that is left can be reached by the program through owners |
| RcReclaim.ReachableIsLive | library/alloc/src/rc.rs:30-33 | and what can be reached so is alive, cycles or not |
| RcReclaim.DroppingAllReclaimsAll | library/alloc/src/rc.rs:30-33 | without ownership cycles, dropping all the program's handles, in any order, destroys every value and frees every block, whatever `Weak` back-edges there are |
| RcReclaim.ProgramReclaimsExactly | library/alloc/src/rc.rs:30-33 | any program, whatever its destructors do, that ends without ownership cycles has left no value and no block if and only if it has no handle left |
| RcIslands.IslandsStayForEver | library/alloc/src/rc.rs:30-33 | blocks that nobody outside points to keep values and counts for ever |
| RcIslands.CyclesLeak | library/alloc/src/rc.rs:30-33 | so on a strong cycle that nobody outside points to every count is positive, no value is ever destroyed and no block freed |
| RcIslands.CycleIsLeft | library/alloc/src/rc.rs:30-33 | a program that ends holding nothing and leaves such a cycle |
| RcHeap.Heap.DropRc | library/alloc/src/rc.rs:2293-2300 | the re-entrant drop ends, and does what the machine does when run until the call returns |
| RcHeap.Heap.DropSlow | library/alloc/src/rc.rs:385-396 | destroys the value under a reconstructed weak reference, likewise |
| RcHeap.Heap.DropInPlace | library/alloc/src/rc.rs:391-395 | runs the destructor and drops the fields in order, each with all that it sets off |
| RcHeap.Heap.CyclicBegin | library/alloc/src/rc.rs:774-796 | the invariant is kept, one handle more exists, the lent weak reference, and it cannot be upgraded |
| RcHeap.Heap.CyclicEnd | library/alloc/src/rc.rs:798-816 | the invariant is kept, the block holds the value given, a strong handle exists in place of the lent weak one, and the block, which could not be upgraded, now can |
| RcHeap.Heap.NewUnique | library/alloc/src/rc.rs:4002-4015 | the invariant is kept, one handle more exists, the `UniqueRc`, and no `Weak` to it can be upgraded |
| RcHeap.Heap.New | library/alloc/src/rc.rs:411-423 | likewise with a strong handle, and `Weak`s to it can be upgraded |
| RcHeap.Heap.IntoRc | library/alloc/src/rc.rs:4029-4043 | the invariant is kept and so is the value; a strong handle exists in place of the `UniqueRc`, and the block, which could not be upgraded, now can |
| RcLedger.CloneLedger | library/alloc/src/rc.rs:2320-2325 | a clone adds exactly one handle of the kind cloned, unless the process aborts |
| RcHeap.Heap.Downgrade | library/alloc/src/rc.rs:1566-1574 | exactly one weak handle more exists, from an `Rc`, a `UniqueRc` or the weak lent by `new_cyclic`, unless the process aborts |
| RcHeap.Heap.Upgrade | library/alloc/src/rc.rs:3342-3356 | `Some`, with exactly one strong handle more, exactly when the value has a strong owner, unless the process aborts |
| RcHeap.Heap.TryUnwrap | library/alloc/src/rc.rs:958-977 | the value exactly if the handle was the only strong one, destroying nothing; else nothing changes |
| RcHeap.Heap.IntoInner | library/alloc/src/rc.rs:1009-1011 | the value in the same case, otherwise the handle is dropped |
| RcHeap.Heap.GetMut | library/alloc/src/rc.rs:1730-1732 | the value may be changed exactly if there is one strong handle and no `Weak` |
| RcHeap.Heap.MakeMut | library/alloc/src/rc.rs:1878-1930 | the handle is kept exactly if it was alone; otherwise it leads to a new block |
| RcHeap.Heap.RunProgram | library/alloc/src/rc.rs:385-396 | running a whole program by these methods is the machine's run |
| SortByKey.SortByCachedKey | library/alloc/src/slice.rs:306-353 | the slice becomes the stable sort of what it was, for either index width: each element once, keys not descending, equal keys in their old order |
| SortByKey.Permute | library/alloc/src/slice.rs:323-330 | the in-place loop puts at each position the element its sorted pair names |
| SortByKey.Chase | library/alloc/src/slice.rs:324-327 | the inner loop ends, at the place where the wanted element now is |
| SortByKey.PlacedStep | library/alloc/src/slice.rs:323-330 | after each round, from every element not yet placed the finished entries lead strictly upwards to where it is; so no chase meets a fixed point |
| SortByKey.AnySortIsStable | library/alloc/src/slice.rs:318-322 | any sort of the pairs, also an unstable one, leaves the stable order |
| SortByKey.StableOrderIsStable | library/alloc/src/slice.rs:256-263 | the reference order has every index once, keys ascending, and equal keys in their old order |
| SortByKey.ArrangedIsPermutation | library/alloc/src/slice.rs:283-289 | the sorted slice holds the elements it held |
| SortByKey.CastExactly | library/alloc/src/slice.rs:340-350 | narrowing the indices loses nothing exactly when the length fits |
| Repeat.RepeatSlice | library/alloc/src/slice.rs:505-561 | the n-fold concatenation after floor(log2 n) doublings, or a panic exactly on overflow of elements or bytes |
| Repeat.TimesAt | library/alloc/src/slice.rs:484-488 | place by place: element r of copy j |
| Repeat.CopyForward | library/alloc/src/slice.rs:545-557 | a copy whose source was written and does not overlap its target |
| Utf8.EncodedIsWellFormed | library/alloc/src/string.rs:1404-1413 | encoded characters are well-formed and decode to themselves |
| Utf8.WellFormedIsEncoded | library/alloc/src/string.rs:1404-1413 | well-formed bytes are the encoding of what they decode to |
| Utf8.OrderIsKept | library/alloc/src/string.rs:1404-1413 | encodings are ordered byte by byte as their characters are |
| Utf8.BoundaryExactly | library/alloc/src/string.rs:1714-1715 | the boundary check, which looks at one byte, finds exactly the ends of whole prefixes of characters |
| Utf8.CutIsPrefix | library/alloc/src/string.rs:1714-1715 | a byte position is the cut before character `k` exactly if it is the length of the encoding of the first `k` characters |
| StringBuf.StringBuf.Push | library/alloc/src/string.rs:1404-1413 | one character more at the end |
| StringBuf.StringBuf.Pop | library/alloc/src/string.rs:1485-1492 | the last character, which is gone |
| StringBuf.StringBuf.Truncate | library/alloc/src/string.rs:1461-1466 | the characters before the cut; a panic exactly inside a character; nothing beyond the end |
| StringBuf.StringBuf.Remove | library/alloc/src/string.rs:1518-1531 | the character at a boundary, which is gone; a panic exactly elsewhere |
| StringBuf.StringBuf.RemoveMatches | library/alloc/src/string.rs:1555-1602 | just the characters that begin outside every match remain, in order |
| StringBuf.StringBuf.CopyNext | library/alloc/src/string.rs:1582-1597 | the write position has not passed the gap to copy, nothing of which was overwritten |
| StringBuf.GapsEncode | library/alloc/src/string.rs:1560-1577 | the bytes between matches that lie on boundaries encode the characters between them |
| StringBuf.StringBuf.Retain | library/alloc/src/string.rs:1632-1683 | just the characters for which the answer was yes remain, in order, each asked about once, in order; if a question panics, those kept up to it |
| StringBuf.StringBuf.KeepAt | library/alloc/src/string.rs:1661-1680 | a kept character is compacted and nothing unread is overwritten |
| StringBuf.DeletedMayBeShorter | library/alloc/src/string.rs:1661-1675 | an input at which the kept character is moved by fewer bytes than it has |
| StringBuf.EnoughDeletedExactly | library/alloc/src/string.rs:1661-1675 | whatever is deleted, what the comment says holds of a string exactly if no character is longer than one before it |
| StringBuf.StringBuf.SweepingDeleted | library/alloc/src/string.rs:1661-1680 | the counter `del_bytes` is the length of what was deleted |
| StringBuf.StringBuf.Insert | library/alloc/src/string.rs:1714-1742 | the character between its neighbours, or a panic exactly off a boundary |
| StringBuf.StringBuf.InsertStr | library/alloc/src/string.rs:1771-1796 | the string between what was before the boundary and what was after it, or a panic exactly off a boundary |
| StringBuf.StringBuf.SplitOff | library/alloc/src/string.rs:1900-1904 | the characters after the cut in a new string, those before it left |
| StringBuf.StringBuf.Drain | library/alloc/src/string.rs:1963-1984 | which ranges are refused, and that the iterator gives just the characters that begin in the range, for every kind of bound; nothing is removed yet |
| StringBuf.StringBuf.DropDrain | library/alloc/src/string.rs:3400-3409 | the drained characters are gone |
| StringBuf.StringBuf.ReplaceRange | library/alloc/src/string.rs:2063-2091 | just the characters that begin in the range are replaced, for every kind of bound, or a panic exactly off a boundary or out of order |
| StringBuf.StringBuf.AlwaysWellFormed | library/alloc/src/string.rs:1404-1413 | whatever operations were used, the bytes are well-formed UTF-8 that decodes to the characters |
| StringBuf.InsertThenRemove | library/alloc/src/string.rs:1518-1531 | `remove` at the index of an `insert` finds the character and restores the string |
| StringBuf.InsertRemove | library/alloc/src/string.rs:1714-1742 | the same run on the buffer: the bytes are what they were |
| StringBuf.PushPop | library/alloc/src/string.rs:1485-1492 | `pop` undoes `push`, to the byte |
| Join.JoinGenericCopy | library/alloc/src/str.rs:130-186 | the pieces with the separator between them; which overflows and which dishonest answers panic; nothing unwritten is ever given out |
| Join.FirstPieceGrows | library/alloc/src/str.rs:160-165 | a dishonest answer that reaches the subtraction below zero |
| Join.ReservedIsExact | library/alloc/src/str.rs:145-155 | the length computed beforehand is that of the result, for every separator |
| Join.InterleaveAt | library/alloc/src/str.rs:76-80 | place by place: each piece after those before it and their separators, and the separator before each piece but the first |
| Join.HonestBorrowFits | library/alloc/src/str.rs:176-182 | with a `Borrow` that answers the same twice, neither refusal can occur after the length was accepted |
| Join.JoinedEncodes | library/alloc/src/str.rs:76-80 | joining encoded strings is encoding the joined strings |
| Lowercase.ToLowercase | library/alloc/src/str.rs:380-411 | each character becomes what the table says of it, but a capital sigma a small one, U+03C3, and U+03C2 exactly where Final_Sigma holds in the whole string, the ASCII prefix included |
| Lowercase.OnlyFinalSigmaDiffers | library/alloc/src/str.rs:413-425 | with a table that maps the capital sigma to the small one, the result differs from the table's exactly at the capital sigmas that end a word |
| Lowercase.ConvertWhileAscii | library/alloc/src/str.rs:634-703 | the chunks and the byte tail together convert exactly the leading ASCII bytes |
| Lowercase.AsciiPrefix | library/alloc/src/str.rs:381-383 | converting those bytes is mapping those characters, and the rest begins on a boundary |
| Lowercase.SearchesDecide | library/alloc/src/str.rs:413-425 | the two searches around a capital sigma decide Final_Sigma |
| GlobalAlloc.Heap.AllocImpl | library/alloc/src/alloc.rs:185-195 | fails exactly when the system does for a non-zero size; a request for zero bytes reaches no block |
| GlobalAlloc.Heap.GrowImpl | library/alloc/src/alloc.rs:200-243 | fails exactly when the one request it makes of the system does, and gives the pointer the system gave; the old bytes are kept and followed by zeros if asked for; an error leaves everything as it was; no other block changes |
| GlobalAlloc.Heap.Shrink | library/alloc/src/alloc.rs:302-342 | likewise with the leading bytes; to size zero it cannot fail, and gives the dangling pointer |
| GlobalAlloc.Heap.Deallocate | library/alloc/src/alloc.rs:262-274 | the block of a non-zero allocation, and only that, is gone |
| GlobalAlloc.NothingLeaks | library/alloc/src/alloc.rs:185-243 | the heap is empty exactly when no non-zero allocation is held |

## Left out

- Arc, memory model: a load reads a message already written, so out-of-thin-air and load-buffering behaviours, which the C++ standard leaves open, are not runs of the machine.
- Arc, stores: the plain stores of `UniqueArc::into_arc`, `make_mut` and the unlock are appended last in modification order, as the increments and decrements are. Each follows a write of its own thread, or the creation, after which no other thread writes that counter.
- Arc, scope: one allocation per machine; whatever other synchronisation threads have is the step that lets a thread learn any view. Unwinding, allocation failure inside `Arc` methods, the static empty slice, the ThreadSanitizer form of `acquire!`, raw-pointer conversions and the count observers are not modelled.
- ArcTheorems.RunsAreSafe: assumes fewer than `isize::MAX` threads sit between an increment over the limit and their abort, as the source does.
- ArcRcAgree.CloneAgrees: counts above `Arc`'s limit, where `Arc` aborts or panics and `Rc` goes on, are excluded; so in DowngradeAgrees, UpgradeAgrees and WeakCloneAgrees. ArcLimits says what happens there.
- ArcRcAgree.DropAgrees: compares blocks whose value owns nothing and has no destructor, since the data of the `Arc` machine is a number.
- ArcRcAgree.TryUnwrapAgrees: likewise.
- ArcRcAgree.IntoInnerAgrees: likewise.
- ArcRcAgree.UniqueDropAgrees: likewise.
- ArcLoads.UniqueMeansAlone: of an `is_unique` called while other threads share the same handle it says nothing; ArcOld.SharedIsUniqueCanBeOld shows that the answer may be old.
- ArcRcAgree.UpgradeAgrees: assumes, as the others do, that the loads read the last value; a failing compare-and-exchange that reads an older one is decided for `upgrade` only (ArcStale.LoneUpgradeRefusesExactly).
- ArcRcAgree.MakeMutAgrees: the new block of `Arc` is outside its one-block machine, so the value that is moved or copied to it is compared through the old block and the `Rc` side.
- Liveness: the loops of `downgrade` and `upgrade` may fail any number of times.
- Rc: addresses are never reused; a value is a payload, owned handles and a destructor, and interior mutability is the moving of handles in and out. Panicking destructors, `mem::forget`, allocation failure and raw pointers are not modelled; what a caller does with a value it got from `try_unwrap`, destructor included, are further operations of its own.
- Rc, destructors: an operation of a destructor cannot move a handle out of the value being destroyed; the fields of that value are dropped after it, as they were when it began.
- RcReclaim.DroppingAllReclaimsAll: values have no destructor code of their own, since such code may keep handles in the program; RcReclaim.ProgramReclaimsExactly and RcReclaim.LiveIsReachable hold for all.
- SortByKey.SortByCachedKey: keys are totally preordered; what happens with an inconsistent order or a panicking key function is not modelled.
- StringBuf: growth strategy and failure of `reserve`; the characters a `Drain` iterator gives one at a time; the overflow of a range bound at `usize::MAX`.
- Lowercase.ToLowercase: the Unicode tables are parameters, constrained only on ASCII.
- GlobalAlloc: addresses are numbers without alignment, and layouts passed back are those of the allocation, as the safety contract asks.
- Trait forwarding, `Box`, `Cow`, formatting and the task types: they only pass on what is modelled here.

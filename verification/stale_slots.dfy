/** What becomes of slots whose watcher is gone: each pass that visits every slot leaves only those of watchers
    that were registered at their visit, so a descriptor that nobody watches is soon handed to poll no more. */
module StaleSlots {
  import opened PollSlots
  import opened LoopModel
  import opened Wrappers

  lemma {:induction false} RunAppend<W>(s: LoopState<W>, a: seq<Op<W>>, b: seq<Op<W>>)
    ensures Run(s, a + b) == Run(Run(s, a), b)
    decreases |a|
  {
    hide Legal, Apply;
    if a == [] {
      assert a + b == b;
    } else {
      assert (a + b)[1..] == a[1..] + b;
      RunAppend(if Legal(s, a[0]) then Apply(s, a[0]) else s, a[1..], b);
    }
  }

  // ---------- one whole pass ----------

  /** The operations of a pass, up to its end: every slot is visited, in whatever order. */
  ghost predicate WholePass<W>(s: LoopState<W>, ops: seq<Op<W>>) {
    s.iterating && DoEnd !in ops && forall i :: 0 <= i < |s.slots| ==> DoVisit(i) in ops
  }

  /** Operation k visits slot i, at a moment when the table names somebody for fd. */
  ghost predicate SeenWatched<W>(s: LoopState<W>, ops: seq<Op<W>>, k: nat, i: nat, fd: int)
    requires k < |ops|
  {
    ops[k] == DoVisit(i) && Run(s, ops[..k]).WatcherOf(fd).Some?
  }

  lemma VisitOnly<W>(s: LoopState<W>, i: nat)
    requires Inv(s) && s.iterating && i < |s.slots|
    ensures Run(s, [DoVisit(i)]) == Visit(s, i) && Visit(s, i).iterating && |Visit(s, i).slots| == |s.slots|
    ensures s.WatcherOf(s.slots[i].fd).Some? || Visit(s, i).slots[i].fd == -1
  {
    hide Inv, Visit;
    if s.slots[i].fd != -1 && s.WatcherOf(s.slots[i].fd) == None { StaleSlotInvalidated(s, i); }
    ApplyIsStable(s, DoVisit(i));
    var ops: seq<Op<W>> := [DoVisit(i)];
    assert ops[1..] == [];
  }

  /** A slot that is visited is cleared by the end of the pass, or somebody was registered for its descriptor
      when it was visited. */
  lemma SlotAfterVisit<W>(s: LoopState<W>, ops: seq<Op<W>>, k: nat, i: nat)
    requires Inv(s) && s.iterating && DoEnd !in ops && k < |ops| && i < |s.slots| && ops[k] == DoVisit(i)
    ensures var r := Run(s, ops);
      |r.slots| == |s.slots| && (r.slots[i].fd == -1 || SeenWatched(s, ops, k, i, r.slots[i].fd))
  {
    hide Inv, Visit, Run;
    var before, after := ops[..k], ops[k + 1..];
    assert ops == before + ([DoVisit(i)] + after);
    RunKeepsInv(s, before);
    PassIsStable(s, before);
    var t := Run(s, before);
    VisitOnly(t, i);
    ApplyIsStable(t, DoVisit(i));
    PassIsStable(Visit(t, i), after);
    RunAppend(s, before, [DoVisit(i)] + after);
    RunAppend(t, [DoVisit(i)], after);
  }

  /** After a whole pass every slot that still has a descriptor was visited at a moment when somebody was
      registered for it: who is not registered any more was stopped after that visit. */
  lemma PassLeavesOnlySeen<W>(s: LoopState<W>, ops: seq<Op<W>>, i: nat)
    requires Inv(s) && WholePass(s, ops) && i < |s.slots|
    ensures |Run(s, ops).slots| == |s.slots|
    ensures var fd := Run(s, ops).slots[i].fd; fd == -1 || exists k :: 0 <= k < |ops| && SeenWatched(s, ops, k, i, fd)
  {
    hide Inv, Run, SeenWatched;
    assert DoVisit(i) in ops;
    var k :| 0 <= k < |ops| && ops[k] == DoVisit(i);
    SlotAfterVisit(s, ops, k, i);
  }

  // ---------- a descriptor that nobody watches ----------

  ghost predicate NoSlot<W>(s: LoopState<W>, fd: int) {
    forall i :: 0 <= i < |s.slots| ==> s.slots[i].fd != fd
  }

  /** At no moment of these operations is anybody registered for fd. */
  ghost predicate UnwatchedDuring<W>(s: LoopState<W>, ops: seq<Op<W>>, fd: int) {
    forall k :: 0 <= k <= |ops| ==> Run(s, ops[..k]).WatcherOf(fd) == None
  }

  /** A pass in which nobody is registered for fd leaves no slot for it. */
  lemma PassClears<W>(s: LoopState<W>, ops: seq<Op<W>>, fd: int)
    requires Inv(s) && WholePass(s, ops) && fd >= 0 && UnwatchedDuring(s, ops, fd)
    ensures NoSlot(Run(s, ops), fd)
  {
    hide Inv, Run;
    PassIsStable(s, ops);
    forall i | 0 <= i < |Run(s, ops).slots| ensures Run(s, ops).slots[i].fd != fd {
      PassLeavesOnlySeen(s, ops, i);
    }
  }

  lemma {:induction false} FlushKeepsAbsent<W>(s: LoopState<W>, fd: int)
    requires Inv(s) && !s.iterating && NoSlot(s, fd) && s.WatcherOf(fd) == None
    ensures QueueTracked(s) && NoSlot(Flush(s), fd)
    decreases |s.queue|
  {
    hide TableOk, CoverOk, SlotsOk, GrowthOk, FlushOne;
    if s.queue != [] {
      FlushOneFacts(s);
      FlushOneKeepsInv(s);
      TableNames(s, s.io[s.queue[0]].fd, s.queue[0]);
      FlushKeepsAbsent(FlushOne(s), fd);
    }
  }

  lemma InvalidateKeepsAbsent<W>(s: LoopState<W>, other: int, fd: int)
    requires SlotsOk(s) && other >= 0 && NoSlot(s, fd) && fd >= 0
    ensures NoSlot(Invalidate(s, other), fd)
  {
    hide SlotsOk, Invalidate, NoSlot;
    InvalidateKeepsSlots(s, other);
    NoSlotWatched(s, fd);
    NoSlotWatched(Invalidate(s, other), fd);
  }

  lemma NoSlotWatched<W>(s: LoopState<W>, fd: int)
    requires fd >= 0
    ensures NoSlot(s, fd) <==> forall m: Mask :: (fd, m) !in Watched(s.slots)
  {
    forall i | 0 <= i < |s.slots| && s.slots[i].fd == fd ensures (fd, s.slots[i].events) in Watched(s.slots) {}
  }

  lemma ApplyKeepsAbsent<W>(s: LoopState<W>, op: Op<W>, fd: int)
    requires Inv(s) && Legal(s, op) && fd >= 0 && NoSlot(s, fd) && s.WatcherOf(fd) == None
    ensures NoSlot(Apply(s, op), fd)
  {
    hide TableOk, RegistryOk, QueueOk, CoverOk, GrowthOk, Flush;
    match op
    case DoInvalidate(other) => InvalidateKeepsAbsent(s, other, fd);
    case DoBegin(answer) => FlushKeepsAbsent(s, fd);
    case DoVisit(i) =>
      if s.slots[i].fd != -1 && s.WatcherOf(s.slots[i].fd) == None { InvalidateKeepsAbsent(s, s.slots[i].fd, fd); }
    case _ =>
  }

  lemma UnwatchedParts<W>(s: LoopState<W>, ops: seq<Op<W>>, fd: int, k: nat)
    requires UnwatchedDuring(s, ops, fd) && k <= |ops|
    ensures UnwatchedDuring(s, ops[..k], fd) && UnwatchedDuring(Run(s, ops[..k]), ops[k..], fd)
    ensures Run(s, ops).WatcherOf(fd) == None
  {
    hide Run;
    forall j | 0 <= j <= k ensures Run(s, ops[..k][..j]).WatcherOf(fd) == None {
      assert ops[..k][..j] == ops[..j];
    }
    forall j | 0 <= j <= |ops| - k ensures Run(Run(s, ops[..k]), ops[k..][..j]).WatcherOf(fd) == None {
      assert ops[..k + j] == ops[..k] + ops[k..][..j];
      RunAppend(s, ops[..k], ops[k..][..j]);
    }
    assert ops[..|ops|] == ops;
  }

  lemma UnwatchedNow<W>(s: LoopState<W>, ops: seq<Op<W>>, fd: int)
    requires UnwatchedDuring(s, ops, fd)
    ensures s.WatcherOf(fd) == None
  {
    assert ops[..0] == [];
  }

  /** As long as nobody is registered for fd, it does not come back. */
  lemma {:induction false} StaysAbsent<W>(s: LoopState<W>, ops: seq<Op<W>>, fd: int)
    requires Inv(s) && fd >= 0 && NoSlot(s, fd) && UnwatchedDuring(s, ops, fd)
    ensures NoSlot(Run(s, ops), fd)
    decreases |ops|
  {
    hide Inv, Legal, Apply, NoSlot, UnwatchedDuring;
    if ops != [] {
      UnwatchedNow(s, ops, fd);
      if Legal(s, ops[0]) {
        ApplyKeepsInv(s, ops[0]);
        ApplyKeepsAbsent(s, ops[0], fd);
      }
      UnwatchedParts(s, ops, fd, 1);
      assert ops[..1] == [ops[0]] && [ops[0]][1..] == [];
      StaysAbsent(Run(s, ops[..1]), ops[1..], fd);
    }
  }

  /** Once a whole pass has gone by without anybody registered for fd, poll is not asked about fd again until
      somebody is: neither the array nor what it becomes at the start of a poll has a slot for it. So when a
      watcher is stopped and its descriptor closed in one pass, at most one dispatched poll still names it. */
  lemma NotPolledAgain<W>(s: LoopState<W>, pass: seq<Op<W>>, later: seq<Op<W>>, fd: int)
    requires Inv(s) && WholePass(s, pass) && fd >= 0 && UnwatchedDuring(s, pass + later, fd)
    ensures var r := Run(s, pass + later); NoSlot(r, fd) && (!r.iterating ==> QueueTracked(r) && NoSlot(Flush(r), fd))
  {
    hide Inv, Run, NoSlot, UnwatchedDuring, Flush;
    var ops := pass + later;
    assert ops[..|pass|] == pass && ops[|pass|..] == later;
    UnwatchedParts(s, ops, fd, |pass|);
    PassClears(s, pass, fd);
    RunKeepsInv(s, pass);
    StaysAbsent(Run(s, pass), later, fd);
    RunAppend(s, pass, later);
    RunKeepsInv(s, ops);
    if !Run(s, ops).iterating { FlushKeepsAbsent(Run(s, ops), fd); }
  }
}

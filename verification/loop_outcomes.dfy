/** What each operation of the poll loop makes of every part of its state, bit by bit and slot by slot. */
module LoopOutcomes {
  import opened PollSlots
  import opened LoopModel
  import opened Ring
  import opened Wrappers

  /** All watchers but w are as they were. */
  ghost predicate OthersSame<W>(s: LoopState<W>, r: LoopState<W>, w: W) {
    r.io.Keys == s.io.Keys && forall v :: v in s.io && v != w ==> r.io[v] == s.io[v]
  }

  /** The array, its size and the mark of a pass are as they were. */
  ghost predicate ArraySame<W>(s: LoopState<W>, r: LoopState<W>) {
    r.slots == s.slots && r.capacity == s.capacity && r.iterating == s.iterating
  }

  /** A start adds the bits asked for to the watcher's mask and keeps those it had; the watcher is pending, last
      unless it was so before, and the table has it at its descriptor and everyone else where they were. */
  lemma StartOutcome<W>(s: LoopState<W>, w: W, events: Mask)
    requires Inv(s) && CanStart(s, w, events)
    ensures var r := Start(s, w, events); var was, now := s.io[w].pevents, r.io[w].pevents;
      && OthersSame(s, r, w) && ArraySame(s, r) && r.io[w].fd == s.io[w].fd && r.io[w].events == s.io[w].events
      && (now.pollin <==> was.pollin || events.pollin) && (now.pollout <==> was.pollout || events.pollout)
      && (now.pollerr <==> was.pollerr || events.pollerr) && (now.pollhup <==> was.pollhup || events.pollhup)
      && (now.other <==> was.other || events.other)
      && r.queue == (if w in s.queue then s.queue else s.queue + [w])
      && (forall fd :: r.WatcherOf(fd) == if fd == s.io[w].fd then Some(w) else s.WatcherOf(fd))
      && r.nfds == s.nfds + if s.Registered(w) then 0 else 1
  {
    hide TableOk, CoverOk, SlotsOk, GrowthOk, Widen, LegalEvents;
    TableNames(s, s.io[w].fd, w);
  }

  /** A stop takes the bits away. When none is left the watcher is neither pending nor in the table nor counted;
      otherwise it is pending, last unless it was so before. Nothing happens to one that the table has no room
      for, which never was registered. */
  lemma StopOutcome<W>(s: LoopState<W>, w: W, events: Mask)
    requires Inv(s) && CanStop(s, w, events)
    ensures s.io[w].fd == -1 || s.io[w].fd >= |s.watchers| ==> Stop(s, w, events) == s && !s.Registered(w)
    ensures 0 <= s.io[w].fd < |s.watchers| ==>
      var r := Stop(s, w, events); var was, now := s.io[w].pevents, r.io[w].pevents;
      && OthersSame(s, r, w) && ArraySame(s, r) && r.io[w].fd == s.io[w].fd
      && (now.pollin <==> was.pollin && !events.pollin) && (now.pollout <==> was.pollout && !events.pollout)
      && (now.pollerr <==> was.pollerr && !events.pollerr) && (now.pollhup <==> was.pollhup && !events.pollhup)
      && (now.other <==> was.other && !events.other)
      && (forall fd :: r.WatcherOf(fd) == if s.WatcherOf(fd) == Some(w) && now == NONE then None else s.WatcherOf(fd))
      && r.nfds == s.nfds - (if s.Registered(w) && now == NONE then 1 else 0)
      && r.queue == (if now == NONE then Without(s.queue, w) else if w in s.queue then s.queue else s.queue + [w])
      && (now == NONE ==> w !in r.queue && r.io[w].events == NONE)
      && (now != NONE ==> r.io[w].events == s.io[w].events)
  {
    hide TableOk, CoverOk, SlotsOk, GrowthOk, Without, Distinct, LegalEvents;
    if s.io[w].fd >= 0 { TableNames(s, s.io[w].fd, w); }
    DistinctWithout(s.queue, w);
  }

  // ---------- the start of a poll ----------

  /** Slot by slot: the slots there were keep their descriptors and reports, and have the current mask of the
      pending watcher for their descriptor, if there is one; every new slot is for a pending watcher and has
      nothing reported. */
  ghost predicate Flushed<W>(s: LoopState<W>, slots: seq<PollFd>) {
    && |s.slots| <= |slots|
    && (forall i :: 0 <= i < |s.slots| ==> slots[i].fd == s.slots[i].fd && slots[i].revents == s.slots[i].revents)
    && (forall i :: 0 <= i < |s.slots| && slots[i].events != s.slots[i].events ==> IsPending(s, slots[i]))
    && (forall i :: |s.slots| <= i < |slots| ==> slots[i].revents == NONE && IsPending(s, slots[i]))
  }

  /** A pending watcher has this descriptor and mask. */
  ghost predicate IsPending<W>(s: LoopState<W>, p: PollFd) {
    exists w :: w in s.queue && w in s.io && s.io[w].fd == p.fd && s.io[w].pevents == p.events
  }

  lemma {:induction false} FlushOutcome<W>(s: LoopState<W>)
    requires Inv(s) && !s.iterating
    ensures QueueTracked(s) && Flushed(s, Flush(s).slots)
    decreases |s.queue|
  {
    hide TableOk, RegistryOk, QueueOk, CoverOk, SlotsOk, GrowthOk, FlushOne, IsPending, AddSlot, Watched;
    if s.queue != [] {
      FlushOneFacts(s);
      FlushOneKeepsInv(s);
      FlushOutcome(FlushOne(s));
      FlushedOnce(s);
      FlushedTwice(s, Flush(s).slots);
    }
  }

  lemma FlushedOnce<W>(s: LoopState<W>)
    requires Inv(s) && !s.iterating && s.queue != [] && QueueTracked(s)
    ensures Flushed(s, FlushOne(s).slots)
  {
    hide TableOk, QueueOk, CoverOk, GrowthOk, FlushOne, AddSlot, Watched;
    FlushOneFacts(s);
    var w := s.queue[0];
    TableNames(s, s.io[w].fd, w);
    AddStep(s.slots, s.io[w].fd, s.io[w].pevents);
    assert w in s.queue;
    var t := FlushOne(s).slots;
    forall i | 0 <= i < |t| && t[i].fd == s.io[w].fd ensures IsPending(s, t[i]) {
      assert t[i].events == s.io[w].pevents;
    }
  }

  lemma FlushedTwice<W>(s: LoopState<W>, slots: seq<PollFd>)
    requires s.queue != [] && QueueTracked(s) && Flushed(s, FlushOne(s).slots) && Flushed(FlushOne(s), slots)
    requires FlushOne(s).queue == s.queue[1..] && FlushOne(s).io.Keys == s.io.Keys
    requires forall v :: v in s.io ==>
      FlushOne(s).io[v].pevents == s.io[v].pevents && FlushOne(s).io[v].fd == s.io[v].fd
    ensures Flushed(s, slots)
  {
    hide FlushOne;
    var t := FlushOne(s);
    forall p: PollFd | IsPending(t, p) ensures IsPending(s, p) {
      var w :| w in t.queue && w in t.io && t.io[w].fd == p.fd && t.io[w].pevents == p.events;
      assert w in s.queue;
    }
    forall i | |s.slots| <= i < |slots| ensures slots[i].revents == NONE && IsPending(s, slots[i]) {
      if i < |t.slots| && slots[i].events == t.slots[i].events {
        assert IsPending(s, t.slots[i]);
        SamePending(s, t.slots[i], slots[i]);
      }
    }
    forall i | 0 <= i < |s.slots| && slots[i].events != s.slots[i].events ensures IsPending(s, slots[i]) {
      if slots[i].events == t.slots[i].events {
        assert IsPending(s, t.slots[i]);
        SamePending(s, t.slots[i], slots[i]);
      }
    }
  }

  lemma SamePending<W>(s: LoopState<W>, p: PollFd, q: PollFd)
    requires p.fd == q.fd && p.events == q.events
    ensures IsPending(s, p) <==> IsPending(s, q)
  {
  }

  /** What a poll leaves: an idle loop as it was; otherwise nothing pending, the same table, a pass exactly unless
      poll failed, and in every slot what was reported for it, or what was there before where nothing was. */
  lemma PollOutcome<W>(s: LoopState<W>, answer: Answer)
    requires Inv(s) && !s.iterating
    ensures QueueTracked(s) && Flushed(s, Flush(s).slots)
    ensures s.nfds == 0 ==> Begin(s, answer) == s
    ensures s.nfds != 0 ==>
      var r, f := Begin(s, answer), Flush(s).slots;
      && r.queue == [] && r.watchers == s.watchers && r.nfds == s.nfds && r.io.Keys == s.io.Keys
      && (forall w :: w in s.io ==> r.io[w].fd == s.io[w].fd && r.io[w].pevents == s.io[w].pevents)
      && (r.iterating <==> !answer.Failed?)
      && |r.slots| == |f| && (forall i :: 0 <= i < |f| ==> r.slots[i].fd == f[i].fd && r.slots[i].events == f[i].events)
      && (forall i :: 0 <= i < |f| ==>
            r.slots[i].revents == if answer.Ready? && i < |answer.revents| then answer.revents[i] else f[i].revents)
  {
    hide TableOk, RegistryOk, QueueOk, CoverOk, SlotsOk, GrowthOk, Flush, Flushed;
    FlushOutcome(s);
    FlushKeepsInv(s);
  }

  /** What a visit leaves: everything but the slots; a cleared slot and all others as they were; a slot nobody
      watches cleared; and in any other the part of the report that its watcher is called with. */
  lemma VisitOutcome<W>(s: LoopState<W>, i: nat)
    requires Inv(s) && s.iterating && i < |s.slots|
    ensures var r := Visit(s, i);
      && r == s.(slots := r.slots) && |r.slots| == |s.slots|
      && (forall j :: 0 <= j < |s.slots| && j != i ==> r.slots[j] == s.slots[j])
    ensures s.slots[i].fd == -1 ==> Visit(s, i).slots[i] == s.slots[i] && Target(s, i) == None
    ensures s.slots[i].fd != -1 && s.WatcherOf(s.slots[i].fd) == None ==>
      Visit(s, i).slots[i] == CLEARED && Target(s, i) == None
    ensures s.WatcherOf(s.slots[i].fd).Some? ==>
      var w := s.WatcherOf(s.slots[i].fd).value; var p, q := s.slots[i], Visit(s, i).slots[i];
      && w in s.io && q.fd == p.fd && q.events == p.events
      && (q.revents.pollin <==> p.revents.pollin && s.io[w].pevents.pollin)
      && (q.revents.pollout <==> p.revents.pollout && s.io[w].pevents.pollout)
      && (q.revents.pollerr <==> p.revents.pollerr) && (q.revents.pollhup <==> p.revents.pollhup) && !q.revents.other
      && Target(s, i) == if q.revents == NONE then None else Some((w, q.revents))
  {
    if s.slots[i].fd != -1 && s.WatcherOf(s.slots[i].fd) == None { StaleSlotInvalidated(s, i); }
    if s.WatcherOf(s.slots[i].fd).Some? { TableNames(s, s.slots[i].fd, s.WatcherOf(s.slots[i].fd).value); }
  }
}

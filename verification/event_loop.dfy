/** The poll loop itself: an array handed to poll, a table indexed by descriptor, and the ring of
    watchers whose mask poll does not know yet. Every method is proved against LoopModel. */
module EventLoop {
  import opened PollSlots
  import opened PollArray
  import opened Wrappers
  import opened PowerOfTwo
  import opened Ring
  import opened LoopModel

  /** The two functions that the server installs as callbacks. */
  datatype Callback = OnConnected | OnPoll

  class Watcher {
    const fd: int
    const cb: Callback
    const link: Link
    var pevents: Mask
    var events: Mask

    constructor (fd: int, cb: Callback)
      ensures this.fd == fd && this.cb == cb
      ensures pevents == NONE && events == NONE && fresh(link) && Alone(link)
    {
      this.fd, this.cb := fd, cb;
      pevents, events := NONE, NONE;
      link := new Link();
    }
  }

  ghost function Links(ws: seq<Watcher>): (r: seq<Link>)
    ensures |r| == |ws| && forall i :: 0 <= i < |r| ==> r[i] == ws[i].link
  {
    seq(|ws|, i requires 0 <= i < |ws| => ws[i].link)
  }

  ghost function AsOption(w: Watcher?): Option<Watcher> {
    if w == null then None else Some(w)
  }

  /** The embedding of links in watchers is one to one. */
  ghost predicate Embedded(containers: map<Link, Watcher>, ws: set<Watcher>) {
    && (forall w :: w in ws ==> w.link in containers && containers[w.link] == w)
    && (forall l :: l in containers ==> containers[l] in ws && containers[l].link == l)
  }

  /** So a list of links is as good as a list of watchers. */
  lemma LinksOfList(ws: seq<Watcher>, w: Watcher, containers: map<Link, Watcher>, all: set<Watcher>)
    requires Embedded(containers, all) && w in all && forall v :: v in ws ==> v in all
    ensures Links(ws + [w]) == Links(ws) + [w.link]
    ensures Links(Without(ws, w)) == Without(Links(ws), w.link)
    ensures w in ws <==> w.link in Links(ws)
  {
    forall i | 0 <= i < |ws| ensures ws[i] == w <==> Links(ws)[i] == w.link {
      assert ws[i] in ws;
    }
    assert IndexOf(ws, w) == IndexOf(Links(ws), w.link);
  }

  /** The two maps have the same watchers and differ at most at w. */
  ghost predicate ChangedAt(io: map<Watcher, Io>, r: map<Watcher, Io>, w: Watcher) {
    io.Keys == r.Keys && forall v :: v in io && v != w ==> r[v] == io[v]
  }

  class EventLoop {
    const polls: PollArray
    const watcherQueue: Link
    var watchers: seq<Watcher?>    // nwatchers entries and two more that the loop only carries along
    var nwatchers: nat
    var nfds: int
    var containers: map<Link, Watcher>  // which watcher a link is embedded in, for `uv__queue_data`
    ghost var st: LoopState<Watcher>
    ghost var known: set<Watcher>  // the watchers of st.io
    ghost var pool: set<Link>      // their links
    ghost var pending: seq<Link>   // the links of st.queue

    ghost function Repr(): set<object>
      reads this, polls
    {
      {this, polls, polls.fds, watcherQueue} + known + pool
    }

    // ---------- how the fields represent the state ----------

    ghost predicate TableIs(t: seq<Option<Watcher>>)
      reads this`watchers, this`nwatchers
    {
      && nwatchers == |t| && |watchers| == (if nwatchers == 0 then 0 else nwatchers + 2)
      && forall i :: 0 <= i < nwatchers ==> t[i] == AsOption(watchers[i])
    }

    ghost predicate IoIs(io: map<Watcher, Io>)
      reads this`known, known
    {
      known == io.Keys && forall w :: w in io ==> io[w] == Io(w.fd, w.pevents, w.events)
    }

    ghost predicate ContainersAre(ws: set<Watcher>)
      reads this`containers, this`pool
    {
      Embedded(containers, ws) && pool == containers.Keys
    }

    ghost predicate QueueIs(q: seq<Watcher>)
      reads this`pending, this`pool, watcherQueue, pool
    {
      ListOf(watcherQueue, pending, pool) && pending == Links(q)
    }

    ghost predicate SlotsAre(s: LoopState<Watcher>)
      reads polls, polls.fds
    {
      polls.Is(s.slots) && polls.fds.Length == s.capacity && polls.iterating == s.iterating
    }

    ghost predicate Represents(s: LoopState<Watcher>)
      reads this, Repr()
    {
      && SlotsAre(s) && TableIs(s.watchers) && nfds == s.nfds
      && IoIs(s.io) && ContainersAre(s.io.Keys) && QueueIs(s.queue) && QueueTracked(s)
    }

    /** The fields represent the state st. That st makes sense is a matter of LoopModel.Inv. */
    ghost predicate Valid()
      reads this, Repr()
    {
      Represents(st)
    }

    constructor ()
      ensures Valid() && st == EmptyLoop() && fresh(Repr())
    {
      polls := new PollArray();
      watcherQueue := new Link();
      watchers, nwatchers, nfds, containers := [], 0, 0, map[];
      st, known, pool, pending := EmptyLoop(), {}, {}, [];
    }

    // ---------- updates of one part ----------

    /** Widens the table; the two entries behind it move to the new end, or are null at first. */
    method MaybeResize(len: nat, ghost t: seq<Option<Watcher>>)
      requires TableIs(t) && 1 <= len <= MAX_FD + 1
      modifies this`watchers, this`nwatchers
      ensures TableIs(Widen(t, len))
      ensures len <= old(nwatchers) ==> watchers == old(watchers)
      ensures len > old(nwatchers) == 0 ==> watchers[nwatchers..] == [null, null]
      ensures len > old(nwatchers) != 0 ==> watchers[nwatchers..] == old(watchers[nwatchers..])
    {
      if len <= nwatchers {
        return;
      }
      var fake0: Watcher?, fake1: Watcher? := null, null;
      if watchers != [] {
        fake0, fake1 := watchers[nwatchers], watchers[nwatchers + 1];
      }
      TableSizeExact(len - 1);
      var p := NextPowerOfTwo(len + 2);
      var n := Wrap32(p - 2);
      watchers := watchers[..nwatchers] + seq(n - nwatchers, _ => null) + [fake0, fake1];
      nwatchers := n;
    }

    method SetMasks(w: Watcher, pevents: Mask, events: Mask, ghost io: map<Watcher, Io>, ghost r: map<Watcher, Io>)
      requires IoIs(io) && w in io && ChangedAt(io, r, w) && r[w] == Io(w.fd, pevents, events)
      modifies w`pevents, w`events
      ensures IoIs(r)
    {
      w.pevents, w.events := pevents, events;
    }

    method Enlist(w: Watcher, ghost s: LoopState<Watcher>, ghost q: seq<Watcher>)
      requires ContainersAre(s.io.Keys) && QueueIs(s.queue) && QueueTracked(s) && w in s.io
      requires q == if w in s.queue then s.queue else s.queue + [w]
      modifies this`pending, watcherQueue, pool
      ensures QueueIs(q)
    {
      hide IsRing, Without, IndexOf;
      LinksOfList(s.queue, w, containers, s.io.Keys);
      Ring.Enlist(watcherQueue, w.link, pending, pool);
      pending := if w in s.queue then pending else pending + [w.link];
    }

    method Delist(w: Watcher, ghost s: LoopState<Watcher>, ghost q: seq<Watcher>)
      requires ContainersAre(s.io.Keys) && QueueIs(s.queue) && QueueTracked(s) && w in s.io
      requires q == Without(s.queue, w)
      modifies this`pending, watcherQueue, pool
      ensures QueueIs(q)
    {
      LinksOfList(s.queue, w, containers, s.io.Keys);
      Ring.Delist(watcherQueue, w.link, pending, pool);
      pending := Without(pending, w.link);
    }

    lemma Unpack()
      requires Valid()
      ensures SlotsAre(st) && TableIs(st.watchers) && nwatchers == |st.watchers| && nfds == st.nfds
      ensures IoIs(st.io) && ContainersAre(st.io.Keys) && QueueIs(st.queue) && QueueTracked(st)
      ensures Repr() == {this, polls, polls.fds, watcherQueue} + known + pool
    {
    }

    /** Records that the fields now represent r. */
    ghost method Become(r: LoopState<Watcher>)
      requires SlotsAre(r) && TableIs(r.watchers) && nfds == r.nfds
      requires IoIs(r.io) && ContainersAre(r.io.Keys) && QueueIs(r.queue) && QueueTracked(r)
      modifies this`st
      ensures Valid() && st == r
      ensures Repr() == {this, polls, polls.fds, watcherQueue} + known + pool
    {
      st := r;
    }

    // ---------- starting and stopping a watcher ----------

    lemma StartParts(w: Watcher, events: Mask)
      requires Valid() && CanStart(st, w, events)
      ensures w in st.io && st.io[w] == Io(w.fd, w.pevents, w.events) && 0 <= w.fd <= MAX_FD
      ensures var r := Start(st, w, events);
        && ChangedAt(st.io, r.io, w) && w in r.io && r.io[w] == Io(w.fd, w.pevents.Or(events), w.events)
        && r.queue == (if w in st.queue then st.queue else st.queue + [w])
        && QueueTracked(r) && r.io.Keys == st.io.Keys
        && (SlotsAre(st) ==> SlotsAre(r))
    {
    }

    method StartTable(w: Watcher, ghost events: Mask, ghost s: LoopState<Watcher>)
      requires TableIs(s.watchers) && nfds == s.nfds && w in s.io && s.io[w].fd == w.fd && 0 <= w.fd <= MAX_FD
      modifies this`watchers, this`nwatchers, this`nfds
      ensures TableIs(Start(s, w, events).watchers) && nfds == Start(s, w, events).nfds
    {
      MaybeResize(w.fd + 1, s.watchers);
      if watchers[w.fd] == null {
        watchers := watchers[w.fd := w];
        nfds := nfds + 1;
      }
    }

    /** Sets the mask of w and enters w in the table, widened as needed, unless its entry is taken. */
    method SetEntry(w: Watcher, events: Mask, ghost s: LoopState<Watcher>, ghost r: LoopState<Watcher>)
      requires IoIs(s.io) && TableIs(s.watchers) && nfds == s.nfds
      requires w in s.io && s.io[w].fd == w.fd && 0 <= w.fd <= MAX_FD && r == Start(s, w, events)
      requires ChangedAt(s.io, r.io, w) && r.io[w] == Io(w.fd, w.pevents.Or(events), w.events)
      modifies w`pevents, w`events, this`watchers, this`nwatchers, this`nfds
      ensures IoIs(r.io) && TableIs(r.watchers) && nfds == r.nfds
    {
      hide *;
      SetMasks(w, w.pevents.Or(events), w.events, s.io, r.io);
      StartTable(w, events, s);
    }

    method IoStart(w: Watcher, events: Mask)
      requires Valid() && CanStart(st, w, events)
      modifies Repr()
      ensures Valid() && st == Start(old(st), w, events) && Repr() == old(Repr())
    {
      hide *;
      StartParts(w, events);
      Unpack();
      ghost var r := Start(st, w, events);
      SetEntry(w, events, st, r);
      assert QueueIs(st.queue) && SlotsAre(r);
      Enlist(w, st, r.queue);
      assert IoIs(r.io) && SlotsAre(r) && TableIs(r.watchers);
      Become(r);
    }

    lemma StopParts(w: Watcher, events: Mask)
      requires Valid() && CanStop(st, w, events) && 0 <= w.fd < nwatchers
      ensures w in st.io && st.io[w] == Io(w.fd, w.pevents, w.events) && w.fd < |st.watchers|
      ensures var r, p := Stop(st, w, events), w.pevents.AndNot(events);
        && ChangedAt(st.io, r.io, w) && w in r.io && r.io[w] == Io(w.fd, p, if p == NONE then NONE else w.events)
        && r.queue == (if p == NONE then Without(st.queue, w) else if w in st.queue then st.queue else st.queue + [w])
        && QueueTracked(r) && r.io.Keys == st.io.Keys
        && (SlotsAre(st) ==> SlotsAre(r))
        && r.watchers == (if p == NONE then Unregistered(st.watchers, w) else st.watchers)
        && r.nfds == (if p == NONE && st.watchers[w.fd] == Some(w) then st.nfds - 1 else st.nfds)
    {
    }

    ghost function Unregistered(t: seq<Option<Watcher>>, w: Watcher): seq<Option<Watcher>>
      requires 0 <= w.fd < |t|
    {
      if t[w.fd] == Some(w) then t[w.fd := None] else t
    }

    /** Clears both masks of w and its entry in the table. */
    method ClearEntry(w: Watcher, ghost s: LoopState<Watcher>, ghost r: LoopState<Watcher>)
      requires IoIs(s.io) && TableIs(s.watchers) && nfds == s.nfds && w in s.io && 0 <= w.fd < nwatchers
      requires ChangedAt(s.io, r.io, w) && r.io[w] == Io(w.fd, NONE, NONE) && w.fd < |s.watchers|
      requires r.watchers == Unregistered(s.watchers, w)
      requires r.nfds == if s.watchers[w.fd] == Some(w) then s.nfds - 1 else s.nfds
      modifies w`pevents, w`events, this`watchers, this`nfds
      ensures IoIs(r.io) && TableIs(r.watchers) && nfds == r.nfds
    {
      w.pevents, w.events := NONE, NONE;
      if watchers[w.fd] == w {
        watchers := watchers[w.fd := null];
        nfds := nfds - 1;
      }
    }

    /** Takes w off the queue, when that is all that is left to do. */
    method DelistLast(w: Watcher, ghost s: LoopState<Watcher>, ghost r: LoopState<Watcher>)
      requires ContainersAre(s.io.Keys) && QueueIs(s.queue) && QueueTracked(s) && w in s.io
      requires SlotsAre(r) && TableIs(r.watchers) && nfds == r.nfds && IoIs(r.io) && QueueTracked(r)
      requires r.queue == Without(s.queue, w) && r.io.Keys == s.io.Keys
      modifies this`pending, this`st, watcherQueue, pool
      ensures Valid() && st == r && Repr() == {this, polls, polls.fds, watcherQueue} + known + pool
    {
      hide *;
      Delist(w, s, r.queue);
      assert IoIs(r.io) && SlotsAre(r) && TableIs(r.watchers);
      Become(r);
    }

    /** The two ways in which a stop ends: with an empty mask, and with a smaller one. */
    method StopAll(w: Watcher, events: Mask)
      requires Valid() && CanStop(st, w, events) && 0 <= w.fd < nwatchers && w.pevents.AndNot(events) == NONE
      modifies Repr()
      ensures Valid() && st == Stop(old(st), w, events) && Repr() == old(Repr())
    {
      hide *;
      StopParts(w, events);
      Unpack();
      ghost var r := Stop(st, w, events);
      ClearEntry(w, st, r);
      assert QueueIs(st.queue) && SlotsAre(r);
      DelistLast(w, st, r);
    }

    method StopSome(w: Watcher, events: Mask)
      requires Valid() && CanStop(st, w, events) && 0 <= w.fd < nwatchers && w.pevents.AndNot(events) != NONE
      modifies Repr()
      ensures Valid() && st == Stop(old(st), w, events) && Repr() == old(Repr())
    {
      hide *;
      StopParts(w, events);
      Unpack();
      ghost var r := Stop(st, w, events);
      SetMasks(w, w.pevents.AndNot(events), w.events, st.io, r.io);
      assert QueueIs(st.queue) && SlotsAre(r);
      Enlist(w, st, r.queue);
      assert IoIs(r.io) && SlotsAre(r) && TableIs(r.watchers);
      Become(r);
    }

    method IoStop(w: Watcher, events: Mask)
      requires Valid() && CanStop(st, w, events)
      modifies Repr()
      ensures Valid() && st == Stop(old(st), w, events) && Repr() == old(Repr())
    {
      if w.fd == -1 || w.fd >= nwatchers {
        return;
      }
      if w.pevents.AndNot(events) == NONE {
        StopAll(w, events);
      } else {
        StopSome(w, events);
      }
    }

    // ---------- polling ----------

    lemma FlushStep(s: LoopState<Watcher>)
      requires QueueTracked(s)
      ensures s.queue == [] ==> Flush(s) == s
      ensures s.queue != [] ==> QueueTracked(FlushOne(s)) && Flush(s) == Flush(FlushOne(s))
      ensures s.queue != [] ==> FlushOne(s).iterating == s.iterating && |FlushOne(s).queue| < |s.queue|
    {
    }

    lemma FirstPending()
      requires Valid() && st.queue != []
      ensures var w := st.queue[0];
        && w in st.io && st.io[w] == Io(w.fd, w.pevents, w.events)
        && pending != [] && pending[0] == w.link && w.link in containers && containers[w.link] == w
        && IsRing(watcherQueue, pending) && st.queue[1..] == Without(st.queue, w)
    {
      hide SlotsAre, TableIs, Distinct, Alone;
      assert st.queue[0] in st.queue && IndexOf(st.queue, st.queue[0]) == 0;
    }

    lemma FlushOneParts(s: LoopState<Watcher>, w: Watcher)
      requires !s.iterating && s.queue != [] && w == s.queue[0] && QueueTracked(s) && w in s.io
      requires s.io[w] == Io(w.fd, w.pevents, w.events)
      ensures var r := FlushOne(s);
        && ChangedAt(s.io, r.io, w) && r.io[w] == Io(w.fd, w.pevents, w.pevents)
        && r.queue == s.queue[1..] && QueueTracked(r)
        && r.watchers == s.watchers && r.nfds == s.nfds && r.io.Keys == s.io.Keys
    {
    }

    /** The slot and the current mask of a watcher that leaves the pending queue. */
    method FillSlot(w: Watcher, ghost s: LoopState<Watcher>, ghost r: LoopState<Watcher>)
      requires SlotsAre(s) && IoIs(s.io) && !s.iterating && QueueTracked(s) && s.queue != [] && s.queue[0] == w
      requires w in s.io && s.io[w].fd == w.fd && s.io[w].pevents == w.pevents && r == FlushOne(s)
      requires ChangedAt(s.io, r.io, w) && r.io[w] == Io(w.fd, w.pevents, w.pevents)
      modifies polls, polls.fds, w`pevents, w`events
      ensures SlotsAre(r) && IoIs(r.io) && (polls.fds == old(polls.fds) || fresh(polls.fds))
    {
      hide IoIs, ChangedAt;
      polls.Add(w.fd, w.pevents, s.slots);
      SetMasks(w, w.pevents, w.pevents, s.io, r.io);
    }

    /** Takes the first pending watcher into the poll array. */
    method TakeFirst()
      requires Valid() && !st.iterating && st.queue != []
      modifies Repr()
      ensures Valid() && QueueTracked(old(st)) && st == FlushOne(old(st)) && fresh(Repr() - old(Repr()))
      ensures known == old(known) && pool == old(pool)
    {
      hide *;
      Unpack();
      FirstPending();
      FlushOneParts(st, st.queue[0]);
      ghost var r := FlushOne(st);
      var q := Ring.Head(watcherQueue, pending);
      var w := containers[q];
      Delist(w, st, r.queue);
      assert IoIs(st.io) && SlotsAre(st) && TableIs(r.watchers);
      FillSlot(w, st, r);
      assert QueueIs(r.queue);
      Become(r);
    }

    method NonePending() returns (b: bool)
      requires Valid()
      ensures b <==> st.queue == []
    {
      b := Ring.Empty(watcherQueue);
    }

    method FlushQueue()
      requires Valid() && !st.iterating
      modifies Repr()
      ensures Valid() && QueueTracked(old(st)) && st == Flush(old(st)) && fresh(Repr() - old(Repr()))
      ensures known == old(known) && pool == old(pool)
    {
      hide *;
      ghost var s0 := st;
      Unpack();
      var empty := NonePending();
      while !empty
        invariant Valid() && !st.iterating && QueueTracked(s0) && QueueTracked(st) && Flush(st) == Flush(s0)
        invariant empty <==> st.queue == []
        invariant fresh(Repr() - old(Repr())) && known == old(known) && pool == old(pool)
        decreases |st.queue|
      {
        FlushStep(st);
        TakeFirst();
        Unpack();
        empty := NonePending();
      }
      FlushStep(st);
    }

    method ReportAndIterate(answer: Answer, ghost s: LoopState<Watcher>, ghost r: LoopState<Watcher>)
      requires SlotsAre(s) && !answer.Failed?
      requires r == s.(iterating := true,
        slots := if answer.Ready? then WithRevents(s.slots, answer.revents) else s.slots)
      modifies polls, polls.fds
      ensures SlotsAre(r) && polls.fds == old(polls.fds)
    {
      if answer.Ready? {
        polls.SetRevents(answer.revents, s.slots);
      }
      polls.iterating := true;
    }

    /** A poll up to its dispatch pass. There is a pass unless nobody is registered or poll fails. */
    method BeginPoll(answer: Answer) returns (pass: bool)
      requires Valid() && !st.iterating && (st.nfds == 0 ==> st.queue == [])
      modifies Repr()
      ensures Valid() && QueueTracked(old(st)) && st == Begin(old(st), answer) && fresh(Repr() - old(Repr()))
      ensures pass == st.iterating && known == old(known) && pool == old(pool)
    {
      hide *;
      Unpack();
      BeginParts(st, answer);
      if nfds == 0 {
        assert st.queue == [];
        return false;
      }
      ghost var r := Begin(st, answer);
      FlushQueue();
      if answer == Failed {
        return false;
      }
      Unpack();
      ReportAndIterate(answer, st, r);
      assert TableIs(r.watchers) && IoIs(r.io) && QueueIs(r.queue);
      Become(r);
      pass := true;
    }

    lemma BeginParts(s: LoopState<Watcher>, answer: Answer)
      requires QueueTracked(s) && !s.iterating
      ensures s.nfds == 0 ==> Begin(s, answer) == s
      ensures s.nfds != 0 && answer.Failed? ==> Begin(s, answer) == Flush(s) && !Flush(s).iterating
      ensures var f := Flush(s); s.nfds != 0 && !answer.Failed? ==>
        var r := Begin(s, answer);
        && r == f.(iterating := true, slots := if answer.Ready? then WithRevents(f.slots, answer.revents) else f.slots)
        && r.watchers == f.watchers && r.io == f.io && r.queue == f.queue && r.nfds == f.nfds
        && (QueueTracked(f) ==> QueueTracked(r))
    {
      FlushKeepsPhase(s);
    }

    lemma {:induction false} FlushKeepsPhase(s: LoopState<Watcher>)
      requires QueueTracked(s)
      ensures Flush(s).iterating == s.iterating
      decreases |s.queue|
    {
      FlushStep(s);
      if s.queue != [] { FlushKeepsPhase(FlushOne(s)); }
    }

    lemma VisitParts(i: nat)
      requires Valid() && i < |st.slots| && -1 <= st.slots[i].fd < |st.watchers|
      requires st.WatcherOf(st.slots[i].fd).Some? ==> st.WatcherOf(st.slots[i].fd).value in st.io
      ensures i < polls.used <= polls.fds.Length && polls.fds[i] == st.slots[i] && polls.used == |st.slots|
      ensures 0 <= st.slots[i].fd ==> st.slots[i].fd < |watchers|
      ensures st.slots[i].fd == -1 ==> Visit(st, i) == st && Target(st, i) == None
      ensures 0 <= st.slots[i].fd && watchers[st.slots[i].fd] == null ==>
        Visit(st, i) == Invalidate(st, st.slots[i].fd) && Target(st, i) == None
      ensures 0 <= st.slots[i].fd && watchers[st.slots[i].fd] != null ==>
        var w := watchers[st.slots[i].fd];
        var m := st.slots[i].revents.And(w.pevents.Or(ERRORS));
        && Visit(st, i) == st.(slots := st.slots[i := st.slots[i].(revents := m)])
        && Target(st, i) == if m == NONE then None else Some((w, m))
    {
    }

    method PutRevents(i: nat, m: Mask, ghost s: LoopState<Watcher>, ghost r: LoopState<Watcher>)
      requires SlotsAre(s) && i < |s.slots| && r == s.(slots := s.slots[i := s.slots[i].(revents := m)])
      modifies polls.fds
      ensures SlotsAre(r)
    {
      polls.fds[i] := polls.fds[i].(revents := m);
      assert polls.fds[..polls.used] == r.slots;
    }

    method InvalidateSlots(fd: int, ghost s: LoopState<Watcher>, ghost r: LoopState<Watcher>)
      requires SlotsAre(s) && fd >= 0 && r == Invalidate(s, fd)
      modifies polls, polls.fds
      ensures SlotsAre(r) && polls.fds == old(polls.fds)
    {
      polls.Invalidate(fd, s.slots);
    }

    lemma SlotsOnly(r: LoopState<Watcher>)
      requires Valid() && r == st.(slots := r.slots, iterating := r.iterating)
      ensures r.io == st.io && r.queue == st.queue && r.watchers == st.watchers && r.nfds == st.nfds && QueueTracked(r)
    {
    }

    /** Visits slot i of the pass: skips it, invalidates it when nobody watches its descriptor any more,
        or filters what was reported and tells whom to call back with what. */
    method VisitSlot(i: nat) returns (target: Option<(Watcher, Mask)>)
      requires Valid() && st.iterating && i < |st.slots| && -1 <= st.slots[i].fd < |st.watchers|
      requires st.WatcherOf(st.slots[i].fd).Some? ==> st.WatcherOf(st.slots[i].fd).value in st.io
      modifies Repr()
      ensures Valid() && st == Visit(old(st), i) && target == Target(old(st), i)
      ensures Repr() == old(Repr()) && known == old(known) && pool == old(pool)
    {
      hide *;
      Unpack();
      VisitParts(i);
      var pe := polls.fds[i];
      if pe.fd == -1 {
        return None;
      }
      var w := watchers[pe.fd];
      ghost var r := Visit(st, i);
      if w == null {
        InvalidateSlotsOnly(st, pe.fd);
        SlotsOnly(r);
        InvalidateSlots(pe.fd, st, r);
        assert IoIs(r.io) && QueueIs(r.queue) && TableIs(r.watchers);
        Become(r);
        return None;
      }
      var m := pe.revents.And(w.pevents.Or(ERRORS));
      SlotsOnly(r);
      PutRevents(i, m, st, r);
      assert IoIs(r.io) && QueueIs(r.queue) && TableIs(r.watchers);
      Become(r);
      target := if m != NONE then Some((w, m)) else None;
    }

    method EndPoll()
      requires Valid()
      modifies Repr()
      ensures Valid() && st == old(st).(iterating := false)
      ensures Repr() == old(Repr()) && known == old(known) && pool == old(pool)
    {
      hide *;
      Unpack();
      ghost var r := st.(iterating := false);
      SlotsOnly(r);
      ClearIterating(st, r);
      assert IoIs(r.io) && QueueIs(r.queue) && TableIs(r.watchers);
      Become(r);
    }

    method ClearIterating(ghost s: LoopState<Watcher>, ghost r: LoopState<Watcher>)
      requires SlotsAre(s) && r == s.(iterating := false)
      modifies polls`iterating
      ensures SlotsAre(r)
    {
      polls.iterating := false;
    }

    /** `uv__platform_invalidate_fd`. */
    method InvalidateFd(fd: int)
      requires Valid() && fd >= 0
      modifies Repr()
      ensures Valid() && st == Invalidate(old(st), fd) && Repr() == old(Repr())
    {
      hide *;
      Unpack();
      InvalidateSlotsOnly(st, fd);
      ghost var r := Invalidate(st, fd);
      SlotsOnly(r);
      InvalidateSlots(fd, st, r);
      assert IoIs(r.io) && QueueIs(r.queue) && TableIs(r.watchers);
      Become(r);
    }

    lemma InvalidateSlotsOnly(s: LoopState<Watcher>, fd: int)
      ensures var r := Invalidate(s, fd); r == s.(slots := r.slots, iterating := r.iterating)
    {
    }

    // ---------- the watchers that the loop knows ----------

    lemma TrackParts(s: LoopState<Watcher>, w: Watcher)
      requires QueueTracked(s) && w !in s.io && w.link !in containers && Embedded(containers, s.io.Keys)
      ensures var r := LoopModel.Track(s, w, w.fd);
        && Embedded(containers[w.link := w], r.io.Keys) && QueueTracked(r) && r.io.Keys == s.io.Keys + {w}
        && r.io[w] == Io(w.fd, NONE, NONE) && (forall v :: v in s.io ==> r.io[v] == s.io[v])
        && r.watchers == s.watchers && r.nfds == s.nfds && r.queue == s.queue && (SlotsAre(s) ==> SlotsAre(r))
    {
      hide SlotsAre;
      if SlotsAre(s) { SlotsSame(s, LoopModel.Track(s, w, w.fd)); }
    }

    lemma SlotsSame(s: LoopState<Watcher>, r: LoopState<Watcher>)
      requires SlotsAre(s) && r.slots == s.slots && r.capacity == s.capacity && r.iterating == s.iterating
      ensures SlotsAre(r)
    {
    }

    lemma ForgetParts(s: LoopState<Watcher>, w: Watcher)
      requires QueueTracked(s) && w in s.io && w !in s.queue && Embedded(containers, s.io.Keys)
      ensures var r := LoopModel.Forget(s, w);
        && Embedded(containers - {w.link}, r.io.Keys) && QueueTracked(r) && r.io.Keys == s.io.Keys - {w}
        && (forall v :: v in r.io ==> r.io[v] == s.io[v])
        && r.watchers == s.watchers && r.nfds == s.nfds && r.queue == s.queue && (SlotsAre(s) ==> SlotsAre(r))
    {
      hide SlotsAre;
      if SlotsAre(s) { SlotsSame(s, LoopModel.Forget(s, w)); }
    }

    /** A new watcher, not yet started. */
    method Track(w: Watcher)
      requires Valid() && w !in st.io && w.link !in pool && w.link != watcherQueue && Alone(w.link)
      requires w.pevents == NONE && w.events == NONE
      modifies this`containers, this`st, this`known, this`pool
      ensures Valid() && st == LoopModel.Track(old(st), w, w.fd)
      ensures known == old(known) + {w} && pool == old(pool) + {w.link} && Repr() == old(Repr()) + {w, w.link}
    {
      hide SlotsAre, TableIs, ListOf, Embedded, Links;
      TrackParts(st, w);
      PoolChanges(watcherQueue, pending, pool, w.link);
      containers := containers[w.link := w];
      known := known + {w};
      pool := pool + {w.link};
      Become(LoopModel.Track(st, w, w.fd));
    }

    lemma NotPending(w: Watcher)
      requires Valid() && w in st.io && w !in st.queue
      ensures w.link !in pending
    {
      LinksOfList(st.queue, w, containers, st.io.Keys);
    }

    /** The memory of a stopped watcher is given up. */
    method Forget(w: Watcher)
      requires Valid() && w in st.io && w !in st.queue
      modifies this`containers, this`st, this`known, this`pool
      ensures Valid() && st == LoopModel.Forget(old(st), w)
      ensures known == old(known) - {w} && pool == old(pool) - {w.link} && Repr() <= old(Repr())
    {
      hide SlotsAre, TableIs, ListOf, Embedded, Links, Valid, Represents, QueueTracked, LoopModel.Forget, Repr;
      Unpack();
      NotPending(w);
      ForgetParts(st, w);
      PoolChanges(watcherQueue, pending, pool, w.link);
      containers := containers - {w.link};
      known := known - {w};
      pool := pool - {w.link};
      Become(LoopModel.Forget(st, w));
    }
  }
}

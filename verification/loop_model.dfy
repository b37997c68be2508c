/** The poll loop as a state machine: what each operation does to the four places where the loop
    keeps its facts, and why these agree after every history. */
module LoopModel {
  import opened PollSlots
  import opened PowerOfTwo
  import opened Ring
  import opened Wrappers

  /** The loop's part of a watcher. */
  datatype Io = Io(fd: int, pevents: Mask, events: Mask)

  /** `io` holds the watchers that are initialised and not yet freed. `slots` is the used part of the
      poll array and `capacity` its allocated size; `peak` and `moved` record the largest number of
      slots ever used and the number of entries that reallocation has copied. */
  datatype LoopState<W> = LoopState(
    watchers: seq<Option<W>>,
    nfds: int,
    queue: seq<W>,
    slots: seq<PollFd>,
    capacity: nat,
    iterating: bool,
    io: map<W, Io>,
    peak: nat,
    moved: nat)
  {
    ghost predicate Registered(w: W) {
      w in io && io[w].pevents != NONE
    }

    /** The watcher that the table names for fd. */
    ghost function WatcherOf(fd: int): Option<W> {
      if 0 <= fd < |watchers| then watchers[fd] else None
    }
  }

  const MAX_FD: nat := 0x7fff_fffd

  ghost predicate OnlyInOut(m: Mask) {
    m.AndNot(POLLIN.Or(POLLOUT)) == NONE
  }

  /** The code's own assertion on the mask of a start or stop. */
  ghost predicate LegalEvents(events: Mask) {
    events != NONE && OnlyInOut(events)
  }

  // ---------- the operations ----------

  ghost function EmptyLoop<W>(): LoopState<W> {
    LoopState([], 0, [], [], 0, false, map[], 0, 0)
  }

  ghost function Widen<W>(watchers: seq<Option<W>>, len: nat): (r: seq<Option<W>>)
    ensures len <= |r| && |watchers| <= |r|
    ensures forall i :: 0 <= i < |r| ==> r[i] == if i < |watchers| then watchers[i] else None
  {
    if len <= |watchers| then watchers
    else watchers + seq(IntendedTableSize(len) - |watchers|, _ => None)
  }

  ghost function Start<W>(s: LoopState<W>, w: W, events: Mask): LoopState<W>
    requires w in s.io && s.io[w].fd >= 0
  {
    var d := s.io[w];
    var t := Widen(s.watchers, d.fd + 1);
    s.(io := s.io[w := d.(pevents := d.pevents.Or(events))],
       queue := if w in s.queue then s.queue else s.queue + [w],
       watchers := if t[d.fd].None? then t[d.fd := Some(w)] else t,
       nfds := if t[d.fd].None? then s.nfds + 1 else s.nfds)
  }

  ghost function Stop<W>(s: LoopState<W>, w: W, events: Mask): LoopState<W>
    requires w in s.io && s.io[w].fd >= -1
  {
    var d := s.io[w];
    if d.fd == -1 || d.fd >= |s.watchers| then s
    else
      var p := d.pevents.AndNot(events);
      if p == NONE then
        var mine := s.watchers[d.fd] == Some(w);
        s.(io := s.io[w := d.(pevents := NONE, events := NONE)],
           queue := Without(s.queue, w),
           watchers := if mine then s.watchers[d.fd := None] else s.watchers,
           nfds := if mine then s.nfds - 1 else s.nfds)
      else
        s.(io := s.io[w := d.(pevents := p)],
           queue := if w in s.queue then s.queue else s.queue + [w])
  }

  ghost function Add<W>(s: LoopState<W>, w: W): LoopState<W>
    requires w in s.io
  {
    if s.iterating then s
    else
      var t := AddSlot(s.slots, s.io[w].fd, s.io[w].pevents);
      if |t| == |s.slots| then s.(slots := t)
      else
        var c := CapacityFor(s.capacity, |s.slots|);
        s.(slots := t, capacity := c, peak := if |t| > s.peak then |t| else s.peak,
           moved := if c == s.capacity then s.moved else s.moved + s.capacity)
  }

  ghost predicate QueueTracked<W>(s: LoopState<W>) {
    forall w :: w in s.queue ==> w in s.io
  }

  /** Takes the first pending watcher into the poll array. */
  ghost function FlushOne<W>(s: LoopState<W>): LoopState<W>
    requires s.queue != [] && QueueTracked(s)
  {
    var w := s.queue[0];
    assert w in s.queue;
    var a := Add(s.(queue := s.queue[1..]), w);
    a.(io := a.io[w := a.io[w].(events := a.io[w].pevents)])
  }

  ghost function Flush<W>(s: LoopState<W>): LoopState<W>
    requires QueueTracked(s)
    decreases |s.queue|
  {
    if s.queue == [] then s else Flush(FlushOne(s))
  }

  /** What the operating system answers to poll: an error, an interruption, which leaves the old
      revents in place, or new revents, about which nothing is assumed. */
  datatype Answer = Failed | Interrupted | Ready(revents: seq<Mask>)

  /** One poll up to the start of its dispatch pass, if there is one. */
  ghost function Begin<W>(s: LoopState<W>, answer: Answer): LoopState<W>
    requires QueueTracked(s)
  {
    if s.nfds == 0 then s
    else
      var f := Flush(s);
      match answer
      case Failed => f
      case Interrupted => f.(iterating := true)
      case Ready(revents) => f.(iterating := true, slots := WithRevents(f.slots, revents))
  }

  ghost function Invalidate<W>(s: LoopState<W>, fd: int): LoopState<W> {
    s.(slots := if s.iterating then Tombstone(s.slots, fd) else DelSlots(s.slots, fd, 0))
  }

  /** The bits of m that w may be called with: those it asked for and the two error bits. */
  ghost function Asked<W>(s: LoopState<W>, w: W, m: Mask): (r: Mask)
    requires w in s.io
    ensures r.AndNot(m) == NONE && r.AndNot(s.io[w].pevents.Or(ERRORS)) == NONE
  {
    m.And(s.io[w].pevents.Or(ERRORS))
  }

  /** The watcher and mask of the callback that slot i leads to, if it leads to one. */
  ghost function Target<W>(s: LoopState<W>, i: nat): Option<(W, Mask)>
    requires i < |s.slots|
  {
    var w := s.WatcherOf(s.slots[i].fd);
    if w.None? || w.value !in s.io then None
    else
      var r := Asked(s, w.value, s.slots[i].revents);
      if r == NONE then None else Some((w.value, r))
  }

  /** The loop's own part of visiting slot i. */
  ghost function Visit<W>(s: LoopState<W>, i: nat): LoopState<W>
    requires i < |s.slots|
  {
    var pe := s.slots[i];
    if pe.fd == -1 then s
    else
      var w := s.WatcherOf(pe.fd);
      if w.None? then Invalidate(s, pe.fd)
      else if w.value !in s.io then s
      else s.(slots := s.slots[i := pe.(revents := Asked(s, w.value, pe.revents))])
  }

  ghost function Track<W>(s: LoopState<W>, w: W, fd: int): LoopState<W> {
    s.(io := s.io[w := Io(fd, NONE, NONE)])
  }

  ghost function Forget<W>(s: LoopState<W>, w: W): LoopState<W> {
    s.(io := s.io - {w})
  }

  // ---------- the invariant ----------

  ghost function Count<W>(watchers: seq<Option<W>>): nat {
    if watchers == [] then 0 else (if watchers[0].Some? then 1 else 0) + Count(watchers[1..])
  }

  ghost predicate TableOk<W>(s: LoopState<W>) {
    IsPow2(|s.watchers| + 2) && |s.watchers| <= INT_MAX && s.nfds == Count(s.watchers)
  }

  /** The table names exactly the registered watchers, each at its own descriptor. */
  ghost predicate RegistryOk<W>(s: LoopState<W>) {
    && (forall w :: w in s.io && s.Registered(w) ==> s.WatcherOf(s.io[w].fd) == Some(w) && OnlyInOut(s.io[w].pevents))
    && (forall i :: 0 <= i < |s.watchers| && s.watchers[i].Some? ==>
          s.Registered(s.watchers[i].value) && s.io[s.watchers[i].value].fd == i)
  }

  ghost predicate QueueOk<W>(s: LoopState<W>) {
    Distinct(s.queue) && forall w :: w in s.queue ==> s.Registered(w)
  }

  ghost predicate HasSlot<W>(s: LoopState<W>, fd: int, events: Mask) {
    exists i :: 0 <= i < |s.slots| && s.slots[i].fd == fd && s.slots[i].events == events
  }

  /** A registered watcher is pending or already has a slot with its current mask. */
  ghost predicate CoverOk<W>(s: LoopState<W>) {
    && (forall w :: w in s.io && s.Registered(w) && w !in s.queue ==> HasSlot(s, s.io[w].fd, s.io[w].pevents))
    && (forall w :: w in s.io && w !in s.queue ==> s.io[w].events == s.io[w].pevents)
  }

  ghost predicate SlotsOk<W>(s: LoopState<W>) {
    UniqueFds(s.slots) && forall i :: 0 <= i < |s.slots| ==> -1 <= s.slots[i].fd < |s.watchers|
  }

  ghost predicate GrowthOk<W>(s: LoopState<W>) {
    && |s.slots| <= s.peak <= s.capacity
    && (s.capacity == 0 || exists k: nat :: s.capacity == 64 * Pow2(k))
    && (s.capacity <= 64 || s.capacity <= 2 * s.peak)
    && s.moved == if s.capacity == 0 then 0 else s.capacity - 64
  }

  ghost predicate Inv<W>(s: LoopState<W>) {
    TableOk(s) && RegistryOk(s) && QueueOk(s) && CoverOk(s) && SlotsOk(s) && GrowthOk(s)
  }

  // ---------- each operation keeps the invariant ----------

  lemma {:induction false} CountUpdate<W>(t: seq<Option<W>>, i: nat, v: Option<W>)
    requires i < |t|
    ensures Count(t[i := v]) == Count(t) - (if t[i].Some? then 1 else 0) + if v.Some? then 1 else 0
  {
    if i == 0 {
      assert t[0 := v][1..] == t[1..];
    } else {
      assert t[i := v][1..] == t[1..][i - 1 := v];
      CountUpdate(t[1..], i - 1, v);
    }
  }

  lemma {:induction false} CountAppendNone<W>(t: seq<Option<W>>, u: seq<Option<W>>)
    requires forall i :: 0 <= i < |u| ==> u[i] == None
    ensures Count(t + u) == Count(t)
  {
    if t != [] {
      assert (t + u)[1..] == t[1..] + u;
      CountAppendNone(t[1..], u);
    } else if u != [] {
      assert t + u == u && [] + u[1..] == u[1..];
      CountAppendNone([], u[1..]);
    } else {
      assert t + u == [];
    }
  }

  lemma {:induction false} CountPositive<W>(t: seq<Option<W>>, i: nat)
    requires i < |t| && t[i].Some?
    ensures Count(t) > 0
  {
    if i > 0 { CountPositive(t[1..], i - 1); }
  }

  lemma WidenKeepsTable<W>(watchers: seq<Option<W>>, fd: nat)
    requires IsPow2(|watchers| + 2) && |watchers| <= INT_MAX && fd <= MAX_FD
    ensures var t := Widen(watchers, fd + 1);
      IsPow2(|t| + 2) && |t| <= INT_MAX && Count(t) == Count(watchers)
  {
    TableSizeExact(fd);
    if fd + 1 > |watchers| {
      var u := seq(IntendedTableSize(fd + 1) - |watchers|, _ => None);
      CountAppendNone(watchers, u);
    }
  }

  /** The code's own assertions on the descriptor and mask, and the condition that the table does
      not already hold another watcher for the descriptor. */
  ghost predicate CanStart<W>(s: LoopState<W>, w: W, events: Mask) {
    && w in s.io && LegalEvents(events) && 0 <= s.io[w].fd <= MAX_FD
    && s.WatcherOf(s.io[w].fd) in {None, Some(w)}
  }

  ghost predicate CanStop<W>(s: LoopState<W>, w: W, events: Mask) {
    w in s.io && LegalEvents(events) && s.io[w].fd >= -1
  }

  lemma MaskFacts(p: Mask, events: Mask)
    requires LegalEvents(events) && OnlyInOut(p)
    ensures p.Or(events) != NONE && OnlyInOut(p.Or(events)) && OnlyInOut(p.AndNot(events))
    ensures p.AndNot(events) != NONE ==> p != NONE
  {
  }

  lemma StartKeepsTable<W>(s: LoopState<W>, w: W, events: Mask)
    requires Inv(s) && CanStart(s, w, events)
    ensures var r := Start(s, w, events);
      TableOk(r) && r.watchers == Widen(s.watchers, s.io[w].fd + 1)[s.io[w].fd := Some(w)]
  {
    hide CoverOk, GrowthOk, QueueOk, SlotsOk, Widen, Count, LegalEvents;
    var fd := s.io[w].fd;
    WidenKeepsTable(s.watchers, fd);
    CountUpdate(Widen(s.watchers, fd + 1), fd, Some(w));
  }

  lemma StartKeepsRegistry<W>(s: LoopState<W>, w: W, events: Mask)
    requires Inv(s) && CanStart(s, w, events)
    ensures RegistryOk(Start(s, w, events)) && Start(s, w, events).Registered(w)
  {
    hide CoverOk, GrowthOk, QueueOk, SlotsOk, TableOk;
    StartKeepsTable(s, w, events);
    MaskFacts(s.io[w].pevents, events);
    var r := Start(s, w, events);
    forall v | v in r.io && r.Registered(v)
      ensures r.WatcherOf(r.io[v].fd) == Some(v) && OnlyInOut(r.io[v].pevents)
    {
      if v != w { assert s.Registered(v) && s.WatcherOf(s.io[v].fd) == Some(v); }
    }
  }

  lemma CoverFrame<W>(s: LoopState<W>, r: LoopState<W>, w: W)
    requires CoverOk(s) && r.slots == s.slots && w in r.io
    requires forall v :: v in r.io && v != w ==> v in s.io && r.io[v] == s.io[v]
    requires forall v :: v in s.queue && v != w ==> v in r.queue
    requires forall v :: v in r.queue && v != w ==> v in s.queue
    requires w in r.queue || r.io[w].pevents == r.io[w].events == NONE
    ensures CoverOk(r)
  {
    forall v | v in r.io && r.Registered(v) && v !in r.queue
      ensures HasSlot(r, r.io[v].fd, r.io[v].pevents)
    {
      assert s.Registered(v) && HasSlot(s, s.io[v].fd, s.io[v].pevents);
    }
  }

  lemma SlotsFrame<W>(s: LoopState<W>, r: LoopState<W>)
    requires SlotsOk(s) && GrowthOk(s) && |s.watchers| <= |r.watchers|
    requires r.slots == s.slots && r.capacity == s.capacity && r.peak == s.peak && r.moved == s.moved
    ensures SlotsOk(r) && GrowthOk(r)
  {
  }

  lemma StartKeepsInv<W>(s: LoopState<W>, w: W, events: Mask)
    requires Inv(s) && CanStart(s, w, events)
    ensures Inv(Start(s, w, events))
    ensures Start(s, w, events).Registered(w) && w in Start(s, w, events).queue
  {
    hide TableOk, CoverOk, SlotsOk, GrowthOk;
    StartKeepsTable(s, w, events);
    StartKeepsRegistry(s, w, events);
    CoverFrame(s, Start(s, w, events), w);
    SlotsFrame(s, Start(s, w, events));
    assert QueueOk(Start(s, w, events)) by {
      forall v | v in s.queue ensures Start(s, w, events).Registered(v) {}
    }
  }

  lemma StopKeepsTable<W>(s: LoopState<W>, w: W, events: Mask)
    requires Inv(s) && CanStop(s, w, events)
    ensures TableOk(Stop(s, w, events))
    ensures s.Registered(w) ==> s.nfds > 0
  {
    hide CoverOk, GrowthOk, QueueOk, SlotsOk;
    var fd := s.io[w].fd;
    if 0 <= fd < |s.watchers| && s.watchers[fd] == Some(w) {
      CountUpdate(s.watchers, fd, None);
      CountPositive(s.watchers, fd);
    }
  }

  lemma StopKeepsRegistry<W>(s: LoopState<W>, w: W, events: Mask)
    requires Inv(s) && CanStop(s, w, events)
    ensures RegistryOk(Stop(s, w, events))
  {
    hide CoverOk, GrowthOk, QueueOk, SlotsOk, TableOk;
    if s.Registered(w) { MaskFacts(s.io[w].pevents, events); }
    var r := Stop(s, w, events);
    forall v | v in r.io && r.Registered(v)
      ensures r.WatcherOf(r.io[v].fd) == Some(v) && OnlyInOut(r.io[v].pevents)
    {
      assert s.Registered(v) && s.WatcherOf(s.io[v].fd) == Some(v);
    }
  }

  lemma StopKeepsQueue<W>(s: LoopState<W>, w: W, events: Mask)
    requires Inv(s) && CanStop(s, w, events)
    ensures QueueOk(Stop(s, w, events))
  {
    hide TableOk, CoverOk, SlotsOk, GrowthOk, Without, IndexOf;
    var r := Stop(s, w, events);
    DistinctWithout(s.queue, w);
    forall v | v in r.queue ensures r.Registered(v) {
      if v != w { assert v in s.queue && s.Registered(v); }
    }
  }

  lemma StopKeepsCover<W>(s: LoopState<W>, w: W, events: Mask)
    requires Inv(s) && CanStop(s, w, events)
    ensures CoverOk(Stop(s, w, events))
  {
    hide TableOk, RegistryOk, CoverOk, SlotsOk, GrowthOk, Without, IndexOf, Distinct;
    DistinctWithout(s.queue, w);
    if 0 <= s.io[w].fd < |s.watchers| { CoverFrame(s, Stop(s, w, events), w); }
  }

  lemma StopKeepsInv<W>(s: LoopState<W>, w: W, events: Mask)
    requires Inv(s) && CanStop(s, w, events)
    ensures Inv(Stop(s, w, events))
    ensures s.Registered(w) ==> s.nfds > 0
  {
    hide TableOk, RegistryOk, QueueOk, CoverOk, SlotsOk, GrowthOk;
    StopKeepsTable(s, w, events);
    StopKeepsRegistry(s, w, events);
    StopKeepsQueue(s, w, events);
    StopKeepsCover(s, w, events);
    SlotsFrame(s, Stop(s, w, events));
  }

  lemma AddKeepsGrowth<W>(s: LoopState<W>, w: W)
    requires GrowthOk(s) && w in s.io && UniqueFds(s.slots) && s.io[w].fd >= 0
    ensures GrowthOk(Add(s, w))
  {
    var r := Add(s, w);
    if r.capacity != s.capacity {
      if s.capacity == 0 {
        assert 64 == 64 * Pow2(0);
      } else {
        var k: nat :| s.capacity == 64 * Pow2(k);
        assert r.capacity == 64 * Pow2(k + 1);
      }
    }
  }

  lemma FlushOneFacts<W>(s: LoopState<W>)
    requires Inv(s) && !s.iterating && s.queue != []
    ensures QueueTracked(s) && s.Registered(s.queue[0])
    ensures var w := s.queue[0]; var r := FlushOne(s);
      && r == s.(queue := s.queue[1..], slots := r.slots, capacity := r.capacity, peak := r.peak, moved := r.moved,
                 io := s.io[w := s.io[w].(events := s.io[w].pevents)])
      && r.slots == AddSlot(s.slots, s.io[w].fd, s.io[w].pevents)
      && HasSlot(r, s.io[w].fd, s.io[w].pevents)
    ensures SlotsOk(FlushOne(s)) && GrowthOk(FlushOne(s))
  {
    hide CoverOk, TableOk;
    var w := s.queue[0];
    assert w in s.queue;
    var fd := s.io[w].fd;
    assert s.Registered(w) && s.WatcherOf(fd) == Some(w);
    AddStep(s.slots, fd, s.io[w].pevents);
    AddKeepsGrowth(s.(queue := s.queue[1..]), w);
  }

  lemma FlushOneKeepsCover<W>(s: LoopState<W>)
    requires Inv(s) && !s.iterating && s.queue != []
    ensures QueueTracked(s) && CoverOk(FlushOne(s))
  {
    FlushOneFacts(s);
    hide TableOk, SlotsOk, GrowthOk, FlushOne, AddSlot;
    var w := s.queue[0];
    var r := FlushOne(s);
    AddStep(s.slots, s.io[w].fd, s.io[w].pevents);
    forall v | v in r.io && r.Registered(v) && v !in r.queue
      ensures HasSlot(r, r.io[v].fd, r.io[v].pevents)
    {
      if v != w {
        assert s.Registered(v) && v !in s.queue && s.WatcherOf(s.io[v].fd) == Some(v);
        var i :| 0 <= i < |s.slots| && s.slots[i].fd == s.io[v].fd && s.slots[i].events == s.io[v].pevents;
        assert r.slots[i] == s.slots[i];
      }
    }
  }

  lemma FlushOneKeepsInv<W>(s: LoopState<W>)
    requires Inv(s) && !s.iterating && s.queue != []
    ensures QueueTracked(s) && Inv(FlushOne(s)) && FlushOne(s).watchers == s.watchers && FlushOne(s).nfds == s.nfds
    ensures !FlushOne(s).iterating && FlushOne(s).queue == s.queue[1..] && FlushOne(s).io.Keys == s.io.Keys
    ensures forall v :: v in s.io ==> FlushOne(s).io[v].pevents == s.io[v].pevents && FlushOne(s).io[v].fd == s.io[v].fd
  {
    hide CoverOk, SlotsOk, GrowthOk, FlushOne, Count;
    FlushOneFacts(s);
    FlushOneKeepsCover(s);
    var r := FlushOne(s);
    forall v | v in s.queue[1..] ensures v in s.queue && v != s.queue[0] && r.Registered(v) {}
  }

  lemma {:induction false} FlushKeepsInv<W>(s: LoopState<W>)
    requires Inv(s) && !s.iterating
    ensures Inv(Flush(s)) && Flush(s).queue == [] && Flush(s).watchers == s.watchers && !Flush(s).iterating
    ensures Flush(s).nfds == s.nfds && Flush(s).io.Keys == s.io.Keys
    ensures forall v :: v in s.io ==> Flush(s).io[v].pevents == s.io[v].pevents && Flush(s).io[v].fd == s.io[v].fd
    decreases |s.queue|
  {
    if s.queue != [] {
      FlushOneKeepsInv(s);
      FlushKeepsInv(FlushOne(s));
    }
  }

  /** When nobody is registered nothing is pending either: the assertion of an idle poll holds. */
  lemma IdleMeansEmpty<W>(s: LoopState<W>)
    requires Inv(s)
    ensures s.queue != [] ==> s.nfds > 0
    ensures s.nfds >= 0
  {
    if s.queue != [] {
      assert s.Registered(s.queue[0]);
      CountPositive(s.watchers, s.io[s.queue[0]].fd);
    }
  }

  lemma SlotFieldsFrame<W>(s: LoopState<W>, r: LoopState<W>)
    requires Inv(s) && |r.slots| == |s.slots|
    requires r == s.(slots := r.slots, iterating := r.iterating)
    requires forall i :: 0 <= i < |s.slots| ==> r.slots[i].fd == s.slots[i].fd && r.slots[i].events == s.slots[i].events
    ensures Inv(r)
  {
    forall v | v in r.io && r.Registered(v) && v !in r.queue
      ensures HasSlot(r, r.io[v].fd, r.io[v].pevents)
    {
      var i :| 0 <= i < |s.slots| && s.slots[i].fd == s.io[v].fd && s.slots[i].events == s.io[v].pevents;
      assert r.slots[i].fd == s.io[v].fd;
    }
  }

  lemma BeginKeepsInv<W>(s: LoopState<W>, answer: Answer)
    requires Inv(s) && !s.iterating
    ensures Inv(Begin(s, answer))
  {
    if s.nfds != 0 {
      FlushKeepsInv(s);
      SlotFieldsFrame(Flush(s), Begin(s, answer));
    }
  }

  lemma InvalidateKeepsSlots<W>(s: LoopState<W>, fd: int)
    requires SlotsOk(s) && fd >= 0
    ensures SlotsOk(Invalidate(s, fd)) && |Invalidate(s, fd).slots| <= |s.slots|
    ensures WatchedWithout(s.slots, Invalidate(s, fd).slots, fd)
  {
    if s.iterating {
      TombstoneStep(s.slots, fd);
    } else {
      DelStep(s.slots, fd);
      DelRemovesFirst(s.slots, fd, 0);
    }
  }

  lemma InvalidateKeepsInv<W>(s: LoopState<W>, fd: int)
    requires Inv(s) && fd >= 0 && s.WatcherOf(fd) == None
    ensures Inv(Invalidate(s, fd))
  {
    InvalidateKeepsSlots(s, fd);
    var r := Invalidate(s, fd);
    forall v | v in r.io && r.Registered(v) && v !in r.queue
      ensures HasSlot(r, r.io[v].fd, r.io[v].pevents)
    {
      assert s.Registered(v) && s.WatcherOf(s.io[v].fd) == Some(v) && HasSlot(s, s.io[v].fd, s.io[v].pevents);
      assert (s.io[v].fd, s.io[v].pevents) in Watched(s.slots);
      assert (s.io[v].fd, s.io[v].pevents) in Watched(r.slots);
    }
  }

  lemma VisitKeepsInv<W>(s: LoopState<W>, i: nat)
    requires Inv(s) && i < |s.slots|
    ensures Inv(Visit(s, i))
  {
    var fd := s.slots[i].fd;
    if fd != -1 {
      if s.WatcherOf(fd) == None { InvalidateKeepsInv(s, fd); } else { SlotFieldsFrame(s, Visit(s, i)); }
    }
  }

  lemma TrackKeepsInv<W>(s: LoopState<W>, w: W, fd: int)
    requires Inv(s) && w !in s.io
    ensures Inv(Track(s, w, fd))
  {
    var r := Track(s, w, fd);
    forall v | v in r.io && r.Registered(v) ensures v in s.io && s.Registered(v) && r.io[v] == s.io[v] {}
    forall v | v in r.io && r.Registered(v) && v !in r.queue
      ensures HasSlot(r, r.io[v].fd, r.io[v].pevents)
    {
      assert HasSlot(s, s.io[v].fd, s.io[v].pevents);
    }
    forall v | v in s.queue ensures r.Registered(v) { assert s.Registered(v); }
  }

  lemma ForgetKeepsInv<W>(s: LoopState<W>, w: W)
    requires Inv(s) && w in s.io && !s.Registered(w)
    ensures Inv(Forget(s, w)) && w !in s.queue && forall i :: 0 <= i < |s.watchers| ==> s.watchers[i] != Some(w)
  {
    var r := Forget(s, w);
    forall v | v in s.queue ensures r.Registered(v) { assert s.Registered(v); }
    forall v | v in r.io && r.Registered(v) && v !in r.queue
      ensures HasSlot(r, r.io[v].fd, r.io[v].pevents)
    {
      assert s.Registered(v) && HasSlot(s, s.io[v].fd, s.io[v].pevents);
    }
  }

  // ---------- runs ----------

  /** Everything that can happen to the loop, in any order: callbacks are the operations between
      a visit and the next. */
  datatype Op<W> =
    | DoTrack(w: W, fd: int)
    | DoForget(w: W)
    | DoStart(w: W, events: Mask)
    | DoStop(w: W, events: Mask)
    | DoInvalidate(fd: int)
    | DoBegin(answer: Answer)
    | DoVisit(i: nat)
    | DoEnd

  ghost predicate Legal<W>(s: LoopState<W>, op: Op<W>) {
    match op
    case DoTrack(w, _) => w !in s.io
    case DoForget(w) => w in s.io && !s.Registered(w)
    case DoStart(w, events) => CanStart(s, w, events)
    case DoStop(w, events) => CanStop(s, w, events)
    case DoInvalidate(fd) => fd >= 0 && s.WatcherOf(fd) == None
    case DoBegin(_) => !s.iterating && QueueTracked(s)
    case DoVisit(i) => s.iterating && i < |s.slots|
    case DoEnd => s.iterating
  }

  ghost function Apply<W>(s: LoopState<W>, op: Op<W>): LoopState<W>
    requires Legal(s, op)
  {
    match op
    case DoTrack(w, fd) => Track(s, w, fd)
    case DoForget(w) => Forget(s, w)
    case DoStart(w, events) => Start(s, w, events)
    case DoStop(w, events) => Stop(s, w, events)
    case DoInvalidate(fd) => Invalidate(s, fd)
    case DoBegin(answer) => Begin(s, answer)
    case DoVisit(i) => Visit(s, i)
    case DoEnd => s.(iterating := false)
  }

  /** The state after a list of requests, of which those that are not legal at their turn are not made. */
  ghost function Run<W>(s: LoopState<W>, ops: seq<Op<W>>): LoopState<W>
    decreases |ops|
  {
    if ops == [] then s else Run(if Legal(s, ops[0]) then Apply(s, ops[0]) else s, ops[1..])
  }

  lemma ApplyKeepsInv<W>(s: LoopState<W>, op: Op<W>)
    requires Inv(s) && Legal(s, op)
    ensures Inv(Apply(s, op))
  {
    match op
    case DoTrack(w, fd) => TrackKeepsInv(s, w, fd);
    case DoForget(w) => ForgetKeepsInv(s, w);
    case DoStart(w, events) => StartKeepsInv(s, w, events);
    case DoStop(w, events) => StopKeepsInv(s, w, events);
    case DoInvalidate(fd) => InvalidateKeepsInv(s, fd);
    case DoBegin(answer) => BeginKeepsInv(s, answer);
    case DoVisit(i) => VisitKeepsInv(s, i);
    case DoEnd => SlotFieldsFrame(s, s.(iterating := false));
  }

  lemma {:induction false} RunKeepsInv<W>(s: LoopState<W>, ops: seq<Op<W>>)
    requires Inv(s)
    ensures Inv(Run(s, ops))
    decreases |ops|
  {
    if ops != [] {
      if Legal(s, ops[0]) { ApplyKeepsInv(s, ops[0]); }
      RunKeepsInv(if Legal(s, ops[0]) then Apply(s, ops[0]) else s, ops[1..]);
    }
  }

  lemma InitInv<W>()
    ensures Inv(EmptyLoop<W>())
  {
    assert 0 + 2 == Pow2(1);
  }

  // ---------- what the invariant gives ----------

  ghost predicate ExactlyOneSlot(slots: seq<PollFd>, fd: int, events: Mask) {
    exists i :: 0 <= i < |slots| && slots[i].fd == fd && slots[i].events == events
                && forall j :: 0 <= j < |slots| && j != i ==> slots[j].fd != fd
  }

  lemma EachWatcherHasSlot<W>(s: LoopState<W>, w: W)
    requires Inv(s) && !s.iterating && w in s.io && s.Registered(w)
    ensures QueueTracked(s) && s.nfds > 0
    ensures ExactlyOneSlot(Flush(s).slots, s.io[w].fd, s.io[w].pevents)
  {
    CountPositive(s.watchers, s.io[w].fd);
    FlushKeepsInv(s);
    var f := Flush(s);
    assert f.Registered(w);
    var i :| 0 <= i < |f.slots| && f.slots[i].fd == f.io[w].fd && f.slots[i].events == f.io[w].pevents;
    forall j | 0 <= j < |f.slots| && j != i ensures f.slots[j].fd != f.io[w].fd {
      if j < i { assert f.slots[j].fd >= 0 ==> f.slots[j].fd != f.slots[i].fd; }
    }
  }

  /** After any history, the array that poll is called with has for every registered watcher exactly
      one slot, with its descriptor and its pending mask. */
  lemma PollSeesEveryWatcher<W>(ops: seq<Op<W>>, s: LoopState<W>, w: W)
    requires s == Run(EmptyLoop(), ops) && !s.iterating && w in s.io && s.Registered(w)
    ensures QueueTracked(s) && s.nfds > 0
    ensures ExactlyOneSlot(Flush(s).slots, s.io[w].fd, s.io[w].pevents)
  {
    InitInv<W>();
    RunKeepsInv(EmptyLoop(), ops);
    EachWatcherHasSlot(s, w);
  }

  /** After any history every assertion inside stop and poll holds: an idle loop has nothing pending, whoever
      is pending has a mask and an entry, slots name entries or nobody, and a taken entry has been counted. */
  lemma AssertionsHold<W>(ops: seq<Op<W>>, s: LoopState<W>)
    requires s == Run(EmptyLoop(), ops)
    ensures s.nfds == 0 ==> s.queue == []
    ensures forall w :: w in s.queue ==> w in s.io && s.io[w].pevents != NONE && 0 <= s.io[w].fd < |s.watchers|
    ensures forall i :: 0 <= i < |s.slots| ==> s.slots[i].fd == -1 || 0 <= s.slots[i].fd < |s.watchers|
    ensures forall fd :: 0 <= fd < |s.watchers| && s.watchers[fd].Some? ==> s.nfds > 0
    ensures s.nfds == Count(s.watchers)
  {
    InitInv<W>();
    RunKeepsInv(EmptyLoop(), ops);
    hide Run;
    IdleMeansEmpty(s);
    forall fd | 0 <= fd < |s.watchers| && s.watchers[fd].Some? ensures s.nfds > 0 {
      CountPositive(s.watchers, fd);
    }
  }

  /** After any history the poll array has been grown economically: what reallocation has copied in all is
      less than what the array can hold. */
  lemma GrowthIsAmortised<W>(ops: seq<Op<W>>, s: LoopState<W>)
    requires s == Run(EmptyLoop(), ops)
    ensures s.capacity == 0 || exists k: nat :: s.capacity == 64 * Pow2(k)
    ensures |s.slots| <= s.peak <= s.capacity && (s.capacity > 64 ==> s.capacity <= 2 * s.peak)
    ensures s.capacity == 0 ==> s.moved == 0
    ensures s.capacity > 0 ==> s.moved == s.capacity - 64
  {
    hide Run, TableOk, RegistryOk, QueueOk, CoverOk, SlotsOk;
    InitInv<W>();
    RunKeepsInv(EmptyLoop(), ops);
    assert GrowthOk(s);
    if s.capacity != 0 {
      var k: nat :| s.capacity == 64 * Pow2(k);
      assert s.capacity == 64 * Pow2(k);
    }
  }

  /** A slot either keeps its descriptor and mask or is invalidated. */
  ghost predicate SameShape(s: seq<PollFd>, t: seq<PollFd>) {
    |s| == |t| && forall i :: 0 <= i < |s| ==>
      t[i].fd == -1 || (t[i].fd == s[i].fd && t[i].events == s[i].events)
  }

  lemma ApplyIsStable<W>(s: LoopState<W>, op: Op<W>)
    requires s.iterating && Legal(s, op) && !op.DoEnd?
    ensures Apply(s, op).iterating && SameShape(s.slots, Apply(s, op).slots)
    ensures Apply(s, op).capacity == s.capacity
  {
  }

  /** While a dispatch pass is on, no operation of any callback moves a slot or adds one. */
  lemma {:induction false} PassIsStable<W>(s: LoopState<W>, ops: seq<Op<W>>)
    requires s.iterating && DoEnd !in ops
    ensures Run(s, ops).iterating && SameShape(s.slots, Run(s, ops).slots)
    ensures Run(s, ops).capacity == s.capacity
    decreases |ops|
  {
    if ops != [] {
      if Legal(s, ops[0]) { ApplyIsStable(s, ops[0]); }
      var t := if Legal(s, ops[0]) then Apply(s, ops[0]) else s;
      PassIsStable(t, ops[1..]);
    }
  }

  lemma TableNames<W>(s: LoopState<W>, fd: int, w: W)
    requires RegistryOk(s)
    ensures s.WatcherOf(fd) == Some(w) <==> w in s.io && s.Registered(w) && s.io[w].fd == fd
  {
  }

  /** A visit calls w back with mask m exactly when w is registered for the slot's descriptor at that instant, m
      has each of the two input and output bits that is reported and that w asked for, each of the two error
      bits that is reported, asked for or not, and nothing else, and at least one bit is set. */
  lemma DeliveryExact<W>(s: LoopState<W>, i: nat, w: W, m: Mask)
    requires Inv(s) && i < |s.slots|
    ensures Target(s, i) == Some((w, m)) <==>
      && w in s.io && s.Registered(w) && s.io[w].fd == s.slots[i].fd
      && (m.pollin <==> s.slots[i].revents.pollin && s.io[w].pevents.pollin)
      && (m.pollout <==> s.slots[i].revents.pollout && s.io[w].pevents.pollout)
      && (m.pollerr <==> s.slots[i].revents.pollerr) && (m.pollhup <==> s.slots[i].revents.pollhup) && !m.other
      && (m.pollin || m.pollout || m.pollerr || m.pollhup)
  {
    TableNames(s, s.slots[i].fd, w);
  }

  /** A slot whose watcher is gone is invalidated when the pass reaches it. */
  lemma StaleSlotInvalidated<W>(s: LoopState<W>, i: nat)
    requires Inv(s) && s.iterating && i < |s.slots|
    requires s.slots[i].fd != -1 && s.WatcherOf(s.slots[i].fd) == None
    ensures Visit(s, i).slots == s.slots[i := CLEARED]
  {
    assert forall j :: 0 <= j < |s.slots| && j != i ==> s.slots[j].fd != s.slots[i].fd by {
      forall j | 0 <= j < |s.slots| && j != i ensures s.slots[j].fd != s.slots[i].fd {
        if j < i { assert s.slots[j].fd >= 0 ==> s.slots[j].fd != s.slots[i].fd; }
      }
    }
  }
}

/** The life of a connection, from accept to free, as a state machine over the poll loop, the queue of
    running JavaScript contexts, the allocator and the connection counter. */
module ServerModel {
  import opened PollSlots
  import opened LoopModel
  import opened Wrappers
  import opened Ring
  import opened RunQueue

  const MAX_CONNECTIONS := 12

  /** Where the server task is: before a poll, in a dispatch pass at a slot, draining the run queue,
      or past its loop. */
  datatype Phase = Top | Pass(i: nat) | Draining | Halted

  /** Connections are named by their watchers. `live` holds those allocated and not yet freed,
      `initialized` those with a JavaScript context, `completed` those whose response is complete.
      `accepted` and `closed` record the descriptors of every accept and close so far, and `log` what was done
      to connections. */
  datatype Server<W> = Server(
    loop: LoopState<W>,
    listener: W,
    hasHandler: bool,
    live: set<W>,
    initialized: set<W>,
    completed: set<W>,
    runQueue: seq<W>,
    numConns: int,
    accepted: multiset<int>,
    closed: multiset<int>,
    log: seq<Action<W>>,
    phase: Phase)
  {
    /** Receiving: registered with the loop and without a context. */
    ghost predicate Reading(c: W) {
      loop.Registered(c) && c !in initialized && c !in runQueue
    }

    /** Its handler runs: no longer registered, on the run queue. */
    ghost predicate Running(c: W) {
      !loop.Registered(c) && c in initialized && c in runQueue
    }
  }

  // ---------- what the environment decides ----------

  /** The outcome of one run of the parser. A message can complete at most once, and an error can follow;
      `notFound` is the answer of the test on the path, and `completes` says whether the handler calls the
      response callback while it is evaluated. */
  datatype Parse = NeedMore | Malformed | Complete(notFound: bool, completes: bool, thenMalformed: bool)

  datatype Recv = WouldBlock | Gone | TooLarge | Data(parse: Parse)

  const MAX_REQUEST_LEN := 16 + 256 + 16 * (64 + 512) + 512

  /** The branches that the result of recv selects; recvd is what was received before. */
  function Received(recvd: int, len: int, parse: Parse): Recv {
    if len == -2 then WouldBlock
    else if len <= 0 then Gone
    else if recvd + len > MAX_REQUEST_LEN then TooLarge
    else Data(parse)
  }

  /** accept fails, or yields a descriptor, for which allocation succeeds or not. */
  datatype Accept<W> = Refused | Accepted(fd: int, conn: Option<W>)

  // ---------- the functions of the server ----------

  /** `isere_tcp_close`. */
  ghost function Close<W>(s: Server<W>, fd: int): Server<W> {
    s.(numConns := s.numConns - 1, closed := s.closed + multiset{fd})
  }

  /** `isere_tcp_accept`, when it returns fd. */
  ghost function TakeFd<W>(s: Server<W>, fd: int): Server<W> {
    s.(numConns := s.numConns + 1, accepted := s.accepted + multiset{fd})
  }

  ghost function Note<W>(s: Server<W>, a: Action<W>): Server<W> {
    s.(log := s.log + [a])
  }

  ghost function Cleanup<W>(s: Server<W>, c: W): Server<W>
    requires c in s.loop.io && s.loop.io[c].fd >= -1
  {
    var t := if c in s.initialized
             then s.(runQueue := Without(s.runQueue, c), initialized := s.initialized - {c}) else s;
    var u := Close(t.(loop := Stop(t.loop, c, POLLIN)), t.loop.io[c].fd);
    u.(live := u.live - {c}, completed := u.completed - {c}, loop := Forget(u.loop, c), log := u.log + [Free(c)])
  }

  /** A cleanup of c, whose descriptor is fd. On memory that was given up before, of which we assume that it
      still holds what it held, only the close has an effect: there is no context, and the watcher is
      neither registered nor pending. */
  ghost function CleanupAnyway<W>(s: Server<W>, c: W, fd: int): Server<W>
    requires c in s.loop.io ==> s.loop.io[c].fd >= -1
  {
    if c in s.loop.io then Cleanup(s, c) else Note(Close(s, fd), Free(c))
  }

  ghost function OnMessageComplete<W>(s: Server<W>, c: W, notFound: bool, completes: bool): Server<W>
    requires c in s.loop.io && s.loop.io[c].fd >= -1
  {
    var t := s.(loop := Stop(s.loop, c, POLLIN));
    if notFound then Cleanup(Note(t, Reply(c, NOT_FOUND)), c)
    else if !s.hasHandler then Cleanup(Note(t, Reply(c, OK)), c)
    else Enqueue(t, c, completes)
  }

  const OK := 200
  const NOT_FOUND := 404
  const TOO_LARGE := 413

  /** The outcome for which a connection is freed by the message and then, for the error, once more. */
  predicate FreedTwice(hasHandler: bool, recv: Recv) {
    recv.Data? && recv.parse.Complete? && recv.parse.thenMalformed && (recv.parse.notFound || !hasHandler)
  }

  ghost function OnPoll<W>(s: Server<W>, c: W, events: Mask, recv: Recv): Server<W>
    requires c in s.loop.io && s.loop.io[c].fd >= -1
  {
    if !events.pollin then s
    else match recv
      case WouldBlock => s
      case Gone => Cleanup(s, c)
      case TooLarge => Cleanup(Note(s, Reply(c, TOO_LARGE)), c)
      case Data(NeedMore) => s
      case Data(Malformed) => Cleanup(s, c)
      case Data(Complete(notFound, completes, thenMalformed)) =>
        var t := OnMessageComplete(s, c, notFound, completes);
        if thenMalformed then CleanupAnyway(t, c, s.loop.io[c].fd) else t
  }

  ghost function OnConnected<W>(s: Server<W>, events: Mask, accept: Accept<W>): Server<W>
    requires accept.Accepted? ==> accept.fd >= 0
  {
    if !events.pollin || s.numConns >= MAX_CONNECTIONS then s
    else match accept
      case Refused => s
      case Accepted(fd, conn) =>
        var t := TakeFd(s, fd);
        match conn
        case None => Close(t, fd)
        case Some(c) =>
          t.(live := t.live + {c}, loop := Start(Track(t.loop, c, fd), c, POLLIN))
  }

  /** The queue without its head, and the head's response complete if the poll completed it. */
  ghost function Pop<W>(s: Server<W>, t: Tick): Server<W>
    requires s.runQueue != []
  {
    s.(runQueue := s.runQueue[1..], completed := if t.completes then s.completed + {s.runQueue[0]} else s.completed,
       log := s.log + [Poll(s.runQueue[0])])
  }

  /** One round of the drain loop. */
  ghost function DrainOne<W>(s: Server<W>, t: Tick): Server<W>
    requires s.runQueue != [] && s.runQueue[0] in s.loop.io && s.loop.io[s.runQueue[0]].fd >= -1
  {
    var c := s.runQueue[0];
    if s.loop.io[c].fd == -1 then s.(runQueue := s.runQueue[1..])
    else
      var v := Pop(s, t);
      match Decide(c in s.completed, JsPoll(t))
      case Requeue => v.(runQueue := v.runQueue + [c])
      case WriteBack => Cleanup(Note(v, Write(c)), c)
      case Abandon => Cleanup(v, c)
  }

  // ---------- steps and runs ----------

  datatype Event<W> =
    | DoPoll(answer: Answer)
    | Visited(recv: Recv, accept: Accept<W>)
    | DoDrain(tick: Tick)
    | Exit

  /** The visit of a connection that is freed twice. */
  ghost predicate VisitFreesTwice<W>(s: Server<W>, e: Event<W>) {
    && s.phase.Pass? && e.Visited? && s.phase.i < |s.loop.slots|
    && var target := Target(s.loop, s.phase.i);
       target.Some? && target.value.0 != s.listener && target.value.1.pollin && FreedTwice(s.hasHandler, e.recv)
  }

  /** Runs are of events that the outside can bring about and that free no connection twice. */
  ghost predicate Possible<W>(s: Server<W>, e: Event<W>) {
    Feasible(s, e) && !VisitFreesTwice(s, e)
  }

  ghost predicate Feasible<W>(s: Server<W>, e: Event<W>) {
    match s.phase
    case Top => e.DoPoll? || e.Exit?
    case Pass(i) => e.Visited? && PossibleAccept(s, e.accept)
    case Draining => e.DoDrain?
    case Halted => false
  }

  /** accept never returns a descriptor that is open, nor the allocator memory that is in use. */
  ghost predicate PossibleAccept<W>(s: Server<W>, a: Accept<W>) {
    a.Accepted? ==>
      && 0 <= a.fd <= MAX_FD && (forall w :: w in s.loop.io ==> s.loop.io[w].fd != a.fd)
      && (a.conn.Some? ==> a.conn.value !in s.loop.io)
  }

  ghost function VisitOne<W>(s: Server<W>, i: nat, recv: Recv, accept: Accept<W>): Server<W>
    requires i < |s.loop.slots| && Inv(s.loop) && PossibleAccept(s, accept)
    requires forall w :: w in s.loop.io ==> s.loop.io[w].fd >= -1
  {
    var target := Target(s.loop, i);
    var t := s.(loop := Visit(s.loop, i));
    if target.None? then t
    else
      var (w, m) := target.value;
      assert t.loop.io == s.loop.io && w in s.loop.io;
      if w == s.listener then OnConnected(t, m, accept) else OnPoll(t, w, m, recv)
  }

  /** What each step does. A visit past the last slot ends the pass; a drain step on the empty queue
      ends the drain. */
  ghost function Next<W>(s: Server<W>, e: Event<W>): Server<W>
    requires ServerInv(s) && Feasible(s, e)
  {
    match s.phase
    case Top =>
      if e.Exit? then s.(loop := Stop(s.loop, s.listener, POLLIN), phase := Halted)
      else
        var l := Begin(s.loop, e.answer);
        s.(loop := l, phase := if l.iterating then Pass(0) else Draining)
    case Pass(i) =>
      if i < |s.loop.slots| then VisitOne(s, i, e.recv, e.accept).(phase := Pass(i + 1))
      else s.(loop := s.loop.(iterating := false), phase := Draining)
    case Draining =>
      if s.runQueue == [] then s.(phase := Top)
      else
        assert s.runQueue[0] in s.runQueue;
        DrainOne(s, e.tick)
    case Halted => s
  }

  // ---------- the invariant ----------

  ghost function OpenFds<W>(s: Server<W>): set<int> {
    set c | c in s.live && c in s.loop.io :: s.loop.io[c].fd
  }

  /** The loop knows the listener and the live connections; each has a descriptor of its own. */
  ghost predicate FdsOk<W>(s: Server<W>) {
    && s.loop.io.Keys == s.live + {s.listener} && s.listener !in s.live
    && (forall w :: w in s.loop.io ==> 0 <= s.loop.io[w].fd <= MAX_FD && s.loop.io[w].pevents in {NONE, POLLIN})
    && (forall v, w :: v in s.loop.io && w in s.loop.io && s.loop.io[v].fd == s.loop.io[w].fd ==> v == w)
  }

  ghost predicate PhaseOk<W>(s: Server<W>, c: W) {
    (c in s.runQueue <==> c in s.initialized) && (s.loop.Registered(c) <==> c !in s.initialized)
  }

  /** Every connection other than x is in one phase. */
  ghost predicate PhasesBut<W>(s: Server<W>, x: W) {
    && Distinct(s.runQueue) && (forall c :: c in s.runQueue ==> c in s.live)
    && s.initialized <= s.live && s.completed <= s.live
    && (!s.hasHandler ==> s.initialized <= {x})
    && (forall c :: c in s.live && c != x ==> PhaseOk(s, c))
  }

  ghost predicate PhasesOk<W>(s: Server<W>) {
    PhasesBut(s, s.listener)
  }

  ghost predicate CountOk<W>(s: Server<W>) {
    s.numConns == |s.live| <= MAX_CONNECTIONS && s.accepted == s.closed + multiset(OpenFds(s))
  }

  ghost predicate PassOk<W>(s: Server<W>) {
    && (s.phase.Pass? <==> s.loop.iterating)
    && (s.phase.Pass? ==> s.phase.i <= |s.loop.slots|)
    && (s.phase.Top? || s.phase.Halted? ==> s.runQueue == [])
    && (!s.phase.Halted? ==> s.loop.Registered(s.listener))
  }

  ghost predicate ServerInv<W>(s: Server<W>) {
    Inv(s.loop) && FdsOk(s) && PhasesOk(s) && CountOk(s) && PassOk(s)
  }

  // ---------- each function keeps it ----------

  /** Stopping a connection unregisters it and touches no other watcher and no slot. */
  lemma StopConn<W>(l: LoopState<W>, c: W)
    requires Inv(l) && c in l.io && l.io[c].fd >= 0 && l.io[c].pevents in {NONE, POLLIN}
    ensures var r := Stop(l, c, POLLIN);
      && Inv(r) && r.io.Keys == l.io.Keys && c !in r.queue && r.io[c].pevents == NONE && r.io[c].fd == l.io[c].fd
      && (forall v :: v in l.io && v != c ==> r.io[v] == l.io[v])
      && r.slots == l.slots && r.iterating == l.iterating
  {
    hide TableOk, RegistryOk, CoverOk, SlotsOk, GrowthOk, Without, IndexOf;
    StopKeepsInv(l, c, POLLIN);
    var r := Stop(l, c, POLLIN);
    assert CanStop(l, c, POLLIN);
    if l.Registered(c) { RegisteredInTable(l, c); }
  }

  lemma RegisteredInTable<W>(l: LoopState<W>, c: W)
    requires Inv(l) && c in l.io && l.Registered(c)
    ensures 0 <= l.io[c].fd < |l.watchers|
  {
  }

  /** A cleanup is called for a live connection; its context, if it has one, may be queued or not. */
  ghost predicate CanCleanup<W>(s: Server<W>, c: W) {
    && Inv(s.loop) && FdsOk(s) && PhasesBut(s, c) && c in s.live
    && (c in s.runQueue ==> c in s.initialized)
  }

  /** The log matters to nothing. */
  lemma NoteKeeps<W>(s: Server<W>, a: Action<W>, c: W)
    ensures var t := Note(s, a);
      && (CanCleanup(s, c) ==> CanCleanup(t, c)) && (CountOk(s) ==> CountOk(t)) && (Settled(s) ==> Settled(t))
      && SamePass(s, t)
  {
    hide Inv, Distinct;
    var t := Note(s, a);
    assert OpenFds(t) == OpenFds(s);
    assert forall d :: d in s.live && PhaseOk(s, d) ==> PhaseOk(t, d);
  }

  /** What it does to everything but that connection. */
  lemma CleanupParts<W>(s: Server<W>, c: W)
    requires CanCleanup(s, c)
    ensures c in s.loop.io && s.loop.io[c].fd >= 0
    ensures var t := Cleanup(s, c); var fd := s.loop.io[c].fd;
      && Inv(t.loop) && t.loop.io.Keys == s.loop.io.Keys - {c}
      && (forall v :: v in t.loop.io ==> t.loop.io[v] == s.loop.io[v])
      && t.loop.slots == s.loop.slots && t.loop.iterating == s.loop.iterating
      && t.live == s.live - {c} && t.initialized == s.initialized - {c} && t.completed == s.completed - {c}
      && t.runQueue == Without(s.runQueue, c)
      && t.numConns == s.numConns - 1 && t.closed == s.closed + multiset{fd}
      && t.accepted == s.accepted && t.listener == s.listener && t.hasHandler == s.hasHandler && t.phase == s.phase
      && t.log == s.log + [Free(c)]
  {
    hide TableOk, RegistryOk, QueueOk, CoverOk, SlotsOk, GrowthOk, Inv, Stop, Distinct, IndexOf;
    StopConn(s.loop, c);
    ForgetKeepsInv(Stop(s.loop, c, POLLIN), c);
  }

  lemma CleanupKeepsFds<W>(s: Server<W>, c: W)
    requires CanCleanup(s, c)
    ensures FdsOk(Cleanup(s, c))
    ensures Cleanup(s, c).loop.Registered(s.listener) <==> s.loop.Registered(s.listener)
  {
    hide Inv, Cleanup, Without, PhasesBut;
    CleanupParts(s, c);
  }

  lemma CleanupKeepsPhases<W>(s: Server<W>, c: W)
    requires CanCleanup(s, c)
    ensures PhasesOk(Cleanup(s, c))
  {
    hide Inv, Cleanup, Without, Distinct;
    CleanupParts(s, c);
    if Distinct(s.runQueue) { DistinctWithout(s.runQueue, c); }
    var t := Cleanup(s, c);
    forall d | d in t.live ensures PhaseOk(t, d) {
      assert PhaseOk(s, d);
    }
  }

  lemma MultisetOfSet<T>(a: set<T>, x: T)
    ensures x in a ==> multiset(a) == multiset(a - {x}) + multiset{x}
    ensures x !in a ==> multiset(a + {x}) == multiset(a) + multiset{x}
  {
  }

  lemma CleanupFreesFd<W>(s: Server<W>, c: W)
    requires CanCleanup(s, c)
    ensures c in s.loop.io && s.loop.io[c].fd in OpenFds(s) && OpenFds(Cleanup(s, c)) == OpenFds(s) - {s.loop.io[c].fd}
  {
    hide Inv, Cleanup, Without, PhasesBut;
    CleanupParts(s, c);
  }

  lemma CleanupKeepsCount<W>(s: Server<W>, c: W)
    requires CanCleanup(s, c) && CountOk(s)
    ensures CountOk(Cleanup(s, c))
  {
    hide CanCleanup, Cleanup, Without, OpenFds;
    CleanupFreesFd(s, c);
    CleanupParts(s, c);
    MultisetOfSet(OpenFds(s), s.loop.io[c].fd);
    assert c in s.live by { LiveOfCanCleanup(s, c); }
  }

  lemma LiveOfCanCleanup<W>(s: Server<W>, c: W)
    requires CanCleanup(s, c)
    ensures c in s.live
  {
  }

  ghost predicate Settled<W>(s: Server<W>) {
    Inv(s.loop) && FdsOk(s) && PhasesOk(s) && CountOk(s)
  }

  /** The same poll array and phase, and the listener as much registered as before. */
  ghost predicate SamePass<W>(s: Server<W>, t: Server<W>) {
    && |t.loop.slots| == |s.loop.slots| && t.loop.iterating == s.loop.iterating && t.phase == s.phase
    && t.listener == s.listener && (t.loop.Registered(t.listener) <==> s.loop.Registered(s.listener))
  }

  lemma CleanupKeeps<W>(s: Server<W>, c: W)
    requires CanCleanup(s, c) && CountOk(s)
    ensures var t := Cleanup(s, c);
      Settled(t) && SamePass(s, t) && t.runQueue == Without(s.runQueue, c) && c !in t.loop.io
  {
    hide Inv, Cleanup, Without, FdsOk, PhasesOk, PhasesBut, CountOk;
    CleanupParts(s, c);
    CleanupKeepsFds(s, c);
    CleanupKeepsPhases(s, c);
    CleanupKeepsCount(s, c);
  }

  lemma SettledCanCleanup<W>(s: Server<W>, c: W)
    requires Settled(s) && c in s.live
    ensures CanCleanup(s, c)
  {
    hide Inv, CountOk, Distinct;
    assert PhaseOk(s, c);
  }

  /** With the same connections at the same descriptors, the bookkeeping of descriptors stays right. */
  lemma SameFds<W>(s: Server<W>, t: Server<W>)
    requires FdsOk(s) && CountOk(s) && t.live == s.live && t.listener == s.listener && t.loop.io.Keys == s.loop.io.Keys
    requires forall w :: w in s.loop.io ==> t.loop.io[w].fd == s.loop.io[w].fd && t.loop.io[w].pevents in {NONE, POLLIN}
    requires t.numConns == s.numConns && t.accepted == s.accepted && t.closed == s.closed
    ensures FdsOk(t) && CountOk(t)
  {
    assert OpenFds(t) == OpenFds(s);
  }

  lemma StoppedCanCleanup<W>(s: Server<W>, c: W)
    requires Settled(s) && c in s.live && c !in s.initialized
    ensures c in s.loop.io && s.loop.io[c].fd >= 0
    ensures var t := s.(loop := Stop(s.loop, c, POLLIN));
      && CanCleanup(t, c) && CountOk(t) && SamePass(s, t) && c !in t.runQueue && !t.loop.Registered(c)
  {
    hide Inv, Stop, CountOk, FdsOk, PhasesOk, PhasesBut;
    LiveTracked(s);
    StopConn(s.loop, c);
    var l := Stop(s.loop, c, POLLIN);
    SameFds(s, s.(loop := l));
    StoppedPhases(s, c, l);
  }

  lemma StoppedPhases<W>(s: Server<W>, c: W, l: LoopState<W>)
    requires PhasesOk(s) && c in s.live && c !in s.initialized && s.listener !in s.live && s.live <= s.loop.io.Keys
    requires l.io.Keys == s.loop.io.Keys && forall v :: v in s.loop.io && v != c ==> l.io[v] == s.loop.io[v]
    ensures PhasesBut(s.(loop := l), c) && c !in s.runQueue
  {
    hide Distinct;
    var t := s.(loop := l);
    assert PhaseOk(s, c);
    forall d | d in t.live && d != c ensures PhaseOk(t, d) { assert PhaseOk(s, d); }
  }

  ghost function Enqueue<W>(t: Server<W>, c: W, completes: bool): Server<W> {
    t.(initialized := t.initialized + {c}, runQueue := t.runQueue + [c],
       completed := if completes then t.completed + {c} else t.completed)
  }

  lemma DistinctAppend<T>(q: seq<T>, x: T)
    requires Distinct(q) && x !in q
    ensures Distinct(q + [x])
  {
  }

  lemma EnqueueKeepsPhases<W>(t: Server<W>, c: W, completes: bool)
    requires PhasesBut(t, c) && c in t.live && t.hasHandler && c !in t.runQueue && !t.loop.Registered(c)
    ensures PhasesOk(Enqueue(t, c, completes)) && Enqueue(t, c, completes).Running(c)
  {
    hide Distinct;
    DistinctAppend(t.runQueue, c);
    var u := Enqueue(t, c, completes);
    forall d | d in u.live ensures PhaseOk(u, d) {
      if d != c { assert PhaseOk(t, d); }
    }
  }

  lemma EnqueueKeeps<W>(t: Server<W>, c: W, completes: bool)
    requires CanCleanup(t, c) && CountOk(t) && t.hasHandler && c !in t.runQueue && !t.loop.Registered(c)
    ensures var u := Enqueue(t, c, completes); Settled(u) && SamePass(t, u) && u.Running(c)
  {
    hide Inv, CountOk, PhasesBut;
    EnqueueKeepsPhases(t, c, completes);
    SameFds(t, Enqueue(t, c, completes));
  }

  /** Completing a message ends the reading phase: the connection is freed, or it runs. */
  lemma OnMessageCompleteKeeps<W>(s: Server<W>, c: W, notFound: bool, completes: bool)
    requires Settled(s) && c in s.live && c !in s.initialized
    ensures c in s.loop.io && s.loop.io[c].fd >= 0
    ensures var t := OnMessageComplete(s, c, notFound, completes);
      && Settled(t) && SamePass(s, t)
      && (if notFound || !s.hasHandler then c !in t.loop.io else c in t.live && t.Running(c))
  {
    hide Inv, FdsOk, PhasesBut, PhasesOk, CountOk, Settled, CanCleanup, Cleanup, Stop, Distinct;
    StoppedCanCleanup(s, c);
    var t := s.(loop := Stop(s.loop, c, POLLIN));
    if notFound || !s.hasHandler {
      var a := Reply(c, if notFound then NOT_FOUND else OK);
      NoteKeeps(t, a, c);
      CleanupKeeps(Note(t, a), c);
    } else {
      EnqueueKeeps(t, c, completes);
    }
  }

  /** An error after a complete message: the cleanup is of a live connection, unless the message freed it. */
  lemma ThenMalformedKeeps<W>(s: Server<W>, c: W, notFound: bool, completes: bool)
    requires Settled(s) && c in s.live && c !in s.initialized && !notFound && s.hasHandler
    ensures c in s.loop.io && s.loop.io[c].fd >= 0
    ensures var t := OnMessageComplete(s, c, notFound, completes);
      && c in t.loop.io && t.loop.io[c].fd >= 0 && CanCleanup(t, c) && CountOk(t)
      && Settled(Cleanup(t, c)) && SamePass(s, Cleanup(t, c))
  {
    hide Inv, FdsOk, PhasesBut, PhasesOk, CountOk, Settled, CanCleanup, Cleanup, OnMessageComplete;
    OnMessageCompleteKeeps(s, c, notFound, completes);
    var t := OnMessageComplete(s, c, notFound, completes);
    SettledCanCleanup(t, c);
    SettledParts(t);
    CleanupKeeps(t, c);
    CleanupParts(t, c);
  }

  /** Every outcome of receive and parser keeps the server settled, but for the one that frees twice. */
  lemma OnPollKeeps<W>(s: Server<W>, c: W, events: Mask, recv: Recv)
    requires Settled(s) && c in s.live && c !in s.initialized && !(events.pollin && FreedTwice(s.hasHandler, recv))
    ensures c in s.loop.io && s.loop.io[c].fd >= 0
    ensures Settled(OnPoll(s, c, events, recv)) && SamePass(s, OnPoll(s, c, events, recv))
  {
    hide Inv, FdsOk, PhasesBut, PhasesOk, CountOk, Settled, CanCleanup, Cleanup, OnMessageComplete;
    ReadingCanCleanup(s, c);
    NoteKeeps(s, Reply(c, TOO_LARGE), c);
    ReadingCanCleanup(Note(s, Reply(c, TOO_LARGE)), c);
    if events.pollin && recv.Data? && recv.parse.Complete? {
      hide SamePass;
      OnMessageCompleteKeeps(s, c, recv.parse.notFound, recv.parse.completes);
      if recv.parse.thenMalformed {
        ThenMalformedKeeps(s, c, recv.parse.notFound, recv.parse.completes);
      }
    }
  }

  lemma ReadingCanCleanup<W>(s: Server<W>, c: W)
    requires Settled(s) && c in s.live
    ensures c in s.loop.io && s.loop.io[c].fd >= 0
    ensures Settled(Cleanup(s, c)) && SamePass(s, Cleanup(s, c))
  {
    hide Inv, FdsOk, PhasesBut, PhasesOk, CountOk, CanCleanup, Cleanup;
    SettledCanCleanup(s, c);
    CleanupParts(s, c);
    SettledParts(s);
    CleanupKeeps(s, c);
  }

  /** And for that one it never does: the descriptor is closed twice and the counter misses a connection. */
  lemma OnPollExact<W>(s: Server<W>, c: W, events: Mask, recv: Recv)
    requires Settled(s) && c in s.live && c !in s.initialized
    ensures c in s.loop.io && s.loop.io[c].fd >= 0
    ensures Settled(OnPoll(s, c, events, recv)) <==> !(events.pollin && FreedTwice(s.hasHandler, recv))
    ensures recv.Data? && recv.parse.Complete? && recv.parse.thenMalformed ==>
      var t := OnMessageComplete(s, c, recv.parse.notFound, recv.parse.completes);
      c in t.live <==> !FreedTwice(s.hasHandler, recv)
    ensures events.pollin && FreedTwice(s.hasHandler, recv) ==>
      var t := OnPoll(s, c, events, recv); var fd := s.loop.io[c].fd;
      c !in t.live && t.numConns == |t.live| - 1 && t.closed[fd] == t.accepted[fd] + 1
  {
    hide Inv, FdsOk, PhasesBut, PhasesOk, CountOk, Settled, CanCleanup, Cleanup, OnMessageComplete, Stop;
    if recv.Data? && recv.parse.Complete? {
      OnMessageCompleteKeeps(s, c, recv.parse.notFound, recv.parse.completes);
      if recv.parse.notFound || !s.hasHandler {
        ClosedTwice(s, c, recv.parse.notFound, recv.parse.completes);
      }
    }
    if events.pollin && FreedTwice(s.hasHandler, recv) {
      var t := OnMessageComplete(s, c, recv.parse.notFound, recv.parse.completes);
      assert OnPoll(s, c, events, recv) == Note(Close(t, s.loop.io[c].fd), Free(c));
      MiscountedIsUnsettled(Note(Close(t, s.loop.io[c].fd), Free(c)));
    } else {
      OnPollKeeps(s, c, events, recv);
    }
  }

  lemma MiscountedIsUnsettled<W>(s: Server<W>)
    requires s.numConns != |s.live|
    ensures !CountOk(s) && !Settled(s)
  {
  }

  lemma NumConnsOf<W>(s: Server<W>)
    requires CountOk(s)
    ensures s.numConns == |s.live| && s.accepted == s.closed + multiset(OpenFds(s))
  {
  }

  /** What a close does after the connection was freed by its message. */
  lemma ClosedTwice<W>(s: Server<W>, c: W, notFound: bool, completes: bool)
    requires Settled(s) && c in s.live && c !in s.initialized && (notFound || !s.hasHandler)
    ensures c in s.loop.io && s.loop.io[c].fd >= 0
    ensures var t := Close(OnMessageComplete(s, c, notFound, completes), s.loop.io[c].fd); var fd := s.loop.io[c].fd;
      c !in t.live && t.numConns == |t.live| - 1 && t.closed[fd] == t.accepted[fd] + 1
  {
    hide Inv, PhasesBut, PhasesOk, CountOk, CanCleanup, Cleanup, Stop, OpenFds;
    StoppedCanCleanup(s, c);
    var l := Stop(s.loop, c, POLLIN);
    StopConn(s.loop, c);
    var u := Note(s.(loop := l), Reply(c, if notFound then NOT_FOUND else OK));
    NoteKeeps(s.(loop := l), Reply(c, if notFound then NOT_FOUND else OK), c);
    CleanupFreesFd(u, c);
    CleanupParts(u, c);
    CleanupKeepsCount(u, c);
    NumConnsOf(u);
    NumConnsOf(Cleanup(u, c));
  }

  lemma SettledParts<W>(s: Server<W>)
    requires Settled(s)
    ensures Inv(s.loop) && FdsOk(s) && PhasesOk(s) && CountOk(s)
  {
  }

  lemma FreeEntry<W>(l: LoopState<W>, fd: int)
    requires RegistryOk(l) && forall w :: w in l.io ==> l.io[w].fd != fd
    ensures l.WatcherOf(fd) == None
  {
    var v := l.WatcherOf(fd);
    if v.Some? { TableNames(l, fd, v.value); }
  }

  lemma NewConnLoop<W>(s: Server<W>, c: W, fd: int)
    requires Inv(s.loop) && PossibleAccept(s, Accepted(fd, Some(c)))
    ensures var t := Track(s.loop, c, fd); var l := Start(t, c, POLLIN);
      && CanStart(t, c, POLLIN) && Inv(l) && l.Registered(c) && l.io.Keys == s.loop.io.Keys + {c}
      && l.io[c] == Io(fd, POLLIN, NONE) && (forall w :: w in s.loop.io ==> l.io[w] == s.loop.io[w])
      && l.slots == s.loop.slots && l.iterating == s.loop.iterating
  {
    hide TableOk, RegistryOk, QueueOk, CoverOk, SlotsOk, GrowthOk, Widen;
    TrackKeepsInv(s.loop, c, fd);
    FreeEntry(s.loop, fd);
    StartKeepsInv(Track(s.loop, c, fd), c, POLLIN);
  }

  ghost function AddConn<W>(s: Server<W>, fd: int, c: W): Server<W>
    requires fd >= 0
  {
    TakeFd(s, fd).(live := s.live + {c}, loop := Start(Track(s.loop, c, fd), c, POLLIN))
  }

  lemma AddConnFds<W>(s: Server<W>, fd: int, c: W)
    requires Settled(s) && PossibleAccept(s, Accepted(fd, Some(c)))
    ensures FdsOk(AddConn(s, fd, c))
    ensures fd !in OpenFds(s) && OpenFds(AddConn(s, fd, c)) == OpenFds(s) + {fd}
  {
    hide Inv, Start, Track, Distinct, PhasesBut, CountOk;
    NewConnLoop(s, c, fd);
    var l := Start(Track(s.loop, c, fd), c, POLLIN);
  }

  lemma AddConnCount<W>(s: Server<W>, fd: int, c: W)
    requires Settled(s) && PossibleAccept(s, Accepted(fd, Some(c))) && s.numConns < MAX_CONNECTIONS
    ensures CountOk(AddConn(s, fd, c))
  {
    hide Inv, Start, Track, OpenFds, PhasesBut, FdsOk;
    AddConnFds(s, fd, c);
    MultisetOfSet(OpenFds(s), fd);
    assert c !in s.live by { LiveTracked(s); }
  }

  lemma LiveTracked<W>(s: Server<W>)
    requires FdsOk(s)
    ensures s.live <= s.loop.io.Keys && s.listener in s.loop.io && s.listener !in s.live
    ensures forall w :: w in s.loop.io ==> s.loop.io[w].fd >= 0 && s.loop.io[w].pevents in {NONE, POLLIN}
  {
  }

  lemma AddConnPhases<W>(s: Server<W>, fd: int, c: W)
    requires Settled(s) && PossibleAccept(s, Accepted(fd, Some(c)))
    ensures PhasesOk(AddConn(s, fd, c)) && AddConn(s, fd, c).Reading(c)
  {
    hide Inv, Start, Track, Distinct, OpenFds, FdsOk, CountOk;
    NewConnLoop(s, c, fd);
    LiveTracked(s);
    var t := AddConn(s, fd, c);
    forall d | d in t.live ensures PhaseOk(t, d) {
      if d != c { assert PhaseOk(s, d); }
    }
  }

  /** A new connection starts out reading. */
  lemma AddConnKeeps<W>(s: Server<W>, fd: int, c: W)
    requires Settled(s) && PossibleAccept(s, Accepted(fd, Some(c))) && s.numConns < MAX_CONNECTIONS
    ensures var t := AddConn(s, fd, c); Settled(t) && SamePass(s, t) && t.Reading(c)
  {
    hide Inv, Start, Track, OpenFds, FdsOk, PhasesOk, PhasesBut, CountOk;
    NewConnLoop(s, c, fd);
    LiveTracked(s);
    AddConnFds(s, fd, c);
    AddConnCount(s, fd, c);
    AddConnPhases(s, fd, c);
  }

  lemma NoMemoryKeeps<W>(s: Server<W>, fd: int)
    requires Settled(s)
    ensures var t := s.(accepted := s.accepted + multiset{fd}, closed := s.closed + multiset{fd});
      Settled(t) && SamePass(s, t)
  {
    hide Inv, FdsOk, PhasesOk, PhasesBut, OpenFds;
    SameOpenFds(s, s.(accepted := s.accepted + multiset{fd}, closed := s.closed + multiset{fd}));
  }

  lemma OnConnectedKeeps<W>(s: Server<W>, events: Mask, accept: Accept<W>)
    requires Settled(s) && PossibleAccept(s, accept)
    ensures Settled(OnConnected(s, events, accept)) && SamePass(s, OnConnected(s, events, accept))
  {
    hide Settled, Start, Track;
    if events.pollin && s.numConns < MAX_CONNECTIONS && accept.Accepted? {
      if accept.conn.Some? { AddConnKeeps(s, accept.fd, accept.conn.value); } else { NoMemoryKeeps(s, accept.fd); }
    }
  }

  lemma SameOpenFds<W>(s: Server<W>, t: Server<W>)
    requires t.live == s.live && t.loop == s.loop && t.listener == s.listener && t.runQueue == s.runQueue
    requires t.initialized == s.initialized && t.completed == s.completed && t.hasHandler == s.hasHandler
    ensures OpenFds(t) == OpenFds(s) && (FdsOk(s) ==> FdsOk(t)) && (PhasesOk(s) ==> PhasesOk(t))
  {
    forall d | d in t.live && PhaseOk(s, d) ensures PhaseOk(t, d) {}
  }

  // ---------- every step, every run ----------

  ghost predicate SameMasks<W>(l: LoopState<W>, r: LoopState<W>) {
    && r.io.Keys == l.io.Keys
    && forall w :: w in l.io ==> r.io[w].fd == l.io[w].fd && r.io[w].pevents == l.io[w].pevents
  }

  /** Replacing the loop by one with the same watchers leaves the server settled. */
  lemma SameWatchers<W>(s: Server<W>, l: LoopState<W>)
    requires Settled(s) && Inv(l) && SameMasks(s.loop, l)
    ensures Settled(s.(loop := l))
  {
    hide Inv, CountOk;
    var t := s.(loop := l);
    SameFds(s, t);
    forall d | d in t.live ensures PhaseOk(t, d) { assert PhaseOk(s, d); }
  }

  lemma PollKeeps<W>(s: Server<W>, answer: Answer)
    requires ServerInv(s) && s.phase.Top?
    ensures QueueTracked(s.loop)
    ensures var l := Begin(s.loop, answer);
      ServerInv(s.(loop := l, phase := if l.iterating then Pass(0) else Draining))
  {
    hide TableOk, RegistryOk, CoverOk, SlotsOk, GrowthOk, FdsOk, PhasesOk, CountOk, Flush;
    BeginKeepsInv(s.loop, answer);
    FlushKeepsInv(s.loop);
    var l := Begin(s.loop, answer);
    SameWatchers(s, l);
    SamePhase(s.(loop := l), s.(loop := l, phase := if l.iterating then Pass(0) else Draining));
    LiveTracked(s);
  }

  /** The phase of the server task does not matter to the connections. */
  lemma SamePhase<W>(s: Server<W>, t: Server<W>)
    requires Settled(s) && t == s.(phase := t.phase)
    ensures Settled(t)
  {
    hide Inv, CountOk;
    LiveTracked(s);
    SameFds(s, t);
    forall d | d in t.live ensures PhaseOk(t, d) { assert PhaseOk(s, d); }
  }

  lemma EndPassKeeps<W>(s: Server<W>)
    requires ServerInv(s) && s.phase.Pass?
    ensures ServerInv(s.(loop := s.loop.(iterating := false), phase := Draining))
  {
    hide TableOk, RegistryOk, QueueOk, CoverOk, SlotsOk, GrowthOk, FdsOk, PhasesOk, CountOk;
    var l := s.loop.(iterating := false);
    SlotFieldsFrame(s.loop, l);
    SameWatchers(s, l);
    SamePhase(s.(loop := l), s.(loop := l, phase := Draining));
  }

  /** A loop in which only the listener has changed its mask leaves the connections as they are. */
  lemma ListenerOnly<W>(s: Server<W>, l: LoopState<W>)
    requires PhasesOk(s) && s.live <= s.loop.io.Keys && l.io.Keys == s.loop.io.Keys && s.listener !in s.live
    requires forall v :: v in s.loop.io && v != s.listener ==> l.io[v] == s.loop.io[v]
    ensures PhasesOk(s.(loop := l))
  {
    hide Distinct;
    var t := s.(loop := l);
    forall d | d in t.live && d != s.listener ensures PhaseOk(t, d) { assert PhaseOk(s, d); }
  }

  lemma ExitKeeps<W>(s: Server<W>)
    requires ServerInv(s) && s.phase.Top?
    ensures s.listener in s.loop.io && s.loop.io[s.listener].fd >= 0
    ensures ServerInv(s.(loop := Stop(s.loop, s.listener, POLLIN), phase := Halted))
  {
    hide Inv, Stop, CountOk, FdsOk, PhasesOk;
    LiveTracked(s);
    StopConn(s.loop, s.listener);
    var l := Stop(s.loop, s.listener, POLLIN);
    var t := s.(loop := l);
    SameFds(s, t);
    ListenerOnly(s, l);
    SamePhase(t, t.(phase := Halted));
  }

  lemma VisitKeepsWatchers<W>(l: LoopState<W>, i: nat)
    requires Inv(l) && l.iterating && i < |l.slots|
    ensures Inv(Visit(l, i)) && Visit(l, i).io == l.io && Visit(l, i).iterating && |Visit(l, i).slots| == |l.slots|
  {
    hide TableOk, RegistryOk, QueueOk, CoverOk, SlotsOk, GrowthOk, Inv;
    VisitKeepsInv(l, i);
  }

  lemma TargetRegistered<W>(l: LoopState<W>, i: nat)
    requires Inv(l) && i < |l.slots| && Target(l, i).Some?
    ensures Target(l, i).value.0 in l.io && l.Registered(Target(l, i).value.0)
  {
    DeliveryExact(l, i, Target(l, i).value.0, Target(l, i).value.1);
  }

  lemma ReadingWhenRegistered<W>(s: Server<W>, c: W)
    requires FdsOk(s) && PhasesOk(s) && c in s.loop.io && c != s.listener && s.loop.Registered(c)
    ensures c in s.live && c !in s.initialized
  {
    assert PhaseOk(s, c);
  }

  lemma VisitOneKeeps<W>(s: Server<W>, i: nat, recv: Recv, accept: Accept<W>)
    requires Settled(s) && s.loop.iterating && i < |s.loop.slots| && PossibleAccept(s, accept)
    requires !VisitFreesTwice(s.(phase := Pass(i)), Visited(recv, accept))
    ensures forall w :: w in s.loop.io ==> s.loop.io[w].fd >= -1
    ensures Settled(VisitOne(s, i, recv, accept)) && SamePass(s, VisitOne(s, i, recv, accept))
  {
    hide Inv, FdsOk, PhasesOk, CountOk, Visit, Target, OnConnected, OnPoll, PhasesBut;
    LiveTracked(s);
    VisitKeepsWatchers(s.loop, i);
    var t := s.(loop := Visit(s.loop, i));
    SameWatchers(s, t.loop);
    SettledParts(t);
    if Target(s.loop, i).Some? {
      TargetRegistered(s.loop, i);
      var (w, m) := Target(s.loop, i).value;
      if w == s.listener {
        OnConnectedKeeps(t, m, accept);
      } else {
        ReadingWhenRegistered(t, w);
        OnPollKeeps(t, w, m, recv);
      }
    }
  }

  lemma PopPhases<W>(s: Server<W>, t: Tick)
    requires PhasesOk(s) && s.listener !in s.live && s.runQueue != []
    ensures var c, v := s.runQueue[0], Pop(s, t);
      && c in s.live && s.hasHandler && PhasesBut(v, c)
      && c !in v.runQueue && !v.loop.Registered(c) && c in v.initialized
  {
    var c := s.runQueue[0];
    assert c in s.runQueue;
    assert PhaseOk(s, c);
    var v := Pop(s, t);
    forall d | d in v.live && d != c ensures PhaseOk(v, d) { assert PhaseOk(s, d); }
  }

  lemma PopCanCleanup<W>(s: Server<W>, t: Tick)
    requires Settled(s) && s.runQueue != []
    ensures var c, v := s.runQueue[0], Pop(s, t);
      && c in s.live && c in s.loop.io && s.loop.io[c].fd >= 0 && s.hasHandler
      && CanCleanup(v, c) && CountOk(v) && SamePass(s, v) && c !in v.runQueue && !v.loop.Registered(c)
      && c in v.initialized
  {
    hide Inv, CountOk, PhasesOk, PhasesBut;
    PopPhases(s, t);
    SameFds(s, Pop(s, t));
  }

  lemma DrainOneKeeps<W>(s: Server<W>, t: Tick)
    requires Settled(s) && s.runQueue != []
    ensures s.runQueue[0] in s.loop.io && s.loop.io[s.runQueue[0]].fd >= 0
    ensures Settled(DrainOne(s, t)) && SamePass(s, DrainOne(s, t))
  {
    hide Inv, FdsOk, PhasesOk, CountOk, PhasesBut, Cleanup, CanCleanup, Settled;
    PopCanCleanup(s, t);
    var c := s.runQueue[0];
    var v := Pop(s, t);
    match Decide(c in s.completed, JsPoll(t))
    case Requeue =>
      EnqueueKeeps(v, c, false);
      assert v.initialized + {c} == v.initialized;
    case WriteBack =>
      NoteKeeps(v, Write(c), c);
      CleanupKeeps(Note(v, Write(c)), c);
    case Abandon => CleanupKeeps(v, c);
  }

  lemma NextKeepsInv<W>(s: Server<W>, e: Event<W>)
    requires ServerInv(s) && Possible(s, e)
    ensures ServerInv(Next(s, e))
  {
    hide Inv, FdsOk, PhasesOk, CountOk, VisitOne, DrainOne, Begin, Target;
    match s.phase
    case Top => if e.Exit? { ExitKeeps(s); } else { PollKeeps(s, e.answer); }
    case Pass(i) =>
      if i < |s.loop.slots| {
        assert s.(phase := Pass(i)) == s;
        VisitOneKeeps(s, i, e.recv, e.accept);
        var t := VisitOne(s, i, e.recv, e.accept);
        SamePhase(t, t.(phase := Pass(i + 1)));
      } else {
        EndPassKeeps(s);
      }
    case Draining =>
      if s.runQueue == [] {
        SamePhase(s, s.(phase := Top));
      } else {
        DrainOneKeeps(s, e.tick);
      }
    case Halted =>
  }

  /** A step that frees a connection twice is the only kind that breaks the invariant, and it always does. */
  lemma NextExact<W>(s: Server<W>, e: Event<W>)
    requires ServerInv(s) && Feasible(s, e)
    ensures ServerInv(Next(s, e)) <==> !VisitFreesTwice(s, e)
  {
    if VisitFreesTwice(s, e) {
      TwiceBreaks(s, e);
    } else {
      NextKeepsInv(s, e);
    }
  }

  lemma TwiceBreaks<W>(s: Server<W>, e: Event<W>)
    requires ServerInv(s) && Feasible(s, e) && VisitFreesTwice(s, e)
    ensures !CountOk(Next(s, e))
  {
    hide Inv, FdsOk, PhasesOk, CountOk, Target, OnPoll, Visit;
    var i := s.phase.i;
    LiveTracked(s);
    VisitKeepsWatchers(s.loop, i);
    var t := s.(loop := Visit(s.loop, i));
    SameWatchers(s, t.loop);
    SettledParts(t);
    TargetRegistered(s.loop, i);
    var (w, m) := Target(s.loop, i).value;
    ReadingWhenRegistered(t, w);
    OnPollExact(t, w, m, e.recv);
    MiscountedIsUnsettled(Next(s, e));
  }

  /** The server before its first poll: the listener alone is started. */
  ghost function Launch<W>(listener: W, fd: int, hasHandler: bool): Server<W>
    requires fd >= 0
  {
    Server(Start(Track(EmptyLoop(), listener, fd), listener, POLLIN), listener, hasHandler, {}, {}, {}, [], 0,
           multiset{}, multiset{}, [], Top)
  }

  lemma LaunchInv<W>(listener: W, fd: int, hasHandler: bool)
    requires 0 <= fd <= MAX_FD
    ensures ServerInv(Launch(listener, fd, hasHandler))
  {
    hide TableOk, QueueOk, CoverOk, SlotsOk, GrowthOk, Widen;
    InitInv<W>();
    TrackKeepsInv(EmptyLoop(), listener, fd);
    var t := Track(EmptyLoop<W>(), listener, fd);
    StartKeepsInv(t, listener, POLLIN);
    assert OpenFds(Launch(listener, fd, hasHandler)) == {};
  }

  /** The state after a history. Events that are not possible at their turn do not happen. */
  ghost function Run<W>(s: Server<W>, history: seq<Event<W>>): (t: Server<W>)
    requires ServerInv(s)
    ensures ServerInv(t)
    decreases |history|
  {
    if history == [] then s
    else if !Possible(s, history[0]) then Run(s, history[1..])
    else
      NextKeepsInv(s, history[0]);
      Run(Next(s, history[0]), history[1..])
  }

  lemma RunInv<W>(s: Server<W>, history: seq<Event<W>>)
    requires ServerInv(s)
    ensures ServerInv(Run(s, history))
  {
  }

  lemma RunNothing<W>(s: Server<W>)
    requires ServerInv(s)
    ensures Run(s, []) == s
  {
  }

  lemma {:induction false} RunAppend<W>(s: Server<W>, a: seq<Event<W>>, b: seq<Event<W>>)
    requires ServerInv(s)
    ensures Run(s, a + b) == Run(Run(s, a), b)
    decreases |a|
  {
    hide Inv, FdsOk, PhasesOk, CountOk, PassOk, Next, ServerInv;
    if a == [] {
      assert a + b == b;
    } else {
      assert (a + b)[1..] == a[1..] + b && (a + b)[0] == a[0];
      if Possible(s, a[0]) {
        NextKeepsInv(s, a[0]);
        RunAppend(Next(s, a[0]), a[1..], b);
      } else {
        RunAppend(s, a[1..], b);
      }
    }
  }

  // ---------- what holds after every history ----------

  /** A live connection is reading or running, and not both; a running one is on the run queue once. */
  lemma OnePhase<W>(s: Server<W>, history: seq<Event<W>>, c: W)
    requires ServerInv(s) && c in Run(s, history).live
    ensures var t := Run(s, history);
      && t.Reading(c) != t.Running(c)
      && (t.Running(c) <==> exists i :: 0 <= i < |t.runQueue| && t.runQueue[i] == c
                                        && forall j :: 0 <= j < |t.runQueue| && j != i ==> t.runQueue[j] != c)
  {
    var t := Run(s, history);
    hide Inv, FdsOk, CountOk, Run;
    assert PhaseOk(t, c);
    if c in t.runQueue {
      var i :| 0 <= i < |t.runQueue| && t.runQueue[i] == c;
      forall j | 0 <= j < |t.runQueue| && j != i ensures t.runQueue[j] != c {
        if j < i { assert t.runQueue[j] != t.runQueue[i]; }
      }
    }
  }

  /** Memory that is not live is in neither queue and not in the table: the loop cannot reach it. */
  lemma FreedIsUnreachable<W>(s: Server<W>, history: seq<Event<W>>, c: W)
    requires ServerInv(s) && c != s.listener && c !in Run(s, history).live
    ensures var t := Run(s, history);
      && c !in t.loop.queue && c !in t.runQueue && c !in t.initialized
      && (forall fd :: t.loop.WatcherOf(fd) != Some(c))
      && (forall i :: 0 <= i < |t.loop.slots| ==> Target(t.loop, i).None? || Target(t.loop, i).value.0 != c)
  {
    var t := Run(s, history);
    RunKeepsListener(s, history);
    FreedParts(t, c);
  }

  lemma FreedParts<W>(t: Server<W>, c: W)
    requires ServerInv(t) && c != t.listener && c !in t.live
    ensures c !in t.loop.queue && c !in t.runQueue && c !in t.initialized
    ensures forall fd :: t.loop.WatcherOf(fd) != Some(c)
    ensures forall i :: 0 <= i < |t.loop.slots| ==> Target(t.loop, i).None? || Target(t.loop, i).value.0 != c
  {
    hide TableOk, CoverOk, SlotsOk, GrowthOk, CountOk, Asked;
    assert c !in t.loop.io;
    forall fd ensures t.loop.WatcherOf(fd) != Some(c) { TableNames(t.loop, fd, c); }
  }

  lemma {:induction false} RunKeepsListener<W>(s: Server<W>, history: seq<Event<W>>)
    requires ServerInv(s)
    ensures Run(s, history).listener == s.listener
    decreases |history|
  {
    if history != [] {
      if Possible(s, history[0]) {
        NextKeepsInv(s, history[0]);
        NextKeepsListener(s, history[0]);
        RunKeepsListener(Next(s, history[0]), history[1..]);
      } else {
        RunKeepsListener(s, history[1..]);
      }
    }
  }

  lemma NextKeepsListener<W>(s: Server<W>, e: Event<W>)
    requires ServerInv(s) && Possible(s, e)
    ensures Next(s, e).listener == s.listener
  {
    hide Inv, FdsOk, PhasesOk, CountOk, Begin, Stop, Target, VisitOne, DrainOne;
    match s.phase
    case Pass(i) => if i < |s.loop.slots| { VisitOneKeeps(s, i, e.recv, e.accept); }
    case Draining => if s.runQueue != [] { DrainOneKeeps(s, e.tick); }
    case _ =>
  }

  /** The counter is the number of live connections and stays within its bounds; what was accepted is what
      was closed and what is open, each open descriptor once. */
  lemma Conservation<W>(s: Server<W>, history: seq<Event<W>>)
    requires ServerInv(s)
    ensures var t := Run(s, history);
      && 0 <= t.numConns == |t.live| == |OpenFds(t)| <= MAX_CONNECTIONS
      && t.accepted == t.closed + multiset(OpenFds(t))
      && (forall fd :: t.closed[fd] <= t.accepted[fd] <= t.closed[fd] + 1)
  {
    var t := Run(s, history);
    hide Inv, PhasesOk, Run, PassOk;
    FdsCountLive(t, t.live);
    assert OpenFds(t) == set c | c in t.live :: t.loop.io[c].fd;
  }

  lemma {:induction false} FdsCountLive<W>(t: Server<W>, cs: set<W>)
    requires FdsOk(t) && cs <= t.live
    ensures cs <= t.loop.io.Keys && |set c | c in cs :: t.loop.io[c].fd| == |cs|
    decreases cs
  {
    if cs != {} {
      var x :| x in cs;
      FdsCountLive(t, cs - {x});
      var rest := set c | c in cs - {x} :: t.loop.io[c].fd;
      assert (set c | c in cs :: t.loop.io[c].fd) == rest + {t.loop.io[x].fd};
      assert t.loop.io[x].fd !in rest;
    }
  }

  /** The mark that a pass is on is set during passes and at no other time, whichever way they end; and between
      rounds nothing is left on the run queue. */
  lemma IteratingExactlyInPass<W>(s: Server<W>, history: seq<Event<W>>)
    requires ServerInv(s)
    ensures var t := Run(s, history);
      (t.loop.iterating <==> t.phase.Pass?) && (t.phase.Top? || t.phase.Halted? ==> t.runQueue == [])
  {
    hide Run, Inv, FdsOk, PhasesOk, CountOk;
    assert PassOk(Run(s, history));
  }

  /** Until the server task exits the listener is registered, so a poll is never skipped; and when poll is called
      the listener and each reading connection have exactly one slot, for input only. */
  lemma PollSeesServer<W>(s: Server<W>, history: seq<Event<W>>, w: W)
    requires ServerInv(s)
    requires var t := Run(s, history); t.phase.Top? && w in t.loop.io && (w == t.listener || t.Reading(w))
    ensures var t := Run(s, history);
      QueueTracked(t.loop) && t.loop.nfds > 0 && ExactlyOneSlot(Flush(t.loop).slots, t.loop.io[w].fd, POLLIN)
  {
    var t := Run(s, history);
    hide Run, PhasesOk, CountOk, Flush;
    EachWatcherHasSlot(t.loop, w);
  }
}

/** What one callback or one turn of the drain loop makes of the connection it is for, and that it makes
    nothing of any other. */
module ServerOutcomes {
  import opened PollSlots
  import opened LoopModel
  import opened LoopOutcomes
  import opened Wrappers
  import opened Ring
  import opened RunQueue
  import opened ServerModel

  datatype Fate = Kept | Queued | Freed

  /** What becomes of a reading connection with new input. */
  function FateOf(hasHandler: bool, recv: Recv): Fate {
    match recv
    case WouldBlock => Kept
    case Data(NeedMore) => Kept
    case Data(Complete(notFound, _, thenMalformed)) =>
      if hasHandler && !notFound && !thenMalformed then Queued else Freed
    case _ => Freed
  }

  /** The same for one whose context was polled. */
  function FateAfter(v: Verdict): Fate {
    if v == Requeue then Queued else Freed
  }

  /** What is done to it, in order. */
  function Answered<W>(c: W, hasHandler: bool, recv: Recv): seq<Action<W>> {
    match recv
    case WouldBlock => []
    case Gone => [Free(c)]
    case TooLarge => [Reply(c, TOO_LARGE), Free(c)]
    case Data(NeedMore) => []
    case Data(Malformed) => [Free(c)]
    case Data(Complete(notFound, _, thenMalformed)) =>
      if notFound || !hasHandler then AnsweredMessage(c, hasHandler, notFound)
      else if thenMalformed then [Free(c)]
      else []
  }

  function AnsweredMessage<W>(c: W, hasHandler: bool, notFound: bool): seq<Action<W>> {
    if notFound then [Reply(c, NOT_FOUND), Free(c)] else if !hasHandler then [Reply(c, OK), Free(c)] else []
  }

  /** Everyone but c is where they were: the same live connections in the same phases with the same
      descriptors and masks, and the same order on the run queue. */
  ghost predicate OthersUntouched<W>(s: Server<W>, t: Server<W>, c: W) {
    && t.live - {c} == s.live - {c} && t.loop.io.Keys - {c} == s.loop.io.Keys - {c}
    && (forall d :: d in s.loop.io && d != c ==> d in t.loop.io && t.loop.io[d] == s.loop.io[d])
    && t.initialized - {c} == s.initialized - {c} && t.completed - {c} == s.completed - {c}
    && Without(t.runQueue, c) == Without(s.runQueue, c)
    && t.listener == s.listener && t.hasHandler == s.hasHandler && t.accepted == s.accepted
  }

  /** c has met its fate: its descriptor is closed once and its memory given up, or it is last on the run
      queue, or it is as before. */
  ghost predicate Met<W>(s: Server<W>, t: Server<W>, c: W, fate: Fate)
    requires c in s.loop.io
  {
    match fate
    case Kept => t == s
    case Queued =>
      && c in t.live && t.Running(c) && t.runQueue == Without(s.runQueue, c) + [c]
      && t.closed == s.closed && t.numConns == s.numConns
    case Freed =>
      && c !in t.live && c !in t.loop.io && c !in t.runQueue && t.runQueue == Without(s.runQueue, c)
      && t.closed == s.closed + multiset{s.loop.io[c].fd} && t.numConns == s.numConns - 1
  }

  lemma Untouched<W>(s: Server<W>, c: W)
    ensures OthersUntouched(s, s, c)
  {
  }

  lemma Absent<T>(q: seq<T>, x: T)
    requires x !in q
    ensures Without(q, x) == q && Without(q + [x], x) == q
  {
    var r := q + [x];
    assert r[|q|] == x && forall j :: 0 <= j < |q| ==> r[j] == q[j];
    assert IndexOf(r, x) == |q| && IndexOf(q, x) == |q|;
    assert r[..|q|] + r[|q| + 1..] == q;
  }

  /** A cleanup frees its connection and touches no other. */
  lemma CleanupOutcome<W>(s: Server<W>, c: W)
    requires CanCleanup(s, c) && CountOk(s)
    ensures c in s.loop.io && s.loop.io[c].fd >= 0
    ensures OthersUntouched(s, Cleanup(s, c), c) && Met(s, Cleanup(s, c), c, Freed)
    ensures Cleanup(s, c).log == s.log + [Free(c)]
  {
    hide Inv, Cleanup, FdsOk, Without, IndexOf, Distinct, CountOk;
    CleanupParts(s, c);
    CleanupKeeps(s, c);
    DistinctWithout(s.runQueue, c);
    Absent(Without(s.runQueue, c), c);
  }

  /** The same after an entry in the log. */
  lemma NotedCleanupOutcome<W>(s: Server<W>, a: Action<W>, c: W)
    requires CanCleanup(s, c) && CountOk(s)
    ensures c in s.loop.io && s.loop.io[c].fd >= 0
    ensures var t := Cleanup(Note(s, a), c);
      OthersUntouched(s, t, c) && Met(s, t, c, Freed) && t.log == s.log + [a, Free(c)]
  {
    hide Inv, Cleanup, FdsOk, Without, CountOk, CanCleanup;
    NoteKeeps(s, a, c);
    CleanupOutcome(Note(s, a), c);
    assert s.log + [a] + [Free(c)] == s.log + [a, Free(c)];
  }

  lemma ReadingParts<W>(s: Server<W>, c: W)
    requires Settled(s) && c in s.live && c !in s.initialized
    ensures c in s.loop.io && s.loop.io[c].fd >= 0 && c !in s.runQueue
    ensures Without(s.runQueue, c) == s.runQueue && CanCleanup(s, c) && CountOk(s)
  {
    hide Inv, CountOk, Distinct, Without;
    SettledCanCleanup(s, c);
    Absent(s.runQueue, c);
  }

  /** A message that is answered by a handler puts its connection last on the run queue, its response complete
      exactly when the handler completed it while it was evaluated. */
  lemma MessageOutcome<W>(s: Server<W>, c: W, notFound: bool, completes: bool)
    requires Settled(s) && c in s.live && c !in s.initialized
    ensures c in s.loop.io && s.loop.io[c].fd >= 0
    ensures var t := OnMessageComplete(s, c, notFound, completes);
      && OthersUntouched(s, t, c) && Met(s, t, c, if s.hasHandler && !notFound then Queued else Freed)
      && t.log == s.log + AnsweredMessage(c, s.hasHandler, notFound)
      && (s.hasHandler && !notFound ==> (c in t.completed <==> completes || c in s.completed))
      && (c in t.loop.io ==> t.loop.io[c].fd == s.loop.io[c].fd)
  {
    hide Inv, FdsOk, PhasesOk, PhasesBut, CountOk, Settled, CanCleanup, Cleanup, Stop, Without;
    ReadingParts(s, c);
    StoppedCanCleanup(s, c);
    StoppedParts(s, c);
    var t := s.(loop := Stop(s.loop, c, POLLIN));
    if notFound || !s.hasHandler {
      NotedCleanupOutcome(t, Reply(c, if notFound then NOT_FOUND else OK), c);
    } else {
      EnqueueKeeps(t, c, completes);
      Absent(s.runQueue, c);
    }
  }

  lemma StoppedParts<W>(s: Server<W>, c: W)
    requires Settled(s) && c in s.live
    ensures c in s.loop.io && s.loop.io[c].fd >= 0
    ensures var l := Stop(s.loop, c, POLLIN);
      && l.io.Keys == s.loop.io.Keys && l.io[c].fd == s.loop.io[c].fd
      && forall d :: d in s.loop.io && d != c ==> l.io[d] == s.loop.io[d]
  {
    hide Inv, Stop, CountOk;
    StopConn(s.loop, c);
  }

  /** New input decides the fate of the connection it is for, and of that one only. */
  lemma OnPollOutcome<W>(s: Server<W>, c: W, events: Mask, recv: Recv)
    requires Settled(s) && c in s.live && c !in s.initialized && !(events.pollin && FreedTwice(s.hasHandler, recv))
    ensures c in s.loop.io && s.loop.io[c].fd >= 0
    ensures var t := OnPoll(s, c, events, recv);
      && OthersUntouched(s, t, c) && Met(s, t, c, if events.pollin then FateOf(s.hasHandler, recv) else Kept)
      && t.log == s.log + if events.pollin then Answered(c, s.hasHandler, recv) else []
  {
    hide Inv, FdsOk, PhasesOk, PhasesBut, CountOk, Settled, CanCleanup, Cleanup, OnMessageComplete, Without,
      OthersUntouched;
    ReadingParts(s, c);
    Untouched(s, c);
    CleanupOutcome(s, c);
    NotedCleanupOutcome(s, Reply(c, TOO_LARGE), c);
    if events.pollin && recv.Data? && recv.parse.Complete? {
      var p := recv.parse;
      MessageOutcome(s, c, p.notFound, p.completes);
      if p.thenMalformed {
        ThenMalformedKeeps(s, c, p.notFound, p.completes);
        OnMessageCompleteKeeps(s, c, p.notFound, p.completes);
        QueuedThenFreed(s, OnMessageComplete(s, c, p.notFound, p.completes), c);
      }
    }
  }

  /** What a receive of len bytes, after recvd before, leads to, if there is input at all: -2 says that there is
      nothing to read yet; any other length up to 0 frees the connection, and so does, after an answer, one that is
      too much; otherwise the parser decides. */
  lemma ReceiveOutcome<W>(s: Server<W>, c: W, m: Mask, recvd: int, len: int, parse: Parse)
    requires Settled(s) && c in s.live && c !in s.initialized
    ensures c in s.loop.io && s.loop.io[c].fd >= 0
    ensures var t := OnPoll(s, c, m, Received(recvd, len, parse));
      && (!m.pollin || len == -2 ==> t == s)
      && (m.pollin && len <= 0 && len != -2 ==>
            Met(s, t, c, Freed) && OthersUntouched(s, t, c) && t.log == s.log + [Free(c)])
      && (m.pollin && len > 0 && recvd + len > MAX_REQUEST_LEN ==>
            Met(s, t, c, Freed) && OthersUntouched(s, t, c) && t.log == s.log + [Reply(c, TOO_LARGE), Free(c)])
      && (m.pollin && len > 0 && recvd + len <= MAX_REQUEST_LEN ==>
            && t == OnPoll(s, c, m, Data(parse))
            && (!FreedTwice(s.hasHandler, Data(parse)) ==>
                  && Met(s, t, c, FateOf(s.hasHandler, Data(parse))) && OthersUntouched(s, t, c)
                  && t.log == s.log + Answered(c, s.hasHandler, Data(parse))))
  {
    hide Inv, FdsOk, PhasesOk, PhasesBut, CountOk, Settled, Cleanup, OnMessageComplete, Without, OthersUntouched, Met,
      OnPoll, FreedTwice;
    ReadingParts(s, c);
    var recv := Received(recvd, len, parse);
    NotTwice(s.hasHandler, recv);
    if !m.pollin { NoInput(s, c, m, recv); }
    if !(m.pollin && FreedTwice(s.hasHandler, recv)) {
      OnPollOutcome(s, c, m, recv);
      KeptIsSame(s, OnPoll(s, c, m, recv), c);
    }
  }

  lemma KeptIsSame<W>(s: Server<W>, t: Server<W>, c: W)
    requires c in s.loop.io
    ensures Met(s, t, c, Kept) <==> t == s
  {
  }

  lemma NotTwice(hasHandler: bool, recv: Recv)
    ensures FreedTwice(hasHandler, recv) ==> recv.Data?
  {
  }

  lemma NoInput<W>(s: Server<W>, c: W, m: Mask, recv: Recv)
    requires c in s.loop.io && s.loop.io[c].fd >= -1 && !m.pollin
    ensures OnPoll(s, c, m, recv) == s
  {
  }

  /** An error after a complete message takes the connection off the run queue again. */
  lemma QueuedThenFreed<W>(s: Server<W>, t: Server<W>, c: W)
    requires Settled(s) && Settled(t) && c in s.live && c !in s.initialized && c in s.loop.io && c in t.loop.io
    requires OthersUntouched(s, t, c) && Met(s, t, c, Queued) && s.loop.io[c].fd == t.loop.io[c].fd
    ensures t.loop.io[c].fd >= 0 && OthersUntouched(s, Cleanup(t, c), c) && Met(s, Cleanup(t, c), c, Freed)
    ensures Cleanup(t, c).log == t.log + [Free(c)]
  {
    hide Inv, FdsOk, PhasesOk, PhasesBut, CountOk, Settled, CanCleanup, Cleanup, Without;
    ReadingParts(s, c);
    SettledCanCleanup(t, c);
    SettledParts(t);
    CleanupOutcome(t, c);
    Absent(s.runQueue, c);
  }

  /** One turn of the drain loop decides the fate of the connection at the head, and of that one only. */
  lemma DrainOutcome<W>(s: Server<W>, t: Tick)
    requires Settled(s) && s.runQueue != []
    ensures s.runQueue[0] in s.loop.io && s.loop.io[s.runQueue[0]].fd >= 0
    ensures var c, r := s.runQueue[0], DrainOne(s, t);
      && OthersUntouched(s, r, c) && Met(s, r, c, FateAfter(Decide(c in s.completed, JsPoll(t))))
      && r.log == s.log + ([Poll(c)] + Ending(c, Decide(c in s.completed, JsPoll(t))))
  {
    hide Inv, FdsOk, PhasesOk, PhasesBut, CountOk, Settled, CanCleanup, Cleanup, Without;
    PopCanCleanup(s, t);
    var c, v := s.runQueue[0], Pop(s, t);
    HeadWithout(s.runQueue);
    Absent(v.runQueue, c);
    CleanupOutcome(v, c);
    NotedCleanupOutcome(v, Write(c), c);
    assert s.log + [Poll(c)] + [Free(c)] == s.log + ([Poll(c)] + [Free(c)]);
    assert s.log + [Poll(c)] + [Write(c), Free(c)] == s.log + ([Poll(c)] + [Write(c), Free(c)]);
    assert s.log + [Poll(c)] == s.log + ([Poll(c)] + []);
  }

  lemma HeadWithout<T>(q: seq<T>)
    requires q != []
    ensures Without(q, q[0]) == q[1..]
  {
    assert IndexOf(q, q[0]) == 0;
  }

  /** An accepted descriptor becomes one more reading connection, or is closed at once if there is no memory
      for it; otherwise nothing happens. No connection is touched. */
  lemma AcceptOutcome<W>(s: Server<W>, events: Mask, accept: Accept<W>)
    requires Settled(s) && PossibleAccept(s, accept)
    ensures var t := OnConnected(s, events, accept);
      if events.pollin && s.numConns < MAX_CONNECTIONS && accept.Accepted? then
        match accept.conn
        case None => t == s.(accepted := s.accepted + multiset{accept.fd}, closed := s.closed + multiset{accept.fd})
        case Some(c) =>
          && c !in s.live && t.live == s.live + {c} && t.Reading(c) && c in t.loop.io && t.loop.io[c].fd == accept.fd
          && t.accepted == s.accepted + multiset{accept.fd} && t.numConns == s.numConns + 1 && t.closed == s.closed
          && OthersUntouched(s, t.(accepted := s.accepted), c) && t.runQueue == s.runQueue && t.log == s.log
      else t == s
  {
    hide Inv, FdsOk, PhasesOk, PhasesBut, CountOk, Start, Track, Without;
    if events.pollin && s.numConns < MAX_CONNECTIONS && accept.Accepted? && accept.conn.Some? {
      NewConnLoop(s, accept.conn.value, accept.fd);
      AddConnKeeps(s, accept.fd, accept.conn.value);
      LiveTracked(s);
    }
  }

  // ---------- the steps of the server task ----------

  /** A poll that is not idle begins a pass exactly unless it fails. In the array that it leaves, each slot has the
      report of this poll, and where there is none what it had before. Of the server nothing else changes. */
  lemma PollStepOutcome<W>(s: Server<W>, answer: Answer)
    requires ServerInv(s) && s.phase.Top?
    ensures QueueTracked(s.loop)
    ensures var t, f := Next(s, DoPoll(answer)), Flush(s.loop).slots;
      && t == s.(loop := t.loop, phase := t.phase) && t.phase == (if answer.Failed? then Draining else Pass(0))
      && t.loop.io.Keys == s.loop.io.Keys && |t.loop.slots| == |f|
      && forall i :: 0 <= i < |f| ==>
           t.loop.slots[i]
           == if answer.Ready? && i < |answer.revents| then f[i].(revents := answer.revents[i]) else f[i]
  {
    hide TableOk, RegistryOk, QueueOk, CoverOk, SlotsOk, GrowthOk, FdsOk, PhasesOk, CountOk, Begin, Flush, Flushed;
    PollOutcome(s.loop, answer);
    ListenerCounted(s);
  }

  lemma ListenerCounted<W>(s: Server<W>)
    requires ServerInv(s) && s.phase.Top?
    ensures s.loop.nfds > 0 && !s.loop.iterating
  {
    hide TableOk, QueueOk, CoverOk, SlotsOk, GrowthOk, PhasesOk, CountOk, Flush;
    EachWatcherHasSlot(s.loop, s.listener);
  }

  /** A visit passes on to the next slot. Its slot's target, and nobody else, meets the fate of the input: nobody
      called back changes nothing, a connection fares by what was received, and the listener accepts. */
  lemma VisitStepOutcome<W>(s: Server<W>, e: Event<W>)
    requires ServerInv(s) && Possible(s, e) && s.phase.Pass? && s.phase.i < |s.loop.slots|
    ensures var i := s.phase.i;
      var u, t, target := s.(loop := Visit(s.loop, i)), Next(s, e), Target(s.loop, i);
      && t.phase == Pass(i + 1) && u.loop.io == s.loop.io
      && match target
         case None => t == u.(phase := t.phase)
         case Some((w, m)) =>
           w in u.loop.io &&
           if w == s.listener then
             if !(m.pollin && s.numConns < MAX_CONNECTIONS && e.accept.Accepted?) then t == u.(phase := t.phase)
             else
               && t.accepted == s.accepted + multiset{e.accept.fd} && t.runQueue == s.runQueue
               && t.live == s.live + (if e.accept.conn.Some? then {e.accept.conn.value} else {})
           else
             var r := if m.pollin then e.recv else WouldBlock;
             && OthersUntouched(u, t, w) && Met(u, t.(phase := u.phase), w, FateOf(s.hasHandler, r))
             && t.log == s.log + Answered(w, s.hasHandler, r)
  {
    hide Inv, FdsOk, PhasesOk, CountOk, Visit, Target, OnConnected, OnPoll, OthersUntouched, Met, Answered, FateOf,
      FreedTwice, Next, Possible, Settled;
    var i := s.phase.i;
    VisitParts(s, e);
    var u := s.(loop := Visit(s.loop, i));
    if Target(s.loop, i).Some? {
      var (w, m) := Target(s.loop, i).value;
      if w == s.listener {
        AcceptParts(u, m, e.accept);
      } else {
        VisitedConn(u, w, m, e.recv, Pass(i + 1));
      }
    }
  }

  lemma VisitParts<W>(s: Server<W>, e: Event<W>)
    requires ServerInv(s) && Possible(s, e) && s.phase.Pass? && s.phase.i < |s.loop.slots|
    ensures var i := s.phase.i; var u, target := s.(loop := Visit(s.loop, i)), Target(s.loop, i);
      && e.Visited? && Settled(u) && u.loop.io == s.loop.io
      && match target
         case None => Next(s, e) == u.(phase := Pass(i + 1))
         case Some((w, m)) =>
           && w in u.loop.io && u.loop.io[w].fd >= -1
           && if w == s.listener then
                && (e.accept.Accepted? ==> e.accept.fd >= 0)
                && Next(s, e) == OnConnected(u, m, e.accept).(phase := Pass(i + 1))
              else
                && w in u.live && w !in u.initialized && !(m.pollin && FreedTwice(u.hasHandler, e.recv))
                && Next(s, e) == OnPoll(u, w, m, e.recv).(phase := Pass(i + 1))
  {
    hide Inv, FdsOk, PhasesOk, CountOk, Visit, Target, OnConnected, OnPoll, FreedTwice;
    var i := s.phase.i;
    LiveTracked(s);
    VisitKeepsWatchers(s.loop, i);
    var u := s.(loop := Visit(s.loop, i));
    SameWatchers(s, u.loop);
    SettledParts(u);
    if Target(s.loop, i).Some? {
      TargetRegistered(s.loop, i);
      var (w, m) := Target(s.loop, i).value;
      if w != s.listener { ReadingWhenRegistered(u, w); }
    }
  }

  lemma VisitedConn<W>(u: Server<W>, w: W, m: Mask, recv: Recv, phase: Phase)
    requires Settled(u) && w in u.live && w !in u.initialized && !(m.pollin && FreedTwice(u.hasHandler, recv))
    ensures w in u.loop.io && u.loop.io[w].fd >= 0
    ensures var t, r := OnPoll(u, w, m, recv).(phase := phase), if m.pollin then recv else WouldBlock;
      && OthersUntouched(u, t, w) && Met(u, t.(phase := u.phase), w, FateOf(u.hasHandler, r))
      && t.log == u.log + Answered(w, u.hasHandler, r)
  {
    hide Inv, Settled, OnPoll, OthersUntouched, Met, Answered, FateOf, FreedTwice;
    OnPollOutcome(u, w, m, recv);
    OnPollKeeps(u, w, m, recv);
    NoInputIsWouldBlock(u, w, m, recv);
    PhaseAside(u, OnPoll(u, w, m, recv), w, phase, if m.pollin then FateOf(u.hasHandler, recv) else Kept);
  }

  lemma NoInputIsWouldBlock<W>(u: Server<W>, w: W, m: Mask, recv: Recv)
    ensures FateOf(u.hasHandler, WouldBlock) == Kept && Answered(w, u.hasHandler, WouldBlock) == []
    ensures !FreedTwice(u.hasHandler, WouldBlock)
  {
  }

  lemma AcceptParts<W>(u: Server<W>, m: Mask, accept: Accept<W>)
    requires accept.Accepted? ==> accept.fd >= 0
    ensures var t := OnConnected(u, m, accept);
      if u.numConns < MAX_CONNECTIONS && m.pollin && accept.Accepted? then
        && t.live == u.live + (if accept.conn.Some? then {accept.conn.value} else {}) && t.runQueue == u.runQueue
        && t.accepted == u.accepted + multiset{accept.fd}
      else t == u
  {
    hide Start, Track;
  }

  lemma PhaseAside<W>(u: Server<W>, r: Server<W>, w: W, phase: Phase, fate: Fate)
    requires OthersUntouched(u, r, w) && w in u.loop.io && Met(u, r, w, fate) && r.phase == u.phase
    ensures var t := r.(phase := phase);
      OthersUntouched(u, t, w) && Met(u, t.(phase := u.phase), w, fate)
  {
    hide Without, Met;
    assert r.(phase := phase).(phase := u.phase) == r;
  }
}

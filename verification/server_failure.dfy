/** The double free is reached: a history from the start of the server to a visit that frees a connection twice. */
module ServerFailure {
  import opened PollSlots
  import opened LoopModel
  import opened Wrappers
  import opened RunQueue
  import opened ServerModel
  import opened ServerScript

  /** A poll that reports the listener, the accept of descriptor b for c, the end of the pass, an empty drain, a
      poll that reports c, and the visit of the listener's slot. */
  ghost function UpToTheMessage<W>(b: int, c: W): seq<Event<W>> {
    [DoPoll(Ready([POLLIN])), Visited(WouldBlock, Accepted(b, Some(c))), Visited(WouldBlock, Refused), DoDrain(IDLE),
     DoPoll(Ready([NONE, POLLIN])), Visited(WouldBlock, Refused)]
  }

  /** A message whose path is unknown, followed in the same chunk by an error of the parser. */
  ghost function Message<W>(): Event<W> {
    Visited(Data(Complete(true, false, true)), Refused)
  }

  /** The listener w has descriptor a and the only slot. */
  ghost predicate Listening<W>(s: Server<W>, w: W, a: int) {
    && s.listener == w && s.runQueue == [] && s.numConns == 0 && s.live == {}
    && s.loop.slots == [PollFd(a, POLLIN, POLLIN)] && s.loop.queue == [] && s.loop.WatcherOf(a) == Some(w)
    && s.loop.io == map[w := Io(a, POLLIN, POLLIN)]
  }

  /** Besides, c has descriptor b and is pending. */
  ghost predicate Connected<W>(s: Server<W>, w: W, a: int, c: W, b: int) {
    && s.listener == w && s.runQueue == [] && w != c && a != b
    && |s.loop.slots| == 1 && s.loop.slots[0].fd == a && s.loop.queue == [c]
    && s.loop.WatcherOf(a) == Some(w) && s.loop.WatcherOf(b) == Some(c)
    && w in s.loop.io && s.loop.io[w].pevents == POLLIN && c in s.loop.io && s.loop.io[c] == Io(b, POLLIN, NONE)
  }

  /** And c has a slot of its own, in which input is reported. */
  ghost predicate Reported<W>(s: Server<W>, w: W, a: int, c: W, b: int) {
    && s.listener == w && w != c
    && |s.loop.slots| == 2 && s.loop.slots[0].fd == a && s.loop.slots[1].fd == b && s.loop.slots[1].revents == POLLIN
    && s.loop.WatcherOf(a) == Some(w) && s.loop.WatcherOf(b) == Some(c)
    && w in s.loop.io && c in s.loop.io && s.loop.io[c].pevents == POLLIN
  }

  lemma FlushPending<W>(l: LoopState<W>, x: W)
    requires Inv(l) && !l.iterating && l.queue == [x] && x in l.io
    requires forall i :: 0 <= i < |l.slots| ==> l.slots[i].fd != l.io[x].fd
    ensures QueueTracked(l) && Flush(l) == FlushOne(l)
    ensures Flush(l).slots == l.slots + [PollFd(l.io[x].fd, l.io[x].pevents, NONE)]
    ensures Flush(l).queue == [] && Flush(l).watchers == l.watchers
    ensures Flush(l).io == l.io[x := l.io[x].(events := l.io[x].pevents)]
  {
    hide Inv, FlushOne;
    FlushOneFacts(l);
    FlushOneKeepsInv(l);
    assert FlushOne(l).queue == [];
  }

  lemma FirstPoll<W>(w: W, a: int, hasHandler: bool)
    requires 0 <= a <= MAX_FD
    ensures var s := Launch(w, a, hasHandler); var e := DoPoll(Ready([POLLIN]));
      && ServerInv(s) && Possible(s, e) && ServerInv(Next(s, e))
      && Listening(Next(s, e), w, a) && Next(s, e).phase == Pass(0) && Next(s, e).hasHandler == hasHandler
  {
    hide Inv, FdsOk, PhasesOk, CountOk, Flush, Widen;
    LaunchInv(w, a, hasHandler);
    var s := Launch(w, a, hasHandler);
    var e: Event<W> := DoPoll(Ready([POLLIN]));
    NextKeepsInv(s, e);
    FlushPending(s.loop, w);
  }

  lemma FreeFor<W>(s: Server<W>, fd: int)
    requires ServerInv(s) && forall v :: v in s.loop.io ==> s.loop.io[v].fd != fd
    ensures s.loop.WatcherOf(fd) == None
  {
    FreeEntry(s.loop, fd);
  }

  lemma Accepting<W>(s: Server<W>, w: W, a: int, c: W, b: int)
    requires ServerInv(s) && Listening(s, w, a) && s.phase == Pass(0) && c != w && a != b && 0 <= b <= MAX_FD
    ensures var e := Visited(WouldBlock, Accepted(b, Some(c)));
      && Possible(s, e) && ServerInv(Next(s, e)) && Connected(Next(s, e), w, a, c, b) && Next(s, e).phase == Pass(1)
      && Next(s, e).hasHandler == s.hasHandler
  {
    hide Inv, FdsOk, PhasesOk, CountOk, Widen;
    var e := Visited(WouldBlock, Accepted(b, Some(c)));
    FreeFor(s, b);
    assert Target(s.loop, 0) == Some((w, POLLIN));
    NextKeepsInv(s, e);
  }

  lemma Waiting<W>(s: Server<W>, w: W, a: int, c: W, b: int)
    requires ServerInv(s) && Connected(s, w, a, c, b) && (s.phase == Pass(1) || s.phase == Draining)
    ensures var e := if s.phase.Pass? then Visited(WouldBlock, Refused) else DoDrain(IDLE);
      && Possible(s, e) && ServerInv(Next(s, e)) && Connected(Next(s, e), w, a, c, b)
      && Next(s, e).phase == (if s.phase.Pass? then Draining else Top) && Next(s, e).hasHandler == s.hasHandler
  {
    hide Inv, FdsOk, PhasesOk, CountOk;
    NextKeepsInv(s, if s.phase.Pass? then Visited(WouldBlock, Refused) else DoDrain(IDLE));
  }

  lemma SecondPoll<W>(s: Server<W>, w: W, a: int, c: W, b: int)
    requires ServerInv(s) && Connected(s, w, a, c, b) && s.phase == Top
    ensures var e := DoPoll(Ready([NONE, POLLIN]));
      && Possible(s, e) && ServerInv(Next(s, e)) && Reported(Next(s, e), w, a, c, b) && Next(s, e).phase == Pass(0)
      && Next(s, e).loop.slots[0].revents == NONE && Next(s, e).hasHandler == s.hasHandler
  {
    hide Inv, FdsOk, PhasesOk, CountOk, Flush;
    var e: Event<W> := DoPoll(Ready([NONE, POLLIN]));
    NextKeepsInv(s, e);
    IdleMeansEmpty(s.loop);
    FlushPending(s.loop, c);
  }

  lemma NothingThere<W>(s: Server<W>, w: W, a: int, c: W, b: int)
    requires ServerInv(s) && Reported(s, w, a, c, b) && s.phase == Pass(0) && s.loop.slots[0].revents == NONE
    ensures var e := Visited(WouldBlock, Refused);
      && Possible(s, e) && ServerInv(Next(s, e)) && Reported(Next(s, e), w, a, c, b) && Next(s, e).phase == Pass(1)
      && Next(s, e).hasHandler == s.hasHandler
  {
    hide Inv, FdsOk, PhasesOk, CountOk;
    NextKeepsInv(s, Visited(WouldBlock, Refused));
  }

  lemma MessageArrives<W>(s: Server<W>, w: W, a: int, c: W, b: int)
    requires ServerInv(s) && Reported(s, w, a, c, b) && s.phase == Pass(1)
    ensures Feasible(s, Message()) && VisitFreesTwice(s, Message()) && c in s.live
    ensures !CountOk(Next(s, Message()))
  {
    hide Inv, PhasesOk, CountOk;
    assert Target(s.loop, 1) == Some((c, POLLIN));
    TwiceBreaks(s, Message());
  }

  /** From its start, with a handler or without, the server comes to a state in which one more visit frees a
      connection twice, after which the counter of connections is wrong. */
  lemma DoubleFreeReached<W>(w: W, a: int, c: W, b: int, hasHandler: bool)
    requires c != w && a != b && 0 <= a <= MAX_FD && 0 <= b <= MAX_FD
    ensures ServerInv(Launch(w, a, hasHandler))
    ensures var t := ServerModel.Run(Launch(w, a, hasHandler), UpToTheMessage(b, c));
      && c in t.live && Feasible(t, Message()) && VisitFreesTwice(t, Message())
      && !CountOk(Next(t, Message())) && !ServerInv(Next(t, Message()))
  {
    hide ServerInv, Possible, Next, ServerModel.Run, Listening, Connected, Reported, CountOk, Feasible, VisitFreesTwice;
    var s := Launch(w, a, hasHandler);
    var h := UpToTheMessage(b, c);
    FirstPoll(w, a, hasHandler);
    RunNothing(s);
    Extended(s, h, 0);
    Accepting(ServerModel.Run(s, h[..1]), w, a, c, b);
    Extended(s, h, 1);
    Waiting(ServerModel.Run(s, h[..2]), w, a, c, b);
    Extended(s, h, 2);
    Waiting(ServerModel.Run(s, h[..3]), w, a, c, b);
    Extended(s, h, 3);
    SecondPoll(ServerModel.Run(s, h[..4]), w, a, c, b);
    Extended(s, h, 4);
    NothingThere(ServerModel.Run(s, h[..5]), w, a, c, b);
    Extended(s, h, 5);
    assert h[..6] == h;
    MessageArrives(ServerModel.Run(s, h), w, a, c, b);
    NextExact(ServerModel.Run(s, h), Message());
  }

  /** One more event of a history. */
  lemma Extended<W>(s: Server<W>, h: seq<Event<W>>, k: nat)
    requires ServerInv(s) && k < |h| && Possible(ServerModel.Run(s, h[..k]), h[k])
    ensures ServerModel.Run(s, h[..k + 1]) == Next(ServerModel.Run(s, h[..k]), h[k])
    ensures ServerInv(ServerModel.Run(s, h[..k]))
  {
    hide ServerInv, Possible, Next, ServerModel.Run;
    assert h[..k + 1] == h[..k] + [h[k]];
    RunMore(s, h[..k], h[k]);
  }
}

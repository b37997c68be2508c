/** What the outside offers to the server, and which runs it leads to: given the offers, every event of a round
    is determined but for the identity of new memory. */
module ServerScript {
  import opened PollSlots
  import opened LoopModel
  import opened Wrappers
  import opened Ring
  import opened RunQueue
  import opened ServerModel
  import opened ServerOutcomes

  /** What the outside offers while one slot is visited: the length of a receive and the outcome of the
      parser for a connection, a descriptor and memory for the listener. */
  datatype Input = Input(len: int, parse: Parse, fd: int, memory: bool)

  const NO_INPUT := Input(0, NeedMore, -1, false)

  /** What it offers in one round of the server task: the answer to poll, something for each slot of the pass,
      and what the engine answers to the polls of a context, by the descriptor of its connection. */
  datatype Round = Round(answer: Answer, inputs: seq<Input>, ticks: map<int, seq<Tick>>)

  function InputAt(inputs: seq<Input>, i: nat): Input {
    if i < |inputs| then inputs[i] else NO_INPUT
  }

  /** The outside keeps to the condition under which no connection is freed twice. */
  ghost predicate Tolerable(hasHandler: bool, input: Input) {
    !FreedTwice(hasHandler, Received(0, input.len, input.parse))
  }

  ghost predicate AllTolerable(hasHandler: bool, inputs: seq<Input>) {
    forall i :: 0 <= i < |inputs| ==> Tolerable(hasHandler, inputs[i])
  }

  lemma InputTolerable(hasHandler: bool, inputs: seq<Input>, i: nat)
    requires AllTolerable(hasHandler, inputs)
    ensures Tolerable(hasHandler, InputAt(inputs, i))
  {
  }

  function TicksFor(ticks: map<int, seq<Tick>>, fd: int): seq<Tick> {
    if fd in ticks then ticks[fd] else []
  }

  /** The engine's next answer to the connection with descriptor fd. */
  function NextTick(ticks: map<int, seq<Tick>>, fd: int): Tick {
    if TicksFor(ticks, fd) == [] then IDLE else TicksFor(ticks, fd)[0]
  }

  /** The answers that are left after it. */
  function Used(ticks: map<int, seq<Tick>>, fd: int): map<int, seq<Tick>> {
    if TicksFor(ticks, fd) == [] then ticks else ticks[fd := ticks[fd][1..]]
  }

  // ---------- the events that the offers lead to ----------

  /** A descriptor is accepted exactly when there is input on the listener, the maximum is not reached and the
      kernel offers a descriptor that is not open. */
  ghost predicate Offered<W>(s: Server<W>, m: Mask, fd: int) {
    m.pollin && s.numConns < MAX_CONNECTIONS && 0 <= fd <= MAX_FD
    && forall w :: w in s.loop.io ==> s.loop.io[w].fd != fd
  }

  ghost predicate AcceptAnswers<W>(s: Server<W>, m: Mask, fd: int, memory: bool, a: Accept<W>) {
    && (a.Accepted? <==> Offered(s, m, fd))
    && (a.Accepted? ==> a.fd == fd && (a.conn.Some? <==> memory))
  }

  /** The callback of w, if there is one, gets what the outside offers. */
  ghost predicate CallAnswers<W>(s: Server<W>, target: Option<(W, Mask)>, input: Input, recv: Recv, a: Accept<W>) {
    if target.Some? && target.value.0 == s.listener then
      recv == WouldBlock && AcceptAnswers(s, target.value.1, input.fd, input.memory, a)
    else
      a == Refused && recv == if target.Some? then Received(0, input.len, input.parse) else WouldBlock
  }

  /** The head of the run queue and its descriptor. */
  ghost function HeadFd<W>(s: Server<W>): int
    requires s.runQueue != [] && s.runQueue[0] in s.loop.io
  {
    s.loop.io[s.runQueue[0]].fd
  }

  lemma HeadTracked<W>(s: Server<W>)
    requires ServerInv(s)
    ensures s.runQueue != [] ==> s.runQueue[0] in s.loop.io && s.runQueue[0] in s.live
  {
    if s.runQueue != [] {
      assert s.runQueue[0] in s.runQueue;
    }
  }

  /** What is left of the engine's answers after a step from s. */
  ghost function LeftAfter<W>(s: Server<W>, ticks: map<int, seq<Tick>>): map<int, seq<Tick>>
    requires ServerInv(s)
  {
    if s.phase.Draining? && s.runQueue != [] then HeadTracked(s); Used(ticks, HeadFd(s)) else ticks
  }

  /** The one event that the offers lead to in state s. */
  ghost predicate EventAnswers<W>(s: Server<W>, answer: Answer, inputs: seq<Input>, ticks: map<int, seq<Tick>>,
      e: Event<W>)
    requires ServerInv(s)
  {
    match s.phase
    case Top => e == DoPoll(answer)
    case Pass(i) =>
      var target := if i < |s.loop.slots| then Target(s.loop, i) else None;
      e.Visited? && CallAnswers(s, target, InputAt(inputs, i), e.recv, e.accept)
    case Draining =>
      HeadTracked(s);
      e == DoDrain(if s.runQueue == [] then IDLE else NextTick(ticks, HeadFd(s)))
    case Halted => false
  }

  ghost function Left<W>(s: Server<W>, ticks: map<int, seq<Tick>>, h: seq<Event<W>>): map<int, seq<Tick>>
    requires ServerInv(s)
    decreases |h|
  {
    if h == [] then ticks
    else LeftAfter(ServerModel.Run(s, h[..|h| - 1]), Left(s, ticks, h[..|h| - 1]))
  }

  /** Every event of h is possible at its turn and is the one that the round leads to. */
  ghost predicate Answers<W>(s: Server<W>, round: Round, h: seq<Event<W>>)
    requires ServerInv(s)
    decreases |h|
  {
    h != [] ==>
      var rest, e := h[..|h| - 1], h[|h| - 1];
      var t := ServerModel.Run(s, rest);
      && Answers(s, round, rest) && Possible(t, e)
      && EventAnswers(t, round.answer, round.inputs, Left(s, round.ticks, rest), e)
  }

  ghost predicate NoPoll<W>(h: seq<Event<W>>) {
    forall k :: 0 <= k < |h| ==> !h[k].DoPoll?
  }

  ghost predicate OnePoll<W>(h: seq<Event<W>>, answer: Answer) {
    h != [] && h[0] == DoPoll(answer) && NoPoll(h[1..])
  }

  /** A whole round: from the top to the top again, with one poll, the first event. */
  ghost predicate RoundAnswers<W>(s: Server<W>, round: Round, h: seq<Event<W>>)
    requires ServerInv(s)
  {
    Answers(s, round, h) && ServerModel.Run(s, h).phase.Top? && OnePoll(h, round.answer)
  }

  ghost function Flat<T>(hs: seq<seq<T>>): seq<T> {
    if hs == [] then [] else Flat(hs[..|hs| - 1]) + hs[|hs| - 1]
  }

  /** All rounds, one after the other. */
  ghost predicate RoundsAnswer<W>(s: Server<W>, rounds: seq<Round>, hs: seq<seq<Event<W>>>)
    requires ServerInv(s)
    decreases |rounds|
  {
    && |hs| == |rounds|
    && (rounds != [] ==>
          var n := |rounds| - 1;
          && RoundsAnswer(s, rounds[..n], hs[..n])
          && RoundAnswers(ServerModel.Run(s, Flat(hs[..n])), rounds[n], hs[n]))
  }

  // ---------- building such histories ----------

  lemma RunMore<W>(s: Server<W>, h: seq<Event<W>>, e: Event<W>)
    requires ServerInv(s) && Possible(ServerModel.Run(s, h), e)
    ensures ServerInv(Next(ServerModel.Run(s, h), e)) && ServerModel.Run(s, h + [e]) == Next(ServerModel.Run(s, h), e)
  {
    hide ServerInv, Possible, Next;
    RunAppend(s, h, [e]);
    RunOne(ServerModel.Run(s, h), e);
  }

  lemma RunOne<W>(s: Server<W>, e: Event<W>)
    requires ServerInv(s) && Possible(s, e)
    ensures ServerInv(Next(s, e)) && ServerModel.Run(s, [e]) == Next(s, e)
  {
    hide Inv, FdsOk, PhasesOk, CountOk, PassOk, Next;
    NextKeepsInv(s, e);
    assert [e][1..] == [];
    RunNothing(Next(s, e));
  }

  lemma AnswersMore<W>(s: Server<W>, round: Round, h: seq<Event<W>>, e: Event<W>)
    requires ServerInv(s) && Answers(s, round, h) && Possible(ServerModel.Run(s, h), e)
    requires EventAnswers(ServerModel.Run(s, h), round.answer, round.inputs, Left(s, round.ticks, h), e)
    ensures Answers(s, round, h + [e])
    ensures Left(s, round.ticks, h + [e]) == LeftAfter(ServerModel.Run(s, h), Left(s, round.ticks, h))
  {
    hide ServerInv, Possible, EventAnswers, LeftAfter, ServerModel.Run;
    assert (h + [e])[..|h|] == h;
  }

  /** Both at once. */
  lemma Extend<W>(s: Server<W>, round: Round, h: seq<Event<W>>, e: Event<W>)
    requires ServerInv(s) && Answers(s, round, h) && Possible(ServerModel.Run(s, h), e)
    requires EventAnswers(ServerModel.Run(s, h), round.answer, round.inputs, Left(s, round.ticks, h), e)
    ensures Answers(s, round, h + [e]) && ServerInv(Next(ServerModel.Run(s, h), e))
    ensures ServerModel.Run(s, h + [e]) == Next(ServerModel.Run(s, h), e)
    ensures Left(s, round.ticks, h + [e]) == LeftAfter(ServerModel.Run(s, h), Left(s, round.ticks, h))
  {
    hide ServerInv, Possible, EventAnswers, LeftAfter, ServerModel.Run, Answers, Left, Next;
    AnswersMore(s, round, h, e);
    RunMore(s, h, e);
  }

  lemma PollsMore<W>(a: seq<Event<W>>, b: seq<Event<W>>, answer: Answer)
    ensures NoPoll(a) && NoPoll(b) ==> NoPoll(a + b)
    ensures OnePoll(a, answer) && NoPoll(b) ==> OnePoll(a + b, answer)
    ensures NoPoll<W>([]) && OnePoll<W>([DoPoll(answer)], answer)
    ensures forall recv, accept :: NoPoll<W>([Visited(recv, accept)])
    ensures forall t :: NoPoll<W>([DoDrain(t)])
  {
    if a != [] {
      assert (a + b)[1..] == a[1..] + b;
    }
  }

  /** The events of each phase. */
  lemma PollAnswers<W>(s: Server<W>, answer: Answer, inputs: seq<Input>, ticks: map<int, seq<Tick>>)
    requires ServerInv(s) && s.phase.Top?
    ensures EventAnswers(s, answer, inputs, ticks, DoPoll(answer)) && LeftAfter(s, ticks) == ticks
  {
    hide ServerInv;
  }

  lemma VisitAnswers<W>(s: Server<W>, answer: Answer, inputs: seq<Input>, ticks: map<int, seq<Tick>>, e: Event<W>)
    requires ServerInv(s) && s.phase.Pass? && e.Visited?
    requires var i := s.phase.i;
      CallAnswers(s, if i < |s.loop.slots| then Target(s.loop, i) else None, InputAt(inputs, i), e.recv, e.accept)
    ensures EventAnswers(s, answer, inputs, ticks, e) && LeftAfter(s, ticks) == ticks
  {
    hide ServerInv, CallAnswers, Target;
  }

  lemma DrainAnswers<W>(s: Server<W>, answer: Answer, inputs: seq<Input>, ticks: map<int, seq<Tick>>)
    requires ServerInv(s) && s.phase.Draining?
    ensures s.runQueue == [] ==> EventAnswers(s, answer, inputs, ticks, DoDrain(IDLE)) && LeftAfter(s, ticks) == ticks
    ensures s.runQueue != [] ==>
      && s.runQueue[0] in s.loop.io && LeftAfter(s, ticks) == Used(ticks, HeadFd(s))
      && EventAnswers(s, answer, inputs, ticks, DoDrain(NextTick(ticks, HeadFd(s))))
  {
    hide ServerInv, Used, NextTick;
    HeadTracked(s);
  }

  /** With tolerable offers a visit frees nobody twice. */
  lemma TolerableVisit<W>(s: Server<W>, input: Input, e: Event<W>)
    requires s.phase.Pass? && e.Visited? && Feasible(s, e) && Tolerable(s.hasHandler, input)
    requires s.phase.i < |s.loop.slots| ==> CallAnswers(s, Target(s.loop, s.phase.i), input, e.recv, e.accept)
    ensures Possible(s, e)
  {
    hide Target, AcceptAnswers;
  }

  /** Histories can be put together where the engine's answers match. */
  lemma {:induction false} AnswersAppend<W>(s: Server<W>, round: Round, a: seq<Event<W>>, b: seq<Event<W>>)
    requires ServerInv(s) && Answers(s, round, a) && Left(s, round.ticks, a) == round.ticks
      && Answers(ServerModel.Run(s, a), round, b)
    ensures Answers(s, round, a + b) && ServerModel.Run(s, a + b) == ServerModel.Run(ServerModel.Run(s, a), b)
    ensures Left(s, round.ticks, a + b) == Left(ServerModel.Run(s, a), round.ticks, b)
    decreases |b|
  {
    hide ServerInv, Possible, EventAnswers, LeftAfter, ServerModel.Run, Answers, Left, Next;
    RunAppend(s, a, b);
    if b == [] {
      assert a + b == a;
      AnswersNothing(ServerModel.Run(s, a), round);
    } else {
      var rest, e := b[..|b| - 1], b[|b| - 1];
      AnswersLast(ServerModel.Run(s, a), round, b);
      AnswersAppend(s, round, a, rest);
      Extend(s, round, a + rest, e);
      assert a + b == a + rest + [e];
    }
  }

  lemma AnswersLast<W>(s: Server<W>, round: Round, h: seq<Event<W>>)
    requires ServerInv(s) && Answers(s, round, h) && h != []
    ensures var rest, e := h[..|h| - 1], h[|h| - 1];
      var t, left := ServerModel.Run(s, rest), Left(s, round.ticks, rest);
      && Answers(s, round, rest) && Possible(t, e) && EventAnswers(t, round.answer, round.inputs, left, e)
      && Left(s, round.ticks, h) == LeftAfter(t, left)
  {
    hide ServerInv, Possible, EventAnswers, LeftAfter, ServerModel.Run;
  }

  lemma AnswersNothing<W>(s: Server<W>, round: Round)
    requires ServerInv(s)
    ensures Answers(s, round, []) && Left(s, round.ticks, []) == round.ticks && ServerModel.Run(s, []) == s
  {
    hide ServerInv;
    RunNothing(s);
  }

  lemma RoundsMore<W>(s: Server<W>, rounds: seq<Round>, hs: seq<seq<Event<W>>>, i: nat, h: seq<Event<W>>)
    requires ServerInv(s) && i < |rounds| && RoundsAnswer(s, rounds[..i], hs)
      && RoundAnswers(ServerModel.Run(s, Flat(hs)), rounds[i], h)
    ensures RoundsAnswer(s, rounds[..i + 1], hs + [h]) && Flat(hs + [h]) == Flat(hs) + h
  {
    hide ServerInv, ServerModel.Run, RoundAnswers;
    assert rounds[..i + 1][..i] == rounds[..i] && (hs + [h])[..i] == hs;
  }

  // ---------- the offers determine the round ----------

  /** The same but for the identity of memory. */
  ghost predicate SameButMemory<W>(e: Event<W>, f: Event<W>) {
    e == f || (TakesMemory(e) && TakesMemory(f) && e.recv == f.recv && e.accept.fd == f.accept.fd)
  }

  ghost predicate TakesMemory<W>(e: Event<W>) {
    e.Visited? && e.accept.Accepted? && e.accept.conn.Some?
  }

  lemma EventDetermined<W>(s: Server<W>, answer: Answer, inputs: seq<Input>, ticks: map<int, seq<Tick>>, e: Event<W>,
      f: Event<W>)
    requires ServerInv(s) && EventAnswers(s, answer, inputs, ticks, e) && EventAnswers(s, answer, inputs, ticks, f)
    ensures SameButMemory(e, f) && (s.phase.Top? ==> e.DoPoll?)
  {
    hide ServerInv, Offered, Target, InputAt;
  }

  lemma {:induction false} AnswersAt<W>(s: Server<W>, round: Round, h: seq<Event<W>>, k: nat)
    requires ServerInv(s) && Answers(s, round, h) && k < |h|
    ensures EventAnswers(ServerModel.Run(s, h[..k]), round.answer, round.inputs, Left(s, round.ticks, h[..k]), h[k])
    ensures Possible(ServerModel.Run(s, h[..k]), h[k])
    decreases |h|
  {
    hide ServerInv, Possible, EventAnswers, ServerModel.Run, Left;
    var rest := h[..|h| - 1];
    if k < |rest| {
      AnswersAt(s, round, rest, k);
      assert rest[..k] == h[..k];
    }
  }

  /** Wherever two histories take memory at the same moment, it is the same. */
  ghost predicate SameMemory<W>(g: seq<Event<W>>, h: seq<Event<W>>) {
    forall k :: 0 <= k < |g| && k < |h| && TakesMemory(g[k]) && TakesMemory(h[k]) ==>
      g[k].accept.conn == h[k].accept.conn
  }

  lemma {:induction false} SamePrefix<W>(s: Server<W>, round: Round, g: seq<Event<W>>, h: seq<Event<W>>, k: nat)
    requires ServerInv(s) && Answers(s, round, g) && Answers(s, round, h) && SameMemory(g, h) && k <= |g| && k <= |h|
    ensures g[..k] == h[..k]
  {
    hide ServerInv, Answers, EventAnswers, ServerModel.Run, Left;
    if k > 0 {
      var j := k - 1;
      SamePrefix(s, round, g, h, j);
      AnswersAt(s, round, g, j);
      AnswersAt(s, round, h, j);
      EventDetermined(ServerModel.Run(s, g[..j]), round.answer, round.inputs, Left(s, round.ticks, g[..j]), g[j], h[j]);
      assert g[..k] == g[..j] + [g[j]] && h[..k] == h[..j] + [h[j]];
    }
  }

  lemma PollsFirst<W>(h: seq<Event<W>>, answer: Answer)
    requires OnePoll(h, answer)
    ensures h != [] && forall k :: 0 < k < |h| ==> !h[k].DoPoll?
  {
    assert forall k :: 0 < k < |h| ==> h[k] == h[1..][k - 1];
  }

  lemma NotLonger<W>(s: Server<W>, round: Round, g: seq<Event<W>>, h: seq<Event<W>>)
    requires ServerInv(s) && RoundAnswers(s, round, g) && RoundAnswers(s, round, h) && SameMemory(g, h)
    ensures |h| <= |g|
  {
    hide ServerInv, Answers, EventAnswers, ServerModel.Run, Left, SameMemory, OnePoll;
    PollsFirst(g, round.answer);
    PollsFirst(h, round.answer);
    if |g| < |h| {
      SamePrefix(s, round, g, h, |g|);
      assert g[..|g|] == g;
      AnswersAt(s, round, h, |g|);
      EventDetermined(ServerModel.Run(s, g), round.answer, round.inputs, Left(s, round.ticks, g), h[|g|], h[|g|]);
    }
  }

  /** What the outside offers in a round determines everything that happens in it: two histories that the same
      round leads to from the same state, and that get the same memory for new connections, are one. */
  lemma RoundDetermined<W>(s: Server<W>, round: Round, g: seq<Event<W>>, h: seq<Event<W>>)
    requires ServerInv(s) && RoundAnswers(s, round, g) && RoundAnswers(s, round, h) && SameMemory(g, h)
    ensures g == h
  {
    hide ServerInv, Answers, ServerModel.Run;
    NotLonger(s, round, g, h);
    assert SameMemory(h, g);
    NotLonger(s, round, h, g);
    SamePrefix(s, round, g, h, |g|);
    assert g[..|g|] == g && h[..|g|] == h;
  }

  // ---------- every slot gets its own input ----------

  /** The callback of a slot's target gets input: a connection what was received and parsed; the listener a
      descriptor exactly if there is input, the maximum is not reached and the one offered is not open. */
  ghost predicate Carries<W>(t: Server<W>, target: Option<(W, Mask)>, input: Input, recv: Recv, a: Accept<W>) {
    match target
    case None => recv == WouldBlock && a == Refused
    case Some((w, m)) =>
      if w != t.listener then recv == Received(0, input.len, input.parse) && a == Refused
      else
        && recv == WouldBlock && (a.Accepted? ==> a.fd == input.fd && (a.conn.Some? <==> input.memory))
        && (a.Accepted? <==>
              && m.pollin && t.numConns < MAX_CONNECTIONS && 0 <= input.fd <= MAX_FD
              && forall v :: v in t.loop.io ==> t.loop.io[v].fd != input.fd)
  }

  /** If the first event begins a pass, the events after it are the visits of all slots in order, the i-th with
      inputs[i]. */
  ghost predicate Dispatched<W>(s: Server<W>, inputs: seq<Input>, h: seq<Event<W>>)
    requires ServerInv(s)
  {
    h != [] && (ServerModel.Run(s, h[..1]).phase.Pass? ==>
      var n := |ServerModel.Run(s, h[..1]).loop.slots|;
      n + 1 < |h| && forall i :: 0 <= i < n ==> VisitsSlot(s, inputs, h, n, i))
  }

  /** After the poll and i visits, the next event is the visit of slot i, out of n, with inputs[i]. */
  ghost predicate VisitsSlot<W>(s: Server<W>, inputs: seq<Input>, h: seq<Event<W>>, n: nat, i: nat)
    requires ServerInv(s) && i < n < |h| - 1
  {
    var t := ServerModel.Run(s, h[..i + 1]);
    && t.phase == Pass(i) && |t.loop.slots| == n && h[i + 1].Visited?
    && (i < |inputs| ==> Carries(t, Target(t.loop, i), inputs[i], h[i + 1].recv, h[i + 1].accept))
  }

  lemma OneVisit<W>(t: Server<W>, e: Event<W>, round: Round, ticks: map<int, seq<Tick>>, i: nat)
    requires ServerInv(t) && t.phase == Pass(i) && i < |t.loop.slots| && Possible(t, e)
    requires EventAnswers(t, round.answer, round.inputs, ticks, e)
    ensures Next(t, e).phase == Pass(i + 1) && |Next(t, e).loop.slots| == |t.loop.slots| && e.Visited?
    ensures i < |round.inputs| ==> Carries(t, Target(t.loop, i), round.inputs[i], e.recv, e.accept)
  {
    hide Inv, FdsOk, PhasesOk, CountOk, VisitOne, Target, FreedTwice;
    VisitOneKeeps(t, i, e.recv, e.accept);
  }

  /** So far as the pass has got. */
  lemma {:induction false} VisitsSoFar<W>(s: Server<W>, round: Round, h: seq<Event<W>>, i: nat)
    requires ServerInv(s) && Answers(s, round, h) && h != [] && i < |h|
    requires var b := ServerModel.Run(s, h[..1]); b.phase == Pass(0) && i <= |b.loop.slots|
    ensures var t := ServerModel.Run(s, h[..i + 1]);
      t.phase == Pass(i) && |t.loop.slots| == |ServerModel.Run(s, h[..1]).loop.slots|
  {
    hide ServerInv, Answers, EventAnswers, Possible, Next, ServerModel.Run, Left;
    if i > 0 {
      VisitsSoFar(s, round, h, i - 1);
      AnswersAt(s, round, h, i);
      var t := ServerModel.Run(s, h[..i]);
      OneVisit(t, h[i], round, Left(s, round.ticks, h[..i]), i - 1);
      RunMore(s, h[..i], h[i]);
      assert h[..i + 1] == h[..i] + [h[i]];
    }
  }

  lemma FirstEvent<W>(s: Server<W>, round: Round, h: seq<Event<W>>)
    requires ServerInv(s) && s.phase.Top? && Answers(s, round, h) && OnePoll(h, round.answer)
    ensures h != [] && (ServerModel.Run(s, h[..1]).phase.Pass? ==> ServerModel.Run(s, h[..1]).phase == Pass(0))
  {
    hide ServerInv, Answers, EventAnswers, ServerModel.Run, Left;
    AnswersAt(s, round, h, 0);
    assert h[..0] == [] && h[..1] == [] + [h[0]];
    RunNothing(s);
    RunMore(s, [], h[0]);
    PollBegins(s, h[0]);
  }

  lemma PollBegins<W>(s: Server<W>, e: Event<W>)
    requires ServerInv(s) && s.phase.Top? && Possible(s, e)
    ensures Next(s, e).phase.Pass? ==> Next(s, e).phase == Pass(0)
  {
    hide Inv, FdsOk, PhasesOk, CountOk, Begin, Stop;
  }

  lemma PassIsOver<W>(s: Server<W>, round: Round, h: seq<Event<W>>)
    requires ServerInv(s) && Answers(s, round, h) && h != [] && ServerModel.Run(s, h[..1]).phase == Pass(0)
    ensures |h| <= |ServerModel.Run(s, h[..1]).loop.slots| + 1 ==> ServerModel.Run(s, h).phase.Pass?
  {
    hide ServerInv, Answers, EventAnswers, Possible, Next, ServerModel.Run, Left;
    if |h| <= |ServerModel.Run(s, h[..1]).loop.slots| + 1 {
      VisitsSoFar(s, round, h, |h| - 1);
      assert h[..|h|] == h;
    }
  }

  lemma PassDispatched<W>(s: Server<W>, round: Round, h: seq<Event<W>>)
    requires ServerInv(s) && Answers(s, round, h) && h != [] && ServerModel.Run(s, h[..1]).phase == Pass(0)
    requires |h| > |ServerModel.Run(s, h[..1]).loop.slots| + 1
    ensures Dispatched(s, round.inputs, h)
  {
    hide ServerInv, Answers, ServerModel.Run, VisitsSlot;
    var n := |ServerModel.Run(s, h[..1]).loop.slots|;
    forall i | 0 <= i < n ensures VisitsSlot(s, round.inputs, h, n, i) {
      SlotDispatched(s, round, h, n, i);
    }
  }

  lemma SlotDispatched<W>(s: Server<W>, round: Round, h: seq<Event<W>>, n: nat, i: nat)
    requires ServerInv(s) && Answers(s, round, h) && i < n < |h| - 1
    requires ServerModel.Run(s, h[..1]).phase == Pass(0) && n == |ServerModel.Run(s, h[..1]).loop.slots|
    ensures VisitsSlot(s, round.inputs, h, n, i)
  {
    hide ServerInv, Answers, EventAnswers, Possible, Next, ServerModel.Run, Left, Carries;
    VisitsSoFar(s, round, h, i);
    AnswersAt(s, round, h, i + 1);
    OneVisit(ServerModel.Run(s, h[..i + 1]), h[i + 1], round, Left(s, round.ticks, h[..i + 1]), i);
  }

  lemma NoPass<W>(s: Server<W>, inputs: seq<Input>, h: seq<Event<W>>)
    requires ServerInv(s) && h != [] && !ServerModel.Run(s, h[..1]).phase.Pass?
    ensures Dispatched(s, inputs, h)
  {
    hide ServerInv, ServerModel.Run, Carries;
  }

  /** A whole pass with the offers of a round visits every slot once, in order and with its own input. */
  lemma VisitsCarryInputs<W>(s: Server<W>, round: Round, h: seq<Event<W>>)
    requires ServerInv(s) && s.phase.Top? && Answers(s, round, h) && OnePoll(h, round.answer)
    requires !ServerModel.Run(s, h).phase.Pass?
    ensures Dispatched(s, round.inputs, h)
  {
    hide ServerInv, Answers, ServerModel.Run, OnePoll, Dispatched;
    FirstEvent(s, round, h);
    if ServerModel.Run(s, h[..1]).phase.Pass? {
      PassIsOver(s, round, h);
      PassDispatched(s, round, h);
    } else {
      NoPass(s, round.inputs, h);
    }
  }

  // ---------- the drain ----------

  /** The engine as the drain function knows it: answers by connection. */
  ghost function EngineOf<W>(s: Server<W>, ticks: map<int, seq<Tick>>): Engine<W>
    requires s.live <= s.loop.io.Keys
  {
    Engine(map c | c in s.live && s.loop.io[c].fd in ticks :: ticks[s.loop.io[c].fd], s.completed)
  }

  /** For everyone queued, the two views of the engine agree. */
  ghost predicate Agreed<W>(s: Server<W>, e: Engine<W>, ticks: map<int, seq<Tick>>) {
    forall c :: c in s.runQueue ==>
      && c in s.loop.io && TicksOf(e, c) == TicksFor(ticks, s.loop.io[c].fd)
      && (c in s.completed <==> c in e.completed)
  }

  lemma EngineAgrees<W>(s: Server<W>, ticks: map<int, seq<Tick>>)
    requires ServerInv(s)
    ensures s.live <= s.loop.io.Keys && Distinct(s.runQueue) && Agreed(s, EngineOf(s, ticks), ticks)
  {
    hide Inv, CountOk, PassOk, Distinct;
  }

  lemma QueuedFds<W>(s: Server<W>, c: W, d: W)
    requires ServerInv(s) && c in s.runQueue && d in s.runQueue && c != d
    ensures c in s.loop.io && d in s.loop.io && s.loop.io[c].fd != s.loop.io[d].fd
  {
    hide Inv, CountOk, PassOk, Distinct;
  }

  lemma UsedTicks<W>(e: Engine<W>, c: W, d: W, ticks: map<int, seq<Tick>>, fd: int, other: int)
    requires TicksOf(e, c) == TicksFor(ticks, fd)
    ensures e.Next(c) == NextTick(ticks, fd) && TicksOf(e.After(c), c) == TicksFor(Used(ticks, fd), fd)
    ensures d != c && fd != other && TicksOf(e, d) == TicksFor(ticks, other) ==>
      TicksOf(e.After(c), d) == TicksFor(Used(ticks, fd), other) && (d in e.After(c).completed <==> d in e.completed)
  {
  }

  lemma TurnAgrees<W>(s: Server<W>, e: Engine<W>, ticks: map<int, seq<Tick>>, r: Server<W>)
    requires ServerInv(s) && s.runQueue != [] && Agreed(s, e, ticks) && s.runQueue[0] in s.loop.io
    requires OthersUntouched(s, r, s.runQueue[0])
    requires forall d :: d in r.runQueue ==> d in s.runQueue
    requires var c := s.runQueue[0];
      c in r.runQueue ==>
        && c in r.loop.io && r.loop.io[c].fd == HeadFd(s)
        && (c in r.completed <==> c in e.After(c).completed)
    ensures Agreed(r, e.After(s.runQueue[0]), Used(ticks, HeadFd(s)))
  {
    hide ServerInv, Used, NextTick, TicksFor, TicksOf, Without;
    var c, left := s.runQueue[0], Used(ticks, HeadFd(s));
    forall d | d in r.runQueue
      ensures d in r.loop.io && TicksOf(e.After(c), d) == TicksFor(left, r.loop.io[d].fd)
      ensures d in r.completed <==> d in e.After(c).completed
    {
      assert c in s.runQueue && d in s.runQueue;
      UsedTicks(e, c, d, ticks, HeadFd(s), s.loop.io[d].fd);
      if d != c {
        QueuedFds(s, c, d);
        assert d in s.completed <==> d in s.completed - {c};
        assert d in r.completed <==> d in r.completed - {c};
      }
    }
  }

  lemma HeadKept<W>(s: Server<W>, t: Tick)
    requires ServerInv(s) && s.runQueue != [] && s.runQueue[0] in s.loop.io && s.loop.io[s.runQueue[0]].fd >= 0
    ensures var c, r := s.runQueue[0], DrainOne(s, t);
      Decide(c in s.completed, JsPoll(t)) == Requeue ==>
        && c in r.loop.io && r.loop.io[c].fd == HeadFd(s) && (c in r.completed <==> t.completes || c in s.completed)
  {
    hide ServerInv, Cleanup;
  }

  /** One turn of the drain loop, with the answer that the outside has for it, is one step of the drain function:
      what the log has and what the function has still to do are together the same. */
  lemma DrainTurn<W>(s: Server<W>, e: Engine<W>, ticks: map<int, seq<Tick>>)
    requires ServerInv(s) && s.phase.Draining? && s.runQueue != [] && Agreed(s, e, ticks)
    ensures s.runQueue[0] in s.loop.io && Distinct(s.runQueue)
    ensures var c := s.runQueue[0]; var t := NextTick(ticks, HeadFd(s)); var r := Next(s, DoDrain(t));
      && Possible(s, DoDrain(t)) && ServerInv(r) && r.phase.Draining? && Distinct(r.runQueue)
      && Agreed(r, e.After(c), Used(ticks, HeadFd(s)))
      && r.log + Drain(r.runQueue, e.After(c)) == s.log + Drain(s.runQueue, e)
      && Work(r.runQueue, e.After(c)) < Work(s.runQueue, e)
  {
    hide Inv, FdsOk, PhasesOk, CountOk, Agreed, Cleanup, CanCleanup, Without, DrainOne, Drain, Work, OthersUntouched,
      Distinct;
    HeadTracked(s);
    QueueDistinct(s);
    var c := s.runQueue[0];
    UsedTicksOfHead(s, e, ticks);
    var t := NextTick(ticks, HeadFd(s));
    var v := Decide(c in s.completed, JsPoll(t));
    NextKeepsInv(s, DoDrain(t));
    DrainOutcome(s, t);
    var r := Next(s, DoDrain(t));
    QueueDistinct(r);
    assert r == DrainOne(s, t);
    DrainsOn(s, t);
    HeadKept(s, t);
    DrainCons(s.runQueue, e);
    QueueAfterTurn(s, r, v);
    TurnAgrees(s, e, ticks, r);
    assert s.log + ([Poll(c)] + Ending(c, v)) + Drain(r.runQueue, e.After(c))
        == s.log + ([Poll(c)] + Ending(c, v) + Drain(r.runQueue, e.After(c)));
  }

  lemma DrainsOn<W>(s: Server<W>, t: Tick)
    requires Settled(s) && s.runQueue != [] && s.phase.Draining?
    ensures s.runQueue[0] in s.loop.io && s.loop.io[s.runQueue[0]].fd >= 0 && DrainOne(s, t).phase.Draining?
  {
    hide Settled, DrainOne;
    DrainOneKeeps(s, t);
  }

  lemma QueueDistinct<W>(s: Server<W>)
    requires ServerInv(s)
    ensures Distinct(s.runQueue)
  {
    hide Inv, Distinct;
  }

  lemma UsedTicksOfHead<W>(s: Server<W>, e: Engine<W>, ticks: map<int, seq<Tick>>)
    requires s.runQueue != [] && Agreed(s, e, ticks)
    ensures s.runQueue[0] in s.loop.io && e.Next(s.runQueue[0]) == NextTick(ticks, HeadFd(s))
    ensures s.runQueue[0] in s.completed <==> s.runQueue[0] in e.completed
  {
    assert s.runQueue[0] in s.runQueue;
  }

  lemma QueueAfterTurn<W>(s: Server<W>, r: Server<W>, v: Verdict)
    requires Distinct(s.runQueue) && s.runQueue != [] && s.runQueue[0] in s.loop.io
    requires Met(s, r, s.runQueue[0], FateAfter(v))
    ensures r.runQueue == if v == Requeue then s.runQueue[1..] + [s.runQueue[0]] else s.runQueue[1..]
    ensures forall d :: d in r.runQueue ==> d in s.runQueue
    ensures s.runQueue[0] in r.runQueue ==> v == Requeue
  {
    hide Without;
    HeadWithout(s.runQueue);
  }

  /** So far as the drain has got, by any history that answers the offers. */
  lemma {:induction false} DrainSoFar<W>(s: Server<W>, round: Round, h: seq<Event<W>>) returns (e: Engine<W>)
    requires ServerInv(s) && s.phase.Draining? && Answers(s, round, h) && NoPoll(h)
    ensures s.live <= s.loop.io.Keys && Distinct(s.runQueue)
    ensures var t := ServerModel.Run(s, h);
      && (t.phase.Draining? || (t.phase.Top? && t.runQueue == [])) && Distinct(t.runQueue)
      && (t.phase.Draining? ==> Agreed(t, e, Left(s, round.ticks, h)))
      && t.log + Drain(t.runQueue, e) == s.log + Drain(s.runQueue, EngineOf(s, round.ticks))
    decreases |h|
  {
    hide ServerInv, Agreed, Drain, Work, ServerModel.Run, Possible, Next, EngineOf, Distinct;
    EngineAgrees(s, round.ticks);
    if h == [] {
      AnswersNothing(s, round);
      e := EngineOf(s, round.ticks);
    } else {
      var rest, last := h[..|h| - 1], h[|h| - 1];
      assert h == rest + [last];
      var d := DrainSoFar(s, round, rest);
      var t := ServerModel.Run(s, rest);
      RunMore(s, rest, last);
      TopPolls(t, last);
      var ticks := Left(s, round.ticks, rest);
      assert !last.DoPoll?;
      if t.runQueue == [] {
        LastTurn(t);
        e := d;
      } else {
        DrainTurn(t, d, ticks);
        e := d.After(t.runQueue[0]);
      }
    }
  }

  lemma TopPolls<W>(t: Server<W>, e: Event<W>)
    requires ServerInv(t) && Possible(t, e) && !e.DoPoll? && (t.phase.Top? ==> !e.Exit?)
    ensures !t.phase.Top?
  {
    hide ServerInv;
  }

  lemma LastTurn<W>(t: Server<W>)
    requires ServerInv(t) && t.phase.Draining? && t.runQueue == []
    ensures Possible(t, DoDrain(IDLE)) && Next(t, DoDrain(IDLE)) == t.(phase := Top)
  {
    hide ServerInv;
  }

  /** The log of a whole drain is that of the drain function, for the queue and the engine at its start. */
  lemma DrainLogged<W>(s: Server<W>, round: Round, h: seq<Event<W>>)
    requires ServerInv(s) && s.phase.Draining? && Answers(s, round, h) && NoPoll(h)
    requires ServerModel.Run(s, h).phase.Top?
    ensures s.live <= s.loop.io.Keys && Distinct(s.runQueue)
    ensures ServerModel.Run(s, h).runQueue == []
    ensures ServerModel.Run(s, h).log == s.log + Drain(s.runQueue, EngineOf(s, round.ticks))
  {
    hide ServerInv, Agreed, Work, ServerModel.Run, Possible, Next, EngineOf, Distinct, Answers;
    var e := DrainSoFar(s, round, h);
  }

  /** What l does to c: if c is queued, what the offered answers for its descriptor lead to when it is alone, and
      otherwise nothing. */
  ghost predicate TreatedAlone<W>(s: Server<W>, ticks: map<int, seq<Tick>>, l: seq<Action<W>>, c: W)
    requires c in s.loop.io
  {
    Project(l, c) ==
      if c !in s.runQueue then []
      else Solo(c, if s.loop.io[c].fd in ticks then ticks[s.loop.io[c].fd] else [], c in s.completed)
  }

  /** The drain treats every live connection so. */
  lemma DrainByDescriptor<W>(s: Server<W>, ticks: map<int, seq<Tick>>, c: W)
    requires ServerInv(s) && c in s.live
    ensures s.live <= s.loop.io.Keys && Distinct(s.runQueue)
    ensures TreatedAlone(s, ticks, Drain(s.runQueue, EngineOf(s, ticks)), c)
  {
    hide ServerInv, Drain, Project, Solo, EngineOf, Distinct;
    EngineAgrees(s, ticks);
    EngineCompleted(s, ticks);
    DrainIsFair(s.runQueue, EngineOf(s, ticks), c);
  }

  lemma EngineCompleted<W>(s: Server<W>, ticks: map<int, seq<Tick>>)
    requires s.live <= s.loop.io.Keys
    ensures EngineOf(s, ticks).completed == s.completed
  {
  }
}

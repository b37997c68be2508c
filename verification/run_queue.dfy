/** The drain loop over the queue of running JavaScript contexts, as a function from the queue and
    what the engine will answer to the list of things the loop does. */
module RunQueue {
  import opened Ring

  /** What one poll of a context meets: whether a timer is active, what the engine returns for a
      pending job, and whether that job calls the response callback. */
  datatype Tick = Tick(timerActive: bool, job: int, completes: bool)

  /** The answer of a context that has nothing left to do. */
  const IDLE := Tick(false, 0, false)

  /** `js_runtime_poll`. */
  function JsPoll(t: Tick): int {
    if t.job < 0 then -1 else if !t.timerActive && t.job <= 0 then 0 else 1
  }

  datatype Verdict = Requeue | WriteBack | Abandon

  /** What the loop does with a connection after polling it. */
  function Decide(callbacked: bool, pending: int): Verdict {
    if !callbacked && pending != 0 then (if pending < 0 then Abandon else Requeue) else WriteBack
  }

  /** The two decisions together: who is kept, and who is given up. */
  lemma KeptExactly(callbacked: bool, t: Tick)
    ensures Decide(callbacked, JsPoll(t)) == Requeue <==> !callbacked && (t.job > 0 || (t.job == 0 && t.timerActive))
    ensures Decide(callbacked, JsPoll(t)) == WriteBack <==> callbacked || (t.job == 0 && !t.timerActive)
    ensures Decide(callbacked, JsPoll(t)) == Abandon <==> !callbacked && t.job < 0
  {
  }

  /** What is done to a connection: its context is polled, its response is written, it is answered without a
      response of a handler, and it is freed. */
  datatype Action<C> = Poll(c: C) | Write(c: C) | Reply(c: C, status: int) | Free(c: C)

  /** Each context's answers, and whether its response is complete. */
  datatype Engine<C> = Engine(ticks: map<C, seq<Tick>>, completed: set<C>)
  {
    function Next(c: C): Tick {
      if c in ticks && ticks[c] != [] then ticks[c][0] else IDLE
    }

    function After(c: C): Engine<C> {
      Engine(if c in ticks && ticks[c] != [] then ticks[c := ticks[c][1..]] else ticks,
             if Next(c).completes then completed + {c} else completed)
    }

    function Left(c: C): nat {
      if c in ticks then |ticks[c]| else 0
    }

    function VerdictOf(c: C): Verdict {
      Decide(c in completed, JsPoll(Next(c)))
    }
  }

  function Ending<C>(c: C, v: Verdict): seq<Action<C>> {
    match v
    case Requeue => []
    case WriteBack => [Write(c), Free(c)]
    case Abandon => [Free(c)]
  }

  ghost function Work<C>(q: seq<C>, e: Engine<C>): nat {
    if q == [] then 0 else 1 + e.Left(q[0]) + Work(q[1..], e)
  }

  lemma {:induction false} WorkAppend<C>(q: seq<C>, r: seq<C>, e: Engine<C>)
    ensures Work(q + r, e) == Work(q, e) + Work(r, e)
  {
    if q == [] {
      assert q + r == r;
    } else {
      assert (q + r)[1..] == q[1..] + r;
      WorkAppend(q[1..], r, e);
    }
  }

  /** Polling c does not touch the answers of the others. */
  lemma {:induction false} WorkFrame<C>(q: seq<C>, e: Engine<C>, c: C)
    requires c !in q
    ensures Work(q, e.After(c)) == Work(q, e)
  {
    if q != [] { WorkFrame(q[1..], e, c); }
  }

  lemma {:induction false} WorkDrops<C>(q: seq<C>, e: Engine<C>)
    requires q != [] && Distinct(q)
    ensures Work(q[1..], e.After(q[0])) < Work(q, e)
    ensures e.VerdictOf(q[0]) == Requeue ==> Work(q[1..] + [q[0]], e.After(q[0])) < Work(q, e)
  {
    var c := q[0];
    WorkFrame(q[1..], e, c);
    WorkAppend(q[1..], [c], e.After(c));
  }

  /** What the loop does until the queue is empty. */
  ghost function Drain<C>(q: seq<C>, e: Engine<C>): seq<Action<C>>
    requires Distinct(q)
    decreases Work(q, e)
  {
    if q == [] then []
    else
      WorkDrops(q, e);
      var c, v := q[0], e.VerdictOf(q[0]);
      [Poll(c)] + Ending(c, v) + Drain(if v == Requeue then q[1..] + [c] else q[1..], e.After(c))
  }

  lemma DrainCons<C>(q: seq<C>, e: Engine<C>)
    requires Distinct(q) && q != []
    ensures var c := q[0]; var v := e.VerdictOf(c); var rest := if v.Requeue? then q[1..] + [c] else q[1..];
      && Distinct(rest) && Work(rest, e.After(c)) < Work(q, e)
      && Drain(q, e) == [Poll(c)] + Ending(c, v) + Drain(rest, e.After(c))
  {
    WorkDrops(q, e);
  }

  // ---------- each connection gets exactly the treatment it would get alone ----------

  ghost function Project<C>(log: seq<Action<C>>, c: C): seq<Action<C>> {
    if log == [] then []
    else (if log[0].c == c then [log[0]] else []) + Project(log[1..], c)
  }

  lemma ProjectCons<C>(x: Action<C>, log: seq<Action<C>>, c: C)
    ensures Project([x] + log, c) == (if x.c == c then [x] else []) + Project(log, c)
  {
    assert ([x] + log)[1..] == log;
  }

  lemma {:induction false} ProjectAppend<C>(a: seq<Action<C>>, b: seq<Action<C>>, c: C)
    ensures Project(a + b, c) == Project(a, c) + Project(b, c)
  {
    if a == [] {
      assert a + b == b;
    } else {
      assert a + b == [a[0]] + (a[1..] + b) && a == [a[0]] + a[1..];
      ProjectCons(a[0], a[1..] + b, c);
      ProjectAppend(a[1..], b, c);
    }
  }

  /** The history of a connection that has the loop to itself: polls up to the verdict, then the end. */
  ghost function Solo<C>(c: C, ticks: seq<Tick>, completed: bool): seq<Action<C>>
    decreases |ticks|
  {
    var t := if ticks == [] then IDLE else ticks[0];
    var v := Decide(completed, JsPoll(t));
    [Poll(c)] + if v == Requeue then Solo(c, ticks[1..], completed || t.completes) else Ending(c, v)
  }

  function TickAt(ticks: seq<Tick>, k: nat): Tick {
    if k < |ticks| then ticks[k] else IDLE
  }

  ghost function TicksOf<C>(e: Engine<C>, c: C): seq<Tick> {
    if c in e.ticks then e.ticks[c] else []
  }

  /** However the connections interleave, each has exactly the history it would have alone; what is not
      queued is not touched. */
  lemma {:induction false} DrainIsFair<C>(q: seq<C>, e: Engine<C>, c: C)
    requires Distinct(q)
    ensures Project(Drain(q, e), c) == if c in q then Solo(c, TicksOf(e, c), c in e.completed) else []
    decreases Work(q, e)
  {
    hide Drain, Work, Project, Solo, Ending, Distinct;
    if q == [] {
      DrainNothing(e, c);
    } else {
      DrainCons(q, e);
      var d, v := q[0], e.VerdictOf(q[0]);
      var rest := if v == Requeue then q[1..] + [d] else q[1..];
      ProjectAppend([Poll(d)] + Ending(d, v), Drain(rest, e.After(d)), c);
      ProjectHead(d, v, c);
      DrainIsFair(rest, e.After(d), c);
      TicksAfter(e, d, c);
      SoloCons(c, TicksOf(e, c), c in e.completed);
      HeadOnce(q);
      StillQueued(q, v == Requeue, c);
      JoinLog(c, v, Project(Drain(rest, e.After(d)), c));
    }
  }

  lemma StillQueued<C>(q: seq<C>, kept: bool, c: C)
    requires q != [] && q[0] !in q[1..]
    ensures c in (if kept then q[1..] + [q[0]] else q[1..]) <==> c in q && (c != q[0] || kept)
  {
  }

  lemma JoinLog<C>(c: C, v: Verdict, log: seq<Action<C>>)
    ensures var own := [Poll(c)] + Ending(c, v);
      [] + log == log && own + [] == own && (v == Requeue ==> own + log == [Poll(c)] + log)
  {
  }

  lemma DrainNothing<C>(e: Engine<C>, c: C)
    ensures Distinct<C>([]) && Drain<C>([], e) == [] && Project(Drain<C>([], e), c) == []
  {
    assert Drain<C>([], e) == [];
  }

  lemma HeadOnce<C>(q: seq<C>)
    requires Distinct(q) && q != []
    ensures q[0] !in q[1..]
  {
  }

  lemma TicksAfter<C>(e: Engine<C>, d: C, c: C)
    ensures var r := e.After(d);
      if c == d then
        TicksOf(r, c) == (if TicksOf(e, c) == [] then [] else TicksOf(e, c)[1..])
        && e.Next(c) == TickAt(TicksOf(e, c), 0)
      else TicksOf(r, c) == TicksOf(e, c) && (c in r.completed <==> c in e.completed)
  {
  }

  lemma SoloCons<C>(c: C, ticks: seq<Tick>, completed: bool)
    ensures var t := TickAt(ticks, 0); var v := Decide(completed, JsPoll(t));
      && (v == Requeue ==> ticks != [])
      && Solo(c, ticks, completed)
         == if v == Requeue then [Poll(c)] + Solo(c, ticks[1..], completed || t.completes) else [Poll(c)] + Ending(c, v)
  {
  }

  lemma ProjectHead<C>(d: C, v: Verdict, c: C)
    ensures Project([Poll(d)] + Ending(d, v), c) == if c == d then [Poll(d)] + Ending(d, v) else []
  {
    ProjectCons(Poll(d), Ending(d, v), c);
    assert [Write(d), Free(d)] == [Write(d)] + [Free(d)] && [Free(d)] == [Free(d)] + [];
    ProjectCons(Write(d), [Free(d)], c);
    ProjectCons(Free(d), [], c);
  }

  /** Whether the response is complete when the context is polled for the k-th time. */
  ghost predicate CompleteAt(ticks: seq<Tick>, completed: bool, k: nat) {
    completed || exists i :: 0 <= i < k && i < |ticks| && ticks[i].completes
  }

  lemma ShiftTicks(ticks: seq<Tick>, completed: bool, k: nat)
    requires ticks != []
    ensures TickAt(ticks, k + 1) == TickAt(ticks[1..], k)
    ensures CompleteAt(ticks, completed, k + 1) <==> CompleteAt(ticks[1..], completed || ticks[0].completes, k)
  {
    if i :| 0 <= i < k && i < |ticks[1..]| && ticks[1..][i].completes {
      assert ticks[i + 1].completes;
    }
    if i :| 0 < i < k + 1 && i < |ticks| && ticks[i].completes {
      assert ticks[1..][i - 1].completes;
    }
  }

  lemma FirstTick(ticks: seq<Tick>, completed: bool)
    ensures CompleteAt(ticks, completed, 0) <==> completed
    ensures ticks != [] ==> TickAt(ticks, 0) == ticks[0]
  {
  }

  /** The job ran, or there was none and a timer is still to fire. */
  predicate Busy(t: Tick) {
    t.job > 0 || (t.job == 0 && t.timerActive)
  }

  /** How a history goes: the connection is polled until the response was complete, or nothing is left to do,
      or the poll failed. Then it is freed exactly once, and its response is written exactly once before that,
      unless the poll failed with the response incomplete. */
  lemma {:induction false} SoloRetiresOnce<C>(c: C, ticks: seq<Tick>, completed: bool)
    returns (polls: nat, failed: bool)
    ensures 1 <= polls <= |ticks| + 1
    ensures Solo(c, ticks, completed)
      == seq(polls, _ => Poll(c)) + if failed then [Free(c)] else [Write(c), Free(c)]
    ensures forall k :: 0 <= k < polls - 1 ==> !CompleteAt(ticks, completed, k) && Busy(ticks[k])
    ensures CompleteAt(ticks, completed, polls - 1) || polls - 1 == |ticks| || !Busy(ticks[polls - 1])
    ensures failed <==> !CompleteAt(ticks, completed, polls - 1) && polls - 1 < |ticks| && ticks[polls - 1].job < 0
    decreases |ticks|
  {
    hide Solo, CompleteAt, Decide, JsPoll;
    KeptExactly(completed, TickAt(ticks, 0));
    var t := TickAt(ticks, 0);
    var v := Decide(completed, JsPoll(t));
    SoloCons(c, ticks, completed);
    FirstTick(ticks, completed);
    if v == Requeue {
      var n, f := SoloRetiresOnce(c, ticks[1..], completed || t.completes);
      polls, failed := n + 1, f;
      assert seq(polls, _ => Poll(c)) == [Poll(c)] + seq(n, _ => Poll(c));
      forall k | 0 <= k < polls - 1 ensures !CompleteAt(ticks, completed, k) && Busy(ticks[k]) {
        if k > 0 { ShiftTicks(ticks, completed, k - 1); }
      }
      ShiftTicks(ticks, completed, n - 1);
    } else {
      polls, failed := 1, v == Abandon;
      assert seq(1, _ => Poll(c)) == [Poll(c)];
    }
  }

  // ---------- round robin ----------

  ghost function Polls<C>(log: seq<Action<C>>): seq<C> {
    if log == [] then [] else (if log[0].Poll? then [log[0].c] else []) + Polls(log[1..])
  }

  lemma PollsCons<C>(x: Action<C>, log: seq<Action<C>>)
    ensures Polls([x] + log) == (if x.Poll? then [x.c] else []) + Polls(log)
  {
    assert ([x] + log)[1..] == log;
  }

  lemma {:induction false} PollsAppend<C>(a: seq<Action<C>>, b: seq<Action<C>>)
    ensures Polls(a + b) == Polls(a) + Polls(b)
  {
    if a == [] {
      assert a + b == b;
    } else {
      assert a + b == [a[0]] + (a[1..] + b);
      PollsCons(a[0], a[1..] + b);
      PollsAppend(a[1..], b);
    }
  }

  lemma PollsHead<C>(c: C, v: Verdict, log: seq<Action<C>>)
    ensures Polls([Poll(c)] + Ending(c, v) + log) == [c] + Polls(log)
  {
    PollsAppend([Poll(c)] + Ending(c, v), log);
    PollsCons(Poll(c), Ending(c, v));
    PollsCons(Write(c), [Free(c)]);
    PollsCons(Free(c), []);
    assert [Write(c), Free(c)] == [Write(c)] + [Free(c)] && [Free(c)] + [] == [Free(c)];
  }

  /** The queue and the engine after every queued connection has been polled once, in queue order. */
  ghost function Survivors<C>(q: seq<C>, e: Engine<C>): seq<C> {
    if q == [] then []
    else (if e.VerdictOf(q[0]) == Requeue then [q[0]] else []) + Survivors(q[1..], e.After(q[0]))
  }

  ghost function AfterRound<C>(q: seq<C>, e: Engine<C>): Engine<C> {
    if q == [] then e else AfterRound(q[1..], e.After(q[0]))
  }

  lemma {:induction false} SurvivorsFacts<C>(q: seq<C>, e: Engine<C>)
    requires Distinct(q)
    ensures Distinct(Survivors(q, e)) && forall c :: c in Survivors(q, e) ==> c in q
  {
    if q != [] {
      SurvivorsFacts(q[1..], e.After(q[0]));
      assert q[0] !in q[1..];
    }
  }

  lemma DistinctRotate<C>(c: C, t: seq<C>)
    requires Distinct([c] + t)
    ensures Distinct(t) && c !in t && Distinct(t + [c])
  {
    assert forall i :: 0 <= i < |t| ==> ([c] + t)[i + 1] == t[i];
    forall i, j | 0 <= i < j < |t| ensures t[i] != t[j] {
      assert ([c] + t)[i + 1] != ([c] + t)[j + 1];
    }
    forall i | 0 <= i < |t| ensures t[i] != c {
      assert ([c] + t)[0] != ([c] + t)[i + 1];
    }
  }

  lemma DrainPollsHead<C>(q: seq<C>, e: Engine<C>)
    requires Distinct(q) && q != []
    ensures var rest := if e.VerdictOf(q[0]) == Requeue then q[1..] + [q[0]] else q[1..];
      Distinct(rest) && Polls(Drain(q, e)) == [q[0]] + Polls(Drain(rest, e.After(q[0])))
  {
    var c, v := q[0], e.VerdictOf(q[0]);
    assert q == [c] + q[1..];
    DistinctRotate(c, q[1..]);
    var rest := if v == Requeue then q[1..] + [c] else q[1..];
    PollsHead(c, v, Drain(rest, e.After(c)));
  }

  /** While the first part of the queue is polled, the survivors gather behind the second part. */
  lemma {:induction false} OneRound<C>(a: seq<C>, b: seq<C>, e: Engine<C>)
    requires Distinct(a + b)
    ensures Distinct(b + Survivors(a, e))
    ensures Polls(Drain(a + b, e)) == a + Polls(Drain(b + Survivors(a, e), AfterRound(a, e)))
    decreases a, 1
  {
    hide Drain, Polls, Work, Distinct, Survivors, AfterRound;
    SurvivorsDistinct(a, b, e);
    if a == [] {
      assert Survivors(a, e) == [] && AfterRound(a, e) == e by { NoSurvivors(a, e); }
      assert a + b == b && b + [] == b;
    } else {
      RoundParts(a, b, e);
      DrainPollsHead(a + b, e);
      OneRoundStep(a, b, if e.VerdictOf(a[0]) == Requeue then b + [a[0]] else b, e);
    }
  }

  lemma NoSurvivors<C>(a: seq<C>, e: Engine<C>)
    requires a == []
    ensures Survivors(a, e) == [] && AfterRound(a, e) == e
  {
  }

  lemma RoundParts<C>(a: seq<C>, b: seq<C>, e: Engine<C>)
    requires a != []
    ensures var q := a + b; var kept := e.VerdictOf(a[0]) == Requeue; var b' := if kept then b + [a[0]] else b;
      && q != [] && q[0] == a[0] && (if kept then q[1..] + [q[0]] else q[1..]) == a[1..] + b'
      && b' + Survivors(a[1..], e.After(a[0])) == b + Survivors(a, e)
  {
    hide *;
    var c, t := [a[0]], a[1..];
    SurvivorsCons(a, e);
    assert (a + b)[1..] == t + b;
    Associative(t, b, c);
    Associative(b, c, Survivors(t, e.After(a[0])));
    assert [] + Survivors(t, e.After(a[0])) == Survivors(t, e.After(a[0]));
  }

  lemma Associative<C>(a: seq<C>, b: seq<C>, c: seq<C>)
    ensures a + b + c == a + (b + c)
  {
  }

  lemma SurvivorsCons<C>(q: seq<C>, e: Engine<C>)
    requires q != []
    ensures Survivors(q, e) == (if e.VerdictOf(q[0]) == Requeue then [q[0]] else []) + Survivors(q[1..], e.After(q[0]))
  {
  }

  lemma {:induction false} OneRoundStep<C>(a: seq<C>, b: seq<C>, b': seq<C>, e: Engine<C>)
    requires a != [] && Distinct(a + b) && Distinct(a[1..] + b')
    requires Polls(Drain(a + b, e)) == [a[0]] + Polls(Drain(a[1..] + b', e.After(a[0])))
    requires b' + Survivors(a[1..], e.After(a[0])) == b + Survivors(a, e)
    ensures Distinct(b + Survivors(a, e))
    ensures Polls(Drain(a + b, e)) == a + Polls(Drain(b + Survivors(a, e), AfterRound(a, e)))
    decreases a, 0
  {
    hide Drain, Polls, Work, Distinct, Survivors;
    OneRound(a[1..], b', e.After(a[0]));
    assert a == [a[0]] + a[1..];
  }

  lemma SurvivorsDistinct<C>(a: seq<C>, b: seq<C>, e: Engine<C>)
    requires Distinct(a + b)
    ensures Distinct(b + Survivors(a, e))
  {
    assert forall i, j :: 0 <= i < |a| && 0 <= j < |b| ==> a[i] != b[j] by {
      forall i, j | 0 <= i < |a| && 0 <= j < |b| ensures a[i] != b[j] {
        assert (a + b)[i] == a[i] && (a + b)[|a| + j] == b[j];
      }
    }
    assert Distinct(a) by { assert forall i :: 0 <= i < |a| ==> (a + b)[i] == a[i]; }
    assert Distinct(b) by { assert forall i :: 0 <= i < |b| ==> (a + b)[|a| + i] == b[i]; }
    SurvivorsFacts(a, e);
    forall i, j | 0 <= i < |b| && 0 <= j < |Survivors(a, e)| ensures b[i] != Survivors(a, e)[j] {
      assert Survivors(a, e)[j] in a;
    }
  }

  /** The loop works in rounds: it polls the whole queue in order, and then goes on with those that
      asked to be kept, still in order. */
  lemma DrainInRounds<C>(q: seq<C>, e: Engine<C>)
    requires Distinct(q)
    ensures Distinct(Survivors(q, e))
    ensures Polls(Drain(q, e)) == q + Polls(Drain(Survivors(q, e), AfterRound(q, e)))
  {
    assert q + [] == q && [] + Survivors(q, e) == Survivors(q, e);
    OneRound(q, [], e);
  }

  lemma HeadPolledAgain<C>(c: C, rest: seq<C>, e: Engine<C>)
    requires Distinct([c] + rest) && e.VerdictOf(c) == Requeue
    ensures [c] + rest + [c] <= Polls(Drain([c] + rest, e))
  {
    var q := [c] + rest;
    DrainInRounds(q, e);
    var s := Survivors(q, e);
    assert s[0] == c;
    DrainInRounds(s, AfterRound(q, e));
  }

  /** The queue and the engine after n turns of the loop. */
  ghost function Turns<C>(q: seq<C>, e: Engine<C>, n: nat): (seq<C>, Engine<C>)
    decreases n
  {
    if n == 0 || q == [] then (q, e)
    else Turns(if e.VerdictOf(q[0]) == Requeue then q[1..] + [q[0]] else q[1..], e.After(q[0]), n - 1)
  }

  /** The n-th poll is that of the head of the queue after n turns. */
  lemma {:induction false} PollsAt<C>(q: seq<C>, e: Engine<C>, n: nat)
    requires Distinct(q) && n < |Polls(Drain(q, e))|
    ensures var t := Turns(q, e, n);
      && Distinct(t.0) && t.0 != [] && Polls(Drain(q, e))[n] == t.0[0]
      && Polls(Drain(q, e))[n..] == Polls(Drain(t.0, t.1))
    decreases n
  {
    hide Drain, Polls, Work, Distinct;
    NonePolled(q, e);
    DrainPollsHead(q, e);
    var rest := if e.VerdictOf(q[0]) == Requeue then q[1..] + [q[0]] else q[1..];
    var all, later := Polls(Drain(q, e)), Polls(Drain(rest, e.After(q[0])));
    if n > 0 {
      PollsAt(rest, e.After(q[0]), n - 1);
      assert all[n..] == later[n - 1..];
    } else {
      assert all[0..] == all;
    }
  }

  lemma NonePolled<C>(q: seq<C>, e: Engine<C>)
    requires Distinct(q)
    ensures Polls(Drain(q, e)) != [] ==> q != []
  {
  }

  /** Only who is queued is polled. */
  lemma {:induction false} PolledIsQueued<C>(q: seq<C>, e: Engine<C>, n: nat)
    requires Distinct(q) && n < |Polls(Drain(q, e))|
    ensures Polls(Drain(q, e))[n] in q
    decreases n
  {
    hide Drain, Polls, Work, Distinct;
    NonePolled(q, e);
    DrainPollsHead(q, e);
    if n > 0 {
      PolledIsQueued(if e.VerdictOf(q[0]) == Requeue then q[1..] + [q[0]] else q[1..], e.After(q[0]), n - 1);
    }
  }

  /** Who is polled again has been kept. */
  lemma PolledAgainIsKept<C>(q: seq<C>, e: Engine<C>, n: nat)
    requires Distinct(q) && q != [] && 0 < n < |Polls(Drain(q, e))|
    ensures Polls(Drain(q, e))[n] == q[0] ==> e.VerdictOf(q[0]) == Requeue
  {
    hide Drain, Polls, Work, Distinct;
    DrainPollsHead(q, e);
    HeadOnce(q);
    if e.VerdictOf(q[0]) != Requeue {
      PolledIsQueued(q[1..], e.After(q[0]), n - 1);
    }
  }

  /** Between two polls of one connection, wherever they are in the run, every other connection that is queued
      then is polled exactly once, in the order of the queue. */
  lemma RoundRobin<C>(q: seq<C>, e: Engine<C>, i: nat, j: nat)
    requires Distinct(q) && i < j < |Polls(Drain(q, e))| && Polls(Drain(q, e))[i] == Polls(Drain(q, e))[j]
    requires forall k :: i < k < j ==> Polls(Drain(q, e))[k] != Polls(Drain(q, e))[i]
    ensures var queued := Turns(q, e, i).0;
      && Distinct(queued) && queued != [] && queued[0] == Polls(Drain(q, e))[i]
      && Polls(Drain(q, e))[i + 1..j] == queued[1..]
  {
    hide Drain, Polls, Work, Distinct, Turns;
    PollsAt(q, e, i);
    var (r, d) := Turns(q, e, i);
    var all, later := Polls(Drain(q, e)), Polls(Drain(r, d));
    assert forall k :: i <= k < |all| ==> later[k - i] == all[k];
    PolledAgainIsKept(r, d, j - i);
    assert r == [r[0]] + r[1..];
    HeadPolledAgain(r[0], r[1..], d);
    HeadOnce(r);
    NextIs(all, later, r, i, j);
  }

  lemma NextIs<C>(all: seq<C>, later: seq<C>, r: seq<C>, i: nat, j: nat)
    requires r != [] && r[0] !in r[1..] && i < j < |all| && later == all[i..] && [r[0]] + r[1..] + [r[0]] <= later
    requires all[j] == r[0] && forall k :: i < k < j ==> all[k] != r[0]
    ensures all[i + 1..j] == r[1..]
  {
    var turn := [r[0]] + r[1..] + [r[0]];
    assert forall k :: 0 <= k < |turn| ==> all[i + k] == turn[k];
    assert turn[|r|] == r[0] && forall k :: 1 <= k < |r| ==> turn[k] == r[1..][k - 1] && turn[k] in r[1..];
    assert j <= i + |r|;
    assert all[i + (j - i)] == turn[j - i];
  }
}

/** The timer slots of a context as a state machine, and what becomes of the function references that they
    retain. F is the type of functions and H that of timer handles. */
module TimerModel {
  import opened Wrappers

  const MAX_TIMERS := 5

  datatype Slot<F, H> = Slot(timer: Option<H>, func: Option<F>)

  /** `active` are the timers that the kernel will fire and `made` all timers ever created. The references
      taken and given back so far are `acquired` and `released`. Those in `lost` were overwritten. */
  datatype State<F, H> = State(slots: seq<Slot<F, H>>, active: set<H>, made: set<H>,
                               acquired: multiset<F>, released: multiset<F>, lost: multiset<F>)

  /** What the kernel answers to a request for a timer. */
  datatype Outcome<H> = NoMemory | Created(h: H, started: bool)

  /** What a script can do. Clearing something that is no timer is an error without effect. */
  datatype Call<F, H> = SetTimeout(f: F, outcome: Outcome<H>) | ClearTimeout(h: H) | ClearNothing

  datatype Event<F, H> = Do(call: Call<F, H>) | Fire(h: H, nested: seq<Call<F, H>>)

  function Empty<F, H>(): State<F, H> {
    State(seq(MAX_TIMERS, _ => Slot(None, None)), {}, {}, multiset{}, multiset{}, multiset{})
  }

  /** The first slot without a timer. */
  function FreeSlot<F, H>(slots: seq<Slot<F, H>>): (i: nat)
    ensures i <= |slots| && (forall j :: 0 <= j < i ==> slots[j].timer.Some?) && (i < |slots| ==> slots[i].timer.None?)
  {
    if slots == [] || slots[0].timer.None? then 0 else 1 + FreeSlot(slots[1..])
  }

  /** The slot of a timer. */
  function SlotOf<F, H(==)>(slots: seq<Slot<F, H>>, h: H): (i: nat)
    ensures i <= |slots| && (forall j :: 0 <= j < i ==> slots[j].timer != Some(h))
      && (i < |slots| ==> slots[i].timer == Some(h))
  {
    if slots == [] || slots[0].timer == Some(h) then 0 else 1 + SlotOf(slots[1..], h)
  }

  ghost function Held<F>(func: Option<F>): multiset<F> {
    if func.Some? then multiset{func.value} else multiset{}
  }

  /** The references in the slots. */
  ghost function Owned<F, H>(slots: seq<Slot<F, H>>): multiset<F> {
    if slots == [] then multiset{} else Held(slots[0].func) + Owned(slots[1..])
  }

  ghost function Set<F, H>(s: State<F, H>, f: F, outcome: Outcome<H>): (r: State<F, H>)
    ensures |r.slots| == |s.slots|
  {
    var i := FreeSlot(s.slots);
    if i == |s.slots| then s else
      var t := s.(acquired := s.acquired + multiset{f}, lost := s.lost + Held(s.slots[i].func));
      match outcome
      case NoMemory => t.(slots := s.slots[i := s.slots[i].(func := Some(f))])
      case Created(h, started) =>
        t.(slots := s.slots[i := Slot(Some(h), Some(f))], made := s.made + {h},
           active := if started then s.active + {h} else s.active)
  }

  /** Clearing only stops the timer. */
  ghost function Clear<F, H>(s: State<F, H>, h: H): State<F, H> {
    s.(active := s.active - {h})
  }

  ghost function Perform<F, H>(s: State<F, H>, c: Call<F, H>): (r: State<F, H>)
    ensures |r.slots| == |s.slots|
  {
    match c
    case SetTimeout(f, outcome) => Set(s, f, outcome)
    case ClearTimeout(h) => Clear(s, h)
    case ClearNothing => s
  }

  ghost function PerformAll<F, H>(s: State<F, H>, calls: seq<Call<F, H>>): (r: State<F, H>)
    ensures |r.slots| == |s.slots|
  {
    if calls == [] then s else Perform(PerformAll(s, calls[..|calls| - 1]), calls[|calls| - 1])
  }

  /** The timers that were created and started by these calls, in order. */
  ghost function Started<F, H>(calls: seq<Call<F, H>>): seq<H> {
    if calls == [] then [] else
      var c := calls[|calls| - 1];
      var isNew := c.SetTimeout? && c.outcome.Created? && c.outcome.started;
      Started(calls[..|calls| - 1]) + if isNew then [c.outcome.h] else []
  }

  /** The callback has taken its own reference and is about to call the function. */
  ghost function Begin<F, H>(s: State<F, H>, h: H, i: nat): State<F, H>
    requires i < |s.slots|
  {
    s.(active := s.active - {h}, acquired := s.acquired + Held(s.slots[i].func))
  }

  /** It gives back both references and frees the slot. */
  ghost function End<F, H>(s: State<F, H>, i: nat, func: Option<F>): State<F, H>
    requires i < |s.slots|
  {
    s.(slots := s.slots[i := Slot(None, None)], released := s.released + Held(func) + Held(func))
  }

  /** A timer fires: its callback runs and calls back into the script. */
  ghost function Callback<F, H>(s: State<F, H>, h: H, nested: seq<Call<F, H>>): (r: State<F, H>)
    ensures |r.slots| == |s.slots|
  {
    var i := SlotOf(s.slots, h);
    if i == |s.slots| then s else End(PerformAll(Begin(s, h, i), nested), i, s.slots[i].func)
  }

  ghost function Step<F, H>(s: State<F, H>, e: Event<F, H>): (r: State<F, H>)
    ensures |r.slots| == |s.slots|
  {
    match e
    case Do(c) => Perform(s, c)
    case Fire(h, nested) => Callback(s, h, nested)
  }

  ghost function Run<F, H>(s: State<F, H>, run: seq<Event<F, H>>): State<F, H> {
    if run == [] then s else Step(Run(s, run[..|run| - 1]), run[|run| - 1])
  }

  ghost function Deinit<F, H>(s: State<F, H>): State<F, H> {
    s.(active := {}, released := s.released + Owned(s.slots))
  }

  /** A new timer is unlike all before it. */
  ghost predicate Legal<F, H>(s: State<F, H>, c: Call<F, H>) {
    c.SetTimeout? && c.outcome.Created? ==> c.outcome.h !in s.made
  }

  ghost predicate LegalAll<F, H>(s: State<F, H>, calls: seq<Call<F, H>>) {
    calls != [] ==> LegalAll(s, calls[..|calls| - 1]) && Legal(PerformAll(s, calls[..|calls| - 1]), calls[|calls| - 1])
  }

  /** Only an active timer fires, and only a timer that is in a slot. */
  ghost predicate Possible<F, H>(s: State<F, H>, e: Event<F, H>) {
    match e
    case Do(c) => Legal(s, c)
    case Fire(h, nested) =>
      h in s.active && SlotOf(s.slots, h) < |s.slots| && LegalAll(Begin(s, h, SlotOf(s.slots, h)), nested)
  }

  ghost predicate PossibleRun<F, H>(s: State<F, H>, run: seq<Event<F, H>>) {
    run != [] ==> PossibleRun(s, run[..|run| - 1]) && Possible(Run(s, run[..|run| - 1]), run[|run| - 1])
  }

  ghost predicate SlotsOk<F, H>(s: State<F, H>) {
    && |s.slots| == MAX_TIMERS
    && (forall i :: 0 <= i < MAX_TIMERS && s.slots[i].timer.Some? ==>
          s.slots[i].timer.value in s.made && s.slots[i].func.Some?)
    && (forall i, j :: 0 <= i < j < MAX_TIMERS && s.slots[i].timer.Some? ==> s.slots[i].timer != s.slots[j].timer)
    && (forall h :: h in s.active ==> SlotOf(s.slots, h) < MAX_TIMERS)
  }

  /** Every reference taken was given back, is in one slot, was lost, or is the callback's own. */
  ghost predicate Balanced<F, H>(s: State<F, H>, own: multiset<F>) {
    s.acquired == s.released + Owned(s.slots) + s.lost + own
  }

  ghost predicate Inv<F, H>(s: State<F, H>, own: multiset<F>) {
    SlotsOk(s) && Balanced(s, own)
  }

  lemma Exchange<F>(rest: multiset<F>, a: multiset<F>, b: multiset<F>, c: multiset<F>, d: multiset<F>)
    requires a + b == c + d
    ensures rest + a + b == rest + c + d
  {
    assert rest + a + b == rest + (a + b);
    assert rest + c + d == rest + (c + d);
  }

  lemma {:induction false} OwnedUpdate<F, H>(slots: seq<Slot<F, H>>, i: nat, x: Slot<F, H>)
    requires i < |slots|
    ensures Owned(slots[i := x]) + Held(slots[i].func) == Owned(slots) + Held(x.func)
  {
    hide Held;
    var rest := slots[1..];
    if i == 0 {
      assert slots[0 := x][1..] == rest;
      Swap(Held(x.func), Owned(rest), Held(slots[0].func));
    } else {
      assert slots[i := x][1..] == rest[i - 1 := x];
      OwnedUpdate(rest, i - 1, x);
      Exchange(Held(slots[0].func), Owned(rest[i - 1 := x]), Held(slots[i].func), Owned(rest), Held(x.func));
    }
  }

  lemma Swap<F>(a: multiset<F>, b: multiset<F>, c: multiset<F>)
    ensures a + b + c == c + b + a
  {
  }

  lemma {:induction false} EmptyInv<F, H>()
    ensures Inv(Empty<F, H>(), multiset{})
  {
    hide Owned, SlotOf;
    var s := Empty<F, H>();
    OwnsNothing(s.slots);
    assert s.acquired == s.released + Owned(s.slots) + s.lost + multiset{};
  }

  lemma {:induction false} OwnsNothing<F, H>(slots: seq<Slot<F, H>>)
    requires forall i :: 0 <= i < |slots| ==> slots[i].func.None?
    ensures Owned(slots) == multiset{}
  {
    if slots != [] {
      OwnsNothing(slots[1..]);
    }
  }

  lemma SlotOfIs<F, H>(slots: seq<Slot<F, H>>, h: H, i: nat)
    requires i < |slots| && slots[i].timer == Some(h)
    ensures SlotOf(slots, h) < |slots|
  {
  }

  lemma PerformKeepsSlots<F, H>(s: State<F, H>, c: Call<F, H>)
    requires SlotsOk(s) && Legal(s, c)
    ensures SlotsOk(Perform(s, c))
  {
    hide FreeSlot, SlotOf;
    if c.SetTimeout? && FreeSlot(s.slots) < |s.slots| {
      var t := Perform(s, c);
      forall h | h in t.active ensures SlotOf(t.slots, h) < MAX_TIMERS {
        var i := if h in s.active then SlotOf(s.slots, h) else FreeSlot(s.slots);
        SlotOfIs(t.slots, h, i);
      }
    } else {
      assert Perform(s, c).slots == s.slots;
    }
  }

  lemma Rebalance<F>(released: multiset<F>, owned: multiset<F>, lost: multiset<F>, owned': multiset<F>,
                     before: multiset<F>, after: multiset<F>, own: multiset<F>)
    requires owned' + before == owned + after
    ensures released + owned + lost + own + after == released + owned' + (lost + before) + own
  {
    assert released + owned + lost + own + after == released + lost + own + (owned + after);
    assert released + owned' + (lost + before) + own == released + lost + own + (owned' + before);
  }

  lemma PerformKeepsInv<F, H>(s: State<F, H>, c: Call<F, H>, own: multiset<F>)
    requires Inv(s, own) && Legal(s, c)
    ensures Inv(Perform(s, c), own)
  {
    hide SlotsOk, FreeSlot, Owned;
    PerformKeepsSlots(s, c);
    var i, t := FreeSlot(s.slots), Perform(s, c);
    if c.SetTimeout? && i < |s.slots| {
      OwnedUpdate(s.slots, i, t.slots[i]);
      Rebalance(s.released, Owned(s.slots), s.lost, Owned(t.slots), Held(s.slots[i].func), multiset{c.f}, own);
    }
  }

  lemma {:induction false} PerformAllKeepsInv<F, H>(s: State<F, H>, calls: seq<Call<F, H>>, own: multiset<F>)
    requires Inv(s, own) && LegalAll(s, calls)
    ensures Inv(PerformAll(s, calls), own)
  {
    if calls != [] {
      PerformAllKeepsInv(s, calls[..|calls| - 1], own);
      PerformKeepsInv(PerformAll(s, calls[..|calls| - 1]), calls[|calls| - 1], own);
    }
  }

  lemma PerformKeepsTaken<F, H>(s: State<F, H>, c: Call<F, H>, i: nat)
    requires i < |s.slots| && s.slots[i].timer.Some?
    ensures Perform(s, c).slots[i] == s.slots[i]
  {
    hide FreeSlot;
  }

  /** Nothing that a script does touches a slot with a timer. */
  lemma {:induction false} PerformAllKeepsTaken<F, H>(s: State<F, H>, calls: seq<Call<F, H>>, i: nat)
    requires i < |s.slots| && s.slots[i].timer.Some?
    ensures PerformAll(s, calls).slots[i] == s.slots[i]
    decreases |calls|
  {
    hide Perform;
    if calls != [] {
      PerformAllKeepsTaken(s, calls[..|calls| - 1], i);
      PerformKeepsTaken(PerformAll(s, calls[..|calls| - 1]), calls[|calls| - 1], i);
    }
  }

  lemma PerformKeepsInactive<F, H>(s: State<F, H>, c: Call<F, H>, h: H)
    requires h in s.made && h !in s.active && Legal(s, c)
    ensures h in Perform(s, c).made && h !in Perform(s, c).active
  {
    hide FreeSlot;
  }

  /** A timer that was stopped or has fired is never started again. */
  lemma {:induction false} PerformAllKeepsInactive<F, H>(s: State<F, H>, calls: seq<Call<F, H>>, h: H)
    requires h in s.made && h !in s.active && LegalAll(s, calls)
    ensures h in PerformAll(s, calls).made && h !in PerformAll(s, calls).active
    decreases |calls|
  {
    hide Perform, Legal;
    if calls != [] {
      PerformAllKeepsInactive(s, calls[..|calls| - 1], h);
      PerformKeepsInactive(PerformAll(s, calls[..|calls| - 1]), calls[|calls| - 1], h);
    }
  }

  lemma EndBalances<F>(released: multiset<F>, owned: multiset<F>, lost: multiset<F>, owned': multiset<F>,
      held: multiset<F>)
    requires owned' + held == owned + multiset{}
    ensures released + owned + lost + held == released + held + held + owned' + lost + multiset{}
  {
    assert released + held + held + owned' + lost == released + lost + held + (owned' + held);
    assert released + owned + lost + held == released + lost + held + (owned + multiset{});
  }

  lemma EndKeepsSlots<F, H>(t: State<F, H>, i: nat, h: H, func: Option<F>)
    requires SlotsOk(t) && i < |t.slots| && t.slots[i].timer == Some(h) && h !in t.active
    ensures SlotsOk(End(t, i, func))
  {
    hide SlotOf;
    var r := End(t, i, func);
    forall x | x in r.active ensures SlotOf(r.slots, x) < MAX_TIMERS {
      SlotOfIs(r.slots, x, SlotOf(t.slots, x));
    }
  }

  lemma {:induction false} ScriptsReleaseNothing<F, H>(s: State<F, H>, calls: seq<Call<F, H>>)
    ensures PerformAll(s, calls).released == s.released
    decreases |calls|
  {
    hide FreeSlot;
    if calls != [] {
      ScriptsReleaseNothing(s, calls[..|calls| - 1]);
    }
  }

  /** What a call of the script makes of every part of the state: a request takes one reference, puts the function
      in the first free slot with the timer if one is created, and makes that timer active exactly if it is
      started; it does nothing if all slots are taken. Clearing makes one timer inactive. */
  lemma CallOutcome<F, H>(s: State<F, H>, c: Call<F, H>)
    ensures var r := Perform(s, c); |r.slots| == |s.slots| && r.released == s.released
    ensures c.SetTimeout? && FreeSlot(s.slots) < |s.slots| ==>
      var r, i := Perform(s, c), FreeSlot(s.slots);
      && r.slots[i].func == Some(c.f) && (forall k :: 0 <= k < |s.slots| && k != i ==> r.slots[k] == s.slots[k])
      && r.slots[i].timer == (if c.outcome.Created? then Some(c.outcome.h) else None)
      && (forall h :: h in r.active <==> h in s.active || (c.outcome.Created? && c.outcome.started && h == c.outcome.h))
      && (forall h :: h in r.made <==> h in s.made || (c.outcome.Created? && h == c.outcome.h))
      && r.acquired == s.acquired + multiset{c.f}
      && r.lost == s.lost + (if s.slots[i].func.Some? then multiset{s.slots[i].func.value} else multiset{})
    ensures c.SetTimeout? && FreeSlot(s.slots) == |s.slots| ==> Perform(s, c) == s
    ensures c.ClearTimeout? ==>
      var r := Perform(s, c);
      && c.h !in r.active && (forall h :: h != c.h ==> (h in r.active <==> h in s.active))
      && r == s.(active := r.active)
    ensures c.ClearNothing? ==> Perform(s, c) == s
  {
    hide FreeSlot;
  }

  /** While a callback runs, the script cannot take its slot: the slot that is freed afterwards is still the
      one that fired, and every timer started meanwhile keeps its own. */
  lemma CallbackKeepsSlot<F, H>(s: State<F, H>, h: H, nested: seq<Call<F, H>>)
    requires Inv(s, multiset{}) && Possible(s, Fire(h, nested))
    ensures var i := SlotOf(s.slots, h); var t := PerformAll(Begin(s, h, i), nested); var r := Callback(s, h, nested);
      && Inv(t, Held(s.slots[i].func)) && t.slots[i] == s.slots[i] && s.slots[i].func.Some?
      && h !in t.active && h in t.made
      && r.slots == t.slots[i := Slot(None, None)] && r.active == t.active && r.lost == t.lost
    ensures var i := SlotOf(s.slots, h);
      var func, b, r := s.slots[i].func, Begin(s, h, i), Callback(s, h, nested);
      && b.slots == s.slots && b.active == s.active - {h} && b.acquired == s.acquired + Held(func)
      && r.acquired == PerformAll(b, nested).acquired && r.released == s.released + Held(func) + Held(func)
  {
    hide Owned, SlotOf, PerformAll, LegalAll;
    ScriptsReleaseNothing(Begin(s, h, SlotOf(s.slots, h)), nested);
    var i := SlotOf(s.slots, h);
    var b := Begin(s, h, i);
    PerformAllKeepsInv(b, nested, Held(s.slots[i].func));
    PerformAllKeepsTaken(b, nested, i);
    PerformAllKeepsInactive(b, nested, h);
  }

  lemma StepKeepsInv<F, H>(s: State<F, H>, e: Event<F, H>)
    requires Inv(s, multiset{}) && Possible(s, e)
    ensures Inv(Step(s, e), multiset{})
  {
    hide Owned, SlotOf, PerformAll, LegalAll, SlotsOk;
    match e
    case Do(c) => PerformKeepsInv(s, c, multiset{});
    case Fire(h, nested) =>
      CallbackKeepsSlot(s, h, nested);
      var i := SlotOf(s.slots, h);
      var t := PerformAll(Begin(s, h, i), nested);
      EndKeepsSlots(t, i, h, s.slots[i].func);
      OwnedUpdate(t.slots, i, Slot(None, None));
      EndBalances(t.released, Owned(t.slots), t.lost, Owned(Step(s, e).slots), Held(s.slots[i].func));
  }

  lemma {:induction false} RunKeepsInv<F, H>(run: seq<Event<F, H>>)
    requires PossibleRun(Empty(), run)
    ensures Inv(Run(Empty(), run), multiset{})
  {
    hide Inv, Empty;
    if run == [] {
      EmptyInv<F, H>();
    } else {
      RunKeepsInv(run[..|run| - 1]);
      StepKeepsInv(Run(Empty(), run[..|run| - 1]), run[|run| - 1]);
    }
  }

  // ---------- references are given back once ----------

  /** A call that overwrites the reference of a slot: the slot is free, but an earlier creation failed in it. */
  ghost predicate Overwrites<F, H>(s: State<F, H>, c: Call<F, H>) {
    c.SetTimeout? && FreeSlot(s.slots) < |s.slots| && s.slots[FreeSlot(s.slots)].func.Some?
  }

  ghost predicate OverwritesAny<F, H>(s: State<F, H>, calls: seq<Call<F, H>>) {
    calls != [] &&
      (OverwritesAny(s, calls[..|calls| - 1]) || Overwrites(PerformAll(s, calls[..|calls| - 1]), calls[|calls| - 1]))
  }

  ghost predicate EventOverwrites<F, H>(s: State<F, H>, e: Event<F, H>) {
    match e
    case Do(c) => Overwrites(s, c)
    case Fire(h, nested) => SlotOf(s.slots, h) < |s.slots| && OverwritesAny(Begin(s, h, SlotOf(s.slots, h)), nested)
  }

  ghost predicate RunOverwrites<F, H>(s: State<F, H>, run: seq<Event<F, H>>) {
    run != [] && (RunOverwrites(s, run[..|run| - 1]) || EventOverwrites(Run(s, run[..|run| - 1]), run[|run| - 1]))
  }

  lemma {:induction false} LostByCalls<F, H>(s: State<F, H>, calls: seq<Call<F, H>>)
    ensures PerformAll(s, calls).lost == multiset{} <==> s.lost == multiset{} && !OverwritesAny(s, calls)
  {
    hide FreeSlot;
    if calls != [] {
      LostByCalls(s, calls[..|calls| - 1]);
    }
  }

  lemma {:induction false} LostByRun<F, H>(run: seq<Event<F, H>>)
    ensures Run(Empty(), run).lost == multiset{} <==> !RunOverwrites(Empty(), run)
  {
    hide FreeSlot, SlotOf, PerformAll, OverwritesAny;
    if run != [] {
      LostByRun(run[..|run| - 1]);
      var s, e := Run(Empty(), run[..|run| - 1]), run[|run| - 1];
      if e.Fire? && SlotOf(s.slots, e.h) < |s.slots| {
        LostByCalls(Begin(s, e.h, SlotOf(s.slots, e.h)), e.nested);
      }
    }
  }

  /** After the context is closed every reference has been given back exactly as often as it was taken, except
      those lost, and none is lost exactly when no call found a reference in a free slot. */
  lemma {:induction false} ReleasedOnce<F, H>(run: seq<Event<F, H>>)
    requires PossibleRun(Empty(), run)
    ensures var s := Deinit(Run(Empty(), run));
      && s.acquired == s.released + s.lost
      && (s.acquired == s.released <==> !RunOverwrites(Empty(), run))
  {
    hide Empty, Run, PossibleRun, Owned, RunOverwrites;
    RunKeepsInv(run);
    LostByRun(run);
    var t := Run(Empty(), run);
    var s := Deinit(t);
    assert s.acquired == s.released + s.lost;
    assert |s.acquired| == |s.released| + |s.lost|;
  }

  // ---------- runs in which every timer is created ----------

  predicate Creates<F, H>(c: Call<F, H>) {
    c.SetTimeout? ==> c.outcome.Created?
  }

  predicate AllCreated<F, H>(run: seq<Event<F, H>>) {
    forall i :: 0 <= i < |run| ==>
      match run[i]
      case Do(c) => Creates(c)
      case Fire(_, nested) => forall k :: 0 <= k < |nested| ==> Creates(nested[k])
  }

  ghost predicate FreeSlotsEmpty<F, H>(slots: seq<Slot<F, H>>) {
    forall i :: 0 <= i < |slots| && slots[i].timer.None? ==> slots[i].func.None?
  }

  lemma {:induction false} CreatedCallsKeep<F, H>(s: State<F, H>, calls: seq<Call<F, H>>)
    requires FreeSlotsEmpty(s.slots) && forall k :: 0 <= k < |calls| ==> Creates(calls[k])
    ensures FreeSlotsEmpty(PerformAll(s, calls).slots) && !OverwritesAny(s, calls)
  {
    if calls != [] {
      CreatedCallsKeep(s, calls[..|calls| - 1]);
    }
  }

  lemma {:induction false} CreatedRunKeeps<F, H>(run: seq<Event<F, H>>)
    requires AllCreated(run)
    ensures FreeSlotsEmpty(Run(Empty(), run).slots) && !RunOverwrites(Empty(), run)
  {
    hide FreeSlot, SlotOf, PerformAll, OverwritesAny;
    if run != [] {
      CreatedRunKeeps(run[..|run| - 1]);
      var s, e := Run(Empty(), run[..|run| - 1]), run[|run| - 1];
      if e.Fire? {
        if SlotOf(s.slots, e.h) < |s.slots| {
          CreatedCallsKeep(Begin(s, e.h, SlotOf(s.slots, e.h)), e.nested);
        }
      } else {
        CreatedCallsKeep(s, [e.call]);
        assert [e.call][..0] == [];
        OneCall(s, e.call);
      }
    }
  }

  lemma {:induction false} OneCall<F, H>(s: State<F, H>, c: Call<F, H>)
    ensures PerformAll(s, [c]) == Perform(s, c) && (OverwritesAny(s, [c]) <==> Overwrites(s, c))
  {
    hide FreeSlot, Perform;
    assert [c][..0] == [];
    assert PerformAll(s, []) == s && !OverwritesAny(s, []);
  }

  /** If every timer is created, each reference in the callbacks' hands aside is owned by exactly one slot, and
      once the context is closed each was given back exactly as often as it was taken. */
  lemma {:induction false} CreatedReleasedOnce<F, H>(run: seq<Event<F, H>>)
    requires PossibleRun(Empty(), run) && AllCreated(run)
    ensures var s := Run(Empty(), run); s.acquired == s.released + Owned(s.slots)
    ensures var s := Deinit(Run(Empty(), run)); s.acquired == s.released
  {
    hide Empty, Run, PossibleRun, Owned, RunOverwrites, AllCreated, FreeSlotsEmpty;
    RunKeepsInv(run);
    LostByRun(run);
    CreatedRunKeeps(run);
    ReleasedOnce(run);
    var s := Run(Empty(), run);
    assert s.released + Owned(s.slots) + s.lost + multiset{} == s.released + Owned(s.slots);
  }

  /** A failed creation followed by another timeout loses the first function: its reference is never given back. */
  lemma {:induction false} FailedCreationLoses<H>(h: H)
    ensures var run: seq<Event<int, H>> := [Do(SetTimeout(1, NoMemory)), Do(SetTimeout(2, Created(h, true)))];
      && PossibleRun(Empty(), run) && Run(Empty(), run).lost == multiset{1}
      && Deinit(Run(Empty(), run)).acquired != Deinit(Run(Empty(), run)).released
  {
    hide Deinit, Owned;
    var s0: State<int, H> := Empty();
    var a: Event<int, H>, b: Event<int, H> := Do(SetTimeout(1, NoMemory)), Do(SetTimeout(2, Created(h, true)));
    assert [a, b][..1] == [a] && [a][..0] == [];
    assert FreeSlot(s0.slots) == 0;
    var s1 := Step(s0, a);
    assert Run(s0, [a]) == s1;
    assert FreeSlot(s1.slots) == 0 && s1.slots[0].func == Some(1);
    assert Run(s0, [a, b]) == Step(s1, b);
    assert s1.lost + Held(Some(1)) == multiset{1};
    assert PossibleRun(s0, [a]);
    ReleasedOnce([a, b]);
    assert |Run(s0, [a, b]).lost| == 1;
    assert RunOverwrites(s0, [a, b]);
  }

  // ---------- what is still to come ----------

  /** A context is waiting for a timer exactly as long as one will fire. */
  lemma PollExact<F, H>(s: State<F, H>)
    requires SlotsOk(s)
    ensures (exists i :: 0 <= i < |s.slots| && s.slots[i].timer.Some? && s.slots[i].timer.value in s.active)
      <==> s.active != {}
    ensures |s.active| <= MAX_TIMERS
  {
    if s.active != {} {
      var h :| h in s.active;
      assert s.slots[SlotOf(s.slots, h)].timer == Some(h);
    }
    ActiveInSlots(s);
  }

  lemma ActiveInSlots<F, H>(s: State<F, H>)
    requires SlotsOk(s)
    ensures |s.active| <= MAX_TIMERS
  {
    hide SlotOf;
    var a, b, c, d, e := s.slots[0].timer, s.slots[1].timer, s.slots[2].timer, s.slots[3].timer, s.slots[4].timer;
    var all := ValueOf(a) + ValueOf(b) + ValueOf(c) + ValueOf(d) + ValueOf(e);
    forall h | h in s.active ensures h in all {
      var i := SlotOf(s.slots, h);
      assert s.slots[i].timer == Some(h);
      assert i == 0 || i == 1 || i == 2 || i == 3 || i == 4;
    }
    SubsetSize(s.active, all);
  }

  ghost function ValueOf<H>(o: Option<H>): (r: set<H>)
    ensures |r| <= 1
  {
    if o.Some? then {o.value} else {}
  }

  lemma SubsetSize<H>(a: set<H>, b: set<H>)
    requires a <= b
    ensures |a| <= |b|
  {
    assert a + (b - a) == b;
  }

  /** A slot whose timer was cleared, or could not be started, is not used again before the context is closed. */
  lemma {:induction false} ClearedSlotStaysTaken<F, H>(s: State<F, H>, run: seq<Event<F, H>>, i: nat)
    requires Inv(s, multiset{}) && PossibleRun(s, run)
    requires i < |s.slots| && s.slots[i].timer.Some? && s.slots[i].timer.value !in s.active
    ensures Inv(Run(s, run), multiset{}) && i < |Run(s, run).slots| && Run(s, run).slots[i] == s.slots[i]
    ensures s.slots[i].timer.value in Run(s, run).made && s.slots[i].timer.value !in Run(s, run).active
    decreases |run|
  {
    hide Owned, FreeSlot;
    if run != [] {
      var rest, e := run[..|run| - 1], run[|run| - 1];
      ClearedSlotStaysTaken(s, rest, i);
      StepKeepsInv(Run(s, rest), e);
      StepKeepsTaken(Run(s, rest), e, i);
    }
  }

  lemma {:induction false} StepKeepsTaken<F, H>(s: State<F, H>, e: Event<F, H>, i: nat)
    requires Inv(s, multiset{}) && Possible(s, e)
    requires i < |s.slots| && s.slots[i].timer.Some? && s.slots[i].timer.value !in s.active
      && s.slots[i].timer.value in s.made
    ensures Step(s, e).slots[i] == s.slots[i]
    ensures s.slots[i].timer.value !in Step(s, e).active && s.slots[i].timer.value in Step(s, e).made
  {
    hide Owned, PerformAll, LegalAll, FreeSlot, Balanced;
    match e
    case Do(c) => PerformKeepsTaken(s, c, i);
    case Fire(h, nested) =>
      var k := SlotOf(s.slots, h);
      CallbackKeepsSlot(s, h, nested);
      PerformAllKeepsTaken(Begin(s, h, k), nested, i);
      PerformAllKeepsInactive(Begin(s, h, k), nested, s.slots[i].timer.value);
  }
}

/** The timer slots in place: `setTimeout`, `clearTimeout`, the callback of the kernel's timers, and the poll
    and closing of a context. */
module Timers {
  import opened Wrappers
  import opened TimerModel

  /** A timer of the kernel. Its identity is the slot it was made for. */
  class Timer {
    const slot: nat
    var active: bool

    constructor (slot: nat)
      ensures this.slot == slot && !active
    {
      this.slot, active := slot, false;
    }
  }

  /** What a script asks for while its callback runs, and how the kernel answers. Scripts know timers by the
      objects they were given. */
  datatype Request<F> = Start(f: F, memory: bool, start: bool) | Stop(object: nat)

  /** In state s, with the objects given out so far, call c is what request q comes to: a timer is created if
      there is memory and a free slot, and an object that was never given out names no timer. */
  ghost predicate Answers<F, H>(s: State<F, H>, objects: seq<H>, q: Request<F>, c: Call<F, H>) {
    match q
    case Start(f, memory, start) =>
      && c.SetTimeout? && c.f == f && (c.outcome.Created? <==> memory && FreeSlot(s.slots) < |s.slots|)
      && (c.outcome.Created? ==> c.outcome.started == start)
    case Stop(k) => c == if k < |objects| then ClearTimeout(objects[k]) else ClearNothing
  }

  /** The calls are what the requests come to, one for one and in order, from state s on. */
  ghost predicate AnswersAll<F, H>(s: State<F, H>, objects: seq<H>, nested: seq<Request<F>>, calls: seq<Call<F, H>>)
    decreases |nested|
  {
    && |calls| == |nested|
    && (nested != [] ==>
          var n := |nested| - 1;
          && AnswersAll(s, objects, nested[..n], calls[..n])
          && Answers(PerformAll(s, calls[..n]), objects + Started(calls[..n]), nested[n], calls[n]))
  }

  class TimerTable<F(==)> {
    const slots: array<Slot<F, Timer>>
    var objects: seq<Timer>
    ghost var acquired: multiset<F>  // every reference taken
    ghost var released: multiset<F>  // and every reference given back
    ghost var st: State<F, Timer>

    ghost predicate TimersAre(made: set<Timer>, active: set<Timer>)
      reads made
    {
      active <= made && forall h :: h in made ==> (h.active <==> h in active)
    }

    ghost predicate Named(content: seq<Slot<F, Timer>>) {
      forall i :: 0 <= i < |content| && content[i].timer.Some? ==> content[i].timer.value.slot == i
    }

    ghost predicate Valid()
      reads this, slots, st.made
    {
      && slots.Length == MAX_TIMERS && slots[..] == st.slots && Named(st.slots)
      && acquired == st.acquired && released == st.released
      && TimersAre(st.made, st.active) && (forall h :: h in objects ==> h in st.made)
      && forall i :: 0 <= i < MAX_TIMERS && st.slots[i].timer.Some? ==> st.slots[i].timer.value in st.made
    }

    constructor ()
      ensures Valid() && st == Empty() && objects == [] && fresh(slots)
    {
      slots := new Slot<F, Timer>[MAX_TIMERS](_ => Slot(None, None));
      objects, acquired, released, st := [], multiset{}, multiset{}, Empty();
      new;
      assert slots[..] == st.slots;
    }

    /** `JS_DupValue`. */
    method DupValue(func: Option<F>)
      modifies this`acquired
      ensures acquired == old(acquired) + Held(func)
    {
      if func.Some? {
        acquired := acquired + multiset{func.value};
      }
    }

    /** `JS_FreeValue`, which does nothing to an undefined value. */
    method FreeValue(func: Option<F>)
      modifies this`released
      ensures released == old(released) + Held(func)
    {
      if func.Some? {
        released := released + multiset{func.value};
      }
    }

    method GetFreeSlot() returns (i: nat)
      requires Valid()
      ensures i == FreeSlot(st.slots)
    {
      i := 0;
      while i < MAX_TIMERS
        invariant i <= FreeSlot(st.slots)
      {
        if slots[i].timer.None? {
          return;
        }
        i := i + 1;
      }
    }

    /** Puts f in a free slot. */
    method Retain(f: F, i: nat)
      requires Valid() && i == FreeSlot(st.slots) < MAX_TIMERS
      modifies this`st, this`acquired, slots
      ensures Valid() && st == Perform(old(st), TimerModel.SetTimeout(f, NoMemory))
    {
      hide SlotOf, FreeSlot;
      DupValue(Some(f));
      slots[i] := slots[i].(func := Some(f));
      st := Perform(st, TimerModel.SetTimeout(f, NoMemory));
      assert slots[..] == st.slots;
    }

    /** Puts a timer that has just been made in the slot of f, and starts it if the kernel lets it. */
    method Arm(f: F, i: nat, timer: Timer, start: bool, ghost s: State<F, Timer>)
      requires Valid() && i == FreeSlot(s.slots) < |s.slots| && st == Perform(s, TimerModel.SetTimeout(f, NoMemory))
      requires timer !in s.made && timer.slot == i && !timer.active
      modifies this`st, slots, timer
      ensures Valid() && st == Perform(s, TimerModel.SetTimeout(f, Created(timer, start)))
    {
      hide SlotOf, FreeSlot;
      slots[i] := slots[i].(timer := Some(timer));
      if start {
        timer.active := true;
      }
      st := Perform(s, TimerModel.SetTimeout(f, Created(timer, start)));
      assert slots[..] == st.slots;
    }

    method SetTimeout(f: F, memory: bool, start: bool) returns (r: Option<Timer>, ghost c: Call<F, Timer>)
      requires Valid()
      modifies this`st, this`objects, this`acquired, slots
      ensures Valid() && Legal(old(st), c) && st == Perform(old(st), c)
      ensures c.SetTimeout? && c.f == f && (r.Some? ==> c.outcome == Created(r.value, true) && fresh(r.value))
      ensures Answers(old(st), old(objects), Start(f, memory, start), c)
      ensures r.Some? <==> memory && start && FreeSlot(old(st).slots) < MAX_TIMERS
      ensures objects == if r.Some? then old(objects) + [r.value] else old(objects)
      ensures r.Some? ==> r.value.active
      ensures st.active == old(st).active + if r.Some? then {r.value} else {}
      ensures forall h :: h in old(st).made ==> h.active == old(h.active)
      ensures var i := FreeSlot(old(st).slots);
        && acquired == old(acquired) + (if i < MAX_TIMERS then multiset{f} else multiset{})
        && (forall k :: 0 <= k < MAX_TIMERS && k != i ==> slots[k] == old(slots[k]))
        && (i < MAX_TIMERS ==>
              && slots[i].func == Some(f) && (slots[i].timer.Some? <==> memory)
              && (memory ==> (slots[i].timer.value.active <==> start))
              && (r.Some? ==> slots[i].timer == Some(r.value)))
      ensures forall h :: h in st.made ==> h in old(st).made || fresh(h)
    {
      hide FreeSlot, SlotOf, Valid, Perform, Legal;
      Fields();
      r, c := None, TimerModel.SetTimeout(f, NoMemory);
      ghost var s := st;
      var i := GetFreeSlot();
      NoTimer(s, f);
      if i == MAX_TIMERS {
        return;
      }
      Retain(f, i);
      Fields();
      CallOutcome(s, c);
      if !memory {
        return;
      }
      var timer := new Timer(i);
      Arm(f, i, timer, start, s);
      c := TimerModel.SetTimeout(f, Created(timer, start));
      NewTimer(s, f, timer, start);
      Fields();
      CallOutcome(s, c);
      if !start {
        return;
      }
      HandOut(timer);
      r := Some(timer);
    }

    /** The script gets an object for the timer. */
    method HandOut(timer: Timer)
      requires Valid() && timer in st.made
      modifies this`objects
      ensures Valid() && objects == old(objects) + [timer]
    {
      hide TimersAre, Named;
      objects := objects + [timer];
    }

    /** The fields and the state, part by part. */
    lemma Fields()
      requires Valid()
      ensures slots.Length == |st.slots| == MAX_TIMERS && forall k :: 0 <= k < MAX_TIMERS ==> slots[k] == st.slots[k]
      ensures acquired == st.acquired && released == st.released
      ensures st.active <= st.made && forall h :: h in st.made ==> (h.active <==> h in st.active)
      ensures forall k :: 0 <= k < MAX_TIMERS && st.slots[k].timer.Some? ==> st.slots[k].timer.value in st.made
    {
      assert slots[..] == st.slots;
    }

    lemma NoTimer(s: State<F, Timer>, f: F)
      ensures var c: Call<F, Timer> := TimerModel.SetTimeout(f, NoMemory);
        Legal(s, c) && (FreeSlot(s.slots) == |s.slots| ==> Perform(s, c) == s)
    {
    }

    lemma NewTimer(s: State<F, Timer>, f: F, timer: Timer, start: bool)
      requires timer !in s.made
      ensures Legal(s, TimerModel.SetTimeout(f, Created(timer, start)))
    {
    }

    method ClearTimeout(h: Timer)
      requires Valid() && h in st.made
      modifies this`st, h
      ensures Valid() && st == Perform(old(st), TimerModel.ClearTimeout(h))
      ensures !h.active && h !in st.active && st.active == old(st).active - {h} && st.slots == old(st).slots
      ensures st.acquired == old(st).acquired && st.released == old(st).released && st.lost == old(st).lost
      ensures forall x :: x in old(st).made && x != h ==> x.active == old(x.active)
    {
      h.active := false;
      st := Perform(st, TimerModel.ClearTimeout(h));
    }

    lemma MoreCalls(s: State<F, Timer>, objects: seq<Timer>, nested: seq<Request<F>>, calls: seq<Call<F, Timer>>,
        q: Request<F>, c: Call<F, Timer>)
      requires LegalAll(s, calls) && Legal(PerformAll(s, calls), c)
      requires AnswersAll(s, objects, nested, calls) && Answers(PerformAll(s, calls), objects + Started(calls), q, c)
      ensures LegalAll(s, calls + [c]) && PerformAll(s, calls + [c]) == Perform(PerformAll(s, calls), c)
      ensures AnswersAll(s, objects, nested + [q], calls + [c])
      ensures Started(calls + [c])
        == Started(calls) + if c.SetTimeout? && c.outcome.Created? && c.outcome.started then [c.outcome.h] else []
    {
      hide Legal, Perform, FreeSlot, Answers;
      assert (calls + [c])[..|calls|] == calls && (nested + [q])[..|nested|] == nested;
    }

    /** One request of a script, after the requests before it have come to calls. */
    method Serve(q: Request<F>, ghost b: State<F, Timer>, ghost given: seq<Timer>, ghost before: seq<Request<F>>,
        ghost calls: seq<Call<F, Timer>>) returns (ghost c: Call<F, Timer>)
      requires Valid() && LegalAll(b, calls) && st == PerformAll(b, calls)
      requires AnswersAll(b, given, before, calls) && objects == given + Started(calls)
      modifies this`st, this`objects, this`acquired, slots, st.made
      ensures Valid() && LegalAll(b, calls + [c]) && st == PerformAll(b, calls + [c])
      ensures AnswersAll(b, given, before + [q], calls + [c]) && objects == given + Started(calls + [c])
      ensures forall h :: h in st.made ==> h in old(st).made || fresh(h)
    {
      hide LegalAll, PerformAll, AnswersAll, Started, FreeSlot, SlotOf;
      match q
      case Start(f, memory, start) =>
        var r;
        r, c := SetTimeout(f, memory, start);
        MoreCalls(b, given, before, calls, q, c);
      case Stop(k) =>
        c := if k < |objects| then TimerModel.ClearTimeout(objects[k]) else ClearNothing;
        MoreCalls(b, given, before, calls, q, c);
        if k < |objects| {
          ClearTimeout(objects[k]);
        }
    }

    lemma FindSlot(h: Timer)
      requires Valid() && SlotsOk(st) && h.active && h in st.made
      ensures SlotOf(st.slots, h) == h.slot < MAX_TIMERS && st.slots[h.slot].timer == Some(h)
    {
    }

    /** The callback finds its slot and takes a reference of its own. */
    method Expire(timer: Timer) returns (func: Option<F>)
      requires Valid() && SlotsOk(st) && timer in st.made && timer.active
      modifies this`st, this`acquired, timer
      ensures Valid() && SlotOf(old(st).slots, timer) == timer.slot < |old(st).slots|
      ensures func == old(st).slots[timer.slot].func && st == Begin(old(st), timer, timer.slot)
    {
      hide SlotOf;
      FindSlot(timer);
      timer.active := false;
      func := slots[timer.slot].func;
      DupValue(func);
      st := Begin(st, timer, timer.slot);
    }

    /** What the script does in the callback. */
    method RunScript(nested: seq<Request<F>>, ghost b: State<F, Timer>) returns (ghost calls: seq<Call<F, Timer>>)
      requires Valid() && st == b
      modifies this`st, this`objects, this`acquired, slots, st.made
      ensures Valid() && LegalAll(b, calls) && st == PerformAll(b, calls)
      ensures AnswersAll(b, old(objects), nested, calls) && objects == old(objects) + Started(calls)
      ensures forall h :: h in st.made ==> h in b.made || fresh(h)
    {
      hide *;
      calls := [];
      NoCalls(b, objects);
      assert nested[..0] == [];
      var k := 0;
      while k < |nested|
        invariant k <= |nested| && Valid() && LegalAll(b, calls) && st == PerformAll(b, calls)
        invariant AnswersAll(b, old(objects), nested[..k], calls) && objects == old(objects) + Started(calls)
        invariant forall h :: h in st.made ==> h in b.made || fresh(h)
      {
        ghost var c := Serve(nested[k], b, old(objects), nested[..k], calls);
        assert nested[..k + 1] == nested[..k] + [nested[k]];
        calls := calls + [c];
        k := k + 1;
      }
      assert nested[..k] == nested;
    }

    /** The callback gives back both references and frees its slot. */
    method Retire(i: nat, func: Option<F>)
      requires Valid() && i < |st.slots|
      modifies this`st, this`released, slots
      ensures Valid() && st == End(old(st), i, func)
    {
      FreeValue(func);
      FreeValue(func);
      slots[i] := Slot(None, None);
      st := End(st, i, func);
      assert slots[..] == st.slots;
    }

    /** The callback of a timer that has expired. `nested` is what the script does in it. */
    method Fire(timer: Timer, nested: seq<Request<F>>) returns (ghost calls: seq<Call<F, Timer>>)
      requires Valid() && Inv(st, multiset{}) && timer in st.made && timer.active
      modifies this`st, this`objects, this`acquired, this`released, slots, st.made
      ensures Valid() && Possible(old(st), TimerModel.Fire(timer, calls)) && st == Callback(old(st), timer, calls)
      ensures timer.slot < |old(st).slots| && AnswersAll(Begin(old(st), timer, timer.slot), old(objects), nested, calls)
      ensures objects == old(objects) + Started(calls)
      ensures !timer.active && timer !in st.active && slots[timer.slot] == Slot(None, None)
      ensures released == old(released) + Held(old(st).slots[timer.slot].func) + Held(old(st).slots[timer.slot].func)
      ensures forall h :: h in st.made ==> h in old(st).made || fresh(h)
    {
      hide Valid, LegalAll, PerformAll, FreeSlot, SlotOf, Owned, AnswersAll, Started, Inv, Possible, Callback;
      ghost var s := st;
      Fields();
      InvParts(s);
      ActiveIs(timer);
      var func := Expire(timer);
      calls := RunScript(nested, st);
      Retire(timer.slot, func);
      FireIs(s, timer, calls);
      CallbackKeepsSlot(s, timer, calls);
      Fields();
    }

    lemma FireIs(s: State<F, Timer>, timer: Timer, calls: seq<Call<F, Timer>>)
      requires timer in s.active && timer.slot == SlotOf(s.slots, timer) < |s.slots|
      requires LegalAll(Begin(s, timer, timer.slot), calls)
      ensures Possible(s, TimerModel.Fire(timer, calls))
      ensures Callback(s, timer, calls)
        == End(PerformAll(Begin(s, timer, timer.slot), calls), timer.slot, s.slots[timer.slot].func)
    {
      hide SlotOf, LegalAll, PerformAll, Begin, End;
    }

    lemma InvParts(s: State<F, Timer>)
      requires Inv(s, multiset{})
      ensures SlotsOk(s)
    {
    }

    lemma ActiveIs(timer: Timer)
      requires Valid() && timer in st.made && timer.active
      ensures timer in st.active
    {
    }

    lemma NoCalls(s: State<F, Timer>, objects: seq<Timer>)
      ensures LegalAll(s, []) && PerformAll(s, []) == s && AnswersAll(s, objects, [], []) && Started<F, Timer>([]) == []
    {
    }

    /** Whether a timer is still to fire. */
    method Poll() returns (b: bool)
      requires Valid() && SlotsOk(st)
      ensures b <==> st.active != {}
    {
      PollExact(st);
      var i := 0;
      while i < MAX_TIMERS
        invariant i <= MAX_TIMERS
        invariant forall k :: 0 <= k < i && st.slots[k].timer.Some? ==> st.slots[k].timer.value !in st.active
      {
        if slots[i].timer.Some? && slots[i].timer.value.active {
          return true;
        }
        i := i + 1;
      }
      return false;
    }

    lemma {:induction false} OneSlot(content: seq<Slot<F, Timer>>)
      requires |content| == 1
      ensures Owned(content) == multiset{} + Held(content[0].func)
    {
      assert content[1..] == [];
      assert Held(content[0].func) + multiset{} == multiset{} + Held(content[0].func);
    }

    lemma {:induction false} OwnedMore(content: seq<Slot<F, Timer>>, i: nat)
      requires i < |content|
      ensures Owned(content[..i + 1]) == Owned(content[..i]) + Held(content[i].func)
    {
      hide Held;
      var rest := content[1..];
      if i > 0 {
        assert content[..i + 1][1..] == rest[..i] && content[..i][1..] == rest[..i - 1];
        OwnedMore(rest, i - 1);
        var a, b, c := Held(content[0].func), Owned(rest[..i - 1]), Held(content[i].func);
        assert a + (b + c) == a + b + c;
      } else {
        OneSlot(content[..1]);
        assert content[..0] == [];
      }
    }

    /** The first i slots have been closed: their timers no longer fire and their references were given back. */
    ghost predicate Closing(s: State<F, Timer>, i: nat)
      requires i <= |s.slots|
      reads this`released, s.made
    {
      && released == s.released + Owned(s.slots[..i])
      && forall h :: h in s.made ==> (h.active <==> h in s.active && SlotOf(s.slots, h) >= i)
    }

    method CloseSlot(i: nat, ghost s: State<F, Timer>)
      requires slots.Length == |s.slots| == MAX_TIMERS && slots[..] == s.slots && SlotsOk(s) && i < MAX_TIMERS
        && Closing(s, i)
      modifies this`released, s.made
      ensures Closing(s, i + 1)
    {
      hide Owned, SlotOf, Held;
      OwnedMore(s.slots, i);
      if slots[i].timer.Some? {
        slots[i].timer.value.active := false;
      }
      FreeValue(slots[i].func);
    }

    lemma NothingClosed(s: State<F, Timer>)
      requires Valid() && s == st
      ensures Closing(s, 0)
    {
      hide SlotOf, Owned;
      OwnsNothing(s.slots[..0]);
    }

    lemma AllClosed(s: State<F, Timer>)
      requires SlotsOk(s) && Closing(s, MAX_TIMERS)
      ensures released == s.released + Owned(s.slots) && forall h :: h in s.made ==> !h.active
    {
      hide SlotOf, Owned;
      assert s.slots[..MAX_TIMERS] == s.slots;
    }

    /** The context is closed: every timer in a slot is stopped and every reference in a slot given back. */
    method Close()
      requires Valid() && SlotsOk(st)
      modifies this`st, this`released, st.made
      ensures st == Deinit(old(st)) && acquired == st.acquired && released == st.released
      ensures released == old(released) + Owned(old(st).slots) && forall h :: h in st.made ==> !h.active
      ensures Balanced(old(st), multiset{}) ==> acquired == released + old(st).lost
    {
      hide Owned, SlotOf, Closing, SlotsOk, Named, TimersAre, Balanced;
      ghost var s := st;
      NothingClosed(s);
      var i := 0;
      while i < MAX_TIMERS
        invariant i <= MAX_TIMERS && st == s && Closing(s, i)
      {
        CloseSlot(i, s);
        i := i + 1;
      }
      AllClosed(s);
      st := Deinit(s);
      AfterClose(s);
    }

    /** What is left of the references once the context is closed: those taken were given back, but for those
        that were lost. */
    lemma AfterClose(s: State<F, Timer>)
      requires st == Deinit(s) && acquired == st.acquired && released == st.released
      ensures Balanced(s, multiset{}) ==> acquired == released + s.lost
    {
      hide Owned;
      assert s.released + Owned(s.slots) + s.lost + multiset{} == s.released + Owned(s.slots) + s.lost;
    }
  }
}

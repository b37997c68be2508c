/** What the callbacks of the parser accumulate in a connection. */
module HttpRequest {
  import opened TextBuffer

  const METHOD_LEN := 16
  const PATH_LEN := 256
  const MAX_HEADERS := 16
  const NAME_LEN := 64
  const VALUE_LEN := 512
  const BODY_LEN := 512

  type Chunks = seq<seq<Byte>>

  /** A call of the parser. */
  datatype Event =
    | MethodChunk(at: seq<Byte>)
    | UrlChunk(at: seq<Byte>)
    | FieldChunk(at: seq<Byte>)
    | FieldDone
    | ValueChunk(at: seq<Byte>)
    | ValueDone
    | BodyChunk(at: seq<Byte>)

  /** The buffers of a connection. */
  datatype Message = Message(verb: seq<Byte>, path: seq<Byte>, body: seq<Byte>,
                             names: seq<seq<Byte>>, values: seq<seq<Byte>>, numFields: nat, numValues: nat)

  ghost predicate Terminated(b: seq<Byte>, capacity: nat) {
    |b| == capacity && |Text(b)| < capacity
  }

  ghost predicate RowsTerminated(rows: seq<seq<Byte>>, capacity: nat) {
    |rows| == MAX_HEADERS && forall i :: 0 <= i < MAX_HEADERS ==> Terminated(rows[i], capacity)
  }

  ghost predicate WellFormed(m: Message) {
    && Terminated(m.verb, METHOD_LEN) && Terminated(m.path, PATH_LEN) && Terminated(m.body, BODY_LEN)
    && RowsTerminated(m.names, NAME_LEN) && RowsTerminated(m.values, VALUE_LEN)
  }

  ghost function AppendRow(rows: seq<seq<Byte>>, n: nat, at: seq<Byte>, capacity: nat): seq<seq<Byte>>
    requires RowsTerminated(rows, capacity)
  {
    if n < MAX_HEADERS then rows[n := Appended(rows[n], at)] else rows
  }

  function Ended(b: seq<Byte>): (r: seq<Byte>)
    requires |Text(b)| < |b|
    ensures r == b
  {
    var len := |Text(b)|;
    b[..len] + [NUL] + b[len + 1..]
  }

  /** The terminator written when a row is complete changes nothing. */
  ghost function EndRow(rows: seq<seq<Byte>>, n: nat, capacity: nat): seq<seq<Byte>>
    requires RowsTerminated(rows, capacity)
  {
    if n < MAX_HEADERS then rows[n := Ended(rows[n])] else rows
  }

  ghost function Next(n: nat): nat {
    if n < MAX_HEADERS then n + 1 else n
  }

  /** A connection that has just been accepted. */
  ghost function Cleared(): Message {
    Message(Zeros(METHOD_LEN), Zeros(PATH_LEN), Zeros(BODY_LEN),
            seq(MAX_HEADERS, _ => Zeros(NAME_LEN)), seq(MAX_HEADERS, _ => Zeros(VALUE_LEN)), 0, 0)
  }

  /** The effect of one callback. */
  ghost function Step(m: Message, e: Event): Message
    requires WellFormed(m)
  {
    match e
    case MethodChunk(at) => m.(verb := Appended(m.verb, at))
    case UrlChunk(at) => m.(path := Appended(m.path, at))
    case BodyChunk(at) => m.(body := Appended(m.body, at))
    case FieldChunk(at) => m.(names := AppendRow(m.names, m.numFields, at, NAME_LEN))
    case FieldDone => m.(names := EndRow(m.names, m.numFields, NAME_LEN), numFields := Next(m.numFields))
    case ValueChunk(at) => m.(values := AppendRow(m.values, m.numValues, at, VALUE_LEN))
    case ValueDone => m.(values := EndRow(m.values, m.numValues, VALUE_LEN), numValues := Next(m.numValues))
  }

  // ---------- the simple truth: what was sent, without bounds ----------

  /** Everything received: the chunks of each text, the headers complete so far and those in progress. */
  datatype Sent = Sent(verb: Chunks, path: Chunks, body: Chunks,
                       names: seq<Chunks>, values: seq<Chunks>, name: Chunks, value: Chunks)

  const NOTHING := Sent([], [], [], [], [], [], [])

  function Record(d: Sent, e: Event): Sent {
    match e
    case MethodChunk(at) => d.(verb := d.verb + [at])
    case UrlChunk(at) => d.(path := d.path + [at])
    case BodyChunk(at) => d.(body := d.body + [at])
    case FieldChunk(at) => d.(name := d.name + [at])
    case FieldDone => d.(names := d.names + [d.name], name := [])
    case ValueChunk(at) => d.(value := d.value + [at])
    case ValueDone => d.(values := d.values + [d.value], value := [])
  }

  function RecordAll(d: Sent, run: seq<Event>): Sent {
    if run == [] then d else Record(RecordAll(d, run[..|run| - 1]), run[|run| - 1])
  }

  function Received(run: seq<Event>): Sent {
    RecordAll(NOTHING, run)
  }

  function Row(done: seq<Chunks>, current: Chunks, i: nat): Chunks {
    if i < |done| then done[i] else if i == |done| then current else []
  }

  ghost function Rows(done: seq<Chunks>, current: Chunks, capacity: nat): (rows: seq<seq<Byte>>)
    requires capacity > 0
    ensures |rows| == MAX_HEADERS && forall i :: 0 <= i < MAX_HEADERS ==>
      rows[i] == Filled(capacity, Row(done, current, i))
  {
    seq(MAX_HEADERS, i requires 0 <= i < MAX_HEADERS => Filled(capacity, Row(done, current, i)))
  }

  /** The part of it that fits. */
  ghost function Bounded(d: Sent): Message {
    Message(Filled(METHOD_LEN, d.verb), Filled(PATH_LEN, d.path), Filled(BODY_LEN, d.body),
            Rows(d.names, d.name, NAME_LEN), Rows(d.values, d.value, VALUE_LEN),
            Min(|d.names|, MAX_HEADERS), Min(|d.values|, MAX_HEADERS))
  }

  lemma FilledTerminated(capacity: nat, chunks: Chunks)
    requires capacity > 0
    ensures Terminated(Filled(capacity, chunks), capacity)
    ensures Text(Filled(capacity, chunks)) == Take(Joined(chunks), capacity - 1)
  {
    TakeText(Joined(chunks), capacity - 1);
    TextOfPadded(Take(Joined(chunks), capacity - 1), capacity);
  }

  lemma FilledMore(capacity: nat, chunks: Chunks, at: seq<Byte>)
    requires capacity > 0 && Terminated(Filled(capacity, chunks), capacity)
    ensures Filled(capacity, chunks + [at]) == Appended(Filled(capacity, chunks), at)
  {
    hide Appended, Terminated;
    assert (chunks + [at])[..|chunks|] == chunks;
  }

  lemma RowsAreTerminated(done: seq<Chunks>, current: Chunks, capacity: nat)
    requires capacity > 0
    ensures RowsTerminated(Rows(done, current, capacity), capacity)
  {
    forall i | 0 <= i < MAX_HEADERS ensures Terminated(Rows(done, current, capacity)[i], capacity) {
      FilledTerminated(capacity, Row(done, current, i));
    }
  }

  lemma BoundedWellFormed(d: Sent)
    ensures WellFormed(Bounded(d))
  {
    hide Terminated, RowsTerminated, Rows, Filled;
    FilledTerminated(METHOD_LEN, d.verb);
    FilledTerminated(PATH_LEN, d.path);
    FilledTerminated(BODY_LEN, d.body);
    RowsAreTerminated(d.names, d.name, NAME_LEN);
    RowsAreTerminated(d.values, d.value, VALUE_LEN);
  }

  lemma ClearedIsBounded()
    ensures Cleared() == Bounded(NOTHING) && WellFormed(Cleared())
  {
    BoundedWellFormed(NOTHING);
    hide Terminated, RowsTerminated;
    assert Cleared().names == Bounded(NOTHING).names;
    assert Cleared().values == Bounded(NOTHING).values;
  }

  lemma RowsMore(done: seq<Chunks>, current: Chunks, capacity: nat, at: seq<Byte>)
    requires capacity > 0 && RowsTerminated(Rows(done, current, capacity), capacity)
    ensures AppendRow(Rows(done, current, capacity), Min(|done|, MAX_HEADERS), at, capacity)
         == Rows(done, current + [at], capacity)
  {
    hide Appended, Filled, Terminated;
    var rows := Rows(done, current, capacity);
    if |done| < MAX_HEADERS {
      assert Terminated(rows[|done|], capacity);
      FilledMore(capacity, current, at);
    }
    assert AppendRow(rows, Min(|done|, MAX_HEADERS), at, capacity) == Rows(done, current + [at], capacity);
  }

  lemma RowsEnd(done: seq<Chunks>, current: Chunks, capacity: nat)
    requires capacity > 0 && RowsTerminated(Rows(done, current, capacity), capacity)
    ensures EndRow(Rows(done, current, capacity), Min(|done|, MAX_HEADERS), capacity)
      == Rows(done + [current], [], capacity)
  {
    hide Filled;
    var rows := Rows(done, current, capacity);
    assert EndRow(rows, Min(|done|, MAX_HEADERS), capacity) == rows;
    assert rows == Rows(done + [current], [], capacity);
  }

  /** One callback keeps the buffers equal to the bounded part of what was sent. */
  lemma StepIsBounded(d: Sent, e: Event)
    ensures WellFormed(Bounded(d)) && Step(Bounded(d), e) == Bounded(Record(d, e))
  {
    hide Terminated, RowsTerminated, Rows, Filled, AppendRow, EndRow, Appended;
    BoundedWellFormed(d);
    assert WellFormed(Bounded(d));
    match e
    case MethodChunk(at) => FilledMore(METHOD_LEN, d.verb, at);
    case UrlChunk(at) => FilledMore(PATH_LEN, d.path, at);
    case BodyChunk(at) => FilledMore(BODY_LEN, d.body, at);
    case FieldChunk(at) => RowsMore(d.names, d.name, NAME_LEN, at);
    case FieldDone => RowsEnd(d.names, d.name, NAME_LEN);
    case ValueChunk(at) => RowsMore(d.values, d.value, VALUE_LEN, at);
    case ValueDone => RowsEnd(d.values, d.value, VALUE_LEN);
  }

  // ---------- the order of the calls ----------

  /** Which half of a header the parser is in, or that it broke the order. */
  datatype Turn = Name | Value | Disorder

  function TurnStep(t: Turn, e: Event): Turn {
    match e
    case FieldChunk(_) => if t.Name? then Turn.Name else Disorder
    case FieldDone => if t.Name? then Turn.Value else Disorder
    case ValueChunk(_) => if t.Value? then Turn.Value else Disorder
    case ValueDone => if t.Value? then Turn.Name else Disorder
    case _ => t
  }

  function TurnAfter(run: seq<Event>): Turn {
    if run == [] then Turn.Name else TurnStep(TurnAfter(run[..|run| - 1]), run[|run| - 1])
  }

  /** The callbacks, folded from cleared memory. */
  ghost function Run(run: seq<Event>): (m: Message)
    ensures m == Bounded(Received(run)) && WellFormed(m)
  {
    if run == [] then
      ClearedIsBounded();
      Cleared()
    else
      StepIsBounded(Received(run[..|run| - 1]), run[|run| - 1]);
      BoundedWellFormed(Received(run));
      Step(Run(run[..|run| - 1]), run[|run| - 1])
  }

  lemma {:induction false} OrderlyCounts(run: seq<Event>)
    requires !TurnAfter(run).Disorder?
    ensures |Received(run).names| == |Received(run).values| + if TurnAfter(run).Value? then 1 else 0
    ensures TurnAfter(run).Name? ==> Received(run).value == []
    ensures TurnAfter(run).Value? ==> Received(run).name == []
  {
    if run != [] {
      OrderlyCounts(run[..|run| - 1]);
    }
  }

  /** At every point of an orderly run the counts are paired and bounded. */
  lemma PairedCounts(run: seq<Event>)
    requires !TurnAfter(run).Disorder?
    ensures Run(run).numValues <= Run(run).numFields <= Run(run).numValues + 1
    ensures Run(run).numFields <= MAX_HEADERS && Run(run).numValues <= MAX_HEADERS
  {
    OrderlyCounts(run);
  }

  // ---------- the headers of a request, however they are cut ----------

  datatype Header = Header(name: Chunks, value: Chunks)

  function FieldCalls(c: Chunks): seq<Event> {
    seq(|c|, i requires 0 <= i < |c| => FieldChunk(c[i]))
  }

  function ValueCalls(c: Chunks): seq<Event> {
    seq(|c|, i requires 0 <= i < |c| => ValueChunk(c[i]))
  }

  /** The calls that the parser makes for the headers hs. */
  function Calls(hs: seq<Header>): seq<Event> {
    if hs == [] then [] else
      var h := hs[|hs| - 1];
      Calls(hs[..|hs| - 1]) + (FieldCalls(h.name) + [FieldDone] + (ValueCalls(h.value) + [ValueDone]))
  }

  predicate IsHeaderCall(e: Event) {
    !e.MethodChunk? && !e.UrlChunk? && !e.BodyChunk?
  }

  /** The calls of a run that are about headers. */
  function HeaderCalls(run: seq<Event>): seq<Event> {
    if run == [] then [] else
      HeaderCalls(run[..|run| - 1]) + if IsHeaderCall(run[|run| - 1]) then [run[|run| - 1]] else []
  }

  lemma {:induction false} RecordAllSum(d: Sent, a: seq<Event>, b: seq<Event>)
    ensures RecordAll(d, a + b) == RecordAll(RecordAll(d, a), b)
    decreases |b|
  {
    if b == [] {
      assert a + b == a;
    } else {
      assert (a + b)[..|a + b| - 1] == a + b[..|b| - 1];
      RecordAllSum(d, a, b[..|b| - 1]);
    }
  }

  lemma {:induction false} RecordFields(d: Sent, c: Chunks)
    ensures RecordAll(d, FieldCalls(c)) == d.(name := d.name + c)
  {
    if c == [] {
      assert d.name + c == d.name;
    } else {
      var rest := c[..|c| - 1];
      assert FieldCalls(c)[..|c| - 1] == FieldCalls(rest);
      RecordFields(d, rest);
      assert d.name + rest + [c[|c| - 1]] == d.name + c;
    }
  }

  lemma {:induction false} RecordValues(d: Sent, c: Chunks)
    ensures RecordAll(d, ValueCalls(c)) == d.(value := d.value + c)
  {
    if c == [] {
      assert d.value + c == d.value;
    } else {
      var rest := c[..|c| - 1];
      assert ValueCalls(c)[..|c| - 1] == ValueCalls(rest);
      RecordValues(d, rest);
      assert d.value + rest + [c[|c| - 1]] == d.value + c;
    }
  }

  lemma RecordField(d: Sent, c: Chunks)
    ensures RecordAll(d, FieldCalls(c) + [FieldDone]) == d.(names := d.names + [d.name + c], name := [])
  {
    var calls := FieldCalls(c) + [FieldDone];
    assert calls[..|calls| - 1] == FieldCalls(c);
    RecordFields(d, c);
  }

  lemma RecordValue(d: Sent, c: Chunks)
    ensures RecordAll(d, ValueCalls(c) + [ValueDone]) == d.(values := d.values + [d.value + c], value := [])
  {
    var calls := ValueCalls(c) + [ValueDone];
    assert calls[..|calls| - 1] == ValueCalls(c);
    RecordValues(d, c);
  }

  /** The headers are received in order, name i with value i. */
  lemma {:induction false} CallsReceived(hs: seq<Header>)
    ensures Received(Calls(hs)).names == seq(|hs|, i requires 0 <= i < |hs| => hs[i].name)
    ensures Received(Calls(hs)).values == seq(|hs|, i requires 0 <= i < |hs| => hs[i].value)
    ensures Received(Calls(hs)).name == [] && Received(Calls(hs)).value == []
  {
    if hs != [] {
      var rest, h := hs[..|hs| - 1], hs[|hs| - 1];
      CallsReceived(rest);
      var d := Received(Calls(rest));
      var f, v := FieldCalls(h.name) + [FieldDone], ValueCalls(h.value) + [ValueDone];
      RecordAllSum(NOTHING, Calls(rest), f + v);
      RecordAllSum(d, f, v);
      RecordField(d, h.name);
      RecordValue(RecordAll(d, f), h.value);
      assert [] + h.name == h.name && [] + h.value == h.value;
    }
  }

  /** Calls for the method, the path and the body in between make no difference to the headers. */
  lemma {:induction false} OnlyHeaderCallsMatter(run: seq<Event>)
    ensures var d, e := Received(run), Received(HeaderCalls(run));
      d.names == e.names && d.values == e.values && d.name == e.name && d.value == e.value
  {
    if run != [] {
      var rest, last := run[..|run| - 1], run[|run| - 1];
      OnlyHeaderCallsMatter(rest);
      assert Received(run) == Record(Received(rest), last);
      if IsHeaderCall(last) {
        assert HeaderCalls(run) == HeaderCalls(rest) + [last];
        assert HeaderCalls(run)[..|HeaderCalls(run)| - 1] == HeaderCalls(rest);
        assert Received(HeaderCalls(run)) == Record(Received(HeaderCalls(rest)), last);
      } else {
        assert HeaderCalls(run) == HeaderCalls(rest);
      }
    }
  }

  /** The buffers hold the first sixteen of the headers hs, name i with value i, cut to what fits. */
  ghost predicate Holds(m: Message, hs: seq<Header>) {
    && |m.names| == |m.values| == MAX_HEADERS && m.numFields == m.numValues == Min(|hs|, MAX_HEADERS)
    && forall i :: 0 <= i < m.numFields ==>
         && Text(m.names[i]) == Take(Joined(hs[i].name), NAME_LEN - 1)
         && Text(m.values[i]) == Take(Joined(hs[i].value), VALUE_LEN - 1)
  }

  /** However the headers hs were cut into chunks, and whatever came in between. */
  lemma {:induction false} HeadersHeld(run: seq<Event>, hs: seq<Header>)
    requires HeaderCalls(run) == Calls(hs)
    ensures Holds(Run(run), hs)
  {
    hide Terminated, RowsTerminated, Filled, Calls, HeaderCalls, Received, Joined, Text;
    OnlyHeaderCallsMatter(run);
    CallsReceived(hs);
    forall i | 0 <= i < Min(|hs|, MAX_HEADERS)
      ensures Text(Run(run).names[i]) == Take(Joined(hs[i].name), NAME_LEN - 1)
      ensures Text(Run(run).values[i]) == Take(Joined(hs[i].value), VALUE_LEN - 1)
    {
      FilledTerminated(NAME_LEN, hs[i].name);
      FilledTerminated(VALUE_LEN, hs[i].value);
    }
  }

  // ---------- method, path and body, however they are cut ----------

  /** The chunks of the method, the path and the body in a run, in order. */
  function MethodChunks(run: seq<Event>): Chunks {
    if run == [] then [] else
      MethodChunks(run[..|run| - 1]) + if run[|run| - 1].MethodChunk? then [run[|run| - 1].at] else []
  }

  function UrlChunks(run: seq<Event>): Chunks {
    if run == [] then [] else
      UrlChunks(run[..|run| - 1]) + if run[|run| - 1].UrlChunk? then [run[|run| - 1].at] else []
  }

  function BodyChunks(run: seq<Event>): Chunks {
    if run == [] then [] else
      BodyChunks(run[..|run| - 1]) + if run[|run| - 1].BodyChunk? then [run[|run| - 1].at] else []
  }

  lemma {:induction false} TextsReceived(run: seq<Event>)
    ensures var d := Received(run);
      d.verb == MethodChunks(run) && d.path == UrlChunks(run) && d.body == BodyChunks(run)
  {
    if run != [] {
      TextsReceived(run[..|run| - 1]);
      assert Received(run) == Record(Received(run[..|run| - 1]), run[|run| - 1]);
    }
  }

  /** Each buffer holds its own text, cut to what fits, whatever came in between. */
  lemma {:induction false} TextsHeld(run: seq<Event>)
    ensures Text(Run(run).verb) == Take(Joined(MethodChunks(run)), METHOD_LEN - 1)
    ensures Text(Run(run).path) == Take(Joined(UrlChunks(run)), PATH_LEN - 1)
    ensures Text(Run(run).body) == Take(Joined(BodyChunks(run)), BODY_LEN - 1)
  {
    hide Terminated, RowsTerminated, Filled, Received, Joined, Text, MethodChunks, UrlChunks, BodyChunks, Rows;
    TextsReceived(run);
    FilledTerminated(METHOD_LEN, MethodChunks(run));
    FilledTerminated(PATH_LEN, UrlChunks(run));
    FilledTerminated(BODY_LEN, BodyChunks(run));
  }

  // ---------- in place ----------

  lemma {:induction false} RunMore(run: seq<Event>, e: Event)
    ensures Run(run + [e]) == Step(Run(run), e)
  {
    assert (run + [e])[..|run|] == run;
  }

  ghost predicate RowsAre(rows: seq<array<Byte>>, content: seq<seq<Byte>>, capacity: nat)
    reads rows
  {
    && |rows| == |content| == MAX_HEADERS
    && (forall i :: 0 <= i < MAX_HEADERS ==> rows[i].Length == capacity && rows[i][..] == content[i])
    && (forall i, j :: 0 <= i < j < MAX_HEADERS ==> rows[i] != rows[j])
  }

  method NewRows(capacity: nat) returns (rows: seq<array<Byte>>)
    requires capacity > 0
    ensures RowsAre(rows, seq(MAX_HEADERS, _ => Zeros(capacity)), capacity) && forall a :: a in rows ==> fresh(a)
  {
    rows := [];
    while |rows| < MAX_HEADERS
      invariant |rows| <= MAX_HEADERS && forall a :: a in rows ==> fresh(a)
      invariant forall i :: 0 <= i < |rows| ==> rows[i].Length == capacity && rows[i][..] == Zeros(capacity)
      invariant forall i, j :: 0 <= i < j < |rows| ==> rows[i] != rows[j]
    {
      var row := new Byte[capacity](_ => NUL);
      assert row[..] == Zeros(capacity);
      assert row !in rows;
      rows := rows + [row];
    }
  }

  method AppendTo(rows: seq<array<Byte>>, n: nat, at: seq<Byte>, ghost content: seq<seq<Byte>>, ghost capacity: nat)
    requires RowsAre(rows, content, capacity) && RowsTerminated(content, capacity)
    modifies rows
    ensures RowsAre(rows, AppendRow(content, n, at, capacity), capacity)
  {
    hide Appended;
    if n < MAX_HEADERS {
      assert Terminated(content[n], capacity);
      Append(rows[n], at);
    }
  }

  method EndIn(rows: seq<array<Byte>>, n: nat, ghost content: seq<seq<Byte>>, ghost capacity: nat) returns (next: nat)
    requires RowsAre(rows, content, capacity) && RowsTerminated(content, capacity)
    modifies rows
    ensures RowsAre(rows, EndRow(content, n, capacity), capacity) && next == Next(n)
  {
    next := n;
    if n < MAX_HEADERS {
      assert Terminated(content[n], capacity);
      var len := StrLen(rows[n]);
      rows[n][len] := NUL;
      assert rows[n][..] == content[n];
      next := n + 1;
    }
  }

  /** The part of a connection that the parser fills. `run` is the history of its calls. */
  class Request {
    const verb: array<Byte>
    const path: array<Byte>
    const body: array<Byte>
    const names: seq<array<Byte>>
    const values: seq<array<Byte>>
    var numFields: nat
    var numValues: nat
    ghost var run: seq<Event>

    ghost function Buffers(): set<array<Byte>> {
      {verb, path, body} + (set a | a in names) + (set a | a in values)
    }

    ghost predicate TextsAre(m: Message)
      reads verb, path, body
    {
      verb[..] == m.verb && path[..] == m.path && body[..] == m.body
    }

    /** No buffer is used twice. */
    ghost predicate Apart() {
      && verb !in names && path !in names && body !in names && verb != path && verb != body && path != body
      && verb !in values && path !in values && body !in values && forall a :: a in names ==> a !in values
    }

    ghost predicate Is(m: Message)
      reads this`numFields, this`numValues, Buffers()
    {
      && TextsAre(m) && RowsAre(names, m.names, NAME_LEN) && RowsAre(values, m.values, VALUE_LEN)
      && numFields == m.numFields && numValues == m.numValues
    }

    ghost predicate Valid()
      reads this, Buffers()
    {
      Apart() && Is(Run(run))
    }

    constructor ()
      ensures Valid() && run == [] && fresh(Buffers())
    {
      hide RowsAre, WellFormed, Bounded, Step, Run, Valid;
      var verb0 := new Byte[METHOD_LEN](_ => NUL);
      var path0 := new Byte[PATH_LEN](_ => NUL);
      var body0 := new Byte[BODY_LEN](_ => NUL);
      assert verb0[..] == Zeros(METHOD_LEN) && path0[..] == Zeros(PATH_LEN) && body0[..] == Zeros(BODY_LEN);
      var n := NewRows(NAME_LEN);
      var v := NewRows(VALUE_LEN);
      verb, path, body, names, values := verb0, path0, body0, n, v;
      numFields, numValues, run := 0, 0, [];
      new;
      assert Apart();
      NothingReceived();
    }

    lemma NothingReceived()
      requires Apart() && run == [] && numFields == numValues == 0
      requires verb[..] == Zeros(METHOD_LEN) && path[..] == Zeros(PATH_LEN) && body[..] == Zeros(BODY_LEN)
      requires RowsAre(names, seq(MAX_HEADERS, _ => Zeros(NAME_LEN)), NAME_LEN)
      requires RowsAre(values, seq(MAX_HEADERS, _ => Zeros(VALUE_LEN)), VALUE_LEN)
      ensures Valid()
    {
      hide RowsAre, Apart, WellFormed;
    }

    lemma Open()
      requires Valid()
      ensures Apart() && TextsAre(Run(run)) && WellFormed(Run(run))
      ensures RowsAre(names, Run(run).names, NAME_LEN) && RowsAre(values, Run(run).values, VALUE_LEN)
      ensures numFields == Run(run).numFields && numValues == Run(run).numValues
    {
    }

    /** The three texts can be appended to without a change to the rest. */
    lemma OpenTexts()
      requires Valid()
      ensures Apart() && WellFormed(Run(run)) && Is(Run(run))
      ensures verb[..] == Run(run).verb && path[..] == Run(run).path && body[..] == Run(run).body
      ensures |Text(verb[..])| < verb.Length && |Text(path[..])| < path.Length && |Text(body[..])| < body.Length
      ensures verb != path && verb != body && path != body
      ensures RowsAre(names, Run(run).names, NAME_LEN) && RowsAre(values, Run(run).values, VALUE_LEN)
      ensures verb !in names && path !in names && body !in names && verb !in values && path !in values
        && body !in values
    {
      hide Run, RowsAre, RowsTerminated, Text;
    }

    /** The buffers after one of the texts was appended to. */
    lemma TextsTaken(m: Message, verb': seq<Byte>, path': seq<Byte>, body': seq<Byte>)
      requires verb[..] == verb' && path[..] == path' && body[..] == body'
      requires RowsAre(names, m.names, NAME_LEN) && RowsAre(values, m.values, VALUE_LEN)
      requires numFields == m.numFields && numValues == m.numValues
      ensures Is(m.(verb := verb', path := path', body := body'))
    {
      hide RowsAre;
    }

    lemma CountsOf(m: Message)
      requires Is(m)
      ensures numFields == m.numFields && numValues == m.numValues
    {
    }

    lemma TextSteps(m: Message, at: seq<Byte>)
      requires WellFormed(m)
      ensures Step(m, MethodChunk(at)) == m.(verb := Appended(m.verb, at), path := m.path, body := m.body)
      ensures Step(m, UrlChunk(at)) == m.(verb := m.verb, path := Appended(m.path, at), body := m.body)
      ensures Step(m, BodyChunk(at)) == m.(verb := m.verb, path := m.path, body := Appended(m.body, at))
    {
      hide WellFormed, Appended;
    }

    /** Records a call whose effect the buffers show. */
    ghost method Become(e: Event, m: Message)
      requires Apart() && WellFormed(m) && m == Run(run) && Is(Step(m, e))
      modifies this`run
      ensures Valid() && run == old(run) + [e]
    {
      hide Run, Bounded, Received, RecordAll, Rows, Filled, RowsAre, TextsAre, Apart, Step, WellFormed;
      RunMore(run, e);
      run := run + [e];
    }

    method OnMethod(at: seq<Byte>)
      requires Valid()
      modifies this`run, verb
      ensures Valid() && run == old(run) + [MethodChunk(at)]
    {
      hide *;
      OpenTexts();
      ghost var m := Run(run);
      CountsOf(m);
      TextSteps(m, at);
      Append(verb, at);
      TextsTaken(m, Appended(m.verb, at), m.path, m.body);
      Become(MethodChunk(at), m);
    }

    method OnUrl(at: seq<Byte>)
      requires Valid()
      modifies this`run, path
      ensures Valid() && run == old(run) + [UrlChunk(at)]
    {
      hide *;
      OpenTexts();
      ghost var m := Run(run);
      CountsOf(m);
      TextSteps(m, at);
      Append(path, at);
      TextsTaken(m, m.verb, Appended(m.path, at), m.body);
      Become(UrlChunk(at), m);
    }

    method OnBody(at: seq<Byte>)
      requires Valid()
      modifies this`run, body
      ensures Valid() && run == old(run) + [BodyChunk(at)]
    {
      hide *;
      OpenTexts();
      ghost var m := Run(run);
      CountsOf(m);
      TextSteps(m, at);
      Append(body, at);
      TextsTaken(m, m.verb, m.path, Appended(m.body, at));
      Become(BodyChunk(at), m);
    }

    method OnHeaderField(at: seq<Byte>)
      requires Valid()
      modifies this`run, names
      ensures Valid() && run == old(run) + [FieldChunk(at)]
    {
      hide Run, RowsAre, RowsTerminated, Terminated, Appended, AppendRow;
      Open();
      ghost var m := Run(run);
      AppendTo(names, numFields, at, m.names, NAME_LEN);
      Become(FieldChunk(at), m);
    }

    method OnHeaderFieldComplete()
      requires Valid()
      modifies this`run, this`numFields, names
      ensures Valid() && run == old(run) + [FieldDone]
    {
      hide Run, RowsAre, RowsTerminated, Terminated, EndRow;
      Open();
      ghost var m := Run(run);
      numFields := EndIn(names, numFields, m.names, NAME_LEN);
      Become(FieldDone, m);
    }

    method OnHeaderValue(at: seq<Byte>)
      requires Valid()
      modifies this`run, values
      ensures Valid() && run == old(run) + [ValueChunk(at)]
    {
      hide Run, RowsAre, RowsTerminated, Terminated, Appended, AppendRow;
      Open();
      ghost var m := Run(run);
      AppendTo(values, numValues, at, m.values, VALUE_LEN);
      Become(ValueChunk(at), m);
    }

    method OnHeaderValueComplete()
      requires Valid()
      modifies this`run, this`numValues, values
      ensures Valid() && run == old(run) + [ValueDone]
    {
      hide Run, RowsAre, RowsTerminated, Terminated, EndRow;
      Open();
      ghost var m := Run(run);
      numValues := EndIn(values, numValues, m.values, VALUE_LEN);
      Become(ValueDone, m);
    }
  }
}

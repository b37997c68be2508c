/** The headers on their way to the engine: packed into two tables of fixed stride, then found again by a
    pointer that only looks for terminators. */
module HeaderTable {
  import opened Wrappers
  import opened TextBuffer
  import opened HttpRequest

  // ---------- the tables ----------

  /** Every row is a text that leaves room for a terminator. */
  ghost predicate Fit(rows: seq<seq<Byte>>, stride: nat) {
    forall i :: 0 <= i < |rows| ==> |rows[i]| < stride && NoNul(rows[i])
  }

  lemma FitParts(rows: seq<seq<Byte>>, stride: nat)
    requires Fit(rows, stride) && rows != []
    ensures |rows[0]| < stride && NoNul(rows[0]) && Fit(rows[1..], stride)
  {
  }

  /** Rows one after the other, each padded with NULs. */
  ghost function Table(rows: seq<seq<Byte>>, stride: nat): (t: seq<Byte>)
    requires Fit(rows, stride)
  {
    if rows == [] then [] else Padded(rows[0], stride) + Table(rows[1..], stride)
  }

  lemma TimesStep(i: nat, stride: nat)
    requires i > 0
    ensures i * stride == (i - 1) * stride + stride && (i - 1) * stride >= 0
  {
  }

  lemma {:induction false} TableLength(rows: seq<seq<Byte>>, stride: nat)
    requires Fit(rows, stride)
    ensures |Table(rows, stride)| == |rows| * stride
  {
    hide Fit, Padded;
    if rows != [] {
      FitParts(rows, stride);
      TableLength(rows[1..], stride);
      TimesStep(|rows|, stride);
    }
  }

  lemma TableUnfold(rows: seq<seq<Byte>>, stride: nat)
    requires Fit(rows, stride) && rows != []
    ensures Fit(rows[1..], stride) && |rows[0]| < stride
    ensures Table(rows, stride) == Padded(rows[0], stride) + Table(rows[1..], stride)
  {
    FitParts(rows, stride);
  }

  lemma SetLater(line: seq<Byte>, rest: seq<Byte>, k: nat, n: nat, mid: seq<Byte>)
    requires k + n <= |rest|
    ensures line + (rest[..k] + mid + rest[k + n..])
      == (line + rest)[..k + |line|] + mid + (line + rest)[k + |line| + n..]
  {
    assert (line + rest)[..k + |line|] == line + rest[..k];
    assert (line + rest)[k + |line| + n..] == rest[k + n..];
  }

  lemma SetFirst(t: seq<Byte>, stride: nat, n: nat, rest: seq<Byte>)
    requires |t| <= n <= stride
    ensures Padded(t, n) + (Padded([], stride) + rest)[n..] == Padded(t, stride) + rest
  {
    PaddedAt(t, n);
    PaddedAt([], stride);
    PaddedAt(t, stride);
    hide Padded;
  }

  /** Copying n bytes to the start of an empty row sets the row. */
  lemma {:induction false} SetRow(rows: seq<seq<Byte>>, stride: nat, i: nat, t: seq<Byte>, n: nat)
    requires i < |rows| && Fit(rows, stride) && Fit(rows[i := t], stride) && rows[i] == [] && |t| <= n <= stride
    ensures 0 <= i * stride && i * stride + n <= |Table(rows, stride)|
    ensures Table(rows[i := t], stride)
         == Table(rows, stride)[..i * stride] + Padded(t, n) + Table(rows, stride)[i * stride + n..]
    decreases i
  {
    hide *;
    TableUnfold(rows, stride);
    TableUnfold(rows[i := t], stride);
    var rest := Table(rows[1..], stride);
    if i == 0 {
      assert rows[0 := t][1..] == rows[1..];
      SetFirst(t, stride, n, rest);
    } else {
      assert rows[i := t][1..] == rows[1..][i - 1 := t];
      SetRow(rows[1..], stride, i - 1, t, n);
      TimesStep(i, stride);
      SetLater(Padded(rows[0], stride), rest, (i - 1) * stride, n, Padded(t, n));
    }
  }

  // ---------- the walk: a pointer is what lies ahead of it in the table ----------

  /** The number of NULs at the start. */
  function Blanks(s: seq<Byte>): (n: nat)
    ensures n <= |s| && (forall k :: 0 <= k < n ==> s[k] == NUL) && (n < |s| ==> s[n] != NUL)
  {
    if s == [] || s[0] != NUL then 0 else 1 + Blanks(s[1..])
  }

  /** Skips to a NUL after the first byte and from there to a byte. None when it leaves the table. */
  function Advance(s: seq<Byte>): Option<seq<Byte>>
    requires s != []
  {
    var a := s[1..];
    var b := a[|Text(a)|..];
    if b == [] then None else
      var c := b[1..];
      var d := c[Blanks(c)..];
      if d == [] then None else Some(d)
  }

  function Prepend<T>(first: seq<T>, rest: Option<seq<T>>): Option<seq<T>> {
    match rest
    case None => None
    case Some(r) => Some(first + r)
  }

  /** The n strings that a walk reads. None when it leaves the table. */
  function Visit(s: seq<Byte>, n: nat): Option<seq<seq<Byte>>> {
    if n == 0 then Some([])
    else if |Text(s)| == |s| then None
    else if n == 1 then Some([Text(s)])
    else match Advance(s)
      case None => None
      case Some(d) => Prepend([Text(s)], Visit(d, n - 1))
  }

  /** The first non-empty row. */
  function FirstRow(rows: seq<seq<Byte>>): (j: nat)
    ensures j <= |rows| && (forall i :: 0 <= i < j ==> rows[i] == []) && (j < |rows| ==> rows[j] != [])
  {
    if rows == [] || rows[0] != [] then 0 else 1 + FirstRow(rows[1..])
  }

  lemma FitFrom(rows: seq<seq<Byte>>, stride: nat, j: nat)
    requires Fit(rows, stride) && j <= |rows|
    ensures Fit(rows[j..], stride)
  {
  }

  lemma BlanksSum(n: nat, s: seq<Byte>)
    ensures (Zeros(n) + s)[Blanks(Zeros(n) + s)..] == s[Blanks(s)..]
  {
    var t := Zeros(n) + s;
    var b := Blanks(t);
    assert b >= n;
    assert b < |t| ==> s[b - n] == t[b];
    assert forall k :: 0 <= k < |s| ==> s[k] == t[n + k];
    assert b == n + Blanks(s);
  }

  /** Skipping NULs from the start of a row leads to the first byte of the first non-empty row. */
  lemma {:induction false} BlanksToRow(rows: seq<seq<Byte>>, stride: nat)
    requires Fit(rows, stride) && Fit(rows[FirstRow(rows)..], stride)
    ensures Table(rows, stride)[Blanks(Table(rows, stride))..] == Table(rows[FirstRow(rows)..], stride)
    ensures rows[FirstRow(rows)..] != [] ==> Table(rows[FirstRow(rows)..], stride) != []
  {
    hide Fit, Padded, Blanks;
    if rows == [] {
    } else {
      FitParts(rows, stride);
      PaddedAt(rows[0], stride);
      if rows[0] == [] {
        assert Padded(rows[0], stride) == Zeros(stride);
        BlanksSum(stride, Table(rows[1..], stride));
        assert rows[1..][FirstRow(rows[1..])..] == rows[FirstRow(rows)..];
        BlanksToRow(rows[1..], stride);
      } else {
        assert Table(rows, stride)[0] == rows[0][0];
        assert Blanks(Table(rows, stride)) == 0;
      }
    }
  }

  lemma LineParts(r: seq<Byte>, stride: nat, rest: seq<Byte>, z: nat)
    requires |r| < stride && z == (if r == [] then 1 else |r|) && z < stride
    requires NoNul(r)
    ensures var s := Padded(r, stride) + rest;
      && Text(s[1..]) == s[1..z] && s[z] == NUL && s[z + 1..] == Zeros(stride - z - 1) + rest
  {
    PaddedAt(r, stride);
    var s := Padded(r, stride) + rest;
    TextIs(s[1..], s[1..z]);
  }

  lemma AdvanceParts(s: seq<Byte>, z: nat)
    requires 1 <= z < |s| && Text(s[1..]) == s[1..z]
    ensures Advance(s) == var d := s[z + 1..][Blanks(s[z + 1..])..]; if d == [] then None else Some(d)
  {
    hide Blanks, Text;
    assert s[1..][z - 1..] == s[z..];
    assert s[z..][1..] == s[z + 1..];
  }

  /** From the first byte of a row, an advance skips the row and the NULs after it. */
  lemma AdvanceSkipsLine(r: seq<Byte>, stride: nat, rest: seq<Byte>)
    requires |r| < stride && NoNul(r) && stride >= 2
    ensures Padded(r, stride) + rest != []
    ensures Advance(Padded(r, stride) + rest) == var d := rest[Blanks(rest)..]; if d == [] then None else Some(d)
  {
    hide Padded, Blanks, Text, NoNul, Advance;
    var s := Padded(r, stride) + rest;
    var z := if r == [] then 1 else |r|;
    LineParts(r, stride, rest, z);
    BlanksSum(stride - z - 1, rest);
    AdvanceParts(s, z);
  }

  /** One advance lands on the first byte of the next non-empty row, if there is one. */
  lemma AdvanceToRow(rows: seq<seq<Byte>>, stride: nat)
    requires Fit(rows, stride) && rows != [] && stride >= 2
    ensures var j := 1 + FirstRow(rows[1..]);
      && Fit(rows[j..], stride) && Table(rows, stride) != []
      && Advance(Table(rows, stride)) == if j < |rows| then Some(Table(rows[j..], stride)) else None
  {
    hide Fit, Padded, Blanks, FirstRow, Advance;
    var j := 1 + FirstRow(rows[1..]);
    FitParts(rows, stride);
    FitFrom(rows, stride, j);
    assert rows[1..][FirstRow(rows[1..])..] == rows[j..];
    AdvanceSkipsLine(rows[0], stride, Table(rows[1..], stride));
    BlanksToRow(rows[1..], stride);
  }

  /** The number of rows with text. */
  function Count(rows: seq<seq<Byte>>): nat {
    if rows == [] then 0 else (if rows[0] == [] then 0 else 1) + Count(rows[1..])
  }

  lemma {:induction false} CountAfterFirst(rows: seq<seq<Byte>>)
    ensures var j := FirstRow(rows); Count(rows) == if j < |rows| then 1 + Count(rows[j + 1..]) else 0
  {
    if rows != [] && rows[0] == [] {
      CountAfterFirst(rows[1..]);
      var j := FirstRow(rows);
      if j < |rows| {
        assert rows[1..][j..] == rows[j + 1..];
      }
    }
  }

  /** The text at the first byte of a row. */
  lemma TextOfRow(rows: seq<seq<Byte>>, stride: nat)
    requires Fit(rows, stride) && rows != []
    ensures Text(Table(rows, stride)) == rows[0] && |rows[0]| < |Table(rows, stride)|
  {
    hide Fit;
    FitParts(rows, stride);
    PaddedAt(rows[0], stride);
    TextIs(Table(rows, stride), rows[0]);
  }

  /** With too few rows of text ahead, the walk leaves the table. */
  lemma {:induction false} VisitTooMany(rows: seq<seq<Byte>>, stride: nat, n: nat)
    requires Fit(rows, stride) && rows != [] && stride >= 2 && Count(rows[1..]) < n - 1
    ensures Visit(Table(rows, stride), n) == None
    decreases n
  {
    hide Fit, Padded, Table, Advance, Text, FirstRow, Count;
    AdvanceToRow(rows, stride);
    TextOfRow(rows, stride);
    CountAfterFirst(rows[1..]);
    var j := 1 + FirstRow(rows[1..]);
    if j < |rows| {
      assert rows[1..][j..] == rows[j..][1..];
      VisitTooMany(rows[j..], stride, n - 1);
    }
  }

  ghost predicate NoGap(rows: seq<seq<Byte>>, n: nat) {
    n <= |rows| && forall i :: 1 <= i < n ==> rows[i] != []
  }

  lemma {:induction false} CountBlank(rows: seq<seq<Byte>>, n: nat)
    requires n <= |rows| && forall i :: n <= i < |rows| ==> rows[i] == []
    ensures Count(rows) <= n
  {
    if rows != [] {
      CountBlank(rows[1..], if n == 0 then 0 else n - 1);
    }
  }

  /** A walk for n strings over a table with n rows stays in the table exactly when none of those rows but
      the first is empty, and then it reads them in order. */
  lemma {:induction false} VisitExact(rows: seq<seq<Byte>>, stride: nat, n: nat)
    requires Fit(rows, stride) && stride >= 2 && n <= |rows| && forall i :: n <= i < |rows| ==> rows[i] == []
    ensures Visit(Table(rows, stride), n) == if NoGap(rows, n) then Some(rows[..n]) else None
    decreases n
  {
    hide Fit, Padded, Table, Advance, Text, FirstRow, Count;
    if n == 0 {
      return;
    }
    AdvanceToRow(rows, stride);
    TextOfRow(rows, stride);
    if n == 1 {
      assert [rows[0]] == rows[..1];
      return;
    }
    var rest := rows[1..];
    if rows[1] == [] {
      assert rest[1..] == rows[2..];
      CountBlank(rows[2..], n - 2);
      CountOfRest(rest);
      VisitTooMany(rows, stride, n);
    } else {
      FirstRowIs(rest);
      assert rows[1 + FirstRow(rest)..] == rest;
      FitFrom(rows, stride, 1);
      assert forall i :: n - 1 <= i < |rest| ==> rest[i] == rows[i + 1];
      VisitExact(rest, stride, n - 1);
      NoGapRest(rows, n);
      assert [rows[0]] + rest[..n - 1] == rows[..n];
      assert Visit(Table(rows, stride), n) == Prepend([rows[0]], Visit(Table(rest, stride), n - 1));
    }
  }

  lemma FirstRowIs(rows: seq<seq<Byte>>)
    requires rows != [] && rows[0] != []
    ensures FirstRow(rows) == 0
  {
  }

  lemma CountOfRest(rows: seq<seq<Byte>>)
    requires rows != [] && rows[0] == []
    ensures Count(rows) == Count(rows[1..])
  {
  }

  lemma NoGapRest(rows: seq<seq<Byte>>, n: nat)
    requires 2 <= n <= |rows| && rows[1] != []
    ensures NoGap(rows, n) <==> NoGap(rows[1..], n - 1)
  {
    var rest := rows[1..];
    assert forall i :: 1 <= i < n - 1 ==> rest[i] == rows[i + 1];
    assert forall i :: 2 <= i < n ==> rows[i] == rest[i - 1];
  }

  // ---------- packing and walking in place ----------

  /** The first n texts, and nothing in the rows after them. */
  function Packed(texts: seq<seq<Byte>>, n: nat): (rows: seq<seq<Byte>>)
    requires n <= |texts|
    ensures |rows| == |texts| && forall i :: 0 <= i < |texts| ==> rows[i] == if i < n then texts[i] else []
  {
    seq(|texts|, i requires 0 <= i < |texts| => if i < n then texts[i] else [])
  }

  lemma {:induction false} ZeroTable(rows: seq<seq<Byte>>, stride: nat)
    requires Fit(rows, stride) && forall i :: 0 <= i < |rows| ==> rows[i] == []
    ensures Table(rows, stride) == Zeros(|rows| * stride)
  {
    hide Fit, Padded;
    if rows != [] {
      FitParts(rows, stride);
      PaddedAt([], stride);
      ZeroTable(rows[1..], stride);
      TimesStep(|rows|, stride);
    }
  }

  /** Copies the start of text i to row i. */
  method PackRow(table: array<Byte>, stride: nat, i: nat, src: seq<Byte>, ghost rows: seq<seq<Byte>>)
    requires |src| >= NAME_LEN && stride >= NAME_LEN && i < |rows| && Fit(rows, stride) && rows[i] == []
    requires table[..] == Table(rows, stride) && |Text(src[..NAME_LEN])| < stride
    modifies table
    ensures Fit(rows[i := Text(src[..NAME_LEN])], stride)
    ensures table[..] == Table(rows[i := Text(src[..NAME_LEN])], stride)
  {
    hide Table, Text;
    SetRow(rows, stride, i, Text(src[..NAME_LEN]), NAME_LEN);
    StrNCpy(table, i * stride, src, NAME_LEN);
  }

  /** What is copied of each buffer: the text in its first sixty-four bytes. */
  function Starts(content: seq<seq<Byte>>): (texts: seq<seq<Byte>>)
    requires forall i :: 0 <= i < |content| ==> |content[i]| >= NAME_LEN
    ensures |texts| == |content| && forall i :: 0 <= i < |content| ==> texts[i] == Text(content[i][..NAME_LEN])
  {
    seq(|content|, i requires 0 <= i < |content| => Text(content[i][..NAME_LEN]))
  }

  lemma StartsFit(content: seq<seq<Byte>>, capacity: nat, n: nat)
    requires RowsTerminated(content, capacity) && capacity >= NAME_LEN && n <= MAX_HEADERS
    ensures forall i :: 0 <= i < |content| ==> |content[i]| >= NAME_LEN
    ensures Fit(Packed(Starts(content), n), capacity) && |Starts(content)| == MAX_HEADERS
    ensures forall i :: 0 <= i < MAX_HEADERS ==>
      Starts(content)[i] == Take(Text(content[i]), NAME_LEN) && |Starts(content)[i]| < capacity
  {
    hide Text;
    forall i | 0 <= i < MAX_HEADERS
      ensures Starts(content)[i] == Take(Text(content[i]), NAME_LEN) && |Starts(content)[i]| < capacity
    {
      assert Terminated(content[i], capacity);
      TextOfTake(content[i], NAME_LEN);
    }
  }

  /** Copies the first n headers to two cleared tables. */
  method Pack(names: seq<array<Byte>>, values: seq<array<Byte>>, n: nat, ghost m: Message)
    returns (nameTable: array<Byte>, valueTable: array<Byte>)
    requires WellFormed(m) && RowsAre(names, m.names, NAME_LEN) && RowsAre(values, m.values, VALUE_LEN)
      && n <= MAX_HEADERS
    ensures WellFormed(m) && NamesFit(m, n) && nameTable[..] == Table(NameRows(m, n), NAME_LEN)
    ensures ValuesFit(m, n) && valueTable[..] == Table(ValueRows(m, n), VALUE_LEN)
  {
    hide Table, Fit, Text;
    StartsFit(m.names, NAME_LEN, 0);
    StartsFit(m.values, VALUE_LEN, 0);
    ZeroTable(NameRows(m, 0), NAME_LEN);
    ZeroTable(ValueRows(m, 0), VALUE_LEN);
    nameTable := new Byte[MAX_HEADERS * NAME_LEN](_ => NUL);
    valueTable := new Byte[MAX_HEADERS * VALUE_LEN](_ => NUL);
    assert nameTable[..] == Zeros(MAX_HEADERS * NAME_LEN);
    assert valueTable[..] == Zeros(MAX_HEADERS * VALUE_LEN);
    var i := 0;
    while i < n
      invariant i <= n && fresh(nameTable) && fresh(valueTable) && nameTable != valueTable
      invariant NamesFit(m, i) && nameTable[..] == Table(NameRows(m, i), NAME_LEN)
      invariant ValuesFit(m, i) && valueTable[..] == Table(ValueRows(m, i), VALUE_LEN)
    {
      assert NameRows(m, i)[i := Starts(m.names)[i]] == NameRows(m, i + 1);
      assert ValueRows(m, i)[i := Starts(m.values)[i]] == ValueRows(m, i + 1);
      PackRow(nameTable, NAME_LEN, i, names[i][..], NameRows(m, i));
      PackRow(valueTable, VALUE_LEN, i, values[i][..], ValueRows(m, i));
      i := i + 1;
    }
  }

  ghost function NameRows(m: Message, n: nat): seq<seq<Byte>>
    requires WellFormed(m) && n <= MAX_HEADERS
  {
    StartsFit(m.names, NAME_LEN, n);
    Packed(Starts(m.names), n)
  }

  ghost function ValueRows(m: Message, n: nat): seq<seq<Byte>>
    requires WellFormed(m) && n <= MAX_HEADERS
  {
    StartsFit(m.values, VALUE_LEN, n);
    Packed(Starts(m.values), n)
  }

  ghost predicate NamesFit(m: Message, n: nat) {
    WellFormed(m) && n <= MAX_HEADERS && Fit(NameRows(m, n), NAME_LEN)
  }

  ghost predicate ValuesFit(m: Message, n: nat) {
    WellFormed(m) && n <= MAX_HEADERS && Fit(ValueRows(m, n), VALUE_LEN)
  }

  method SkipText(t: array<Byte>, p: nat) returns (z: nat)
    requires p <= t.Length
    ensures z == p + |Text(t[p..])| <= t.Length
  {
    z := p;
    while z < t.Length && t[z] != NUL
      invariant p <= z <= t.Length && NoNul(t[p..z])
    {
      z := z + 1;
    }
    TextIs(t[p..], t[p..z]);
  }

  lemma BlanksIs(s: seq<Byte>, n: nat)
    requires n <= |s| && (forall k :: 0 <= k < n ==> s[k] == NUL) && (n < |s| ==> s[n] != NUL)
    ensures Blanks(s) == n
  {
  }

  method SkipBlanks(t: array<Byte>, p: nat) returns (z: nat)
    requires p <= t.Length
    ensures z == p + Blanks(t[p..]) <= t.Length
  {
    z := p;
    while z < t.Length && t[z] == NUL
      invariant p <= z <= t.Length && forall k :: p <= k < z ==> t[k] == NUL
    {
      z := z + 1;
    }
    BlanksIs(t[p..], z - p);
  }

  /** The string at p, as long as it is terminated inside the table. */
  method ReadString(t: array<Byte>, p: nat) returns (s: Option<seq<Byte>>)
    requires p <= t.Length
    ensures s == if |Text(t[p..])| == t.Length - p then None else Some(Text(t[p..]))
  {
    var end := SkipText(t, p);
    assert Text(t[p..]) == t[p..end];
    s := if end == t.Length then None else Some(t[p..end]);
  }

  /** The two inner loops, for one of the pointers. */
  method Skip(t: array<Byte>, p: nat) returns (q: Option<nat>)
    requires p < t.Length
    ensures match Advance(t[p..])
      case None => q == None
      case Some(d) => q.Some? && p < q.value < t.Length && d == t[q.value..]
  {
    hide Text, Blanks;
    var z := SkipText(t, p + 1);
    assert t[p..][1..] == t[p + 1..] && t[p + 1..][z - p - 1..] == t[z..];
    if z == t.Length {
      return None;
    }
    assert t[z..][1..] == t[z + 1..];
    var k := SkipBlanks(t, z + 1);
    assert t[z + 1..][k - z - 1..] == t[k..];
    return if k == t.Length then None else Some(k);
  }

  type Call = (seq<Byte>, seq<Byte>)

  /** Pairs the strings of two walks, if both stay in their tables. */
  function Zip(a: Option<seq<seq<Byte>>>, b: Option<seq<seq<Byte>>>): Option<seq<Call>> {
    if a.Some? && b.Some? && |a.value| == |b.value| then
      Some(seq(|a.value|, i requires 0 <= i < |a.value| => (a.value[i], b.value[i])))
    else None
  }

  lemma VisitLength(s: seq<Byte>, n: nat)
    ensures Visit(s, n).Some? ==> |Visit(s, n).value| == n
    decreases n
  {
  }

  lemma ZipStep(s: seq<Byte>, u: seq<Byte>, n: nat, d: seq<Byte>, e: seq<Byte>)
    requires n >= 2 && |Text(s)| < |s| && |Text(u)| < |u| && Advance(s) == Some(d) && Advance(u) == Some(e)
    ensures Zip(Visit(s, n), Visit(u, n)) == Prepend([(Text(s), Text(u))], Zip(Visit(d, n - 1), Visit(e, n - 1)))
  {
    hide Text, Advance;
    VisitLength(d, n - 1);
    VisitLength(e, n - 1);
    var v, w := Visit(d, n - 1), Visit(e, n - 1);
    assert Visit(s, n) == Prepend([Text(s)], v) && Visit(u, n) == Prepend([Text(u)], w);
    if v.Some? && w.Some? {
      var a, b := [Text(s)] + v.value, [Text(u)] + w.value;
      assert Zip(Some(a), Some(b)).value == [(Text(s), Text(u))] + Zip(v, w).value;
    }
  }

  lemma ZipOne(s: seq<Byte>, u: seq<Byte>)
    requires |Text(s)| < |s| && |Text(u)| < |u|
    ensures Zip(Visit(s, 1), Visit(u, 1)) == Some([(Text(s), Text(u))])
  {
    hide Text, Advance;
    assert Zip(Some([Text(s)]), Some([Text(u)])).value == [(Text(s), Text(u))];
  }

  lemma ZipZero(s: seq<Byte>, u: seq<Byte>)
    ensures Zip(Visit(s, 0), Visit(u, 0)) == Some([])
  {
    assert Zip(Some([]), Some([])).value == [];
  }

  lemma PrependAll<T>(first: seq<T>, rest: seq<T>)
    ensures Prepend(first, Some(rest)) == Some(first + rest)
    ensures rest == [] ==> first + rest == first
  {
  }

  lemma PrependNothing<T>(rest: Option<seq<T>>)
    ensures Prepend([], rest) == rest
  {
    if rest.Some? {
      assert [] + rest.value == rest.value;
    }
  }

  lemma PrependTwice<T>(a: seq<T>, b: seq<T>, rest: Option<seq<T>>)
    ensures Prepend(a, Prepend(b, rest)) == Prepend(a + b, rest)
  {
    if rest.Some? {
      assert a + (b + rest.value) == a + b + rest.value;
    }
  }

  /** The walk: hands the engine n pairs of strings. None when a pointer leaves its table. */
  method Walk(names: array<Byte>, values: array<Byte>, n: nat) returns (calls: Option<seq<Call>>)
    ensures calls == Zip(Visit(names[..], n), Visit(values[..], n))
  {
    hide Text, Advance;
    ghost var all := Zip(Visit(names[..], n), Visit(values[..], n));
    var name: nat, value: nat, i: nat := 0, 0, n;
    var done := [];
    PrependNothing(all);
    assert names[0..] == names[..] && values[0..] == values[..];
    while i != 0
      invariant 0 <= i <= n && name <= names.Length && value <= values.Length
      invariant all == Prepend(done, Zip(Visit(names[name..], i), Visit(values[value..], i)))
    {
      var key := ReadString(names, name);
      var text := ReadString(values, value);
      if key.None? || text.None? {
        return None;
      }
      i := i - 1;
      if i == 0 {
        ZipOne(names[name..], values[value..]);
        done := done + [(key.value, text.value)];
        break;
      }
      var k := Skip(names, name);
      var v := Skip(values, value);
      if k.None? || v.None? {
        return None;
      }
      ZipStep(names[name..], values[value..], i + 1, names[k.value..], values[v.value..]);
      PrependTwice(done, [(key.value, text.value)], Zip(Visit(names[k.value..], i), Visit(values[v.value..], i)));
      done := done + [(key.value, text.value)];
      name, value := k.value, v.value;
    }
    ZipZero(names[name..], values[value..]);
    PrependAll(done, []);
    calls := Some(done);
  }

  // ---------- from the buffers to the engine ----------

  /** What the engine is handed of a message. */
  ghost function Delivered(m: Message): Option<seq<Call>>
    requires WellFormed(m) && m.numFields <= MAX_HEADERS
  {
    var n := Min(m.numFields, m.numValues);
    StartsFit(m.names, NAME_LEN, n);
    StartsFit(m.values, VALUE_LEN, n);
    Zip(Visit(Table(NameRows(m, n), NAME_LEN), n), Visit(Table(ValueRows(m, n), VALUE_LEN), n))
  }

  /** The handler: packs the headers of a request and hands them over. */
  method Deliver(r: Request) returns (calls: Option<seq<Call>>)
    requires r.Valid()
    ensures WellFormed(Run(r.run)) && Run(r.run).numFields <= MAX_HEADERS && calls == Delivered(Run(r.run))
    ensures calls.Some? ==> |calls.value| == if r.numFields <= r.numValues then r.numFields else r.numValues
  {
    hide Run, WellFormed, RowsAre, Visit, Table, Zip;
    r.Open();
    ghost var m := Run(r.run);
    var n := if r.numFields <= r.numValues then r.numFields else r.numValues;
    var names, values := Pack(r.names, r.values, n, m);
    calls := Walk(names, values, n);
    ZipLength(names[..], values[..], n);
  }

  lemma ZipLength(names: seq<Byte>, values: seq<Byte>, n: nat)
    ensures Zip(Visit(names, n), Visit(values, n)).Some? ==> |Zip(Visit(names, n), Visit(values, n)).value| == n
  {
    hide Visit;
    VisitLength(names, n);
  }

  /** The exact condition for the headers hs: every one of the first sixteen, other than the very first, has a
      name and a value. */
  predicate Walkable(hs: seq<Header>) {
    forall i :: 1 <= i < Min(|hs|, MAX_HEADERS) ==> Joined(hs[i].name) != [] && Joined(hs[i].value) != []
  }

  /** The pairs a handler expects: each name cut to 63 bytes, each value to 64. */
  function Pairs(hs: seq<Header>): seq<Call> {
    seq(Min(|hs|, MAX_HEADERS), i requires 0 <= i < Min(|hs|, MAX_HEADERS) =>
      (Take(Joined(hs[i].name), NAME_LEN - 1), Take(Joined(hs[i].value), NAME_LEN)))
  }

  lemma TakeTake<T>(s: seq<T>, a: nat, b: nat)
    ensures Take(Take(s, a), b) == Take(s, Min(a, b))
  {
  }

  /** The rows of the two tables, in terms of what was sent. */
  lemma RowsOf(m: Message, hs: seq<Header>)
    requires WellFormed(m) && Holds(m, hs)
    ensures var n := m.numFields;
      && n <= MAX_HEADERS && NamesFit(m, n) && ValuesFit(m, n) && |NameRows(m, n)| == |ValueRows(m, n)| == MAX_HEADERS
      && (forall i :: n <= i < MAX_HEADERS ==> NameRows(m, n)[i] == [] && ValueRows(m, n)[i] == [])
      && forall i :: 0 <= i < n ==>
           && NameRows(m, n)[i] == Take(Joined(hs[i].name), NAME_LEN - 1)
           && ValueRows(m, n)[i] == Take(Joined(hs[i].value), NAME_LEN)
  {
    hide Text, Joined, Terminated, Fit, Take;
    var n := m.numFields;
    StartsFit(m.names, NAME_LEN, n);
    StartsFit(m.values, VALUE_LEN, n);
    forall i | 0 <= i < n
      ensures NameRows(m, n)[i] == Take(Joined(hs[i].name), NAME_LEN - 1)
      ensures ValueRows(m, n)[i] == Take(Joined(hs[i].value), NAME_LEN)
    {
      TakeTake(Joined(hs[i].name), NAME_LEN - 1, NAME_LEN);
      TakeTake(Joined(hs[i].value), VALUE_LEN - 1, NAME_LEN);
    }
  }

  /** End to end: however the parser cuts the headers hs, the engine gets the first sixteen of them in order,
      or the walk leaves its tables, and which of the two happens depends on empty names and values alone. */
  lemma {:induction false} EndToEnd(run: seq<Event>, hs: seq<Header>)
    requires HeaderCalls(run) == Calls(hs)
    ensures WellFormed(Run(run)) && Run(run).numFields <= MAX_HEADERS
    ensures Delivered(Run(run)) == if Walkable(hs) then Some(Pairs(hs)) else None
  {
    hide Run, HeaderCalls, Calls, WellFormed, Holds, Delivered, Walkable, Pairs, Joined;
    HeadersHeld(run, hs);
    WellFormedRun(run);
    DeliveredIs(Run(run), hs);
  }

  lemma {:induction false} DeliveredIs(m: Message, hs: seq<Header>)
    requires WellFormed(m) && Holds(m, hs)
    ensures m.numFields <= MAX_HEADERS && Delivered(m) == if Walkable(hs) then Some(Pairs(hs)) else None
  {
    hide WellFormed, Holds, Table, Visit, Text, NameRows, ValueRows, Fit, Joined, Walkable, Pairs, NoGap, Zip;
    HeldCounts(m, hs);
    var n := m.numFields;
    RowsOf(m, hs);
    var names, values := NameRows(m, n), ValueRows(m, n);
    VisitExact(names, NAME_LEN, n);
    VisitExact(values, VALUE_LEN, n);
    PairsOf(names, values, hs);
  }

  lemma HeldCounts(m: Message, hs: seq<Header>)
    requires Holds(m, hs)
    ensures m.numFields == m.numValues == Min(|hs|, MAX_HEADERS) <= MAX_HEADERS
  {
    hide Text, Joined;
  }

  lemma PairsOf(names: seq<seq<Byte>>, values: seq<seq<Byte>>, hs: seq<Header>)
    requires |names| == |values| == MAX_HEADERS
    requires forall i :: 0 <= i < Min(|hs|, MAX_HEADERS) ==>
      names[i] == Take(Joined(hs[i].name), NAME_LEN - 1) && values[i] == Take(Joined(hs[i].value), NAME_LEN)
    ensures var n := Min(|hs|, MAX_HEADERS);
      && (NoGap(names, n) && NoGap(values, n) <==> Walkable(hs))
      && Zip(Some(names[..n]), Some(values[..n])) == Some(Pairs(hs))
      && Zip(None, Some(values[..n])) == Zip(Some(names[..n]), None) == Zip(None, None) == None
  {
    hide Joined;
    var n := Min(|hs|, MAX_HEADERS);
    forall i | 1 <= i < n ensures names[i] != [] <==> Joined(hs[i].name) != [] {}
    forall i | 1 <= i < n ensures values[i] != [] <==> Joined(hs[i].value) != [] {}
    assert Zip(Some(names[..n]), Some(values[..n])).value == Pairs(hs);
  }

  lemma {:induction false} WellFormedRun(run: seq<Event>)
    ensures WellFormed(Run(run))
  {
  }
}

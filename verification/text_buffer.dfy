/** Bounded NUL-terminated text buffers and the string functions that fill them. */
module TextBuffer {
  type Byte = b: int | 0 <= b < 256

  const NUL: Byte := 0

  function Min(a: nat, b: nat): nat {
    if a <= b then a else b
  }

  function Take<T>(s: seq<T>, m: nat): seq<T> {
    if |s| <= m then s else s[..m]
  }

  predicate NoNul(s: seq<Byte>) {
    forall k :: 0 <= k < |s| ==> s[k] != NUL
  }

  /** The bytes before the first NUL. */
  function Text(b: seq<Byte>): (t: seq<Byte>)
    ensures t <= b && NoNul(t) && (|t| < |b| ==> b[|t|] == NUL)
  {
    if b == [] || b[0] == NUL then [] else [b[0]] + Text(b[1..])
  }

  function Zeros(n: nat): (z: seq<Byte>)
    ensures |z| == n && forall k :: 0 <= k < n ==> z[k] == NUL
  {
    seq(n, _ => NUL)
  }

  /** A buffer of the given capacity that holds the text t and nothing after it. */
  function Padded(t: seq<Byte>, capacity: nat): (b: seq<Byte>)
    requires |t| <= capacity
    ensures |b| == capacity
  {
    t + Zeros(capacity - |t|)
  }

  /** The n bytes that `strncpy` writes: a text and its padding. */
  function Copied(src: seq<Byte>, n: nat): (r: seq<Byte>)
    requires n <= |src|
    ensures |r| == n
  {
    Padded(Text(src[..n]), n)
  }

  lemma TextIs(b: seq<Byte>, t: seq<Byte>)
    requires t <= b && NoNul(t) && (|t| < |b| ==> b[|t|] == NUL)
    ensures Text(b) == t
  {
    assert |Text(b)| == |t|;
  }

  lemma TextOfPadded(t: seq<Byte>, capacity: nat)
    requires |t| <= capacity && NoNul(t)
    ensures Text(Padded(t, capacity)) == t
  {
    TextIs(Padded(t, capacity), t);
  }

  lemma TextOfTake(b: seq<Byte>, m: nat)
    ensures Text(Take(b, m)) == Take(Text(b), m)
  {
    var t := Take(Text(b), m);
    TextIs(Take(b, m), t);
  }

  /** The buffer after one chunk. */
  function Appended(b: seq<Byte>, chunk: seq<Byte>): (r: seq<Byte>)
    requires |Text(b)| < |b|
    ensures |r| == |b|
  {
    var len := |Text(b)|;
    var n := Min(|chunk|, |b| - len - 1);
    b[..len] + Copied(chunk, n) + b[len + n..]
  }

  lemma PaddedAt(t: seq<Byte>, capacity: nat)
    requires |t| <= capacity
    ensures forall k :: 0 <= k < capacity ==> Padded(t, capacity)[k] == if k < |t| then t[k] else NUL
  {
  }

  /** Overwriting the padding right after a text with another padded text. */
  lemma Splice(t: seq<Byte>, u: seq<Byte>, n: nat, capacity: nat)
    requires |u| <= n <= capacity - |t|
    ensures Padded(t, capacity)[..|t|] + Padded(u, n) + Padded(t, capacity)[|t| + n..] == Padded(t + u, capacity)
  {
    PaddedAt(t, capacity);
    PaddedAt(u, n);
    PaddedAt(t + u, capacity);
    hide *;
    var b, c, d, tu := Padded(t, capacity), Padded(u, n), Padded(t + u, capacity), t + u;
    var r := b[..|t|] + c + b[|t| + n..];
    assert |r| == capacity;
    forall k | 0 <= k < capacity ensures r[k] == d[k] {
      if k < |t| {
        assert r[k] == b[k] && tu[k] == t[k];
      } else if k < |t| + n {
        assert r[k] == c[k - |t|];
      } else {
        assert r[k] == b[k];
      }
    }
  }

  /** A chunk adds its text, as far as it fits, and leaves room for the terminator. */
  lemma AppendedIsPrefix(t: seq<Byte>, capacity: nat, chunk: seq<Byte>)
    requires |t| < capacity && NoNul(t)
    ensures |Text(Padded(t, capacity))| < capacity
    ensures Appended(Padded(t, capacity), chunk) == Padded(Take(t + Text(chunk), capacity - 1), capacity)
  {
    hide Text, Padded, NoNul, Take;
    TextOfPadded(t, capacity);
    var n := Min(|chunk|, capacity - |t| - 1);
    TextOfTake(chunk, n);
    TakeIs(chunk, n);
    TakeIs(Text(chunk), n);
    TakeIs(Text(chunk), capacity - |t| - 1);
    var u := Text(chunk[..n]);
    Splice(t, u, n, capacity);
    assert Copied(chunk, n) == Padded(u, n);
    TakeSum(t, Text(chunk), capacity - 1);
  }

  lemma TakeIs<T>(s: seq<T>, m: nat)
    ensures m <= |s| ==> Take(s, m) == s[..m]
    ensures m >= |s| ==> Take(s, m) == s
  {
  }

  lemma TakeLonger<T>(t: seq<T>, u: seq<T>, m: nat)
    requires m <= |t|
    ensures Take(t + u, m) == Take(t, m)
  {
  }

  lemma TakeSum(t: seq<Byte>, u: seq<Byte>, m: nat)
    requires |t| <= m
    ensures Take(t + u, m) == t + Take(u, m - |t|)
  {
  }

  /** The chunks one after the other, each up to its first NUL. */
  function Joined(chunks: seq<seq<Byte>>): (s: seq<Byte>)
    ensures NoNul(s)
  {
    if chunks == [] then [] else Joined(chunks[..|chunks| - 1]) + Text(chunks[|chunks| - 1])
  }

  function Concat(chunks: seq<seq<Byte>>): seq<Byte> {
    if chunks == [] then [] else Concat(chunks[..|chunks| - 1]) + chunks[|chunks| - 1]
  }

  lemma TakeText(s: seq<Byte>, m: nat)
    requires NoNul(s)
    ensures NoNul(Take(s, m))
  {
  }

  /** The same for everything received so far. */
  lemma AppendedJoins(s: seq<Byte>, capacity: nat, chunk: seq<Byte>)
    requires capacity > 0 && NoNul(s)
    ensures Text(Padded(Take(s, capacity - 1), capacity)) == Take(s, capacity - 1)
    ensures Appended(Padded(Take(s, capacity - 1), capacity), chunk)
      == Padded(Take(s + Text(chunk), capacity - 1), capacity)
  {
    hide Text, Appended, Padded;
    TextOfPadded(Take(s, capacity - 1), capacity);
    AppendedIsPrefix(Take(s, capacity - 1), capacity, chunk);
    assert Take(Take(s, capacity - 1) + Text(chunk), capacity - 1) == Take(s + Text(chunk), capacity - 1);
  }

  /** What chunks leave in a buffer that was cleared, which always stays terminated. */
  function Filled(capacity: nat, chunks: seq<seq<Byte>>): (b: seq<Byte>)
    requires capacity > 0
    ensures b == Padded(Take(Joined(chunks), capacity - 1), capacity)
  {
    if chunks == [] then
      Zeros(capacity)
    else
      var rest, last := chunks[..|chunks| - 1], chunks[|chunks| - 1];
      AppendedJoins(Joined(rest), capacity, last);
      Appended(Filled(capacity, rest), last)
  }

  /** If the first m bytes have no NUL, nothing is cut from them. */
  lemma JoinedWithoutNul(chunks: seq<seq<Byte>>, m: nat)
    requires NoNul(Take(Concat(chunks), m))
    ensures Take(Joined(chunks), m) == Take(Concat(chunks), m)
    ensures |Concat(chunks)| <= m ==> Joined(chunks) == Concat(chunks)
  {
    hide Take, Text;
    if chunks == [] {
      return;
    }
    var rest, last := chunks[..|chunks| - 1], chunks[|chunks| - 1];
    var c, j := Concat(rest), Joined(rest);
    if |c| >= m {
      TakeLonger(c, last, m);
      JoinedWithoutNul(rest, m);
      TakeIs(c, m);
      TakeIs(j, m);
      TakeLonger(j, Text(last), m);
      TakeIs(last, 0);
      TextOfTake(last, 0);
    } else {
      TakeSum(c, last, m);
      TakeIs(c, m);
      NoNulSum(c, Take(last, m - |c|));
      JoinedWithoutNul(rest, m);
      TextIs(Take(last, m - |c|), Take(last, m - |c|));
      TextOfTake(last, m - |c|);
      TakeSum(c, Text(last), m);
      TakeIs(last, m - |c|);
      TakeIs(Text(last), m - |c|);
    }
  }

  lemma NoNulSum(a: seq<Byte>, b: seq<Byte>)
    ensures NoNul(a + b) <==> NoNul(a) && NoNul(b)
  {
    if NoNul(a + b) {
      forall k | 0 <= k < |b| ensures b[k] != NUL {
        assert b[k] == (a + b)[|a| + k];
      }
      forall k | 0 <= k < |a| ensures a[k] != NUL {
        assert a[k] == (a + b)[k];
      }
    }
  }

  /** The buffer holds a prefix of the bytes received exactly when no NUL is among the bytes that fit. */
  lemma HoldsPrefix(capacity: nat, chunks: seq<seq<Byte>>)
    requires capacity > 0
    ensures Text(Filled(capacity, chunks)) == Take(Concat(chunks), capacity - 1)
      <==> NoNul(Take(Concat(chunks), capacity - 1))
  {
    FilledText(capacity, chunks);
    if NoNul(Take(Concat(chunks), capacity - 1)) {
      JoinedWithoutNul(chunks, capacity - 1);
    }
  }

  /** Behind a NUL that is among the bytes that fit, there are only NULs. */
  predicate NothingBehindNul(s: seq<Byte>, m: nat) {
    forall p, j :: 0 <= p < m && p < j < |s| && s[p] == NUL ==> s[j] == NUL
  }

  /** Chunks of a text that only NULs follow have the text for their texts. */
  lemma {:induction false} JoinedOfPadded(chunks: seq<seq<Byte>>, t: seq<Byte>, n: nat)
    requires Concat(chunks) == t + Zeros(n) && NoNul(t)
    ensures Joined(chunks) == t
  {
    if chunks == [] {
      assert |t + Zeros(n)| == 0;
    } else {
      JoinedStep(chunks, t, n);
      var rest, last := chunks[..|chunks| - 1], chunks[|chunks| - 1];
      var k := |Concat(rest)|;
      if k <= |t| {
        JoinedOfPadded(rest, t[..k], 0);
      } else {
        JoinedOfPadded(rest, t, k - |t|);
      }
    }
  }

  lemma JoinedStep(chunks: seq<seq<Byte>>, t: seq<Byte>, n: nat)
    requires chunks != [] && Concat(chunks) == t + Zeros(n) && NoNul(t)
    ensures var rest, last := chunks[..|chunks| - 1], chunks[|chunks| - 1]; var k := |Concat(rest)|;
      if k <= |t| then
        Concat(rest) == t[..k] + Zeros(0) && NoNul(t[..k]) && Text(last) == t[k..] && t[..k] + t[k..] == t
      else
        k <= |t| + n && Concat(rest) == t + Zeros(k - |t|) && Text(last) == []
  {
    hide Joined, Text;
    var all, rest, last := Concat(chunks), chunks[..|chunks| - 1], chunks[|chunks| - 1];
    var k := |Concat(rest)|;
    assert Concat(rest) == all[..k] && last == all[k..];
    if k <= |t| {
      assert all[..k] == t[..k] + Zeros(0);
      assert last == t[k..] + Zeros(n);
      TextIs(last, t[k..]);
    } else {
      assert all[..k] == t + Zeros(k - |t|);
      assert last == Zeros(|t| + n - k);
      TextIs(last, []);
    }
  }

  /** Then every way to cut the bytes leaves the same text. */
  lemma {:induction false} CutsAgree(capacity: nat, s: seq<Byte>, a: seq<seq<Byte>>)
    requires capacity > 0 && Concat(a) == s && NothingBehindNul(s, capacity - 1)
    ensures Take(Joined(a), capacity - 1) == Take(Text(s), capacity - 1)
  {
    var m, t := capacity - 1, Text(s);
    if |t| < |s| && |t| < m {
      assert s == t + Zeros(|s| - |t|);
      JoinedOfPadded(a, t, |s| - |t|);
    } else {
      assert NoNul(Take(s, m));
      JoinedWithoutNul(a, m);
      TextOfTake(s, m);
      TextIs(Take(s, m), Take(s, m));
    }
  }

  lemma OneChunk(s: seq<Byte>)
    ensures Concat([s]) == s && Joined([s]) == Text(s)
  {
    assert [s][..0] == [];
    assert Concat([]) == [] && Joined([]) == [];
  }

  lemma TwoChunks(s: seq<Byte>, j: nat)
    requires j <= |s|
    ensures Concat([s[..j], s[j..]]) == s && Joined([s[..j], s[j..]]) == Text(s[..j]) + Text(s[j..])
  {
    OneChunk(s[..j]);
    assert [s[..j], s[j..]][..1] == [s[..j]];
    assert s[..j] + s[j..] == s;
  }

  /** Otherwise cutting right before what is behind the NUL keeps a byte that the uncut bytes lose. */
  lemma CutsDiffer(capacity: nat, s: seq<Byte>, p: nat, j: nat)
    requires p < capacity - 1 && p < j < |s| && s[p] == NUL && s[j] != NUL
    ensures Concat([s]) == s && Concat([s[..j], s[j..]]) == s
      && Filled(capacity, [s]) != Filled(capacity, [s[..j], s[j..]])
  {
    hide Filled, Padded, Concat, Joined;
    OneChunk(s);
    TwoChunks(s, j);
    var t, u := Text(s), Text(s[j..]);
    FirstNul(s, p);
    TextIs(s[..j], t);
    FirstByte(s[j..]);
    FilledText(capacity, [s]);
    FilledText(capacity, [s[..j], s[j..]]);
    assert |Take(t, capacity - 1)| == |t| < |Take(t + u, capacity - 1)|;
  }

  lemma FirstNul(s: seq<Byte>, p: nat)
    requires p < |s| && s[p] == NUL
    ensures |Text(s)| <= p && s[|Text(s)|] == NUL
  {
    assert forall k :: 0 <= k < |Text(s)| ==> s[k] != NUL;
  }

  lemma FirstByte(s: seq<Byte>)
    requires s != [] && s[0] != NUL
    ensures |Text(s)| >= 1
  {
  }

  lemma FilledText(capacity: nat, chunks: seq<seq<Byte>>)
    requires capacity > 0
    ensures Text(Filled(capacity, chunks)) == Take(Joined(chunks), capacity - 1)
  {
    TakeText(Joined(chunks), capacity - 1);
    TextOfPadded(Take(Joined(chunks), capacity - 1), capacity);
  }

  /** How bytes are cut into chunks makes no difference to the buffer exactly when nothing but NULs is behind a
      NUL that is among the bytes that fit. */
  lemma {:induction false} FragmentationIndependent(capacity: nat, s: seq<Byte>)
    requires capacity > 0
    ensures (forall a, b :: Concat(a) == s && Concat(b) == s ==> Filled(capacity, a) == Filled(capacity, b))
      <==> NothingBehindNul(s, capacity - 1)
  {
    hide Filled, Padded, Concat, Joined, Text, Take;
    if NothingBehindNul(s, capacity - 1) {
      forall a, b | Concat(a) == s && Concat(b) == s ensures Filled(capacity, a) == Filled(capacity, b) {
        CutsAgree(capacity, s, a);
        CutsAgree(capacity, s, b);
      }
    } else {
      var p: nat, j: nat :| p < capacity - 1 && p < j < |s| && s[p] == NUL && s[j] != NUL;
      CutsDiffer(capacity, s, p, j);
    }
  }

  /** In every buffer of three bytes or more: cut after the NUL, the byte behind it is kept. */
  lemma FragmentationDependsOnNul(capacity: nat)
    requires capacity >= 3
    ensures Concat([[65, NUL], [66]]) == Concat([[65, NUL, 66]])
    ensures Filled(capacity, [[65, NUL], [66]]) != Filled(capacity, [[65, NUL, 66]])
  {
    hide Filled, Concat;
    var s: seq<Byte> := [65, NUL, 66];
    assert s[..2] == [65, NUL] && s[2..] == [66];
    CutsDiffer(capacity, s, 1, 2);
  }

  // ---------- in place ----------

  method StrLen(a: array<Byte>) returns (len: nat)
    requires |Text(a[..])| < a.Length
    ensures len == |Text(a[..])|
  {
    len := 0;
    while a[len] != NUL
      invariant len <= |Text(a[..])|
      decreases a.Length - len
    {
      len := len + 1;
    }
  }

  lemma CopiedAt(src: seq<Byte>, n: nat, i: nat)
    requires i <= n <= |src| && NoNul(src[..i]) && (i < n ==> src[i] == NUL)
    ensures forall k :: 0 <= k < n ==> Copied(src, n)[k] == if k < i then src[k] else NUL
  {
    TextIs(src[..n], src[..i]);
  }

  /** `strncpy(dst + offset, src, n)`. */
  method StrNCpy(dst: array<Byte>, offset: nat, src: seq<Byte>, n: nat)
    requires n <= |src| && offset + n <= dst.Length
    modifies dst
    ensures dst[..] == old(dst[..offset]) + Copied(src, n) + old(dst[offset + n..])
  {
    hide Copied, Text, Padded;
    ghost var before := dst[..];
    var i := 0;
    while i < n && src[i] != NUL
      invariant i <= n && NoNul(src[..i])
      invariant forall k :: 0 <= k < dst.Length ==>
        dst[k] == if offset <= k < offset + i then src[k - offset] else before[k]
    {
      dst[offset + i] := src[i];
      i := i + 1;
    }
    ghost var r := Copied(src, n);
    CopiedAt(src, n, i);
    while i < n
      invariant r == Copied(src, n) && (forall k :: i <= k < n ==> r[k] == NUL) && i <= n
      invariant forall k :: 0 <= k < dst.Length ==>
        dst[k] == if offset <= k < offset + i then r[k - offset] else before[k]
    {
      dst[offset + i] := NUL;
      i := i + 1;
    }
  }

  /** One accumulating callback of the parser. */
  method Append(a: array<Byte>, chunk: seq<Byte>)
    requires |Text(a[..])| < a.Length
    modifies a
    ensures a[..] == Appended(old(a[..]), chunk)
  {
    var len := StrLen(a);
    var available := a.Length - len - 1;
    var length := |chunk|;
    if length > available {
      length := available;
    }
    if length == 0 {
      return;
    }
    StrNCpy(a, len, chunk, length);
  }
}

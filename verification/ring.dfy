/** The intrusive circular doubly linked list that carries both queues of the server. */
module Ring {

  /** A list node, embedded in a larger object or in the owner of the list. */
  class Link {
    var next: Link
    var prev: Link

    constructor ()
      ensures Alone(this)
    {
      next, prev := this, this;
    }
  }

  ghost predicate Distinct<T>(s: seq<T>) {
    forall i, j :: 0 <= i < j < |s| ==> s[i] != s[j]
  }

  /** The nodes of s, in order, hang between h and h. */
  ghost predicate IsRing(h: Link, s: seq<Link>)
    reads h, s
  {
    && h !in s
    && Distinct(s)
    && (if s == [] then h.next == h && h.prev == h
        else h.next == s[0] && s[0].prev == h && s[|s| - 1].next == h && h.prev == s[|s| - 1])
    && (forall i {:trigger s[i].next} :: 0 <= i < |s| - 1 ==> s[i].next == s[i + 1])
    && (forall i {:trigger s[i].prev} :: 0 < i < |s| ==> s[i].prev == s[i - 1])
  }

  /** A node that is a ring of its own. */
  ghost predicate Alone(l: Link)
    reads l
  {
    l.next == l && l.prev == l
  }

  /** The first position of x, or |s| when it is not there. */
  ghost function IndexOf<T>(s: seq<T>, x: T): (k: nat)
    ensures k <= |s| && (k < |s| ==> s[k] == x)
    ensures forall j :: 0 <= j < k ==> s[j] != x
  {
    if s == [] || s[0] == x then 0 else 1 + IndexOf(s[1..], x)
  }

  /** s without its first occurrence of x. */
  ghost function Without<T>(s: seq<T>, x: T): (r: seq<T>)
    ensures x !in s ==> r == s
    ensures forall y :: y in r ==> y in s
    ensures forall y :: y in s && y != x ==> y in r
    ensures |r| <= |s|
  {
    var k := IndexOf(s, x);
    if k == |s| then s else s[..k] + s[k + 1..]
  }

  lemma WithoutAt<T>(s: seq<T>, k: nat)
    requires k < |s| && Distinct(s)
    ensures Without(s, s[k]) == s[..k] + s[k + 1..]
    ensures s[k] !in Without(s, s[k]) && Distinct(Without(s, s[k]))
  {
  }

  /** The pointers alone determine the contents. */
  lemma {:induction false} RingUnique(h: Link, s: seq<Link>, t: seq<Link>)
    requires IsRing(h, s) && IsRing(h, t)
    ensures s == t
  {
    PrefixAgrees(h, s, t, |s|);
    PrefixAgrees(h, t, s, |t|);
  }

  lemma {:induction false} PrefixAgrees(h: Link, s: seq<Link>, t: seq<Link>, n: nat)
    requires IsRing(h, s) && IsRing(h, t) && n <= |s|
    ensures n <= |t| && s[..n] == t[..n]
  {
    if n > 0 {
      PrefixAgrees(h, s, t, n - 1);
      if n > 1 {
        assert s[n - 2].next == s[n - 1] && s[n - 2] == s[..n - 1][n - 2] == t[n - 2];
        assert n - 1 < |t| ==> t[n - 2].next == t[n - 1];
      }
    }
  }

  method Init(q: Link)
    modifies q`next, q`prev
    ensures Alone(q)
  {
    q.next := q;
    q.prev := q;
  }

  method Empty(q: Link) returns (b: bool)
    ensures b <==> q == q.next
    ensures forall s | IsRing(q, s) :: b <==> s == []
  {
    b := q == q.next;
  }

  method Head(h: Link, ghost s: seq<Link>) returns (q: Link)
    requires IsRing(h, s)
    ensures q == if s == [] then h else s[0]
  {
    q := h.next;
  }

  method InsertHead(h: Link, q: Link, ghost s: seq<Link>)
    requires IsRing(h, s) && q != h && q !in s
    modifies h`next, q`next, q`prev, h.next`prev
    ensures IsRing(h, [q] + s)
  {
    q.next := h.next;
    q.prev := h;
    q.next.prev := q;
    h.next := q;
  }

  method InsertTail(h: Link, q: Link, ghost s: seq<Link>)
    requires IsRing(h, s) && q != h && q !in s
    modifies h`prev, q`next, q`prev, h.prev`next
    ensures IsRing(h, s + [q])
  {
    q.next := h;
    q.prev := h.prev;
    q.prev.next := q;
    h.prev := q;
  }

  /** Unlinks the node q of the ring of h; on a node that is a ring of its own it does nothing.
      The node itself keeps its stale pointers. */
  method Remove(q: Link, ghost h: Link, ghost s: seq<Link>, ghost k: nat)
    requires IsRing(h, s) && (if k < |s| then s[k] == q else k == |s| == 0 && q == h)
    modifies q.prev`next, q.next`prev
    ensures IsRing(h, if k < |s| then s[..k] + s[k + 1..] else s)
    ensures q.next == old(q.next) && q.prev == old(q.prev)
  {
    ghost var p, n := q.prev, q.next;
    assert k < |s| ==> p == (if k > 0 then s[k - 1] else h) && n == if k + 1 < |s| then s[k + 1] else h;
    q.prev.next := q.next;
    q.next.prev := q.prev;
    if k < |s| {
      ghost var r := s[..k] + s[k + 1..];
      forall i {:trigger r[i].next} | 0 <= i < |r| - 1 ensures r[i].next == r[i + 1] {
        if i + 1 != k {
          ghost var j := if i < k then i else i + 1;
          assert r[i] == s[j] && r[i + 1] == s[j + 1] && s[j] != p && s[j] != q;
        }
      }
      forall i {:trigger r[i].prev} | 0 < i < |r| ensures r[i].prev == r[i - 1] {
        if i != k {
          ghost var j := if i < k then i else i + 1;
          assert r[i] == s[j] && r[i - 1] == s[j - 1] && s[j] != n && s[j] != q;
        }
      }
    }
  }

  /** Appends the nodes of the ring n to the ring h. The head n is left with stale pointers. */
  method Add(h: Link, n: Link, ghost s: seq<Link>, ghost t: seq<Link>)
    requires IsRing(h, s) && IsRing(n, t) && h != n && h !in t && n !in s
    requires Distinct(s + t)
    modifies h`next, h`prev, h.prev`next, n.next`prev, n.prev`next
    ensures IsRing(h, s + t)
  {
    h.prev.next := n.next;
    n.next.prev := h.prev;
    h.prev := n.prev;
    h.prev.next := h;
    ghost var r := s + t;
    assert forall i :: 0 <= i < |r| ==> r[i] == if i < |s| then s[i] else t[i - |s|];
    assert forall i, j :: 0 <= i < |s| && 0 <= j < |t| ==> s[i] != t[j] by {
      forall i, j | 0 <= i < |s| && 0 <= j < |t| ensures s[i] != t[j] {
        assert r[i] != r[|s| + j];
      }
    }
  }

  /** Cuts the ring h before its node q and hangs the second part under n. */
  method Split(h: Link, q: Link, n: Link, ghost s: seq<Link>, ghost k: nat)
    requires IsRing(h, s) && k < |s| && s[k] == q && n != h && n !in s
    modifies h`prev, q`prev, n`next, n`prev, h.prev`next, q.prev`next
    ensures IsRing(h, s[..k]) && IsRing(n, s[k..])
  {
    n.prev := h.prev;
    n.prev.next := n;
    n.next := q;
    h.prev := q.prev;
    h.prev.next := h;
    q.prev := n;
  }

  method Move(h: Link, n: Link, ghost s: seq<Link>)
    requires IsRing(h, s) && n != h && n !in s
    modifies h`prev, h`next, n`next, n`prev, h.next`prev, h.prev`next
    ensures IsRing(h, []) && IsRing(n, s)
  {
    var empty := Empty(h);
    if empty {
      Init(n);
    } else {
      Split(h, h.next, n, s, 0);
    }
  }

  // ---------- a list and the nodes that may be on it ----------

  /** s is on the ring of h, and every other node of the pool is a ring of its own. This is how the
      code tells, from a node alone, whether the node is on the list. */
  ghost predicate ListOf(h: Link, s: seq<Link>, pool: set<Link>)
    reads h, pool
  {
    && h !in pool && (forall l :: l in s ==> l in pool)
    && IsRing(h, s)
    && forall l :: l in pool && l !in s ==> Alone(l)
  }

  lemma PoolChanges(h: Link, s: seq<Link>, pool: set<Link>, q: Link)
    requires ListOf(h, s, pool)
    ensures q != h && Alone(q) ==> ListOf(h, s, pool + {q})
    ensures q !in s ==> ListOf(h, s, pool - {q})
  {
    hide IsRing;
  }

  lemma NeighboursInPool(h: Link, s: seq<Link>, pool: set<Link>, q: Link)
    requires ListOf(h, s, pool) && q in pool
    ensures q.next == q <==> q !in s
    ensures q.prev in pool + {h} && q.next in pool + {h} && h.prev in pool + {h} && h.next in pool + {h}
    ensures q in s ==> q.prev != q
  {
    if q in s {
      var k :| 0 <= k < |s| && s[k] == q;
      assert k + 1 < |s| ==> s[k].next == s[k + 1];
      assert k > 0 ==> s[k].prev == s[k - 1];
    }
  }

  /** Appends q unless it is on the list already. */
  method Enlist(h: Link, q: Link, ghost s: seq<Link>, ghost pool: set<Link>)
    requires ListOf(h, s, pool) && q in pool
    modifies h`next, h`prev, pool`next, pool`prev
    ensures ListOf(h, if q in s then s else s + [q], pool)
  {
    NeighboursInPool(h, s, pool, q);
    var alone := Empty(q);
    if alone {
      InsertTail(h, q, s);
    }
  }

  lemma DistinctWithout<T>(s: seq<T>, x: T)
    requires Distinct(s)
    ensures x !in Without(s, x) && Distinct(Without(s, x))
  {
    if x in s {
      var k :| 0 <= k < |s| && s[k] == x;
      WithoutAt(s, k);
    }
  }

  lemma WithoutSplits<T>(s: seq<T>, x: T)
    ensures x in s <==> IndexOf(s, x) < |s|
    ensures var k := IndexOf(s, x); Without(s, x) == if k < |s| then s[..k] + s[k + 1..] else s
  {
  }

  /** Takes q off the list, if it is on it, and out of the pool: its memory is about to be given up. */
  method Unlist(h: Link, q: Link, ghost s: seq<Link>, ghost pool: set<Link>)
    requires ListOf(h, s, pool) && q in pool
    modifies h`next, h`prev, pool`next, pool`prev
    ensures ListOf(h, Without(s, q), pool - {q})
  {
    hide Without, IndexOf, Distinct;
    NeighboursInPool(h, s, pool, q);
    DistinctWithout(s, q);
    WithoutSplits(s, q);
    ghost var k := IndexOf(s, q);
    Remove(q, if q in s then h else q, if q in s then s else [], if q in s then k else 0);
    assert IsRing(h, Without(s, q));
  }

  /** Takes q off the list, if it is on it, and makes it a ring of its own. */
  method Delist(h: Link, q: Link, ghost s: seq<Link>, ghost pool: set<Link>)
    requires ListOf(h, s, pool) && q in pool
    modifies h`next, h`prev, pool`next, pool`prev
    ensures ListOf(h, Without(s, q), pool) && Alone(q)
  {
    hide Without, IndexOf, Distinct;
    DistinctWithout(s, q);
    Unlist(h, q, s, pool);
    ghost var rest := Without(s, q);
    Init(q);
    assert ListOf(h, rest, pool - {q});
    PoolChanges(h, rest, pool - {q}, q);
    assert pool - {q} + {q} == pool;
  }

  /** Appends a node that is not on the list. */
  method Append(h: Link, q: Link, ghost s: seq<Link>, ghost pool: set<Link>)
    requires ListOf(h, s, pool) && q in pool && q !in s
    modifies h`next, h`prev, pool`next, pool`prev
    ensures ListOf(h, s + [q], pool)
  {
    NeighboursInPool(h, s, pool, q);
    InsertTail(h, q, s);
  }
}

/** The used part of the array handed to poll, as a sequence, and what the operations on it mean. */
module PollSlots {

  /** An event mask, bit by bit; the bits that no code here names are kept as one. */
  datatype Mask = Mask(pollin: bool, pollout: bool, pollerr: bool, pollhup: bool, other: bool)
  {
    function Or(m: Mask): Mask {
      Mask(pollin || m.pollin, pollout || m.pollout, pollerr || m.pollerr, pollhup || m.pollhup, other || m.other)
    }

    function And(m: Mask): Mask {
      Mask(pollin && m.pollin, pollout && m.pollout, pollerr && m.pollerr, pollhup && m.pollhup, other && m.other)
    }

    function AndNot(m: Mask): Mask {
      Mask(pollin && !m.pollin, pollout && !m.pollout, pollerr && !m.pollerr, pollhup && !m.pollhup, other && !m.other)
    }
  }

  const NONE := Mask(false, false, false, false, false)
  const POLLIN := NONE.(pollin := true)
  const POLLOUT := NONE.(pollout := true)
  const ERRORS := NONE.(pollerr := true, pollhup := true)

  datatype PollFd = PollFd(fd: int, events: Mask, revents: Mask)

  /** An invalidated slot, and also a slot past the used part. */
  const CLEARED := PollFd(-1, NONE, NONE)

  ghost predicate UniqueFds(s: seq<PollFd>) {
    forall i, j :: 0 <= i < j < |s| && s[i].fd >= 0 ==> s[i].fd != s[j].fd
  }

  /** What poll is asked to watch: descriptor and mask of every slot that is not invalidated. */
  ghost function Watched(s: seq<PollFd>): set<(int, Mask)> {
    set i | 0 <= i < |s| && s[i].fd >= 0 :: (s[i].fd, s[i].events)
  }

  /** The index of the first slot for fd, or |s| when there is none. */
  function FindFd(s: seq<PollFd>, fd: int): (i: nat)
    ensures i <= |s|
    ensures i < |s| ==> s[i].fd == fd
    ensures forall j :: 0 <= j < i ==> s[j].fd != fd
  {
    if s == [] then 0
    else if s[0].fd == fd then 0
    else 1 + FindFd(s[1..], fd)
  }

  function AddSlot(s: seq<PollFd>, fd: int, events: Mask): seq<PollFd> {
    var i := FindFd(s, fd);
    if i < |s| then s[i := s[i].(events := events)] else s + [PollFd(fd, events, NONE)]
  }

  function SwapRemove<T>(s: seq<T>, i: nat): seq<T>
    requires i < |s|
  {
    s[i := s[|s| - 1]][..|s| - 1]
  }

  /** The deletion scan from position i: a slot that matches is replaced by the last one, and the
      same position is looked at again. */
  function DelSlots(s: seq<PollFd>, fd: int, i: nat): seq<PollFd>
    requires i <= |s|
    decreases |s| - i
  {
    if i == |s| then s
    else if s[i].fd != fd then DelSlots(s, fd, i + 1)
    else if fd != -1 then SwapRemove(s, i)
    else DelSlots(SwapRemove(s, i), fd, i)
  }

  function Tombstone(s: seq<PollFd>, fd: int): seq<PollFd> {
    seq(|s|, i requires 0 <= i < |s| => if s[i].fd == fd then CLEARED else s[i])
  }

  /** The slots after the operating system has reported; slots it does not report on keep what they had. */
  function WithRevents(s: seq<PollFd>, revents: seq<Mask>): seq<PollFd> {
    seq(|s|, i requires 0 <= i < |s| => if i < |revents| then s[i].(revents := revents[i]) else s[i])
  }

  /** The capacity after making room for one more slot. */
  function CapacityFor(capacity: nat, used: nat): nat {
    if used < capacity then capacity else if capacity == 0 then 64 else 2 * capacity
  }

  /** The slots that are not for fd, in their order: the plain meaning of removal. */
  ghost function Others(s: seq<PollFd>, fd: int): (r: seq<PollFd>)
    ensures forall p :: p in r <==> p in s && p.fd != fd
  {
    if s == [] then []
    else if s[0].fd == fd then Others(s[1..], fd)
    else [s[0]] + Others(s[1..], fd)
  }

  // ---------- deletion ----------

  lemma SwapRemoveMultiset<T>(s: seq<T>, i: nat)
    requires i < |s|
    ensures multiset(SwapRemove(s, i)) == multiset(s) - multiset{s[i]}
  {
    hide SwapRemove;
    var a, x := s[..i], s[i];
    if i == |s| - 1 {
      SwapRemoveLast(s);
      MovedParts(a, x, [], []);
      assert a + [x] + [] + [] == a + [x] && a + [] + [] == a;
    } else {
      var mid, y := s[i + 1..|s| - 1], s[|s| - 1];
      SwapRemoveParts(s, i);
      MovedParts(a, x, mid, [y]);
    }
  }

  lemma SwapRemoveLast<T>(s: seq<T>)
    requires s != []
    ensures s == s[..|s| - 1] + [s[|s| - 1]] && SwapRemove(s, |s| - 1) == s[..|s| - 1]
  {
  }

  lemma SwapRemoveParts<T>(s: seq<T>, i: nat)
    requires i < |s| - 1
    ensures s == s[..i] + [s[i]] + s[i + 1..|s| - 1] + [s[|s| - 1]]
    ensures SwapRemove(s, i) == s[..i] + [s[|s| - 1]] + s[i + 1..|s| - 1]
  {
  }

  lemma MovedParts<T>(a: seq<T>, x: T, mid: seq<T>, y: seq<T>)
    ensures multiset(a + y + mid) == multiset(a + [x] + mid + y) - multiset{x}
  {
    assert multiset(a + [x] + mid + y) == multiset(a) + multiset{x} + multiset(mid) + multiset(y);
    assert multiset(a + y + mid) == multiset(a) + multiset(y) + multiset(mid);
  }

  /** Others, by multiplicity. */
  lemma {:induction false} OthersCount(s: seq<PollFd>, fd: int, p: PollFd)
    ensures multiset(Others(s, fd))[p] == if p.fd == fd then 0 else multiset(s)[p]
  {
    if s != [] {
      assert s == [s[0]] + s[1..];
      OthersCount(s[1..], fd, p);
    }
  }

  lemma OthersOfMultiset(s: seq<PollFd>, t: seq<PollFd>, fd: int)
    requires forall p: PollFd :: p.fd != fd ==> multiset(s)[p] == multiset(t)[p]
    ensures multiset(Others(s, fd)) == multiset(Others(t, fd))
  {
    forall p: PollFd ensures multiset(Others(s, fd))[p] == multiset(Others(t, fd))[p] {
      OthersCount(s, fd, p);
      OthersCount(t, fd, p);
    }
  }

  /** Purging the invalidated slots leaves exactly the others, whatever was swapped where. */
  lemma {:induction false} PurgeKeepsOthers(s: seq<PollFd>, i: nat)
    requires i <= |s| && (forall j :: 0 <= j < i ==> s[j].fd != -1)
    ensures multiset(DelSlots(s, -1, i)) == multiset(Others(s, -1))
    decreases |s| - i
  {
    if i == |s| {
      assert forall p :: p in s ==> p.fd != -1;
      forall p: PollFd ensures multiset(s)[p] == multiset(Others(s, -1))[p] {
        OthersCount(s, -1, p);
      }
    } else if s[i].fd != -1 {
      PurgeKeepsOthers(s, i + 1);
    } else {
      var t := SwapRemove(s, i);
      SwapRemoveMultiset(s, i);
      PurgeKeepsOthers(t, i);
      OthersOfMultiset(s, t, -1);
    }
  }

  /** Deleting an ordinary descriptor removes its first slot and no other; there is nothing to
      remove exactly when no slot is for it. */
  lemma {:induction false} DelRemovesFirst(s: seq<PollFd>, fd: int, i: nat)
    requires fd != -1 && i <= |s| && (forall j :: 0 <= j < i ==> s[j].fd != fd)
    ensures var k := FindFd(s, fd); DelSlots(s, fd, i) == if k < |s| then SwapRemove(s, k) else s
    decreases |s| - i
  {
    if i < |s| && s[i].fd != fd { DelRemovesFirst(s, fd, i + 1); }
  }

  lemma DelCount(s: seq<PollFd>, fd: int, p: PollFd)
    requires fd >= 0 && UniqueFds(s)
    ensures multiset(DelSlots(s, fd, 0))[p] == if p.fd == fd then 0 else multiset(s)[p]
  {
    DelRemovesFirst(s, fd, 0);
    var k := FindFd(s, fd);
    if k < |s| {
      SwapRemoveMultiset(s, k);
      if p.fd == fd {
        var t := SwapRemove(s, k);
        assert forall j :: 0 <= j < |t| ==> t[j] == if j == k then s[|s| - 1] else s[j];
        assert p !in t;
      }
    } else if p.fd == fd {
      assert p !in s;
    }
  }

  /** On an array without duplicates that is all of them. */
  lemma DelKeepsOthers(s: seq<PollFd>, fd: int)
    requires fd >= 0 && UniqueFds(s)
    ensures multiset(DelSlots(s, fd, 0)) == multiset(Others(s, fd))
  {
    forall p: PollFd ensures multiset(DelSlots(s, fd, 0))[p] == multiset(Others(s, fd))[p] {
      OthersCount(s, fd, p);
      DelCount(s, fd, p);
    }
  }

  // ---------- the two removals are one abstract step ----------

  ghost predicate WatchedWithout(before: seq<PollFd>, after: seq<PollFd>, fd: int) {
    Watched(after) == set p | p in Watched(before) && p.0 != fd
  }

  lemma TombstoneStep(s: seq<PollFd>, fd: int)
    requires fd >= 0
    ensures |Tombstone(s, fd)| == |s| && WatchedWithout(s, Tombstone(s, fd), fd)
    ensures UniqueFds(s) ==> UniqueFds(Tombstone(s, fd))
  {
    var t := Tombstone(s, fd);
    forall p | p in Watched(s) && p.0 != fd ensures p in Watched(t) {
      var i :| 0 <= i < |s| && s[i].fd >= 0 && p == (s[i].fd, s[i].events);
      assert t[i] == s[i];
    }
  }

  lemma DelStep(s: seq<PollFd>, fd: int)
    requires fd >= 0 && UniqueFds(s)
    ensures WatchedWithout(s, DelSlots(s, fd, 0), fd) && UniqueFds(DelSlots(s, fd, 0))
  {
    DelRemovesFirst(s, fd, 0);
    var t := DelSlots(s, fd, 0);
    var k := FindFd(s, fd);
    if k < |s| {
      assert forall j :: 0 <= j < |t| ==> t[j] == if j == k then s[|s| - 1] else s[j];
      forall p | p in Watched(s) && p.0 != fd ensures p in Watched(t) {
        var i :| 0 <= i < |s| && s[i].fd >= 0 && p == (s[i].fd, s[i].events);
        assert t[if i == |s| - 1 then k else i] == s[i];
      }
    }
  }

  /** Whether a removal tombstones (during a pass) or swaps (outside one), poll stops watching
      exactly fd, and the two results differ only in order and in invalidated slots. */
  lemma RemovalsAgree(s: seq<PollFd>, fd: int)
    requires fd >= 0 && UniqueFds(s)
    ensures Watched(Tombstone(s, fd)) == Watched(DelSlots(s, fd, 0))
    ensures multiset(DelSlots(Tombstone(s, fd), -1, 0)) == multiset(DelSlots(DelSlots(s, fd, 0), -1, 0))
  {
    TombstoneStep(s, fd);
    DelStep(s, fd);
    var t, d := Tombstone(s, fd), DelSlots(s, fd, 0);
    PurgeKeepsOthers(t, 0);
    PurgeKeepsOthers(d, 0);
    forall p: PollFd | p.fd != -1 ensures multiset(t)[p] == multiset(d)[p] {
      DelCount(s, fd, p);
      TombstoneCount(s, fd, p);
    }
    OthersOfMultiset(t, d, -1);
  }

  lemma {:induction false} TombstoneCount(s: seq<PollFd>, fd: int, p: PollFd)
    requires p.fd != -1
    ensures multiset(Tombstone(s, fd))[p] == if p.fd == fd then 0 else multiset(s)[p]
  {
    if s == [] {
      assert Tombstone(s, fd) == [];
    } else {
      TombstoneCount(s[1..], fd, p);
      assert s == [s[0]] + s[1..];
      assert Tombstone(s, fd) == [Tombstone(s, fd)[0]] + Tombstone(s[1..], fd);
    }
  }

  lemma AddSlotParts(s: seq<PollFd>, fd: int, events: Mask)
    requires fd >= 0 && UniqueFds(s)
    ensures var t := AddSlot(s, fd, events); var k := FindFd(s, fd);
      && |s| <= |t| <= |s| + 1 && k < |t| && t[k].fd == fd && t[k].events == events && (|t| > |s| ==> k == |s|)
      && (forall i :: 0 <= i < |s| ==> t[i].fd == s[i].fd && t[i].revents == s[i].revents && (i != k ==> t[i] == s[i]))
      && (forall i :: 0 <= i < |s| && s[i].fd == fd ==> i == k) && UniqueFds(t)
  {
    hide FindFd;
    var k := FindFd(s, fd);
    assert forall i :: 0 <= i < |s| && s[i].fd == fd ==> i == k;
  }

  lemma AddStep(s: seq<PollFd>, fd: int, events: Mask)
    requires fd >= 0 && UniqueFds(s)
    ensures var t := AddSlot(s, fd, events);
      && UniqueFds(t) && (fd, events) in Watched(t)
      && (set p | p in Watched(t) && p.0 != fd) == (set p | p in Watched(s) && p.0 != fd)
      && |s| <= |t| <= |s| + 1
      && (forall i :: 0 <= i < |s| ==> t[i].fd == s[i].fd && t[i].revents == s[i].revents)
      && (forall i :: 0 <= i < |s| && s[i].fd != fd ==> t[i] == s[i])
      && (forall i :: 0 <= i < |t| && t[i].fd == fd ==> t[i].events == events)
      && (|t| > |s| ==> t[|s|] == PollFd(fd, events, NONE))
  {
    hide FindFd;
    var t := AddSlot(s, fd, events);
    AddSlotParts(s, fd, events);
    var k := FindFd(s, fd);
    assert t[k].fd == fd && t[k].events == events;
    assert forall i :: 0 <= i < |t| && t[i].fd == fd ==> i == k;
    forall p | p in Watched(s) && p.0 != fd ensures p in Watched(t) {
      var i :| 0 <= i < |s| && s[i].fd >= 0 && p == (s[i].fd, s[i].events);
      assert t[i] == s[i];
    }
    forall p | p in Watched(t) && p.0 != fd ensures p in Watched(s) {
      var i :| 0 <= i < |t| && t[i].fd >= 0 && p == (t[i].fd, t[i].events);
      assert s[i] == t[i];
    }
  }
}

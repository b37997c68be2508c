/** The array that is handed to poll, changed in place. Its methods are proved against PollSlots. */
module PollArray {
  import opened PollSlots

  class PollArray {
    var fds: array<PollFd>    // empty where the C pointer is NULL
    var used: nat
    var iterating: bool

    /** The used part is s, and every slot past it is cleared. */
    ghost predicate Is(s: seq<PollFd>)
      reads this`fds, this`used, fds
    {
      && used == |s| <= fds.Length
      && fds[..used] == s
      && forall i :: used <= i < fds.Length ==> fds[i] == CLEARED
    }

    constructor ()
      ensures Is([]) && fds.Length == 0 && !iterating && fresh(fds)
    {
      fds := new PollFd[0];
      used := 0;
      iterating := false;
    }

    method MaybeResize(ghost s: seq<PollFd>)
      requires Is(s)
      modifies this`fds
      ensures Is(s) && used < fds.Length
      ensures fds.Length == CapacityFor(old(fds.Length), |s|)
      ensures fds == old(fds) || fresh(fds)
    {
      if used < fds.Length {
        return;
      }
      var n := if fds.Length != 0 then fds.Length * 2 else 64;
      var p := new PollFd[n](_ => CLEARED);
      forall i | 0 <= i < fds.Length {
        p[i] := fds[i];
      }
      fds := p;
    }

    method Swap(l: nat, r: nat)
      requires l < fds.Length && r < fds.Length
      modifies fds
      ensures fds[..] == old(fds[..])[l := old(fds[r])][r := old(fds[l])]
    {
      var pfd := fds[l];
      fds[l] := fds[r];
      fds[r] := pfd;
    }

    method Add(fd: int, events: Mask, ghost s: seq<PollFd>)
      requires Is(s)
      modifies this`fds, this`used, fds
      ensures Is(if iterating then s else AddSlot(s, fd, events))
      ensures fds.Length == if |s| == used then old(fds.Length) else CapacityFor(old(fds.Length), |s|)
      ensures fds == old(fds) || fresh(fds)
    {
      if iterating {
        return;
      }
      var i := 0;
      while i < used && fds[i].fd != fd
        invariant i <= used
        invariant forall j :: 0 <= j < i ==> s[j].fd != fd
      {
        i := i + 1;
      }
      assert i == FindFd(s, fd);
      if i < used {
        fds[i] := fds[i].(events := events);
        assert fds[..used] == AddSlot(s, fd, events);
        return;
      }
      MaybeResize(s);
      fds[used] := fds[used].(fd := fd, events := events);
      used := used + 1;
      assert fds[..used] == s + [PollFd(fd, events, NONE)];
    }

    method Del(fd: int, ghost s: seq<PollFd>)
      requires Is(s)
      modifies this`used, fds
      ensures Is(if iterating then s else DelSlots(s, fd, 0))
    {
      if iterating {
        return;
      }
      var i := 0;
      ghost var t := s;
      while i < used
        invariant i <= used && Is(t)
        invariant DelSlots(t, fd, i) == DelSlots(s, fd, 0)
        decreases used - i
      {
        if fds[i].fd == fd {
          used := used - 1;
          Swap(i, used);
          fds[used] := CLEARED;
          t := SwapRemove(t, i);
          assert fds[..used] == t;
          if -1 != fd {
            return;
          }
        } else {
          i := i + 1;
        }
      }
    }

    method Invalidate(fd: int, ghost s: seq<PollFd>)
      requires Is(s) && fd >= 0
      modifies this`used, fds
      ensures Is(if iterating then Tombstone(s, fd) else DelSlots(s, fd, 0))
    {
      if iterating {
        var i := 0;
        while i < used
          invariant i <= used == |s| <= fds.Length
          invariant forall j :: 0 <= j < used ==> fds[j] == if j < i then Tombstone(s, fd)[j] else s[j]
          invariant forall j :: used <= j < fds.Length ==> fds[j] == CLEARED
        {
          if fds[i].fd == fd {
            fds[i] := CLEARED;
          }
          i := i + 1;
        }
        assert fds[..used] == Tombstone(s, fd);
      } else {
        Del(fd, s);
      }
    }

    /** What the operating system writes into the used slots. */
    method SetRevents(revents: seq<Mask>, ghost s: seq<PollFd>)
      requires Is(s)
      modifies fds
      ensures Is(WithRevents(s, revents))
    {
      var i := 0;
      while i < used
        invariant i <= used == |s| <= fds.Length
        invariant forall j :: 0 <= j < used ==> fds[j] == if j < i then WithRevents(s, revents)[j] else s[j]
        invariant forall j :: used <= j < fds.Length ==> fds[j] == CLEARED
      {
        if i < |revents| {
          fds[i] := fds[i].(revents := revents[i]);
        }
        i := i + 1;
      }
      assert fds[..used] == WithRevents(s, revents);
    }
  }
}

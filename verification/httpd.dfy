/** The server: connection objects, the callbacks of the loop, the poll pass and the drain loop. Every
    method is proved against ServerModel. */
module Httpd {
  import opened PollSlots
  import opened LoopModel
  import opened Wrappers
  import opened Ring
  import opened RunQueue
  import opened EventLoop
  import opened ServerScript
  import M = ServerModel

  /** The parts of a connection that its life depends on. */
  class Conn {
    const w: Watcher
    const jsLink: Link
    const recvd: int := 0   // set at accept and never advanced
    var jsInitialized: bool
    var completed: bool

    constructor (fd: int)
      ensures w.fd == fd && w.cb == Callback.OnPoll && w.pevents == NONE && w.events == NONE
      ensures fresh(w) && fresh(w.link) && fresh(jsLink) && Alone(w.link) && Alone(jsLink) && w.link != jsLink
      ensures !jsInitialized && !completed
    {
      w := new Watcher(fd, Callback.OnPoll);
      jsLink := new Link();
      jsInitialized, completed := false, false;
    }
  }

  /** The embedding of links in connections is one to one, for the connections of ws. */
  ghost predicate JsEmbedded(conns: map<Watcher, Conn>, containers: map<Link, Conn>, ws: set<Watcher>) {
    && (forall w :: w in ws ==> w in conns && conns[w].w == w)
    && (forall w :: w in ws ==> conns[w].jsLink in containers && containers[conns[w].jsLink] == conns[w])
    && (forall l :: l in containers ==>
          && containers[l].w in ws && containers[l].w in conns
          && containers[l].jsLink == l && conns[containers[l].w] == containers[l])
  }

  /** The links p, in order, are those of the connections q. */
  ghost predicate Names(p: seq<Link>, containers: map<Link, Conn>, q: seq<Watcher>) {
    |p| == |q| && forall i :: 0 <= i < |p| ==> p[i] in containers && containers[p[i]].w == q[i]
  }

  lemma NamesWithout(p: seq<Link>, containers: map<Link, Conn>, q: seq<Watcher>,
      conns: map<Watcher, Conn>, ws: set<Watcher>, c: Conn)
    requires Names(p, containers, q) && JsEmbedded(conns, containers, ws) && Distinct(q)
    requires c.w in ws && conns[c.w] == c
    ensures Names(Without(p, c.jsLink), containers - {c.jsLink}, Without(q, c.w))
    ensures c.jsLink in containers && (c.jsLink in p <==> c.w in q)
    ensures JsEmbedded(conns, containers - {c.jsLink}, ws - {c.w})
  {
    hide Distinct;
    forall i | 0 <= i < |p| ensures p[i] == c.jsLink <==> q[i] == c.w {}
    assert IndexOf(p, c.jsLink) == IndexOf(q, c.w);
    DistinctWithout(q, c.w);
    var p', q' := Without(p, c.jsLink), Without(q, c.w);
    forall i | 0 <= i < |p'| ensures p'[i] in containers - {c.jsLink} && containers[p'[i]].w == q'[i] {
      assert q'[i] in q' && q'[i] != c.w;
    }
  }

  lemma NamesAppend(p: seq<Link>, containers: map<Link, Conn>, q: seq<Watcher>,
      conns: map<Watcher, Conn>, ws: set<Watcher>, c: Conn)
    requires Names(p, containers, q) && JsEmbedded(conns, containers, ws) && c.w in ws && conns[c.w] == c
    ensures c.jsLink in containers && Names(p + [c.jsLink], containers, q + [c.w])
    ensures c.w !in q ==> c.jsLink !in p
  {
  }

  lemma NamesGrow(p: seq<Link>, containers: map<Link, Conn>, q: seq<Watcher>,
      conns: map<Watcher, Conn>, ws: set<Watcher>, c: Conn)
    requires Names(p, containers, q) && JsEmbedded(conns, containers, ws) && c.jsLink !in containers && c.w !in ws
    ensures Names(p, containers[c.jsLink := c], q)
    ensures JsEmbedded(conns[c.w := c], containers[c.jsLink := c], ws + {c.w})
  {
  }

  class Httpd {
    const loop: EventLoop
    const listener: Watcher
    const hasHandler: bool
    const jsQueue: Link
    var conns: map<Watcher, Conn>      // the connection that a watcher is part of
    var containers: map<Link, Conn>    // and the one that a link of the run queue is part of
    var numConns: int
    ghost var accepted: multiset<int>  // every descriptor that accept returned
    ghost var closed: multiset<int>    // and every descriptor that was closed
    ghost var log: seq<Action<Watcher>>  // what was done to connections
    ghost var srv: M.Server<Watcher>
    ghost var connSet: set<Conn>
    ghost var jsPending: seq<Link>
    ghost var jsPool: set<Link>

    ghost function Repr(): set<object>
      reads this, loop, loop.polls
    {
      {this, jsQueue, loop} + connSet + jsPool + loop.Repr()
    }

    ghost predicate ConnsAre(live: set<Watcher>, initialized: set<Watcher>, completed: set<Watcher>)
      reads this`conns, this`connSet, connSet
    {
      && conns.Keys == live && (forall w :: w in conns ==> conns[w] in connSet && conns[w].w == w)
      && (forall c :: c in connSet ==> c.w in conns && conns[c.w] == c && c.w.cb.OnPoll?)
      && (forall c :: c in connSet ==> (c.jsInitialized <==> c.w in initialized) && (c.completed <==> c.w in completed))
    }

    ghost predicate RunQueueIs(q: seq<Watcher>, ws: set<Watcher>)
      reads this`conns, this`containers, this`jsPending, this`jsPool, jsQueue, jsPool
    {
      && JsEmbedded(conns, containers, ws) && jsPool == containers.Keys
      && ListOf(jsQueue, jsPending, jsPool) && Names(jsPending, containers, q)
    }

    /** The counter, and the descriptors accepted and closed so far. */
    ghost predicate TcpIs(n: int, a: multiset<int>, c: multiset<int>)
      reads this`numConns, this`accepted, this`closed
    {
      numConns == n && accepted == a && closed == c
    }

    ghost predicate LogIs(l: seq<Action<Watcher>>)
      reads this`log
    {
      log == l
    }

    /** The loop and the run queue share no memory. */
    ghost predicate Apart()
      reads this`jsPool, loop, loop.polls
    {
      jsQueue !in loop.Repr() && jsPool !! loop.Repr()
    }

    ghost predicate Valid()
      reads this, Repr()
    {
      && loop.Valid() && srv.loop == loop.st && Apart()
      && srv.listener == listener && listener.cb.OnConnected? && srv.hasHandler == hasHandler
        && TcpIs(srv.numConns, srv.accepted, srv.closed) && LogIs(srv.log)
      && ConnsAre(srv.live, srv.initialized, srv.completed) && RunQueueIs(srv.runQueue, srv.live)
      && Distinct(srv.runQueue)
    }

    /** The server before its task runs, with the listening socket it will use. */
    ghost predicate Initial()
      reads this, loop, loop.polls, loop.Repr(), jsQueue, listener, listener.link
    {
      && loop.Valid() && loop.st == EmptyLoop() && jsQueue !in loop.Repr() && Alone(jsQueue)
      && listener.link !in loop.Repr() && listener.link != jsQueue && Alone(listener.link)
      && listener.pevents == NONE && listener.events == NONE && listener.cb.OnConnected?
      && conns == map[] && containers == map[] && TcpIs(0, multiset{}, multiset{}) && LogIs([])
        && connSet == {} && jsPending == [] && jsPool == {}
    }

    constructor (fd: int, hasHandler: bool)
      ensures Initial() && listener.fd == fd && this.hasHandler == hasHandler
        && fresh(Repr() + {listener, listener.link})
    {
      hide EventLoop.Valid;
      var w := new Watcher(fd, Callback.OnConnected);
      listener := w;
      jsQueue := new Link();
      loop := new EventLoop();
      this.hasHandler := hasHandler;
      conns, containers, numConns := map[], map[], 0;
      accepted, closed, log := multiset{}, multiset{}, [];
      connSet, jsPending, jsPool := {}, [], {};
      srv := M.Server(EmptyLoop(), w, hasHandler, {}, {}, {}, [], 0, multiset{}, multiset{}, [], M.Halted);
      new;
      InitialHolds();
    }

    /** Starts listening. */
    method Launch()
      requires Initial() && 0 <= listener.fd <= MAX_FD
      modifies Repr(), listener, listener.link
      ensures Valid() && srv == M.Launch(listener, listener.fd, hasHandler)
      ensures fresh(Repr() - old(Repr()) - {listener, listener.link})
    {
      hide *;
      LaunchFacts();
      loop.Track(listener);
      loop.IoStart(listener, POLLIN);
      srv := M.Launch(listener, listener.fd, hasHandler);
      LaunchValid(listener.fd);
    }

    lemma InitialHolds()
      requires loop.Valid() && loop.st == EmptyLoop() && jsQueue !in loop.Repr() && Alone(jsQueue)
      requires listener.link !in loop.Repr() && listener.link != jsQueue && Alone(listener.link)
      requires listener.pevents == NONE && listener.events == NONE && listener.cb.OnConnected?
      requires conns == map[] && containers == map[] && TcpIs(0, multiset{}, multiset{}) && LogIs([])
        && connSet == {} && jsPending == [] && jsPool == {}
      ensures Initial() && Repr() == {this, jsQueue, loop} + loop.Repr()
    {
      hide EventLoop.Valid, EventLoop.Repr;
    }

    lemma LaunchFacts()
      requires 0 <= listener.fd <= MAX_FD && Initial()
      ensures loop.Valid() && loop.st == EmptyLoop() && Repr() == {this, jsQueue, loop} + loop.Repr()
      ensures listener !in loop.st.io && listener.link !in loop.pool && listener.link != loop.watcherQueue
      ensures Alone(listener.link) && listener.pevents == NONE && listener.events == NONE && listener.cb.OnConnected?
      ensures this !in loop.Repr() && jsQueue !in loop.Repr() && Alone(jsQueue) && jsQueue != listener.link
      ensures conns == map[] && containers == map[] && TcpIs(0, multiset{}, multiset{}) && LogIs([])
        && connSet == {} && jsPending == [] && jsPool == {}
      ensures CanStart(LoopModel.Track(EmptyLoop(), listener, listener.fd), listener, POLLIN)
    {
      InitInv<Watcher>();
      TrackKeepsInv(EmptyLoop<Watcher>(), listener, listener.fd);
    }

    lemma LaunchValid(fd: int)
      requires 0 <= fd <= MAX_FD && loop.Valid() && srv == M.Launch(listener, fd, hasHandler)
      requires loop.st == Start(LoopModel.Track(EmptyLoop(), listener, fd), listener, POLLIN)
      requires conns == map[] && containers == map[] && TcpIs(0, multiset{}, multiset{}) && LogIs([])
        && connSet == {} && jsPending == [] && jsPool == {}
      requires Alone(jsQueue) && jsQueue !in loop.Repr() && listener.cb.OnConnected?
      ensures Valid() && Repr() == {this, jsQueue, loop} + loop.Repr()
    {
      hide Start, LoopModel.Track, EmptyLoop, EventLoop.Valid;
    }

    method ClearInitialized(c: Conn, ghost s: M.Server<Watcher>)
      requires ConnsAre(s.live, s.initialized, s.completed) && c in connSet
      modifies c`jsInitialized
      ensures ConnsAre(s.live, s.initialized - {c.w}, s.completed)
    {
      c.jsInitialized := false;
    }

    lemma ConnFacts(c: Conn, s: M.Server<Watcher>)
      requires ConnsAre(s.live, s.initialized, s.completed) && c in connSet
      ensures c.w in conns && conns[c.w] == c && c.w in s.live
      ensures (c.jsInitialized <==> c.w in s.initialized) && (c.completed <==> c.w in s.completed)
      ensures c.w !in s.initialized ==> s.initialized - {c.w} == s.initialized
    {
    }

    method UnlistContext(c: Conn, ghost s: M.Server<Watcher>)
      requires RunQueueIs(s.runQueue, s.live) && Distinct(s.runQueue)
      requires c.w in s.live && c.w in conns && conns[c.w] == c
      modifies this`containers, this`jsPending, this`jsPool, jsQueue, jsPool
      ensures RunQueueIs(Without(s.runQueue, c.w), s.live - {c.w}) && jsPool == old(jsPool) - {c.jsLink}
    {
      hide ListOf, Distinct, Without, Names, JsEmbedded;
      NamesWithout(jsPending, containers, s.runQueue, conns, s.live, c);
      Ring.Unlist(jsQueue, c.jsLink, jsPending, jsPool);
      jsPending := Without(jsPending, c.jsLink);
      jsPool := jsPool - {c.jsLink};
      containers := containers - {c.jsLink};
    }

    /** Gives up the link of a connection without a context. */
    method DropLink(c: Conn, ghost s: M.Server<Watcher>)
      requires RunQueueIs(s.runQueue, s.live) && Distinct(s.runQueue)
      requires c.w in s.live && c.w in conns && conns[c.w] == c && c.w !in s.runQueue
      modifies this`containers, this`jsPool
      ensures RunQueueIs(Without(s.runQueue, c.w), s.live - {c.w}) && jsPool == old(jsPool) - {c.jsLink}
    {
      hide ListOf, Distinct, Without, Names, JsEmbedded;
      NamesWithout(jsPending, containers, s.runQueue, conns, s.live, c);
      PoolChanges(jsQueue, jsPending, jsPool, c.jsLink);
      jsPool := jsPool - {c.jsLink};
      containers := containers - {c.jsLink};
    }

    /** Takes the context of c off the run queue, whether it is on it or not, and gives it up. */
    method DropContext(c: Conn, ghost s: M.Server<Watcher>)
      requires RunQueueIs(s.runQueue, s.live) && ConnsAre(s.live, s.initialized, s.completed) && Distinct(s.runQueue)
      requires c in connSet && (c.w in s.runQueue ==> c.w in s.initialized)
      modifies this`containers, this`jsPending, this`jsPool, jsQueue, jsPool, c`jsInitialized
      ensures RunQueueIs(Without(s.runQueue, c.w), s.live - {c.w})
      ensures ConnsAre(s.live, s.initialized - {c.w}, s.completed)
      ensures jsPool == old(jsPool) - {c.jsLink}
    {
      hide *;
      ConnFacts(c, s);
      if c.jsInitialized {
        UnlistContext(c, s);
        ClearInitialized(c, s);
      } else {
        DropLink(c, s);
      }
    }

    lemma Unpack()
      requires Valid()
      ensures loop.Valid() && srv.loop == loop.st && Apart() && Distinct(srv.runQueue)
      ensures srv.listener == listener && srv.hasHandler == hasHandler && listener.cb.OnConnected?
      ensures TcpIs(srv.numConns, srv.accepted, srv.closed) && LogIs(srv.log)
      ensures ConnsAre(srv.live, srv.initialized, srv.completed) && RunQueueIs(srv.runQueue, srv.live)
      ensures Repr() == {this, jsQueue, loop} + connSet + jsPool + loop.Repr()
      ensures this !in loop.Repr() && connSet !! loop.Repr() && jsQueue !in loop.Repr() && jsPool !! loop.Repr()
      ensures loop.Repr() == {loop, loop.polls, loop.polls.fds, loop.watcherQueue} + loop.known + loop.pool
    {
      hide EventLoop.Valid, ConnsAre, RunQueueIs;
    }

    /** Records that the fields now represent r. */
    ghost method Become(r: M.Server<Watcher>)
      requires loop.Valid() && r.loop == loop.st && Distinct(r.runQueue)
      requires this !in loop.Repr() && jsQueue !in loop.Repr() && jsPool !! loop.Repr()
      requires r.listener == listener && listener.cb.OnConnected? && r.hasHandler == hasHandler
        && TcpIs(r.numConns, r.accepted, r.closed) && LogIs(r.log)
      requires ConnsAre(r.live, r.initialized, r.completed) && RunQueueIs(r.runQueue, r.live)
      modifies this`srv
      ensures Valid() && srv == r
      ensures Repr() == {this, jsQueue, loop} + connSet + jsPool + loop.Repr()
    {
      hide EventLoop.Valid, ConnsAre, RunQueueIs, EventLoop.Repr;
      srv := r;
    }

    /** Keeps record of something that is done to a connection. */
    ghost method Did(a: Action<Watcher>, l: seq<Action<Watcher>>)
      requires LogIs(l)
      modifies this`log
      ensures LogIs(l + [a])
    {
      log := log + [a];
    }

    /** `isere_tcp_close`. */
    method TcpClose(fd: int, ghost n: int, ghost a: multiset<int>, ghost c: multiset<int>)
      requires TcpIs(n, a, c)
      modifies this`numConns, this`closed
      ensures TcpIs(n - 1, a, c + multiset{fd})
    {
      closed := closed + multiset{fd};
      numConns := numConns - 1;
    }

    lemma FdOf(w: Watcher)
      requires loop.Valid() && w in loop.st.io
      ensures loop.st.io[w].fd == w.fd
    {
    }

    lemma CleanupFacts(c: Conn)
      requires Valid() && c in connSet && M.CanCleanup(srv, c.w)
      ensures CanStop(loop.st, c.w, POLLIN) && c.w in loop.st.io && c.w !in Stop(loop.st, c.w, POLLIN).queue
      ensures c.w in Stop(loop.st, c.w, POLLIN).io && c.w in srv.loop.io && srv.loop.io[c.w].fd >= -1
      ensures c !in loop.Repr()
      ensures c.w in srv.runQueue ==> c.w in srv.initialized
      ensures var r := M.Cleanup(srv, c.w);
        && r.loop == LoopModel.Forget(Stop(loop.st, c.w, POLLIN), c.w) && Distinct(r.runQueue)
        && r.live == srv.live - {c.w} && r.initialized == srv.initialized - {c.w}
        && r.completed == srv.completed - {c.w}
        && r.runQueue == Without(srv.runQueue, c.w)
        && r.numConns == srv.numConns - 1 && r.accepted == srv.accepted && r.closed == srv.closed + multiset{c.w.fd}
        && r.log == srv.log + [Action.Free(c.w)]
        && r.listener == srv.listener && r.hasHandler == srv.hasHandler
    {
      hide EventLoop.Valid, ConnsAre, RunQueueIs, Inv, Stop, IndexOf, LoopModel.Forget;
      M.CleanupParts(srv, c.w);
      M.StopConn(srv.loop, c.w);
      FdOf(c.w);
      DistinctWithout(srv.runQueue, c.w);
    }

    method DropConn(c: Conn, ghost s: M.Server<Watcher>, ghost r: M.Server<Watcher>)
      requires ConnsAre(s.live, r.initialized, s.completed) && c in connSet && RunQueueIs(r.runQueue, r.live)
      requires r.live == s.live - {c.w} && r.completed == s.completed - {c.w}
      modifies this`conns, this`connSet
      ensures ConnsAre(r.live, r.initialized, r.completed) && RunQueueIs(r.runQueue, r.live)
      ensures connSet == old(connSet) - {c}
    {
      hide ListOf, Names;
      conns := conns - {c.w};
      connSet := connSet - {c};
    }

    /** The last part of a cleanup: the memory of c is given up. */
    method Release(c: Conn, ghost s: M.Server<Watcher>, ghost r: M.Server<Watcher>)
      requires ConnsAre(s.live, r.initialized, s.completed) && c in connSet && RunQueueIs(r.runQueue, r.live)
      requires r.live == s.live - {c.w} && r.completed == s.completed - {c.w}
      requires loop.Valid() && r.loop == loop.st && Distinct(r.runQueue)
      requires this !in loop.Repr() && jsQueue !in loop.Repr() && jsPool !! loop.Repr()
      requires r.listener == listener && listener.cb.OnConnected? && r.hasHandler == hasHandler
        && TcpIs(r.numConns, r.accepted, r.closed) && LogIs(r.log)
      modifies this`conns, this`connSet, this`srv
      ensures Valid() && srv == r
      ensures Repr() == {this, jsQueue, loop} + connSet + jsPool + loop.Repr() && connSet == old(connSet) - {c}
    {
      hide *;
      LoopRepr();
      DropConn(c, s, r);
      Become(r);
    }

    /** Stops a watcher, closes its descriptor and makes the loop forget it. */
    method Disconnect(w: Watcher, ghost n: int, ghost a: multiset<int>, ghost c: multiset<int>)
      requires loop.Valid() && CanStop(loop.st, w, POLLIN) && w in Stop(loop.st, w, POLLIN).io
      requires w !in Stop(loop.st, w, POLLIN).queue && this !in loop.Repr() && TcpIs(n, a, c)
      modifies this`numConns, this`closed, loop.Repr()
      ensures loop.Valid() && loop.st == LoopModel.Forget(Stop(old(loop.st), w, POLLIN), w)
      ensures TcpIs(n - 1, a, c + multiset{w.fd}) && loop.Repr() <= old(loop.Repr())
    {
      hide *;
      LoopRepr();
      loop.IoStop(w, POLLIN);
      LoopRepr();
      TcpClose(w.fd, n, a, c);
      loop.Forget(w);
    }

    lemma ReprIs()
      ensures Repr() == {this, jsQueue, loop} + connSet + jsPool + loop.Repr()
    {
    }

    lemma LoopRepr()
      ensures loop.Repr() == {loop, loop.polls, loop.polls.fds, loop.watcherQueue} + loop.known + loop.pool
    {
    }

    /** What follows once the context is gone. */
    method Discard(c: Conn, ghost s: M.Server<Watcher>, ghost r: M.Server<Watcher>)
      requires loop.Valid() && CanStop(loop.st, c.w, POLLIN) && c.w in Stop(loop.st, c.w, POLLIN).io
      requires c.w !in Stop(loop.st, c.w, POLLIN).queue && c in connSet && Distinct(r.runQueue)
      requires ConnsAre(s.live, r.initialized, s.completed) && RunQueueIs(r.runQueue, r.live)
      requires this !in loop.Repr() && connSet !! loop.Repr() && jsQueue !in loop.Repr() && jsPool !! loop.Repr()
      requires r.loop == LoopModel.Forget(Stop(loop.st, c.w, POLLIN), c.w)
      requires r.live == s.live - {c.w} && r.completed == s.completed - {c.w}
      requires TcpIs(s.numConns, s.accepted, s.closed) && LogIs(s.log)
      requires r.numConns == s.numConns - 1 && r.accepted == s.accepted && r.closed == s.closed + multiset{c.w.fd}
      requires r.log == s.log + [Action.Free(c.w)]
      requires r.listener == listener && listener.cb.OnConnected? && r.hasHandler == hasHandler
      modifies this`numConns, this`closed, this`log, this`conns, this`connSet, this`srv, loop.Repr()
      ensures Valid() && srv == r && connSet == old(connSet) - {c} && loop.Repr() <= old(loop.Repr())
      ensures Repr() == {this, jsQueue, loop} + connSet + jsPool + loop.Repr()
    {
      hide *;
      LoopRepr();
      Disconnect(c.w, s.numConns, s.accepted, s.closed);
      Did(Action.Free(c.w), s.log);
      assert loop.Valid() && RunQueueIs(r.runQueue, r.live) && ConnsAre(s.live, r.initialized, s.completed);
      LoopRepr();
      Release(c, s, r);
    }

    /** Frees a connection: its context, its registration, its descriptor and its memory. */
    method CleanupConn(c: Conn)
      requires Valid() && c in connSet && M.CanCleanup(srv, c.w)
      modifies Repr()
      ensures Valid() && srv == M.Cleanup(old(srv), c.w) && Repr() <= old(Repr()) && connSet == old(connSet) - {c}
    {
      hide *;
      Unpack();
      CleanupFacts(c);
      ghost var s := srv;
      DropContext(c, s);
      assert loop.Valid();
      Discard(c, s, M.Cleanup(s, c.w));
    }

    // ---------- the callbacks ----------

    method StopReading(c: Conn)
      requires Valid() && c in connSet && CanStop(srv.loop, c.w, POLLIN)
      modifies Repr()
      ensures Valid() && srv == old(srv).(loop := Stop(old(srv).loop, c.w, POLLIN))
      ensures Repr() == old(Repr()) && connSet == old(connSet)
    {
      hide *;
      Unpack();
      loop.IoStop(c.w, POLLIN);
      assert RunQueueIs(srv.runQueue, srv.live) && ConnsAre(srv.live, srv.initialized, srv.completed);
      LoopRepr();
      Become(srv.(loop := loop.st));
    }

    method SetInitialized(c: Conn, ghost live: set<Watcher>, ghost initialized: set<Watcher>,
        ghost completed: set<Watcher>)
      requires ConnsAre(live, initialized, completed) && c in connSet
      modifies c`jsInitialized
      ensures ConnsAre(live, initialized + {c.w}, completed)
    {
      c.jsInitialized := true;
    }

    method AppendContext(c: Conn, ghost q: seq<Watcher>, ghost ws: set<Watcher>)
      requires RunQueueIs(q, ws) && c.w in ws && c.w in conns && conns[c.w] == c && c.w !in q
      modifies this`jsPending, jsQueue, jsPool
      ensures RunQueueIs(q + [c.w], ws)
    {
      hide ListOf, JsEmbedded, Names;
      NamesAppend(jsPending, containers, q, conns, ws, c);
      Ring.Append(jsQueue, c.jsLink, jsPending, jsPool);
      jsPending := jsPending + [c.jsLink];
    }

    /** Evaluates the handler. If the script calls the response callback, the response is complete. */
    method Evaluate(c: Conn, completes: bool, ghost live: set<Watcher>, ghost initialized: set<Watcher>,
        ghost completed: set<Watcher>)
      requires ConnsAre(live, initialized, completed) && c in connSet
      modifies c`completed
      ensures ConnsAre(live, initialized, if completes then completed + {c.w} else completed)
    {
      if completes {
        c.completed := true;
      }
    }

    method StartContext(c: Conn, completes: bool, ghost s: M.Server<Watcher>, ghost r: M.Server<Watcher>)
      requires ConnsAre(s.live, s.initialized, s.completed) && RunQueueIs(s.runQueue, s.live)
      requires c in connSet && c.w in s.live && c.w in conns && conns[c.w] == c && c.w !in s.runQueue
      requires r.live == s.live && r.initialized == s.initialized + {c.w} && r.runQueue == s.runQueue + [c.w]
      requires r.completed == if completes then s.completed + {c.w} else s.completed
      modifies c`jsInitialized, c`completed, this`jsPending, jsQueue, jsPool
      ensures ConnsAre(r.live, r.initialized, r.completed) && RunQueueIs(r.runQueue, r.live)
    {
      hide *;
      SetInitialized(c, s.live, s.initialized, s.completed);
      Evaluate(c, completes, s.live, r.initialized, s.completed);
      AppendContext(c, s.runQueue, s.live);
    }

    /** Writes to a connection, of which only the record matters here. */
    method WriteTo(c: Conn, ghost a: Action<Watcher>)
      requires Valid() && c in connSet && a.c == c.w
      modifies Repr()
      ensures Valid() && srv == M.Note(old(srv), a) && log == old(log) + [a]
      ensures Repr() == old(Repr()) && connSet == old(connSet)
    {
      hide *;
      Unpack();
      LogOf();
      NoteFacts(srv, a);
      Did(a, srv.log);
      assert loop.Valid() && RunQueueIs(srv.runQueue, srv.live) && ConnsAre(srv.live, srv.initialized, srv.completed);
      LoopRepr();
      Become(M.Note(srv, a));
      LogOf();
    }

    lemma NoteFacts(s: M.Server<Watcher>, a: Action<Watcher>)
      ensures var r := M.Note(s, a);
        && r.log == s.log + [a] && r.loop == s.loop && r.runQueue == s.runQueue && r.live == s.live
        && r.initialized == s.initialized && r.completed == s.completed && r.listener == s.listener
        && r.hasHandler == s.hasHandler && r.numConns == s.numConns && r.accepted == s.accepted && r.closed == s.closed
    {
    }

    /** Gives c a context, evaluates the handler in it and puts c on the run queue. */
    method Enqueue(c: Conn, completes: bool)
      requires Valid() && c in connSet && c.w !in srv.runQueue
      modifies Repr()
      ensures Valid() && srv == M.Enqueue(old(srv), c.w, completes)
      ensures Repr() == old(Repr()) && connSet == old(connSet)
    {
      hide *;
      Unpack();
      ConnFacts(c, srv);
      EnqueueFacts(srv, c.w, completes);
      ghost var r := M.Enqueue(srv, c.w, completes);
      StartContext(c, completes, srv, r);
      assert loop.Valid();
      Become(r);
    }

    lemma EnqueueFacts(s: M.Server<Watcher>, w: Watcher, completes: bool)
      requires Distinct(s.runQueue) && w !in s.runQueue
      ensures var r := M.Enqueue(s, w, completes);
        && Distinct(r.runQueue) && r.runQueue == s.runQueue + [w] && r.initialized == s.initialized + {w}
        && r.completed == (if completes then s.completed + {w} else s.completed)
        && r == s.(initialized := r.initialized, runQueue := r.runQueue, completed := r.completed)
        && r.live == s.live && r.loop == s.loop && r.listener == s.listener && r.hasHandler == s.hasHandler
        && r.numConns == s.numConns && r.accepted == s.accepted && r.closed == s.closed && r.log == s.log
    {
      M.DistinctAppend(s.runQueue, w);
    }

    /** The parser has seen the end of a message. `completes` is what the script does when it is evaluated. */
    method OnMessageComplete(c: Conn, notFound: bool, completes: bool)
      requires Valid() && c in connSet && M.Settled(srv) && c.w !in srv.initialized && c.w in srv.live
      modifies Repr()
      ensures c.w in old(srv).loop.io && old(srv).loop.io[c.w].fd >= -1
      ensures Valid() && srv == M.OnMessageComplete(old(srv), c.w, notFound, completes) && Repr() <= old(Repr())
      ensures connSet == if notFound || !hasHandler then old(connSet) - {c} else old(connSet)
    {
      hide *;
      MessageFacts(srv, c.w, notFound, completes);
      Unpack();
      StopReading(c);
      Unpack();
      if notFound {
        WriteTo(c, Reply(c.w, M.NOT_FOUND));
        CleanupConn(c);
      } else if !hasHandler {
        WriteTo(c, Reply(c.w, M.OK));
        CleanupConn(c);
      } else {
        Enqueue(c, completes);
      }
    }

    lemma MessageFacts(s: M.Server<Watcher>, w: Watcher, notFound: bool, completes: bool)
      requires M.Settled(s) && w in s.live && w !in s.initialized
      ensures w in s.loop.io && s.loop.io[w].fd >= 0 && CanStop(s.loop, w, POLLIN)
      ensures var t := s.(loop := Stop(s.loop, w, POLLIN));
        && M.CanCleanup(t, w) && w !in t.runQueue
        && M.CanCleanup(M.Note(t, Reply(w, M.NOT_FOUND)), w) && M.CanCleanup(M.Note(t, Reply(w, M.OK)), w)
        && M.OnMessageComplete(s, w, notFound, completes)
           == if notFound then M.Cleanup(M.Note(t, Reply(w, M.NOT_FOUND)), w)
              else if !s.hasHandler then M.Cleanup(M.Note(t, Reply(w, M.OK)), w)
              else M.Enqueue(t, w, completes)
    {
      hide Inv, Stop, M.Cleanup, M.CanCleanup, M.Settled, M.Enqueue, M.Note;
      M.StoppedCanCleanup(s, w);
      M.NoteKeeps(s.(loop := Stop(s.loop, w, POLLIN)), Reply(w, M.NOT_FOUND), w);
      M.NoteKeeps(s.(loop := Stop(s.loop, w, POLLIN)), Reply(w, M.OK), w);
    }

    lemma PollFacts(s: M.Server<Watcher>, w: Watcher, events: Mask, recv: M.Recv)
      requires M.Settled(s) && w in s.live && w !in s.initialized
      ensures w in s.loop.io && s.loop.io[w].fd >= 0 && M.CanCleanup(s, w)
        && M.CanCleanup(M.Note(s, Reply(w, M.TOO_LARGE)), w)
      ensures !events.pollin || recv.WouldBlock? || recv == M.Data(M.NeedMore) ==> M.OnPoll(s, w, events, recv) == s
      ensures events.pollin && (recv.Gone? || recv == M.Data(M.Malformed)) ==>
        M.OnPoll(s, w, events, recv) == M.Cleanup(s, w)
      ensures events.pollin && recv.TooLarge? ==>
        M.OnPoll(s, w, events, recv) == M.Cleanup(M.Note(s, Reply(w, M.TOO_LARGE)), w)
    {
      hide Inv, Stop, M.Cleanup, M.CanCleanup, M.Settled, M.OnMessageComplete, M.Note;
      M.SettledCanCleanup(s, w);
      M.CleanupParts(s, w);
      M.NoteKeeps(s, Reply(w, M.TOO_LARGE), w);
    }

    lemma CompleteFacts(s: M.Server<Watcher>, w: Watcher, events: Mask, p: M.Parse)
      requires M.Settled(s) && w in s.live && w !in s.initialized && events.pollin && p.Complete?
      ensures w in s.loop.io && s.loop.io[w].fd >= 0
      ensures var t := M.OnMessageComplete(s, w, p.notFound, p.completes);
        && (w in t.loop.io <==> !p.notFound && s.hasHandler)
        && (w in t.loop.io ==> t.loop.io[w].fd >= 0 && M.CanCleanup(t, w))
        && M.OnPoll(s, w, events, M.Data(p))
           == if p.thenMalformed then M.CleanupAnyway(t, w, s.loop.io[w].fd) else t
    {
      hide Inv, Stop, M.Cleanup, M.CanCleanup, M.Settled, M.OnMessageComplete, M.CleanupAnyway;
      M.OnMessageCompleteKeeps(s, w, p.notFound, p.completes);
      if !p.notFound && s.hasHandler {
        M.ThenMalformedKeeps(s, w, p.notFound, p.completes);
      }
    }

    /** A cleanup of a connection that may have been freed before. Of what it does to freed memory, if that still
        holds what it held, only the close of the descriptor has an effect. */
    method CleanupAnyway(c: Conn)
      requires Valid() && (c.w in srv.loop.io ==> c in connSet && M.CanCleanup(srv, c.w))
        && (c.w in conns <==> c.w in srv.loop.io)
      modifies Repr()
      ensures c.w in old(srv).loop.io ==> old(srv).loop.io[c.w].fd >= -1
      ensures Valid() && srv == M.CleanupAnyway(old(srv), c.w, c.w.fd) && Repr() <= old(Repr())
    {
      hide *;
      Unpack();
      AnywayFacts(srv, c.w, c.w.fd);
      if c.w in conns {
        CleanupConn(c);
      } else {
        ghost var s := srv;
        TcpClose(c.w.fd, s.numConns, s.accepted, s.closed);
        Did(Action.Free(c.w), s.log);
        assert loop.Valid() && RunQueueIs(s.runQueue, s.live) && ConnsAre(s.live, s.initialized, s.completed);
        LoopRepr();
        Become(M.CleanupAnyway(s, c.w, c.w.fd));
      }
    }

    lemma AnywayFacts(s: M.Server<Watcher>, w: Watcher, fd: int)
      requires w in s.loop.io ==> M.CanCleanup(s, w)
      ensures w in s.loop.io ==> s.loop.io[w].fd >= -1
      ensures var r := M.CleanupAnyway(s, w, fd);
        && (w in s.loop.io ==> r == M.Cleanup(s, w))
        && (w !in s.loop.io ==>
              && r.loop == s.loop && r.runQueue == s.runQueue && r.live == s.live && r.initialized == s.initialized
              && r.completed == s.completed && r.listener == s.listener && r.hasHandler == s.hasHandler
              && r.numConns == s.numConns - 1 && r.accepted == s.accepted && r.closed == s.closed + multiset{fd}
              && r.log == s.log + [Action.Free(w)])
    {
      hide M.Cleanup, Inv;
    }

    lemma FdOfConn(c: Conn)
      requires Valid() && c.w in srv.loop.io
      ensures srv.loop.io[c.w].fd == c.w.fd
    {
      hide ConnsAre, RunQueueIs;
    }

    /** Who is known to the loop besides the listener. */
    lemma KnownConns(c: Conn)
      requires Valid() && M.Settled(srv) && c.w.cb.OnPoll?
      ensures c.w in conns <==> c.w in srv.loop.io
    {
      hide EventLoop.Valid, RunQueueIs, Inv, M.CountOk, M.PhasesOk;
    }

    /** Input on a connection: len is what recv returned, parse what the parser made of it. */
    method OnPoll(c: Conn, events: Mask, len: int, parse: M.Parse)
      requires Valid() && c in connSet && M.Settled(srv) && c.w in srv.live && c.w !in srv.initialized
      modifies Repr()
      ensures c.w in old(srv).loop.io && old(srv).loop.io[c.w].fd >= -1
      ensures Valid() && srv == M.OnPoll(old(srv), c.w, events, M.Received(c.recvd, len, parse))
        && Repr() <= old(Repr())
    {
      hide M.OnPoll, M.Settled, M.CanCleanup, M.Cleanup, M.OnMessageComplete, M.CleanupAnyway, M.Note, Valid, Repr;
      PollFacts(srv, c.w, events, M.Received(c.recvd, len, parse));
      if !events.pollin {
        return;
      }
      if len <= 0 {
        if len == -2 {
          return;
        }
        CleanupConn(c);
        return;
      }
      if c.recvd + len > M.MAX_REQUEST_LEN {
        WriteTo(c, Reply(c.w, M.TOO_LARGE));
        CleanupConn(c);
        return;
      }
      Execute(c, events, parse);
    }

    /** One run of the parser, with the end of a message in it or not, and the cleanup after an error. */
    method Execute(c: Conn, ghost events: Mask, parse: M.Parse)
      requires Valid() && c in connSet && M.Settled(srv) && c.w in srv.live && c.w !in srv.initialized && events.pollin
      modifies Repr()
      ensures c.w in old(srv).loop.io && old(srv).loop.io[c.w].fd >= -1
      ensures Valid() && srv == M.OnPoll(old(srv), c.w, events, M.Data(parse)) && Repr() <= old(Repr())
    {
      hide M.OnPoll, M.Settled, M.CanCleanup, M.Cleanup, M.OnMessageComplete, M.CleanupAnyway, M.Note, Valid, Repr;
      PollFacts(srv, c.w, events, M.Data(parse));
      FdOfConn(c);
      HandlerSame();
      if parse.Complete? {
        CompleteFacts(srv, c.w, events, parse);
        IsConn(c);
        M.OnMessageCompleteKeeps(srv, c.w, parse.notFound, parse.completes);
        OnMessageComplete(c, parse.notFound, parse.completes);
        KnownConns(c);
      } else {
        IsConn(c);
        KnownConns(c);
      }
      if parse.Malformed? || (parse.Complete? && parse.thenMalformed) {
        AnywayFacts(srv, c.w, c.w.fd);
        CleanupAnyway(c);
      }
    }

    lemma IsConn(c: Conn)
      requires Valid() && c in connSet
      ensures c.w.cb.OnPoll?
    {
      hide EventLoop.Valid, RunQueueIs;
    }

    lemma HandlerSame()
      requires Valid()
      ensures srv.hasHandler == hasHandler
    {
    }

    // ---------- accepting ----------

    /** `isere_tcp_accept`, when the kernel has fd to offer. It never offers one that is open. */
    method TcpAccept(fd: int, ghost n: int, ghost a: multiset<int>, ghost c: multiset<int>) returns (newfd: int)
      requires TcpIs(n, a, c)
      modifies this`numConns, this`accepted
      ensures newfd >= 0 <==>
        && n < M.MAX_CONNECTIONS && 0 <= fd <= MAX_FD && fd != listener.fd && forall w :: w in conns ==> w.fd != fd
      ensures if newfd >= 0 then newfd == fd && TcpIs(n + 1, a + multiset{fd}, c) else TcpIs(n, a, c)
    {
      if numConns >= M.MAX_CONNECTIONS {
        return -1;
      }
      newfd := if 0 <= fd <= MAX_FD && fd != listener.fd && fd !in (set w | w in conns.Keys :: w.fd) then fd else -1;
      if newfd < 0 {
        return -1;
      }
      accepted := accepted + multiset{newfd};
      numConns := numConns + 1;
    }

    method AddToLoop(w: Watcher)
      requires loop.Valid() && Inv(loop.st) && w !in loop.st.io && w.link !in loop.Repr() && Alone(w.link)
      requires w.pevents == NONE && w.events == NONE && 0 <= w.fd <= MAX_FD
      requires forall v :: v in loop.st.io ==> loop.st.io[v].fd != w.fd
      modifies loop.Repr(), w, w.link
      ensures loop.Valid() && loop.st == Start(LoopModel.Track(old(loop.st), w, w.fd), w, POLLIN)
      ensures loop.Repr() == old(loop.Repr()) + {w, w.link}
    {
      hide *;
      LoopRepr();
      NewConnCanStart(loop.st, w);
      loop.Track(w);
      LoopRepr();
      loop.IoStart(w, POLLIN);
    }

    lemma NewConnCanStart(l: LoopState<Watcher>, w: Watcher)
      requires Inv(l) && w !in l.io && 0 <= w.fd <= MAX_FD && forall v :: v in l.io ==> l.io[v].fd != w.fd
      ensures CanStart(LoopModel.Track(l, w, w.fd), w, POLLIN)
    {
      hide TableOk, QueueOk, CoverOk, SlotsOk, GrowthOk;
      M.FreeEntry(l, w.fd);
    }

    method AddLink(c: Conn, ghost q: seq<Watcher>, ghost ws: set<Watcher>)
      requires RunQueueIs(q, ws) && c.w !in ws && c.jsLink !in jsPool && c.jsLink != jsQueue && Alone(c.jsLink)
      modifies this`conns, this`containers, this`jsPool
      ensures RunQueueIs(q, ws + {c.w})
      ensures conns == old(conns)[c.w := c] && jsPool == old(jsPool) + {c.jsLink}
    {
      hide ListOf, Names, JsEmbedded;
      NamesGrow(jsPending, containers, q, conns, ws, c);
      PoolChanges(jsQueue, jsPending, jsPool, c.jsLink);
      conns := conns[c.w := c];
      containers := containers[c.jsLink := c];
      jsPool := jsPool + {c.jsLink};
    }

    ghost method AddConnSet(c: Conn, was: map<Watcher, Conn>, live: set<Watcher>, initialized: set<Watcher>,
        completed: set<Watcher>)
      requires was.Keys == live && (forall w :: w in was ==> was[w] in connSet && was[w].w == w)
      requires forall x :: x in connSet ==> x.w in was && was[x.w] == x && x.w.cb.OnPoll?
      requires c.w.cb.OnPoll?
      requires forall x :: x in connSet ==>
        (x.jsInitialized <==> x.w in initialized) && (x.completed <==> x.w in completed)
      requires conns == was[c.w := c] && c.w !in live && c.w !in initialized && c.w !in completed
        && !c.jsInitialized && !c.completed
      modifies this`connSet
      ensures ConnsAre(live + {c.w}, initialized, completed) && connSet == old(connSet) + {c}
    {
      connSet := connSet + {c};
    }

    method AddToServer(c: Conn, ghost s: M.Server<Watcher>, ghost r: M.Server<Watcher>)
      requires ConnsAre(s.live, s.initialized, s.completed) && RunQueueIs(s.runQueue, s.live)
      requires c.w !in s.live && c.jsLink !in jsPool && c.jsLink != jsQueue && Alone(c.jsLink)
        && !c.jsInitialized && !c.completed && c.w.cb.OnPoll?
      requires c.w !in s.initialized && c.w !in s.completed
      requires r.live == s.live + {c.w} && r.initialized == s.initialized && r.completed == s.completed
        && r.runQueue == s.runQueue
      modifies this`conns, this`containers, this`connSet, this`jsPool
      ensures ConnsAre(r.live, r.initialized, r.completed) && RunQueueIs(r.runQueue, r.live)
      ensures connSet == old(connSet) + {c} && jsPool == old(jsPool) + {c.jsLink}
    {
      hide RunQueueIs;
      ghost var was := conns;
      AddLink(c, s.runQueue, s.live);
      AddConnSet(c, was, s.live, s.initialized, s.completed);
    }

    method RecordConn(c: Conn, ghost s: M.Server<Watcher>, ghost r: M.Server<Watcher>)
      requires ConnsAre(s.live, s.initialized, s.completed) && RunQueueIs(s.runQueue, s.live)
      requires c.w !in s.live && c.jsLink !in jsPool && c.jsLink != jsQueue && Alone(c.jsLink)
        && !c.jsInitialized && !c.completed && c.w.cb.OnPoll?
      requires c.w !in s.initialized && c.w !in s.completed
      requires r.live == s.live + {c.w} && r.initialized == s.initialized && r.completed == s.completed
        && r.runQueue == s.runQueue
      requires loop.Valid() && r.loop == loop.st && Distinct(s.runQueue) && c.jsLink !in loop.Repr()
      requires this !in loop.Repr() && jsQueue !in loop.Repr() && jsPool !! loop.Repr()
      requires r.listener == listener && listener.cb.OnConnected? && r.hasHandler == hasHandler
        && TcpIs(r.numConns, r.accepted, r.closed) && LogIs(r.log)
      modifies this`conns, this`containers, this`connSet, this`jsPool, this`srv
      ensures Valid() && srv == r
      ensures Repr() == {this, jsQueue, loop} + (old(connSet) + {c}) + (old(jsPool) + {c.jsLink}) + loop.Repr()
    {
      hide *;
      LoopRepr();
      AddToServer(c, s, r);
      assert loop.Valid();
      Become(r);
    }

    lemma AddConnFacts(s: M.Server<Watcher>, fd: int, w: Watcher)
      requires M.Settled(s) && w !in s.loop.io && 0 <= fd <= MAX_FD
        && forall v :: v in s.loop.io ==> s.loop.io[v].fd != fd
      ensures M.PossibleAccept(s, M.Accepted(fd, Some(w))) && Inv(s.loop)
      ensures w !in s.live && w !in s.initialized && w !in s.completed
      ensures var r := M.AddConn(s, fd, w);
        && r.loop == Start(LoopModel.Track(s.loop, w, fd), w, POLLIN) && r.live == s.live + {w}
        && r.numConns == s.numConns + 1 && r.accepted == s.accepted + multiset{fd} && r.closed == s.closed
        && r.initialized == s.initialized && r.completed == s.completed
        && r.runQueue == s.runQueue && r.log == s.log
        && r.listener == s.listener && r.hasHandler == s.hasHandler
    {
      hide Inv, M.PhaseOk, M.CountOk, Start, LoopModel.Track;
    }

    /** Makes a new connection known to the loop and to the server. */
    method Register(c: Conn, ghost s: M.Server<Watcher>)
      requires loop.Valid() && s.loop == loop.st && Distinct(s.runQueue) && M.Settled(s)
      requires s.listener == listener && listener.cb.OnConnected? && s.hasHandler == hasHandler
      requires TcpIs(s.numConns + 1, s.accepted + multiset{c.w.fd}, s.closed) && LogIs(s.log)
      requires ConnsAre(s.live, s.initialized, s.completed) && RunQueueIs(s.runQueue, s.live)
      requires this !in loop.Repr() && connSet !! loop.Repr() && jsQueue !in loop.Repr() && jsPool !! loop.Repr()
      requires 0 <= c.w.fd <= MAX_FD && c.w !in s.loop.io && forall w :: w in s.loop.io ==> s.loop.io[w].fd != c.w.fd
      requires c.w.pevents == NONE && c.w.events == NONE && c.w.cb.OnPoll? && !c.jsInitialized && !c.completed
      requires c.w.link !in {this, jsQueue, loop} + connSet + jsPool + loop.Repr() && Alone(c.w.link)
      requires c.w !in {this, jsQueue, loop} + connSet + jsPool + loop.Repr() && c !in loop.Repr() && c !in connSet
      requires c.jsLink !in jsPool + loop.Repr() && c.jsLink != jsQueue && c.jsLink != c.w.link && Alone(c.jsLink)
      modifies this, loop.Repr(), c.w, c.w.link
      ensures Valid() && srv == M.AddConn(s, c.w.fd, c.w) && M.PossibleAccept(s, M.Accepted(c.w.fd, Some(c.w)))
      ensures loop.Repr() == old(loop.Repr()) + {c.w, c.w.link}
      ensures Repr() == {this, jsQueue, loop} + old(connSet) + {c} + old(jsPool) + {c.jsLink} + loop.Repr()
    {
      hide *;
      LoopRepr();
      AddConnFacts(s, c.w.fd, c.w);
      ghost var r := M.AddConn(s, c.w.fd, c.w);
      AddToLoop(c.w);
      assert ConnsAre(s.live, s.initialized, s.completed) && RunQueueIs(s.runQueue, s.live);
      RecordConn(c, s, r);
    }

    /** The memory for the connection is there: it starts out reading. */
    method AddConnection(fd: int, ghost s: M.Server<Watcher>) returns (c: Conn)
      requires loop.Valid() && s.loop == loop.st && Distinct(s.runQueue) && M.Settled(s)
      requires s.listener == listener && listener.cb.OnConnected? && s.hasHandler == hasHandler
      requires TcpIs(s.numConns + 1, s.accepted + multiset{fd}, s.closed) && LogIs(s.log)
      requires ConnsAre(s.live, s.initialized, s.completed) && RunQueueIs(s.runQueue, s.live)
      requires this !in loop.Repr() && connSet !! loop.Repr() && jsQueue !in loop.Repr() && jsPool !! loop.Repr()
      requires 0 <= fd <= MAX_FD && forall w :: w in s.loop.io ==> s.loop.io[w].fd != fd
      modifies this, loop.Repr()
      ensures Valid() && fresh(c) && fresh(c.w) && fresh(c.w.link) && fresh(c.jsLink)
      ensures M.PossibleAccept(s, M.Accepted(fd, Some(c.w))) && srv == M.AddConn(s, fd, c.w)
      ensures loop.Repr() == old(loop.Repr()) + {c.w, c.w.link}
      ensures Repr() == {this, jsQueue, loop} + old(connSet) + {c} + old(jsPool) + {c.jsLink} + loop.Repr()
    {
      hide *;
      LoopRepr();
      c := new Conn(fd);
      LoopRepr();
      Register(c, s);
    }

    lemma ConnectFacts(s: M.Server<Watcher>, events: Mask, fd: int, w: Watcher)
      requires s.numConns < M.MAX_CONNECTIONS && events.pollin && fd >= 0
      ensures M.OnConnected(s, events, M.Accepted(fd, Some(w))) == M.AddConn(s, fd, w)
    {
    }

    lemma NoMemoryFacts(s: M.Server<Watcher>, events: Mask, fd: int)
      requires s.numConns < M.MAX_CONNECTIONS && events.pollin && fd >= 0
      ensures var r := M.OnConnected(s, events, M.Accepted(fd, None));
        && r.loop == s.loop && r.runQueue == s.runQueue && r.live == s.live && r.initialized == s.initialized
        && r.completed == s.completed && r.listener == s.listener && r.hasHandler == s.hasHandler
        && r.numConns == s.numConns && r.accepted == s.accepted + multiset{fd} && r.closed == s.closed + multiset{fd}
        && r.log == s.log
    {
    }

    lemma RefusedFacts(s: M.Server<Watcher>, events: Mask)
      ensures M.OnConnected(s, events, M.Refused) == s && M.PossibleAccept(s, M.Refused)
      ensures !events.pollin ==> forall a: M.Accept<Watcher> :: (a.Accepted? ==> a.fd >= 0) ==>
        M.OnConnected(s, events, a) == s
    {
    }

    lemma NoMemoryPossible(s: M.Server<Watcher>, fd: int)
      requires 0 <= fd <= MAX_FD && forall w :: w in s.loop.io ==> s.loop.io[w].fd != fd
      ensures M.PossibleAccept(s, M.Accepted(fd, None))
    {
    }

    /** Without memory for a connection the descriptor is closed again. */
    method NoMemory(fd: int, ghost s: M.Server<Watcher>, ghost r: M.Server<Watcher>)
      requires loop.Valid() && s.loop == loop.st && Distinct(s.runQueue)
      requires s.listener == listener && listener.cb.OnConnected? && s.hasHandler == hasHandler
      requires TcpIs(s.numConns + 1, s.accepted + multiset{fd}, s.closed) && LogIs(s.log)
      requires ConnsAre(s.live, s.initialized, s.completed) && RunQueueIs(s.runQueue, s.live)
      requires this !in loop.Repr() && jsQueue !in loop.Repr() && jsPool !! loop.Repr()
      requires r.loop == s.loop && r.runQueue == s.runQueue && r.live == s.live && r.initialized == s.initialized
      requires r.completed == s.completed && r.listener == s.listener && r.hasHandler == s.hasHandler
      requires r.numConns == s.numConns && r.accepted == s.accepted + multiset{fd}
        && r.closed == s.closed + multiset{fd}
      requires r.log == s.log
      modifies this`numConns, this`closed, this`srv
      ensures Valid() && srv == r && Repr() == {this, jsQueue, loop} + connSet + jsPool + loop.Repr()
    {
      hide *;
      LoopRepr();
      TcpClose(fd, s.numConns + 1, s.accepted + multiset{fd}, s.closed);
      assert loop.Valid();
      Become(r);
    }

    /** What follows a successful accept. */
    method Connect(fd: int, memory: bool, ghost s: M.Server<Watcher>, ghost events: Mask)
      returns (ghost a: M.Accept<Watcher>)
      requires loop.Valid() && s.loop == loop.st && Distinct(s.runQueue) && M.Settled(s)
      requires s.listener == listener && listener.cb.OnConnected? && s.hasHandler == hasHandler
      requires TcpIs(s.numConns + 1, s.accepted + multiset{fd}, s.closed) && LogIs(s.log)
        && s.numConns < M.MAX_CONNECTIONS
      requires ConnsAre(s.live, s.initialized, s.completed) && RunQueueIs(s.runQueue, s.live)
      requires this !in loop.Repr() && connSet !! loop.Repr() && jsQueue !in loop.Repr() && jsPool !! loop.Repr()
      requires 0 <= fd <= MAX_FD && events.pollin && forall w :: w in s.loop.io ==> s.loop.io[w].fd != fd
      modifies this, loop.Repr()
      ensures Valid() && M.PossibleAccept(s, a) && srv == M.OnConnected(s, events, a)
      ensures a.Accepted? && a.fd == fd && (a.conn.Some? <==> memory)
      ensures forall o :: o in Repr() ==> o in old(Repr()) || fresh(o)
    {
      hide *;
      ReprIs();
      LoopRepr();
      if memory {
        var c := AddConnection(fd, s);
        a := M.Accepted(fd, Some(c.w));
        ConnectFacts(s, events, fd, c.w);
      } else {
        NoMemoryPossible(s, fd);
        NoMemoryFacts(s, events, fd);
        a := M.Accepted(fd, None);
        NoMemory(fd, s, M.OnConnected(s, events, a));
      }
    }

    /** Input on the listening socket. `fd` and `memory` are what the kernel and the allocator have to offer. */
    method OnConnected(events: Mask, fd: int, memory: bool) returns (ghost a: M.Accept<Watcher>)
      requires Valid() && M.Settled(srv)
      modifies Repr()
      ensures Valid() && M.PossibleAccept(old(srv), a) && srv == M.OnConnected(old(srv), events, a)
      ensures AcceptAnswers(old(srv), events, fd, memory, a)
      ensures a.Accepted? ==> a.fd == fd && (a.conn.Some? <==> memory)
      ensures a.Accepted? <==>
        && events.pollin && old(srv).numConns < M.MAX_CONNECTIONS && 0 <= fd <= MAX_FD
        && forall w :: w in old(srv).loop.io ==> old(srv).loop.io[w].fd != fd
      ensures forall o :: o in Repr() ==> o in old(Repr()) || fresh(o)
    {
      hide *;
      Unpack();
      ghost var s := srv;
      RefusedFacts(s, events);
      UnusedFd(s, events, fd);
      a := M.Refused;
      AcceptFacts(s, events, fd, memory, a);
      if !events.pollin {
        return;
      }
      LoopRepr();
      ReprIs();
      var newfd := TcpAccept(fd, s.numConns, s.accepted, s.closed);
      assert loop.Valid() && ConnsAre(s.live, s.initialized, s.completed) && RunQueueIs(s.runQueue, s.live)
        && LogIs(s.log);
      LoopRepr();
      if newfd < 0 {
        Become(s);
        return;
      }
      ReprIs();
      a := Connect(newfd, memory, s, events);
      AcceptFacts(s, events, fd, memory, a);
    }

    lemma AcceptFacts(s: M.Server<Watcher>, m: Mask, fd: int, memory: bool, a: M.Accept<Watcher>)
      ensures Offered(s, m, fd) <==>
        m.pollin && s.numConns < M.MAX_CONNECTIONS && 0 <= fd <= MAX_FD
        && forall w :: w in s.loop.io ==> s.loop.io[w].fd != fd
      ensures a.Accepted? && a.fd == fd && (a.conn.Some? <==> memory) && Offered(s, m, fd) ==>
        AcceptAnswers(s, m, fd, memory, a)
      ensures a == M.Refused && !Offered(s, m, fd) ==> AcceptAnswers(s, m, fd, memory, a)
    {
    }

    /** A descriptor is open exactly if it is the listener's or a connection's. */
    lemma UnusedFd(s: M.Server<Watcher>, m: Mask, fd: int)
      requires M.Settled(s) && ConnsAre(s.live, s.initialized, s.completed) && s.listener == listener
      requires loop.Valid() && s.loop == loop.st
      ensures (forall w :: w in s.loop.io ==> s.loop.io[w].fd != fd)
        <==> fd != listener.fd && forall w :: w in conns ==> w.fd != fd
    {
      hide EventLoop.Valid, Inv, M.PhasesOk, M.CountOk;
      IosAre();
      assert listener in s.loop.io;
      assert forall w :: w in s.loop.io ==> w == listener || w in conns;
      assert forall w :: w in conns ==> w in s.loop.io;
    }

    // ---------- the poll pass ----------

    ghost method SetLoop(l: LoopState<Watcher>, phase: M.Phase)
      requires loop.Valid() && loop.st == l && Distinct(srv.runQueue)
      requires this !in loop.Repr() && jsQueue !in loop.Repr() && jsPool !! loop.Repr()
      requires srv.listener == listener && listener.cb.OnConnected? && srv.hasHandler == hasHandler
        && TcpIs(srv.numConns, srv.accepted, srv.closed) && LogIs(srv.log)
      requires ConnsAre(srv.live, srv.initialized, srv.completed) && RunQueueIs(srv.runQueue, srv.live)
      modifies this`srv
      ensures Valid() && srv == old(srv).(loop := l, phase := phase)
      ensures Repr() == {this, jsQueue, loop} + connSet + jsPool + loop.Repr()
    {
      hide *;
      LoopRepr();
      Become(srv.(loop := l, phase := phase));
    }

    lemma BeginFacts()
      requires Valid() && M.ServerInv(srv) && srv.phase.Top?
      ensures !loop.st.iterating && (loop.st.nfds == 0 ==> loop.st.queue == []) && QueueTracked(loop.st)
    {
      hide EventLoop.Valid, ConnsAre, RunQueueIs, M.FdsOk, M.PhasesOk, M.CountOk;
      IdleMeansEmpty(loop.st);
    }

    lemma PollEvent(s: M.Server<Watcher>, answer: Answer)
      requires M.ServerInv(s) && s.phase.Top?
      ensures QueueTracked(s.loop) && M.Possible(s, M.DoPoll(answer))
      ensures var l := Begin(s.loop, answer);
        M.Next(s, M.DoPoll(answer)) == s.(loop := l, phase := if l.iterating then M.Pass(0) else M.Draining)
    {
      hide Inv, M.FdsOk, M.PhasesOk, M.CountOk, Begin;
      M.PollKeeps(s, answer);
    }

    /** The start of `uv__io_poll`, up to the pass over the slots. */
    method BeginPass(answer: Answer) returns (pass: bool, ghost e: M.Event<Watcher>)
      requires Valid() && M.ServerInv(srv) && srv.phase.Top?
      modifies Repr()
      ensures M.Possible(old(srv), e) && Valid() && srv == M.Next(old(srv), e) && e == M.DoPoll(answer)
      ensures pass == srv.phase.Pass? && (pass ==> srv.phase == M.Pass(0)) && (!pass ==> srv.phase.Draining?)
      ensures forall o :: o in Repr() ==> o in old(Repr()) || fresh(o)
    {
      hide *;
      e := M.DoPoll(answer);
      Unpack();
      BeginFacts();
      PollEvent(srv, answer);
      pass := loop.BeginPoll(answer);
      LoopRepr();
      assert RunQueueIs(srv.runQueue, srv.live) && ConnsAre(srv.live, srv.initialized, srv.completed);
      SetLoop(loop.st, if pass then M.Pass(0) else M.Draining);
    }

    /** The loop's part of visiting slot i. */
    method VisitLoop(i: nat) returns (target: Option<(Watcher, Mask)>)
      requires Valid() && M.ServerInv(srv) && srv.phase == M.Pass(i) && i < |srv.loop.slots|
      modifies Repr()
      ensures Valid() && srv == old(srv).(loop := Visit(old(srv).loop, i)) && target == Target(old(srv).loop, i)
      ensures Repr() == old(Repr()) && connSet == old(connSet)
    {
      hide *;
      Unpack();
      SlotFacts(srv, i);
      target := loop.VisitSlot(i);
      LoopRepr();
      assert RunQueueIs(srv.runQueue, srv.live) && ConnsAre(srv.live, srv.initialized, srv.completed);
      SetLoop(loop.st, srv.phase);
    }

    lemma SlotFacts(s: M.Server<Watcher>, i: nat)
      requires M.ServerInv(s) && s.phase == M.Pass(i) && i < |s.loop.slots|
      ensures s.loop.iterating && -1 <= s.loop.slots[i].fd < |s.loop.watchers|
      ensures s.loop.WatcherOf(s.loop.slots[i].fd).Some? ==> s.loop.WatcherOf(s.loop.slots[i].fd).value in s.loop.io
    {
      hide TableOk, QueueOk, CoverOk, GrowthOk, M.FdsOk, M.PhasesOk, M.CountOk;
    }

    /** The state in which the callback of a visit starts, and whom it is for. */
    lemma VisitFacts(s: M.Server<Watcher>, i: nat, recv: M.Recv, a: M.Accept<Watcher>)
      requires M.ServerInv(s) && s.phase == M.Pass(i) && i < |s.loop.slots| && M.PossibleAccept(s, a)
      ensures var t := s.(loop := Visit(s.loop, i)); var target := Target(s.loop, i);
        && M.Settled(t) && M.PossibleAccept(t, a)
        && M.Feasible(s, M.Visited(recv, a))
        && (target.None? ==> M.Next(s, M.Visited(recv, a)) == t.(phase := M.Pass(i + 1)))
        && (target.Some? ==> var (w, m) := target.value;
             && w in t.loop.io && t.loop.io[w].fd >= -1
             && (w != s.listener ==> w in t.live && w !in t.initialized)
             && M.Next(s, M.Visited(recv, a))
                == (if w == s.listener then M.OnConnected(t, m, a)
                    else M.OnPoll(t, w, m, recv)).(phase := M.Pass(i + 1)))
    {
      hide Inv, Visit, Target, M.OnConnected, M.OnPoll, M.FdsOk, M.PhasesOk, M.CountOk;
      M.LiveTracked(s);
      M.VisitKeepsWatchers(s.loop, i);
      M.SameWatchers(s, Visit(s.loop, i));
      if Target(s.loop, i).Some? {
        var w := Target(s.loop, i).value.0;
        M.TargetRegistered(s.loop, i);
        if w != s.listener { M.ReadingWhenRegistered(s, w); }
      }
    }

    lemma WhomTo(w: Watcher)
      requires Valid() && w in srv.loop.io && (w != srv.listener ==> w in srv.live)
      ensures w.cb.OnConnected? <==> w == srv.listener
      ensures w != srv.listener ==> w in conns && conns[w] in connSet && conns[w].w == w && w in srv.live
    {
      hide EventLoop.Valid, RunQueueIs, Apart;
    }

    lemma SameIoAccept(s: M.Server<Watcher>, i: nat, a: M.Accept<Watcher>)
      requires M.ServerInv(s) && s.phase == M.Pass(i) && i < |s.loop.slots|
      ensures M.PossibleAccept(s.(loop := Visit(s.loop, i)), a) ==> M.PossibleAccept(s, a)
      ensures M.PossibleAccept(s, M.Refused)
    {
      hide Inv, Visit, M.FdsOk, M.PhasesOk, M.CountOk;
      M.VisitKeepsWatchers(s.loop, i);
    }

    /** Calls back the watcher of a slot. */
    method CallBack(w: Watcher, m: Mask, input: Input) returns (ghost recv: M.Recv, ghost a: M.Accept<Watcher>)
      requires Valid() && M.Settled(srv) && w in srv.loop.io && srv.loop.io[w].fd >= -1
      requires w != srv.listener ==> w in srv.live && w !in srv.initialized
      modifies Repr()
      ensures Valid() && M.PossibleAccept(old(srv), a) && CallAnswers(old(srv), Some((w, m)), input, recv, a)
      ensures srv == if w == old(srv).listener then M.OnConnected(old(srv), m, a) else M.OnPoll(old(srv), w, m, recv)
      ensures forall o :: o in Repr() ==> o in old(Repr()) || fresh(o)
    {
      hide *;
      WhomTo(w);
      match w.cb
      case OnConnected =>
        recv := M.WouldBlock;
        ghost var s := srv;
        a := OnConnected(m, input.fd, input.memory);
        CallFacts(s, w, m, input, recv, a);
      case OnPoll =>
        a := M.Refused;
        RefusedFacts(srv, m);
        var c := conns[w];
        NothingReceived(c);
        recv := M.Received(c.recvd, input.len, input.parse);
        CallFacts(srv, w, m, input, recv, a);
        OnPoll(c, m, input.len, input.parse);
    }

    lemma NothingReceived(c: Conn)
      ensures c.recvd == 0
    {
    }

    lemma CallFacts(s: M.Server<Watcher>, w: Watcher, m: Mask, input: Input, recv: M.Recv, a: M.Accept<Watcher>)
      requires if w == s.listener then recv == M.WouldBlock && AcceptAnswers(s, m, input.fd, input.memory, a)
               else a == M.Refused && recv == M.Received(0, input.len, input.parse)
      ensures CallAnswers(s, Some((w, m)), input, recv, a)
    {
    }

    ghost method SetPhase(phase: M.Phase)
      requires Valid()
      modifies this`srv
      ensures Valid() && srv == old(srv).(phase := phase) && Repr() == old(Repr())
    {
      hide *;
      Unpack();
      ReprIs();
      Become(srv.(phase := phase));
    }

    /** One iteration of the dispatch pass. */
    method VisitSlot(i: nat, input: Input) returns (ghost e: M.Event<Watcher>)
      requires Valid() && M.ServerInv(srv) && srv.phase == M.Pass(i) && i < |srv.loop.slots|
      modifies Repr()
      ensures M.Feasible(old(srv), e) && Valid() && srv == M.Next(old(srv), e)
      ensures e.Visited? && CallAnswers(old(srv), Target(old(srv).loop, i), input, e.recv, e.accept)
      ensures forall o :: o in Repr() ==> o in old(Repr()) || fresh(o)
    {
      hide *;
      ghost var s := srv;
      ReprIs();
      SameIoAccept(s, i, M.Refused);
      ghost var recv, a := M.WouldBlock, M.Refused;
      VisitFacts(s, i, recv, a);
      var target := VisitLoop(i);
      ghost var t := srv;
      if target.Some? {
        recv, a := CallBack(target.value.0, target.value.1, input);
        SameIoAccept(s, i, a);
        VisitFacts(s, i, recv, a);
      }
      SameCall(s, i, target, input, recv, a);
      ReprIs();
      SetPhase(M.Pass(i + 1));
      e := M.Visited(recv, a);
    }

    /** The loop's part of a visit makes no difference to what the callback gets. */
    lemma SameCall(s: M.Server<Watcher>, i: nat, target: Option<(Watcher, Mask)>, input: Input, recv: M.Recv,
        a: M.Accept<Watcher>)
      requires M.ServerInv(s) && s.phase == M.Pass(i) && i < |s.loop.slots|
      requires target.Some? ==> CallAnswers(s.(loop := Visit(s.loop, i)), target, input, recv, a)
      requires target.None? ==> recv == M.WouldBlock && a == M.Refused
      ensures CallAnswers(s, target, input, recv, a)
    {
      hide Inv, Visit, M.FdsOk, M.PhasesOk, M.CountOk;
      M.VisitKeepsWatchers(s.loop, i);
    }

    lemma EndFacts(s: M.Server<Watcher>, i: nat)
      requires M.ServerInv(s) && s.phase == M.Pass(i) && i >= |s.loop.slots|
      ensures var e := M.Visited(M.WouldBlock, M.Refused);
        && M.Possible(s, e) && M.Next(s, e) == s.(loop := s.loop.(iterating := false), phase := M.Draining)
        && forall input :: CallAnswers(s, None, input, e.recv, e.accept)
    {
      hide Inv, M.FdsOk, M.PhasesOk, M.CountOk;
    }

    /** The end of the pass. */
    method EndPass() returns (ghost e: M.Event<Watcher>)
      requires Valid() && M.ServerInv(srv) && srv.phase.Pass? && srv.phase.i >= |srv.loop.slots|
      modifies Repr()
      ensures M.Possible(old(srv), e) && Valid() && srv == M.Next(old(srv), e) && Repr() == old(Repr())
        && srv.phase.Draining?
      ensures e.Visited? && forall input :: CallAnswers(old(srv), None, input, e.recv, e.accept)
    {
      hide *;
      Unpack();
      EndFacts(srv, srv.phase.i);
      e := M.Visited(M.WouldBlock, M.Refused);
      loop.EndPoll();
      LoopRepr();
      assert RunQueueIs(srv.runQueue, srv.live) && ConnsAre(srv.live, srv.initialized, srv.completed);
      SetLoop(loop.st, M.Draining);
    }

    lemma SlotsUsed()
      requires Valid()
      ensures loop.polls.used == |srv.loop.slots|
    {
      hide ConnsAre, RunQueueIs;
    }

    lemma PassFacts(s: M.Server<Watcher>, e: M.Event<Watcher>)
      requires M.ServerInv(s) && M.Possible(s, e)
      ensures M.ServerInv(M.Next(s, e))
      ensures s.phase.Pass? && s.phase.i < |s.loop.slots| ==>
        M.Next(s, e).phase == M.Pass(s.phase.i + 1) && |M.Next(s, e).loop.slots| == |s.loop.slots|
      ensures M.Run(s, [e]) == M.Next(s, e)
    {
      hide Inv, M.FdsOk, M.PhasesOk, M.CountOk, M.VisitOne, M.DrainOne;
      M.NextKeepsInv(s, e);
      assert [e][1..] == [];
      if s.phase.Pass? && s.phase.i < |s.loop.slots| {
        M.VisitOneKeeps(s, s.phase.i, e.recv, e.accept);
      }
    }

    /** The visit of slot i, as an event that the round leads to. */
    method AnswerSlot(i: nat, inputs: seq<Input>, ghost answer: Answer, ghost ticks: map<int, seq<Tick>>)
      returns (ghost e: M.Event<Watcher>)
      requires Valid() && M.ServerInv(srv) && srv.phase == M.Pass(i) && i < |srv.loop.slots|
        && AllTolerable(hasHandler, inputs)
      modifies Repr()
      ensures M.Possible(old(srv), e) && Valid() && M.ServerInv(srv) && srv == M.Next(old(srv), e) && NoPoll([e])
      ensures EventAnswers(old(srv), answer, inputs, ticks, e) && LeftAfter(old(srv), ticks) == ticks
      ensures srv.phase == M.Pass(i + 1) && |srv.loop.slots| == |old(srv).loop.slots|
      ensures forall o :: o in Repr() ==> o in old(Repr()) || fresh(o)
    {
      hide *;
      ghost var s := srv;
      HandlerSame();
      e := VisitSlot(i, InputAt(inputs, i));
      InputTolerable(hasHandler, inputs, i);
      SlotAnswers(s, i, answer, inputs, ticks, e);
    }

    lemma SlotAnswers(s: M.Server<Watcher>, i: nat, answer: Answer, inputs: seq<Input>, ticks: map<int, seq<Tick>>,
        e: M.Event<Watcher>)
      requires M.ServerInv(s) && s.phase == M.Pass(i) && i < |s.loop.slots|
        && Tolerable(s.hasHandler, InputAt(inputs, i))
      requires M.Feasible(s, e) && e.Visited? && CallAnswers(s, Target(s.loop, i), InputAt(inputs, i), e.recv, e.accept)
      ensures M.Possible(s, e) && M.ServerInv(M.Next(s, e)) && NoPoll([e])
      ensures EventAnswers(s, answer, inputs, ticks, e) && LeftAfter(s, ticks) == ticks
      ensures M.Next(s, e).phase == M.Pass(i + 1) && |M.Next(s, e).loop.slots| == |s.loop.slots|
    {
      hide Inv, M.FdsOk, M.PhasesOk, M.CountOk, CallAnswers, Tolerable, M.Possible, EventAnswers, M.Next;
      TolerableVisit(s, InputAt(inputs, i), e);
      VisitAnswers(s, answer, inputs, ticks, e);
      PassFacts(s, e);
      PollsMore([], [e], answer);
    }

    /** `uv__io_poll`. The callbacks change the loop while the pass is on. */
    method IoPoll(answer: Answer, inputs: seq<Input>, ghost ticks: map<int, seq<Tick>>)
      returns (ghost history: seq<M.Event<Watcher>>)
      requires Valid() && M.ServerInv(srv) && srv.phase.Top? && AllTolerable(hasHandler, inputs)
      modifies Repr()
      ensures Valid() && M.ServerInv(srv) && srv == M.Run(old(srv), history) && srv.phase.Draining?
      ensures Answers(old(srv), Round(answer, inputs, ticks), history) && Left(old(srv), ticks, history) == ticks
      ensures OnePoll(history, answer) && Dispatched(old(srv), inputs, history)
      ensures forall o :: o in Repr() ==> o in old(Repr()) || fresh(o)
    {
      hide *;
      ghost var s0, round := srv, Round(answer, inputs, ticks);
      AnswersNothing(s0, round);
      PollAnswers(s0, answer, inputs, ticks);
      PollsMore<Watcher>([], [], answer);
      var pass, e := BeginPass(answer);
      Extend(s0, round, [], e);
      history := [e];
      assert [] + [e] == [e];
      if !pass {
        NotInPass(srv);
        VisitsCarryInputs(s0, round, history);
        return;
      }
      var i := 0;
      SlotsUsed();
      while i < loop.polls.used
        invariant Valid() && M.ServerInv(s0) && M.ServerInv(srv) && srv == M.Run(s0, history)
        invariant Answers(s0, round, history) && Left(s0, ticks, history) == ticks && OnePoll(history, answer)
        invariant srv.phase == M.Pass(i) && loop.polls.used == |srv.loop.slots| && i <= |srv.loop.slots|
        invariant forall o :: o in Repr() ==> o in old(Repr()) || fresh(o)
        decreases |srv.loop.slots| - i
      {
        ghost var e := AnswerSlot(i, inputs, answer, ticks);
        Extend(s0, round, history, e);
        PollsMore(history, [e], answer);
        history := history + [e];
        i := i + 1;
        SlotsUsed();
      }
      ghost var s := srv;
      ghost var e' := EndPass();
      VisitAnswers(s, answer, inputs, ticks, e');
      Extend(s0, round, history, e');
      PollsMore(history, [e'], answer);
      history := history + [e'];
      NotInPass(srv);
      VisitsCarryInputs(s0, round, history);
    }

    lemma NotInPass(s: M.Server<Watcher>)
      requires s.phase.Draining?
      ensures !s.phase.Pass?
    {
    }

    // ---------- the drain loop ----------

    lemma FirstQueued(q: seq<Watcher>, ws: set<Watcher>)
      requires RunQueueIs(q, ws) && q != [] && Distinct(q)
      ensures jsPending != [] && IsRing(jsQueue, jsPending) && jsPending[0] in containers && jsPending[0] in jsPool
      ensures q[0] in ws && q[0] in conns && containers[jsPending[0]] == conns[q[0]]
        && conns[q[0]].jsLink == jsPending[0]
      ensures conns[q[0]].w == q[0]
      ensures Without(jsPending, jsPending[0]) == jsPending[1..] && Names(jsPending[1..], containers, q[1..])
      ensures Distinct(q[1..]) && q[0] !in q[1..]
    {
      hide Alone;
      assert IndexOf(jsPending, jsPending[0]) == 0;
      assert jsPending[0] in jsPending;
    }

    method PopFirst(ghost q: seq<Watcher>, ghost ws: set<Watcher>) returns (c: Conn)
      requires RunQueueIs(q, ws) && q != [] && Distinct(q)
      modifies this`jsPending, jsQueue, jsPool
      ensures RunQueueIs(q[1..], ws) && q[0] in ws && q[0] in conns && c == conns[q[0]] && c.w == q[0]
      ensures Distinct(q[1..]) && q[0] !in q[1..]
    {
      hide IsRing, Distinct, Without, IndexOf, Alone;
      FirstQueued(q, ws);
      var l := Ring.Head(jsQueue, jsPending);
      Ring.Delist(jsQueue, l, jsPending, jsPool);
      jsPending := jsPending[1..];
      c := containers[l];
    }

    method SetCompleted(c: Conn, ghost live: set<Watcher>, ghost initialized: set<Watcher>,
        ghost completed: set<Watcher>)
      requires ConnsAre(live, initialized, completed) && c in connSet
      modifies c`completed
      ensures ConnsAre(live, initialized, completed + {c.w})
    {
      c.completed := true;
    }

    /** One poll of a context. If the engine calls the response callback, the response is complete. */
    method PollContext(c: Conn, t: Tick, ghost s: M.Server<Watcher>) returns (pending: int)
      requires ConnsAre(s.live, s.initialized, s.completed) && c in connSet && s.runQueue != [] && s.runQueue[0] == c.w
      modifies c`completed
      ensures ConnsAre(s.live, s.initialized, M.Pop(s, t).completed) && pending == JsPoll(t)
    {
      hide ConnsAre;
      if t.completes {
        SetCompleted(c, s.live, s.initialized, s.completed);
      }
      pending := JsPoll(t);
    }

    lemma PopFacts(s: M.Server<Watcher>, t: Tick)
      requires s.runQueue != []
      ensures var v := M.Pop(s, t);
        && v.loop == s.loop && v.runQueue == s.runQueue[1..] && v.live == s.live && v.initialized == s.initialized
        && v.log == s.log + [RunQueue.Action.Poll(s.runQueue[0])]
        && v.numConns == s.numConns && v.accepted == s.accepted && v.closed == s.closed
        && v.listener == s.listener && v.hasHandler == s.hasHandler
    {
    }

    /** Takes the head off the queue and polls its context. */
    method PopAndPoll(t: Tick) returns (c: Conn, callbacked: bool, pending: int)
      requires Valid() && srv.runQueue != []
      modifies Repr()
      ensures Valid() && srv == M.Pop(old(srv), t) && c.w == old(srv.runQueue)[0] && c in connSet && c.w in srv.live
      ensures (callbacked <==> c.w in old(srv.completed)) && pending == JsPoll(t)
      ensures Repr() == old(Repr()) && connSet == old(connSet)
    {
      hide *;
      ghost var s := srv;
      Unpack();
      PopFacts(s, t);
      c := PopFirst(s.runQueue, s.live);
      assert loop.Valid() && ConnsAre(s.live, s.initialized, s.completed);
      ConnOfLive(c, s);
      callbacked := c.completed;
      pending := PollPopped(c, t, s);
    }

    /** Polls a context that has just been taken off the queue. */
    method PollPopped(c: Conn, t: Tick, ghost s: M.Server<Watcher>) returns (pending: int)
      requires c in connSet && s.runQueue != [] && s.runQueue[0] == c.w && loop.Valid() && s.loop == loop.st
      requires this !in loop.Repr() && connSet !! loop.Repr() && jsQueue !in loop.Repr() && jsPool !! loop.Repr()
      requires s.listener == listener && listener.cb.OnConnected? && s.hasHandler == hasHandler
        && TcpIs(s.numConns, s.accepted, s.closed) && LogIs(s.log)
      requires ConnsAre(s.live, s.initialized, s.completed) && RunQueueIs(s.runQueue[1..], s.live)
        && Distinct(s.runQueue[1..])
      modifies c`completed, this`log, this`srv
      ensures Valid() && srv == M.Pop(s, t) && pending == JsPoll(t)
      ensures Repr() == old({this, jsQueue, loop} + connSet + jsPool + loop.Repr())
    {
      hide *;
      LoopRepr();
      PopFacts(s, t);
      pending := PollContext(c, t, s);
      Did(RunQueue.Action.Poll(c.w), s.log);
      assert loop.Valid() && RunQueueIs(s.runQueue[1..], s.live)
        && ConnsAre(s.live, s.initialized, M.Pop(s, t).completed);
      LoopRepr();
      Become(M.Pop(s, t));
    }

    lemma ConnOfLive(c: Conn, s: M.Server<Watcher>)
      requires ConnsAre(s.live, s.initialized, s.completed) && c.w in conns && conns[c.w] == c
      ensures c in connSet && (c.completed <==> c.w in s.completed)
    {
    }

    lemma DrainFacts(s: M.Server<Watcher>, t: Tick)
      requires M.Settled(s) && s.runQueue != []
      ensures var w, v := s.runQueue[0], M.Pop(s, t);
        && w in s.loop.io && s.loop.io[w].fd >= 0 && M.CanCleanup(v, w) && M.CanCleanup(M.Note(v, Write(w)), w)
        && w !in v.runQueue && v.initialized + {w} == v.initialized
        && M.DrainOne(s, t) == match Decide(w in s.completed, JsPoll(t))
                               case Requeue => v.(runQueue := v.runQueue + [w])
                               case WriteBack => M.Cleanup(M.Note(v, Write(w)), w)
                               case Abandon => M.Cleanup(v, w)
    {
      hide Inv, M.FdsOk, M.PhasesOk, M.PhasesBut, M.CountOk, M.Cleanup, M.CanCleanup, M.Settled, M.Pop, M.Note;
      M.PopCanCleanup(s, t);
      M.NoteKeeps(M.Pop(s, t), Write(s.runQueue[0]), s.runQueue[0]);
    }

    /** Puts a polled connection back at the end of the queue. */
    method Requeue(c: Conn)
      requires Valid() && c in connSet && c.w in srv.live && c.w !in srv.runQueue
      modifies Repr()
      ensures Valid() && srv == old(srv).(runQueue := old(srv).runQueue + [c.w]) && Repr() == old(Repr())
    {
      hide *;
      Unpack();
      ConnFacts(c, srv);
      M.DistinctAppend(srv.runQueue, c.w);
      AppendContext(c, srv.runQueue, srv.live);
      assert loop.Valid() && ConnsAre(srv.live, srv.initialized, srv.completed);
      LoopRepr();
      Become(srv.(runQueue := srv.runQueue + [c.w]));
    }

    /** One iteration of the drain loop. */
    method DrainOne(t: Tick)
      requires Valid() && M.Settled(srv) && srv.runQueue != []
      modifies Repr()
      ensures old(srv).runQueue[0] in old(srv).loop.io && old(srv).loop.io[old(srv).runQueue[0]].fd >= -1
      ensures Valid() && srv == M.DrainOne(old(srv), t) && Repr() <= old(Repr())
    {
      hide M.Settled, Valid, Repr, M.CanCleanup, M.Cleanup, M.Pop, M.DrainOne, M.Note, EventLoop.Valid, EventLoop.Repr;
      DrainFacts(srv, t);
      var c, callbacked, pending := PopAndPoll(t);
      // add back to the queue if there is work left
      if !callbacked && pending != 0 {
        if pending >= 0 {
          Requeue(c);
          return;
        }
      } else {
        WriteTo(c, Write(c.w));
      }
      CleanupConn(c);
    }

    /** The descriptor of the connection at the head. */
    method HeadDescriptor() returns (fd: int)
      requires Valid() && srv.runQueue != []
      ensures Valid() && srv.runQueue[0] in srv.live && (srv.runQueue[0] in srv.loop.io ==> fd == HeadFd(srv))
    {
      hide EventLoop.Valid, Distinct, Alone;
      assert jsPending[0] in containers && containers[jsPending[0]].w == srv.runQueue[0];
      var l := Ring.Head(jsQueue, jsPending);
      fd := containers[l].w.fd;
      IosAre();
    }

    method QueueEmpty() returns (b: bool)
      requires Valid()
      ensures Valid() && (b <==> srv.runQueue == [])
    {
      hide EventLoop.Valid, ConnsAre, JsEmbedded;
      b := Ring.Empty(jsQueue);
    }

    /** One iteration with the engine's next answer for the head, as an event that the round leads to. */
    method DrainTurn(rest: map<int, seq<Tick>>, ghost e: Engine<Watcher>, ghost answer: Answer,
        ghost inputs: seq<Input>)
      returns (left: map<int, seq<Tick>>, ghost event: M.Event<Watcher>)
      requires Valid() && M.ServerInv(srv) && srv.phase.Draining? && srv.runQueue != [] && Agreed(srv, e, rest)
      modifies Repr()
      ensures M.Possible(old(srv), event) && Valid() && M.ServerInv(srv) && srv == M.Next(old(srv), event)
      ensures srv.phase.Draining? && Repr() <= old(Repr()) && NoPoll([event])
      ensures EventAnswers(old(srv), answer, inputs, rest, event) && LeftAfter(old(srv), rest) == left
      ensures var next := e.After(old(srv).runQueue[0]);
        && Agreed(srv, next, left) && Distinct(srv.runQueue) && Distinct(old(srv).runQueue)
        && srv.log + Drain(srv.runQueue, next) == old(srv).log + Drain(old(srv).runQueue, e)
        && Work(srv.runQueue, next) < Work(old(srv).runQueue, e)
    {
      hide *;
      ghost var s := srv;
      ServerScript.DrainTurn(s, e, rest);
      DrainAnswers(s, answer, inputs, rest);
      var fd := HeadDescriptor();
      var t := NextTick(rest, fd);
      left := Used(rest, fd);
      event := M.DoDrain(t);
      PollsMore<Watcher>([], [], answer);
      TurnIs(s, t);
      DrainOne(t);
    }

    lemma TurnIs(s: M.Server<Watcher>, t: Tick)
      requires M.ServerInv(s) && s.phase.Draining? && s.runQueue != []
      ensures M.Settled(s) && M.Possible(s, M.DoDrain(t)) && s.runQueue[0] in s.loop.io
        && s.loop.io[s.runQueue[0]].fd >= -1
      ensures M.Next(s, M.DoDrain(t)) == M.DrainOne(s, t)
    {
      hide Inv, M.FdsOk, M.PhasesOk, M.CountOk, M.DrainOne;
      M.DrainOneKeeps(s, t);
    }

    /** The drain loop, run until the queue is empty. `ticks` is what the engine will answer. */
    method DrainRunQueue(ticks: map<int, seq<Tick>>, ghost answer: Answer, ghost inputs: seq<Input>)
      returns (ghost history: seq<M.Event<Watcher>>)
      requires Valid() && M.ServerInv(srv) && srv.phase.Draining?
      modifies Repr()
      ensures Valid() && srv == M.Run(old(srv), history) && M.ServerInv(srv) && srv.phase.Top? && srv.runQueue == []
      ensures Answers(old(srv), Round(answer, inputs, ticks), history) && NoPoll(history)
      ensures old(srv).live <= old(srv).loop.io.Keys && Distinct(old(srv).runQueue)
      ensures log == old(log) + Drain(old(srv).runQueue, EngineOf(old(srv), ticks))
      ensures forall c :: c in old(srv).live ==>
        c in old(srv).loop.io && TreatedAlone(old(srv), ticks, log[|old(log)|..], c)
      ensures Repr() <= old(Repr())
    {
      hide *;
      ghost var s0, round := srv, Round(answer, inputs, ticks);
      EngineAgrees(s0, ticks);
      AnswersNothing(s0, round);
      LogOf();
      ghost var e := EngineOf(s0, ticks);
      var rest := ticks;
      history := [];
      PollsMore<Watcher>([], [], answer);
      var empty := QueueEmpty();
      while !empty
        invariant Valid() && M.ServerInv(s0) && M.ServerInv(srv) && srv == M.Run(s0, history) && srv.phase.Draining?
        invariant Answers(s0, round, history) && Left(s0, ticks, history) == rest && NoPoll(history)
        invariant Agreed(srv, e, rest) && Distinct(s0.runQueue) && Distinct(srv.runQueue)
        invariant srv.log + Drain(srv.runQueue, e) == s0.log + Drain(s0.runQueue, EngineOf(s0, ticks))
        invariant (empty <==> srv.runQueue == []) && Repr() <= old(Repr())
        decreases Work(srv.runQueue, e)
      {
        ghost var s := srv;
        ghost var event;
        rest, event := DrainTurn(rest, e, answer, inputs);
        Extend(s0, round, history, event);
        PollsMore(history, [event], answer);
        history := history + [event];
        e := e.After(s.runQueue[0]);
        empty := QueueEmpty();
      }
      NothingToDrain(srv, e);
      ghost var event := FinishDrain(answer, inputs, rest);
      Extend(s0, round, history, event);
      PollsMore(history, [event], answer);
      history := history + [event];
      LogOf();
      AllTreatedAlone(s0, ticks, log);
    }

    lemma AllTreatedAlone(s: M.Server<Watcher>, ticks: map<int, seq<Tick>>, l: seq<Action<Watcher>>)
      requires M.ServerInv(s) && s.live <= s.loop.io.Keys && Distinct(s.runQueue)
      requires l == s.log + Drain(s.runQueue, EngineOf(s, ticks))
      ensures |s.log| <= |l| && forall c :: c in s.live ==> c in s.loop.io && TreatedAlone(s, ticks, l[|s.log|..], c)
    {
      hide M.ServerInv, Drain, EngineOf, Distinct, TreatedAlone;
      forall c | c in s.live ensures TreatedAlone(s, ticks, l[|s.log|..], c) {
        DrainByDescriptor(s, ticks, c);
      }
    }

    lemma LogOf()
      requires Valid()
      ensures log == srv.log
    {
    }

    lemma NothingToDrain(s: M.Server<Watcher>, e: Engine<Watcher>)
      requires s.runQueue == []
      ensures Distinct(s.runQueue) && s.log + Drain(s.runQueue, e) == s.log
    {
      assert Drain(s.runQueue, e) == [];
    }

    ghost method FinishDrain(answer: Answer, inputs: seq<Input>, ticks: map<int, seq<Tick>>)
      returns (event: M.Event<Watcher>)
      requires Valid() && M.ServerInv(srv) && srv.phase.Draining? && srv.runQueue == []
      modifies Repr()
      ensures M.Possible(old(srv), event) && Valid() && srv == M.Next(old(srv), event) && srv.phase.Top?
        && srv.runQueue == []
      ensures EventAnswers(old(srv), answer, inputs, ticks, event) && LeftAfter(old(srv), ticks) == ticks
        && NoPoll([event])
      ensures srv.log == old(srv).log && Repr() == old(Repr())
    {
      hide *;
      LastTurn(srv);
      DrainAnswers(srv, answer, inputs, ticks);
      PollsMore<Watcher>([], [], answer);
      event := M.DoDrain(IDLE);
      ReprIs();
      SetPhase(M.Top);
    }

    // ---------- the server task ----------

    lemma QueueNeedsHandler(s: M.Server<Watcher>)
      requires M.ServerInv(s)
      ensures s.runQueue != [] ==> s.hasHandler
    {
      hide Inv, M.CountOk;
      if s.runQueue != [] {
        var c := s.runQueue[0];
        assert c in s.runQueue && c in s.live && c != s.listener && M.PhaseOk(s, c);
      }
    }

    /** One round of the server task: a poll, and the drain loop if there is a handler. */
    method Serve(round: Round) returns (ghost history: seq<M.Event<Watcher>>)
      requires Valid() && M.ServerInv(srv) && srv.phase.Top? && AllTolerable(hasHandler, round.inputs)
      modifies Repr()
      ensures Valid() && M.ServerInv(srv) && srv == M.Run(old(srv), history) && srv.phase.Top?
      ensures RoundAnswers(old(srv), round, history)
      ensures forall o :: o in Repr() ==> o in old(Repr()) || fresh(o)
    {
      hide *;
      ghost var s0 := srv;
      history := IoPoll(round.answer, round.inputs, round.ticks);
      ghost var s1, h := srv, [];
      Unpack();
      if !hasHandler {
        QueueNeedsHandler(srv);
        AnswersNothing(s1, round);
        ghost var event := FinishDrain(round.answer, round.inputs, round.ticks);
        Extend(s1, round, [], event);
        assert [] + [event] == [event];
        h := [event];
      } else {
        h := DrainRunQueue(round.ticks, round.answer, round.inputs);
      }
      AnswersAppend(s0, round, history, h);
      PollsMore(history, h, round.answer);
      history := history + h;
      RoundIs(s0, round, history);
    }

    lemma RoundIs(s: M.Server<Watcher>, round: Round, h: seq<M.Event<Watcher>>)
      requires M.ServerInv(s) && Answers(s, round, h) && M.Run(s, h).phase.Top? && OnePoll(h, round.answer)
      ensures M.ServerInv(M.Run(s, h)) && RoundAnswers(s, round, h)
    {
      hide M.ServerInv, Answers, M.Run;
    }

    lemma ExitFacts(s: M.Server<Watcher>)
      requires M.ServerInv(s) && s.phase.Top?
      ensures s.listener in s.loop.io && CanStop(s.loop, s.listener, POLLIN) && M.Possible(s, M.Exit)
      ensures M.Next(s, M.Exit) == s.(loop := Stop(s.loop, s.listener, POLLIN), phase := M.Halted)
      ensures var l := Stop(s.loop, s.listener, POLLIN); s.listener in l.io && l.io[s.listener].pevents == NONE
    {
      hide Inv, M.PhasesOk, M.CountOk, Stop;
      M.LiveTracked(s);
      M.StopConn(s.loop, s.listener);
    }

    lemma MaskOf(w: Watcher)
      requires loop.Valid() && w in loop.st.io
      ensures loop.st.io[w].pevents == w.pevents
    {
    }

    /** The end of the server task: the listener is stopped. */
    method Shutdown() returns (ghost event: M.Event<Watcher>)
      requires Valid() && M.ServerInv(srv) && srv.phase.Top?
      modifies Repr()
      ensures M.Possible(old(srv), event) && Valid() && srv == M.Next(old(srv), event) && srv.phase.Halted?
      ensures event == M.Exit && listener.pevents == NONE
    {
      hide *;
      Unpack();
      ExitFacts(srv);
      event := M.Exit;
      loop.IoStop(listener, POLLIN);
      MaskOf(listener);
      LoopRepr();
      assert RunQueueIs(srv.runQueue, srv.live) && ConnsAre(srv.live, srv.initialized, srv.completed);
      SetLoop(loop.st, M.Halted);
    }

    /** The server task for any number of rounds, each of which does what its offers lead to. */
    method Task(rounds: seq<Round>) returns (ghost histories: seq<seq<M.Event<Watcher>>>)
      requires Valid() && M.ServerInv(srv) && srv.phase.Top?
      requires forall i :: 0 <= i < |rounds| ==> AllTolerable(hasHandler, rounds[i].inputs)
      modifies Repr()
      ensures RoundsAnswer(old(srv), rounds, histories)
      ensures Valid() && srv == M.Run(old(srv), Flat(histories) + [M.Exit]) && srv.phase.Halted?
      ensures listener.pevents == NONE
    {
      hide *;
      ghost var s0 := srv;
      histories := [];
      NoRounds(s0, rounds);
      var i := 0;
      while i < |rounds|
        invariant i <= |rounds| && Valid() && M.ServerInv(s0) && M.ServerInv(srv) && srv.phase.Top?
        invariant RoundsAnswer(s0, rounds[..i], histories) && srv == M.Run(s0, Flat(histories))
        invariant forall o :: o in Repr() ==> o in old(Repr()) || fresh(o)
      {
        ghost var h := Serve(rounds[i]);
        RoundsMore(s0, rounds, histories, i, h);
        M.RunAppend(s0, Flat(histories), h);
        histories := histories + [h];
        i := i + 1;
      }
      assert rounds[..i] == rounds;
      ghost var event := Shutdown();
      RunMore(s0, Flat(histories), event);
    }

    lemma NoRounds(s: M.Server<Watcher>, rounds: seq<Round>)
      requires M.ServerInv(s)
      ensures RoundsAnswer(s, rounds[..0], []) && Flat<M.Event<Watcher>>([]) == [] && M.Run(s, []) == s
    {
      hide M.ServerInv;
      M.RunNothing(s);
    }

    // ---------- what the theorems about runs say of the fields ----------

    /** The counter is the number of connections, each descriptor that was accepted and not closed is that of one
        of them, and each of them is either reading or on the run queue. */
    ghost predicate Accounted()
      reads this, jsQueue, connSet, set w | w in conns
    {
      && numConns == |conns| <= M.MAX_CONNECTIONS
      && accepted == closed + multiset(set w | w in conns :: w.fd)
      && (forall c :: c in connSet ==>
            && c.w in conns && (c.jsInitialized <==> c.jsLink in jsPending)
            && c.w.pevents == if c.jsInitialized then NONE else POLLIN)
    }

    lemma Accounts()
      requires Valid() && M.ServerInv(srv)
      ensures Accounted()
    {
      hide EventLoop.Valid, ListOf, JsEmbedded, Names, Inv, M.FdsOk, M.PhasesOk, M.CountOk, M.PassOk, Distinct;
      CountsAre();
      IosAre();
      ConnSetIs();
      forall c | c in connSet
        ensures (c.jsInitialized <==> c.jsLink in jsPending) && c.w.pevents == if c.jsInitialized then NONE else POLLIN
      {
        PhaseOf(c);
      }
    }

    lemma ConnSetIs()
      requires Valid()
      ensures loop.Valid() && srv.loop == loop.st && forall c :: c in connSet ==> c.w in conns
    {
      hide EventLoop.Valid, ListOf, JsEmbedded, Names, Distinct;
    }

    lemma CountsAre()
      requires Valid() && M.ServerInv(srv)
      ensures numConns == |conns| <= M.MAX_CONNECTIONS
      ensures accepted == closed + multiset(set w | w in conns :: w.fd)
    {
      hide EventLoop.Valid, ListOf, JsEmbedded, Names, M.PhasesOk, Inv, M.PassOk, Distinct, M.OpenFds;
      M.NumConnsOf(srv);
      assert |conns| == |conns.Keys|;
      FdsAre();
    }

    lemma FdsAre()
      requires Valid() && M.FdsOk(srv)
      ensures M.OpenFds(srv) == set w | w in conns :: w.fd
    {
      hide EventLoop.Valid, ListOf, JsEmbedded, Names, Distinct;
      IosAre();
    }

    lemma IosAre()
      requires loop.Valid()
      ensures forall w :: w in loop.st.io ==> loop.st.io[w] == Io(w.fd, w.pevents, w.events)
    {
    }

    lemma PhaseOf(c: Conn)
      requires Valid() && M.ServerInv(srv) && c in connSet
      ensures c.w in srv.loop.io && (c.jsInitialized <==> c.jsLink in jsPending)
      ensures srv.loop.io[c.w].pevents == if c.jsInitialized then NONE else POLLIN
    {
      hide EventLoop.Valid, ListOf, M.CountOk, Inv, M.PassOk, Distinct;
      assert M.PhaseOk(srv, c.w);
      NamesWithout(jsPending, containers, srv.runQueue, conns, srv.live, c);
    }
  }

  /** The server from its creation to the end of its task. */
  method Boot(fd: int, hasHandler: bool, rounds: seq<Round>)
    returns (server: Httpd, ghost histories: seq<seq<M.Event<Watcher>>>)
    requires 0 <= fd <= MAX_FD && forall i :: 0 <= i < |rounds| ==> AllTolerable(hasHandler, rounds[i].inputs)
    ensures fresh(server) && server.Valid() && server.Accounted() && server.srv.phase.Halted?
    ensures server.listener.pevents == NONE
    ensures M.ServerInv(M.Launch(server.listener, fd, hasHandler))
    ensures RoundsAnswer(M.Launch(server.listener, fd, hasHandler), rounds, histories)
    ensures server.srv == M.Run(M.Launch(server.listener, fd, hasHandler), Flat(histories) + [M.Exit])
  {
    hide *;
    server := new Httpd(fd, hasHandler);
    M.LaunchInv(server.listener, fd, hasHandler);
    server.Launch();
    ghost var s := server.srv;
    LaunchedAtTop(server.listener, fd, hasHandler);
    histories := server.Task(rounds);
    M.RunInv(s, Flat(histories) + [M.Exit]);
    server.Accounts();
  }

  lemma LaunchedAtTop(w: Watcher, fd: int, hasHandler: bool)
    requires fd >= 0
    ensures M.Launch(w, fd, hasHandler).phase.Top?
  {
  }
}

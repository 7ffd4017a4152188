/** Deadlock and late callbacks over every interleaving of the lock machine. */
module LockTheorems {
  import opened VideoUrl
  import opened Sharing
  import opened Producer
  import opened LockMachine
  import opened LockInvariant
  import opened LockContexts

  // ---------------------------------------------------------------- deadlock

  /** How far a waiting thread is from one that can run, when readers do not wait for writers. */
  function Level(pc: Pc): nat {
    match pc
    case WantServers(_) => 6
    case WantProxies(_) => 5
    case WantClients(_, _) => 4
    case WantContexts(_, _, _) => 3
    case ReplyWantPeers(_, _, _) => 2
    case _ => if Wants(pc) == Nothing then 0 else 1
  }

  /** The same when readers wait for waiting writers.  The rank of a client lock depends on whether its
      proxy is already registered: before that it is above the context lock, afterwards below it. */
  function WriterLevel(called: set<ProxyId>, pc: Pc): nat {
    match pc
    case WantServers(op) => if op.OpClose? then 9 else 10
    case WantProxies(_) => 8
    case WantClients(_, id) => if id in called then 1 else 7
    case PacketWantPeers(_, _) => 6
    case ReplyWantContexts(_, _, _) => 5
    case PacketWantContexts(_, _, _) => 5
    case WantContexts(_, _, _) => 4
    case ReplyWantPeers(_, _, _) => 3
    case PacketWantClients(_, _, _, _) => 2
    case ReplyWantClients(_, _, _, _) => 1
    case _ => 0
  }

  /** No thread wants a lock it already holds. */
  lemma NoSelfWait(s: Sys, w: bool, t: Tid)
    ensures !WaitsFor(s, w, t, t)
  {}

  /** A client lock wanted by a callback is never held by the DESCRIBE that registers its proxy. */
  lemma CallbackMeetsNoRegistration(d: Data, pc: Pc, other: Pc)
    requires DataOk(d) && ThreadOk(d, pc) && ThreadOk(d, other)
    requires pc.ReplyWantClients? || pc.PacketWantClients?
    requires Held(other, Clients(pc.id)) != Free
    ensures Wants(other) == Nothing
  {}

  lemma LevelDecreases(s: Sys, t: Tid, u: Tid)
    requires SysOk(s) && WaitsFor(s, false, t, u)
    ensures Level(PcOf(s, u)) < Level(PcOf(s, t))
  {
    var pc, other := PcOf(s, t), PcOf(s, u);
    assert ThreadOk(s.data, pc) && ThreadOk(s.data, other);
    if pc.ReplyWantClients? || pc.PacketWantClients? { CallbackMeetsNoRegistration(s.data, pc, other); }
  }

  lemma WriterLevelDecreases(s: Sys, t: Tid, u: Tid)
    requires SysOk(s) && WaitsFor(s, true, t, u) && !PcOf(s, t).ReplyWantPeers?
    ensures WriterLevel(s.data.called, PcOf(s, u)) < WriterLevel(s.data.called, PcOf(s, t))
  {
    var pc, other := PcOf(s, t), PcOf(s, u);
    assert ThreadOk(s.data, pc) && ThreadOk(s.data, other);
  }

  /** A non-empty ring of threads in which each waits for the next. */
  ghost predicate WaitCycle(s: Sys, w: bool, ts: seq<Tid>) {
    |ts| > 0 && forall i :: 0 <= i < |ts| ==> WaitsFor(s, w, ts[i], ts[if i + 1 < |ts| then i + 1 else 0])
  }

  lemma CycleEdge(s: Sys, w: bool, ts: seq<Tid>, i: nat)
    requires WaitCycle(s, w, ts) && i < |ts|
    ensures WaitsFor(s, w, ts[i], ts[if i + 1 < |ts| then i + 1 else 0])
  {}

  lemma {:induction false} DescendsAlong(levels: seq<nat>, i: nat)
    requires forall j :: 0 <= j < |levels| - 1 ==> levels[j + 1] < levels[j]
    requires i < |levels|
    ensures levels[i] + i <= levels[0]
  {
    if i > 0 { DescendsAlong(levels, i - 1); }
  }

  /** Levels cannot fall all the way round a ring. */
  lemma NoDescendingRing(levels: seq<nat>)
    requires |levels| > 0
    ensures exists i :: 0 <= i < |levels| && levels[i] <= levels[if i + 1 < |levels| then i + 1 else 0]
  {
    var last := |levels| - 1;
    if forall j :: 0 <= j < last ==> levels[j + 1] < levels[j] {
      DescendsAlong(levels, last);
      assert levels[last] <= levels[if last + 1 < |levels| then last + 1 else 0];
    } else {
      var j :| 0 <= j < last && levels[j] <= levels[j + 1];
      assert levels[j] <= levels[if j + 1 < |levels| then j + 1 else 0];
    }
  }

  lemma NoCycle(s: Sys, ts: seq<Tid>)
    requires SysOk(s)
    ensures !WaitCycle(s, false, ts)
  {
    if WaitCycle(s, false, ts) {
      var levels := seq(|ts|, i requires 0 <= i < |ts| => Level(PcOf(s, ts[i])));
      NoDescendingRing(levels);
      var i :| 0 <= i < |ts| && levels[i] <= levels[if i + 1 < |ts| then i + 1 else 0];
      CycleEdge(s, false, ts, i);
      LevelDecreases(s, ts[i], ts[if i + 1 < |ts| then i + 1 else 0]);
    }
  }

  /** No interleaving reaches a wait-for cycle over any of the five kinds of lock, provided a waiting
      writer does not hold up readers. */
  lemma DeadlockFree(h: History, ts: seq<Tid>)
    requires Possible(h, false)
    ensures !WaitCycle(StateOf(h, false), false, ts)
  {
    Always(h, false);
    NoCycle(StateOf(h, false), ts);
  }

  lemma WriterCyclesNeedPeers(s: Sys, ts: seq<Tid>)
    requires SysOk(s) && WaitCycle(s, true, ts)
    ensures exists i :: 0 <= i < |ts| && PcOf(s, ts[i]).ReplyWantPeers?
  {
    var levels := seq(|ts|, i requires 0 <= i < |ts| => WriterLevel(s.data.called, PcOf(s, ts[i])));
    NoDescendingRing(levels);
    var i :| 0 <= i < |ts| && levels[i] <= levels[if i + 1 < |ts| then i + 1 else 0];
    CycleEdge(s, true, ts, i);
    if !PcOf(s, ts[i]).ReplyWantPeers? { WriterLevelDecreases(s, ts[i], ts[if i + 1 < |ts| then i + 1 else 0]); }
  }

  /** When waiting writers do hold up readers, always or only sometimes, the only way into a cycle is an invite
      reply waiting for `NetworkServer::mMutex`: the locks of the service and the producer never form one.
      With `w` false this covers locks that let a reader pass a waiting writer at one time and not at another. */
  lemma CyclesGoThroughPeers(h: History, w: bool, ts: seq<Tid>)
    requires Possible(h, w) && WaitCycle(StateOf(h, w), true, ts)
    ensures exists i :: 0 <= i < |ts| && PcOf(StateOf(h, w), ts[i]).ReplyWantPeers?
  {
    Always(h, w);
    WriterCyclesNeedPeers(StateOf(h, w), ts);
  }

  ghost predicate CanMove(s: Sys, w: bool, t: Tid) {
    Can(s, w, Acquire(t)) || exists at :: Can(s, w, Work(t, at))
  }

  /** The whole system is never stuck: while any thread is busy, some thread can move. */
  lemma SomeThreadMoves(h: History, t: Tid) returns (u: Tid)
    requires Possible(h, false) && PcOf(StateOf(h, false), t) != Idle
    ensures PcOf(StateOf(h, false), u) != Idle && CanMove(StateOf(h, false), false, u)
  {
    Always(h, false);
    u := FollowWaits(StateOf(h, false), t);
  }

  lemma {:induction false} FollowWaits(s: Sys, t: Tid) returns (u: Tid)
    requires SysOk(s) && PcOf(s, t) != Idle
    ensures PcOf(s, u) != Idle && CanMove(s, false, u)
    decreases Level(PcOf(s, t))
  {
    var pc := PcOf(s, t);
    u := t;
    if Wants(pc) == Nothing {
      var at: Option<Key> := None;
      if pc.Ready? && pc.op.OpClose? { at := CloseStopsSomewhere(s.data.svc, pc.op.c); }
      assert Can(s, false, Work(t, at));
    } else if v: Tid :| WaitsFor(s, false, t, v) {
      LevelDecreases(s, t, v);
      u := FollowWaits(s, v);
    } else {
      assert Can(s, false, Acquire(t));
    }
  }

  // ---------------------------------------------------------------- late and crossed callbacks

  /** The thread is inside the SDP, packet or error callback of context `cid` of video `k`, or on its way
      in with the context in hand. */
  predicate InCallback(pc: Pc, k: Key, cid: CtxId) {
    (ReplyPast(pc) || pc.ReplyFails? || PacketPast(pc)) && pc.k == k && pc.cid == cid
  }

  /** Context `cid` existed and has been erased. */
  predicate Gone(d: Data, k: Key, cid: CtxId) {
    cid < d.prod.next && !Alive(d.prod, k, cid)
  }

  /** A callback in progress always acts for the proxy its own, still registered, context is bound to. */
  lemma CallbackNeedsContext(s: Sys, t: Tid)
    requires SysOk(s)
    ensures var pc := PcOf(s, t);
            && (ReplyPast(pc) || pc.ReplyFails? || PacketPast(pc) ==> Alive(s.data.prod, pc.k, pc.cid))
            && (pc.ReplyHasClients? || pc.ReplyFails? || pc.PacketHasClients? ==>
                s.data.prod.byKey[pc.k].boundTo == pc.id && pc.id in s.data.called)
  {}

  lemma GoneStays(s: Sys, w: bool, a: Step, k: Key, cid: CtxId)
    requires SysOk(s) && Can(s, w, a) && Gone(s.data, k, cid)
    ensures Gone(After(s, w, a).data, k, cid)
  {
    if a.Work? { GoneThroughWork(s.data, PcOf(s, a.t), a.at, k, cid); }
  }

  lemma GoneThroughWork(d: Data, pc: Pc, at: Option<Key>, k: Key, cid: CtxId)
    requires CanWork(d, pc, at) && Gone(d, k, cid)
    ensures Gone(WorkData(d, pc, at), k, cid)
  {}

  /** `h` continues `h0`. */
  ghost predicate Extends(h0: History, h: History) {
    h == h0 || (h.More? && Extends(h0, h.before))
  }

  lemma {:induction false} GoneForever(h0: History, h: History, w: bool, k: Key, cid: CtxId)
    requires Possible(h, w) && Possible(h0, w) && Extends(h0, h) && Gone(StateOf(h0, w).data, k, cid)
    ensures Gone(StateOf(h, w).data, k, cid)
  {
    if h != h0 {
      GoneForever(h0, h.before, w, k, cid);
      Always(h.before, w);
      GoneStays(StateOf(h.before, w), w, h.a, k, cid);
    }
  }

  /** Once `UnregisterVideo` has erased a context, no thread is inside one of its callbacks, and none
      ever gets in again. */
  lemma NoLateCallback(h0: History, h: History, w: bool, k: Key, cid: CtxId, t: Tid)
    requires Possible(h, w) && Possible(h0, w) && Extends(h0, h) && Gone(StateOf(h0, w).data, k, cid)
    ensures !InCallback(PcOf(StateOf(h, w), t), k, cid)
  {
    GoneForever(h0, h, w, k, cid);
    Always(h, w);
    CallbackNeedsContext(StateOf(h, w), t);
  }

  /** The erasing step itself: when `UnregisterVideo` runs, nobody is in a callback of any context. */
  lemma UnregisterMeetsNoCallback(h: History, w: bool, t: Tid, u: Tid, k: Key, cid: CtxId)
    requires Possible(h, w) && PcOf(StateOf(h, w), t).HasContexts?
    ensures !InCallback(PcOf(StateOf(h, w), u), k, cid)
  {
    Always(h, w);
    var s := StateOf(h, w);
    if t != u { assert !Conflict(Held(PcOf(s, t), ContextMap), Held(PcOf(s, u), ContextMap)); }
  }

  /** The thread acts on a reply to, or a packet for, context `cid` of video `k`. */
  predicate Carrying(pc: Pc, k: Key, cid: CtxId) {
    (Replying(pc) || pc.PacketWantContexts? || PacketInside(pc)) && pc.k == k && pc.cid == cid
  }

  /** Once a context is gone, whatever still comes for it touches neither a newer context of the same video nor
      any proxy: no step of a thread carrying it changes shared data or enters a callback.  Only packets can
      come that late. */
  lemma LateWorkTouchesNothing(h0: History, h: History, w: bool, k: Key, cid: CtxId, a: Step)
    requires Possible(More(h, a), w) && Possible(h0, w) && Extends(h0, h) && Gone(StateOf(h0, w).data, k, cid)
    requires Carrying(PcOf(StateOf(h, w), a.t), k, cid)
    ensures PcOf(StateOf(h, w), a.t).PacketWantContexts? || PcOf(StateOf(h, w), a.t).PacketHasContexts?
    ensures StateOf(More(h, a), w).data == StateOf(h, w).data
    ensures PcOf(StateOf(More(h, a), w), a.t).PacketHasContexts? || PcOf(StateOf(More(h, a), w), a.t) == Idle
  {
    var s := StateOf(h, w);
    GoneForever(h0, h, w, k, cid);
    Always(h, w);
    CallbackNeedsContext(s, a.t);
    if Replying(PcOf(s, a.t)) { ReplyFindsItsContext(h, w, a.t); }
    LatePacketStep(s, w, a);
  }

  lemma LatePacketStep(s: Sys, w: bool, a: Step)
    requires Can(s, w, a)
    requires PcOf(s, a.t).PacketWantContexts? || PcOf(s, a.t).PacketHasContexts?
    requires !Alive(s.data.prod, PcOf(s, a.t).k, PcOf(s, a.t).cid)
    ensures After(s, w, a).data == s.data
    ensures PcOf(After(s, w, a), a.t).PacketHasContexts? || PcOf(After(s, w, a), a.t) == Idle
  {}

  lemma PeersThroughWork(d: Data, pc: Pc, at: Option<Key>, peer: string)
    requires CanWork(d, pc, at) && peer in d.peers
    ensures peer in WorkData(d, pc, at).peers && WorkData(d, pc, at).peers[peer] == d.peers[peer]
  {}

  lemma {:induction false} PeerKept(h0: History, h: History, w: bool, peer: string)
    requires Possible(h, w) && Possible(h0, w) && Extends(h0, h) && peer in StateOf(h0, w).data.peers
    ensures peer in StateOf(h, w).data.peers
    ensures StateOf(h, w).data.peers[peer] == StateOf(h0, w).data.peers[peer]
  {
    if h != h0 {
      PeerKept(h0, h.before, w, peer);
      var s := StateOf(h.before, w);
      if h.a.Work? { PeersThroughWork(s.data, PcOf(s, h.a.t), h.a.at, peer); }
    }
  }

  /** A peer stays tied to the first context it was registered for, because `unRegisterPeer` is never called:
      once that context is gone, nothing the peer sends reaches any proxy again, even if a newer session of
      the same video comes from the same peer. */
  lemma PeerGoesDeaf(h0: History, h: History, w: bool, peer: string, a: Step)
    requires Possible(More(h, a), w) && Possible(h0, w) && Extends(h0, h) && peer in StateOf(h0, w).data.peers
    requires var (k, cid) := StateOf(h0, w).data.peers[peer]; Gone(StateOf(h0, w).data, k, cid)
    requires a.Work? && PcOf(StateOf(h, w), a.t).PacketHasPeers? && PcOf(StateOf(h, w), a.t).peer == peer
    ensures var (k, cid) := StateOf(h0, w).data.peers[peer];
            && Carrying(PcOf(StateOf(More(h, a), w), a.t), k, cid)
            && Gone(StateOf(More(h, a), w).data, k, cid)
            && StateOf(More(h, a), w).data == StateOf(h, w).data
  {
    var (k, cid) := StateOf(h0, w).data.peers[peer];
    PeerKept(h0, h, w, peer);
    GoneForever(h0, h, w, k, cid);
    PacketLooksUp(StateOf(h, w).data, PcOf(StateOf(h, w), a.t), a.at);
  }

  lemma PacketLooksUp(d: Data, pc: Pc, at: Option<Key>)
    requires CanWork(d, pc, at) && pc.PacketHasPeers? && pc.peer in d.peers
    ensures WorkData(d, pc, at) == d
    ensures WorkPc(d, pc, at) == PacketWantContexts(d.peers[pc.peer].0, d.peers[pc.peer].1, pc.data)
  {}

  // ---------------------------------------------------------------- registration

  /** A thread about to register a proxy is the first to do so. */
  lemma RegistersOnce(h: History, w: bool, t: Tid)
    requires Possible(h, w)
    ensures var pc := PcOf(StateOf(h, w), t);
            pc.HasContexts? && pc.op.OpDescribe? ==> pc.id !in StateOf(h, w).data.called
  {
    Always(h, w);
    assert ThreadOk(StateOf(h, w).data, PcOf(StateOf(h, w), t));
  }
}

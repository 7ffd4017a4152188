/** From the UDP socket to the peer's handler (core/src/network_server.cpp): event loops take slots and
    receive into them, jobs go to single-worker pools chosen by peer hash, workers call the handlers. */
module ReceivePath {
  import opened Framing
  import opened ReceiveSlots
  import opened ThreadPool

  /** `recvfrom` is given one slot's length. */
  type Datagram = d: seq<byte> | |d| <= SLOT witness []

  /** A queued datagram.  The code keeps only the slot's address and the length; `data` records what was
      received. */
  datatype Job = Job(peer: string, slot: nat, data: Datagram)

  /** A handler call: for which datagram, and the bytes found in its slot. */
  datatype Call = Call(job: Job, bytes: seq<byte>)

  /** `next`: slots handed out so far.  `loops`: the slot each event loop is about to receive into.
      `received` and `calls` record the datagrams submitted and the handler calls made. */
  datatype Net = Net(
    size: int, mem: seq<seq<byte>>, next: nat, loops: map<nat, nat>, pools: seq<Pool<Job>>,
    peers: set<string>, received: seq<Job>, calls: seq<Call>)

  datatype NetStep =
    | TakeSlot(loop: nat)
    | Arrive(loop: nat, peer: string, data: Datagram)
    | Drained(loop: nat)                     // `recvfrom` returned -1
    | Worker(pool: nat, a: PoolStep<Job>)
    | RegisterPeer(peer: string)
    | UnregisterPeer(peer: string)

  predicate Shape(s: Net) {
    && s.size > SLOT && |s.mem| == 2 && |s.mem[0]| == s.size && |s.mem[1]| == s.size && |s.pools| > 0
  }

  function Route(hash: string -> nat, s: Net, peer: string): nat
    requires |s.pools| > 0
  {
    hash(peer) % |s.pools|
  }

  ghost predicate CanNet(s: Net, a: NetStep) {
    && Shape(s)
    && match a
       case TakeSlot(loop) => loop !in s.loops
       case Arrive(loop, _, _) => loop in s.loops
       case Drained(loop) => loop in s.loops
       case Worker(i, b) =>
         i < |s.pools| && CanStep(s.pools[i], b) && (b.NotifyOne? || b.Enter? || b.Finish? || b.Spurious?)
       case _ => true
  }

  /** The handler call, if any, that a finished task has made.  It is taken to read its slot as late as
      possible, when its job ends. */
  ghost function CallOf(s: Net, a: NetStep): seq<Call>
    requires CanNet(s, a)
  {
    if a.Worker? && a.a.Finish? && s.pools[a.pool].workers[a.a.w].task.peer in s.peers then
      var job := s.pools[a.pool].workers[a.a.w].task;
      InBounds(s.size, job.slot);
      [Call(job, Loaded(s.mem, SlotAt(s.size, job.slot), |job.data|))]
    else []
  }

  ghost function NextNet(hash: string -> nat, s: Net, a: NetStep): Net
    requires CanNet(s, a)
  {
    match a
    case TakeSlot(loop) => s.(loops := s.loops[loop := s.next], next := s.next + 1)
    case Arrive(loop, peer, data) =>
      var slot := s.loops[loop];
      var i := Route(hash, s, peer);
      InBounds(s.size, slot);
      s.(mem := Stored(s.mem, SlotAt(s.size, slot), data), loops := s.loops - {loop},
         pools := s.pools[i := Step(s.pools[i], Submit(Job(peer, slot, data)))],
         received := s.received + [Job(peer, slot, data)])
    case Drained(loop) => s.(loops := s.loops - {loop})
    case Worker(i, b) => s.(pools := s.pools[i := Step(s.pools[i], b)], calls := s.calls + CallOf(s, a))
    case RegisterPeer(p) => s.(peers := s.peers + {p})
    case UnregisterPeer(p) => s.(peers := s.peers - {p})
  }

  // ---------------------------------------------------------------- runs

  datatype NetRun = Begin(size: int, mem: seq<seq<byte>>, workers: nat) | More(before: NetRun, a: NetStep)

  ghost predicate PossibleNet(hash: string -> nat, t: NetRun)
    decreases t, 0
  {
    match t
    case Begin(size, mem, workers) => size > SLOT && BuffersOk(mem, size) && workers > 0
    case More(before, a) => PossibleNet(hash, before) && CanNet(NetOf(hash, before), a)
  }

  ghost function NetOf(hash: string -> nat, t: NetRun): Net
    requires PossibleNet(hash, t)
    decreases t, 1
  {
    match t
    case Begin(size, mem, workers) => Net(size, mem, 0, map[], seq(workers, _ => NewPool(1)), {}, [], [])
    case More(before, a) => NextNet(hash, NetOf(hash, before), a)
  }

  ghost predicate PoolsOk(s: Net) {
    forall i :: 0 <= i < |s.pools| ==> PoolOk(s.pools[i]) && Serial(s.pools[i]) && !s.pools[i].stop
  }

  lemma FinishedIsNext<T>(p: Pool<T>)
    requires PoolOk(p) && Serial(p) && p.workers[0].Running?
    ensures |p.finished| < |p.submitted| && p.submitted[|p.finished|] == p.workers[0].task
  {}

  // ---------------------------------------------------------------- per-peer order

  function OfPeer(p: string, jobs: seq<Job>): seq<Job> {
    if jobs == [] then []
    else
      var last := jobs[|jobs| - 1];
      OfPeer(p, jobs[..|jobs| - 1]) + if last.peer == p then [last] else []
  }

  function JobsOf(calls: seq<Call>): seq<Job> {
    if calls == [] then [] else JobsOf(calls[..|calls| - 1]) + [calls[|calls| - 1].job]
  }

  /** `a` can be obtained from `b` by leaving elements out. */
  ghost predicate Subsequence<T>(a: seq<T>, b: seq<T>) {
    a == [] || (b != [] && (Subsequence(a, b[..|b| - 1])
                            || (a[|a| - 1] == b[|b| - 1] && Subsequence(a[..|a| - 1], b[..|b| - 1]))))
  }

  lemma OfPeerAppend(p: string, jobs: seq<Job>, job: Job)
    ensures OfPeer(p, jobs + [job]) == OfPeer(p, jobs) + if job.peer == p then [job] else []
  {}

  lemma JobsOfAppend(calls: seq<Call>, c: Call)
    ensures JobsOf(calls + [c]) == JobsOf(calls) + [c.job]
  {}

  lemma SubsequenceAppend<T>(a: seq<T>, b: seq<T>, x: T)
    requires Subsequence(a, b)
    ensures Subsequence(a, b + [x]) && Subsequence(a + [x], b + [x])
  {}

  lemma {:induction false} OfPeerPrefix(p: string, a: seq<Job>, b: seq<Job>)
    ensures OfPeer(p, a) <= OfPeer(p, a + b)
  {
    if b == [] {
      assert a + b == a;
    } else {
      OfPeerPrefix(p, a, b[..|b| - 1]);
      assert (a + b)[..|a + b| - 1] == a + b[..|b| - 1];
    }
  }

  ghost predicate Routed(hash: string -> nat, s: Net)
    requires Shape(s)
  {
    forall i, x :: 0 <= i < |s.pools| && 0 <= x < |s.pools[i].submitted| ==> Route(hash, s, s.pools[i].submitted[x].peer) == i
  }

  ghost predicate InOrder(hash: string -> nat, s: Net, p: string) {
    && Shape(s) && PoolsOk(s) && Routed(hash, s)
    && var pool := s.pools[Route(hash, s, p)];
       && OfPeer(p, s.received) == OfPeer(p, pool.submitted)
       && Subsequence(OfPeer(p, JobsOf(s.calls)), OfPeer(p, pool.finished))
  }

  lemma ArriveKeepsPools(hash: string -> nat, s: Net, a: NetStep)
    requires Shape(s) && PoolsOk(s) && Routed(hash, s) && CanNet(s, a) && a.Arrive?
    ensures var s' := NextNet(hash, s, a); Shape(s') && PoolsOk(s') && Routed(hash, s')
  {
    var r, job := Route(hash, s, a.peer), Job(a.peer, s.loops[a.loop], a.data);
    InBounds(s.size, s.loops[a.loop]);
    StepKeepsOk(s.pools[r], Submit(job));
    SerialStep(s.pools[r], Submit(job));
  }

  lemma ArriveInOrder(hash: string -> nat, s: Net, a: NetStep, p: string)
    requires InOrder(hash, s, p) && CanNet(s, a) && a.Arrive?
    ensures InOrder(hash, NextNet(hash, s, a), p)
  {
    var s', r := NextNet(hash, s, a), Route(hash, s, a.peer);
    var job := Job(a.peer, s.loops[a.loop], a.data);
    ArriveKeepsPools(hash, s, a);
    OfPeerAppend(p, s.received, job);
    OfPeerAppend(p, s.pools[r].submitted, job);
    assert s'.pools[r].submitted == s.pools[r].submitted + [job] && s'.pools[r].finished == s.pools[r].finished;
  }

  lemma WorkerKeepsPools(hash: string -> nat, s: Net, a: NetStep)
    requires Shape(s) && PoolsOk(s) && Routed(hash, s) && CanNet(s, a) && a.Worker?
    ensures var s' := NextNet(hash, s, a);
            Shape(s') && PoolsOk(s') && Routed(hash, s') && s'.received == s.received && s'.peers == s.peers
  {
    StepKeepsOk(s.pools[a.pool], a.a);
    SerialStep(s.pools[a.pool], a.a);
    WorkerKeepsSubmitted(hash, s, a);
  }

  lemma WorkerKeepsSubmitted(hash: string -> nat, s: Net, a: NetStep)
    requires CanNet(s, a) && a.Worker?
    ensures var s' := NextNet(hash, s, a);
            && |s'.pools| == |s.pools|
            && (forall i :: 0 <= i < |s.pools| ==> s'.pools[i].submitted == s.pools[i].submitted)
            && (!a.a.Finish? ==> s'.calls == s.calls
                                 && forall i :: 0 <= i < |s.pools| ==> s'.pools[i].finished == s.pools[i].finished)
  {}

  /** What finishing a job of peer `q` does to the logs as peer `p` sees them. */
  lemma FinishLogs(hash: string -> nat, s: Net, i: nat, w: nat, p: string)
    requires PoolsOk(s) && Shape(s) && Routed(hash, s) && CanNet(s, Worker(i, Finish(w)))
    ensures var s', job, r := NextNet(hash, s, Worker(i, Finish(w))), s.pools[i].workers[w].task, Route(hash, s, p);
            && |s'.pools| == |s.pools|
            && (job.peer != p ==> OfPeer(p, s'.pools[r].finished) == OfPeer(p, s.pools[r].finished)
                                  && OfPeer(p, JobsOf(s'.calls)) == OfPeer(p, JobsOf(s.calls)))
            && (job.peer == p ==> OfPeer(p, s'.pools[r].finished) == OfPeer(p, s.pools[r].finished) + [job]
                                  && OfPeer(p, JobsOf(s'.calls))
                                     == if p in s.peers then OfPeer(p, JobsOf(s.calls)) + [job] else OfPeer(p, JobsOf(s.calls)))
  {
    FinishedLog(hash, s, i, w, p);
    FinishCalls(hash, s, i, w, p);
  }

  lemma RunningIsRouted(hash: string -> nat, s: Net, i: nat)
    requires PoolsOk(s) && Shape(s) && Routed(hash, s) && i < |s.pools| && s.pools[i].workers[0].Running?
    ensures Route(hash, s, s.pools[i].workers[0].task.peer) == i
  {
    FinishedIsNext(s.pools[i]);
  }

  lemma FinishedLog(hash: string -> nat, s: Net, i: nat, w: nat, p: string)
    requires PoolsOk(s) && Shape(s) && Routed(hash, s) && CanNet(s, Worker(i, Finish(w)))
    ensures var s', job, r := NextNet(hash, s, Worker(i, Finish(w))), s.pools[i].workers[w].task, Route(hash, s, p);
            && |s'.pools| == |s.pools|
            && OfPeer(p, s'.pools[r].finished) == OfPeer(p, s.pools[r].finished) + if job.peer == p then [job] else []
  {
    var s', job := NextNet(hash, s, Worker(i, Finish(w))), s.pools[i].workers[w].task;
    assert Serial(s.pools[i]);
    RunningIsRouted(hash, s, i);
    assert s'.pools[i].finished == s.pools[i].finished + [job];
    OfPeerAppend(p, s.pools[i].finished, job);
  }

  lemma FinishCalls(hash: string -> nat, s: Net, i: nat, w: nat, p: string)
    requires CanNet(s, Worker(i, Finish(w)))
    ensures var job := s.pools[i].workers[w].task;
            OfPeer(p, JobsOf(NextNet(hash, s, Worker(i, Finish(w))).calls))
            == if job.peer == p && p in s.peers then OfPeer(p, JobsOf(s.calls)) + [job] else OfPeer(p, JobsOf(s.calls))
  {
    var job := s.pools[i].workers[w].task;
    if job.peer in s.peers {
      JobsOfAppend(s.calls, CallOf(s, Worker(i, Finish(w)))[0]);
      OfPeerAppend(p, JobsOf(s.calls), job);
    } else {
      assert s.calls + CallOf(s, Worker(i, Finish(w))) == s.calls;
    }
  }

  lemma WorkerInOrder(hash: string -> nat, s: Net, a: NetStep, p: string)
    requires InOrder(hash, s, p) && CanNet(s, a) && a.Worker?
    ensures InOrder(hash, NextNet(hash, s, a), p)
  {
    WorkerKeepsPools(hash, s, a);
    WorkerKeepsSubmitted(hash, s, a);
    assert Route(hash, NextNet(hash, s, a), p) == Route(hash, s, p);
    if a.a.Finish? {
      FinishLogs(hash, s, a.pool, a.a.w, p);
      SubsequenceAppend(OfPeer(p, JobsOf(s.calls)), OfPeer(p, s.pools[Route(hash, s, p)].finished),
                        s.pools[a.pool].workers[a.a.w].task);
    }
  }

  lemma InOrderStep(hash: string -> nat, s: Net, a: NetStep, p: string)
    requires InOrder(hash, s, p) && CanNet(s, a)
    ensures InOrder(hash, NextNet(hash, s, a), p)
  {
    if a.Arrive? { ArriveInOrder(hash, s, a, p); }
    else if a.Worker? { WorkerInOrder(hash, s, a, p); }
  }

  lemma {:induction false} AlwaysInOrder(hash: string -> nat, t: NetRun, p: string)
    requires PossibleNet(hash, t)
    ensures InOrder(hash, NetOf(hash, t), p)
  {
    if t.More? {
      AlwaysInOrder(hash, t.before, p);
      InOrderStep(hash, NetOf(hash, t.before), t.a, p);
    }
  }

  lemma {:induction false} SubsequenceOfLonger<T>(a: seq<T>, b: seq<T>, c: seq<T>)
    requires Subsequence(a, b) && b <= c
    ensures Subsequence(a, c)
    decreases |c|
  {
    if c == b {
    } else {
      SubsequenceOfLonger(a, b, c[..|c| - 1]);
    }
  }

  /** The handler calls of a peer are a subsequence of the datagrams submitted for it, in order, however
      the workers of the pools interleave and whenever it is registered or unregistered. */
  lemma PerPeerOrder(hash: string -> nat, t: NetRun, p: string)
    requires PossibleNet(hash, t)
    ensures Subsequence(OfPeer(p, JobsOf(NetOf(hash, t).calls)), OfPeer(p, NetOf(hash, t).received))
  {
    AlwaysInOrder(hash, t, p);
    var s := NetOf(hash, t);
    var pool := s.pools[Route(hash, s, p)];
    FinishedPrefix(pool);
    OfPeerPrefix(p, pool.finished, pool.submitted[|pool.finished|..]);
    SubsequenceOfLonger(OfPeer(p, JobsOf(s.calls)), OfPeer(p, pool.finished), OfPeer(p, pool.submitted));
  }

  lemma FinishedPrefix<T>(p: Pool<T>)
    requires PoolOk(p) && Serial(p)
    ensures |p.finished| <= |p.submitted| && p.submitted == p.finished + p.submitted[|p.finished|..]
  {}

  /** `p` is registered in every state from `t0` to `t`. */
  ghost predicate StaysRegistered(hash: string -> nat, t0: NetRun, t: NetRun, p: string)
    requires PossibleNet(hash, t)
  {
    && p in NetOf(hash, t).peers
    && (t == t0 || (t.More? && StaysRegistered(hash, t0, t.before, p)))
  }

  /** Every finished datagram of the peer has been handled. */
  ghost predicate CaughtUp(hash: string -> nat, s: Net, p: string) {
    |s.pools| > 0 && OfPeer(p, JobsOf(s.calls)) == OfPeer(p, s.pools[Route(hash, s, p)].finished)
  }

  lemma CaughtUpStep(hash: string -> nat, s: Net, a: NetStep, p: string)
    requires InOrder(hash, s, p) && CanNet(s, a) && CaughtUp(hash, s, p) && p in s.peers
    ensures CaughtUp(hash, NextNet(hash, s, a), p)
  {
    if a.Worker? {
      WorkerKeepsSubmitted(hash, s, a);
      if a.a.Finish? { FinishLogs(hash, s, a.pool, a.a.w, p); }
    }
  }

  /** While a peer stays registered no datagram is passed over. */
  lemma {:induction false} NothingSkipped(hash: string -> nat, t0: NetRun, t: NetRun, p: string)
    requires PossibleNet(hash, t) && PossibleNet(hash, t0) && StaysRegistered(hash, t0, t, p)
    requires CaughtUp(hash, NetOf(hash, t0), p)
    ensures CaughtUp(hash, NetOf(hash, t), p)
  {
    if t != t0 {
      NothingSkipped(hash, t0, t.before, p);
      AlwaysInOrder(hash, t.before, p);
      CaughtUpStep(hash, NetOf(hash, t.before), t.a, p);
    }
  }

  /** A peer that is registered before its first datagram and stays registered sees a prefix of its
      submissions. */
  lemma PrefixWhileRegistered(hash: string -> nat, t0: NetRun, t: NetRun, p: string)
    requires PossibleNet(hash, t) && PossibleNet(hash, t0) && StaysRegistered(hash, t0, t, p)
    requires OfPeer(p, NetOf(hash, t0).received) == []
    ensures OfPeer(p, JobsOf(NetOf(hash, t).calls)) <= OfPeer(p, NetOf(hash, t).received)
  {
    AlwaysInOrder(hash, t0, p);
    var s0 := NetOf(hash, t0);
    var pool0 := s0.pools[Route(hash, s0, p)];
    FinishedPrefix(pool0);
    OfPeerPrefix(p, pool0.finished, pool0.submitted[|pool0.finished|..]);
    NothingSkipped(hash, t0, t, p);
    AlwaysInOrder(hash, t, p);
    var s := NetOf(hash, t);
    var pool := s.pools[Route(hash, s, p)];
    FinishedPrefix(pool);
    OfPeerPrefix(p, pool.finished, pool.submitted[|pool.finished|..]);
  }

  // ---------------------------------------------------------------- routing and registration

  /** A datagram goes to the end of the queue of the pool its peer's hash selects, and to no other. */
  lemma ArriveRoutes(hash: string -> nat, s: Net, a: NetStep, i: nat)
    requires CanNet(s, a) && a.Arrive? && PoolsOk(s) && i < |s.pools|
    ensures var s' := NextNet(hash, s, a);
            && |s'.pools| == |s.pools|
            && s'.pools[i].tasks == s.pools[i].tasks + (if i == hash(a.peer) % |s.pools| then [Job(a.peer, s.loops[a.loop], a.data)] else [])
            && s'.pools[i].workers == s.pools[i].workers
            && s'.received == s.received + [Job(a.peer, s.loops[a.loop], a.data)]
  {}

  /** The last the run says of peer `p` is that it was registered. */
  ghost predicate RegisteredIn(t: NetRun, p: string) {
    t.More? && (t.a == RegisterPeer(p) || (t.a != UnregisterPeer(p) && RegisteredIn(t.before, p)))
  }

  lemma {:induction false} PeersAre(hash: string -> nat, t: NetRun, p: string)
    requires PossibleNet(hash, t)
    ensures p in NetOf(hash, t).peers <==> RegisteredIn(t, p)
  {
    if t.More? { PeersAre(hash, t.before, p); }
  }

  /** A finished job has called the handler once if its peer is registered, and not at all otherwise; nothing else calls
      handlers. */
  lemma HandledIffRegistered(hash: string -> nat, t: NetRun, a: NetStep)
    requires PossibleNet(hash, NetRun.More(t, a))
    ensures var s := NetOf(hash, t);
            if a.Worker? && a.a.Finish? && RegisteredIn(t, s.pools[a.pool].workers[a.a.w].task.peer)
            then |CallOf(s, a)| == 1 && CallOf(s, a)[0].job == s.pools[a.pool].workers[a.a.w].task
            else CallOf(s, a) == []
    ensures NetOf(hash, NetRun.More(t, a)).calls == NetOf(hash, t).calls + CallOf(NetOf(hash, t), a)
  {
    if a.Worker? && a.a.Finish? { PeersAre(hash, t, NetOf(hash, t).pools[a.pool].workers[a.a.w].task.peer); }
  }

  // ---------------------------------------------------------------- slots in use

  /** Slots `a` and `b` are the same piece of memory: a whole number of double buffers apart. */
  predicate SharesSlot(size: int, a: nat, b: nat)
    requires size > SLOT
  {
    (if a <= b then b - a else a - b) % (2 * PerBuffer(size)) == 0
  }

  lemma SharesSlotIff(size: int, a: nat, b: nat)
    requires size > SLOT
    ensures SharesSlot(size, a, b) <==> Overlap(SlotAt(size, a), SlotAt(size, b))
    ensures SharesSlot(size, a, b) ==> SlotAt(size, a) == SlotAt(size, b)
  {
    if a <= b { OverlapIff(size, a, b); } else { OverlapIff(size, b, a); }
  }

  /** Every slot is handed out once: to a loop, and from it to one datagram. */
  ghost predicate SlotsOk(s: Net) {
    && (forall l :: l in s.loops ==> s.loops[l] < s.next)
    && (forall l, m :: l in s.loops && m in s.loops && s.loops[l] == s.loops[m] ==> l == m)
    && (forall job :: job in s.received ==> job.slot < s.next && forall l :: l in s.loops ==> s.loops[l] != job.slot)
    && (forall i, x :: 0 <= i < |s.pools| && 0 <= x < |s.pools[i].submitted| ==> s.pools[i].submitted[x] in s.received)
  }

  lemma SlotsArrive(hash: string -> nat, s: Net, a: NetStep)
    requires CanNet(s, a) && a.Arrive? && SlotsOk(s) && PoolsOk(s)
    ensures SlotsOk(NextNet(hash, s, a))
  {
    var s', r := NextNet(hash, s, a), Route(hash, s, a.peer);
    var job := Job(a.peer, s.loops[a.loop], a.data);
    assert s'.pools[r].submitted == s.pools[r].submitted + [job];
    forall i, x | 0 <= i < |s'.pools| && 0 <= x < |s'.pools[i].submitted| ensures s'.pools[i].submitted[x] in s'.received {
      if i != r || x < |s.pools[r].submitted| { assert s'.pools[i].submitted[x] == s.pools[i].submitted[x]; }
    }
  }

  lemma SlotsStep(hash: string -> nat, s: Net, a: NetStep)
    requires CanNet(s, a) && SlotsOk(s) && PoolsOk(s)
    ensures SlotsOk(NextNet(hash, s, a))
  {
    if a.Arrive? { SlotsArrive(hash, s, a); }
    else if a.Worker? { WorkerKeepsSubmitted(hash, s, a); }
  }

  lemma {:induction false} SlotsAlways(hash: string -> nat, t: NetRun)
    requires PossibleNet(hash, t)
    ensures Shape(NetOf(hash, t)) && PoolsOk(NetOf(hash, t)) && SlotsOk(NetOf(hash, t))
  {
    AlwaysInOrder(hash, t, "");
    if t.More? {
      SlotsAlways(hash, t.before);
      SlotsStep(hash, NetOf(hash, t.before), t.a);
    }
  }

  // ---------------------------------------------------------------- what a slot holds

  function Content(s: Net, n: nat, len: nat): (r: seq<byte>)
    requires Shape(s) && len <= SLOT
    ensures |r| == len
  {
    InBounds(s.size, n);
    Loaded(s.mem, SlotAt(s.size, n), len)
  }

  /** `was` after `data` has been received over it. */
  function Overlay(was: seq<byte>, data: seq<byte>): seq<byte> {
    if |data| >= |was| then data[..|was|] else data + was[|data|..]
  }

  /** The two agree as far as both reach. */
  predicate AgreeOnPrefix(a: seq<byte>, b: seq<byte>) {
    forall n :: 0 <= n < |a| && n < |b| ==> a[n] == b[n]
  }

  lemma OverlayKeepsIff(was: seq<byte>, data: seq<byte>)
    ensures |Overlay(was, data)| == |was|
    ensures Overlay(was, data) == was <==> AgreeOnPrefix(data, was)
  {
    if Overlay(was, data) == was {
      forall n | 0 <= n < |data| && n < |was| ensures data[n] == was[n] {
        assert Overlay(was, data)[n] == data[n];
      }
    }
  }

  /** Receiving overlays every slot that is the same memory and leaves the others alone. */
  lemma ArriveContent(hash: string -> nat, s: Net, a: NetStep, n: nat, len: nat)
    requires CanNet(s, a) && a.Arrive? && len <= SLOT
    ensures Shape(NextNet(hash, s, a))
    ensures Content(NextNet(hash, s, a), n, len)
         == if SharesSlot(s.size, s.loops[a.loop], n) then Overlay(Content(s, n, len), a.data) else Content(s, n, len)
  {
    var slot := s.loops[a.loop];
    InBounds(s.size, slot);
    InBounds(s.size, n);
    SharesSlotIff(s.size, slot, n);
    if SharesSlot(s.size, slot, n) {
      StoreOverlays(s.mem, s.size, SlotAt(s.size, slot), a.data, len);
    } else {
      StoreThenLoad(s.mem, s.size, SlotAt(s.size, slot), a.data, SlotAt(s.size, n), len);
    }
  }

  lemma OverlayAt(was: seq<byte>, data: seq<byte>, n: nat)
    requires n < |was|
    ensures |Overlay(was, data)| == |was|
    ensures Overlay(was, data)[n] == if n < |data| then data[n] else was[n]
  {}

  function Spliced(b: seq<byte>, off: nat, data: seq<byte>): seq<byte>
    requires off + |data| <= |b|
  {
    b[..off] + data + b[off + |data|..]
  }

  lemma SplicedAt(b: seq<byte>, off: nat, data: seq<byte>, n: nat)
    requires off + |data| <= |b| && off + n < |b|
    ensures |Spliced(b, off, data)| == |b|
    ensures Spliced(b, off, data)[off + n] == if n < |data| then data[n] else b[off + n]
  {}

  /** Writing `data` at `off`, as a span from `off` sees it. */
  lemma SpliceOverlays(b: seq<byte>, off: nat, data: seq<byte>, len: nat)
    requires off + |data| <= |b| && off + len <= |b|
    ensures Spliced(b, off, data)[off..off + len] == Overlay(b[off..off + len], data)
  {
    var was := b[off..off + len];
    var x, y := Spliced(b, off, data)[off..off + len], Overlay(was, data);
    if len > 0 { OverlayAt(was, data, 0); }
    assert |x| == |y|;
    forall n | 0 <= n < len ensures x[n] == y[n] {
      OverlayAt(was, data, n);
      SplicedAt(b, off, data, n);
    }
  }

  lemma StoreOverlays(mem: seq<seq<byte>>, size: int, s: Slot, data: seq<byte>, len: nat)
    requires BuffersOk(mem, size) && s.index in {0, 1} && |data| <= SLOT && len <= SLOT
    requires 0 <= s.offset && s.offset + SLOT <= size
    ensures BuffersOk(Stored(mem, s, data), size)
    ensures Loaded(Stored(mem, s, data), s, len) == Overlay(Loaded(mem, s, len), data)
  {
    assert Stored(mem, s, data) == mem[s.index := Spliced(mem[s.index], s.offset, data)];
    SpliceOverlays(mem[s.index], s.offset, data, len);
  }

  /** The exact condition: a queued datagram that is intact stays intact through a receive if and only if the
      receiving slot is not the same memory, or the new bytes agree with it as far as both reach. */
  lemma ArriveIntactIff(hash: string -> nat, s: Net, a: NetStep, job: Job)
    requires CanNet(s, a) && a.Arrive? && Content(s, job.slot, |job.data|) == job.data
    ensures Shape(NextNet(hash, s, a))
    ensures Content(NextNet(hash, s, a), job.slot, |job.data|) == job.data
       <==> !SharesSlot(s.size, s.loops[a.loop], job.slot) || AgreeOnPrefix(a.data, job.data)
  {
    ArriveContent(hash, s, a, job.slot, |job.data|);
    OverlayKeepsIff(job.data, a.data);
  }

  // ---------------------------------------------------------------- what a handler is given

  /** What the run has left of a datagram: its bytes as received, overlaid in turn by every datagram received
      since into the same memory. */
  ghost function HeldFor(hash: string -> nat, t: NetRun, job: Job): seq<byte>
    requires PossibleNet(hash, t)
  {
    if t.Begin? then []
    else if !t.a.Arrive? then HeldFor(hash, t.before, job)
    else
      var s := NetOf(hash, t.before);
      var slot := s.loops[t.a.loop];
      if slot == job.slot then t.a.data
      else if SharesSlot(s.size, slot, job.slot) then Overlay(HeldFor(hash, t.before, job), t.a.data)
      else HeldFor(hash, t.before, job)
  }

  lemma OnlyArriveStores(hash: string -> nat, s: Net, a: NetStep)
    requires CanNet(s, a) && !a.Arrive?
    ensures NextNet(hash, s, a).mem == s.mem && NextNet(hash, s, a).size == s.size
    ensures NextNet(hash, s, a).received == s.received
  {}

  lemma OwnContent(hash: string -> nat, s: Net, a: NetStep)
    requires CanNet(s, a) && a.Arrive?
    ensures Shape(NextNet(hash, s, a))
    ensures Content(NextNet(hash, s, a), s.loops[a.loop], |a.data|) == a.data
  {
    ArriveContent(hash, s, a, s.loops[a.loop], |a.data|);
    SharesSlotIff(s.size, s.loops[a.loop], s.loops[a.loop]);
    assert 0 % (2 * PerBuffer(s.size)) == 0;
    assert a.data[..|a.data|] == a.data;
  }

  /** The memory of every datagram ever received is what the run has left of it. */
  lemma {:induction false} SlotHolds(hash: string -> nat, t: NetRun, job: Job)
    requires PossibleNet(hash, t) && job in NetOf(hash, t).received
    ensures Shape(NetOf(hash, t))
    ensures Content(NetOf(hash, t), job.slot, |job.data|) == HeldFor(hash, t, job)
  {
    SlotsAlways(hash, t);
    if t.More? {
      var s := NetOf(hash, t.before);
      SlotsAlways(hash, t.before);
      if t.a.Arrive? {
        ArriveContent(hash, s, t.a, job.slot, |job.data|);
        if job in s.received { SlotHolds(hash, t.before, job); } else { OwnContent(hash, s, t.a); }
      } else {
        OnlyArriveStores(hash, s, t.a);
        SlotHolds(hash, t.before, job);
      }
    }
  }

  /** Every handler call is for a datagram that was received, and is given exactly what the run has left of it. */
  lemma HandlersSeeTheirSlot(hash: string -> nat, t: NetRun, a: NetStep)
    requires PossibleNet(hash, NetRun.More(t, a))
    ensures forall c :: c in CallOf(NetOf(hash, t), a) ==>
              c.job in NetOf(hash, t).received && c.bytes == HeldFor(hash, t, c.job) && |c.bytes| == |c.job.data|
  {
    var s := NetOf(hash, t);
    SlotsAlways(hash, t);
    if CallOf(s, a) != [] {
      FinishedIsNext(s.pools[a.pool]);
      SlotHolds(hash, t, CallOf(s, a)[0].job);
    }
  }

  /** From its arrival to the end of the run, nothing that disagrees with the datagram is received into the same
      memory. */
  ghost predicate LeftAlone(hash: string -> nat, t: NetRun, job: Job)
    requires PossibleNet(hash, t)
  {
    t.More? && !IsArrivalOf(hash, t, job) ==>
      && LeftAlone(hash, t.before, job)
      && (t.a.Arrive? && SharesSlot(NetOf(hash, t.before).size, NetOf(hash, t.before).loops[t.a.loop], job.slot)
          ==> AgreeOnPrefix(t.a.data, job.data))
  }

  ghost predicate IsArrivalOf(hash: string -> nat, t: NetRun, job: Job)
    requires PossibleNet(hash, t)
  {
    t.More? && t.a.Arrive? && NetOf(hash, t.before).loops[t.a.loop] == job.slot
  }

  lemma {:induction false} LeftAloneIsIntact(hash: string -> nat, t: NetRun, job: Job)
    requires PossibleNet(hash, t) && job in NetOf(hash, t).received && LeftAlone(hash, t, job)
    ensures HeldFor(hash, t, job) == job.data
  {
    if t.More? {
      var s := NetOf(hash, t.before);
      SlotsAlways(hash, t.before);
      if !t.a.Arrive? { OnlyArriveStores(hash, s, t.a); }
      if !IsArrivalOf(hash, t, job) {
        LeftAloneIsIntact(hash, t.before, job);
        if t.a.Arrive? { OverlayKeepsIff(job.data, t.a.data); }
      }
    }
  }

  /** The last datagram received into the same memory that reaches position `n` has another byte there. */
  ghost predicate Spoilt(hash: string -> nat, t: NetRun, job: Job, n: nat)
    requires PossibleNet(hash, t) && n < |job.data|
  {
    && t.More? && !IsArrivalOf(hash, t, job)
    && var s := NetOf(hash, t.before);
       if t.a.Arrive? && n < |t.a.data| && SharesSlot(s.size, s.loops[t.a.loop], job.slot)
       then t.a.data[n] != job.data[n] else Spoilt(hash, t.before, job, n)
  }

  lemma {:induction false} SpoiltIff(hash: string -> nat, t: NetRun, job: Job, n: nat)
    requires PossibleNet(hash, t) && job in NetOf(hash, t).received && n < |job.data|
    ensures |HeldFor(hash, t, job)| == |job.data|
    ensures HeldFor(hash, t, job)[n] != job.data[n] <==> Spoilt(hash, t, job, n)
  {
    if t.More? {
      var s := NetOf(hash, t.before);
      SlotsAlways(hash, t.before);
      if !t.a.Arrive? { OnlyArriveStores(hash, s, t.a); }
      if !IsArrivalOf(hash, t, job) {
        SpoiltIff(hash, t.before, job, n);
        if t.a.Arrive? { OverlayKeepsIff(HeldFor(hash, t.before, job), t.a.data); }
      }
    }
  }

  lemma IntactIff(hash: string -> nat, t: NetRun, job: Job)
    requires PossibleNet(hash, t) && job in NetOf(hash, t).received && |HeldFor(hash, t, job)| == |job.data|
    ensures HeldFor(hash, t, job) == job.data <==> forall n :: 0 <= n < |job.data| ==> !Spoilt(hash, t, job, n)
  {
    var held := HeldFor(hash, t, job);
    if held == job.data {
      forall n | 0 <= n < |job.data| ensures !Spoilt(hash, t, job, n) { SpoiltIff(hash, t, job, n); }
    } else {
      var n :| 0 <= n < |job.data| && held[n] != job.data[n];
      SpoiltIff(hash, t, job, n);
    }
  }

  /** The exact condition for one handler call, whatever happens to other datagrams: it is given the bytes of its
      datagram if and only if no position of it was spoilt while it was queued. */
  lemma HandlersSeeWhatArrived(hash: string -> nat, t: NetRun, a: NetStep, c: Call)
    requires PossibleNet(hash, NetRun.More(t, a)) && c in CallOf(NetOf(hash, t), a)
    ensures c.bytes == c.job.data <==> forall n :: 0 <= n < |c.job.data| ==> !Spoilt(hash, t, c.job, n)
    ensures LeftAlone(hash, t, c.job) ==> c.bytes == c.job.data
  {
    HandlersSeeTheirSlot(hash, t, a);
    IntactIff(hash, t, c.job);
    if LeftAlone(hash, t, c.job) { LeftAloneIsIntact(hash, t, c.job); }
  }

  // ---------------------------------------------------------------- in time

  /** At most 2N-1 slots have been handed out since that of the datagram. */
  ghost predicate InWindow(s: Net, job: Job) { s.next <= job.slot + 2 * PerBuffer(s.size) }

  /** As `Spoilt`, by a datagram whose slot was handed out earlier: its loop took the slot, and received into it only
      after the allocator had come round. */
  ghost predicate SpoiltByStraggler(hash: string -> nat, t: NetRun, job: Job, n: nat)
    requires PossibleNet(hash, t) && n < |job.data|
  {
    && t.More? && !IsArrivalOf(hash, t, job)
    && var s := NetOf(hash, t.before);
       if t.a.Arrive? && n < |t.a.data| && s.loops[t.a.loop] < job.slot && SharesSlot(s.size, s.loops[t.a.loop], job.slot)
       then t.a.data[n] != job.data[n] else SpoiltByStraggler(hash, t.before, job, n)
  }

  lemma FreshSlotIsNoRival(size: int, slot: nat, n: nat)
    requires size > SLOT && slot < n < slot + 2 * PerBuffer(size)
    ensures !SharesSlot(size, n, slot)
  {
    SharesSlotIff(size, n, slot);
    ReuseDistance(size, n, slot);
  }

  lemma NextGrows(hash: string -> nat, s: Net, a: NetStep)
    requires CanNet(s, a)
    ensures s.next <= NextNet(hash, s, a).next && NextNet(hash, s, a).size == s.size
  {}

  /** Inside the window only stragglers can spoil a datagram. */
  lemma {:induction false} OnlyStragglersSpoil(hash: string -> nat, t: NetRun, job: Job, n: nat)
    requires PossibleNet(hash, t) && n < |job.data| && InWindow(NetOf(hash, t), job)
    ensures Spoilt(hash, t, job, n) <==> SpoiltByStraggler(hash, t, job, n)
  {
    if t.More? {
      var s := NetOf(hash, t.before);
      SlotsAlways(hash, t.before);
      NextGrows(hash, s, t.a);
      OnlyStragglersSpoil(hash, t.before, job, n);
      if t.a.Arrive? && s.loops[t.a.loop] > job.slot { FreshSlotIsNoRival(s.size, job.slot, s.loops[t.a.loop]); }
    }
  }

  /** A handler that ends before 2N further slots are handed out is given its datagram intact if and only if no
      straggling loop spoilt it. */
  lemma HandlersInTime(hash: string -> nat, t: NetRun, a: NetStep, c: Call)
    requires PossibleNet(hash, NetRun.More(t, a)) && c in CallOf(NetOf(hash, t), a) && InWindow(NetOf(hash, t), c.job)
    ensures c.bytes == c.job.data <==> forall n :: 0 <= n < |c.job.data| ==> !SpoiltByStraggler(hash, t, c.job, n)
  {
    HandlersSeeWhatArrived(hash, t, a, c);
    if c.bytes == c.job.data {
      forall n | 0 <= n < |c.job.data| ensures !SpoiltByStraggler(hash, t, c.job, n) {
        OnlyStragglersSpoil(hash, t, c.job, n);
      }
    } else {
      var n :| 0 <= n < |c.job.data| && Spoilt(hash, t, c.job, n);
      OnlyStragglersSpoil(hash, t, c.job, n);
    }
  }

  /** Only event loop `l` receives. */
  ghost predicate OnlyLoop(t: NetRun, l: nat) {
    t.More? ==> OnlyLoop(t.before, l) && (t.a.TakeSlot? ==> t.a.loop == l)
  }

  lemma {:induction false} OneLoopAtMost(hash: string -> nat, t: NetRun, l: nat)
    requires PossibleNet(hash, t) && OnlyLoop(t, l)
    ensures NetOf(hash, t).loops.Keys <= {l}
  {
    if t.More? { OneLoopAtMost(hash, t.before, l); }
  }

  /** A single loop has no slot older than that of a datagram it has already received. */
  lemma {:induction false} OneLoopNeverStraggles(hash: string -> nat, t: NetRun, l: nat, job: Job, n: nat)
    requires PossibleNet(hash, t) && OnlyLoop(t, l) && job in NetOf(hash, t).received && n < |job.data|
    ensures (forall m :: m in NetOf(hash, t).loops ==> NetOf(hash, t).loops[m] > job.slot)
    ensures !SpoiltByStraggler(hash, t, job, n)
  {
    if t.More? {
      var s := NetOf(hash, t.before);
      SlotsAlways(hash, t.before);
      OneLoopAtMost(hash, t.before, l);
      if !t.a.Arrive? { OnlyArriveStores(hash, s, t.a); }
      if !IsArrivalOf(hash, t, job) { OneLoopNeverStraggles(hash, t.before, l, job, n); }
    }
  }

  /** With one event loop every handler that ends inside the window is given its datagram intact. */
  lemma OneLoopInTime(hash: string -> nat, t: NetRun, a: NetStep, c: Call, l: nat)
    requires PossibleNet(hash, NetRun.More(t, a)) && c in CallOf(NetOf(hash, t), a) && InWindow(NetOf(hash, t), c.job)
    requires OnlyLoop(t, l)
    ensures c.bytes == c.job.data
  {
    HandlersSeeTheirSlot(hash, t, a);
    HandlersInTime(hash, t, a, c);
    forall n | 0 <= n < |c.job.data| ensures !SpoiltByStraggler(hash, t, c.job, n) {
      OneLoopNeverStraggles(hash, t, l, c.job, n);
    }
  }

  // ---------------------------------------------------------------- two ways to lose a datagram

  lemma DoNet(hash: string -> nat, t: NetRun, a: NetStep, s: Net) returns (t': NetRun)
    requires PossibleNet(hash, t) && CanNet(NetOf(hash, t), a) && NextNet(hash, NetOf(hash, t), a) == s
    ensures PossibleNet(hash, t') && NetOf(hash, t') == s
  {
    t' := NetRun.More(t, a);
  }

  /** Slots handed out to reads of loop 0 that find the socket empty. */
  lemma {:induction false} EmptyReads(hash: string -> nat, t: NetRun, n: nat) returns (t': NetRun)
    requires PossibleNet(hash, t) && Shape(NetOf(hash, t)) && 0 !in NetOf(hash, t).loops
    ensures PossibleNet(hash, t') && NetOf(hash, t') == NetOf(hash, t).(next := NetOf(hash, t).next + n)
  {
    t' := t;
    if n > 0 {
      t' := EmptyReads(hash, t, n - 1);
      var s := NetOf(hash, t');
      t' := DoNet(hash, t', TakeSlot(0), s.(loops := s.loops[0 := s.next], next := s.next + 1));
      assert s.loops[0 := s.next] - {0} == s.loops;
      t' := DoNet(hash, t', Drained(0), s.(next := s.next + 1));
    }
  }

  /** A pool with these datagrams queued. */
  ghost function Queued(jobs: seq<Job>): Pool<Job> {
    NewPool<Job>(1).(tasks := jobs, submitted := jobs, owed := |jobs|)
  }

  /** One pool, one registered peer, no handler called yet. */
  ghost predicate Waiting(s: Net, size: int, next: nat, loops: map<nat, nat>, jobs: seq<Job>) {
    && Shape(s) && s.size == size && s.next == next && s.loops == loops && s.peers == {"p"} && s.calls == []
    && s.pools == [Queued(jobs)]
  }

  lemma StartWaiting(hash: string -> nat, size: int, mem: seq<seq<byte>>) returns (t: NetRun)
    requires size > SLOT && BuffersOk(mem, size)
    ensures PossibleNet(hash, t) && Waiting(NetOf(hash, t), size, 0, map[], [])
  {
    t := NetRun.Begin(size, mem, 1);
    var s := NetOf(hash, t);
    assert s.pools == [Queued([])];
    t := DoNet(hash, t, RegisterPeer("p"), s.(peers := {"p"}));
  }

  lemma TakeNext(hash: string -> nat, t: NetRun, l: nat, size: int, next: nat, loops: map<nat, nat>, jobs: seq<Job>)
    returns (t': NetRun)
    requires PossibleNet(hash, t) && Waiting(NetOf(hash, t), size, next, loops, jobs) && l !in loops
    ensures PossibleNet(hash, t') && Waiting(NetOf(hash, t'), size, next + 1, loops[l := next], jobs)
  {
    t' := NetRun.More(t, TakeSlot(l));
  }

  /** Loop `l` receives `data` into its slot. */
  lemma ReceiveNext(hash: string -> nat, t: NetRun, l: nat, data: Datagram, size: int, next: nat,
                    loops: map<nat, nat>, jobs: seq<Job>) returns (t': NetRun)
    requires PossibleNet(hash, t) && Waiting(NetOf(hash, t), size, next, loops, jobs) && l in loops
    ensures t' == NetRun.More(t, Arrive(l, "p", data)) && PossibleNet(hash, t')
    ensures Waiting(NetOf(hash, t'), size, next, loops - {l}, jobs + [Job("p", loops[l], data)])
  {
    var s := NetOf(hash, t);
    t' := NetRun.More(t, Arrive(l, "p", data));
    ArriveContent(hash, s, t'.a, 0, 0);
    assert Route(hash, s, "p") == 0;
    assert NetOf(hash, t').pools == [Step(Queued(jobs), Submit(Job("p", loops[l], data)))];
  }

  /** What a one-byte datagram leaves in a slot that is the same memory. */
  lemma OneByteOver(hash: string -> nat, s: Net, l: nat, b: byte, n: nat)
    requires CanNet(s, Arrive(l, "p", [b])) && SharesSlot(s.size, s.loops[l], n)
    ensures Shape(NextNet(hash, s, Arrive(l, "p", [b])))
    ensures Content(NextNet(hash, s, Arrive(l, "p", [b])), n, 1) == [b]
  {
    ArriveContent(hash, s, Arrive(l, "p", [b]), n, 1);
    assert [b][..1] == [b];
  }

  lemma RoundTheBuffers(size: int)
    requires size > SLOT
    ensures SharesSlot(size, 0, 2 * PerBuffer(size)) && SharesSlot(size, 2 * PerBuffer(size), 0)
  {
    DivUnique(2 * PerBuffer(size), 2 * PerBuffer(size), 1, 0);
  }

  /** The worker takes the first queued datagram and handles it. */
  lemma HandleFirst(hash: string -> nat, t: NetRun, size: int, next: nat, loops: map<nat, nat>, first: Job, second: Job)
    returns (t': NetRun)
    requires PossibleNet(hash, t) && Waiting(NetOf(hash, t), size, next, loops, [first, second]) && first.peer == "p"
    ensures PossibleNet(hash, t') && NetOf(hash, t').next == next
    ensures NetOf(hash, t').calls == [Call(first, Content(NetOf(hash, t), first.slot, |first.data|))]
  {
    var s := NetOf(hash, t);
    var r := NextNet(hash, s, Worker(0, Enter(0)));
    assert CanNet(s, Worker(0, Enter(0))) && r.pools[0].workers[0] == Running(first);
    assert CallOf(r, Worker(0, Finish(0))) == [Call(first, Content(s, first.slot, |first.data|))];
    t' := NetRun.More(NetRun.More(t, Worker(0, Enter(0))), Worker(0, Finish(0)));
  }

  lemma ReceivedFirst(hash: string -> nat, size: int, mem: seq<seq<byte>>) returns (t: NetRun)
    requires size > SLOT && BuffersOk(mem, size)
    ensures PossibleNet(hash, t) && Waiting(NetOf(hash, t), size, 1, map[], [Job("p", 0, [0])])
  {
    t := StartWaiting(hash, size, mem);
    t := TakeNext(hash, t, 0, size, 0, map[], []);
    t := ReceiveNext(hash, t, 0, [0], size, 1, map[0 := 0], []);
    assert [] + [Job("p", 0, [0])] == [Job("p", 0, [0])] && map[0 := 0] - {0} == map[];
  }

  /** Whatever the buffer size: a handler that is called only after 2N further slots were handed out can be given
      another datagram's bytes. */
  lemma SlowHandlerSeesOther(hash: string -> nat, size: int, mem: seq<seq<byte>>) returns (t: NetRun)
    requires size > SLOT && BuffersOk(mem, size)
    ensures PossibleNet(hash, t) && NetOf(hash, t).calls == [Call(Job("p", 0, [0]), [1])]
  {
    var n, first, second := 2 * PerBuffer(size), Job("p", 0, [0]), Job("p", 2 * PerBuffer(size), [1]);
    t := ReceivedFirst(hash, size, mem);
    t := EmptyReads(hash, t, n - 1);
    t := TakeNext(hash, t, 0, size, n, map[], [first]);
    RoundTheBuffers(size);
    OneByteOver(hash, NetOf(hash, t), 0, 1, 0);
    t := ReceiveNext(hash, t, 0, second.data, size, n + 1, map[0 := n], [first]);
    assert [first] + [second] == [first, second] && map[0 := n] - {0} == map[];
    t := HandleFirst(hash, t, size, n + 1, map[], first, second);
  }

  /** Whatever the buffer size: when several loops share the cursor, a datagram can be spoilt although no further slot
      was handed out.  Loop 1 takes a slot and stalls; loop 0 comes round to the same memory and receives; then loop 1
      receives. */
  lemma StragglerSpoilsOther(hash: string -> nat, size: int, mem: seq<seq<byte>>) returns (t: NetRun)
    requires size > SLOT && BuffersOk(mem, size)
    ensures PossibleNet(hash, t)
    ensures var slot := 2 * PerBuffer(size);
            NetOf(hash, t).next == slot + 1 && NetOf(hash, t).calls == [Call(Job("p", slot, [0]), [1])]
  {
    var n, first, second := 2 * PerBuffer(size), Job("p", 2 * PerBuffer(size), [0]), Job("p", 0, [1]);
    RoundTheBuffers(size);
    t := StartWaiting(hash, size, mem);
    t := TakeNext(hash, t, 1, size, 0, map[], []);
    t := EmptyReads(hash, t, n - 1);
    t := TakeNext(hash, t, 0, size, n, map[1 := 0], []);
    t := ReceiveNext(hash, t, 0, first.data, size, n + 1, map[1 := 0, 0 := n], []);
    assert [] + [first] == [first] && map[1 := 0, 0 := n] - {0} == map[1 := 0];
    OneByteOver(hash, NetOf(hash, t), 1, 1, n);
    t := ReceiveNext(hash, t, 1, second.data, size, n + 1, map[1 := 0], [first]);
    assert [first] + [second] == [first, second] && map[1 := 0] - {1} == map[];
    t := HandleFirst(hash, t, size, n + 1, map[], first, second);
  }
}

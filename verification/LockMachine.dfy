/** The device (GB) path at the level of lock operations: event-loop threads running the RTSP handlers,
    gRPC threads running invite replies and network threads running the packet handler, interleaved
    in every possible way.  A thread takes one lock, or does the work of one critical section, per
    step; all its locks are released when its last critical section ends. */
module LockMachine {
  import opened VideoUrl
  import opened Framing
  import opened Sharing
  import opened Producer

  type Tid = nat

  /** What an event-loop thread was called for. */
  datatype Op = OpOptions(c: Client, k: Key) | OpDescribe(c: Client, k: Key)
              | OpPlay(c: Client, k: Key) | OpClose(c: Client)

  /** The answer to an invite: `ok` when the call succeeded with a device response, `coders` when the
      demuxer and the payload encoder could be created. */
  datatype Reply = Reply(ok: bool, coders: bool, inviteId: string, sdp: string, peer: string)

  /** Where a thread is.  `Want..`: about to take that lock; `Has..`: inside its critical section. */
  datatype Pc =
    | Idle
    | WantServers(op: Op)
    | WantProxies(op: Op)
    | Ready(op: Op)
    | WantClients(op: Op, id: ProxyId)
    | HasClients(op: Op, id: ProxyId)
    | WantContexts(op: Op, k: Key, id: ProxyId)
    | HasContexts(op: Op, k: Key, id: ProxyId)
    | ReplyWantContexts(k: Key, cid: CtxId, reply: Reply)
    | ReplyHasContexts(k: Key, cid: CtxId, reply: Reply)
    | ReplyWantClients(k: Key, cid: CtxId, reply: Reply, id: ProxyId)
    | ReplyHasClients(k: Key, cid: CtxId, reply: Reply, id: ProxyId)
    | ReplyWantPeers(k: Key, cid: CtxId, reply: Reply)
    | ReplyHasPeers(k: Key, cid: CtxId, reply: Reply)
    | ReplyFails(k: Key, cid: CtxId, reply: Reply, id: ProxyId)  // inside the error callback, which takes no lock
    | PacketWantPeers(peer: string, data: seq<byte>)
    | PacketHasPeers(peer: string, data: seq<byte>)
    | PacketWantContexts(k: Key, cid: CtxId, data: seq<byte>)
    | PacketHasContexts(k: Key, cid: CtxId, data: seq<byte>)
    | PacketWantClients(k: Key, cid: CtxId, data: seq<byte>, id: ProxyId)
    | PacketHasClients(k: Key, cid: CtxId, data: seq<byte>, id: ProxyId)

  // ---------------------------------------------------------------- locks

  /** `mRtspServerMutex`, `mProxyInfoMutex`, one `mClientMutex` per proxy, `mRtpContextMutex`, and
      `NetworkServer::mMutex`. */
  datatype Lock = Servers | Proxies | Clients(id: ProxyId) | ContextMap | Peers

  datatype Mode = Free | Shared | Unique

  predicate Conflict(a: Mode, b: Mode) {
    (a == Unique && b != Free) || (b == Unique && a != Free)
  }

  predicate IsHandler(pc: Pc) {
    pc.WantProxies? || pc.Ready? || pc.WantClients? || pc.HasClients? || pc.WantContexts? || pc.HasContexts?
  }

  predicate ReplyInside(pc: Pc) {
    pc.ReplyHasContexts? || pc.ReplyFails? || ReplyPast(pc)
  }

  /** The reply has found its context and is setting up the stream. */
  predicate ReplyPast(pc: Pc) {
    pc.ReplyWantClients? || pc.ReplyHasClients? || pc.ReplyWantPeers? || pc.ReplyHasPeers?
  }

  predicate PacketInside(pc: Pc) {
    pc.PacketHasContexts? || PacketPast(pc)
  }

  predicate PacketPast(pc: Pc) { pc.PacketWantClients? || pc.PacketHasClients? }

  /** How a thread holds a lock. */
  function Held(pc: Pc, l: Lock): Mode {
    match l
    case Servers => if !IsHandler(pc) then Free else if pc.op.OpClose? then Unique else Shared
    case Proxies => if IsHandler(pc) && !pc.WantProxies? && !pc.op.OpPlay? then Unique else Free
    case Clients(id) =>
      if (pc.HasClients? || pc.ReplyHasClients?) && pc.id == id then Unique
      else if (pc.WantContexts? || pc.HasContexts?) && pc.op.OpDescribe? && pc.id == id then Unique
      else if pc.PacketHasClients? && pc.id == id then Shared
      else Free
    case ContextMap =>
      if pc.HasContexts? then Unique else if ReplyInside(pc) || PacketInside(pc) then Shared else Free
    case Peers =>
      if pc.ReplyHasPeers? then Unique
      else if pc.PacketHasPeers? || pc.PacketWantContexts? || PacketInside(pc) then Shared
      else Free
  }

  datatype Request = Nothing | For(l: Lock, m: Mode)

  function Wants(pc: Pc): Request {
    match pc
    case WantServers(op) => For(Servers, if op.OpClose? then Unique else Shared)
    case WantProxies(_) => For(Proxies, Unique)
    case WantClients(_, id) => For(Clients(id), Unique)
    case WantContexts(_, _, _) => For(ContextMap, Unique)
    case ReplyWantContexts(_, _, _) => For(ContextMap, Shared)
    case ReplyWantClients(_, _, _, id) => For(Clients(id), Unique)
    case ReplyWantPeers(_, _, _) => For(Peers, Unique)
    case PacketWantPeers(_, _) => For(Peers, Shared)
    case PacketWantContexts(_, _, _) => For(ContextMap, Shared)
    case PacketWantClients(_, _, _, id) => For(Clients(id), Shared)
    case _ => Nothing
  }

  function Granted(pc: Pc): Pc
    requires Wants(pc) != Nothing
  {
    match pc
    case WantServers(op) => if op.OpPlay? then Ready(op) else WantProxies(op)
    case WantProxies(op) => Ready(op)
    case WantClients(op, id) => HasClients(op, id)
    case WantContexts(op, k, id) => HasContexts(op, k, id)
    case ReplyWantContexts(k, cid, reply) => ReplyHasContexts(k, cid, reply)
    case ReplyWantClients(k, cid, reply, id) => ReplyHasClients(k, cid, reply, id)
    case ReplyWantPeers(k, cid, reply) => ReplyHasPeers(k, cid, reply)
    case PacketWantPeers(peer, data) => PacketHasPeers(peer, data)
    case PacketWantContexts(k, cid, data) => PacketHasContexts(k, cid, data)
    case PacketWantClients(k, cid, data, id) => PacketHasClients(k, cid, data, id)
  }

  // ---------------------------------------------------------------- shared data

  /** `called`: proxies for which `RegisterVideo` has run.  `issued`, `acked`, `torn`: session ids the
      signalling server handed out, the ones acknowledged, the ones torn down. */
  datatype Data = Data(
    svc: Service, prod: Contexts, peers: map<string, (Key, CtxId)>, called: set<ProxyId>,
    issued: set<string>, acked: set<string>, torn: multiset<string>)

  const NO_DATA := Data(INIT, NO_CONTEXTS, map[], {}, {}, {}, multiset{})

  predicate BoundLive(d: Data, k: Key, id: ProxyId) {
    k in d.svc.live && d.svc.live[k].id == id
  }

  predicate Works(pc: Pc) { pc != Idle && Wants(pc) == Nothing }

  /** The one part of the work left to the environment: where `Close` stops searching. */
  ghost predicate CanWork(d: Data, pc: Pc, at: Option<Key>) {
    && Works(pc)
    && (pc.Ready? && pc.op.OpClose? ==> StopsAt(d.svc, pc.op.c, at))
  }

  /** The protocol step a critical section performs, if any.  A registration that meets a context of the same
      video, and a failed reply, run the error callback. */
  ghost function StepOf(d: Data, pc: Pc, at: Option<Key>): Option<Event> {
    match pc
    case Ready(OpOptions(c, k)) => if k in d.svc.live then None else Some(Options(c, k))
    case Ready(OpDescribe(c, k)) => if k in d.svc.live then None else Some(Describe(c, k))
    case Ready(OpPlay(c, k)) => if k in d.svc.live then None else Some(Play(c, k))
    case Ready(OpClose(c)) => Some(Close(c, at))
    case HasClients(OpOptions(c, k), _) => Some(Options(c, k))
    case HasClients(OpDescribe(c, k), _) => Some(Describe(c, k))
    case HasClients(OpPlay(c, k), _) => Some(Play(c, k))
    case HasContexts(OpDescribe(_, _), k, id) =>
      if Rejects(d.prod, k) && BoundLive(d, k, id) then Some(SourceError(k)) else None
    case ReplyHasClients(k, _, reply, id) => if BoundLive(d, k, id) then Some(SdpArrives(k, reply.sdp)) else None
    case ReplyFails(k, _, _, id) => if BoundLive(d, k, id) then Some(SourceError(k)) else None
    case PacketHasClients(k, _, data, id) =>
      if BoundLive(d, k, id) && Sendable(data) then Some(Packet(k, data)) else None
    case _ => None
  }

  ghost function WorkData(d: Data, pc: Pc, at: Option<Key>): Data
    requires CanWork(d, pc, at)
  {
    match pc
    case HasContexts(OpDescribe(_, _), k, id) =>
      d.(prod := Register(d.prod, k, id), called := d.called + {id})
    case HasContexts(OpClose(_), k, _) =>
      var torn := TornDownBy(d.prod, k);
      d.(prod := Unregister(d.prod, k), torn := if torn.Some? then d.torn + multiset{torn.value} else d.torn)
    case ReplyHasContexts(k, cid, reply) =>
      if Alive(d.prod, k, cid) && reply.ok then d.(prod := SetInvite(d.prod, k, reply.inviteId)) else d
    case ReplyHasPeers(k, cid, reply) =>
      d.(peers := if reply.peer in d.peers then d.peers else d.peers[reply.peer := (k, cid)],
         acked := d.acked + {reply.inviteId})
    case _ => TakeStep(d, StepOf(d, pc, at))
  }

  ghost function TakeStep(d: Data, e: Option<Event>): Data {
    if e.Some? && Enabled(d.svc, e.value) then d.(svc := Next(d.svc, e.value)) else d
  }

  ghost function WorkPc(d: Data, pc: Pc, at: Option<Key>): Pc
    requires CanWork(d, pc, at)
  {
    match pc
    case Ready(OpClose(c)) =>
      if at.Some? && Abandoned(ProxyRemove(d.svc.live[at.value], c)) && d.svc.live[at.value].registered
      then WantContexts(pc.op, at.value, d.svc.live[at.value].id) else Idle
    case Ready(op) =>
      if op.k in d.svc.live then WantClients(op, d.svc.live[op.k].id) else Idle
    case HasClients(OpDescribe(c, k), id) =>
      if k in d.svc.live && NeedsSource(d.svc.live[k]) then WantContexts(pc.op, k, id) else Idle
    case ReplyHasContexts(k, cid, reply) =>
      if !Alive(d.prod, k, cid) then Idle
      else if reply.ok && reply.coders then ReplyWantClients(k, cid, reply, d.prod.byKey[k].boundTo)
      else ReplyFails(k, cid, reply, d.prod.byKey[k].boundTo)
    case ReplyHasClients(k, cid, reply, _) => ReplyWantPeers(k, cid, reply)
    case PacketHasPeers(peer, data) =>
      if peer in d.peers then PacketWantContexts(d.peers[peer].0, d.peers[peer].1, data) else Idle
    case PacketHasContexts(k, cid, data) =>
      if Alive(d.prod, k, cid) then PacketWantClients(k, cid, data, d.prod.byKey[k].boundTo) else Idle
    case _ => Idle
  }

  // ---------------------------------------------------------------- the machine

  datatype Sys = Sys(data: Data, pcs: map<Tid, Pc>)

  function PcOf(s: Sys, t: Tid): Pc { if t in s.pcs then s.pcs[t] else Idle }

  datatype Step =
    | Call(t: Tid, op: Op)
    | Answer(t: Tid, cid: CtxId, reply: Reply)
    | Arrive(t: Tid, peer: string, data: seq<byte>)
    | Acquire(t: Tid)
    | Work(t: Tid, at: Option<Key>)

  /** Thread `t` waits for `u`, possibly for itself.  With `writersFirst`, a reader also waits for a waiting
      writer. */
  predicate WaitsFor(s: Sys, writersFirst: bool, t: Tid, u: Tid) {
    var r := Wants(PcOf(s, t));
    r != Nothing
    && (Conflict(r.m, Held(PcOf(s, u), r.l))
        || (writersFirst && r.m == Shared && Wants(PcOf(s, u)) == For(r.l, Unique)))
  }

  /** Session ids are non-empty and never handed out twice; each call is answered at most once. */
  ghost predicate Can(s: Sys, writersFirst: bool, a: Step) {
    match a
    case Call(t, op) => PcOf(s, t) == Idle && (!op.OpClose? ==> KindOf(op.k) == GbSource)
    case Answer(t, cid, reply) =>
      && PcOf(s, t) == Idle && cid in s.data.prod.outstanding
      && reply.sdp != "" && reply.inviteId != "" && reply.inviteId !in s.data.issued
    case Arrive(t, _, _) => PcOf(s, t) == Idle
    case Acquire(t) => Wants(PcOf(s, t)) != Nothing && forall u :: !WaitsFor(s, writersFirst, t, u)
    case Work(t, at) => CanWork(s.data, PcOf(s, t), at)
  }

  ghost function After(s: Sys, writersFirst: bool, a: Step): Sys
    requires Can(s, writersFirst, a)
  {
    match a
    case Call(t, op) => s.(pcs := s.pcs[t := WantServers(op)])
    case Answer(t, cid, reply) =>
      var p := s.data.prod;
      Sys(s.data.(prod := p.(outstanding := p.outstanding - {cid}), issued := s.data.issued + {reply.inviteId}),
          s.pcs[t := ReplyWantContexts(p.outstanding[cid], cid, reply)])
    case Arrive(t, peer, data) => s.(pcs := s.pcs[t := PacketWantPeers(peer, data)])
    case Acquire(t) => s.(pcs := s.pcs[t := Granted(PcOf(s, t))])
    case Work(t, at) =>
      Sys(WorkData(s.data, PcOf(s, t), at), s.pcs[t := WorkPc(s.data, PcOf(s, t), at)])
  }

  datatype History = Begin | More(before: History, a: Step)

  ghost predicate Possible(h: History, writersFirst: bool)
    decreases h, 0
  {
    h.More? ==> Possible(h.before, writersFirst) && Can(StateOf(h.before, writersFirst), writersFirst, h.a)
  }

  ghost function StateOf(h: History, writersFirst: bool): Sys
    requires Possible(h, writersFirst)
    decreases h, 1
  {
    if h.Begin? then Sys(NO_DATA, map[]) else After(StateOf(h.before, writersFirst), writersFirst, h.a)
  }
}

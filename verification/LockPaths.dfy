/** Single threads of the lock machine run to their end: every request, reply and packet does there what it does in
    the atomic protocol. */
module LockPaths {
  import opened VideoUrl
  import opened Framing
  import opened Sharing
  import opened Producer
  import opened LockMachine
  import opened LockTheorems
  import opened LockRefinement

  /** A history being built: where it started, where it is, and the protocol steps it has taken. */
  datatype Path = Path(from: History, now: History, run: Run)

  ghost predicate Reached(p: Path, s: Sys) {
    && Possible(p.from, true) && Possible(p.now, true) && Extends(p.from, p.now)
    && StateOf(p.now, true) == s && ProtocolRun(p.now, true) == p.run
  }

  /** The path has gone on without a protocol step, or with exactly one. */
  ghost predicate Same(p: Path, p': Path) { p'.from == p.from && p'.run == p.run }

  ghost predicate Took(p: Path, p': Path, e: Event) { p'.from == p.from && p'.run == Then(p.run, e) }

  ghost predicate TookMaybe(p: Path, p': Path, e: Option<Event>) {
    if e.Some? then Took(p, p', e.value) else Same(p, p')
  }

  ghost function Moved(s: Sys, d: Data, t: Tid, pc: Pc): Sys { Sys(d, s.pcs[t := pc]) }

  lemma Do(p: Path, s: Sys, a: Step, s': Sys) returns (p': Path)
    requires Reached(p, s) && Can(s, true, a) && After(s, true, a) == s'
    ensures Reached(p', s') && TookMaybe(p, p', Taken(s, a))
  {
    var e := Taken(s, a);
    p' := Path(p.from, More(p.now, a), if e.Some? then Then(p.run, e.value) else p.run);
  }

  /** Nobody else holds or awaits a lock thread `t` is about to take. */
  ghost predicate Unhindered(s: Sys, t: Tid, l: Lock) {
    forall u: Tid :: u != t ==> Held(PcOf(s, u), l) == Free && Wants(PcOf(s, u)) != For(l, Unique)
  }

  /** Thread `t`, at `pc`, takes the lock it wants. */
  lemma Take(p: Path, s: Sys, d: Data, t: Tid, pc: Pc) returns (p': Path)
    requires Reached(p, Moved(s, d, t, pc)) && Wants(pc) != Nothing && Unhindered(s, t, Wants(pc).l)
    ensures Reached(p', Moved(s, d, t, Granted(pc))) && Same(p, p')
  {
    var r := Moved(s, d, t, pc);
    forall u: Tid ensures !WaitsFor(r, true, t, u) {
      if u != t { assert PcOf(r, u) == PcOf(s, u); } else { NoSelfWait(r, true, t); }
    }
    assert s.pcs[t := pc][t := Granted(pc)] == s.pcs[t := Granted(pc)];
    p' := Do(p, r, Acquire(t), Moved(s, d, t, Granted(pc)));
  }

  /** Thread `t`, at `pc`, does the work of its critical section. */
  lemma Section(p: Path, s: Sys, d: Data, t: Tid, pc: Pc, at: Option<Key>, d': Data, pc': Pc) returns (p': Path)
    requires Reached(p, Moved(s, d, t, pc)) && CanWork(d, pc, at)
    requires d' == WorkData(d, pc, at) && pc' == WorkPc(d, pc, at)
    ensures Reached(p', Moved(s, d', t, pc')) && TookMaybe(p, p', StepOf(d, pc, at))
  {
    assert s.pcs[t := pc][t := pc'] == s.pcs[t := pc'];
    p' := Do(p, Moved(s, d, t, pc), Work(t, at), Moved(s, d', t, pc'));
  }

  ghost predicate Alone(s: Sys, t: Tid) {
    forall u: Tid :: u != t ==> PcOf(s, u) == Idle
  }

  lemma AloneIsUnhindered(s: Sys, t: Tid, l: Lock)
    requires Alone(s, t)
    ensures Unhindered(s, t, l)
  {
    forall u: Tid | u != t ensures Held(PcOf(s, u), l) == Free && Wants(PcOf(s, u)) != For(l, Unique) {
      assert PcOf(s, u) == Idle;
    }
  }

  ghost predicate Quiet(s: Sys, t: Tid) { PcOf(s, t) == Idle && Alone(s, t) }

  /** Thread `t` is called and takes the first locks of its handler. */
  lemma Enter(p: Path, s: Sys, t: Tid, op: Op) returns (p': Path)
    requires Reached(p, s) && PcOf(s, t) == Idle && (!op.OpClose? ==> KindOf(op.k) == GbSource)
    requires Unhindered(s, t, Servers) && Unhindered(s, t, Proxies)
    ensures Reached(p', Moved(s, s.data, t, Ready(op))) && Same(p, p')
  {
    p' := Do(p, s, Call(t, op), Moved(s, s.data, t, WantServers(op)));
    p' := Take(p', s, s.data, t, WantServers(op));
    if !op.OpPlay? { p' := Take(p', s, s.data, t, WantProxies(op)); }
  }

  lemma EnterQuiet(p: Path, s: Sys, t: Tid, op: Op) returns (p': Path)
    requires Reached(p, s) && Quiet(s, t) && (!op.OpClose? ==> KindOf(op.k) == GbSource)
    ensures Reached(p', Moved(s, s.data, t, Ready(op))) && Same(p, p')
  {
    AloneIsUnhindered(s, t, Servers);
    AloneIsUnhindered(s, t, Proxies);
    p' := Enter(p, s, t, op);
  }

  /** A request that finds its proxy goes on to the client lock. */
  lemma AtClients(p: Path, s: Sys, t: Tid, op: Op) returns (p': Path)
    requires Reached(p, s) && Quiet(s, t) && !op.OpClose? && KindOf(op.k) == GbSource && op.k in s.data.svc.live
    ensures Reached(p', Moved(s, s.data, t, HasClients(op, s.data.svc.live[op.k].id))) && Same(p, p')
  {
    var d, id := s.data, s.data.svc.live[op.k].id;
    AloneIsUnhindered(s, t, Clients(id));
    p' := EnterQuiet(p, s, t, op);
    p' := Section(p', s, d, t, Ready(op), None, d, WantClients(op, id));
    p' := Take(p', s, d, t, WantClients(op, id));
  }

  ghost function EventOf(op: Op): Event
    requires !op.OpClose?
  {
    match op
    case OpOptions(c, k) => Options(c, k)
    case OpDescribe(c, k) => Describe(c, k)
    case OpPlay(c, k) => Play(c, k)
  }

  ghost function Handled(d: Data, op: Op): Data
    requires !op.OpClose?
  {
    d.(svc := Next(d.svc, EventOf(op)))
  }

  /** Every request on an existing proxy is one protocol step; all but the first DESCRIBE end there. */
  lemma RequestAtClients(p: Path, s: Sys, t: Tid, op: Op) returns (p': Path)
    requires Reached(p, s) && Quiet(s, t) && !op.OpClose? && KindOf(op.k) == GbSource && op.k in s.data.svc.live
    ensures var id := s.data.svc.live[op.k].id;
            Reached(p', Moved(s, Handled(s.data, op), t,
                              if op.OpDescribe? && NeedsSource(s.data.svc.live[op.k]) then WantContexts(op, op.k, id) else Idle))
    ensures Took(p, p', EventOf(op))
  {
    var d, id := s.data, s.data.svc.live[op.k].id;
    p' := AtClients(p, s, t, op);
    p' := Section(p', s, d, t, HasClients(op, id), None, Handled(d, op),
                  if op.OpDescribe? && NeedsSource(d.svc.live[op.k]) then WantContexts(op, op.k, id) else Idle);
  }

  /** A request that finds no proxy: OPTIONS makes one, the others do nothing. */
  lemma RequestWithoutProxy(p: Path, s: Sys, t: Tid, op: Op) returns (p': Path)
    requires Reached(p, s) && Quiet(s, t) && !op.OpClose? && KindOf(op.k) == GbSource && op.k !in s.data.svc.live
    ensures Reached(p', Moved(s, Handled(s.data, op), t, Idle)) && Took(p, p', EventOf(op))
  {
    p' := EnterQuiet(p, s, t, op);
    p' := Section(p', s, s.data, t, Ready(op), None, Handled(s.data, op), Idle);
  }

  ghost function Described(d: Data, c: Client, k: Key): Data
    requires k in d.svc.live
  {
    var id := d.svc.live[k].id;
    d.(svc := Next(d.svc, Describe(c, k)), prod := Register(d.prod, k, id), called := d.called + {id})
  }

  /** The first DESCRIBE registers the video. */
  lemma RunDescribe(p: Path, s: Sys, t: Tid, c: Client, k: Key) returns (p': Path)
    requires Reached(p, s) && Quiet(s, t) && KindOf(k) == GbSource
    requires k in s.data.svc.live && NeedsSource(s.data.svc.live[k]) && k !in s.data.prod.byKey
    ensures Reached(p', Moved(s, Described(s.data, c, k), t, Idle)) && Took(p, p', Describe(c, k))
  {
    var op, id := OpDescribe(c, k), s.data.svc.live[k].id;
    var d1 := Handled(s.data, op);
    AloneIsUnhindered(s, t, ContextMap);
    p' := RequestAtClients(p, s, t, op);
    p' := RunRegister(p', s, d1, t, c, k, id);
  }

  /** The second half: `RegisterVideo` under the context lock. */
  lemma RunRegister(p: Path, s: Sys, d: Data, t: Tid, c: Client, k: Key, id: ProxyId) returns (p': Path)
    requires Reached(p, Moved(s, d, t, WantContexts(OpDescribe(c, k), k, id))) && Unhindered(s, t, ContextMap)
    requires k !in d.prod.byKey
    ensures Reached(p', Moved(s, d.(prod := Register(d.prod, k, id), called := d.called + {id}), t, Idle)) && Same(p, p')
  {
    p' := Take(p, s, d, t, WantContexts(OpDescribe(c, k), k, id));
    p' := Section(p', s, d, t, HasContexts(OpDescribe(c, k), k, id), None,
                  d.(prod := Register(d.prod, k, id), called := d.called + {id}), Idle);
  }

  /** `Close`, up to the point where it wants to unregister, if it does. */
  lemma CloseErases(p: Path, s: Sys, t: Tid, c: Client, at: Option<Key>) returns (p': Path)
    requires Reached(p, s) && PcOf(s, t) == Idle && Unhindered(s, t, Servers) && Unhindered(s, t, Proxies)
    requires StopsAt(s.data.svc, c, at)
    ensures Reached(p', Moved(s, s.data.(svc := Next(s.data.svc, Close(c, at))), t,
              if at.Some? && Abandoned(ProxyRemove(s.data.svc.live[at.value], c)) && s.data.svc.live[at.value].registered
              then WantContexts(OpClose(c), at.value, s.data.svc.live[at.value].id) else Idle))
    ensures Took(p, p', Close(c, at))
  {
    var d, op := s.data, OpClose(c);
    p' := Enter(p, s, t, op);
    p' := Section(p', s, d, t, Ready(op), at, d.(svc := Next(d.svc, Close(c, at))),
                  if at.Some? && Abandoned(ProxyRemove(d.svc.live[at.value], c)) && d.svc.live[at.value].registered
                  then WantContexts(op, at.value, d.svc.live[at.value].id) else Idle);
  }

  ghost function Unregistered(d: Data, k: Key): Data {
    var torn := TornDownBy(d.prod, k);
    d.(prod := Unregister(d.prod, k), torn := if torn.Some? then d.torn + multiset{torn.value} else d.torn)
  }

  lemma FinishClose(p: Path, s: Sys, d: Data, t: Tid, c: Client, k: Key, id: ProxyId) returns (p': Path)
    requires Reached(p, Moved(s, d, t, WantContexts(OpClose(c), k, id))) && Alone(s, t)
    ensures Reached(p', Moved(s, Unregistered(d, k), t, Idle)) && Same(p, p')
  {
    AloneIsUnhindered(s, t, ContextMap);
    p' := Take(p, s, d, t, WantContexts(OpClose(c), k, id));
    p' := Section(p', s, d, t, HasContexts(OpClose(c), k, id), None, Unregistered(d, k), Idle);
  }

  ghost predicate Answerable(d: Data, k: Key, cid: CtxId, reply: Reply) {
    && cid in d.prod.outstanding && d.prod.outstanding[cid] == k && Alive(d.prod, k, cid)
    && BoundLive(d, k, d.prod.byKey[k].boundTo) && d.prod.byKey[k].boundTo in d.svc.owed
    && reply.ok && reply.coders && reply.sdp != "" && reply.inviteId != "" && reply.inviteId !in d.issued
  }

  ghost function Replied(d: Data, k: Key, cid: CtxId, reply: Reply): Data
    requires Answerable(d, k, cid, reply)
  {
    var q := SetInvite(d.prod, k, reply.inviteId);
    d.(svc := Next(d.svc, SdpArrives(k, reply.sdp)), prod := q.(outstanding := q.outstanding - {cid}),
       issued := d.issued + {reply.inviteId})
  }

  lemma ReplyFindsContext(p: Path, s: Sys, t: Tid, k: Key, cid: CtxId, reply: Reply) returns (p': Path)
    requires Reached(p, s) && PcOf(s, t) == Idle && Answerable(s.data, k, cid, reply)
    requires Unhindered(s, t, ContextMap)
    ensures var q := s.data.prod.(outstanding := s.data.prod.outstanding - {cid});
            Reached(p', Moved(s, s.data.(prod := SetInvite(q, k, reply.inviteId), issued := s.data.issued + {reply.inviteId}),
                              t, ReplyWantClients(k, cid, reply, s.data.prod.byKey[k].boundTo)))
    ensures Same(p, p')
  {
    var d, id := s.data, s.data.prod.byKey[k].boundTo;
    var d1 := d.(prod := d.prod.(outstanding := d.prod.outstanding - {cid}), issued := d.issued + {reply.inviteId});
    p' := Do(p, s, Answer(t, cid, reply), Moved(s, d1, t, ReplyWantContexts(k, cid, reply)));
    p' := Take(p', s, d1, t, ReplyWantContexts(k, cid, reply));
    p' := Section(p', s, d1, t, ReplyHasContexts(k, cid, reply), None,
                  d1.(prod := SetInvite(d1.prod, k, reply.inviteId)), ReplyWantClients(k, cid, reply, id));
  }

  /** An invite is answered, up to the point where the reply wants the peer lock. */
  lemma RunReply(p: Path, s: Sys, t: Tid, k: Key, cid: CtxId, reply: Reply) returns (p': Path)
    requires Reached(p, s) && PcOf(s, t) == Idle && Answerable(s.data, k, cid, reply)
    requires Unhindered(s, t, ContextMap) && Unhindered(s, t, Clients(s.data.prod.byKey[k].boundTo))
    ensures Reached(p', Moved(s, Replied(s.data, k, cid, reply), t, ReplyWantPeers(k, cid, reply)))
    ensures Took(p, p', SdpArrives(k, reply.sdp))
  {
    var d, id := s.data, s.data.prod.byKey[k].boundTo;
    var q := d.prod.(outstanding := d.prod.outstanding - {cid});
    var d2 := d.(prod := SetInvite(q, k, reply.inviteId), issued := d.issued + {reply.inviteId});
    p' := ReplyFindsContext(p, s, t, k, cid, reply);
    p' := Take(p', s, d2, t, ReplyWantClients(k, cid, reply, id));
    p' := Section(p', s, d2, t, ReplyHasClients(k, cid, reply, id), None,
                  Replied(d, k, cid, reply), ReplyWantPeers(k, cid, reply));
  }

  /** The peer is registered unless it already is, and the session acknowledged. */
  ghost function Acknowledged(d: Data, k: Key, cid: CtxId, reply: Reply): Data {
    d.(peers := if reply.peer in d.peers then d.peers else d.peers[reply.peer := (k, cid)],
       acked := d.acked + {reply.inviteId})
  }

  lemma FinishReply(p: Path, s: Sys, d: Data, t: Tid, k: Key, cid: CtxId, reply: Reply) returns (p': Path)
    requires Reached(p, Moved(s, d, t, ReplyWantPeers(k, cid, reply))) && Alone(s, t)
    ensures Reached(p', Moved(s, Acknowledged(d, k, cid, reply), t, Idle)) && Same(p, p')
  {
    AloneIsUnhindered(s, t, Peers);
    p' := Take(p, s, d, t, ReplyWantPeers(k, cid, reply));
    p' := Section(p', s, d, t, ReplyHasPeers(k, cid, reply), None, Acknowledged(d, k, cid, reply), Idle);
  }

  lemma RunPacket(p: Path, s: Sys, t: Tid, peer: string, data: seq<byte>) returns (p': Path)
    requires Reached(p, s) && PcOf(s, t) == Idle && Alone(s, t) && peer in s.data.peers
    ensures Reached(p', Moved(s, s.data, t, PacketWantContexts(s.data.peers[peer].0, s.data.peers[peer].1, data)))
    ensures Same(p, p')
  {
    var d := s.data;
    AloneIsUnhindered(s, t, Peers);
    p' := Do(p, s, Arrive(t, peer, data), Moved(s, d, t, PacketWantPeers(peer, data)));
    p' := Take(p', s, d, t, PacketWantPeers(peer, data));
    p' := Section(p', s, d, t, PacketHasPeers(peer, data), None,
                  d, PacketWantContexts(d.peers[peer].0, d.peers[peer].1, data));
  }

  lemma PacketFindsContext(p: Path, s: Sys, t: Tid, k: Key, cid: CtxId, data: seq<byte>) returns (p': Path)
    requires Reached(p, Moved(s, s.data, t, PacketWantContexts(k, cid, data))) && Alone(s, t) && Alive(s.data.prod, k, cid)
    ensures Reached(p', Moved(s, s.data, t, PacketWantClients(k, cid, data, s.data.prod.byKey[k].boundTo))) && Same(p, p')
  {
    var d := s.data;
    AloneIsUnhindered(s, t, ContextMap);
    p' := Take(p, s, d, t, PacketWantContexts(k, cid, data));
    p' := Section(p', s, d, t, PacketHasContexts(k, cid, data), None, d,
                  PacketWantClients(k, cid, data, d.prod.byKey[k].boundTo));
  }

  /** The packet goes on into the proxy of its context. */
  lemma PacketEnters(p: Path, s: Sys, t: Tid, k: Key, cid: CtxId, data: seq<byte>) returns (p': Path)
    requires Reached(p, Moved(s, s.data, t, PacketWantContexts(k, cid, data))) && Alone(s, t) && Alive(s.data.prod, k, cid)
    ensures Reached(p', Moved(s, s.data, t, PacketHasClients(k, cid, data, s.data.prod.byKey[k].boundTo))) && Same(p, p')
  {
    AloneIsUnhindered(s, t, Clients(s.data.prod.byKey[k].boundTo));
    p' := PacketFindsContext(p, s, t, k, cid, data);
    p' := Take(p', s, s.data, t, PacketWantClients(k, cid, data, s.data.prod.byKey[k].boundTo));
  }

  /** A packet of a registered peer, from its arrival to its proxy's clients and back. */
  lemma DeliverPacket(p: Path, s: Sys, t: Tid, peer: string, k: Key, cid: CtxId, data: seq<byte>) returns (p': Path)
    requires Reached(p, s) && Quiet(s, t) && peer in s.data.peers && s.data.peers[peer] == (k, cid)
    requires Alive(s.data.prod, k, cid) && BoundLive(s.data, k, s.data.prod.byKey[k].boundTo) && Sendable(data)
    ensures Reached(p', Moved(s, s.data, t, Idle)) && Took(p, p', Packet(k, data))
  {
    p' := RunPacket(p, s, t, peer, data);
    p' := PacketEnters(p', s, t, k, cid, data);
    p' := Section(p', s, s.data, t, PacketHasClients(k, cid, data, s.data.prod.byKey[k].boundTo), None, s.data, Idle);
  }
}

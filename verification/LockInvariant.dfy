/** What every interleaving of the lock machine keeps. */
module LockInvariant {
  import opened VideoUrl
  import opened Sharing
  import opened SharingRuns
  import opened Producer
  import opened LockMachine

  /** The context's invite is unanswered: it has no session yet and its proxy, if live, still waits. */
  ghost predicate Due(d: Data, k: Key, cid: CtxId) {
    Alive(d.prod, k, cid) ==>
      && d.prod.byKey[k].inviteId == ""
      && StillWaits(d, k, d.prod.byKey[k].boundTo)
  }

  ghost predicate StillWaits(d: Data, k: Key, id: ProxyId) {
    BoundLive(d, k, id) ==> d.svc.live[k].waiting != {}
  }

  ghost predicate ContextsOk(d: Data) {
    && (forall k :: k in d.prod.byKey ==> d.prod.byKey[k].boundTo in d.called && d.prod.byKey[k].cid < d.prod.next)
    && (forall i :: i in d.called ==> i < d.svc.nextId)
  }

  /** `RegisterVideo` has not run for a proxy that still needs a source. */
  ghost predicate UncalledOk(d: Data) {
    forall k :: k in d.svc.live && NeedsSource(d.svc.live[k]) ==> d.svc.live[k].id !in d.called
  }

  ghost predicate OutstandingOk(d: Data) {
    forall cid :: cid in d.prod.outstanding ==> cid < d.prod.next && Due(d, d.prod.outstanding[cid], cid)
  }

  ghost predicate DataOk(d: Data) {
    Inv(d.svc) && ContextsOk(d) && UncalledOk(d) && OutstandingOk(d)
  }

  /** What a thread may rely on where it stands. */
  ghost predicate ThreadOk(d: Data, pc: Pc) {
    match pc
    case WantProxies(op) => !op.OpPlay?
    case WantClients(op, id) => !op.OpClose? && BoundLive(d, op.k, id)
    case HasClients(op, id) => !op.OpClose? && BoundLive(d, op.k, id)
    case WantContexts(op, k, id) => (op.OpClose? || op.OpDescribe?) && (op.OpDescribe? ==> Registering(d, k, id))
    case HasContexts(op, k, id) => (op.OpClose? || op.OpDescribe?) && (op.OpDescribe? ==> Registering(d, k, id))
    case ReplyWantContexts(k, cid, reply) => cid < d.prod.next && reply.sdp != "" && Due(d, k, cid)
    case ReplyHasContexts(k, cid, reply) => cid < d.prod.next && reply.sdp != "" && Due(d, k, cid)
    case ReplyWantClients(k, cid, reply, id) => reply.sdp != "" && Answered(d, k, cid, reply, id) && StillWaits(d, k, id)
    case ReplyHasClients(k, cid, reply, id) => reply.sdp != "" && Answered(d, k, cid, reply, id) && StillWaits(d, k, id)
    case ReplyWantPeers(k, cid, reply) => Alive(d.prod, k, cid) && d.prod.byKey[k].inviteId == reply.inviteId
    case ReplyHasPeers(k, cid, reply) => Alive(d.prod, k, cid) && d.prod.byKey[k].inviteId == reply.inviteId
    case ReplyFails(k, cid, _, id) => Alive(d.prod, k, cid) && d.prod.byKey[k].boundTo == id
    case PacketWantClients(k, cid, _, id) => Alive(d.prod, k, cid) && d.prod.byKey[k].boundTo == id
    case PacketHasClients(k, cid, _, id) => Alive(d.prod, k, cid) && d.prod.byKey[k].boundTo == id
    case _ => true
  }

  /** A DESCRIBE is on its way to the one `RegisterVideo` call of its proxy. */
  ghost predicate Registering(d: Data, k: Key, id: ProxyId) {
    BoundLive(d, k, id) && d.svc.live[k].waiting != {} && id !in d.called
  }

  ghost predicate Answered(d: Data, k: Key, cid: CtxId, reply: Reply, id: ProxyId) {
    && Alive(d.prod, k, cid)
    && d.prod.byKey[k].boundTo == id && d.prod.byKey[k].inviteId == reply.inviteId
  }

  function ReplyCid(pc: Pc): Option<CtxId> {
    if pc.ReplyWantContexts? || ReplyInside(pc) then Some(pc.cid) else None
  }

  ghost predicate Compatible(pc: Pc, other: Pc) {
    forall l :: !Conflict(Held(pc, l), Held(other, l))
  }

  ghost predicate Apart(pc: Pc, other: Pc) {
    && Compatible(pc, other)
    && (ReplyCid(pc).Some? ==> ReplyCid(pc) != ReplyCid(other))
  }

  ghost predicate SysOk(s: Sys) {
    && DataOk(s.data)
    && (forall t: Tid :: ThreadOk(s.data, PcOf(s, t)))
    && (forall t: Tid, u: Tid :: t != u ==> Apart(PcOf(s, t), PcOf(s, u)))
    && (forall t: Tid :: OwnCid(s.data, PcOf(s, t)))
  }

  ghost predicate OwnCid(d: Data, pc: Pc) {
    ReplyCid(pc).Some? ==> ReplyCid(pc).value !in d.prod.outstanding
  }

  // ---------------------------------------------------------------- protocol steps

  lemma StillWaitsStays(d: Data, e: Event, k: Key, id: ProxyId)
    requires Phases(d.svc, e) && Enabled(d.svc, e) && StillWaits(d, k, id) && id < d.svc.nextId
    requires !(e.SdpArrives? && e.k == k)
    ensures StillWaits(TakeStep(d, Some(e)), k, id)
  {}

  lemma DueStays(d: Data, e: Event, k: Key, cid: CtxId)
    requires ContextsOk(d) && Phases(d.svc, e) && Enabled(d.svc, e) && Due(d, k, cid)
    requires e.SdpArrives? ==> !(k == e.k && Alive(d.prod, k, cid))
    ensures Due(TakeStep(d, Some(e)), k, cid)
  {}

  lemma UncalledStays(d: Data, e: Event)
    requires ContextsOk(d) && UncalledOk(d) && Phases(d.svc, e) && Enabled(d.svc, e)
    ensures UncalledOk(TakeStep(d, Some(e)))
  {
    var d' := TakeStep(d, Some(e));
    forall k | k in d'.svc.live && NeedsSource(d'.svc.live[k]) ensures d'.svc.live[k].id !in d.called {
      if k in d.svc.live { ProxyStays(d.svc, e, k); } else { NewProxyIsFresh(d.svc, e, k); }
    }
  }

  /** A protocol step keeps the data in order; an SDP step comes from the context it answers. */
  lemma DataOkStep(d: Data, e: Event, cid: CtxId)
    requires DataOk(d) && Enabled(d.svc, e)
    requires e.SdpArrives? ==> Alive(d.prod, e.k, cid) && cid !in d.prod.outstanding
    ensures DataOk(TakeStep(d, Some(e)))
  {
    InvStep(d.svc, e);
    InvPhases(d.svc, e);
    UncalledStays(d, e);
    NextIdGrows(d.svc, e);
    forall i | i in d.prod.outstanding
      ensures i < d.prod.next && Due(TakeStep(d, Some(e)), d.prod.outstanding[i], i)
    {
      DueStays(d, e, d.prod.outstanding[i], i);
    }
  }

  /** A protocol step taken by one thread does not disturb another. */
  lemma ThreadOkStep(d: Data, e: Event, cid: CtxId, other: Pc)
    requires DataOk(d) && Enabled(d.svc, e) && ThreadOk(d, other)
    requires e.Close? ==> !IsHandler(other)
    requires e.SdpArrives? ==>
      Alive(d.prod, e.k, cid) && BoundLive(d, e.k, d.prod.byKey[e.k].boundTo) && ReplyCid(other) != Some(cid)
    ensures ThreadOk(TakeStep(d, Some(e)), other)
  {
    InvPhases(d.svc, e);
    if IsHandler(other) { HandlerOkStep(d, e, other); } else { CallbackOkStep(d, e, cid, other); }
  }

  lemma BoundLiveStays(d: Data, e: Event, k: Key, id: ProxyId)
    requires Phases(d.svc, e) && Enabled(d.svc, e) && !e.Close? && BoundLive(d, k, id)
    ensures BoundLive(TakeStep(d, Some(e)), k, id)
    ensures d.svc.live[k].waiting != {} && !(e.SdpArrives? && e.k == k) ==> TakeStep(d, Some(e)).svc.live[k].waiting != {}
  {
    ProxyStays(d.svc, e, k);
  }

  lemma HandlerOkStep(d: Data, e: Event, other: Pc)
    requires Phases(d.svc, e) && Enabled(d.svc, e) && ThreadOk(d, other) && IsHandler(other) && !e.Close?
    requires e.SdpArrives? && (other.WantContexts? || other.HasContexts?) && other.op.OpDescribe? ==> other.k != e.k
    ensures ThreadOk(TakeStep(d, Some(e)), other)
  {
    if other.WantClients? || other.HasClients? { BoundLiveStays(d, e, other.op.k, other.id); }
    else if (other.WantContexts? || other.HasContexts?) && other.op.OpDescribe? { BoundLiveStays(d, e, other.k, other.id); }
  }

  lemma CallbackOkStep(d: Data, e: Event, cid: CtxId, other: Pc)
    requires DataOk(d) && Phases(d.svc, e) && Enabled(d.svc, e) && ThreadOk(d, other) && !IsHandler(other)
    requires e.SdpArrives? ==>
      Alive(d.prod, e.k, cid) && BoundLive(d, e.k, d.prod.byKey[e.k].boundTo) && ReplyCid(other) != Some(cid)
    ensures ThreadOk(TakeStep(d, Some(e)), other)
  {
    match other
    case ReplyWantContexts(k, c, _) => DueStays(d, e, k, c);
    case ReplyHasContexts(k, c, _) => DueStays(d, e, k, c);
    case ReplyWantClients(k, _, _, id) => StillWaitsStays(d, e, k, id);
    case ReplyHasClients(k, _, _, id) => StillWaitsStays(d, e, k, id);
    case _ =>
  }

  // ---------------------------------------------------------------- critical sections

  /** The protocol step of a critical section is always possible. */
  lemma StepIsEnabled(d: Data, pc: Pc, at: Option<Key>)
    requires DataOk(d) && ThreadOk(d, pc) && CanWork(d, pc, at) && StepOf(d, pc, at).Some?
    ensures Enabled(d.svc, StepOf(d, pc, at).value)
  {
    if pc.ReplyHasClients? {
      assert ProxyInv(d.svc.live[pc.k], d.svc.nextId, d.svc.owed);
    }
  }

  function CidOf(pc: Pc): CtxId { if ReplyCid(pc).Some? then pc.cid else 0 }

  lemma WorkKeepsData(d: Data, pc: Pc, at: Option<Key>)
    requires DataOk(d) && ThreadOk(d, pc) && CanWork(d, pc, at) && OwnCid(d, pc)
    ensures DataOk(WorkData(d, pc, at))
  {
    var e := StepOf(d, pc, at);
    if pc.HasContexts? && pc.op.OpDescribe? {
      RegisterKeepsData(d, pc.k, pc.id);
    } else if pc.HasContexts? {
      UnregisterKeepsData(d, pc.k);
    } else if e.Some? {
      StepIsEnabled(d, pc, at);
      DataOkStep(d, e.value, CidOf(pc));
      WorkIsStep(d, pc, at);
    } else if pc.ReplyHasContexts? && Alive(d.prod, pc.k, pc.cid) && pc.reply.ok {
      InviteKeepsData(d, pc.k, pc.cid, pc.reply.inviteId);
    }
  }

  lemma RegisterKeepsData(d: Data, k: Key, id: ProxyId)
    requires DataOk(d) && Registering(d, k, id)
    ensures DataOk(d.(prod := Register(d.prod, k, id), called := d.called + {id}))
  {
    var d' := d.(prod := Register(d.prod, k, id), called := d.called + {id});
    assert ProxyInv(d.svc.live[k], d.svc.nextId, d.svc.owed);
    forall j | j in d.svc.live && NeedsSource(d.svc.live[j]) ensures d.svc.live[j].id !in d'.called {
      assert d.svc.live[j].id == id ==> j == k;
    }
    forall cid | cid in d'.prod.outstanding
      ensures cid < d'.prod.next && Due(d', d'.prod.outstanding[cid], cid)
    {
      if cid in d.prod.outstanding { assert Due(d, d.prod.outstanding[cid], cid); }
    }
  }

  lemma UnregisterKeepsData(d: Data, k: Key)
    requires DataOk(d)
    ensures DataOk(d.(prod := Unregister(d.prod, k)))
  {}

  lemma InviteKeepsData(d: Data, k: Key, cid: CtxId, invite: string)
    requires DataOk(d) && Alive(d.prod, k, cid) && cid !in d.prod.outstanding
    ensures DataOk(d.(prod := SetInvite(d.prod, k, invite)))
  {}

  /** Outside the context map's exclusive sections, the protocol step is all there is to a section that takes one. */
  lemma WorkIsStep(d: Data, pc: Pc, at: Option<Key>)
    requires CanWork(d, pc, at) && !pc.HasContexts?
    ensures StepOf(d, pc, at).Some? ==> WorkData(d, pc, at) == TakeStep(d, StepOf(d, pc, at))
    ensures StepOf(d, pc, at).None? && !pc.ReplyHasContexts? && !pc.ReplyHasPeers? ==> WorkData(d, pc, at) == d
  {}

  /** A critical section does not disturb a thread it excludes. */
  lemma WorkKeepsOther(d: Data, pc: Pc, at: Option<Key>, other: Pc)
    requires DataOk(d) && ThreadOk(d, pc) && CanWork(d, pc, at)
    requires ThreadOk(d, other) && Apart(pc, other)
    ensures ThreadOk(WorkData(d, pc, at), other)
  {
    if pc.HasContexts? {
      assert !Conflict(Held(pc, ContextMap), Held(other, ContextMap));
      assert !Conflict(Held(pc, Proxies), Held(other, Proxies));
      ContextsWorkKeepsOther(d, pc, at, other);
    } else if StepOf(d, pc, at).Some? {
      StepKeepsOther(d, pc, at, other);
    } else if pc.ReplyHasContexts? {
      if Alive(d.prod, pc.k, pc.cid) && pc.reply.ok { InviteKeepsOther(d, pc, other); }
    } else if pc.ReplyHasPeers? {
      PeersMatterToNobody(d, pc, at, other);
    } else {
      WorkIsStep(d, pc, at);
    }
  }

  lemma StepKeepsOther(d: Data, pc: Pc, at: Option<Key>, other: Pc)
    requires DataOk(d) && ThreadOk(d, pc) && CanWork(d, pc, at) && !pc.HasContexts? && StepOf(d, pc, at).Some?
    requires ThreadOk(d, other) && Apart(pc, other)
    ensures ThreadOk(WorkData(d, pc, at), other)
  {
    assert !Conflict(Held(pc, Servers), Held(other, Servers));
    StepIsEnabled(d, pc, at);
    WorkIsStep(d, pc, at);
    ThreadOkStep(d, StepOf(d, pc, at).value, CidOf(pc), other);
  }

  /** Storing the session of a context concerns only the reply it answers. */
  lemma InviteKeepsOther(d: Data, pc: Pc, other: Pc)
    requires pc.ReplyHasContexts? && Alive(d.prod, pc.k, pc.cid) && ThreadOk(d, other) && ReplyCid(other) != Some(pc.cid)
    ensures ThreadOk(d.(prod := SetInvite(d.prod, pc.k, pc.reply.inviteId)), other)
  {}

  lemma PeersMatterToNobody(d: Data, pc: Pc, at: Option<Key>, other: Pc)
    requires CanWork(d, pc, at) && pc.ReplyHasPeers? && ThreadOk(d, other)
    ensures ThreadOk(WorkData(d, pc, at), other)
  {}

  lemma ContextsWorkKeepsOther(d: Data, pc: Pc, at: Option<Key>, other: Pc)
    requires DataOk(d) && ThreadOk(d, pc) && CanWork(d, pc, at) && pc.HasContexts?
    requires ThreadOk(d, other) && Held(other, ContextMap) == Free
    requires pc.op.OpDescribe? ==> Held(other, Proxies) == Free
    ensures ThreadOk(WorkData(d, pc, at), other)
  {
    if other.ReplyWantContexts? {
      assert Due(d, other.k, other.cid);
      assert Due(WorkData(d, pc, at), other.k, other.cid);
    }
  }

  lemma WorkKeepsOwn(d: Data, pc: Pc, at: Option<Key>)
    requires DataOk(d) && ThreadOk(d, pc) && CanWork(d, pc, at)
    ensures ThreadOk(WorkData(d, pc, at), WorkPc(d, pc, at))
  {
    if pc.HasClients? && pc.op.OpDescribe? {
      var p := d.svc.live[pc.op.k];
      assert NeedsSource(p) ==> pc.op.c in ProxyDescribe(p, pc.op.c).waiting;
    }
  }

  lemma WorkHoldsNoMore(d: Data, pc: Pc, at: Option<Key>, l: Lock)
    requires CanWork(d, pc, at)
    ensures Held(WorkPc(d, pc, at), l) in {Free, Held(pc, l)}
  {}

  lemma GrantedHolds(pc: Pc, l: Lock)
    requires Wants(pc) != Nothing
    ensures Held(Granted(pc), l) in {Free, Held(pc, l)}
         || (l == Wants(pc).l && Held(Granted(pc), l) == Wants(pc).m)
  {}

  lemma ReplyCidKept(d: Data, pc: Pc, at: Option<Key>)
    requires CanWork(d, pc, at)
    ensures ReplyCid(WorkPc(d, pc, at)) in {None, ReplyCid(pc)}
  {}

  lemma GrantedKeepsThread(d: Data, pc: Pc)
    requires Wants(pc) != Nothing && ThreadOk(d, pc)
    ensures ThreadOk(d, Granted(pc)) && ReplyCid(Granted(pc)) == ReplyCid(pc)
  {}

  lemma CompatibleSymmetric(a: Pc, b: Pc)
    requires Apart(a, b)
    ensures Apart(b, a)
  {}

  // ---------------------------------------------------------------- steps

  /** Only thread `t` moves, and where it goes it stays apart from the others. */
  lemma OneThreadMoves(s: Sys, s': Sys, t: Tid, pc': Pc)
    requires SysOk(s) && s'.pcs == s.pcs[t := pc'] && DataOk(s'.data)
    requires ThreadOk(s'.data, pc') && OwnCid(s'.data, pc')
    requires forall u: Tid :: u != t ==> ThreadOk(s'.data, PcOf(s, u)) && OwnCid(s'.data, PcOf(s, u))
    requires forall u: Tid :: u != t ==> Apart(pc', PcOf(s, u))
    ensures SysOk(s')
  {
    forall u: Tid ensures ThreadOk(s'.data, PcOf(s', u)) && OwnCid(s'.data, PcOf(s', u)) {
      if u != t { assert PcOf(s', u) == PcOf(s, u); }
    }
    forall u: Tid, v: Tid | u != v ensures Apart(PcOf(s', u), PcOf(s', v)) {
      if u == t {
        assert PcOf(s', v) == PcOf(s, v);
      } else if v == t {
        assert PcOf(s', u) == PcOf(s, u);
        CompatibleSymmetric(pc', PcOf(s, u));
      } else {
        assert PcOf(s', u) == PcOf(s, u) && PcOf(s', v) == PcOf(s, v);
        assert Apart(PcOf(s, u), PcOf(s, v));
      }
    }
  }

  lemma CallKeeps(s: Sys, w: bool, t: Tid, pc': Pc)
    requires SysOk(s) && (pc'.WantServers? || pc'.PacketWantPeers?)
    ensures SysOk(s.(pcs := s.pcs[t := pc']))
  {
    OneThreadMoves(s, s.(pcs := s.pcs[t := pc']), t, pc');
  }

  lemma AcquireKeeps(s: Sys, w: bool, t: Tid)
    requires SysOk(s) && Can(s, w, Acquire(t))
    ensures SysOk(After(s, w, Acquire(t)))
  {
    var pc := PcOf(s, t);
    GrantedKeepsThread(s.data, pc);
    forall u: Tid | u != t ensures Apart(Granted(pc), PcOf(s, u)) {
      assert Apart(pc, PcOf(s, u)) && !WaitsFor(s, w, t, u);
      forall l ensures !Conflict(Held(Granted(pc), l), Held(PcOf(s, u), l)) {
        GrantedHolds(pc, l);
        assert !Conflict(Held(pc, l), Held(PcOf(s, u), l));
      }
    }
    OneThreadMoves(s, After(s, w, Acquire(t)), t, Granted(pc));
  }

  lemma AnswerKeeps(s: Sys, w: bool, t: Tid, cid: CtxId, reply: Reply)
    requires SysOk(s) && Can(s, w, Answer(t, cid, reply))
    ensures SysOk(After(s, w, Answer(t, cid, reply)))
  {
    var s' := After(s, w, Answer(t, cid, reply));
    var pc' := PcOf(s', t);
    AnswerKeepsData(s.data, s'.data, cid);
    forall u: Tid | u != t
      ensures ThreadOk(s'.data, PcOf(s, u)) && OwnCid(s'.data, PcOf(s, u)) && Apart(pc', PcOf(s, u))
    {
      assert ThreadOk(s.data, PcOf(s, u)) && OwnCid(s.data, PcOf(s, u));
      AnswerKeepsOther(s.data, s'.data, cid, PcOf(s, u));
    }
    OneThreadMoves(s, s', t, pc');
  }

  lemma AnswerKeepsData(d: Data, d': Data, cid: CtxId)
    requires DataOk(d) && cid in d.prod.outstanding && d'.svc == d.svc && d'.called == d.called
    requires d'.prod == d.prod.(outstanding := d.prod.outstanding - {cid})
    ensures DataOk(d') && cid < d'.prod.next && Due(d', d.prod.outstanding[cid], cid)
  {}

  /** Taking an answered call off the list, and noting the session it brought, concerns nobody else. */
  lemma AnswerKeepsOther(d: Data, d': Data, cid: CtxId, other: Pc)
    requires ThreadOk(d, other) && OwnCid(d, other) && cid in d.prod.outstanding
    requires d'.svc == d.svc && d'.called == d.called
    requires d'.prod == d.prod.(outstanding := d.prod.outstanding - {cid})
    ensures ThreadOk(d', other) && OwnCid(d', other) && ReplyCid(other) != Some(cid)
  {}

  lemma WorkKeeps(s: Sys, w: bool, t: Tid, at: Option<Key>)
    requires SysOk(s) && Can(s, w, Work(t, at))
    ensures SysOk(After(s, w, Work(t, at)))
  {
    var d, pc := s.data, PcOf(s, t);
    var pc' := WorkPc(d, pc, at);
    assert ThreadOk(d, pc) && OwnCid(d, pc);
    WorkKeepsData(d, pc, at);
    WorkKeepsOwn(d, pc, at);
    ReplyCidKept(d, pc, at);
    OutstandingOnlyAddsFresh(d, pc, at, pc);
    forall u: Tid | u != t
      ensures ThreadOk(WorkData(d, pc, at), PcOf(s, u)) && OwnCid(WorkData(d, pc, at), PcOf(s, u))
      ensures Apart(pc', PcOf(s, u))
    {
      assert ThreadOk(d, PcOf(s, u)) && OwnCid(d, PcOf(s, u)) && Apart(pc, PcOf(s, u));
      WorkKeepsOther(d, pc, at, PcOf(s, u));
      OutstandingOnlyAddsFresh(d, pc, at, PcOf(s, u));
      forall l ensures !Conflict(Held(pc', l), Held(PcOf(s, u), l)) {
        WorkHoldsNoMore(d, pc, at, l);
        assert !Conflict(Held(pc, l), Held(PcOf(s, u), l));
      }
    }
    OneThreadMoves(s, After(s, w, Work(t, at)), t, pc');
  }

  lemma OutstandingOnlyAddsFresh(d: Data, pc: Pc, at: Option<Key>, other: Pc)
    requires DataOk(d) && ThreadOk(d, other) && CanWork(d, pc, at) && OwnCid(d, other)
    ensures OwnCid(WorkData(d, pc, at), other)
  {
    OutstandingAfter(d, pc, at);
    if ReplyCid(other).Some? { CidIsOld(d, other); }
  }

  lemma OutstandingAfter(d: Data, pc: Pc, at: Option<Key>)
    requires CanWork(d, pc, at)
    ensures WorkData(d, pc, at).prod.outstanding.Keys <= d.prod.outstanding.Keys + {d.prod.next}
  {}

  lemma CidIsOld(d: Data, pc: Pc)
    requires DataOk(d) && ThreadOk(d, pc) && ReplyCid(pc).Some?
    ensures pc.cid < d.prod.next
  {}

  lemma StepKeeps(s: Sys, w: bool, a: Step)
    requires SysOk(s) && Can(s, w, a)
    ensures SysOk(After(s, w, a))
  {
    match a
    case Call(t, op) => CallKeeps(s, w, t, WantServers(op));
    case Answer(t, cid, reply) => AnswerKeeps(s, w, t, cid, reply);
    case Arrive(t, peer, data) => CallKeeps(s, w, t, PacketWantPeers(peer, data));
    case Acquire(t) => AcquireKeeps(s, w, t);
    case Work(t, at) => WorkKeeps(s, w, t, at);
  }

  lemma InitOk()
    ensures SysOk(Sys(NO_DATA, map[]))
  {}

  /** The invariant holds in every interleaving, whatever the locks prefer. */
  lemma {:induction false} Always(h: History, w: bool)
    requires Possible(h, w)
    ensures SysOk(StateOf(h, w))
  {
    if h.Begin? {
      InitOk();
    } else {
      Always(h.before, w);
      StepKeeps(StateOf(h.before, w), w, h.a);
    }
  }
}

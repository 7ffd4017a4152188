/** Contexts, replies and unregistrations over every interleaving: each finds what it was made for. */
module LockContexts {
  import opened VideoUrl
  import opened Sharing
  import opened SharingRuns
  import opened Producer
  import opened LockMachine
  import opened LockInvariant

  /** The context of `k` is bound to proxy `id` and has a session. */
  ghost predicate HasSession(d: Data, k: Key, id: ProxyId) {
    k in d.prod.byKey && d.prod.byKey[k].boundTo == id && d.prod.byKey[k].inviteId != ""
  }

  /** A registered live proxy has its own context, with a session. */
  ghost predicate ServedOk(d: Data) {
    forall k :: k in d.svc.live && d.svc.live[k].registered ==> HasSession(d, k, d.svc.live[k].id)
  }

  /** Every unanswered context is registered. */
  ghost predicate AwaitedOk(d: Data) {
    forall cid :: cid in d.prod.outstanding ==> Alive(d.prod, d.prod.outstanding[cid], cid)
  }

  /** A `Close` is on its way to the `UnregisterVideo` call of the proxy it erased. */
  predicate Unregistering(pc: Pc) { (pc.WantContexts? || pc.HasContexts?) && pc.op.OpClose? }

  /** The thread handles an invite reply. */
  predicate Replying(pc: Pc) { pc.ReplyWantContexts? || ReplyInside(pc) }

  ghost predicate RoleOk(d: Data, pc: Pc) {
    && (Unregistering(pc) ==> pc.k !in d.svc.live && HasSession(d, pc.k, pc.id))
    && (Replying(pc) ==> Alive(d.prod, pc.k, pc.cid) && pc.reply.inviteId != "")
  }

  ghost predicate OwnersOk(s: Sys) {
    && ServedOk(s.data) && AwaitedOk(s.data)
    && forall t: Tid :: RoleOk(s.data, PcOf(s, t))
  }

  // ---------------------------------------------------------------- the shared data

  lemma ServedThroughStep(d: Data, pc: Pc, at: Option<Key>)
    requires DataOk(d) && ThreadOk(d, pc) && CanWork(d, pc, at) && RoleOk(d, pc) && ServedOk(d)
    requires StepOf(d, pc, at).Some?
    ensures ServedOk(TakeStep(d, StepOf(d, pc, at)))
  {
    var e, d' := StepOf(d, pc, at).value, TakeStep(d, StepOf(d, pc, at));
    StepIsEnabled(d, pc, at);
    InvPhases(d.svc, e);
    forall k | k in d'.svc.live && d'.svc.live[k].registered ensures HasSession(d', k, d'.svc.live[k].id) {
      if k in d.svc.live { ProxyStays(d.svc, e, k); }
      if !(e.SdpArrives? && e.k == k) { RegisteredByArrival(d.svc, e, k); }
    }
  }

  /** Unregistering takes a context nobody awaits an answer for. */
  lemma UnregisterKeepsAwaited(d: Data, k: Key, id: ProxyId)
    requires DataOk(d) && ServedOk(d) && AwaitedOk(d) && k !in d.svc.live && HasSession(d, k, id)
    ensures var d' := d.(prod := Unregister(d.prod, k)); ServedOk(d') && AwaitedOk(d')
  {
    var d' := d.(prod := Unregister(d.prod, k));
    forall cid | cid in d.prod.outstanding ensures Alive(d'.prod, d.prod.outstanding[cid], cid) {
      assert Due(d, d.prod.outstanding[cid], cid);
    }
  }

  lemma WorkKeepsOwners(d: Data, pc: Pc, at: Option<Key>)
    requires DataOk(d) && ThreadOk(d, pc) && CanWork(d, pc, at) && RoleOk(d, pc) && ServedOk(d) && AwaitedOk(d)
    ensures ServedOk(WorkData(d, pc, at)) && AwaitedOk(WorkData(d, pc, at))
  {
    if pc.HasContexts? && pc.op.OpClose? {
      UnregisterKeepsAwaited(d, pc.k, pc.id);
    } else if pc.HasContexts? {
      RegisterKeepsOwners(d, pc.k, pc.id);
    } else if StepOf(d, pc, at).Some? {
      ServedThroughStep(d, pc, at);
      assert WorkData(d, pc, at) == TakeStep(d, StepOf(d, pc, at));
    } else if pc.ReplyHasContexts? && pc.reply.ok {
      SessionKeepsOwners(d, pc.k, pc.reply.inviteId);
    }
  }

  lemma RegisterKeepsOwners(d: Data, k: Key, id: ProxyId)
    requires DataOk(d) && ServedOk(d) && AwaitedOk(d)
    ensures var d' := d.(prod := Register(d.prod, k, id), called := d.called + {id}); ServedOk(d') && AwaitedOk(d')
  {}

  lemma SessionKeepsOwners(d: Data, k: Key, invite: string)
    requires ServedOk(d) && AwaitedOk(d) && k in d.prod.byKey && invite != ""
    ensures var d' := d.(prod := SetInvite(d.prod, k, invite)); ServedOk(d') && AwaitedOk(d')
  {}

  // ---------------------------------------------------------------- the threads

  lemma CloseFindsSession(d: Data, pc: Pc, at: Option<Key>)
    requires DataOk(d) && CanWork(d, pc, at) && ServedOk(d) && pc.Ready? && pc.op.OpClose?
    ensures RoleOk(WorkData(d, pc, at), WorkPc(d, pc, at))
  {
    if Unregistering(WorkPc(d, pc, at)) {
      assert HasSession(d, at.value, d.svc.live[at.value].id);
    }
  }

  lemma ReplyKeepsContext(d: Data, pc: Pc, at: Option<Key>)
    requires CanWork(d, pc, at) && Replying(pc) && RoleOk(d, pc)
    ensures RoleOk(WorkData(d, pc, at), WorkPc(d, pc, at))
  {}

  lemma OthersTakeNoRole(d: Data, pc: Pc, at: Option<Key>)
    requires CanWork(d, pc, at) && !Replying(pc) && !(pc.Ready? && pc.op.OpClose?)
    ensures !Replying(WorkPc(d, pc, at)) && !Unregistering(WorkPc(d, pc, at))
  {}

  lemma WorkKeepsOwnRole(d: Data, pc: Pc, at: Option<Key>)
    requires DataOk(d) && CanWork(d, pc, at) && RoleOk(d, pc) && ServedOk(d)
    ensures RoleOk(WorkData(d, pc, at), WorkPc(d, pc, at))
  {
    if pc.Ready? && pc.op.OpClose? { CloseFindsSession(d, pc, at); }
    else if Replying(pc) { ReplyKeepsContext(d, pc, at); }
    else { OthersTakeNoRole(d, pc, at); }
  }

  /** Replies and packets leave every context its owner, and take only the steps of the three callbacks. */
  lemma CallbackKeepsContexts(d: Data, pc: Pc, at: Option<Key>, k: Key)
    requires CanWork(d, pc, at) && !IsHandler(pc)
    ensures k in WorkData(d, pc, at).prod.byKey <==> k in d.prod.byKey
    ensures k in d.prod.byKey ==> WorkData(d, pc, at).prod.byKey[k].boundTo == d.prod.byKey[k].boundTo
    ensures WorkData(d, pc, at).svc == TakeStep(d, StepOf(d, pc, at)).svc
    ensures var e := StepOf(d, pc, at); e.None? || e.value.SdpArrives? || e.value.Packet? || e.value.SourceError?
  {}

  /** While a `Close` is unregistering, no other thread brings its video back. */
  lemma UnregisteringUndisturbed(d: Data, pc: Pc, at: Option<Key>, other: Pc)
    requires CanWork(d, pc, at) && RoleOk(d, pc)
    requires Unregistering(other) && RoleOk(d, other) && Apart(pc, other)
    ensures RoleOk(WorkData(d, pc, at), other)
  {
    assert !Conflict(Held(pc, Servers), Held(other, Servers));
    CallbackKeepsContexts(d, pc, at, other.k);
    CallbackKeepsSession(d, pc, at, other.k, other.id);
    CallbackMakesNoProxy(d, pc, at, other.k);
  }

  lemma CallbackKeepsSession(d: Data, pc: Pc, at: Option<Key>, k: Key, id: ProxyId)
    requires CanWork(d, pc, at) && !IsHandler(pc) && RoleOk(d, pc) && HasSession(d, k, id)
    ensures HasSession(WorkData(d, pc, at), k, id)
  {}

  lemma CallbackMakesNoProxy(d: Data, pc: Pc, at: Option<Key>, k: Key)
    requires CanWork(d, pc, at) && !IsHandler(pc) && k !in d.svc.live
    ensures k !in WorkData(d, pc, at).svc.live
  {}

  lemma ReplyUndisturbed(d: Data, pc: Pc, at: Option<Key>, other: Pc)
    requires ThreadOk(d, pc) && CanWork(d, pc, at) && RoleOk(d, pc)
    requires Replying(other) && RoleOk(d, other) && Apart(pc, other) && ThreadOk(d, other)
    ensures RoleOk(WorkData(d, pc, at), other)
  {
    assert !Conflict(Held(pc, ContextMap), Held(other, ContextMap));
    if pc.HasContexts? {
      assert Due(d, other.k, other.cid);
      ExclusiveKeepsAwaited(d, pc, at, other.k, other.cid);
    } else {
      ContextsStay(d, pc, at, other.k, other.cid);
    }
  }

  /** The exclusive sections take away no context that awaits its answer. */
  lemma ExclusiveKeepsAwaited(d: Data, pc: Pc, at: Option<Key>, k: Key, cid: CtxId)
    requires ThreadOk(d, pc) && CanWork(d, pc, at) && pc.HasContexts? && RoleOk(d, pc)
    requires Alive(d.prod, k, cid) && d.prod.byKey[k].inviteId == ""
    ensures Alive(WorkData(d, pc, at).prod, k, cid)
  {}

  /** Outside its exclusive sections the context map keeps its entries. */
  lemma ContextsStay(d: Data, pc: Pc, at: Option<Key>, k: Key, cid: CtxId)
    requires CanWork(d, pc, at) && !pc.HasContexts?
    ensures Alive(WorkData(d, pc, at).prod, k, cid) <==> Alive(d.prod, k, cid)
    ensures WorkData(d, pc, at).prod.outstanding == d.prod.outstanding
  {}

  lemma WorkKeepsRole(d: Data, pc: Pc, at: Option<Key>, other: Pc)
    requires DataOk(d) && ThreadOk(d, pc) && CanWork(d, pc, at) && RoleOk(d, pc)
    requires RoleOk(d, other) && Apart(pc, other) && ThreadOk(d, other)
    ensures RoleOk(WorkData(d, pc, at), other)
  {
    if Unregistering(other) { UnregisteringUndisturbed(d, pc, at, other); }
    if Replying(other) { ReplyUndisturbed(d, pc, at, other); }
  }

  // ---------------------------------------------------------------- steps and runs

  lemma WorkKeepsOwnersOk(s: Sys, w: bool, t: Tid, at: Option<Key>)
    requires SysOk(s) && OwnersOk(s) && Can(s, w, Work(t, at))
    ensures OwnersOk(After(s, w, Work(t, at)))
  {
    var d, pc, s' := s.data, PcOf(s, t), After(s, w, Work(t, at));
    assert ThreadOk(d, pc) && RoleOk(d, pc);
    WorkKeepsOwners(d, pc, at);
    WorkKeepsOwnRole(d, pc, at);
    forall u: Tid ensures RoleOk(s'.data, PcOf(s', u)) {
      if u != t {
        assert PcOf(s', u) == PcOf(s, u) && Apart(pc, PcOf(s, u)) && ThreadOk(d, PcOf(s, u)) && RoleOk(d, PcOf(s, u));
        WorkKeepsRole(d, pc, at, PcOf(s, u));
      }
    }
  }

  /** Starting, answering and taking a lock. */
  lemma MoveKeepsOwnersOk(s: Sys, s': Sys, t: Tid, pc': Pc)
    requires OwnersOk(s) && s'.pcs == s.pcs[t := pc'] && RoleOk(s'.data, pc')
    requires s'.data.svc == s.data.svc && s'.data.prod.byKey == s.data.prod.byKey
    requires forall cid :: cid in s'.data.prod.outstanding ==>
               cid in s.data.prod.outstanding && s'.data.prod.outstanding[cid] == s.data.prod.outstanding[cid]
    ensures OwnersOk(s')
  {
    forall u: Tid ensures RoleOk(s'.data, PcOf(s', u)) {
      if u != t { assert PcOf(s', u) == PcOf(s, u) && RoleOk(s.data, PcOf(s, u)); }
    }
  }

  lemma GrantedKeepsRole(d: Data, pc: Pc)
    requires Wants(pc) != Nothing && RoleOk(d, pc)
    ensures RoleOk(d, Granted(pc))
  {}

  lemma StepKeepsOwners(s: Sys, w: bool, a: Step)
    requires SysOk(s) && OwnersOk(s) && Can(s, w, a)
    ensures OwnersOk(After(s, w, a))
  {
    var s' := After(s, w, a);
    match a
    case Call(t, op) => MoveKeepsOwnersOk(s, s', t, WantServers(op));
    case Arrive(t, peer, data) => MoveKeepsOwnersOk(s, s', t, PacketWantPeers(peer, data));
    case Answer(t, cid, reply) =>
      MoveKeepsOwnersOk(s, s', t, ReplyWantContexts(s.data.prod.outstanding[cid], cid, reply));
    case Acquire(t) =>
      assert RoleOk(s.data, PcOf(s, t));
      GrantedKeepsRole(s.data, PcOf(s, t));
      MoveKeepsOwnersOk(s, s', t, Granted(PcOf(s, t)));
    case Work(t, at) => WorkKeepsOwnersOk(s, w, t, at);
  }

  lemma {:induction false} OwnersAlways(h: History, w: bool)
    requires Possible(h, w)
    ensures OwnersOk(StateOf(h, w))
  {
    if h.More? {
      OwnersAlways(h.before, w);
      Always(h.before, w);
      StepKeepsOwners(StateOf(h.before, w), w, h.a);
    }
  }

  /** An invite reply always finds the context it was sent for: none is ever unregistered before its invite
      is answered, so the reply's "not found in cache" branch is never taken. */
  lemma ReplyFindsItsContext(h: History, w: bool, t: Tid)
    requires Possible(h, w) && Replying(PcOf(StateOf(h, w), t))
    ensures var pc := PcOf(StateOf(h, w), t); Alive(StateOf(h, w).data.prod, pc.k, pc.cid)
  {
    OwnersAlways(h, w);
    assert RoleOk(StateOf(h, w).data, PcOf(StateOf(h, w), t));
  }

  /** `UnregisterVideo` always finds the context of the very proxy that is being closed, and its session: every
      call tears exactly one session down, and the video has no proxy meanwhile. */
  lemma UnregisterFindsItsSession(h: History, w: bool, t: Tid, at: Option<Key>)
    requires Possible(h, w) && PcOf(StateOf(h, w), t).HasContexts? && PcOf(StateOf(h, w), t).op.OpClose?
    requires Can(StateOf(h, w), w, Work(t, at))
    ensures var d, d', pc := StateOf(h, w).data, After(StateOf(h, w), w, Work(t, at)).data, PcOf(StateOf(h, w), t);
            && HasSession(d, pc.k, pc.id) && pc.k !in d.svc.live
            && d'.torn == d.torn + multiset{d.prod.byKey[pc.k].inviteId} && pc.k !in d'.prod.byKey
  {
    OwnersAlways(h, w);
    assert RoleOk(StateOf(h, w).data, PcOf(StateOf(h, w), t));
  }
}

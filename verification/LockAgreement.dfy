/** Service and producer in every interleaving: a video has a context exactly if its live proxy asked for it, up to
    the threads that are on their way to register or unregister it. */
module LockAgreement {
  import opened VideoUrl
  import opened Sharing
  import opened SharingRuns
  import opened Producer
  import opened LockMachine
  import opened LockInvariant
  import opened LockContexts

  predicate Unregisters(pc: Pc, k: Key, id: ProxyId) { Unregistering(pc) && pc.k == k && pc.id == id }

  /** A DESCRIBE is on its way to the `RegisterVideo` call of its proxy. */
  predicate Registers(pc: Pc, k: Key, id: ProxyId) {
    (pc.WantContexts? || pc.HasContexts?) && pc.op.OpDescribe? && pc.k == k && pc.id == id
  }

  ghost predicate SomeoneUnregisters(s: Sys, k: Key, id: ProxyId) { exists t: Tid :: Unregisters(PcOf(s, t), k, id) }

  ghost predicate SomeoneRegisters(s: Sys, k: Key, id: ProxyId) { exists t: Tid :: Registers(PcOf(s, t), k, id) }

  /** A context belongs to the live proxy of its video, or to one a `Close` is about to unregister. */
  ghost predicate ContextLinked(s: Sys, k: Key) {
    k in s.data.prod.byKey ==>
      var id := s.data.prod.byKey[k].boundTo; BoundLive(s.data, k, id) || SomeoneUnregisters(s, k, id)
  }

  predicate HasContext(d: Data, k: Key, id: ProxyId) { k in d.prod.byKey && d.prod.byKey[k].boundTo == id }

  /** A live proxy that asked has its context, or a DESCRIBE is about to register it. */
  ghost predicate ProxyLinked(s: Sys, k: Key) {
    k in s.data.svc.live && Requested(s.data.svc.live[k]) ==>
      var id := s.data.svc.live[k].id; HasContext(s.data, k, id) || SomeoneRegisters(s, k, id)
  }

  ghost predicate Linked(s: Sys, k: Key) { ContextLinked(s, k) && ProxyLinked(s, k) }

  /** A `Close` takes away the client that waits for the SDP of `k`. */
  ghost predicate ClosesWaiting(s: Sys, a: Step, k: Key) {
    && a.Work? && a.at == Some(k) && k in s.data.svc.live
    && var pc := PcOf(s, a.t);
       pc.Ready? && pc.op.OpClose? && pc.op.c in s.data.svc.live[k].waiting && pc.op.c !in s.data.svc.live[k].beforeDescribe
  }

  // ---------------------------------------------------------------- who is where

  lemma HandlerMeetsNoUnregistration(s: Sys, t: Tid, k: Key, id: ProxyId)
    requires SysOk(s) && IsHandler(PcOf(s, t)) && !Unregistering(PcOf(s, t))
    ensures !SomeoneUnregisters(s, k, id)
  {
    forall u: Tid ensures !Unregisters(PcOf(s, u), k, id) {
      if u != t {
        assert Apart(PcOf(s, t), PcOf(s, u));
        assert !Conflict(Held(PcOf(s, t), Servers), Held(PcOf(s, u), Servers));
      }
    }
  }

  lemma CloseMeetsNoRegistration(s: Sys, t: Tid, k: Key, id: ProxyId)
    requires SysOk(s) && PcOf(s, t).Ready? && PcOf(s, t).op.OpClose?
    ensures !SomeoneRegisters(s, k, id)
  {
    forall u: Tid ensures !Registers(PcOf(s, u), k, id) {
      if u != t {
        assert Apart(PcOf(s, t), PcOf(s, u));
        assert !Conflict(Held(PcOf(s, t), Servers), Held(PcOf(s, u), Servers));
      }
    }
  }

  /** Thread `t` moves from `pc` to `pc'`; what it did for `(k, id)` it still does. */
  lemma RolesKept(s: Sys, s': Sys, t: Tid, pc': Pc, k: Key, id: ProxyId)
    requires s'.pcs == s.pcs[t := pc']
    requires Unregisters(PcOf(s, t), k, id) ==> Unregisters(pc', k, id)
    requires Registers(PcOf(s, t), k, id) ==> Registers(pc', k, id)
    ensures SomeoneUnregisters(s, k, id) ==> SomeoneUnregisters(s', k, id)
    ensures SomeoneRegisters(s, k, id) ==> SomeoneRegisters(s', k, id)
  {
    assert PcOf(s', t) == pc';
    if u: Tid :| Unregisters(PcOf(s, u), k, id) { assert u != t ==> PcOf(s', u) == PcOf(s, u); }
    if u: Tid :| Registers(PcOf(s, u), k, id) { assert u != t ==> PcOf(s', u) == PcOf(s, u); }
  }

  /** Nothing changes about the proxy and the context of `k`. */
  lemma LinkedFrame(s: Sys, s': Sys, t: Tid, pc': Pc, k: Key)
    requires Linked(s, k) && s'.pcs == s.pcs[t := pc']
    requires k in s'.data.svc.live ==> k in s.data.svc.live && s'.data.svc.live[k].id == s.data.svc.live[k].id
                                       && (Requested(s'.data.svc.live[k]) ==> Requested(s.data.svc.live[k]))
    requires k in s.data.svc.live ==> k in s'.data.svc.live
    requires k in s'.data.prod.byKey <==> k in s.data.prod.byKey
    requires k in s.data.prod.byKey ==> s'.data.prod.byKey[k].boundTo == s.data.prod.byKey[k].boundTo
    requires forall id :: Unregisters(PcOf(s, t), k, id) ==> Unregisters(pc', k, id)
    requires forall id :: Registers(PcOf(s, t), k, id) ==> Registers(pc', k, id)
    ensures Linked(s', k)
  {
    if k in s.data.prod.byKey { RolesKept(s, s', t, pc', k, s.data.prod.byKey[k].boundTo); }
    if k in s.data.svc.live { RolesKept(s, s', t, pc', k, s.data.svc.live[k].id); }
  }

  // ---------------------------------------------------------------- the steps

  lemma MoveKeepsLinks(s: Sys, w: bool, a: Step, k: Key)
    requires Linked(s, k) && Can(s, w, a) && !a.Work?
    ensures Linked(After(s, w, a), k)
  {
    LinkedFrame(s, After(s, w, a), a.t, PcOf(After(s, w, a), a.t), k);
  }

  lemma UnregisterKeepsLinks(s: Sys, w: bool, t: Tid, at: Option<Key>, k: Key)
    requires OwnersOk(s) && Linked(s, k) && Can(s, w, Work(t, at)) && PcOf(s, t).HasContexts? && PcOf(s, t).op.OpClose?
    ensures Linked(After(s, w, Work(t, at)), k)
  {
    var s' := After(s, w, Work(t, at));
    assert RoleOk(s.data, PcOf(s, t));
    if PcOf(s, t).k != k { LinkedFrame(s, s', t, PcOf(s', t), k); }
  }

  /** In a linked state a registration meets no context of its video: it is never turned away. */
  lemma LinkedNeverRejects(s: Sys, t: Tid, k: Key)
    requires SysOk(s) && ContextLinked(s, k) && PcOf(s, t).HasContexts? && PcOf(s, t).op.OpDescribe? && PcOf(s, t).k == k
    ensures k !in s.data.prod.byKey
  {
    var pc := PcOf(s, t);
    assert ThreadOk(s.data, pc);
    if k in s.data.prod.byKey { HandlerMeetsNoUnregistration(s, t, k, s.data.prod.byKey[k].boundTo); }
  }

  lemma RegisterKeepsLinks(s: Sys, w: bool, t: Tid, at: Option<Key>, k: Key)
    requires SysOk(s) && Linked(s, k) && Can(s, w, Work(t, at)) && PcOf(s, t).HasContexts? && PcOf(s, t).op.OpDescribe?
    requires KindOf(k) == GbSource
    ensures Linked(After(s, w, Work(t, at)), k)
  {
    var s' := After(s, w, Work(t, at));
    assert ThreadOk(s.data, PcOf(s, t));
    if PcOf(s, t).k == k { LinkedNeverRejects(s, t, k); }
    else { LinkedFrame(s, s', t, PcOf(s', t), k); }
  }

  /** Replies and packets: they leave every proxy its identity and every context its owner. */
  lemma CallbackKeepsLinks(s: Sys, w: bool, t: Tid, at: Option<Key>, k: Key)
    requires SysOk(s) && Linked(s, k) && Can(s, w, Work(t, at)) && !IsHandler(PcOf(s, t))
    ensures Linked(After(s, w, Work(t, at)), k)
  {
    var s', e := After(s, w, Work(t, at)), StepOf(s.data, PcOf(s, t), at);
    assert ThreadOk(s.data, PcOf(s, t));
    CallbackKeepsContexts(s.data, PcOf(s, t), at, k);
    if e.Some? {
      StepIsEnabled(s.data, PcOf(s, t), at);
      CallbackKeepsProxies(s.data.svc, e.value, k);
    }
    CallbackTakesNoRole(s.data, PcOf(s, t), at, k);
    LinkedFrame(s, s', t, PcOf(s', t), k);
  }

  lemma CallbackKeepsProxies(s: Service, e: Event, k: Key)
    requires Inv(s) && Enabled(s, e) && (e.SdpArrives? || e.Packet? || e.SourceError?)
    ensures k in Next(s, e).live <==> k in s.live
    ensures k in s.live ==> Next(s, e).live[k].id == s.live[k].id
    ensures k in s.live ==> (Requested(Next(s, e).live[k]) ==> Requested(s.live[k]))
  {
    StepAt(s, e, k);
    if e.SdpArrives? { assert ProxyInv(s.live[e.k], s.nextId, s.owed); }
  }

  lemma CallbackTakesNoRole(d: Data, pc: Pc, at: Option<Key>, k: Key)
    requires CanWork(d, pc, at) && !IsHandler(pc)
    ensures forall id :: !Unregisters(pc, k, id) && !Registers(pc, k, id)
  {}

  // ---------------------------------------------------------------- handlers

  /** A handler at work on the service, not on the contexts. */
  predicate Serving(pc: Pc) { pc.Ready? || pc.HasClients? }

  lemma ServingKeepsContexts(d: Data, pc: Pc, at: Option<Key>)
    requires CanWork(d, pc, at) && Serving(pc)
    ensures WorkData(d, pc, at).prod == d.prod
    ensures WorkData(d, pc, at).svc == TakeStep(d, StepOf(d, pc, at)).svc
    ensures var e := StepOf(d, pc, at);
            && (e.Some? ==> !e.value.SdpArrives? && !e.value.Packet? && !e.value.SourceError?)
            && (e.Some? && e.value.Close? ==> pc.Ready? && pc.op == OpClose(e.value.c) && e.value.at == at)
            && (pc.Ready? && pc.op.OpClose? ==> e == Some(Close(pc.op.c, at)))
  {}

  /** The step leaves the proxy of `k` in place; only a DESCRIBE that goes on to register makes it a requested one. */
  lemma ServingKeepsProxy(s: Sys, w: bool, t: Tid, at: Option<Key>, k: Key)
    requires SysOk(s) && Linked(s, k) && Can(s, w, Work(t, at)) && Serving(PcOf(s, t))
    requires k in s.data.svc.live && k in After(s, w, Work(t, at)).data.svc.live
    ensures Linked(After(s, w, Work(t, at)), k)
  {
    var d, pc, s' := s.data, PcOf(s, t), After(s, w, Work(t, at));
    var e := StepOf(d, pc, at);
    assert ThreadOk(d, pc);
    ServingKeepsContexts(d, pc, at);
    if e.Some? {
      StepIsEnabled(d, pc, at);
      InvPhases(d.svc, e.value);
      ProxyStays(d.svc, e.value, k);
      StepAt(d.svc, e.value, k);
      RequestedStep(d.svc, e.value, k);
    }
    if Requested(s'.data.svc.live[k]) && !Requested(d.svc.live[k]) {
      DescribeGoesOn(s, w, t, at, k);
    } else {
      LinkedFrame(s, s', t, PcOf(s', t), k);
    }
  }

  lemma DescribeGoesOn(s: Sys, w: bool, t: Tid, at: Option<Key>, k: Key)
    requires SysOk(s) && Linked(s, k) && Can(s, w, Work(t, at)) && Serving(PcOf(s, t)) && k in s.data.svc.live
    requires !Requested(s.data.svc.live[k])
    requires var e := StepOf(s.data, PcOf(s, t), at); e.Some? && e.value.Describe? && e.value.k == k
    requires var s' := After(s, w, Work(t, at));
             k in s'.data.svc.live && s'.data.svc.live[k].id == s.data.svc.live[k].id && s'.data.prod == s.data.prod
    ensures Linked(After(s, w, Work(t, at)), k)
  {
    var s', id := After(s, w, Work(t, at)), s.data.svc.live[k].id;
    assert ThreadOk(s.data, PcOf(s, t));
    assert Registers(PcOf(s', t), k, id);
    if k in s.data.prod.byKey { HandlerMeetsNoUnregistration(s, t, k, s.data.prod.byKey[k].boundTo); }
  }

  /** A new proxy meets no context. */
  lemma OptionsKeepsLinks(s: Sys, w: bool, t: Tid, at: Option<Key>, k: Key)
    requires SysOk(s) && Linked(s, k) && Can(s, w, Work(t, at)) && Serving(PcOf(s, t)) && k !in s.data.svc.live
    ensures Linked(After(s, w, Work(t, at)), k)
  {
    var d, pc, s' := s.data, PcOf(s, t), After(s, w, Work(t, at));
    var e := StepOf(d, pc, at);
    assert ThreadOk(d, pc);
    ServingKeepsContexts(d, pc, at);
    if k in d.prod.byKey { HandlerMeetsNoUnregistration(s, t, k, d.prod.byKey[k].boundTo); }
    if e.Some? {
      StepIsEnabled(d, pc, at);
      StepAt(d.svc, e.value, k);
    }
  }

  /** A `Close` that erases the proxy of `k` keeps the link if and only if it did not take the waiting client. */
  lemma EraseLinksIff(s: Sys, w: bool, t: Tid, at: Option<Key>, k: Key)
    requires SysOk(s) && Linked(s, k) && Can(s, w, Work(t, at)) && Serving(PcOf(s, t))
    requires k in s.data.svc.live && k !in After(s, w, Work(t, at)).data.svc.live
    ensures Linked(After(s, w, Work(t, at)), k) <==> !ClosesWaiting(s, Work(t, at), k)
  {
    var d, pc, s' := s.data, PcOf(s, t), After(s, w, Work(t, at));
    var e, p := StepOf(d, pc, at), d.svc.live[k];
    assert ThreadOk(d, pc);
    ServingKeepsContexts(d, pc, at);
    StepIsEnabled(d, pc, at);
    StepAt(d.svc, e.value, k);
    assert Erases(d.svc, e.value, k);
    assert ProxyInv(p, d.svc.nextId, d.svc.owed);
    HandlerMeetsNoUnregistration(s, t, k, p.id);
    CloseMeetsNoRegistration(s, t, k, p.id);
    if k in d.prod.byKey { HandlerMeetsNoUnregistration(s, t, k, d.prod.byKey[k].boundTo); }
    if p.registered {
      assert Unregisters(PcOf(s', t), k, p.id);
    } else if ClosesWaiting(s, Work(t, at), k) {
      assert HasContext(d, k, p.id);
      NobodyUnregisters(s, s', t, k, p.id);
    }
  }

  lemma NobodyUnregisters(s: Sys, s': Sys, t: Tid, k: Key, id: ProxyId)
    requires !SomeoneUnregisters(s, k, id) && s'.pcs == s.pcs[t := Idle]
    ensures !SomeoneUnregisters(s', k, id)
  {
    forall u: Tid ensures !Unregisters(PcOf(s', u), k, id) {
      if u != t { assert PcOf(s', u) == PcOf(s, u); }
    }
  }

  lemma WaitingCloseErases(s: Sys, w: bool, a: Step, k: Key)
    requires SysOk(s) && Can(s, w, a) && ClosesWaiting(s, a, k)
    ensures k !in After(s, w, a).data.svc.live
  {
    var p, c := s.data.svc.live[k], PcOf(s, a.t).op.c;
    assert ProxyInv(p, s.data.svc.nextId, s.data.svc.owed);
    WaitingIsOne(p, c);
    assert Abandoned(ProxyRemove(p, c));
  }

  // ---------------------------------------------------------------- every interleaving

  /** The exact condition, at the level of locks: a step of any thread breaks the link of a device video if and only
      if it is a `Close` that takes away the client waiting for its SDP. */
  lemma LinkStep(s: Sys, w: bool, a: Step, k: Key)
    requires SysOk(s) && OwnersOk(s) && Linked(s, k) && Can(s, w, a) && KindOf(k) == GbSource
    ensures Linked(After(s, w, a), k) <==> !ClosesWaiting(s, a, k)
  {
    if !a.Work? { MoveKeepsLinks(s, w, a, k); }
    else if PcOf(s, a.t).HasContexts? {
      assert ThreadOk(s.data, PcOf(s, a.t));
      if PcOf(s, a.t).op.OpClose? { UnregisterKeepsLinks(s, w, a.t, a.at, k); }
      else { RegisterKeepsLinks(s, w, a.t, a.at, k); }
    }
    else if !Serving(PcOf(s, a.t)) { CallbackKeepsLinks(s, w, a.t, a.at, k); }
    else if k !in s.data.svc.live { OptionsKeepsLinks(s, w, a.t, a.at, k); }
    else if k in After(s, w, a).data.svc.live {
      if ClosesWaiting(s, a, k) { WaitingCloseErases(s, w, a, k); }
      ServingKeepsProxy(s, w, a.t, a.at, k);
    }
    else { EraseLinksIff(s, w, a.t, a.at, k); }
  }

  ghost predicate NoWaitingClosed(h: History, w: bool, k: Key)
    requires Possible(h, w)
  {
    h.More? ==> NoWaitingClosed(h.before, w, k) && !ClosesWaiting(StateOf(h.before, w), h.a, k)
  }

  /** In every interleaving in which no waiting client of a device video closed, its contexts and its live proxy
      belong together, up to the threads in between. */
  lemma {:induction false} LinkedAlways(h: History, w: bool, k: Key)
    requires Possible(h, w) && KindOf(k) == GbSource && NoWaitingClosed(h, w, k)
    ensures Linked(StateOf(h, w), k)
  {
    if h.More? {
      LinkedAlways(h.before, w, k);
      Always(h.before, w);
      OwnersAlways(h.before, w);
      LinkStep(StateOf(h.before, w), w, h.a, k);
    }
  }

  /** And then "already exist" is unreachable for it: a thread inside `RegisterVideo` finds no context. */
  lemma NeverRejectedInterleaved(h: History, w: bool, t: Tid, k: Key)
    requires Possible(h, w) && KindOf(k) == GbSource && NoWaitingClosed(h, w, k)
    requires PcOf(StateOf(h, w), t).HasContexts? && PcOf(StateOf(h, w), t).op.OpDescribe? && PcOf(StateOf(h, w), t).k == k
    ensures !Rejects(StateOf(h, w).data.prod, k)
  {
    LinkedAlways(h, w, k);
    Always(h, w);
    LinkedNeverRejects(StateOf(h, w), t, k);
  }
}

/** Service and producer together: every handler, answer and callback is one atomic step.  When do the
    proxies the service keeps and the contexts the producer keeps describe the same videos? */
module Agreement {
  import opened VideoUrl
  import opened Framing
  import opened Sharing
  import opened SharingRuns
  import opened Producer

  datatype Joint = Joint(svc: Service, prod: Contexts)

  /** How a probe or an invite ends.  `ServedThenLost`: a file's SDP was handed over, but its read timer could
      not be set up. */
  datatype Outcome = Served | Refused | ServedThenLost

  datatype JointEvent =
    | Handle(e: Event)                                                // a client's request or close
    | Answered(cid: CtxId, how: Outcome, invite: string, sdp: string) // a probe or an invite comes back
    | Relay(k: Key, data: seq<byte>)                                  // a context produces a packet

  predicate IsRequest(e: Event) { e.Options? || e.Describe? || e.Play? || e.Close? }

  predicate BoundLive(j: Joint, k: Key) {
    k in j.prod.byKey && k in j.svc.live && j.prod.byKey[k].boundTo == j.svc.live[k].id
  }

  ghost predicate Can(j: Joint, e: JointEvent) {
    match e
    case Handle(r) => IsRequest(r) && Enabled(j.svc, r)
    case Answered(cid, how, _, sdp) =>
      && cid in j.prod.outstanding && sdp != ""
      && (how == ServedThenLost ==> KindOf(j.prod.outstanding[cid]) == FileSource)
    case Relay(k, data) => k in j.prod.byKey && Sendable(data)
  }

  /** What a request makes of the producer: the calls among its actions. */
  ghost function ProducerAfter(j: Joint, e: Event): Contexts
    requires Enabled(j.svc, e)
  {
    if e.Describe? && e.k in j.svc.live && NeedsSource(j.svc.live[e.k]) then
      Register(j.prod, e.k, j.svc.live[e.k].id)
    else if e.Close? && e.at.Some? && UnregisterVideo(e.at.value) in Actions(j.svc, e) then
      Unregister(j.prod, e.at.value)
    else j.prod
  }

  /** The answered call is no longer awaited; a device context keeps the session it was told. */
  function Noted(p: Contexts, cid: CtxId, invite: string): Contexts
    requires cid in p.outstanding
  {
    var k, q := p.outstanding[cid], p.(outstanding := p.outstanding - {cid});
    if Alive(p, k, cid) && KindOf(k) == GbSource then SetInvite(q, k, invite) else q
  }

  /** The SDP callback of the context of `k`; to a proxy that is gone it has no effect here. */
  ghost function CalledBack(j: Joint, k: Key, sdp: string): Service {
    if BoundLive(j, k) && Enabled(j.svc, SdpArrives(k, sdp)) then Next(j.svc, SdpArrives(k, sdp)) else j.svc
  }

  /** A successful answer calls back the bound proxy; a failed one erases a file context and leaves a
      device context where it is. */
  ghost function After(j: Joint, e: JointEvent): Joint
    requires Can(j, e)
  {
    match e
    case Handle(r) => Joint(Next(j.svc, r), ProducerAfter(j, r))
    case Answered(cid, how, invite, sdp) =>
      var k, p := j.prod.outstanding[cid], Noted(j.prod, cid, invite);
      if !Alive(j.prod, k, cid) then j.(prod := p)
      else Joint(if how == Refused then j.svc else CalledBack(j, k, sdp),
                 if how != Served && KindOf(k) == FileSource then Unregister(p, k) else p)
    case Relay(_, _) => j
  }

  datatype JointRun = Start | Then(before: JointRun, e: JointEvent)

  ghost predicate Legal(t: JointRun)
    decreases t, 0
  {
    t.Then? ==> Legal(t.before) && Can(State(t.before), t.e)
  }

  ghost function State(t: JointRun): Joint
    requires Legal(t)
    decreases t, 1
  {
    if t.Start? then Joint(INIT, NO_CONTEXTS) else After(State(t.before), t.e)
  }

  // ---------------------------------------------------------------- what holds in every run

  /** Contexts are bound to proxies that asked; a live device proxy that asked has a context; unanswered
      contexts are `Pending`. */
  ghost predicate Sound(j: Joint) {
    && Inv(j.svc)
    && (forall k :: k in j.prod.byKey ==> j.prod.byKey[k].boundTo < j.svc.nextId && j.prod.byKey[k].cid < j.prod.next)
    && (forall k :: BoundLive(j, k) ==> Requested(j.svc.live[k]))
    && (forall k :: k in j.svc.live && Requested(j.svc.live[k]) && KindOf(k) == GbSource ==> k in j.prod.byKey)
    && (forall cid :: cid in j.prod.outstanding ==> cid < j.prod.next && Pending(j, j.prod.outstanding[cid], cid))
  }

  /** A call is awaited only for a context that is still registered, of a video nobody is served, and its
      proxy, if live, still has its client waiting. */
  ghost predicate Pending(j: Joint, k: Key, cid: CtxId) {
    && Alive(j.prod, k, cid)
    && (k in j.svc.live ==> !j.svc.live[k].registered)
    && (BoundLive(j, k) ==> j.svc.live[k].waiting != {})
  }

  /** An answer always finds the context it was asked for, and its SDP callback is one the protocol allows. */
  lemma CallbackAllowed(j: Joint, cid: CtxId, sdp: string)
    requires Sound(j) && cid in j.prod.outstanding && sdp != ""
    ensures var k := j.prod.outstanding[cid];
            Alive(j.prod, k, cid) && (BoundLive(j, k) ==> Enabled(j.svc, SdpArrives(k, sdp)))
  {
    var k := j.prod.outstanding[cid];
    assert Pending(j, k, cid);
    if BoundLive(j, k) { assert ProxyInv(j.svc.live[k], j.svc.nextId, j.svc.owed); }
  }

  /** What a service step leaves of a proxy a context is bound to. */
  lemma BoundStays(j: Joint, e: Event, p: Contexts, k: Key)
    requires Sound(j) && Enabled(j.svc, e) && k in j.prod.byKey && k in p.byKey
    requires p.byKey[k].boundTo == j.prod.byKey[k].boundTo
    ensures BoundLive(Joint(Next(j.svc, e), p), k) ==>
              && BoundLive(j, k) && Requested(Next(j.svc, e).live[k])
              && (j.svc.live[k].waiting != {} && !(e.SdpArrives? && e.k == k) ==> Next(j.svc, e).live[k].waiting != {})
  {
    InvPhases(j.svc, e);
    if k in j.svc.live { ProxyStays(j.svc, e, k); }
    else if k in Next(j.svc, e).live { NewProxyIsFresh(j.svc, e, k); }
  }

  lemma RequestedByDescribe(s: Service, e: Event, k: Key)
    requires Phases(s, e) && Enabled(s, e) && k in Next(s, e).live && Requested(Next(s, e).live[k])
    ensures k in s.live && (Requested(s.live[k]) || e == Describe(e.c, k))
  {
    StepAt(s, e, k);
    if k in s.live { RequestedStep(s, e, k); }
  }

  lemma PendingStays(j: Joint, e: Event, p: Contexts, k: Key, cid: CtxId)
    requires Sound(j) && Enabled(j.svc, e) && !(e.SdpArrives? && e.k == k) && Pending(j, k, cid)
    requires k in p.byKey && p.byKey[k] == j.prod.byKey[k]
    ensures Pending(Joint(Next(j.svc, e), p), k, cid)
  {
    BoundStays(j, e, p, k);
    if k in Next(j.svc, e).live { RegisteredByArrival(j.svc, e, k); }
  }

  // ---------------------------------------------------------------- answers keep it

  lemma SoundNoted(j: Joint, cid: CtxId, invite: string)
    requires Sound(j) && cid in j.prod.outstanding
    ensures Sound(j.(prod := Noted(j.prod, cid, invite)))
    ensures forall i :: i in Noted(j.prod, cid, invite).outstanding
                        ==> j.prod.outstanding[i] != j.prod.outstanding[cid]
  {
    var j' := j.(prod := Noted(j.prod, cid, invite));
    assert Pending(j, j.prod.outstanding[cid], cid);
    forall i | i in j'.prod.outstanding
      ensures Pending(j', j'.prod.outstanding[i], i) && j.prod.outstanding[i] != j.prod.outstanding[cid]
    {
      assert Pending(j, j.prod.outstanding[i], i);
    }
  }

  lemma SoundSdp(j: Joint, k: Key, sdp: string)
    requires Sound(j) && BoundLive(j, k) && Enabled(j.svc, SdpArrives(k, sdp))
    requires forall i :: i in j.prod.outstanding ==> j.prod.outstanding[i] != k
    ensures Sound(j.(svc := Next(j.svc, SdpArrives(k, sdp))))
  {
    var e := SdpArrives(k, sdp);
    var j' := j.(svc := Next(j.svc, e));
    InvStep(j.svc, e);
    InvPhases(j.svc, e);
    forall i | BoundLive(j', i) ensures Requested(j'.svc.live[i]) { BoundStays(j, e, j.prod, i); }
    forall i | i in j'.svc.live && Requested(j'.svc.live[i]) && KindOf(i) == GbSource ensures i in j.prod.byKey {
      RequestedByDescribe(j.svc, e, i);
    }
    forall i | i in j.prod.outstanding ensures Pending(j', j.prod.outstanding[i], i) {
      PendingStays(j, e, j.prod, j.prod.outstanding[i], i);
    }
  }

  /** Erasing a file context nobody awaits an answer for. */
  lemma SoundErased(j: Joint, k: Key)
    requires Sound(j) && KindOf(k) == FileSource
    requires forall i :: i in j.prod.outstanding ==> j.prod.outstanding[i] != k
    ensures Sound(j.(prod := Unregister(j.prod, k)))
  {
    var j' := j.(prod := Unregister(j.prod, k));
    forall i | i in j.prod.outstanding ensures Pending(j', j.prod.outstanding[i], i) {
      assert Pending(j, j.prod.outstanding[i], i);
    }
  }

  lemma SoundAnswer(j: Joint, cid: CtxId, how: Outcome, invite: string, sdp: string)
    requires Sound(j) && Can(j, Answered(cid, how, invite, sdp))
    ensures Sound(After(j, Answered(cid, how, invite, sdp)))
  {
    var k := j.prod.outstanding[cid];
    var j1 := j.(prod := Noted(j.prod, cid, invite));
    CallbackAllowed(j, cid, sdp);
    SoundNoted(j, cid, invite);
    var j2 := j1;
    if how != Refused && BoundLive(j1, k) {
      SoundSdp(j1, k, sdp);
      j2 := j1.(svc := Next(j1.svc, SdpArrives(k, sdp)));
    }
    if how != Served && KindOf(k) == FileSource { SoundErased(j2, k); }
  }

  // ---------------------------------------------------------------- requests keep it

  lemma SoundDescribe(j: Joint, c: Client, k: Key)
    requires Sound(j) && k in j.svc.live && NeedsSource(j.svc.live[k])
    ensures Sound(After(j, Handle(Describe(c, k))))
  {
    var e, j' := Describe(c, k), After(j, Handle(Describe(c, k)));
    InvStep(j.svc, e);
    InvPhases(j.svc, e);
    assert ProxyInv(j.svc.live[k], j.svc.nextId, j.svc.owed);
    assert c in j'.svc.live[k].waiting;
    forall i | BoundLive(j', i) ensures Requested(j'.svc.live[i]) {
      if i != k { BoundStays(j, e, j'.prod, i); }
    }
    forall i | i in j'.svc.live && Requested(j'.svc.live[i]) && KindOf(i) == GbSource ensures i in j'.prod.byKey {
      RequestedByDescribe(j.svc, e, i);
    }
    forall cid | cid in j'.prod.outstanding ensures cid < j'.prod.next && Pending(j', j'.prod.outstanding[cid], cid) {
      if cid in j.prod.outstanding && j'.prod.outstanding[cid] == j.prod.outstanding[cid] {
        PendingStays(j, e, j'.prod, j.prod.outstanding[cid], cid);
      }
    }
  }

  lemma SoundRequest(j: Joint, e: Event)
    requires Sound(j) && IsRequest(e) && Enabled(j.svc, e)
    requires !(e.Describe? && e.k in j.svc.live && NeedsSource(j.svc.live[e.k]))
    ensures Sound(After(j, Handle(e)))
  {
    var j' := After(j, Handle(e));
    InvStep(j.svc, e);
    InvPhases(j.svc, e);
    NextIdGrows(j.svc, e);
    if e.Close? && e.at.Some? { UnregistersIff(j.svc, e, e.at.value); StepAt(j.svc, e, e.at.value); }
    forall i | BoundLive(j', i) ensures Requested(j'.svc.live[i]) { BoundStays(j, e, j'.prod, i); }
    forall i | i in j'.svc.live && Requested(j'.svc.live[i]) && KindOf(i) == GbSource ensures i in j'.prod.byKey {
      RequestedByDescribe(j.svc, e, i);
    }
    forall cid | cid in j'.prod.outstanding ensures cid < j'.prod.next && Pending(j', j'.prod.outstanding[cid], cid) {
      assert Pending(j, j.prod.outstanding[cid], cid);
      PendingStays(j, e, j'.prod, j.prod.outstanding[cid], cid);
    }
  }

  lemma SoundStep(j: Joint, e: JointEvent)
    requires Sound(j) && Can(j, e)
    ensures Sound(After(j, e))
  {
    match e
    case Handle(r) =>
      if r.Describe? && r.k in j.svc.live && NeedsSource(j.svc.live[r.k]) { SoundDescribe(j, r.c, r.k); }
      else { SoundRequest(j, r); }
    case Answered(cid, how, invite, sdp) => SoundAnswer(j, cid, how, invite, sdp);
    case Relay(_, _) =>
  }

  lemma {:induction false} SoundAlways(t: JointRun)
    requires Legal(t)
    ensures Sound(State(t))
  {
    if t.Then? {
      SoundAlways(t.before);
      SoundStep(State(t.before), t.e);
    }
  }

  // ---------------------------------------------------------------- agreement

  /** The producer fetches video `k` exactly if its live proxy has asked for it, and for that proxy. */
  ghost predicate AgreeAt(j: Joint, k: Key) {
    && (k in j.prod.byKey <==> k in j.svc.live && Requested(j.svc.live[k]) && KindOf(k) != NoSource)
    && (k in j.prod.byKey ==> BoundLive(j, k))
  }

  /** A client closes while it is the one waiting for the SDP of `k`. */
  ghost predicate ClosesWaiting(j: Joint, e: JointEvent, k: Key) {
    && e.Handle? && e.e.Close? && e.e.at == Some(k) && k in j.svc.live && KindOf(k) != NoSource
    && e.e.c in j.svc.live[k].waiting && e.e.c !in j.svc.live[k].beforeDescribe
  }

  /** File `k` cannot be probed, or not read on a timer. */
  ghost predicate FileFails(j: Joint, e: JointEvent, k: Key) {
    && e.Answered? && e.how != Served && e.cid in j.prod.outstanding
    && j.prod.outstanding[e.cid] == k && KindOf(k) == FileSource
  }

  ghost predicate Disturbs(j: Joint, e: JointEvent, k: Key) {
    ClosesWaiting(j, e, k) || FileFails(j, e, k)
  }

  lemma AgreeAtRequest(j: Joint, e: Event, k: Key)
    requires Sound(j) && AgreeAt(j, k) && IsRequest(e) && Enabled(j.svc, e) && !ClosesWaiting(j, Handle(e), k)
    ensures AgreeAt(After(j, Handle(e)), k)
  {
    StepAt(j.svc, e, k);
    InvPhases(j.svc, e);
    if k in j.svc.live {
      var p := j.svc.live[k];
      assert PhaseOk(p, j.svc.nextId);
      if At(Next(j.svc, e), k).Some? { RequestedStep(j.svc, e, k); ProxyStays(j.svc, e, k); }
      if Erases(j.svc, e, k) {
        if e.c !in p.beforeDescribe && e.c in p.waiting { WaitingIsOne(p, e.c); }
        UnregistersIff(j.svc, e, k);
      }
    }
    if e.Close? && e.at.Some? { UnregistersIff(j.svc, e, e.at.value); }
  }

  lemma ClosingWaitingErases(j: Joint, e: JointEvent, k: Key)
    requires Sound(j) && Can(j, e) && ClosesWaiting(j, e, k)
    ensures k !in After(j, e).svc.live && After(j, e).prod == j.prod
  {
    var p := j.svc.live[k];
    assert ProxyInv(p, j.svc.nextId, j.svc.owed);
    WaitingIsOne(p, e.e.c);
    assert Abandoned(ProxyRemove(p, e.e.c));
    UnregistersIff(j.svc, e.e, k);
  }

  lemma CallbackElsewhere(j: Joint, i: Key, sdp: string, k: Key)
    requires i != k
    ensures At(CalledBack(j, i, sdp), k) == At(j.svc, k)
  {}

  /** Agreement on a video depends on its proxy and its context only. */
  lemma AgreeAtDependsOn(j: Joint, j': Joint, k: Key)
    requires At(j'.svc, k) == At(j.svc, k)
    requires k in j'.prod.byKey <==> k in j.prod.byKey
    requires k in j.prod.byKey ==> j'.prod.byKey[k].boundTo == j.prod.byKey[k].boundTo
    ensures AgreeAt(j', k) <==> AgreeAt(j, k)
  {}

  lemma AnswerElsewhere(j: Joint, e: JointEvent, k: Key)
    requires Can(j, e) && e.Answered? && j.prod.outstanding[e.cid] != k
    ensures AgreeAt(After(j, e), k) <==> AgreeAt(j, k)
  {
    CallbackElsewhere(j, j.prod.outstanding[e.cid], e.sdp, k);
    AgreeAtDependsOn(j, After(j, e), k);
  }

  /** The SDP leaves the video requested, by the same proxy. */
  lemma CallbackKeepsProxy(j: Joint, k: Key, sdp: string)
    requires k in j.svc.live && sdp != ""
    ensures k in CalledBack(j, k, sdp).live && CalledBack(j, k, sdp).live[k].id == j.svc.live[k].id
    ensures Requested(j.svc.live[k]) ==> Requested(CalledBack(j, k, sdp).live[k])
  {}

  lemma AgreeAtAnswer(j: Joint, e: JointEvent, k: Key)
    requires Sound(j) && AgreeAt(j, k) && Can(j, e) && e.Answered?
    ensures AgreeAt(After(j, e), k) <==> !FileFails(j, e, k)
  {
    if j.prod.outstanding[e.cid] != k {
      AnswerElsewhere(j, e, k);
    } else {
      CallbackAllowed(j, e.cid, e.sdp);
      CallbackKeepsProxy(j, k, e.sdp);
    }
  }

  /** The exact condition: a step breaks the agreement on a video if and only if a client closes while it is
      the one waiting for its SDP, or the file fails.  A refused invite does not. */
  lemma AgreementStep(j: Joint, e: JointEvent, k: Key)
    requires Sound(j) && AgreeAt(j, k) && Can(j, e)
    ensures AgreeAt(After(j, e), k) <==> !Disturbs(j, e, k)
  {
    if ClosesWaiting(j, e, k) { ClosingWaitingErases(j, e, k); }
    else if e.Handle? { AgreeAtRequest(j, e.e, k); }
    else if e.Answered? { AgreeAtAnswer(j, e, k); }
  }

  ghost predicate Undisturbed(t: JointRun, k: Key)
    requires Legal(t)
  {
    t.Then? ==> Undisturbed(t.before, k) && !Disturbs(State(t.before), t.e, k)
  }

  /** The two sides agree on a video in every run that is undisturbed at that video, whatever happens to
      others. */
  lemma {:induction false} AgreementAlways(t: JointRun, k: Key)
    requires Legal(t) && Undisturbed(t, k)
    ensures AgreeAt(State(t), k)
  {
    if t.Then? {
      AgreementAlways(t.before, k);
      SoundAlways(t.before);
      AgreementStep(State(t.before), t.e, k);
    }
  }

  /** In such runs no registration for the video is turned away as a duplicate ... */
  lemma NeverRejected(t: JointRun, c: Client, k: Key)
    requires Legal(t) && Undisturbed(t, k) && k in State(t).svc.live
    requires RegisterVideo(k, State(t).svc.live[k].id) in Actions(State(t).svc, Describe(c, k))
    ensures !Rejects(State(t).prod, k)
  {
    AgreementAlways(t, k);
  }

  /** ... and every callback of its contexts reaches the live proxy. */
  lemma CallbacksReachLiveProxies(t: JointRun, k: Key, cid: CtxId)
    requires Legal(t) && Undisturbed(t, k)
    ensures k in State(t).prod.byKey ==> BoundLive(State(t), k)
    ensures cid in State(t).prod.outstanding && State(t).prod.outstanding[cid] == k ==> BoundLive(State(t), k)
  {
    AgreementAlways(t, k);
    SoundAlways(t);
    if cid in State(t).prod.outstanding { assert Pending(State(t), State(t).prod.outstanding[cid], cid); }
  }

  // ---------------------------------------------------------------- what an answer does

  /** A successful answer serves the clients of the live proxy its context is bound to: they leave waiting, they are
      before PLAY, and the proxy has the SDP. */
  lemma AnswerServes(j: Joint, cid: CtxId, how: Outcome, invite: string, sdp: string)
    requires Sound(j) && Can(j, Answered(cid, how, invite, sdp)) && how != Refused && BoundLive(j, j.prod.outstanding[cid])
    ensures var k, s' := j.prod.outstanding[cid], After(j, Answered(cid, how, invite, sdp)).svc;
            && k in s'.live && s'.live[k].id == j.svc.live[k].id && s'.live[k].sdp == sdp && s'.live[k].registered
            && s'.live[k].waiting == {} && j.svc.live[k].waiting != {} && j.svc.live[k].waiting <= s'.live[k].beforePlay
  {
    CallbackAllowed(j, cid, sdp);
    assert Pending(j, j.prod.outstanding[cid], cid);
  }

  /** The answer is no longer awaited; a device context notes the session it brought and stays, a file context stays
      exactly if it was served; no other context changes. */
  lemma AnswerNotes(j: Joint, cid: CtxId, how: Outcome, invite: string, sdp: string)
    requires Sound(j) && Can(j, Answered(cid, how, invite, sdp))
    ensures var k, p' := j.prod.outstanding[cid], After(j, Answered(cid, how, invite, sdp)).prod;
            && p'.outstanding == j.prod.outstanding - {cid}
            && (k in p'.byKey <==> KindOf(k) != FileSource || how == Served)
            && (k in p'.byKey && KindOf(k) == GbSource ==> p'.byKey[k] == j.prod.byKey[k].(inviteId := invite))
            && (forall i :: i != k ==> (i in p'.byKey <==> i in j.prod.byKey))
            && (forall i :: i != k && i in p'.byKey ==> p'.byKey[i] == j.prod.byKey[i])
  {
    CallbackAllowed(j, cid, sdp);
  }

  /** Any other answer leaves the service as it is; and no answer is awaited a second time. */
  lemma AnswerElseSilent(j: Joint, cid: CtxId, how: Outcome, invite: string, sdp: string)
    requires Can(j, Answered(cid, how, invite, sdp)) && (how == Refused || !BoundLive(j, j.prod.outstanding[cid]))
    ensures After(j, Answered(cid, how, invite, sdp)).svc == j.svc
    ensures cid !in After(j, Answered(cid, how, invite, sdp)).prod.outstanding
  {}

  /** What a step asks the outside world for on behalf of a new context. */
  ghost function CallsIn(j: Joint, e: JointEvent): seq<Call>
    requires Can(j, e)
  {
    if MakesContext(j, e) then RegisterCalls(j.prod, e.e.k, j.svc.live[e.e.k].id) else []
  }

  ghost function CallCount(t: JointRun, c: Call): nat
    requires Legal(t)
  {
    if t.Start? then 0 else CallCount(t.before, c) + multiset(CallsIn(State(t.before), t.e))[c]
  }

  /** What a context of video `k` asks for. */
  function CallFor(k: Key, cid: CtxId): Call { if KindOf(k) == FileSource then ProbeFile(cid) else Invite(cid) }

  ghost predicate AsksOnceFor(p: Contexts, p': Contexts, calls: multiset<Call>, cid: CtxId) {
    && p.next <= p'.next
    && calls[ProbeFile(cid)] + calls[Invite(cid)] == (if p.next <= cid < p'.next then 1 else 0)
    && (p.next <= cid < p'.next ==>
          cid in p'.outstanding && KindOf(p'.outstanding[cid]) != NoSource && calls[CallFor(p'.outstanding[cid], cid)] == 1)
    && (cid < p.next && cid in p'.outstanding ==> cid in p.outstanding && p'.outstanding[cid] == p.outstanding[cid])
  }

  lemma RegisterAsksOnce(p: Contexts, k: Key, id: ProxyId, cid: CtxId)
    ensures AsksOnceFor(p, Register(p, k, id), multiset(RegisterCalls(p, k, id)), cid)
  {}

  ghost predicate MakesContext(j: Joint, e: JointEvent) {
    e.Handle? && e.e.Describe? && e.e.k in j.svc.live && NeedsSource(j.svc.live[e.e.k])
  }

  lemma OthersMakeNone(j: Joint, e: JointEvent, cid: CtxId)
    requires Can(j, e) && !MakesContext(j, e)
    ensures After(j, e).prod.next == j.prod.next
    ensures cid in After(j, e).prod.outstanding ==>
              cid in j.prod.outstanding && After(j, e).prod.outstanding[cid] == j.prod.outstanding[cid]
  {}

  /** A step asks for a context exactly when it makes it, and for what its kind of video needs. */
  lemma CallsWhenMade(j: Joint, e: JointEvent, cid: CtxId)
    requires Can(j, e)
    ensures AsksOnceFor(j.prod, After(j, e).prod, multiset(CallsIn(j, e)), cid)
  {
    if MakesContext(j, e) {
      RegisterAsksOnce(j.prod, e.e.k, j.svc.live[e.e.k].id, cid);
    } else {
      OthersMakeNone(j, e, cid);
    }
  }

  /** Over every run: one call has been made for each context there ever was and none for others, and every context that
      awaits its answer has had the call of its own kind: a probe for a file, an invite for a device. */
  lemma {:induction false} CalledOnce(t: JointRun, cid: CtxId)
    requires Legal(t)
    ensures CallCount(t, ProbeFile(cid)) + CallCount(t, Invite(cid)) == if cid < State(t).prod.next then 1 else 0
    ensures cid in State(t).prod.outstanding ==>
              cid < State(t).prod.next && KindOf(State(t).prod.outstanding[cid]) != NoSource
              && CallCount(t, CallFor(State(t).prod.outstanding[cid], cid)) == 1
  {
    SoundAlways(t);
    if t.Then? {
      CalledOnce(t.before, cid);
      CallsWhenMade(State(t.before), t.e, cid);
    }
  }

  // ---------------------------------------------------------------- both disturbances happen

  /** One client asks for `k` and waits. */
  lemma ClientWaits(k: Key) returns (t: JointRun)
    requires KindOf(k) != NoSource
    ensures Legal(t) && Undisturbed(t, k)
    ensures State(t) == Joint(Service(map[k := Proxy(0, {}, {1}, {}, {}, false, "")], 1, multiset{0}),
                              Contexts(map[k := Context(0, 0, "")], 1, map[0 := k]))
  {
    var t1 := JointRun.Then(JointRun.Start, Handle(Options(1, k)));
    assert State(t1) == Joint(Service(map[k := Proxy(0, {1}, {}, {}, {}, false, "")], 1, multiset{}), NO_CONTEXTS);
    t := JointRun.Then(t1, Handle(Describe(1, k)));
    assert ProxyDescribe(Proxy(0, {1}, {}, {}, {}, false, ""), 1) == Proxy(0, {}, {1}, {}, {}, false, "");
    assert State(t).svc.live == map[k := Proxy(0, {}, {1}, {}, {}, false, "")];
    assert State(t).prod == Contexts(map[k := Context(0, 0, "")], 1, map[0 := k]);
  }

  /** It closes: the proxy is gone, the context stays. */
  lemma ClosingWaitingHappens(k: Key) returns (t: JointRun)
    requires KindOf(k) != NoSource
    ensures Legal(t) && t.Then? && Undisturbed(t.before, k) && ClosesWaiting(State(t.before), t.e, k)
    ensures k !in State(t).svc.live && k in State(t).prod.byKey
  {
    var t2 := ClientWaits(k);
    t := JointRun.Then(t2, Handle(Close(1, Some(k))));
    assert Can(State(t2), t.e);
    SoundAlways(t2);
    ClosingWaitingErases(State(t2), t.e, k);
  }

  /** The file cannot be opened: the context is gone, the client waits on. */
  lemma FileFailureHappens(k: Key, sdp: string) returns (t: JointRun)
    requires KindOf(k) == FileSource && sdp != ""
    ensures Legal(t) && t.Then? && Undisturbed(t.before, k) && FileFails(State(t.before), t.e, k)
    ensures k in State(t).svc.live && State(t).svc.live[k].waiting == {1} && k !in State(t).prod.byKey
  {
    var t2 := ClientWaits(k);
    t := JointRun.Then(t2, Answered(0, Refused, "", sdp));
  }

  // ---------------------------------------------------------------- a stranded video

  /** The context of `k` belongs to a proxy that is gone, and whoever asks for `k` has no SDP. */
  ghost predicate Stranded(j: Joint, k: Key, id: ProxyId) {
    && k in j.prod.byKey && j.prod.byKey[k].boundTo == id && id < j.svc.nextId
    && (k in j.svc.live ==> j.svc.live[k].id != id && j.svc.live[k].sdp == "")
  }

  lemma StrandedRequest(j: Joint, e: Event, k: Key, id: ProxyId)
    requires Sound(j) && IsRequest(e) && Enabled(j.svc, e) && Stranded(j, k, id)
    ensures Stranded(After(j, Handle(e)), k, id)
  {
    NextIdGrows(j.svc, e);
    ContextKept(j, e, k);
    if k in Next(j.svc, e).live {
      SdpOnlyArrives(j.svc, e, k);
      if k in j.svc.live {
        InvPhases(j.svc, e);
        ProxyStays(j.svc, e, k);
      } else {
        NewProxyIsFresh(j.svc, e, k);
      }
    }
  }

  /** Only closing a registered proxy takes its context away. */
  lemma ContextKept(j: Joint, e: Event, k: Key)
    requires Inv(j.svc) && Enabled(j.svc, e) && k in j.prod.byKey && (k in j.svc.live ==> j.svc.live[k].sdp == "")
    ensures k in ProducerAfter(j, e).byKey && ProducerAfter(j, e).byKey[k] == j.prod.byKey[k]
  {
    if e.Close? && e.at.Some? { UnregistersIff(j.svc, e, e.at.value); }
  }

  lemma SdpOnlyArrives(s: Service, e: Event, k: Key)
    requires Enabled(s, e) && !e.SdpArrives? && k in Next(s, e).live
    ensures Next(s, e).live[k].sdp == if k in s.live then s.live[k].sdp else ""
  {
    StepAt(s, e, k);
  }

  lemma StrandedStep(j: Joint, e: JointEvent, k: Key, id: ProxyId)
    requires Sound(j) && Can(j, e) && Stranded(j, k, id) && !FileFails(j, e, k)
    ensures Stranded(After(j, e), k, id)
  {
    if e.Handle? { StrandedRequest(j, e.e, k, id); }
    else if e.Answered? {
      CallbackAllowed(j, e.cid, e.sdp);
      var i := j.prod.outstanding[e.cid];
      if BoundLive(j, i) { StepAt(j.svc, SdpArrives(i, e.sdp), k); }
    }
  }

  /** `t` continues `t0`. */
  ghost predicate Continues(t0: JointRun, t: JointRun) {
    t == t0 || (t.Then? && Continues(t0, t.before))
  }

  /** The file does not fail after `t0`; nothing is asked of a device. */
  ghost predicate NoFailure(t0: JointRun, t: JointRun, k: Key)
    requires Legal(t)
  {
    t != t0 && t.Then? ==> NoFailure(t0, t.before, k) && !FileFails(State(t.before), t.e, k)
  }

  lemma {:induction false} DevicesDoNotFail(t0: JointRun, t: JointRun, k: Key)
    requires Legal(t) && KindOf(k) == GbSource
    ensures NoFailure(t0, t, k)
  {
    if t != t0 && t.Then? { DevicesDoNotFail(t0, t.before, k); }
  }

  lemma {:induction false} StrandedForever(t0: JointRun, t: JointRun, k: Key, id: ProxyId)
    requires Legal(t) && Legal(t0) && Continues(t0, t) && Stranded(State(t0), k, id) && NoFailure(t0, t, k)
    ensures Stranded(State(t), k, id)
  {
    if t != t0 {
      StrandedForever(t0, t.before, k, id);
      SoundAlways(t.before);
      StrandedStep(State(t.before), t.e, k, id);
    }
  }

  /** After the waiting client of a video that is being fetched closes, the video is lost until its file
      fails: every registration for it is turned away and no client of it has an SDP. */
  lemma ClosingWaitingStrands(t0: JointRun, t: JointRun, k: Key)
    requires Legal(t) && Legal(t0) && Continues(t0, t) && NoFailure(t0, t, k)
    requires t0.Then? && ClosesWaiting(State(t0.before), t0.e, k) && k in State(t0.before).prod.byKey
    ensures Rejects(State(t).prod, k)
    ensures k in State(t).svc.live ==> State(t).svc.live[k].sdp == "" && !State(t).svc.live[k].registered
  {
    var j := State(t0.before);
    SoundAlways(t0.before);
    ClosingWaitingErases(j, t0.e, k);
    NextIdGrows(j.svc, t0.e.e);
    StrandedForever(t0, t, k, j.prod.byKey[k].boundTo);
    SoundAlways(t);
    if k in State(t).svc.live { assert ProxyInv(State(t).svc.live[k], State(t).svc.nextId, State(t).svc.owed); }
  }

  /** A device is lost for good, whatever happens before and after. */
  lemma ClosingWaitingStrandsDevice(t0: JointRun, t: JointRun, k: Key)
    requires Legal(t) && Legal(t0) && Continues(t0, t) && KindOf(k) == GbSource
    requires t0.Then? && ClosesWaiting(State(t0.before), t0.e, k)
    ensures Rejects(State(t).prod, k)
    ensures k in State(t).svc.live ==> State(t).svc.live[k].sdp == "" && !State(t).svc.live[k].registered
  {
    SoundAlways(t0.before);
    DevicesDoNotFail(t0, t, k);
    ClosingWaitingStrands(t0, t, k);
  }
}

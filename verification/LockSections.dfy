/** What each section of the lock machine does to the proxies, whom it answers, and which locks it holds. */
module LockSections {
  import opened VideoUrl
  import opened Sharing
  import opened SharingEffects
  import opened Discipline
  import opened Producer
  import opened LockMachine
  import opened LockInvariant
  import opened LockContexts
  import opened LockPaths
  import opened LockRefinement

  /** What a step of the machine does to the outside world. */
  ghost function ActionsOf(s: Sys, a: Step): multiset<Action> {
    var e := Taken(s, a);
    if e.Some? && Enabled(s.data.svc, e.value) then Actions(s.data.svc, e.value) else multiset{}
  }

  // ---------------------------------------------------------------- handlers

  /** A request at work on its proxy is the step and the answers of the protocol. */
  lemma RequestSection(s: Sys, w: bool, t: Tid, at: Option<Key>, op: Op, id: ProxyId)
    requires SysOk(s) && Can(s, w, Work(t, at)) && PcOf(s, t) == HasClients(op, id)
    ensures !op.OpClose? && BoundLive(s.data, op.k, id)
    ensures After(s, w, Work(t, at)).data == s.data.(svc := Next(s.data.svc, EventOf(op)))
    ensures ActionsOf(s, Work(t, at)) == Actions(s.data.svc, EventOf(op))
  {
    assert ThreadOk(s.data, PcOf(s, t));
  }

  /** OPTIONS on an existing proxy. */
  lemma OptionsSection(s: Sys, w: bool, t: Tid, at: Option<Key>, c: Client, k: Key, id: ProxyId)
    requires SysOk(s) && Can(s, w, Work(t, at)) && PcOf(s, t) == HasClients(OpOptions(c, k), id)
    ensures var svc, s' := s.data.svc, After(s, w, Work(t, at));
            && k in svc.live && k in s'.data.svc.live && Listed(svc.live[k], s'.data.svc.live[k], c)
            && OthersSame(svc, s'.data.svc, k) && s'.data.prod == s.data.prod && PcOf(s', t) == Idle
    ensures forall a :: ActionsOf(s, Work(t, at))[a] == if a == ReplyOptions(c) then 1 else 0
  {
    RequestSection(s, w, t, at, OpOptions(c, k), id);
    OptionsEffect(s.data.svc, c, k);
  }

  /** OPTIONS for a video without a proxy. */
  lemma OptionsMakesProxy(s: Sys, w: bool, t: Tid, at: Option<Key>, c: Client, k: Key)
    requires Can(s, w, Work(t, at)) && PcOf(s, t) == Ready(OpOptions(c, k)) && k !in s.data.svc.live
    ensures var svc, s' := s.data.svc, After(s, w, Work(t, at));
            && k in s'.data.svc.live && s'.data.svc.live[k].id == svc.nextId && s'.data.svc.live[k].beforeDescribe == {c}
            && OthersSame(svc, s'.data.svc, k) && PcOf(s', t) == Idle
    ensures ReplyOptions(c) in ActionsOf(s, Work(t, at))
  {
    OptionsEffect(s.data.svc, c, k);
  }

  /** DESCRIBE; it goes on to register exactly if nobody waits and there is no SDP. */
  lemma DescribeSection(s: Sys, w: bool, t: Tid, at: Option<Key>, c: Client, k: Key, id: ProxyId)
    requires SysOk(s) && Can(s, w, Work(t, at)) && PcOf(s, t) == HasClients(OpDescribe(c, k), id)
    ensures var svc, s' := s.data.svc, After(s, w, Work(t, at));
            && k in svc.live && k in s'.data.svc.live && PastDescribe(svc.live[k], s'.data.svc.live[k], c)
            && OthersSame(svc, s'.data.svc, k) && s'.data.prod == s.data.prod
            && PcOf(s', t) == if svc.live[k].sdp == "" && svc.live[k].waiting == {} then WantContexts(OpDescribe(c, k), k, id) else Idle
    ensures forall x, y :: ActionsOf(s, Work(t, at))[ReplyDescribe(x, y)]
                        == if x == c && y == s.data.svc.live[k].sdp != "" then 1 else 0
  {
    RequestSection(s, w, t, at, OpDescribe(c, k), id);
    DescribeEffect(s.data.svc, c, k);
    forall x, y ensures ActionsOf(s, Work(t, at))[ReplyDescribe(x, y)]
                     == if x == c && y == s.data.svc.live[k].sdp != "" then 1 else 0
    {
      DescribeAnswers(s.data.svc, c, k, ReplyDescribe(x, y));
    }
  }

  /** PLAY: a client that was before PLAY plays, and is told 200; any other is told 454. */
  lemma PlaySection(s: Sys, w: bool, t: Tid, at: Option<Key>, c: Client, k: Key, id: ProxyId)
    requires SysOk(s) && Can(s, w, Work(t, at)) && PcOf(s, t) == HasClients(OpPlay(c, k), id)
    ensures var svc, s' := s.data.svc, After(s, w, Work(t, at));
            && k in svc.live && k in s'.data.svc.live && PastPlay(svc.live[k], s'.data.svc.live[k], c)
            && (c in svc.live[k].beforePlay ==> c in s'.data.svc.live[k].playing && c !in s'.data.svc.live[k].beforePlay)
            && OthersSame(svc, s'.data.svc, k) && s'.data.prod == s.data.prod && PcOf(s', t) == Idle
    ensures forall a :: ActionsOf(s, Work(t, at))[a]
                     == if a == ReplyPlay(c, if c in s.data.svc.live[k].beforePlay then 200 else 454) then 1 else 0
  {
    RequestSection(s, w, t, at, OpPlay(c, k), id);
    PlayEffect(s.data.svc, c, k);
    forall a ensures ActionsOf(s, Work(t, at))[a]
                  == if a == ReplyPlay(c, if c in s.data.svc.live[k].beforePlay then 200 else 454) then 1 else 0
    {
      PlayAnswers(s.data.svc, c, k, a);
    }
  }

  /** The SDP callback: everyone who waits is before PLAY and has been answered with the SDP. */
  lemma SdpSection(s: Sys, w: bool, t: Tid, at: Option<Key>)
    requires SysOk(s) && Can(s, w, Work(t, at)) && PcOf(s, t).ReplyHasClients?
    requires BoundLive(s.data, PcOf(s, t).k, PcOf(s, t).id)
    ensures var pc, svc, s' := PcOf(s, t), s.data.svc, After(s, w, Work(t, at));
            && pc.k in s'.data.svc.live && PastSdp(svc.live[pc.k], s'.data.svc.live[pc.k], pc.reply.sdp)
            && OthersSame(svc, s'.data.svc, pc.k)
            && forall a :: ActionsOf(s, Work(t, at))[a]
                        == if a.ReplyDescribe? && a.c in svc.live[pc.k].waiting && a.sdp == pc.reply.sdp then 1 else 0
  {
    var pc := PcOf(s, t);
    assert ThreadOk(s.data, pc);
    StepIsEnabled(s.data, pc, at);
    SdpEffect(s.data.svc, pc.k, pc.reply.sdp);
    forall a ensures ActionsOf(s, Work(t, at))[a]
                  == if a.ReplyDescribe? && a.c in s.data.svc.live[pc.k].waiting && a.sdp == pc.reply.sdp then 1 else 0
    {
      SdpFanOut(s.data.svc, pc.k, pc.reply.sdp, a);
    }
  }

  /** A reply with a device response leaves its session with its context, even if the coders then fail; no other
      context changes. */
  lemma ReplySection(h: History, w: bool, t: Tid, at: Option<Key>)
    requires Possible(h, w) && Can(StateOf(h, w), w, Work(t, at)) && PcOf(StateOf(h, w), t).ReplyHasContexts?
    ensures var d, d', pc := StateOf(h, w).data, After(StateOf(h, w), w, Work(t, at)).data, PcOf(StateOf(h, w), t);
            && pc.k in d.prod.byKey && d.prod.byKey[pc.k].cid == pc.cid && d.prod.byKey[pc.k].inviteId == ""
            && d'.prod.byKey == d.prod.byKey[pc.k := d.prod.byKey[pc.k].(inviteId := if pc.reply.ok then pc.reply.inviteId else "")]
            && d'.svc == d.svc && d'.peers == d.peers && d'.acked == d.acked
  {
    ReplyFindsItsContext(h, w, t);
    Always(h, w);
    assert ThreadOk(StateOf(h, w).data, PcOf(StateOf(h, w), t));
  }

  /** A reply that has served its clients registers its peer, unless somebody has, and acknowledges its session. */
  lemma PeersSection(s: Sys, w: bool, t: Tid, at: Option<Key>)
    requires Can(s, w, Work(t, at)) && PcOf(s, t).ReplyHasPeers?
    ensures var d, d', pc := s.data, After(s, w, Work(t, at)).data, PcOf(s, t);
            && pc.reply.peer in d'.peers
            && d'.peers[pc.reply.peer] == (if pc.reply.peer in d.peers then d.peers[pc.reply.peer] else (pc.k, pc.cid))
            && (forall x :: x != pc.reply.peer ==> (x in d'.peers <==> x in d.peers))
            && (forall x :: x in d.peers ==> d'.peers[x] == d.peers[x])
            && d'.acked == d.acked + {pc.reply.inviteId} && d'.svc == d.svc && d'.prod == d.prod
  {}

  // ---------------------------------------------------------------- errors

  /** A reply without a usable answer is, after its look at the context map, inside the error callback of the proxy its
      own context is bound to. */
  lemma FailedReplyReports(h: History, w: bool, t: Tid, at: Option<Key>)
    requires Possible(h, w) && Can(StateOf(h, w), w, Work(t, at)) && PcOf(StateOf(h, w), t).ReplyHasContexts?
    requires !(PcOf(StateOf(h, w), t).reply.ok && PcOf(StateOf(h, w), t).reply.coders)
    ensures var s, pc := StateOf(h, w), PcOf(StateOf(h, w), t);
            && Alive(s.data.prod, pc.k, pc.cid)
            && PcOf(After(s, w, Work(t, at)), t) == ReplyFails(pc.k, pc.cid, pc.reply, s.data.prod.byKey[pc.k].boundTo)
  {
    ReplyFindsItsContext(h, w, t);
  }

  /** The error callback closes the socket of every client its live proxy knows and of nobody else, and changes no data. */
  lemma ErrorClosesSockets(s: Sys, w: bool, t: Tid, at: Option<Key>, c: Client)
    requires Can(s, w, Work(t, at)) && PcOf(s, t).ReplyFails? && BoundLive(s.data, PcOf(s, t).k, PcOf(s, t).id)
    ensures CloseSocket(c) in ActionsOf(s, Work(t, at)) <==> Knows(s.data.svc.live[PcOf(s, t).k], c)
    ensures After(s, w, Work(t, at)).data == s.data && PcOf(After(s, w, Work(t, at)), t) == Idle
  {
    ErrorSection(s, w, t, at);
    ErrorListsEveryClient(s.data.svc, PcOf(s, t).k, c);
  }

  lemma ErrorSection(s: Sys, w: bool, t: Tid, at: Option<Key>)
    requires Can(s, w, Work(t, at)) && PcOf(s, t).ReplyFails? && BoundLive(s.data, PcOf(s, t).k, PcOf(s, t).id)
    ensures ActionsOf(s, Work(t, at)) == Actions(s.data.svc, SourceError(PcOf(s, t).k))
    ensures After(s, w, Work(t, at)).data == s.data && PcOf(After(s, w, Work(t, at)), t) == Idle
  {}

  /** So does a registration that meets a context of its video, for the proxy that asked. */
  lemma RejectionClosesSockets(s: Sys, w: bool, t: Tid, at: Option<Key>, c: Client)
    requires SysOk(s) && Can(s, w, Work(t, at)) && PcOf(s, t).HasContexts? && PcOf(s, t).op.OpDescribe?
    requires Rejects(s.data.prod, PcOf(s, t).k)
    ensures var pc := PcOf(s, t);
            && BoundLive(s.data, pc.k, pc.id)
            && (CloseSocket(c) in ActionsOf(s, Work(t, at)) <==> Knows(s.data.svc.live[pc.k], c))
            && After(s, w, Work(t, at)).data.prod == s.data.prod && After(s, w, Work(t, at)).data.svc == s.data.svc
  {
    RejectionSection(s, w, t, at);
    ErrorListsEveryClient(s.data.svc, PcOf(s, t).k, c);
  }

  lemma RejectionSection(s: Sys, w: bool, t: Tid, at: Option<Key>)
    requires SysOk(s) && Can(s, w, Work(t, at)) && PcOf(s, t).HasContexts? && PcOf(s, t).op.OpDescribe?
    requires Rejects(s.data.prod, PcOf(s, t).k)
    ensures BoundLive(s.data, PcOf(s, t).k, PcOf(s, t).id)
    ensures ActionsOf(s, Work(t, at)) == Actions(s.data.svc, SourceError(PcOf(s, t).k))
    ensures After(s, w, Work(t, at)).data == s.data.(called := s.data.called + {PcOf(s, t).id})
  {
    assert ThreadOk(s.data, PcOf(s, t));
  }

  // ---------------------------------------------------------------- locks

  lemma GrantedHoldsIt(pc: Pc, l: Lock)
    requires Wants(pc) != Nothing && !(pc.WantProxies? && pc.op.OpPlay?)
    requires (pc.WantContexts? ==> pc.op.OpDescribe? || pc.op.OpClose?)
    ensures Held(Granted(pc), l) == if l == Wants(pc).l then Wants(pc).m else Held(pc, l)
  {}

  /** Taking a lock adds exactly that lock, in the mode asked for, and nobody holds it in a conflicting one. */
  lemma AcquireTakesLock(h: History, w: bool, t: Tid, u: Tid, l: Lock)
    requires Possible(More(h, Acquire(t)), w)
    ensures var pc, s' := PcOf(StateOf(h, w), t), StateOf(More(h, Acquire(t)), w);
            && Held(PcOf(s', t), l) == (if l == Wants(pc).l then Wants(pc).m else Held(pc, l))
            && (u != t ==> !Conflict(Held(PcOf(s', t), l), Held(PcOf(s', u), l)))
  {
    Always(h, w);
    Always(More(h, Acquire(t)), w);
    var s, s' := StateOf(h, w), StateOf(More(h, Acquire(t)), w);
    assert ThreadOk(s.data, PcOf(s, t));
    GrantedHoldsIt(PcOf(s, t), l);
    if u != t { assert Apart(PcOf(s', t), PcOf(s', u)); }
  }

  /** A section that is not the last of its thread gives no lock back, save that the SDP callback gives back the client
      lock it took; the last one gives all back. */
  lemma LocksKept(d: Data, pc: Pc, at: Option<Key>, l: Lock)
    requires CanWork(d, pc, at) && ThreadOk(d, pc)
    ensures var pc' := WorkPc(d, pc, at);
            Held(pc', l) == if pc' == Idle || (pc.ReplyHasClients? && l == Clients(pc.id)) then Free else Held(pc, l)
  {}
}

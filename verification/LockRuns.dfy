/** Runs of the lock machine.  Whether the peer lock can take part in a deadlock depends on `std::shared_mutex`: one
    run in which it does, when a waiting writer holds up readers.  A second session from a peer whose first
    context is gone.  And a `Close` that meets a packet of the same proxy. */
module LockRuns {
  import opened VideoUrl
  import opened Framing
  import opened Sharing
  import opened Producer
  import opened LockMachine
  import opened LockTheorems
  import opened LockPaths

  // ---------------------------------------------------------------- one session

  lemma Again(s: Sys, d: Data, d': Data, t: Tid, pc: Pc)
    ensures Moved(Moved(s, d, t, Idle), d', t, pc) == Moved(s, d', t, pc)
    ensures Alone(s, t) ==> Alone(Moved(s, d, t, Idle), t)
  {
    if Alone(s, t) {
      forall u: Tid | u != t ensures PcOf(Moved(s, d, t, Idle), u) == Idle {
        assert PcOf(s, u) == Idle;
      }
    }
  }

  /** Nobody has asked for device `k`. */
  ghost predicate Unused(d: Data, k: Key) {
    KindOf(k) == GbSource && k !in d.svc.live && k !in d.prod.byKey && d.prod.next !in d.prod.outstanding
  }

  ghost function Joined(d: Data, c: Client, k: Key): Data { d.(svc := Next(d.svc, Options(c, k))) }

  /** Client `c` is the first to ask for `k` and waits. */
  ghost function Asked(d: Data, c: Client, k: Key): Data {
    var id := d.svc.nextId;
    d.(svc := Service(d.svc.live[k := Proxy(id, {}, {c}, {}, {}, false, "")], id + 1, d.svc.owed + multiset{id}),
       prod := Contexts(d.prod.byKey[k := Context(d.prod.next, id, "")], d.prod.next + 1, d.prod.outstanding[d.prod.next := k]),
       called := d.called + {id})
  }

  lemma AskedGives(d: Data, c: Client, k: Key)
    requires Unused(d, k)
    ensures var e := Joined(d, c, k);
            k in e.svc.live && NeedsSource(e.svc.live[k]) && k !in e.prod.byKey && Described(e, c, k) == Asked(d, c, k)
  {
    var id := d.svc.nextId;
    assert ProxyDescribe(Proxy(id, {c}, {}, {}, {}, false, ""), c) == Proxy(id, {}, {c}, {}, {}, false, "");
    assert Described(Joined(d, c, k), c, k).svc.live == Asked(d, c, k).svc.live;
  }

  lemma RunAsk(p: Path, s: Sys, t: Tid, c: Client, k: Key) returns (p': Path)
    requires Reached(p, s) && Quiet(s, t) && Unused(s.data, k)
    ensures Reached(p', Moved(s, Asked(s.data, c, k), t, Idle))
  {
    var d1 := Joined(s.data, c, k);
    AskedGives(s.data, c, k);
    p' := RequestWithoutProxy(p, s, t, OpOptions(c, k));
    Again(s, d1, Asked(s.data, c, k), t, Idle);
    p' := RunDescribe(p', Moved(s, d1, t, Idle), t, c, k);
  }

  ghost predicate FreshReply(d: Data, reply: Reply) {
    reply.ok && reply.coders && reply.sdp != "" && reply.inviteId != "" && reply.inviteId !in d.issued
  }

  /** In addition the invite is answered, and the session acknowledged. */
  ghost function Session(d: Data, c: Client, k: Key, reply: Reply): Data {
    var id := d.svc.nextId;
    Data(Service(d.svc.live[k := Proxy(id, {}, {}, {c}, {}, true, reply.sdp)], id + 1, d.svc.owed),
         Contexts(d.prod.byKey[k := Context(d.prod.next, id, reply.inviteId)], d.prod.next + 1, d.prod.outstanding),
         if reply.peer in d.peers then d.peers else d.peers[reply.peer := (k, d.prod.next)],
         d.called + {id}, d.issued + {reply.inviteId}, d.acked + {reply.inviteId}, d.torn)
  }

  lemma AskedIsAnswerable(d: Data, c: Client, k: Key, reply: Reply)
    requires Unused(d, k) && FreshReply(d, reply)
    ensures Answerable(Asked(d, c, k), k, d.prod.next, reply)
  {}

  lemma SdpServes(svc: Service, owed: multiset<ProxyId>, id: ProxyId, c: Client, k: Key, sdp: string)
    requires k in svc.live && svc.live[k] == Proxy(id, {}, {c}, {}, {}, false, "") && svc.owed == owed + multiset{id} && sdp != ""
    ensures Next(svc, SdpArrives(k, sdp))
         == Service(svc.live[k := Proxy(id, {}, {}, {c}, {}, true, sdp)], svc.nextId, owed)
  {
    assert ProxySdp(Proxy(id, {}, {c}, {}, {}, false, ""), sdp) == Proxy(id, {}, {}, {c}, {}, true, sdp);
    assert owed + multiset{id} - multiset{id} == owed;
  }

  lemma ReplyServes(d: Data, c: Client, k: Key, reply: Reply)
    requires Unused(d, k) && FreshReply(d, reply)
    ensures Answerable(Asked(d, c, k), k, d.prod.next, reply)
    ensures Next(Asked(d, c, k).svc, SdpArrives(k, reply.sdp)) == Session(d, c, k, reply).svc
  {
    var id, svc := d.svc.nextId, Asked(d, c, k).svc;
    AskedIsAnswerable(d, c, k, reply);
    SdpServes(svc, d.svc.owed, id, c, k, reply.sdp);
    assert svc.live[k := Proxy(id, {}, {}, {c}, {}, true, reply.sdp)] == Session(d, c, k, reply).svc.live;
  }

  lemma ReplyGives(d: Data, c: Client, k: Key, reply: Reply)
    requires Unused(d, k) && FreshReply(d, reply)
    ensures Answerable(Asked(d, c, k), k, d.prod.next, reply)
    ensures Replied(Asked(d, c, k), k, d.prod.next, reply).svc == Session(d, c, k, reply).svc
    ensures Replied(Asked(d, c, k), k, d.prod.next, reply).prod == Session(d, c, k, reply).prod
  {
    var cid := d.prod.next;
    ReplyServes(d, c, k, reply);
    assert d.prod.outstanding[cid := k] - {cid} == d.prod.outstanding;
    assert SetInvite(Asked(d, c, k).prod, k, reply.inviteId).byKey == Session(d, c, k, reply).prod.byKey;
  }

  lemma SessionGives(d: Data, c: Client, k: Key, reply: Reply)
    requires Unused(d, k) && FreshReply(d, reply)
    ensures Answerable(Asked(d, c, k), k, d.prod.next, reply)
    ensures Acknowledged(Replied(Asked(d, c, k), k, d.prod.next, reply), k, d.prod.next, reply) == Session(d, c, k, reply)
  {
    ReplyGives(d, c, k, reply);
  }

  lemma RunSession(p: Path, s: Sys, t: Tid, c: Client, k: Key, reply: Reply) returns (p': Path)
    requires Reached(p, s) && Quiet(s, t) && Unused(s.data, k) && FreshReply(s.data, reply)
    ensures Reached(p', Moved(s, Session(s.data, c, k, reply), t, Idle))
  {
    var d, cid := s.data, s.data.prod.next;
    var d1 := Asked(d, c, k);
    var s1 := Moved(s, d1, t, Idle);
    p' := RunAsk(p, s, t, c, k);
    SessionGives(d, c, k, reply);
    Again(s, d1, Session(d, c, k, reply), t, Idle);
    AloneIsUnhindered(s1, t, ContextMap);
    AloneIsUnhindered(s1, t, Clients(d.svc.nextId));
    p' := RunReply(p', s1, t, k, cid, reply);
    p' := FinishReply(p', s1, Replied(d1, k, cid, reply), t, k, cid, reply);
  }

  // ---------------------------------------------------------------- a second session

  const START := Sys(NO_DATA, map[])
  const A := "gb://a"
  const B := "gb://b"

  lemma KeysAreGb()
    ensures KindOf(A) == GbSource && KindOf(B) == GbSource && A != B
  {}

  lemma ServeA(reply: Reply) returns (p: Path)
    requires FreshReply(NO_DATA, reply)
    ensures Reached(p, Moved(START, Session(NO_DATA, 1, A, reply), 1, Idle))
  {
    KeysAreGb();
    p := RunSession(Path(Begin, Begin, Start), START, 1, 1, A, reply);
  }

  /** The only client of `A` has closed. */
  ghost function Closed(reply: Reply): Data {
    Data(Service(map[], 1, multiset{}), Contexts(map[], 1, map[]), map[reply.peer := (A, 0)], {0},
         {reply.inviteId}, {reply.inviteId}, multiset{reply.inviteId})
  }

  lemma CloseStopsAtA(reply: Reply)
    ensures var d := Session(NO_DATA, 1, A, reply);
            && StopsAt(d.svc, 1, Some(A)) && Abandoned(ProxyRemove(d.svc.live[A], 1)) && d.svc.live[A].registered
            && Next(d.svc, Close(1, Some(A))) == Service(map[], 1, multiset{})
  {
    var d := Session(NO_DATA, 1, A, reply);
    assert d.svc.live == map[A := Proxy(0, {}, {}, {1}, {}, true, reply.sdp)];
    assert d.svc.live - {A} == map[];
  }

  lemma UnregisterAGives(reply: Reply)
    requires reply.inviteId != ""
    ensures var d := Session(NO_DATA, 1, A, reply).(svc := Service(map[], 1, multiset{}));
            Unregistered(d, A) == Closed(reply)
  {
    var d := Session(NO_DATA, 1, A, reply).(svc := Service(map[], 1, multiset{}));
    assert TornDownBy(d.prod, A) == Some(reply.inviteId);
    assert d.prod.byKey - {A} == map[];
  }

  lemma CloseErasesA(reply: Reply) returns (p: Path)
    requires FreshReply(NO_DATA, reply)
    ensures var d := Session(NO_DATA, 1, A, reply).(svc := Service(map[], 1, multiset{}));
            Reached(p, Moved(START, d, 1, WantContexts(OpClose(1), A, 0)))
  {
    var d0 := Session(NO_DATA, 1, A, reply);
    var s := Moved(START, d0, 1, Idle);
    CloseStopsAtA(reply);
    AloneIsUnhindered(s, 1, Servers);
    AloneIsUnhindered(s, 1, Proxies);
    p := ServeA(reply);
    p := CloseErases(p, s, 1, 1, Some(A));
    Again(START, d0, d0.(svc := Service(map[], 1, multiset{})), 1, WantContexts(OpClose(1), A, 0));
  }

  lemma CloseA(reply: Reply) returns (p: Path)
    requires FreshReply(NO_DATA, reply)
    ensures Reached(p, Moved(START, Closed(reply), 1, Idle))
  {
    var d := Session(NO_DATA, 1, A, reply).(svc := Service(map[], 1, multiset{}));
    UnregisterAGives(reply);
    p := CloseErasesA(reply);
    p := FinishClose(p, START, d, 1, 1, A, 0);
  }

  /** A second session for `A` comes from the same peer: its context is registered, its session acknowledged, its
      client has the SDP; but the peer is still tied to the first context, which is gone. */
  lemma DeafPeerHappens(first: Reply, second: Reply) returns (h: History)
    requires FreshReply(NO_DATA, first) && FreshReply(NO_DATA, second)
    requires first.inviteId != second.inviteId && first.peer == second.peer
    ensures Possible(h, true)
    ensures var d := StateOf(h, true).data;
            && first.peer in d.peers && d.peers[first.peer] == (A, 0) && Gone(d, A, 0)
            && Alive(d.prod, A, 1) && d.prod.byKey[A] == Context(1, 1, second.inviteId) && second.inviteId in d.acked
            && A in d.svc.live && d.svc.live[A] == Proxy(1, {}, {}, {2}, {}, true, second.sdp)
  {
    KeysAreGb();
    var p := CloseA(first);
    var s := Moved(START, Closed(first), 1, Idle);
    p := RunSession(p, s, 1, 2, A, second);
    h := p.now;
  }

  // ---------------------------------------------------------------- a close meets a packet

  /** `Close` works on the sets of a proxy while a packet goes through them. */
  lemma CloseMeetsPacket(reply: Reply, data: seq<byte>) returns (h: History)
    requires FreshReply(NO_DATA, reply)
    ensures Possible(h, true)
    ensures PcOf(StateOf(h, true), 2) == PacketHasClients(A, 0, data, 0)
    ensures PcOf(StateOf(h, true), 3) == Ready(OpClose(1))
    ensures A in StateOf(h, true).data.svc.live && StateOf(h, true).data.svc.live[A].id == 0
  {
    var d := Session(NO_DATA, 1, A, reply);
    var s := Moved(START, d, 1, Idle);
    var p := ServeA(reply);
    p := RunPacket(p, s, 2, reply.peer, data);
    p := PacketEnters(p, s, 2, A, 0, data);
    var s' := Moved(s, d, 2, PacketHasClients(A, 0, data, 0));
    forall u: Tid | u != 2 ensures PcOf(s', u) == Idle {}
    PacketInsideIsNoHindrance(s', Servers);
    PacketInsideIsNoHindrance(s', Proxies);
    p := Enter(p, s', 3, OpClose(1));
    h := p.now;
  }

  lemma PacketInsideIsNoHindrance(s: Sys, l: Lock)
    requires PcOf(s, 2).PacketHasClients? && (forall u: Tid :: u != 2 ==> PcOf(s, u) == Idle)
    requires l == Servers || l == Proxies
    ensures Unhindered(s, 3, l)
  {
    forall u: Tid | u != 3 ensures Held(PcOf(s, u), l) == Free && Wants(PcOf(s, u)) != For(l, Unique) {
      assert u != 2 ==> PcOf(s, u) == Idle;
    }
  }

  // ---------------------------------------------------------------- a deadlock

  const REPLY_A := Reply(true, true, "i", "v", "p")
  const REPLY_B := Reply(true, true, "j", "v", "q")

  /** Video `A` is served; a client of video `B` waits for its SDP. */
  ghost const SERVED := Session(NO_DATA, 1, A, REPLY_A)
  ghost const REQUESTED := Asked(SERVED, 2, B)

  lemma RequestB() returns (p: Path)
    ensures Reached(p, Moved(START, REQUESTED, 1, Idle))
  {
    KeysAreGb();
    p := ServeA(REPLY_A);
    p := RunAsk(p, Moved(START, SERVED, 1, Idle), 1, 2, B);
    Again(START, SERVED, REQUESTED, 1, Idle);
  }

  lemma PacketA() returns (p: Path, s: Sys)
    ensures Reached(p, s) && s.data == REQUESTED
    ensures PcOf(s, 2) == PacketWantContexts(A, 0, []) && forall u: Tid :: u != 2 ==> PcOf(s, u) == Idle
  {
    p := RequestB();
    var s5 := Moved(START, REQUESTED, 1, Idle);
    p := RunPacket(p, s5, 2, "p", []);
    s := Moved(s5, REQUESTED, 2, PacketWantContexts(A, 0, []));
  }

  ghost predicate PacketAndReplyWait(s: Sys) {
    && PcOf(s, 1) == ReplyWantPeers(B, 1, REPLY_B)
    && PcOf(s, 2) == PacketWantContexts(A, 0, [])
    && forall u: Tid :: u != 1 && u != 2 ==> PcOf(s, u) == Idle
  }

  lemma PacketIsNoHindrance(s: Sys, t: Tid, l: Lock)
    requires PcOf(s, 2) == PacketWantContexts(A, 0, []) && (forall u: Tid :: u != 2 ==> PcOf(s, u) == Idle)
    requires t == 1 && l != Peers
    ensures Unhindered(s, t, l)
  {
    forall u: Tid | u != t ensures Held(PcOf(s, u), l) == Free && Wants(PcOf(s, u)) != For(l, Unique) {
      assert u != 2 ==> PcOf(s, u) == Idle;
    }
  }

  lemma PacketAndReply() returns (p: Path, s: Sys)
    ensures Reached(p, s) && PacketAndReplyWait(s) && s.data.svc == Session(SERVED, 2, B, REPLY_B).svc
  {
    var s6;
    p, s6 := PacketA();
    KeysAreGb();
    ReplyGives(SERVED, 2, B, REPLY_B);
    PacketIsNoHindrance(s6, 1, ContextMap);
    PacketIsNoHindrance(s6, 1, Clients(1));
    p := RunReply(p, s6, 1, B, 1, REPLY_B);
    s := Moved(s6, Replied(REQUESTED, B, 1, REPLY_B), 1, ReplyWantPeers(B, 1, REPLY_B));
    forall u: Tid | u != 1 ensures PcOf(s, u) == PcOf(s6, u) {}
  }

  lemma CloseAStops()
    ensures var svc := Session(SERVED, 2, B, REPLY_B).svc;
            StopsAt(svc, 1, Some(A)) && Abandoned(ProxyRemove(svc.live[A], 1)) && svc.live[A].registered && svc.live[A].id == 0
  {
    KeysAreGb();
    assert Session(SERVED, 2, B, REPLY_B).svc.live
        == map[A := Proxy(0, {}, {}, {1}, {}, true, "v"), B := Proxy(1, {}, {}, {2}, {}, true, "v")];
  }

  /** With writers first, three threads can wait for one another: an invite reply holding the context
      lock for the peer lock, a packet holding the peer lock for the context lock, and an unregistration
      waiting for the context lock. */
  lemma WritersFirstCanDeadlock() returns (h: History, ts: seq<Tid>)
    ensures Possible(h, true) && WaitCycle(StateOf(h, true), true, ts)
  {
    var p, s := PacketAndReply();
    CloseAStops();
    NoHandler(s, Servers);
    NoHandler(s, Proxies);
    p := CloseErases(p, s, 3, 1, Some(A));
    h := p.now;
    var r := StateOf(h, true);
    assert PcOf(r, 1) == PcOf(s, 1) && PcOf(r, 2) == PcOf(s, 2) && PcOf(r, 3) == WantContexts(OpClose(1), A, 0);
    ThreeWait(r);
    ts := [1, 2, 3];
  }

  lemma NoHandler(s: Sys, l: Lock)
    requires PacketAndReplyWait(s) && (l == Servers || l == Proxies)
    ensures Unhindered(s, 3, l)
  {
    forall u: Tid | u != 3 ensures Held(PcOf(s, u), l) == Free && Wants(PcOf(s, u)) != For(l, Unique) {
      assert u != 1 && u != 2 ==> PcOf(s, u) == Idle;
    }
  }

  lemma ThreeWait(r: Sys)
    requires PcOf(r, 1).ReplyWantPeers? && PcOf(r, 2).PacketWantContexts? && PcOf(r, 3).WantContexts?
    ensures WaitCycle(r, true, [1, 2, 3])
  {}
}

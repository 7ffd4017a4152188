/** What holds over whole runs of the stream-sharing protocol. */
module SharingRuns {
  import opened VideoUrl
  import opened Framing
  import opened Sharing

  // ---------------------------------------------------------------- at-most-once registration

  ghost predicate Registers(s: Service, e: Event, id: ProxyId)
    requires Enabled(s, e)
  {
    exists k :: RegisterVideo(k, id) in Actions(s, e)
  }

  /** How often `RegisterVideo` was called on behalf of proxy `id`. */
  ghost function Registrations(t: Run, id: ProxyId): nat
    requires Legal(t)
  {
    if t.Start? then 0
    else Registrations(t.before, id) + if Registers(State(t.before), t.e, id) then 1 else 0
  }

  lemma RegistersIff(s: Service, e: Event, id: ProxyId)
    requires Enabled(s, e)
    ensures Registers(s, e, id)
       <==> e.Describe? && e.k in s.live && NeedsSource(s.live[e.k]) && s.live[e.k].id == id
  {
    if e.Describe? && e.k in s.live && NeedsSource(s.live[e.k]) && s.live[e.k].id == id {
      assert RegisterVideo(e.k, id) in Actions(s, e);
    }
  }

  /** `n` is the number of `RegisterVideo` calls proxy `id` has made by state `s`. */
  ghost predicate Tally(s: Service, id: ProxyId, n: nat) {
    && n <= 1
    && (id >= s.nextId ==> n == 0)
    && (forall k :: k in s.live && s.live[k].id == id ==> (n == 1 <==> Requested(s.live[k])))
  }

  lemma TallyStep(s: Service, e: Event, id: ProxyId, n: nat)
    requires UniqueIds(s) && Phases(s, e) && Enabled(s, e) && Tally(s, id, n)
    ensures Tally(Next(s, e), id, n + if Registers(s, e, id) then 1 else 0)
  {
    RegistersIff(s, e, id);
    forall k | k in Next(s, e).live && Next(s, e).live[k].id == id
      ensures n + (if Registers(s, e, id) then 1 else 0) == 1 <==> Requested(Next(s, e).live[k])
    {
      TallyAt(s, e, id, n, k);
    }
  }

  lemma TallyAt(s: Service, e: Event, id: ProxyId, n: nat, k: Key)
    requires UniqueIds(s) && Phases(s, e) && Enabled(s, e) && Tally(s, id, n)
    requires k in Next(s, e).live && Next(s, e).live[k].id == id
    ensures n + (if Registers(s, e, id) then 1 else 0) == 1 <==> Requested(Next(s, e).live[k])
  {
    RegistersIff(s, e, id);
    StepAt(s, e, k);
    if k in s.live {
      ProxyStays(s, e, k);
      RequestedStep(s, e, k);
    } else {
      NewProxyIsFresh(s, e, k);
    }
  }

  /** `RegisterVideo` is called at most once per proxy lifetime, and it has been called for a live
      proxy exactly when a client waits or the SDP is there. */
  lemma {:induction false} AtMostOneRegistration(t: Run, id: ProxyId)
    requires Legal(t)
    ensures Registrations(t, id) <= 1
    ensures Tally(State(t), id, Registrations(t, id))
  {
    if t.Then? {
      AtMostOneRegistration(t.before, id);
      PhaseInvariant(t.before);
      InvPhases(State(t.before), t.e);
      TallyStep(State(t.before), t.e, id, Registrations(t.before, id));
    }
  }

  lemma RequestedStep(s: Service, e: Event, k: Key)
    requires Phases(s, e) && Enabled(s, e) && k in s.live && AtAfter(s, e, k).Some?
    ensures Requested(AtAfter(s, e, k).value)
       <==> Requested(s.live[k]) || (e.Describe? && e.k == k)
  {}

  /** A live proxy keeps its identity, its registration and its waiting client until it is erased or its
      SDP comes. */
  lemma ProxyStays(s: Service, e: Event, k: Key)
    requires Phases(s, e) && Enabled(s, e) && k in s.live
    ensures k in Next(s, e).live ==> Next(s, e).live[k].id == s.live[k].id
    ensures k in Next(s, e).live ==> (Requested(s.live[k]) ==> Requested(Next(s, e).live[k]))
    ensures k in Next(s, e).live && s.live[k].waiting != {} && !(e.SdpArrives? && e.k == k)
            ==> Next(s, e).live[k].waiting != {}
    ensures !e.Close? ==> k in Next(s, e).live
  {
    StepAt(s, e, k);
    var p := s.live[k];
    assert PhaseOk(p, s.nextId);
    if e.Close? && e.at == Some(k) && e.c !in p.beforeDescribe && e.c in p.waiting { WaitingIsOne(p, e.c); }
  }

  lemma RegisteredByArrival(s: Service, e: Event, k: Key)
    requires Enabled(s, e) && !(e.SdpArrives? && e.k == k) && k in Next(s, e).live
    ensures Next(s, e).live[k].registered ==> k in s.live && s.live[k].registered
  {
    StepAt(s, e, k);
  }

  lemma NewProxyIsFresh(s: Service, e: Event, k: Key)
    requires Enabled(s, e) && k !in s.live && k in Next(s, e).live
    ensures Next(s, e).live[k].id == s.nextId
  {}

  lemma NextIdGrows(s: Service, e: Event)
    requires Enabled(s, e)
    ensures Next(s, e).nextId >= s.nextId
  {}

  // ---------------------------------------------------------------- one SDP per proxy

  ghost predicate RepliesSdp(s: Service, e: Event, id: ProxyId, sdp: string)
    requires Enabled(s, e)
  {
    && (e.Describe? || e.SdpArrives?)
    && e.k in s.live && s.live[e.k].id == id
    && exists c :: ReplyDescribe(c, sdp) in Actions(s, e)
  }

  ghost predicate EverReplied(t: Run, id: ProxyId, sdp: string)
    requires Legal(t)
  {
    t.Then? && (RepliesSdp(State(t.before), t.e, id, sdp) || EverReplied(t.before, id, sdp))
  }

  /** Whoever is proxy `id` now stores `sdp`. */
  ghost predicate Stores(s: Service, id: ProxyId, sdp: string) {
    sdp != "" && id < s.nextId && forall k :: k in s.live && s.live[k].id == id ==> s.live[k].sdp == sdp
  }

  lemma StoresKept(s: Service, e: Event, id: ProxyId, sdp: string)
    requires Phases(s, e) && Enabled(s, e) && Stores(s, id, sdp)
    ensures Stores(Next(s, e), id, sdp)
  {}

  lemma StoresReplied(s: Service, e: Event, id: ProxyId, sdp: string)
    requires UniqueIds(s) && Phases(s, e) && Enabled(s, e) && RepliesSdp(s, e, id, sdp)
    ensures Stores(Next(s, e), id, sdp)
  {}

  lemma {:induction false} RepliedIsStored(t: Run, id: ProxyId, sdp: string)
    requires Legal(t) && EverReplied(t, id, sdp)
    ensures Stores(State(t), id, sdp)
  {
    PhaseInvariant(t.before);
    InvPhases(State(t.before), t.e);
    if EverReplied(t.before, id, sdp) {
      RepliedIsStored(t.before, id, sdp);
      StoresKept(State(t.before), t.e, id, sdp);
    } else {
      StoresReplied(State(t.before), t.e, id, sdp);
    }
  }

  /** Every 200 reply to DESCRIBE for one proxy carries the same SDP. */
  lemma {:induction false} OneSdpPerProxy(t: Run, id: ProxyId, x: string, y: string)
    requires Legal(t) && EverReplied(t, id, x) && EverReplied(t, id, y)
    ensures x == y
  {
    var s, e := State(t.before), t.e;
    var now := RepliesSdp(s, e, id, x) || RepliesSdp(s, e, id, y);
    if now {
      PhaseInvariant(t.before);
      assert ProxyInv(s.live[e.k], s.nextId, s.owed);
      if EverReplied(t.before, id, x) { RepliedIsStored(t.before, id, x); }
      if EverReplied(t.before, id, y) { RepliedIsStored(t.before, id, y); }
    } else {
      OneSdpPerProxy(t.before, id, x, y);
    }
  }

  // ---------------------------------------------------------------- register / unregister balance

  ghost function SdpArrivals(t: Run, k: Key): nat {
    if t.Start? then 0
    else SdpArrivals(t.before, k) + if t.e.SdpArrives? && t.e.k == k then 1 else 0
  }

  ghost function Unregistrations(t: Run, k: Key): nat
    requires Legal(t)
  {
    if t.Start? then 0
    else Unregistrations(t.before, k) + Actions(State(t.before), t.e)[UnregisterVideo(k)]
  }

  /** Proxies of a video that got an SDP, minus `UnregisterVideo` calls, is 1 while a registered
      proxy for it is live and 0 otherwise. */
  lemma {:induction false} RegistrationBalance(t: Run, k: Key)
    requires Legal(t)
    ensures SdpArrivals(t, k) - Unregistrations(t, k)
         == if k in State(t).live && State(t).live[k].registered then 1 else 0
  {
    if t.Then? {
      RegistrationBalance(t.before, k);
      PhaseInvariant(t.before);
      InvPhases(State(t.before), t.e);
      BalanceStep(State(t.before), t.e, k);
    }
  }

  function HoldsSource(p: Option<Proxy>): int { if p.Some? && p.value.registered then 1 else 0 }

  lemma BalanceStep(s: Service, e: Event, k: Key)
    requires Phases(s, e) && Enabled(s, e)
    ensures HoldsSource(At(Next(s, e), k)) + Actions(s, e)[UnregisterVideo(k)]
         == HoldsSource(At(s, k)) + if e.SdpArrives? && e.k == k then 1 else 0
  {
    StepAt(s, e, k);
    UnregistersIff(s, e, k);
    BalanceAt(s, e, k);
  }

  lemma BalanceAt(s: Service, e: Event, k: Key)
    requires Phases(s, e) && Enabled(s, e)
    ensures HoldsSource(AtAfter(s, e, k)) + (if Erases(s, e, k) && s.live[k].registered then 1 else 0)
         == HoldsSource(At(s, k)) + if e.SdpArrives? && e.k == k then 1 else 0
  {
    if k in s.live { assert PhaseOk(s.live[k], s.nextId); }
  }

  lemma UnregistersIff(s: Service, e: Event, k: Key)
    requires Enabled(s, e)
    ensures Actions(s, e)[UnregisterVideo(k)] == if Erases(s, e, k) && s.live[k].registered then 1 else 0
  {}

  // ---------------------------------------------------------------- isolation

  function Actor(e: Event): Option<Client> {
    match e
    case Options(c, _) => Some(c)
    case Describe(c, _) => Some(c)
    case Play(c, _) => Some(c)
    case Close(c, _) => Some(c)
    case _ => None
  }

  /** A step by anyone else never takes a client out of the waiting, before-play or playing set of a
      proxy (an SDP only moves it on); it takes a client out of the before-describe set exactly when
      it erases the proxy. */
  lemma Isolation(s: Service, e: Event, k: Key, c: Client)
    requires Enabled(s, e) && k in s.live && Actor(e) != Some(c)
    ensures KeepsClient(s.live[k], At(Next(s, e), k), c, e.SdpArrives? && e.k == k)
    ensures c in s.live[k].beforeDescribe ==>
              (Erases(s, e, k) <==> !StillBeforeDescribe(s.live[k], At(Next(s, e), k), c))
  {
    StepAt(s, e, k);
    if e.Close? { RemoveKeepsOthers(s.live[k], e.c, c); }
  }

  lemma RemoveKeepsOthers(p: Proxy, c: Client, other: Client)
    requires c != other
    ensures var q := ProxyRemove(p, c);
            && (other in p.beforeDescribe <==> other in q.beforeDescribe)
            && (other in p.waiting <==> other in q.waiting)
            && (other in p.beforePlay <==> other in q.beforePlay)
            && (other in p.playing <==> other in q.playing)
            && q.id == p.id && q.sdp == p.sdp && q.registered == p.registered
  {}

  ghost predicate KeepsClient(p: Proxy, after: Option<Proxy>, c: Client, sdpCame: bool) {
    c in p.waiting || c in p.beforePlay || c in p.playing ==>
      && after.Some? && after.value.id == p.id
      && (c in p.waiting ==> if sdpCame then c in after.value.beforePlay else c in after.value.waiting)
      && (c in p.beforePlay ==> c in after.value.beforePlay)
      && (c in p.playing ==> c in after.value.playing)
  }

  ghost predicate StillBeforeDescribe(p: Proxy, after: Option<Proxy>, c: Client) {
    after.Some? && after.value.id == p.id && c in after.value.beforeDescribe
  }

  // ---------------------------------------------------------------- end-to-end delivery

  ghost predicate NoClose(t0: Run, t: Run, c: Client) {
    t != t0 && t.Then? ==> !(t.e.Close? && t.e.c == c) && NoClose(t0, t.before, c)
  }

  /** The interleaved bytes one step sends to client `c` on behalf of proxy `id`. */
  ghost function SentIn(s: Service, e: Event, c: Client, id: ProxyId): seq<byte>
    requires Enabled(s, e)
  {
    if e.Packet? && s.live[e.k].id == id && SendData(c, Encode(e.data)) in Actions(s, e)
    then Encode(e.data) else []
  }

  ghost function SentSince(t0: Run, t: Run, c: Client, id: ProxyId): seq<byte>
    requires Legal(t)
  {
    if t == t0 || t.Start? then []
    else SentSince(t0, t.before, c, id) + SentIn(State(t.before), t.e, c, id)
  }

  /** The packets proxy `id` consumed after `t0`. */
  ghost function ConsumedSince(t0: Run, t: Run, id: ProxyId): (r: seq<seq<byte>>)
    requires Legal(t)
    ensures AllSendable(r)
  {
    if t == t0 || t.Start? then []
    else if t.e.Packet? && State(t.before).live[t.e.k].id == id then
      ConsumedSince(t0, t.before, id) + [t.e.data]
    else ConsumedSince(t0, t.before, id)
  }

  /** A packet goes out exactly once to each playing client of its proxy and to nobody else. */
  lemma PacketFanOut(s: Service, k: Key, data: seq<byte>, c: Client, bytes: seq<byte>)
    requires Enabled(s, Packet(k, data))
    ensures Actions(s, Packet(k, data))[SendData(c, bytes)]
         == if c in s.live[k].playing && bytes == Encode(data) then 1 else 0
  {}

  lemma PlayingStays(s: Service, e: Event, k: Key, c: Client)
    requires Enabled(s, e) && k in s.live && c in s.live[k].playing && !(e.Close? && e.c == c)
    ensures k in Next(s, e).live && Next(s, e).live[k].id == s.live[k].id
    ensures c in Next(s, e).live[k].playing
  {
    if Actor(e) != Some(c) { Isolation(s, e, k, c); }
  }

  /** While a client plays and does not close, its proxy stays, and the bytes it is sent for that
      proxy decode to exactly the packets the proxy consumed, in order, once each. */
  lemma {:induction false} Delivery(t0: Run, t: Run, c: Client, k: Key)
    requires Legal(t) && Legal(t0) && Continues(t0, t) && NoClose(t0, t, c)
    requires k in State(t0).live && c in State(t0).live[k].playing
    ensures var id := State(t0).live[k].id;
            && k in State(t).live && State(t).live[k].id == id && c in State(t).live[k].playing
            && SentSince(t0, t, c, id) == EncodeAll(ConsumedSince(t0, t, id))
            && Decode(SentSince(t0, t, c, id)) == Some(FramesOf(ConsumedSince(t0, t, id)))
  {
    var id := State(t0).live[k].id;
    if t != t0 {
      var s, e := State(t.before), t.e;
      Delivery(t0, t.before, c, k);
      PhaseInvariant(t.before);
      PlayingStays(s, e, k, c);
      if e.Packet? && s.live[e.k].id == id {
        assert e.k == k;
        PacketFanOut(s, k, e.data, c, Encode(e.data));
        EncodeAllAppend(ConsumedSince(t0, t.before, id), e.data);
      }
    }
    DecodeAll(ConsumedSince(t0, t, id));
  }

  /** A successful PLAY opens the delivery interval of `Delivery`. */
  lemma PlayOpensDelivery(s: Service, c: Client, k: Key)
    ensures ReplyPlay(c, 200) in Actions(s, Play(c, k))
       <==> k in s.live && c in s.live[k].beforePlay
    ensures ReplyPlay(c, 200) in Actions(s, Play(c, k))
        ==> c in Next(s, Play(c, k)).live[k].playing
  {}

  ghost predicate NoPlay(t0: Run, t: Run, c: Client) {
    t != t0 && t.Then? ==> !(t.e.Play? && t.e.c == c) && NoPlay(t0, t.before, c)
  }

  ghost predicate NotPlaying(s: Service, c: Client, id: ProxyId) {
    id < s.nextId && forall k :: k in s.live && s.live[k].id == id ==> c !in s.live[k].playing
  }

  lemma NotPlayingStays(s: Service, e: Event, c: Client, id: ProxyId)
    requires Enabled(s, e) && NotPlaying(s, c, id) && !(e.Play? && e.c == c)
    ensures NotPlaying(Next(s, e), c, id)
  {}

  /** Nothing is sent to a client outside such an interval: not before its first PLAY and not after
      its proxy has dropped it. */
  lemma {:induction false} NoDeliveryOutside(t0: Run, t: Run, c: Client, id: ProxyId)
    requires Legal(t) && Legal(t0) && Continues(t0, t) && NoPlay(t0, t, c)
    requires NotPlaying(State(t0), c, id)
    ensures SentSince(t0, t, c, id) == [] && NotPlaying(State(t), c, id)
  {
    if t != t0 {
      var s, e := State(t.before), t.e;
      NoDeliveryOutside(t0, t.before, c, id);
      NotPlayingStays(s, e, c, id);
      if e.Packet? && s.live[e.k].id == id { PacketFanOut(s, e.k, e.data, c, Encode(e.data)); }
    }
  }
}

/** The stream-sharing protocol of core/src/rtsp_service.cpp as a step machine.
    Every handler and every producer callback is one atomic step; clients, videos and the order of
    requests are arbitrary.  A proxy gets a fresh `id` per lifetime. */
module Sharing {
  import opened VideoUrl
  import opened Framing

  type Client = nat
  type ProxyId = nat

  datatype Proxy = Proxy(
    id: ProxyId,
    beforeDescribe: set<Client>,
    waiting: set<Client>,
    beforePlay: set<Client>,
    playing: set<Client>,
    registered: bool,
    sdp: string)

  /** `owed` holds the proxies whose `RegisterVideo` call has not yet called back with an SDP. */
  datatype Service = Service(live: map<Key, Proxy>, nextId: ProxyId, owed: multiset<ProxyId>)

  datatype Event =
    | Options(c: Client, k: Key)
    | Describe(c: Client, k: Key)
    | Play(c: Client, k: Key)
    | Close(c: Client, at: Option<Key>)  // `at`: the map entry the search loop stops at
    | SdpArrives(k: Key, sdp: string)
    | Packet(k: Key, data: seq<byte>)
    | SourceError(k: Key)

  /** What a step does to the outside world. */
  datatype Action =
    | ReplyOptions(c: Client)
    | ReplyDescribe(c: Client, sdp: string)
    | ReplyPlay(c: Client, code: int)
    | RegisterVideo(k: Key, id: ProxyId)
    | UnregisterVideo(k: Key)
    | SendData(c: Client, bytes: seq<byte>)
    | CloseSocket(c: Client)

  /** The three loops over client sets: one action per client of the set. */
  datatype Broadcast = DescribeReply(sdp: string) | Interleaved(bytes: seq<byte>) | SocketClose

  function ActionTo(b: Broadcast, c: Client): Action {
    match b
    case DescribeReply(sdp) => ReplyDescribe(c, sdp)
    case Interleaved(bytes) => SendData(c, bytes)
    case SocketClose => CloseSocket(c)
  }

  ghost function ToAll(b: Broadcast, cs: set<Client>): multiset<Action> {
    multiset(set c | c in cs :: ActionTo(b, c))
  }

  lemma ToAllAdd(b: Broadcast, cs: set<Client>, c: Client)
    requires c !in cs
    ensures ToAll(b, cs + {c}) == ToAll(b, cs) + multiset{ActionTo(b, c)}
  {}

  // ---------------------------------------------------------------- one proxy

  predicate Knows(p: Proxy, c: Client) {
    c in p.beforeDescribe || c in p.waiting || c in p.beforePlay || c in p.playing
  }

  /** `needUnregistered` in `Close`: clients that have not sent DESCRIBE do not count. */
  predicate Abandoned(p: Proxy) {
    p.waiting == {} && p.beforePlay == {} && p.playing == {}
  }

  predicate NeedsSource(p: Proxy) { p.sdp == "" && p.waiting == {} }

  /** `RegisterVideo` has been called for this proxy. */
  predicate Requested(p: Proxy) { p.sdp != "" || p.waiting != {} }

  function NewProxy(id: ProxyId, c: Client): Proxy {
    Proxy(id, {c}, {}, {}, {}, false, "")
  }

  function ProxyDescribe(p: Proxy, c: Client): Proxy {
    var q := p.(beforeDescribe := p.beforeDescribe - {c});
    if NeedsSource(p) then q.(waiting := p.waiting + {c})
    else if p.sdp != "" then q.(beforePlay := p.beforePlay + {c})
    else q
  }

  function ProxyPlay(p: Proxy, c: Client): Proxy {
    if c in p.beforePlay then
      p.(beforePlay := p.beforePlay - {c}, playing := p.playing + {c})
    else p
  }

  /** The `else if` chain of `Close`: the client leaves the first set that holds it. */
  function ProxyRemove(p: Proxy, c: Client): Proxy {
    if c in p.beforeDescribe then p.(beforeDescribe := p.beforeDescribe - {c})
    else if c in p.waiting then p.(waiting := p.waiting - {c})
    else if c in p.beforePlay then p.(beforePlay := p.beforePlay - {c})
    else p.(playing := p.playing - {c})
  }

  function ProxySdp(p: Proxy, sdp: string): Proxy {
    p.(registered := true, beforePlay := p.beforePlay + p.waiting, waiting := {}, sdp := sdp)
  }

  // ---------------------------------------------------------------- the service

  const INIT := Service(map[], 0, multiset{})

  /** `Close` stops at the first entry in map order that knows the client, if there is one. */
  ghost predicate StopsAt(s: Service, c: Client, at: Option<Key>) {
    match at
    case None => forall k :: k in s.live ==> !Knows(s.live[k], c)
    case Some(k) =>
      && k in s.live && Knows(s.live[k], c)
      && forall j :: j in s.live && Knows(s.live[j], c) ==> j == k || StrLess(k, j)
  }

  lemma CloseStopsSomewhere(s: Service, c: Client) returns (at: Option<Key>)
    ensures StopsAt(s, c, at)
    ensures forall other :: StopsAt(s, c, other) ==> other == at
  {
    var holders := set k | k in s.live && Knows(s.live[k], c);
    if holders == {} {
      at := None;
      forall k | k in s.live ensures !Knows(s.live[k], c) {
        assert k !in holders;
      }
    } else {
      LeastExists(holders);
      var k :| IsLeast(holders, k);
      at := Some(k);
      forall other | StopsAt(s, c, other) ensures other == at {
        assert other.Some? && IsLeast(holders, other.value);
        LeastUnique(holders, k, other.value);
      }
    }
  }

  ghost function CloseAt(s: Service, c: Client, k: Key): Service
    requires k in s.live
  {
    var q := ProxyRemove(s.live[k], c);
    if Abandoned(q) then s.(live := s.live - {k}) else s.(live := s.live[k := q])
  }

  /** Callbacks reach live proxies; an SDP is non-empty and arrives at most once per registration. */
  ghost predicate Enabled(s: Service, e: Event) {
    match e
    case SdpArrives(k, sdp) => k in s.live && sdp != "" && s.live[k].id in s.owed
    case Packet(k, data) => k in s.live && Sendable(data)
    case SourceError(k) => k in s.live
    case Close(c, at) => StopsAt(s, c, at)
    case _ => true
  }

  ghost function Next(s: Service, e: Event): Service
    requires Enabled(s, e)
  {
    match e
    case Options(c, k) =>
      if k in s.live then
        var p := s.live[k];
        s.(live := s.live[k := p.(beforeDescribe := p.beforeDescribe + {c})])
      else
        s.(live := s.live[k := NewProxy(s.nextId, c)], nextId := s.nextId + 1)
    case Describe(c, k) =>
      if k in s.live then
        var p := s.live[k];
        Service(s.live[k := ProxyDescribe(p, c)], s.nextId,
                if NeedsSource(p) then s.owed + multiset{p.id} else s.owed)
      else s
    case Play(c, k) =>
      if k in s.live then s.(live := s.live[k := ProxyPlay(s.live[k], c)]) else s
    case Close(c, at) =>
      if at.None? then s else CloseAt(s, c, at.value)
    case SdpArrives(k, sdp) =>
      Service(s.live[k := ProxySdp(s.live[k], sdp)], s.nextId, s.owed - multiset{s.live[k].id})
    case Packet(_, _) => s
    case SourceError(_) => s
  }

  ghost function Actions(s: Service, e: Event): multiset<Action>
    requires Enabled(s, e)
  {
    match e
    case Options(c, k) => multiset{ReplyOptions(c)}
    case Describe(c, k) =>
      if k !in s.live then multiset{}
      else if NeedsSource(s.live[k]) then multiset{RegisterVideo(k, s.live[k].id)}
      else if s.live[k].sdp != "" then multiset{ReplyDescribe(c, s.live[k].sdp)}
      else multiset{}
    case Play(c, k) =>
      if k !in s.live then multiset{}
      else multiset{ReplyPlay(c, if c in s.live[k].beforePlay then 200 else 454)}
    case Close(c, at) =>
      if at.Some? && Abandoned(ProxyRemove(s.live[at.value], c)) && s.live[at.value].registered then
        multiset{UnregisterVideo(at.value)}
      else multiset{}
    case SdpArrives(k, sdp) =>
      ToAll(DescribeReply(sdp), s.live[k].waiting)
    case Packet(k, data) =>
      ToAll(Interleaved(Encode(data)), s.live[k].playing)
    case SourceError(k) =>
      var p := s.live[k];
      ToAll(SocketClose, p.beforeDescribe) + ToAll(SocketClose, p.waiting)
      + ToAll(SocketClose, p.beforePlay) + ToAll(SocketClose, p.playing)
  }

  /** The proxy of one video. */
  function At(s: Service, k: Key): Option<Proxy> {
    if k in s.live then Some(s.live[k]) else None
  }

  /** The step as one video sees it. */
  ghost function AtAfter(s: Service, e: Event, k: Key): Option<Proxy>
    requires Enabled(s, e)
  {
    match e
    case Options(c, j) =>
      if j != k then At(s, k)
      else if k in s.live then Some(s.live[k].(beforeDescribe := s.live[k].beforeDescribe + {c}))
      else Some(NewProxy(s.nextId, c))
    case Describe(c, j) => if j == k && k in s.live then Some(ProxyDescribe(s.live[k], c)) else At(s, k)
    case Play(c, j) => if j == k && k in s.live then Some(ProxyPlay(s.live[k], c)) else At(s, k)
    case Close(c, at) =>
      if at != Some(k) then At(s, k)
      else if Erases(s, e, k) then None
      else Some(ProxyRemove(s.live[k], c))
    case SdpArrives(j, sdp) => if j == k then Some(ProxySdp(s.live[k], sdp)) else At(s, k)
    case _ => At(s, k)
  }

  /** The step erases proxy `k`. */
  ghost predicate Erases(s: Service, e: Event, k: Key) {
    e.Close? && e.at == Some(k) && k in s.live && Abandoned(ProxyRemove(s.live[k], e.c))
  }

  lemma StepAt(s: Service, e: Event, k: Key)
    requires Enabled(s, e)
    ensures At(Next(s, e), k) == AtAfter(s, e, k)
  {}

  // ---------------------------------------------------------------- runs

  /** A run, newest event last. */
  datatype Run = Start | Then(before: Run, e: Event)

  ghost predicate Legal(t: Run)
    decreases t, 0
  {
    t.Then? ==> Legal(t.before) && Enabled(State(t.before), t.e)
  }

  ghost function State(t: Run): Service
    requires Legal(t)
    decreases t, 1
  {
    if t.Start? then INIT else Next(State(t.before), t.e)
  }

  /** `t` continues `t0`. */
  ghost predicate Continues(t0: Run, t: Run) {
    t == t0 || (t.Then? && Continues(t0, t.before))
  }

  // ---------------------------------------------------------------- the phase invariant

  /** One proxy: at most one client waits, and only without an SDP; nobody is past DESCRIBE without
      an SDP; `registered` says the SDP is there. */
  predicate PhaseOk(p: Proxy, nextId: ProxyId) {
    && p.id < nextId
    && |p.waiting| <= 1
    && (p.waiting != {} ==> p.sdp == "")
    && (p.sdp == "" ==> p.beforePlay == {} && p.playing == {})
    && (p.registered <==> p.sdp != "")
  }

  /** In addition, a callback is owed exactly while someone waits, and some client is listed. */
  ghost predicate ProxyInv(p: Proxy, nextId: ProxyId, owed: multiset<ProxyId>) {
    && PhaseOk(p, nextId)
    && (p.waiting != {} <==> p.id in owed)
    && (p.beforeDescribe != {} || !Abandoned(p))
  }

  /** The part of the invariant most steps rely on. */
  ghost predicate Phases(s: Service, e: Event) {
    && (forall k :: k in s.live ==> PhaseOk(s.live[k], s.nextId))
    && (e.SdpArrives? && e.k in s.live ==> s.live[e.k].waiting != {})
  }

  lemma InvPhases(s: Service, e: Event)
    requires Inv(s) && Enabled(s, e)
    ensures Phases(s, e)
  {}

  ghost predicate UniqueIds(s: Service) {
    forall k, j :: k in s.live && j in s.live && s.live[k].id == s.live[j].id ==> k == j
  }

  ghost predicate Inv(s: Service) {
    && (forall k :: k in s.live ==> ProxyInv(s.live[k], s.nextId, s.owed))
    && UniqueIds(s)
    && (forall i :: i in s.owed ==> i < s.nextId && s.owed[i] == 1)
  }

  /** Replacing one proxy keeps the invariant when the new value satisfies its part of it. */
  lemma InvUpdate(s: Service, k: Key, q: Proxy, owed: multiset<ProxyId>)
    requires Inv(s) && k in s.live && q.id == s.live[k].id
    requires ProxyInv(q, s.nextId, owed)
    requires forall i :: i != q.id ==> owed[i] == s.owed[i]
    requires owed[q.id] <= 1
    ensures Inv(Service(s.live[k := q], s.nextId, owed))
  {}

  lemma InvOptions(s: Service, c: Client, k: Key)
    requires Inv(s)
    ensures Inv(Next(s, Options(c, k)))
  {
    if k in s.live {
      var p := s.live[k];
      assert ProxyInv(p, s.nextId, s.owed);
      var q := p.(beforeDescribe := p.beforeDescribe + {c});
      assert c in q.beforeDescribe;
      InvUpdate(s, k, q, s.owed);
    } else {
      var r := Next(s, Options(c, k));
      forall j | j in r.live ensures ProxyInv(r.live[j], r.nextId, r.owed) {
        if j == k {
          assert c in r.live[j].beforeDescribe;
        } else {
          assert ProxyInv(s.live[j], s.nextId, s.owed);
        }
      }
    }
  }

  lemma InvDescribe(s: Service, c: Client, k: Key)
    requires Inv(s) && k in s.live
    ensures Inv(Next(s, Describe(c, k)))
  {
    var p := s.live[k];
    assert ProxyInv(p, s.nextId, s.owed);
    var owed := if NeedsSource(p) then s.owed + multiset{p.id} else s.owed;
    DescribeProxyInv(p, c, s.nextId, s.owed, owed);
    InvUpdate(s, k, ProxyDescribe(p, c), owed);
  }

  lemma DescribeProxyInv(p: Proxy, c: Client, nextId: ProxyId, owed: multiset<ProxyId>, owed': multiset<ProxyId>)
    requires ProxyInv(p, nextId, owed)
    requires owed' == if NeedsSource(p) then owed + multiset{p.id} else owed
    ensures ProxyInv(ProxyDescribe(p, c), nextId, owed')
  {}

  lemma InvPlay(s: Service, c: Client, k: Key)
    requires Inv(s) && k in s.live
    ensures Inv(Next(s, Play(c, k)))
  {
    var p := s.live[k];
    assert ProxyInv(p, s.nextId, s.owed);
    assert c in p.beforePlay ==> c in ProxyPlay(p, c).playing;
    InvUpdate(s, k, ProxyPlay(p, c), s.owed);
  }

  lemma InvSdp(s: Service, k: Key, sdp: string)
    requires Inv(s) && Enabled(s, SdpArrives(k, sdp))
    ensures Inv(Next(s, SdpArrives(k, sdp)))
  {
    var p := s.live[k];
    assert ProxyInv(p, s.nextId, s.owed);
    var q := ProxySdp(p, sdp);
    assert p.waiting <= q.beforePlay;
    InvUpdate(s, k, q, s.owed - multiset{p.id});
  }

  lemma WaitingIsOne(p: Proxy, c: Client)
    requires |p.waiting| <= 1 && c in p.waiting
    ensures p.waiting == {c}
  {
    assert |p.waiting - {c}| == 0;
    assert p.waiting == {c} + (p.waiting - {c});
  }

  lemma InvClose(s: Service, c: Client, k: Key)
    requires Inv(s) && k in s.live && Knows(s.live[k], c)
    ensures Inv(CloseAt(s, c, k))
  {
    var p := s.live[k];
    assert ProxyInv(p, s.nextId, s.owed);
    var q := ProxyRemove(p, c);
    if !Abandoned(q) {
      if c !in p.beforeDescribe && c in p.waiting { WaitingIsOne(p, c); }
      InvUpdate(s, k, q, s.owed);
    }
  }

  lemma InvStep(s: Service, e: Event)
    requires Inv(s) && Enabled(s, e)
    ensures Inv(Next(s, e))
  {
    match e
    case Options(c, k) => InvOptions(s, c, k);
    case Describe(c, k) => if k in s.live { InvDescribe(s, c, k); }
    case Play(c, k) => if k in s.live { InvPlay(s, c, k); }
    case Close(c, at) => if at.Some? { InvClose(s, c, at.value); }
    case SdpArrives(k, sdp) => InvSdp(s, k, sdp);
    case Packet(_, _) =>
    case SourceError(_) =>
  }

  /** The phase invariant holds in every reachable state. */
  lemma {:induction false} PhaseInvariant(t: Run)
    requires Legal(t)
    ensures Inv(State(t))
  {
    if t.Then? {
      PhaseInvariant(t.before);
      InvStep(State(t.before), t.e);
    }
  }
}

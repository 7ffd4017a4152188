/** The converse of refinement: what the atomic protocol can do, threads and locks can do. */
module LockCompleteness {
  import opened VideoUrl
  import opened Framing
  import opened Sharing
  import opened SharingRuns
  import opened SharingEffects
  import opened Producer
  import opened LockMachine
  import opened LockInvariant
  import opened LockTheorems
  import opened LockRefinement
  import opened LockPaths

  // ---------------------------------------------------------------- settled data

  ghost predicate HasPeer(d: Data, k: Key, cid: CtxId) { exists x :: x in d.peers && d.peers[x] == (k, cid) }

  /** What the data looks like between requests, at one video: it is a device; it has a context iff its live proxy
      asked, bound to it, with its invite unanswered while a client waits and a peer once it is served. */
  ghost predicate SettledAt(d: Data, k: Key) {
    && (k in d.prod.byKey <==> k in d.svc.live && Requested(d.svc.live[k]))
    && (k in d.svc.live ==> KindOf(k) == GbSource)
    && (k in d.prod.byKey ==>
          var cid := d.prod.byKey[k].cid;
          && d.prod.byKey[k].boundTo == d.svc.live[k].id
          && (d.svc.live[k].waiting != {} ==> cid in d.prod.outstanding && d.prod.outstanding[cid] == k)
          && (d.svc.live[k].registered ==> HasPeer(d, k, cid)))
  }

  ghost predicate Settled(d: Data) {
    d.prod.next !in d.prod.outstanding && forall k :: SettledAt(d, k)
  }

  /** Nothing about `k` has changed for the worse. */
  lemma SettledFrame(d: Data, d': Data, k: Key)
    requires SettledAt(d, k) && (k in d'.prod.byKey <==> k in d.prod.byKey)
    requires k in d.prod.byKey ==> d'.prod.byKey[k].cid == d.prod.byKey[k].cid && d'.prod.byKey[k].boundTo == d.prod.byKey[k].boundTo
    requires k in d'.svc.live <==> k in d.svc.live
    requires k in d.svc.live ==>
               var p, q := d.svc.live[k], d'.svc.live[k];
               && q.id == p.id && (Requested(q) <==> Requested(p)) && (q.waiting != {} ==> p.waiting != {})
               && (q.registered ==> p.registered)
    requires k in d.prod.byKey ==>
               var cid := d.prod.byKey[k].cid;
               (cid in d.prod.outstanding && d.prod.outstanding[cid] == k ==> cid in d'.prod.outstanding && d'.prod.outstanding[cid] == k)
    requires forall x :: x in d.peers ==> x in d'.peers && d'.peers[x] == d.peers[x]
    ensures SettledAt(d', k)
  {
    if k in d.prod.byKey && HasPeer(d, k, d.prod.byKey[k].cid) {
      var x :| x in d.peers && d.peers[x] == (k, d.prod.byKey[k].cid);
      assert x in d'.peers && d'.peers[x] == (k, d.prod.byKey[k].cid);
    }
  }

  // ---------------------------------------------------------------- fresh names

  lemma {:induction false} LongerThanAll(xs: set<string>) returns (n: nat)
    ensures n > 0 && forall x :: x in xs ==> |x| < n
    decreases |xs|
  {
    n := 1;
    if xs != {} {
      var x :| x in xs;
      n := LongerThanAll(xs - {x});
      if |x| >= n { n := |x| + 1; }
      forall y | y in xs ensures |y| < n { assert y == x || y in xs - {x}; }
    }
  }

  lemma FreshName(xs: set<string>) returns (x: string)
    ensures x != "" && x !in xs
  {
    var n := LongerThanAll(xs);
    x := seq(n, _ => 'x');
    assert |x| == n;
  }

  // ---------------------------------------------------------------- one event

  /** Events the outside world can bring about without disturbing the agreement of service and producer: requests for
      device videos, closes of clients that do not wait, SDPs, and packets of served videos. */
  ghost predicate Plausible(s: Service, e: Event) {
    match e
    case Options(_, k) => KindOf(k) == GbSource
    case Describe(_, k) => KindOf(k) == GbSource
    case Play(_, k) => KindOf(k) == GbSource
    case Close(c, at) =>
      at.Some? && at.value in s.live ==> !(c in s.live[at.value].waiting && c !in s.live[at.value].beforeDescribe)
    case SdpArrives(_, _) => true
    case Packet(k, _) => k in s.live && s.live[k].registered
    case SourceError(_) => false
  }

  ghost predicate Rest(p: Path, s: Sys) { Reached(p, s) && Quiet(s, 0) && Settled(s.data) && SysOk(s) }

  lemma RestAgain(p: Path, s: Sys, d: Data)
    requires Reached(p, Moved(s, d, 0, Idle)) && Quiet(s, 0) && Settled(d)
    ensures Rest(p, Moved(s, d, 0, Idle))
  {
    Always(p.now, true);
    forall u: Tid | u != 0 ensures PcOf(Moved(s, d, 0, Idle), u) == Idle { assert PcOf(s, u) == Idle; }
  }

  ghost predicate IsFirstDescribe(s: Service, e: Event) { e.Describe? && e.k in s.live && NeedsSource(s.live[e.k]) }

  /** Requests that touch no context keep the data settled. */
  lemma SettledByRequest(d: Data, e: Event, k: Key)
    requires Inv(d.svc) && SettledAt(d, k) && Plausible(d.svc, e) && (e.Options? || e.Describe? || e.Play?)
    requires !IsFirstDescribe(d.svc, e)
    ensures SettledAt(d.(svc := Next(d.svc, e)), k)
  {
    var d' := d.(svc := Next(d.svc, e));
    InvPhases(d.svc, e);
    StepAt(d.svc, e, k);
    if k in d.svc.live {
      ProxyStays(d.svc, e, k);
      RequestedStep(d.svc, e, k);
      assert PhaseOk(d.svc.live[k], d.svc.nextId);
      SettledFrame(d, d', k);
    }
  }

  lemma RequestHappens(p: Path, s: Sys, op: Op) returns (p': Path, s': Sys)
    requires Rest(p, s) && !op.OpClose? && Plausible(s.data.svc, EventOf(op)) && !IsFirstDescribe(s.data.svc, EventOf(op))
    ensures Rest(p', s') && Took(p, p', EventOf(op)) && s'.data.svc == Next(s.data.svc, EventOf(op))
  {
    var d := Handled(s.data, op);
    forall k ensures SettledAt(d, k) { SettledByRequest(s.data, EventOf(op), k); }
    if op.k in s.data.svc.live { p' := RequestAtClients(p, s, 0, op); } else { p' := RequestWithoutProxy(p, s, 0, op); }
    RestAgain(p', s, d);
    s' := Moved(s, d, 0, Idle);
  }

  lemma SettledByDescribe(d: Data, c: Client, k: Key, j: Key)
    requires Inv(d.svc) && Settled(d) && k in d.svc.live && NeedsSource(d.svc.live[k])
    ensures SettledAt(Described(d, c, k), j)
  {
    var d' := Described(d, c, k);
    assert SettledAt(d, k) && SettledAt(d, j);
    assert ProxyInv(d.svc.live[k], d.svc.nextId, d.svc.owed);
    assert c in d'.svc.live[k].waiting;
    if j != k { SettledFrame(d, d', j); }
  }

  lemma DescribeHappens(p: Path, s: Sys, c: Client, k: Key) returns (p': Path, s': Sys)
    requires Rest(p, s) && k in s.data.svc.live && NeedsSource(s.data.svc.live[k])
    ensures Rest(p', s') && Took(p, p', Describe(c, k)) && s'.data.svc == Next(s.data.svc, Describe(c, k))
  {
    var d := Described(s.data, c, k);
    assert SettledAt(s.data, k);
    forall j ensures SettledAt(d, j) { SettledByDescribe(s.data, c, k, j); }
    p' := RunDescribe(p, s, 0, c, k);
    Always(p'.now, true);
    assert OutstandingOk(d);
    RestAgain(p', s, d);
    s' := Moved(s, d, 0, Idle);
  }

  // ---------------------------------------------------------------- close

  /** The close erases a proxy that has its SDP. */
  ghost predicate Unregisters(s: Service, c: Client, at: Option<Key>)
    requires StopsAt(s, c, at)
  {
    at.Some? && Abandoned(ProxyRemove(s.live[at.value], c)) && s.live[at.value].registered
  }

  ghost function ClosedData(d: Data, c: Client, at: Option<Key>): Data
    requires StopsAt(d.svc, c, at)
  {
    var d1 := d.(svc := Next(d.svc, Close(c, at)));
    if Unregisters(d.svc, c, at) then Unregistered(d1, at.value) else d1
  }

  lemma SettledByClose(d: Data, c: Client, at: Option<Key>, k: Key)
    requires Inv(d.svc) && SettledAt(d, k) && StopsAt(d.svc, c, at) && Plausible(d.svc, Close(c, at))
    ensures SettledAt(ClosedData(d, c, at), k)
  {
    var e, d' := Close(c, at), ClosedData(d, c, at);
    InvPhases(d.svc, e);
    StepAt(d.svc, e, k);
    if at == Some(k) {
      var p := d.svc.live[k];
      assert ProxyInv(p, d.svc.nextId, d.svc.owed);
      RemoveEffect(p, c);
      if Erases(d.svc, e, k) { ErasedWasUnasked(p, c); }
      else { ProxyStays(d.svc, e, k); RequestedStep(d.svc, e, k); SettledFrame(d, d', k); }
    } else {
      SettledFrame(d, d', k);
    }
  }

  /** A proxy that is erased without its SDP, and not by its waiting client, had not asked for its video. */
  lemma ErasedWasUnasked(p: Proxy, c: Client)
    requires Knows(p, c) && Abandoned(ProxyRemove(p, c)) && !(c in p.waiting && c !in p.beforeDescribe)
    requires (p.sdp == "" ==> p.beforePlay == {} && p.playing == {}) && (p.registered <==> p.sdp != "")
    ensures p.registered || !Requested(p)
  {}

  lemma CloseHappens(p: Path, s: Sys, c: Client, at: Option<Key>) returns (p': Path, s': Sys)
    requires Rest(p, s) && StopsAt(s.data.svc, c, at) && Plausible(s.data.svc, Close(c, at))
    ensures Rest(p', s') && Took(p, p', Close(c, at)) && s'.data.svc == Next(s.data.svc, Close(c, at))
  {
    var d, d1 := ClosedData(s.data, c, at), s.data.(svc := Next(s.data.svc, Close(c, at)));
    forall k ensures SettledAt(d, k) { SettledByClose(s.data, c, at, k); }
    AloneIsUnhindered(s, 0, Servers);
    AloneIsUnhindered(s, 0, Proxies);
    p' := CloseErases(p, s, 0, c, at);
    if Unregisters(s.data.svc, c, at) {
      p' := FinishClose(p', s, d1, 0, c, at.value, s.data.svc.live[at.value].id);
    }
    RestAgain(p', s, d);
    s' := Moved(s, d, 0, Idle);
  }

  // ---------------------------------------------------------------- SDP and packet

  lemma SdpIsAnswerable(d: Data, k: Key, reply: Reply)
    requires SettledAt(d, k) && Inv(d.svc) && Enabled(d.svc, SdpArrives(k, reply.sdp))
    requires reply.ok && reply.coders && reply.inviteId != "" && reply.inviteId !in d.issued
    ensures k in d.prod.byKey && Answerable(d, k, d.prod.byKey[k].cid, reply)
  {
    assert ProxyInv(d.svc.live[k], d.svc.nextId, d.svc.owed);
  }

  lemma SettledBySdp(d: Data, k: Key, cid: CtxId, reply: Reply, j: Key)
    requires Inv(d.svc) && Settled(d) && Answerable(d, k, cid, reply) && reply.peer !in d.peers
    ensures SettledAt(Acknowledged(Replied(d, k, cid, reply), k, cid, reply), j)
  {
    var d' := Acknowledged(Replied(d, k, cid, reply), k, cid, reply);
    assert SettledAt(d, k) && SettledAt(d, j);
    if j == k {
      assert d'.peers[reply.peer] == (k, cid);
    } else {
      SettledFrame(d, d', j);
    }
  }

  lemma SdpHappens(p: Path, s: Sys, k: Key, sdp: string) returns (p': Path, s': Sys)
    requires Rest(p, s) && Enabled(s.data.svc, SdpArrives(k, sdp))
    ensures Rest(p', s') && Took(p, p', SdpArrives(k, sdp)) && s'.data.svc == Next(s.data.svc, SdpArrives(k, sdp))
  {
    var invite := FreshName(s.data.issued);
    var peer := FreshName(s.data.peers.Keys);
    var reply := Reply(true, true, invite, sdp, peer);
    assert SettledAt(s.data, k);
    SdpIsAnswerable(s.data, k, reply);
    var cid := s.data.prod.byKey[k].cid;
    var d1 := Replied(s.data, k, cid, reply);
    var d := Acknowledged(d1, k, cid, reply);
    forall j ensures SettledAt(d, j) { SettledBySdp(s.data, k, cid, reply, j); }
    AloneIsUnhindered(s, 0, ContextMap);
    AloneIsUnhindered(s, 0, Clients(s.data.prod.byKey[k].boundTo));
    p' := RunReply(p, s, 0, k, cid, reply);
    p' := FinishReply(p', s, d1, 0, k, cid, reply);
    RestAgain(p', s, d);
    s' := Moved(s, d, 0, Idle);
  }

  lemma PacketHappens(p: Path, s: Sys, k: Key, data: seq<byte>) returns (p': Path, s': Sys)
    requires Rest(p, s) && Enabled(s.data.svc, Packet(k, data)) && s.data.svc.live[k].registered
    ensures Rest(p', s') && Took(p, p', Packet(k, data)) && s'.data == s.data
  {
    assert SettledAt(s.data, k);
    assert ProxyInv(s.data.svc.live[k], s.data.svc.nextId, s.data.svc.owed);
    var cid := s.data.prod.byKey[k].cid;
    var x :| x in s.data.peers && s.data.peers[x] == (k, cid);
    p' := DeliverPacket(p, s, 0, x, k, cid, data);
    RestAgain(p', s, s.data);
    s' := Moved(s, s.data, 0, Idle);
  }

  // ---------------------------------------------------------------- every run

  lemma StepHappens(p: Path, s: Sys, e: Event) returns (p': Path, s': Sys)
    requires Rest(p, s) && Enabled(s.data.svc, e) && Plausible(s.data.svc, e)
    ensures Rest(p', s') && Took(p, p', e) && s'.data.svc == Next(s.data.svc, e)
  {
    match e
    case Options(c, k) => p', s' := RequestHappens(p, s, OpOptions(c, k));
    case Describe(c, k) =>
      if IsFirstDescribe(s.data.svc, e) { p', s' := DescribeHappens(p, s, c, k); }
      else { p', s' := RequestHappens(p, s, OpDescribe(c, k)); }
    case Play(c, k) => p', s' := RequestHappens(p, s, OpPlay(c, k));
    case Close(c, at) => p', s' := CloseHappens(p, s, c, at);
    case SdpArrives(k, sdp) => p', s' := SdpHappens(p, s, k, sdp);
    case Packet(k, data) => p', s' := PacketHappens(p, s, k, data);
  }

  ghost predicate PlausibleRun(r: Run)
    requires Legal(r)
  {
    r.Then? ==> PlausibleRun(r.before) && Plausible(State(r.before), r.e)
  }

  lemma NothingIsSettled(k: Key)
    ensures SettledAt(NO_DATA, k)
  {
    assert k !in NO_DATA.prod.byKey && k !in NO_DATA.svc.live;
  }

  lemma AtRestFirst()
    ensures Rest(Path(Begin, Begin, Start), Sys(NO_DATA, map[]))
  {
    var p, s := Path(Begin, Begin, Start), Sys(NO_DATA, map[]);
    InitOk();
    assert Settled(NO_DATA) by { forall k ensures SettledAt(NO_DATA, k) { NothingIsSettled(k); } }
    assert Reached(p, s) by { assert Possible(Begin, true); }
    assert Quiet(s, 0);
  }

  /** Every such run of the atomic protocol is, step for step, the protocol run of some interleaving, so none of its
      steps is left out by the threads and their locks. */
  lemma {:induction false} EveryRunHappens(r: Run) returns (p: Path, s: Sys)
    requires Legal(r) && PlausibleRun(r)
    ensures Rest(p, s) && p.from == Begin && p.run == r && s.data.svc == State(r)
    ensures Possible(p.now, true) && ProtocolRun(p.now, true) == r
  {
    if r.Start? {
      AtRestFirst();
      p, s := Path(Begin, Begin, Start), Sys(NO_DATA, map[]);
    } else {
      p, s := EveryRunHappens(r.before);
      p, s := StepHappens(p, s, r.e);
    }
  }

  // ---------------------------------------------------------------- a packet delivered

  /** A client of any device asks, is served, plays, and is sent a packet: an instance of
      `LockRefinement.DeliveryInterleaved` with bytes. */
  lemma DeliveryHappens(k: Key, sdp: string, data: seq<byte>) returns (h0: History, h: History)
    requires KindOf(k) == GbSource && sdp != "" && Sendable(data)
    ensures Possible(h0, true) && Possible(h, true) && Extends(h0, h) && NoCloseAlong(h0, h, true, 1)
    ensures Plays(StateOf(h0, true), k, 0, 1) && Plays(StateOf(h, true), k, 0, 1)
    ensures SentAlong(h0, h, true, 1, 0) == Encode(data)
  {
    var r := OnePlays(k, sdp);
    OnePlaysIsPlausible(k, sdp, r);
    var p, s := EveryRunHappens(r);
    h0 := p.now;
    var q, s' := StepHappens(Path(h0, h0, r), s, Packet(k, data));
    h := q.now;
    SentMatches(h0, h, true, 1, 0);
    NoCloseMatches(h0, h, true, 1);
    PacketFanOut(State(r), k, data, 1, Encode(data));
    assert SentSince(r, Then(r, Packet(k, data)), 1, 0) == [] + SentIn(State(r), Packet(k, data), 1, 0);
  }

  lemma OnePlaysIsPlausible(k: Key, sdp: string, r: Run)
    requires KindOf(k) == GbSource && Legal(r)
    requires r == Then(Then(Then(Then(Start, Options(1, k)), Describe(1, k)), SdpArrives(k, sdp)), Play(1, k))
    ensures PlausibleRun(r)
  {
    assert PlausibleRun(r.before.before);
  }
}

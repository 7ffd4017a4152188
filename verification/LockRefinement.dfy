/** Every interleaving of the lock machine is, section by section, a run of the atomic protocol. */
module LockRefinement {
  import opened VideoUrl
  import opened Framing
  import opened Sharing
  import opened SharingRuns
  import opened LockMachine
  import opened LockInvariant
  import opened LockTheorems

  /** The protocol step taken by one step of the machine, if any. */
  ghost function Taken(s: Sys, a: Step): Option<Event> {
    if a.Work? then StepOf(s.data, PcOf(s, a.t), a.at) else None
  }

  /** The protocol steps of a history, in order, nothing added and nothing left out. */
  ghost function ProtocolRun(h: History, w: bool): Run
    requires Possible(h, w)
  {
    if h.Begin? then Start
    else
      var e := Taken(StateOf(h.before, w), h.a);
      if e.Some? then Then(ProtocolRun(h.before, w), e.value) else ProtocolRun(h.before, w)
  }

  /** A machine step that takes a protocol step is allowed to, and changes the service exactly so. */
  lemma TakenStep(s: Sys, w: bool, a: Step)
    requires SysOk(s) && Can(s, w, a)
    ensures Taken(s, a).Some? ==>
              Enabled(s.data.svc, Taken(s, a).value)
              && After(s, w, a).data.svc == Next(s.data.svc, Taken(s, a).value)
    ensures Taken(s, a).None? ==> After(s, w, a).data.svc == s.data.svc
  {
    if a.Work? {
      assert ThreadOk(s.data, PcOf(s, a.t));
      if Taken(s, a).Some? { StepIsEnabled(s.data, PcOf(s, a.t), a.at); }
      WorkTakes(s.data, PcOf(s, a.t), a.at);
    }
  }

  lemma WorkTakes(d: Data, pc: Pc, at: Option<Key>)
    requires CanWork(d, pc, at)
    ensures WorkData(d, pc, at).svc == TakeStep(d, StepOf(d, pc, at)).svc
  {}

  /** The protocol steps of an interleaving form a legal run of the atomic protocol, and it ends in the service
      state the interleaving ends in. */
  lemma {:induction false} RefinesProtocol(h: History, w: bool)
    requires Possible(h, w)
    ensures Legal(ProtocolRun(h, w)) && State(ProtocolRun(h, w)) == StateOf(h, w).data.svc
  {
    if h.More? {
      RefinesProtocol(h.before, w);
      Always(h.before, w);
      TakenStep(StateOf(h.before, w), w, h.a);
    }
  }

  /** So what holds of every run holds of every interleaving, among it: one registration per proxy, one SDP per
      proxy, and the balance of arrivals and unregistrations. */
  lemma ProtocolTheoremsHold(h: History, w: bool, k: Key, id: ProxyId, x: string, y: string)
    requires Possible(h, w)
    ensures Legal(ProtocolRun(h, w)) && Registrations(ProtocolRun(h, w), id) <= 1
    ensures EverReplied(ProtocolRun(h, w), id, x) && EverReplied(ProtocolRun(h, w), id, y) ==> x == y
    ensures var svc := StateOf(h, w).data.svc;
            SdpArrivals(ProtocolRun(h, w), k) - Unregistrations(ProtocolRun(h, w), k)
            == if k in svc.live && svc.live[k].registered then 1 else 0
  {
    var t := ProtocolRun(h, w);
    RefinesProtocol(h, w);
    AtMostOneRegistration(t, id);
    if EverReplied(t, id, x) && EverReplied(t, id, y) { OneSdpPerProxy(t, id, x, y); }
    RegistrationBalance(t, k);
  }

  // ---------------------------------------------------------------- delivery

  /** The packet one machine step hands to proxy `id`, if any. */
  ghost function Consumes(s: Sys, a: Step, id: ProxyId): (r: seq<seq<byte>>)
    ensures AllSendable(r)
  {
    var pc := PcOf(s, a.t);
    if a.Work? && pc.PacketHasClients? && pc.id == id && BoundLive(s.data, pc.k, id) && Sendable(pc.data)
    then [pc.data] else []
  }

  /** The bytes one machine step sends to client `c` on behalf of proxy `id`. */
  ghost function Sends(s: Sys, a: Step, c: Client, id: ProxyId): seq<byte> {
    var e := Taken(s, a);
    if e.Some? && Enabled(s.data.svc, e.value) then SentIn(s.data.svc, e.value, c, id) else []
  }

  ghost function ConsumedAlong(h0: History, h: History, w: bool, id: ProxyId): (r: seq<seq<byte>>)
    requires Possible(h, w)
    ensures AllSendable(r)
  {
    if h == h0 || h.Begin? then [] else ConsumedAlong(h0, h.before, w, id) + Consumes(StateOf(h.before, w), h.a, id)
  }

  ghost function SentAlong(h0: History, h: History, w: bool, c: Client, id: ProxyId): seq<byte>
    requires Possible(h, w)
  {
    if h == h0 || h.Begin? then [] else SentAlong(h0, h.before, w, c, id) + Sends(StateOf(h.before, w), h.a, c, id)
  }

  /** No thread runs `Close` for client `c` after `h0`. */
  ghost predicate NoCloseAlong(h0: History, h: History, w: bool, c: Client)
    requires Possible(h, w)
  {
    h != h0 && h.More? ==>
      && NoCloseAlong(h0, h.before, w, c)
      && !(h.a.Work? && PcOf(StateOf(h.before, w), h.a.t) == Ready(OpClose(c)))
  }

  ghost predicate Plays(s: Sys, k: Key, id: ProxyId, c: Client) {
    BoundLive(s.data, k, id) && c in s.data.svc.live[k].playing
  }

  lemma PlaysOn(s: Sys, w: bool, a: Step, k: Key, id: ProxyId, c: Client)
    requires SysOk(s) && Can(s, w, a) && Plays(s, k, id, c)
    requires !(a.Work? && PcOf(s, a.t) == Ready(OpClose(c)))
    ensures Plays(After(s, w, a), k, id, c)
  {
    TakenStep(s, w, a);
    var e := Taken(s, a);
    if e.Some? {
      OnlyCloseCloses(s.data, PcOf(s, a.t), a.at);
      PlayingStays(s.data.svc, e.value, k, c);
    }
  }

  lemma OnlyCloseCloses(d: Data, pc: Pc, at: Option<Key>)
    requires CanWork(d, pc, at) && StepOf(d, pc, at).Some?
    ensures var e := StepOf(d, pc, at).value;
            && (e.Close? ==> pc == Ready(OpClose(e.c)))
            && (e.Packet? <==> pc.PacketHasClients?)
            && (e.Packet? ==> e == Packet(pc.k, pc.data) && BoundLive(d, pc.k, pc.id) && Sendable(pc.data))
  {}

  lemma DeliveryStep(s: Sys, w: bool, a: Step, k: Key, id: ProxyId, c: Client)
    requires SysOk(s) && Can(s, w, a) && Plays(s, k, id, c)
    ensures Sends(s, a, c, id) == EncodeAll(Consumes(s, a, id))
  {
    var pc := PcOf(s, a.t);
    if Taken(s, a).Some? { OnlyCloseCloses(s.data, pc, a.at); }
    if Consumes(s, a, id) != [] {
      assert pc.k == k by { assert UniqueIds(s.data.svc); }
      TakenStep(s, w, a);
      PacketFanOut(s.data.svc, k, pc.data, c, Encode(pc.data));
      assert EncodeAll([pc.data]) == Encode(pc.data) + EncodeAll([pc.data][1..]);
    }
  }

  lemma {:induction false} EncodeAllConcat(ps: seq<seq<byte>>, qs: seq<seq<byte>>)
    requires AllSendable(ps) && AllSendable(qs) && |qs| <= 1
    ensures EncodeAll(ps + qs) == EncodeAll(ps) + EncodeAll(qs)
  {
    if qs == [] {
      assert ps + qs == ps;
    } else {
      EncodeAllAppend(ps, qs[0]);
      assert qs == [qs[0]] && EncodeAll(qs) == Encode(qs[0]) + [];
    }
  }

  /** End-to-end delivery in every interleaving: while a client plays and no thread closes it, the bytes sent
      to it for its proxy decode to exactly the packets handed to that proxy, in order, once each. */
  lemma {:induction false} DeliveryInterleaved(h0: History, h: History, w: bool, k: Key, id: ProxyId, c: Client)
    requires Possible(h, w) && Possible(h0, w) && Extends(h0, h) && NoCloseAlong(h0, h, w, c)
    requires Plays(StateOf(h0, w), k, id, c)
    ensures Plays(StateOf(h, w), k, id, c)
    ensures SentAlong(h0, h, w, c, id) == EncodeAll(ConsumedAlong(h0, h, w, id))
    ensures Decode(SentAlong(h0, h, w, c, id)) == Some(FramesOf(ConsumedAlong(h0, h, w, id)))
  {
    if h != h0 {
      DeliveryInterleaved(h0, h.before, w, k, id, c);
      Always(h.before, w);
      PlaysOn(StateOf(h.before, w), w, h.a, k, id, c);
      DeliveryStep(StateOf(h.before, w), w, h.a, k, id, c);
      EncodeAllConcat(ConsumedAlong(h0, h.before, w, id), Consumes(StateOf(h.before, w), h.a, id));
    }
    DecodeAll(ConsumedAlong(h0, h, w, id));
  }

  // ---------------------------------------------------------------- the same run seen twice

  ghost function Length(t: Run): nat { if t.Start? then 0 else Length(t.before) + 1 }

  lemma {:induction false} ContinuesIsLonger(t0: Run, t: Run)
    requires Continues(t0, t)
    ensures Length(t) >= Length(t0)
  {
    if t != t0 { ContinuesIsLonger(t0, t.before); }
  }

  lemma {:induction false} RunsContinue(h0: History, h: History, w: bool)
    requires Possible(h, w) && Possible(h0, w) && Extends(h0, h)
    ensures Continues(ProtocolRun(h0, w), ProtocolRun(h, w))
  {
    if h != h0 { RunsContinue(h0, h.before, w); }
  }

  /** The step that ended `h` took `e`: the run is longer than any it continued. */
  lemma NewStepIsNew(h0: History, h: History, w: bool, e: Event)
    requires Possible(h, w) && Possible(h0, w) && Extends(h0, h)
    ensures Then(ProtocolRun(h, w), e) != ProtocolRun(h0, w)
  {
    RunsContinue(h0, h, w);
    ContinuesIsLonger(ProtocolRun(h0, w), ProtocolRun(h, w));
  }

  /** The bytes the machine sends are those its protocol run sends. */
  lemma {:induction false} SentMatches(h0: History, h: History, w: bool, c: Client, id: ProxyId)
    requires Possible(h, w) && Possible(h0, w) && Extends(h0, h)
    ensures Legal(ProtocolRun(h, w)) && SentAlong(h0, h, w, c, id) == SentSince(ProtocolRun(h0, w), ProtocolRun(h, w), c, id)
  {
    RefinesProtocol(h, w);
    if h != h0 {
      SentMatches(h0, h.before, w, c, id);
      SentMatchesStep(h0, h, w, c, id);
    }
  }

  lemma SentMatchesStep(h0: History, h: History, w: bool, c: Client, id: ProxyId)
    requires Possible(h, w) && Possible(h0, w) && h != h0 && h.More? && Extends(h0, h.before)
    requires Legal(ProtocolRun(h, w)) && Legal(ProtocolRun(h.before, w))
    ensures var t0, e := ProtocolRun(h0, w), Taken(StateOf(h.before, w), h.a);
            && SentAlong(h0, h, w, c, id) == SentAlong(h0, h.before, w, c, id) + Sends(StateOf(h.before, w), h.a, c, id)
            && SentSince(t0, ProtocolRun(h, w), c, id)
               == SentSince(t0, ProtocolRun(h.before, w), c, id) + Sends(StateOf(h.before, w), h.a, c, id)
  {
    var s := StateOf(h.before, w);
    var e := Taken(s, h.a);
    RefinesProtocol(h.before, w);
    if e.Some? {
      NewStepIsNew(h0, h.before, w, e.value);
      assert ProtocolRun(h, w) == Then(ProtocolRun(h.before, w), e.value);
    }
  }

  /** If no close of `c` is among the protocol steps, no thread closed it. */
  lemma {:induction false} NoCloseMatches(h0: History, h: History, w: bool, c: Client)
    requires Possible(h, w) && Possible(h0, w) && Extends(h0, h) && NoClose(ProtocolRun(h0, w), ProtocolRun(h, w), c)
    ensures NoCloseAlong(h0, h, w, c)
  {
    if h != h0 {
      var s := StateOf(h.before, w);
      if Taken(s, h.a).Some? { NewStepIsNew(h0, h.before, w, Taken(s, h.a).value); }
      NoCloseMatches(h0, h.before, w, c);
    }
  }
}

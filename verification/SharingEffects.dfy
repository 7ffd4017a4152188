/** What each step of the protocol does, client by client, and whom it answers. */
module SharingEffects {
  import opened VideoUrl
  import opened Framing
  import opened Sharing
  import opened SharingRuns

  /** The two states have the same proxy at every key but `k`. */
  ghost predicate OthersSame(s: Service, s': Service, k: Key) {
    forall j :: j != k ==> At(s', j) == At(s, j)
  }

  /** What a proxy keeps apart from its client sets. */
  predicate SameSource(p: Proxy, q: Proxy) { q.id == p.id && q.sdp == p.sdp && q.registered == p.registered }

  // ---------------------------------------------------------------- requests

  /** `c` is listed as before DESCRIBE; nothing else changes. */
  ghost predicate Listed(p: Proxy, q: Proxy, c: Client) {
    && SameSource(p, q) && q.waiting == p.waiting && q.beforePlay == p.beforePlay && q.playing == p.playing
    && (forall d :: d in q.beforeDescribe <==> d == c || d in p.beforeDescribe)
  }

  /** `c` has left before DESCRIBE; it waits iff nobody waited and there was no SDP, and is before PLAY iff there was
      one; the others are where they were. */
  ghost predicate PastDescribe(p: Proxy, q: Proxy, c: Client) {
    && SameSource(p, q) && q.playing == p.playing
    && (forall d :: d in q.beforeDescribe <==> d in p.beforeDescribe && d != c)
    && (forall d :: d in q.waiting <==> d in p.waiting || (d == c && p.sdp == "" && p.waiting == {}))
    && (forall d :: d in q.beforePlay <==> d in p.beforePlay || (d == c && p.sdp != ""))
  }

  /** If `c` was before PLAY it now plays; the others are where they were. */
  ghost predicate PastPlay(p: Proxy, q: Proxy, c: Client) {
    && SameSource(p, q) && q.beforeDescribe == p.beforeDescribe && q.waiting == p.waiting
    && (forall d :: d in q.beforePlay <==> d in p.beforePlay && d != c)
    && (forall d :: d in q.playing <==> d in p.playing || (d == c && c in p.beforePlay))
  }

  /** Everyone who waited is before PLAY, and the proxy has its SDP. */
  ghost predicate PastSdp(p: Proxy, q: Proxy, sdp: string) {
    && q.id == p.id && q.sdp == sdp && q.registered
    && q.beforeDescribe == p.beforeDescribe && q.playing == p.playing && q.waiting == {}
    && (forall d :: d in q.beforePlay <==> d in p.beforePlay || d in p.waiting)
  }

  /** OPTIONS lists the caller as before DESCRIBE, making a fresh proxy where there is none, and is answered once. */
  lemma OptionsEffect(s: Service, c: Client, k: Key)
    ensures var s' := Next(s, Options(c, k));
            && OthersSame(s, s', k) && k in s'.live
            && var q := s'.live[k];
               if k in s.live then Listed(s.live[k], q, c)
               else
                 && q.id == s.nextId && q.sdp == "" && !q.registered
                 && (forall d :: Knows(q, d) <==> d == c) && c in q.beforeDescribe && s'.nextId == s.nextId + 1
    ensures forall a :: Actions(s, Options(c, k))[a] == if a == ReplyOptions(c) then 1 else 0
  {}

  /** DESCRIBE moves the caller on, or out. */
  lemma DescribeEffect(s: Service, c: Client, k: Key)
    requires k in s.live
    ensures var s' := Next(s, Describe(c, k));
            OthersSame(s, s', k) && k in s'.live && PastDescribe(s.live[k], s'.live[k], c)
  {}

  /** It calls `RegisterVideo` exactly if nobody waits and there is no SDP, answers with the SDP exactly if there is one,
      and does nothing else. */
  lemma DescribeAnswers(s: Service, c: Client, k: Key, a: Action)
    ensures Actions(s, Describe(c, k))[a]
         == if k in s.live && s.live[k].sdp == "" && s.live[k].waiting == {} && a == RegisterVideo(k, s.live[k].id) then 1
            else if k in s.live && s.live[k].sdp != "" && a == ReplyDescribe(c, s.live[k].sdp) then 1
            else 0
  {}

  /** PLAY moves the caller from before PLAY to playing, or leaves everything as it is. */
  lemma PlayEffect(s: Service, c: Client, k: Key)
    requires k in s.live
    ensures var s' := Next(s, Play(c, k));
            OthersSame(s, s', k) && k in s'.live && PastPlay(s.live[k], s'.live[k], c)
  {}

  /** It is answered once, with 200 iff the caller was before PLAY and with 454 otherwise. */
  lemma PlayAnswers(s: Service, c: Client, k: Key, a: Action)
    ensures Actions(s, Play(c, k))[a]
         == if k in s.live && a == ReplyPlay(c, if c in s.live[k].beforePlay then 200 else 454) then 1 else 0
  {}

  /** A request for a video without a proxy changes nothing. */
  lemma UnknownVideo(s: Service, c: Client, k: Key)
    requires k !in s.live
    ensures Next(s, Describe(c, k)) == s && Next(s, Play(c, k)) == s
  {}

  // ---------------------------------------------------------------- callbacks

  /** An SDP moves everyone who waits on to before PLAY. */
  lemma SdpEffect(s: Service, k: Key, sdp: string)
    requires Enabled(s, SdpArrives(k, sdp))
    ensures var s' := Next(s, SdpArrives(k, sdp));
            OthersSame(s, s', k) && k in s'.live && PastSdp(s.live[k], s'.live[k], sdp)
  {}

  /** Each of them is answered once, with that SDP, and nobody else is. */
  lemma SdpFanOut(s: Service, k: Key, sdp: string, a: Action)
    requires Enabled(s, SdpArrives(k, sdp))
    ensures Actions(s, SdpArrives(k, sdp))[a]
         == if a.ReplyDescribe? && a.c in s.live[k].waiting && a.sdp == sdp then 1 else 0
  {}

  // ---------------------------------------------------------------- close

  /** How many of the four sets of a proxy hold the client. */
  function SetsHolding(p: Proxy, c: Client): nat {
    (if c in p.beforeDescribe then 1 else 0) + (if c in p.waiting then 1 else 0)
    + (if c in p.beforePlay then 1 else 0) + (if c in p.playing then 1 else 0)
  }

  /** What one close leaves of client `d` in the sets of the proxy it stops at: the closed client leaves the first of
      before DESCRIBE, waiting, before PLAY and playing that holds it, and only that. */
  predicate LeftAfterClose(p: Proxy, q: Proxy, c: Client, d: Client) {
    && (d in q.beforeDescribe <==> d in p.beforeDescribe && d != c)
    && (d in q.waiting <==> d in p.waiting && (d == c ==> c in p.beforeDescribe))
    && (d in q.beforePlay <==> d in p.beforePlay && (d == c ==> c in p.beforeDescribe || c in p.waiting))
    && (d in q.playing <==> d in p.playing && (d == c ==> c in p.beforeDescribe || c in p.waiting || c in p.beforePlay))
  }

  /** After `c` has closed, `d` is still in waiting, before PLAY or playing. */
  predicate WantedBy(p: Proxy, c: Client, d: Client) {
    || (d in p.waiting && (d == c ==> c in p.beforeDescribe))
    || (d in p.beforePlay && (d == c ==> c in p.beforeDescribe || c in p.waiting))
    || (d in p.playing && (d == c ==> c in p.beforeDescribe || c in p.waiting || c in p.beforePlay))
  }

  ghost predicate StillWanted(p: Proxy, c: Client) { exists d :: WantedBy(p, c, d) }

  lemma RemoveEffect(p: Proxy, c: Client)
    requires Knows(p, c)
    ensures SameSource(p, ProxyRemove(p, c))
    ensures forall d :: LeftAfterClose(p, ProxyRemove(p, c), c, d)
    ensures Abandoned(ProxyRemove(p, c)) <==> !StillWanted(p, c)
  {
    var q := ProxyRemove(p, c);
    forall d ensures LeftAfterClose(p, q, c, d) {}
    if Abandoned(q) {
      forall d ensures !WantedBy(p, c, d) { assert LeftAfterClose(p, q, c, d); }
    } else {
      var d := SomeoneLeft(q);
      assert LeftAfterClose(p, q, c, d);
      assert WantedBy(p, c, d);
    }
  }

  lemma SomeoneLeft(q: Proxy) returns (d: Client)
    requires !Abandoned(q)
    ensures d in q.waiting || d in q.beforePlay || d in q.playing
  {
    if q.waiting != {} { d :| d in q.waiting; }
    else if q.beforePlay != {} { d :| d in q.beforePlay; }
    else { d :| d in q.playing; }
  }

  /** The exact law of a close that stops at `k`: the proxy is erased iff nobody is left past DESCRIBE, and it is
      unregistered iff it is erased and had its SDP. */
  lemma CloseEffect(s: Service, c: Client, k: Key)
    requires StopsAt(s, c, Some(k))
    ensures var p, s' := s.live[k], Next(s, Close(c, Some(k)));
            && OthersSame(s, s', k)
            && (k !in s'.live <==> !StillWanted(p, c))
            && (k in s'.live ==> SameSource(p, s'.live[k]) && forall d :: LeftAfterClose(p, s'.live[k], c, d))
    ensures forall a :: Actions(s, Close(c, Some(k)))[a]
                     == if a == UnregisterVideo(k) && !StillWanted(s.live[k], c) && s.live[k].registered then 1 else 0
  {
    RemoveEffect(s.live[k], c);
  }

  /** A close of a client no proxy knows does nothing. */
  lemma CloseOfUnknown(s: Service, c: Client)
    requires StopsAt(s, c, None)
    ensures Next(s, Close(c, None)) == s && Actions(s, Close(c, None)) == multiset{}
  {}

  /** A close leaves a trace of its client in the proxy it stops at if and only if the client was in at least two of its
      sets: it then leaves exactly one of them, and the proxy stays. */
  lemma CloseLeavesTraceIff(s: Service, c: Client, k: Key)
    requires StopsAt(s, c, Some(k))
    ensures var s' := Next(s, Close(c, Some(k)));
            && (k in s'.live && Knows(s'.live[k], c) <==> SetsHolding(s.live[k], c) >= 2)
            && (k in s'.live ==> SetsHolding(s'.live[k], c) == SetsHolding(s.live[k], c) - 1)
  {
    var p, q := s.live[k], ProxyRemove(s.live[k], c);
    RemoveEffect(p, c);
    assert LeftAfterClose(p, q, c, c);
    if SetsHolding(p, c) >= 2 { assert WantedBy(p, c, c); }
  }

  // ---------------------------------------------------------------- everybody served

  /** Proxy `id` has answered the client's DESCRIBE with `sdp`. */
  ghost predicate Answered(t: Run, id: ProxyId, c: Client, sdp: string)
    requires Legal(t)
  {
    && t.Then?
    && (AnswersNow(State(t.before), t.e, id, c, sdp) || Answered(t.before, id, c, sdp))
  }

  ghost predicate AnswersNow(s: Service, e: Event, id: ProxyId, c: Client, sdp: string)
    requires Enabled(s, e)
  {
    && (e.Describe? || e.SdpArrives?) && e.k in s.live && s.live[e.k].id == id
    && ReplyDescribe(c, sdp) in Actions(s, e)
  }

  lemma ServedStep(s: Service, e: Event, k: Key, c: Client)
    requires Phases(s, e) && Enabled(s, e) && k in Next(s, e).live
    requires c in Next(s, e).live[k].beforePlay || c in Next(s, e).live[k].playing
    ensures var q := Next(s, e).live[k];
            || AnswersNow(s, e, q.id, c, q.sdp)
            || (k in s.live && s.live[k].id == q.id && s.live[k].sdp == q.sdp
                && (c in s.live[k].beforePlay || c in s.live[k].playing))
  {
    StepAt(s, e, k);
    if k in s.live { assert PhaseOk(s.live[k], s.nextId); }
    match e
    case Describe(d, j) => if j == k { DescribeAnswers(s, d, k, ReplyDescribe(c, s.live[k].sdp)); }
    case SdpArrives(j, sdp) => if j == k { SdpFanOut(s, k, sdp, ReplyDescribe(c, sdp)); }
    case Close(d, at) =>
      if at == Some(k) {
        RemoveEffect(s.live[k], d);
        assert LeftAfterClose(s.live[k], ProxyRemove(s.live[k], d), d, c);
      }
    case _ =>
  }

  /** In every run each client that is before PLAY or playing has had its DESCRIBE answered, by that proxy and with the
      SDP it stores. */
  lemma {:induction false} EveryoneServed(t: Run, k: Key, c: Client)
    requires Legal(t) && k in State(t).live
    requires c in State(t).live[k].beforePlay || c in State(t).live[k].playing
    ensures Answered(t, State(t).live[k].id, c, State(t).live[k].sdp)
  {
    if t.Then? {
      var s := State(t.before);
      PhaseInvariant(t.before);
      InvPhases(s, t.e);
      ServedStep(s, t.e, k, c);
      if k in s.live && s.live[k].id == State(t).live[k].id && s.live[k].sdp == State(t).live[k].sdp
         && (c in s.live[k].beforePlay || c in s.live[k].playing) {
        EveryoneServed(t.before, k, c);
      }
    }
  }

  // ---------------------------------------------------------------- a closed client that still plays

  lemma OnePlays(k: Key, sdp: string) returns (t: Run)
    requires sdp != ""
    ensures Legal(t) && State(t) == Service(map[k := Proxy(0, {}, {}, {}, {1}, true, sdp)], 1, multiset{})
    ensures t == Then(Then(Then(Then(Start, Options(1, k)), Describe(1, k)), SdpArrives(k, sdp)), Play(1, k))
  {
    var t1 := Then(Start, Options(1, k));
    assert State(t1) == Service(map[k := Proxy(0, {1}, {}, {}, {}, false, "")], 1, multiset{});
    var t2 := Then(t1, Describe(1, k));
    assert ProxyDescribe(Proxy(0, {1}, {}, {}, {}, false, ""), 1) == Proxy(0, {}, {1}, {}, {}, false, "");
    assert State(t2) == Service(map[k := Proxy(0, {}, {1}, {}, {}, false, "")], 1, multiset{0});
    t := AnsweredAndPlays(k, sdp, t2);
  }

  lemma AnsweredAndPlays(k: Key, sdp: string, t2: Run) returns (t: Run)
    requires Legal(t2) && State(t2) == Service(map[k := Proxy(0, {}, {1}, {}, {}, false, "")], 1, multiset{0}) && sdp != ""
    ensures Legal(t) && State(t) == Service(map[k := Proxy(0, {}, {}, {}, {1}, true, sdp)], 1, multiset{})
    ensures t == Then(Then(t2, SdpArrives(k, sdp)), Play(1, k))
  {
    var t3 := Then(t2, SdpArrives(k, sdp));
    assert ProxySdp(Proxy(0, {}, {1}, {}, {}, false, ""), sdp) == Proxy(0, {}, {}, {1}, {}, true, sdp);
    assert State(t3).live == map[k := Proxy(0, {}, {}, {1}, {}, true, sdp)];
    t := Then(t3, Play(1, k));
    assert ProxyPlay(Proxy(0, {}, {}, {1}, {}, true, sdp), 1) == Proxy(0, {}, {}, {}, {1}, true, sdp);
    assert State(t).live == map[k := Proxy(0, {}, {}, {}, {1}, true, sdp)];
  }

  /** The only client of a video plays, sends OPTIONS again and closes: it is still playing, the source is still
      fetched, and the next packet is still sent to it. */
  lemma ClosedClientStillPlays(k: Key, sdp: string, data: seq<byte>) returns (t: Run)
    requires sdp != "" && Sendable(data)
    ensures Legal(t) && t.Then? && t.e == Packet(k, data) && t.before.Then? && t.before.e == Close(1, Some(k))
    ensures k in State(t).live && 1 in State(t).live[k].playing && State(t).live[k].registered
    ensures Actions(State(t.before), t.e)[SendData(1, Encode(data))] == 1
  {
    var t4 := OnePlays(k, sdp);
    var t5 := Then(t4, Options(1, k));
    assert {} + {1} == {1};
    assert State(t5).live == map[k := Proxy(0, {1}, {}, {}, {1}, true, sdp)];
    var t6 := Then(t5, Close(1, Some(k)));
    assert Legal(t6);
    CloseEffect(State(t5), 1, k);
    assert WantedBy(State(t5).live[k], 1, 1);
    assert LeftAfterClose(State(t5).live[k], State(t6).live[k], 1, 1);
    t := Then(t6, Packet(k, data));
    PacketFanOut(State(t6), k, data, 1, Encode(data));
  }
}

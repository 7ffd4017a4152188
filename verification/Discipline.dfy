/** Clients that keep to one session (core/include/rtsp_service.h: one session per client): one URI,
    and OPTIONS, DESCRIBE, PLAY at most once each in that order, then possibly a close. */
module Discipline {
  import opened VideoUrl
  import opened Framing
  import opened Sharing
  import opened SharingRuns

  const SILENT := 0
  const SENT_OPTIONS := 1
  const SENT_DESCRIBE := 2
  const SENT_PLAY := 3
  const CLOSED := 4

  /** How far a client has got, by its own requests. */
  ghost function Stage(t: Run, c: Client): int {
    if t.Start? then SILENT
    else if Actor(t.e) != Some(c) then Stage(t.before, c)
    else match t.e
      case Options(_, _) => SENT_OPTIONS
      case Describe(_, _) => SENT_DESCRIBE
      case Play(_, _) => SENT_PLAY
      case _ => CLOSED
  }

  ghost function Uri(t: Run, c: Client): Option<Key> {
    if t.Start? then None
    else if Actor(t.e) == Some(c) && !t.e.Close? then Some(t.e.k)
    else Uri(t.before, c)
  }

  /** Client `c` keeps to one session in `t`; the others may do as they please. */
  ghost predicate Disciplined(t: Run, c: Client) {
    t.Then? ==>
      && Disciplined(t.before, c)
      && (Actor(t.e) == Some(c) ==>
            match t.e
            case Options(_, _) => Stage(t.before, c) < SENT_OPTIONS
            case Describe(_, k) => Stage(t.before, c) < SENT_DESCRIBE && Uri(t.before, c) in {None, Some(k)}
            case Play(_, k) => Stage(t.before, c) < SENT_PLAY && Uri(t.before, c) in {None, Some(k)}
            case _ => Stage(t.before, c) < CLOSED)
  }

  ghost predicate OneSet(p: Proxy, c: Client) {
    && (c in p.beforeDescribe ==> c !in p.waiting && c !in p.beforePlay && c !in p.playing)
    && (c in p.waiting ==> c !in p.beforePlay && c !in p.playing)
    && (c in p.beforePlay ==> c !in p.playing)
  }

  /** What one proxy may know of one client: it is the client's own proxy, the client is in exactly
      one set, and it is past DESCRIBE only if it sent one. */
  ghost predicate ClientOk(p: Proxy, k: Key, c: Client, stage: int, uri: Option<Key>) {
    Knows(p, c) ==>
      && uri == Some(k) && SENT_OPTIONS <= stage <= SENT_PLAY
      && OneSet(p, c)
      && (c !in p.beforeDescribe ==> SENT_DESCRIBE <= stage)
  }

  ghost predicate Orderly(t: Run, c: Client)
    requires Legal(t)
  {
    forall k: Key :: k in State(t).live ==> ClientOk(State(t).live[k], k, c, Stage(t, c), Uri(t, c))
  }

  lemma OthersStepOk(s: Service, e: Event, k: Key, c: Client, stage: int, uri: Option<Key>)
    requires Phases(s, e) && Enabled(s, e) && Actor(e) != Some(c)
    requires k in s.live ==> ClientOk(s.live[k], k, c, stage, uri)
    requires AtAfter(s, e, k).Some?
    ensures ClientOk(AtAfter(s, e, k).value, k, c, stage, uri)
  {}

  lemma OwnStepOk(t: Run, k: Key, c: Client)
    requires Legal(t) && Disciplined(t, c) && t.Then? && Actor(t.e) == Some(c)
    requires Orderly(t.before, c) && AtAfter(State(t.before), t.e, k).Some?
    ensures ClientOk(AtAfter(State(t.before), t.e, k).value, k, c, Stage(t, c), Uri(t, c))
  {
    var s, e := State(t.before), t.e;
    assert k in s.live ==> ClientOk(s.live[k], k, c, Stage(t.before, c), Uri(t.before, c));
    if e.Close? && e.at.Some? {
      assert ClientOk(s.live[e.at.value], e.at.value, c, Stage(t.before, c), Uri(t.before, c));
    }
  }

  lemma OrderlyStep(t: Run, k: Key, c: Client)
    requires Legal(t) && Disciplined(t, c) && t.Then? && Orderly(t.before, c)
    requires Phases(State(t.before), t.e) && AtAfter(State(t.before), t.e, k).Some?
    ensures ClientOk(AtAfter(State(t.before), t.e, k).value, k, c, Stage(t, c), Uri(t, c))
  {
    if Actor(t.e) == Some(c) {
      OwnStepOk(t, k, c);
    } else {
      var s, stage, uri := State(t.before), Stage(t.before, c), Uri(t.before, c);
      assert k in s.live ==> ClientOk(s.live[k], k, c, stage, uri);
      assert Stage(t, c) == stage && Uri(t, c) == uri;
      OthersStepOk(s, t.e, k, c, stage, uri);
    }
  }

  /** A disciplined client is in at most one set over all proxies, always that of its own URI. */
  lemma {:induction false} DisciplinedIsOrderly(t: Run, c: Client)
    requires Legal(t) && Disciplined(t, c)
    ensures Orderly(t, c)
  {
    if t.Then? {
      DisciplinedIsOrderly(t.before, c);
      PhaseInvariant(t.before);
      InvPhases(State(t.before), t.e);
      forall k: Key | k in State(t).live
        ensures ClientOk(State(t).live[k], k, c, Stage(t, c), Uri(t, c))
      {
        StepAt(State(t.before), t.e, k);
        OrderlyStep(t, k, c);
      }
    }
  }

  lemma AtMostOneMembership(t: Run, c: Client, k: Key, j: Key)
    requires Legal(t) && Disciplined(t, c)
    requires k in State(t).live && j in State(t).live
    requires Knows(State(t).live[k], c) && Knows(State(t).live[j], c)
    ensures k == j && OneSet(State(t).live[k], c)
  {
    DisciplinedIsOrderly(t, c);
    assert ClientOk(State(t).live[k], k, c, Stage(t, c), Uri(t, c));
    assert ClientOk(State(t).live[j], j, c, Stage(t, c), Uri(t, c));
  }

  /** No proxy knows the client. */
  ghost predicate Unknown(s: Service, c: Client) {
    forall k :: k in s.live ==> !Knows(s.live[k], c)
  }

  /** One `Close` removes every trace of a disciplined client, and it stays removed. */
  lemma CloseLeavesNoTrace(t: Run, c: Client)
    requires Legal(t) && Disciplined(t, c) && Stage(t, c) == CLOSED
    ensures Unknown(State(t), c)
  {
    DisciplinedIsOrderly(t, c);
    forall k | k in State(t).live ensures !Knows(State(t).live[k], c) {
      assert ClientOk(State(t).live[k], k, c, Stage(t, c), Uri(t, c));
    }
  }

  // ---------------------------------------------------------------- phases

  function PhaseIn(p: Proxy, c: Client): int {
    if c in p.playing then 4
    else if c in p.beforePlay then 3
    else if c in p.waiting then 2
    else if c in p.beforeDescribe then 1
    else 0
  }

  /** The client's phase in proxy `id` of video `k`: 0 also when that proxy is gone. */
  function PhaseAt(p: Option<Proxy>, id: ProxyId, c: Client): int {
    if p.Some? && p.value.id == id then PhaseIn(p.value, c) else 0
  }

  /** DESCRIBE while another client already waits: neither branch fires, and the caller drops out. */
  ghost predicate DropsOut(p: Proxy, e: Event, k: Key, c: Client) {
    e == Describe(c, k) && c in p.beforeDescribe && p.sdp == "" && p.waiting != {}
  }

  /** Another client's close takes the whole proxy away, because clients that have not sent DESCRIBE do not
      count. */
  ghost predicate SweptAway(s: Service, e: Event, k: Key, c: Client) {
    Erases(s, e, k) && c in s.live[k].beforeDescribe
  }

  /** Short of its own close, the phase of a disciplined client in its proxy goes back in exactly two cases:
      its DESCRIBE finds another client waiting, or someone else's close erases the proxy before its
      DESCRIBE. */
  lemma PhaseOnlyAdvances(t: Run, k: Key, c: Client)
    requires Legal(t) && Disciplined(t, c) && t.Then? && !(t.e.Close? && t.e.c == c)
    requires k in State(t.before).live
    ensures var p := State(t.before).live[k];
            PhaseAt(At(State(t), k), p.id, c) < PhaseIn(p, c)
            <==> DropsOut(p, t.e, k, c) || SweptAway(State(t.before), t.e, k, c)
  {
    var s, e := State(t.before), t.e;
    DisciplinedIsOrderly(t.before, c);
    PhaseInvariant(t.before);
    InvPhases(s, e);
    StepAt(s, e, k);
    assert ClientOk(s.live[k], k, c, Stage(t.before, c), Uri(t.before, c));
    if Erases(s, e, k) {
      RemoveKeepsOthers(s.live[k], e.c, c);
    } else {
      ProxyStays(s, e, k);
      PhaseStep(s, e, k, c, Stage(t.before, c));
    }
  }

  lemma PhaseStep(s: Service, e: Event, k: Key, c: Client, stage: int)
    requires Phases(s, e) && Enabled(s, e) && k in s.live && AtAfter(s, e, k).Some?
    requires !(e.Close? && e.c == c) && OneSet(s.live[k], c)
    requires e.Describe? && e.c == c ==> stage < SENT_DESCRIBE
    requires Knows(s.live[k], c) && c !in s.live[k].beforeDescribe ==> SENT_DESCRIBE <= stage
    ensures PhaseIn(AtAfter(s, e, k).value, c) < PhaseIn(s.live[k], c) <==> DropsOut(s.live[k], e, k, c)
  {
    var p := s.live[k];
    match e
    case Close(d, _) => RemoveKeepsOthers(p, d, c);
    case Describe(d, j) =>
      if j == k {
        assert PhaseOk(p, s.nextId);
        DescribePhase(p, d, c, stage);
      }
    case SdpArrives(_, _) =>
    case Options(_, _) =>
    case Play(_, _) =>
    case Packet(_, _) =>
    case SourceError(_) =>
  }

  lemma DescribePhase(p: Proxy, d: Client, c: Client, stage: int)
    requires OneSet(p, c)
    requires d == c ==> stage < SENT_DESCRIBE
    requires Knows(p, c) && c !in p.beforeDescribe ==> SENT_DESCRIBE <= stage
    ensures PhaseIn(ProxyDescribe(p, d), c) < PhaseIn(p, c)
       <==> d == c && c in p.beforeDescribe && p.sdp == "" && p.waiting != {}
  {}

  // ---------------------------------------------------------------- a client that dropped out

  /** The step answers the client's DESCRIBE, or its PLAY with 200. */
  ghost predicate Serves(s: Service, e: Event, c: Client)
    requires Enabled(s, e)
  {
    ReplyPlay(c, 200) in Actions(s, e) || exists sdp :: ReplyDescribe(c, sdp) in Actions(s, e)
  }

  ghost predicate ServedSince(t0: Run, t: Run, c: Client)
    requires Legal(t)
  {
    t != t0 && t.Then? && (Serves(State(t.before), t.e, c) || ServedSince(t0, t.before, c))
  }

  lemma UnknownAt(s: Service, e: Event, k: Key, c: Client)
    requires Enabled(s, e) && Unknown(s, c) && !((e.Options? || e.Describe?) && e.c == c)
    requires AtAfter(s, e, k).Some?
    ensures !Knows(AtAfter(s, e, k).value, c)
  {
    assert k in s.live ==> !Knows(s.live[k], c);
  }

  lemma ErrorServesNobody(s: Service, k: Key, c: Client)
    requires Enabled(s, SourceError(k))
    ensures !Serves(s, SourceError(k), c)
  {
    forall a | a in Actions(s, SourceError(k)) ensures a.CloseSocket? {}
  }

  lemma PacketServesNobody(s: Service, k: Key, data: seq<byte>, c: Client)
    requires Enabled(s, Packet(k, data))
    ensures !Serves(s, Packet(k, data), c)
  {
    forall a | a in Actions(s, Packet(k, data)) ensures a.SendData? {}
  }

  lemma SdpServesWaiting(s: Service, k: Key, sdp: string, c: Client)
    requires Enabled(s, SdpArrives(k, sdp)) && c !in s.live[k].waiting
    ensures !Serves(s, SdpArrives(k, sdp), c)
  {
    forall a | a in Actions(s, SdpArrives(k, sdp)) ensures a.ReplyDescribe? && a.c != c {}
  }

  lemma RequestServesItsClient(s: Service, e: Event, c: Client)
    requires Enabled(s, e) && Actor(e) != None
    requires Unknown(s, c) && !((e.Options? || e.Describe?) && e.c == c)
    ensures !Serves(s, e, c)
  {
    if e.Play? && e.k in s.live { assert !Knows(s.live[e.k], c); }
  }

  lemma UnknownIsNotServed(s: Service, e: Event, c: Client)
    requires Enabled(s, e) && Unknown(s, c) && !((e.Options? || e.Describe?) && e.c == c)
    ensures !Serves(s, e, c)
  {
    match e
    case SdpArrives(k, sdp) =>
      assert !Knows(s.live[k], c);
      SdpServesWaiting(s, k, sdp, c);
    case SourceError(k) => ErrorServesNobody(s, k, c);
    case Packet(k, data) => PacketServesNobody(s, k, data, c);
    case _ => RequestServesItsClient(s, e, c);
  }

  /** Nobody serves or lists a client no proxy knows, unless it asks anew. */
  lemma UnknownStays(s: Service, e: Event, c: Client)
    requires Enabled(s, e) && Unknown(s, c) && !((e.Options? || e.Describe?) && e.c == c)
    ensures Unknown(Next(s, e), c) && !Serves(s, e, c)
  {
    UnknownIsNotServed(s, e, c);
    forall k | k in Next(s, e).live ensures !Knows(Next(s, e).live[k], c) {
      StepAt(s, e, k);
      UnknownAt(s, e, k, c);
    }
  }

  lemma DroppedIsUnknown(t: Run, k: Key, c: Client)
    requires Legal(t) && Disciplined(t, c) && t.Then? && k in State(t.before).live
    requires DropsOut(State(t.before).live[k], t.e, k, c)
    ensures Unknown(State(t), c)
  {
    var s := State(t.before);
    DisciplinedIsOrderly(t.before, c);
    assert ClientOk(s.live[k], k, c, Stage(t.before, c), Uri(t.before, c));
    forall j | j in State(t).live ensures !Knows(State(t).live[j], c) {
      assert j in s.live ==> ClientOk(s.live[j], j, c, Stage(t.before, c), Uri(t.before, c));
      StepAt(s, t.e, j);
    }
  }

  /** A disciplined client whose DESCRIBE met another waiting client is in no set from then on, and neither
      its DESCRIBE nor a later PLAY is ever answered with success. */
  lemma {:induction false} DroppedIsNeverServed(t0: Run, t: Run, k: Key, c: Client)
    requires Legal(t) && Legal(t0) && Continues(t0, t) && Disciplined(t, c)
    requires t0.Then? && k in State(t0.before).live && DropsOut(State(t0.before).live[k], t0.e, k, c)
    ensures Unknown(State(t), c) && !ServedSince(t0.before, t, c) && Stage(t, c) >= SENT_DESCRIBE
  {
    if t == t0 {
      DroppedIsUnknown(t, k, c);
    } else {
      DroppedIsNeverServed(t0, t.before, k, c);
      UnknownStays(State(t.before), t.e, c);
    }
  }

  // ---------------------------------------------------------------- both setbacks happen

  const ONE: Client := 1
  const TWO: Client := 2

  lemma OneClient(k: Key) returns (t: Run)
    ensures Legal(t) && State(t) == Service(map[k := Proxy(0, {ONE}, {}, {}, {}, false, "")], 1, multiset{})
    ensures Disciplined(t, ONE) && Stage(t, ONE) == SENT_OPTIONS && Uri(t, ONE) == Some(k)
    ensures Disciplined(t, TWO) && Stage(t, TWO) == SILENT
  {
    t := Then(Start, Options(ONE, k));
    assert Uri(t, ONE) == Some(t.e.k);
  }

  lemma TwoClients(k: Key) returns (t: Run)
    ensures Legal(t) && State(t) == Service(map[k := Proxy(0, {ONE, TWO}, {}, {}, {}, false, "")], 1, multiset{})
    ensures Disciplined(t, ONE) && Stage(t, ONE) == SENT_OPTIONS && Uri(t, ONE) == Some(k)
    ensures Disciplined(t, TWO) && Stage(t, TWO) == SENT_OPTIONS && Uri(t, TWO) == Some(k)
  {
    var t1 := OneClient(k);
    t := Then(t1, Options(TWO, k));
    assert {ONE} + {TWO} == {ONE, TWO};
    assert State(t).live == map[k := Proxy(0, {ONE, TWO}, {}, {}, {}, false, "")];
    assert Uri(t, ONE) == Uri(t1, ONE) && Uri(t, TWO) == Some(t.e.k);
  }

  /** Two clients ask for the same video: the second DESCRIBE drops its client out. */
  lemma DropOutHappens(k: Key) returns (t: Run)
    ensures Legal(t) && Disciplined(t, ONE) && Disciplined(t, TWO) && t.Then? && k in State(t.before).live
    ensures DropsOut(State(t.before).live[k], t.e, k, TWO) && Actions(State(t.before), t.e) == multiset{}
  {
    var t2 := TwoClients(k);
    var t3 := Then(t2, Describe(ONE, k));
    assert ONE in State(t3).live[k].waiting && TWO in State(t3).live[k].beforeDescribe;
    t := Then(t3, Describe(TWO, k));
  }

  /** One of two clients that have only sent OPTIONS closes: the other loses its proxy. */
  lemma SweepHappens(k: Key) returns (t: Run)
    ensures Legal(t) && Disciplined(t, ONE) && Disciplined(t, TWO) && t.Then? && k in State(t.before).live
    ensures SweptAway(State(t.before), t.e, k, ONE) && t.e == Close(TWO, Some(k)) && k !in State(t).live
  {
    var t2 := TwoClients(k);
    t := Then(t2, Close(TWO, Some(k)));
  }

  // ---------------------------------------------------------------- tearing a failed proxy down

  lemma ErrorListsEveryClient(s: Service, k: Key, c: Client)
    requires Enabled(s, SourceError(k))
    ensures CloseSocket(c) in Actions(s, SourceError(k)) <==> Knows(s.live[k], c)
  {}

  /** After `t0` nobody outside `listed` sends OPTIONS or DESCRIBE for `k`. */
  ghost predicate NoNewcomers(t0: Run, t: Run, k: Key, listed: iset<Client>) {
    t != t0 && t.Then? ==>
      && NoNewcomers(t0, t.before, k, listed)
      && ((t.e.Options? || t.e.Describe?) && t.e.k == k ==> t.e.c in listed)
  }

  /** If proxy `id` is still the one at `k`, it knows only listed clients. */
  ghost predicate OnlyListed(s: Service, k: Key, id: ProxyId, listed: iset<Client>) {
    id < s.nextId
    && (k in s.live && s.live[k].id == id ==> forall c :: Knows(s.live[k], c) ==> c in listed)
  }

  lemma OnlyListedStep(s: Service, e: Event, k: Key, id: ProxyId, listed: iset<Client>)
    requires Enabled(s, e) && OnlyListed(s, k, id, listed)
    requires (e.Options? || e.Describe?) && e.k == k ==> e.c in listed
    ensures OnlyListed(Next(s, e), k, id, listed)
  {
    StepAt(s, e, k);
  }

  lemma {:induction false} OnlyListedStays(t0: Run, t: Run, k: Key, id: ProxyId, listed: iset<Client>)
    requires Legal(t) && Legal(t0) && Continues(t0, t) && NoNewcomers(t0, t, k, listed)
    requires OnlyListed(State(t0), k, id, listed)
    ensures OnlyListed(State(t), k, id, listed)
  {
    if t != t0 {
      OnlyListedStays(t0, t.before, k, id, listed);
      OnlyListedStep(State(t.before), t.e, k, id, listed);
    }
  }

  /** After `processErrorFunction` the proxy is gone once every client whose socket it closed has gone
      through `Close`, in whatever order and whatever else happens, unless newcomers join it. */
  lemma ErrorTearsDown(t0: Run, t: Run, k: Key)
    requires Legal(t) && Legal(t0) && Continues(t0, t)
    requires t0.Then? && t0.e == SourceError(k)
    requires var listed := iset c | CloseSocket(c) in Actions(State(t0.before), t0.e);
             NoNewcomers(t0, t, k, listed) && forall c :: c in listed ==> Disciplined(t, c) && Stage(t, c) == CLOSED
    ensures !(k in State(t).live && State(t).live[k].id == State(t0).live[k].id)
  {
    var listed := iset c | CloseSocket(c) in Actions(State(t0.before), t0.e);
    var id := State(t0).live[k].id;
    PhaseInvariant(t0);
    PhaseInvariant(t);
    assert ProxyInv(State(t0).live[k], State(t0).nextId, State(t0).owed);
    forall c | Knows(State(t0).live[k], c) ensures c in listed {
      ErrorListsEveryClient(State(t0.before), k, c);
    }
    OnlyListedStays(t0, t, k, id, listed);
    if k in State(t).live && State(t).live[k].id == id {
      var p := State(t).live[k];
      assert ProxyInv(p, State(t).nextId, State(t).owed);
      var c := SomeoneListed(p);
      CloseLeavesNoTrace(t, c);
    }
  }

  lemma SomeoneListed(p: Proxy) returns (c: Client)
    requires p.beforeDescribe != {} || !Abandoned(p)
    ensures Knows(p, c)
  {
    if p.beforeDescribe != {} { c :| c in p.beforeDescribe; }
    else if p.waiting != {} { c :| c in p.waiting; }
    else if p.beforePlay != {} { c :| c in p.beforePlay; }
    else { c :| c in p.playing; }
  }
}

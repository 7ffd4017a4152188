/** The context maps of core/src/rtp_producer.cpp: which video is being fetched, for which proxy. */
module Producer {
  import opened VideoUrl
  import opened Sharing

  type CtxId = nat

  /** `boundTo`: the proxy the three callbacks are bound to; `inviteId` is empty until an invite is
      answered, and always for a file. */
  datatype Context = Context(cid: CtxId, boundTo: ProxyId, inviteId: string)

  /** `outstanding`: contexts whose probe or invite has not been answered yet. */
  datatype Contexts = Contexts(byKey: map<Key, Context>, next: CtxId, outstanding: map<CtxId, Key>)

  const NO_CONTEXTS := Contexts(map[], 0, map[])

  predicate Alive(p: Contexts, k: Key, cid: CtxId) {
    k in p.byKey && p.byKey[k].cid == cid
  }

  /** `RegisterVideo` reports "already exist". */
  predicate Rejects(p: Contexts, k: Key) {
    KindOf(k) != NoSource && k in p.byKey
  }

  function Register(p: Contexts, k: Key, id: ProxyId): Contexts {
    if KindOf(k) == NoSource || k in p.byKey then p
    else Contexts(p.byKey[k := Context(p.next, id, "")], p.next + 1, p.outstanding[p.next := k])
  }

  function Unregister(p: Contexts, k: Key): Contexts {
    p.(byKey := p.byKey - {k})
  }

  /** The session `UnregisterVideo` tears down. */
  function TornDownBy(p: Contexts, k: Key): Option<string> {
    if k in p.byKey && p.byKey[k].inviteId != "" then Some(p.byKey[k].inviteId) else None
  }

  function SetInvite(p: Contexts, k: Key, invite: string): Contexts
    requires k in p.byKey
  {
    p.(byKey := p.byKey[k := p.byKey[k].(inviteId := invite)])
  }

  /** What the producer asks of the outside world. */
  datatype Call =
    | ProbeFile(cid: CtxId)
    | Invite(cid: CtxId)
    | TearDown(inviteId: string)
    | ReportError(proxy: ProxyId)

  lemma UpdateRight<K, V>(a: map<K, V>, b: map<K, V>, k: K, v: V)
    ensures a + b[k := v] == (a + b)[k := v]
  {}

  lemma UpdateLeft<K, V>(a: map<K, V>, b: map<K, V>, k: K, v: V)
    requires k !in b
    ensures a[k := v] + b == (a + b)[k := v]
  {}

  lemma EraseEither<K, V>(a: map<K, V>, b: map<K, V>, k: K)
    ensures k !in b ==> (a - {k}) + b == (a + b) - {k}
    ensures k !in a ==> a + (b - {k}) == (a + b) - {k}
  {}

  /** The calls of one `RegisterVideo`, told from the request's own fields: a new file context is probed, a new device
      context invited, a video that already has a context reported as an error to the caller; one call at most. */
  ghost predicate CallsByFields(p: Contexts, p': Contexts, video: VideoRequest, proxy: ProxyId, calls: seq<Call>) {
    && |calls| <= 1
    && (forall cid :: ProbeFile(cid) in calls <==> video.useFile && cid in p'.outstanding && cid !in p.outstanding)
    && (forall cid :: Invite(cid) in calls <==> !video.useFile && video.useGb && cid in p'.outstanding && cid !in p.outstanding)
    && (forall x :: ReportError(x) in calls <==> CmpStr(video) in p.byKey && x == proxy)
    && (forall x :: TearDown(x) !in calls)
  }

  lemma RegisterCallsByFields(p: Contexts, video: VideoRequest, proxy: ProxyId)
    requires p.next !in p.outstanding && forall k :: k in p.byKey ==> KindOf(k) != NoSource
    ensures CallsByFields(p, Register(p, CmpStr(video), proxy), video, proxy, RegisterCalls(p, CmpStr(video), proxy))
  {
    KeyTellsKind(video);
  }

  /** What a new context has asked for, and for whom its callbacks are bound. */
  lemma RegisterEffect(p: Contexts, k: Key, id: ProxyId)
    requires KindOf(k) != NoSource && k !in p.byKey
    ensures var p' := Register(p, k, id);
            && k in p'.byKey && p'.byKey[k].boundTo == id && p'.byKey[k].inviteId == "" && p'.byKey[k].cid == p.next
            && p'.byKey - {k} == p.byKey - {k}
            && p.next in p'.outstanding && p'.outstanding[p.next] == k && p'.next > p.next
  {}

  /** The two maps as they are written: files and devices apart. */
  class RtpProducer {
    var fileContexts: map<Key, Context>
    var rtpContexts: map<Key, Context>
    var next: CtxId
    ghost var outstanding: map<CtxId, Key>

    ghost predicate Valid()
      reads this
    {
      && (forall k :: k in fileContexts ==> KindOf(k) == FileSource)
      && (forall k :: k in rtpContexts ==> KindOf(k) == GbSource)
      && (forall k :: k in fileContexts ==> fileContexts[k].inviteId == "")
      && (forall cid :: cid in outstanding ==> cid < next)
    }

    ghost function Value(): Contexts
      reads this
    {
      Contexts(fileContexts + rtpContexts, next, outstanding)
    }

    constructor ()
      ensures Valid() && Value() == NO_CONTEXTS
    {
      fileContexts, rtpContexts, next, outstanding := map[], map[], 0, map[];
    }

    /** `RegisterVideo`; `proxy` is what the callbacks are bound to. */
    method RegisterVideo(video: VideoRequest, proxy: ProxyId) returns (calls: seq<Call>)
      requires Valid()
      modifies this
      ensures Valid() && Value() == Register(old(Value()), CmpStr(video), proxy)
      ensures calls == RegisterCalls(old(Value()), CmpStr(video), proxy)
      ensures CallsByFields(old(Value()), Value(), video, proxy, calls)
    {
      KeyTellsKind(video);
      RegisterCallsByFields(Value(), video, proxy);
      if video.useFile {
        calls := RegisterFile(CmpStr(video), proxy);
      } else if video.useGb {
        calls := RegisterGb(CmpStr(video), proxy);
      } else {
        calls := [];
      }
    }

    method RegisterFile(k: Key, proxy: ProxyId) returns (calls: seq<Call>)
      requires Valid() && KindOf(k) == FileSource
      modifies this
      ensures Valid() && Value() == Register(old(Value()), k, proxy)
      ensures calls == RegisterCalls(old(Value()), k, proxy)
    {
      if k in fileContexts {
        return [ReportError(proxy)];
      }
      calls := [ProbeFile(next)];
      UpdateLeft(fileContexts, rtpContexts, k, Context(next, proxy, ""));
      fileContexts := fileContexts[k := Context(next, proxy, "")];
      next, outstanding := next + 1, outstanding[next := k];
    }

    method RegisterGb(k: Key, proxy: ProxyId) returns (calls: seq<Call>)
      requires Valid() && KindOf(k) == GbSource
      modifies this
      ensures Valid() && Value() == Register(old(Value()), k, proxy)
      ensures calls == RegisterCalls(old(Value()), k, proxy)
    {
      if k in rtpContexts {
        return [ReportError(proxy)];
      }
      calls := [Invite(next)];
      UpdateRight(fileContexts, rtpContexts, k, Context(next, proxy, ""));
      rtpContexts := rtpContexts[k := Context(next, proxy, "")];
      next, outstanding := next + 1, outstanding[next := k];
    }

    method UnregisterVideo(video: VideoRequest) returns (calls: seq<Call>)
      requires Valid()
      modifies this
      ensures Valid() && Value() == Unregister(old(Value()), CmpStr(video))
      ensures var torn := TornDownBy(old(Value()), CmpStr(video));
              calls == if torn.Some? then [TearDown(torn.value)] else []
      ensures CmpStr(video) !in Value().byKey
      ensures forall k :: k != CmpStr(video) ==> (k in Value().byKey <==> k in old(Value()).byKey)
      ensures forall x :: TearDown(x) in calls <==>
                CmpStr(video) in old(Value()).byKey && old(Value()).byKey[CmpStr(video)].inviteId == x && x != ""
    {
      KeyTellsKind(video);
      if video.useFile {
        calls := UnregisterFile(CmpStr(video));
      } else if video.useGb {
        calls := UnregisterGb(CmpStr(video));
      } else {
        calls := [];
      }
    }

    method UnregisterFile(k: Key) returns (calls: seq<Call>)
      requires Valid() && KindOf(k) == FileSource
      modifies this`fileContexts
      ensures Valid() && Value() == Unregister(old(Value()), k)
      ensures calls == [] && TornDownBy(old(Value()), k).None?
    {
      EraseEither(fileContexts, rtpContexts, k);
      fileContexts := fileContexts - {k};
      calls := [];
    }

    method UnregisterGb(k: Key) returns (calls: seq<Call>)
      requires Valid() && KindOf(k) == GbSource
      modifies this`rtpContexts
      ensures Valid() && Value() == Unregister(old(Value()), k)
      ensures var torn := TornDownBy(old(Value()), k);
              calls == if torn.Some? then [TearDown(torn.value)] else []
    {
      calls := [];
      if k in rtpContexts && rtpContexts[k].inviteId != "" {
        calls := [TearDown(rtpContexts[k].inviteId)];
      }
      EraseEither(fileContexts, rtpContexts, k);
      rtpContexts := rtpContexts - {k};
    }
  }

  function RegisterCalls(p: Contexts, k: Key, proxy: ProxyId): seq<Call> {
    if Rejects(p, k) then [ReportError(proxy)]
    else match KindOf(k)
      case FileSource => [ProbeFile(p.next)]
      case GbSource => [Invite(p.next)]
      case NoSource => []
  }
}

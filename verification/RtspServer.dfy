/** The handlers and callbacks of core/src/rtsp_service.cpp as they are written: objects whose sets
    are changed in place.  Each is proved to do exactly its step of module `Sharing`. */
module RtspServer {
  import opened VideoUrl
  import opened Framing
  import opened Sharing

  class ProxyInfo {
    const id: ProxyId  // stands for the object's address, which the callbacks are bound to
    var beforeDescribeClients: set<Client>
    var waitingSdpClients: set<Client>
    var beforePlayClients: set<Client>
    var playingClients: set<Client>
    var registered: bool
    var sourceSdp: string
    const sendBuffer: array<byte>

    ghost function Value(): Proxy
      reads this
    {
      Proxy(id, beforeDescribeClients, waitingSdpClients, beforePlayClients, playingClients,
            registered, sourceSdp)
    }

    constructor (c: Client, id: ProxyId)
      ensures Value() == NewProxy(id, c) && sendBuffer.Length == SEND_BUFFER_SIZE
      ensures fresh(sendBuffer)
    {
      this.id := id;
      beforeDescribeClients := {c};
      waitingSdpClients, beforePlayClients, playingClients := {}, {}, {};
      registered, sourceSdp := false, "";
      sendBuffer := new byte[SEND_BUFFER_SIZE](_ => 0);
    }

    /** The body of `OnDescribe` once the proxy is found. */
    method Describe(c: Client) returns (register: bool, reply: Option<string>)
      modifies this
      ensures Value() == ProxyDescribe(old(Value()), c)
      ensures register == NeedsSource(old(Value()))
      ensures reply == if sourceSdp != "" then Some(sourceSdp) else None
    {
      beforeDescribeClients := beforeDescribeClients - {c};
      register, reply := false, None;
      if sourceSdp == "" && waitingSdpClients == {} {
        waitingSdpClients := waitingSdpClients + {c};
        register := true;
      } else if sourceSdp != "" {
        reply := Some(sourceSdp);
        beforePlayClients := beforePlayClients + {c};
      }
    }

    /** The body of `OnPlay` once the proxy is found. */
    method Play(c: Client) returns (status: int)
      modifies this
      ensures Value() == ProxyPlay(old(Value()), c)
      ensures status == if c in old(beforePlayClients) then 200 else 454
    {
      if c !in beforePlayClients {
        return 454;
      }
      beforePlayClients := beforePlayClients - {c};
      playingClients := playingClients + {c};
      return 200;
    }

    function Lists(c: Client): (r: bool)
      reads this
      ensures r <==> Knows(Value(), c)
    {
      c in beforeDescribeClients || c in waitingSdpClients || c in beforePlayClients || c in playingClients
    }

    /** The `else if` chain of `Close`. */
    method Remove(c: Client)
      requires Knows(Value(), c)
      modifies this
      ensures Value() == ProxyRemove(old(Value()), c)
    {
      if c in beforeDescribeClients {
        beforeDescribeClients := beforeDescribeClients - {c};
      } else if c in waitingSdpClients {
        waitingSdpClients := waitingSdpClients - {c};
      } else if c in beforePlayClients {
        beforePlayClients := beforePlayClients - {c};
      } else if c in playingClients {
        playingClients := playingClients - {c};
      }
    }

    /** `processSdpFunction` */
    method ProcessSdp(sdp: string) returns (actions: seq<Action>)
      modifies this
      ensures Value() == ProxySdp(old(Value()), sdp)
      ensures multiset(actions) == ToAll(DescribeReply(sdp), old(waitingSdpClients))
    {
      registered := true;
      actions := [];
      var rest := waitingSdpClients;
      ghost var was := beforePlayClients;
      while rest != {}
        invariant rest <= waitingSdpClients
        invariant Value() == old(Value()).(registered := true,
                                           beforePlay := was + (waitingSdpClients - rest))
        invariant multiset(actions) == ToAll(DescribeReply(sdp), waitingSdpClients - rest)
        decreases rest
      {
        var es :| es in rest;
        ToAllAdd(DescribeReply(sdp), waitingSdpClients - rest, es);
        assert waitingSdpClients - (rest - {es}) == (waitingSdpClients - rest) + {es};
        actions := actions + [ReplyDescribe(es, sdp)];
        beforePlayClients := beforePlayClients + {es};
        rest := rest - {es};
      }
      assert waitingSdpClients - rest == waitingSdpClients;
      waitingSdpClients := {};
      sourceSdp := sdp;
    }

    /** `consumePktFunction`; `ok` is false when the packet does not fit the send buffer. */
    method ConsumePkt(data: seq<byte>) returns (ok: bool, actions: seq<Action>)
      requires sendBuffer.Length == SEND_BUFFER_SIZE
      modifies sendBuffer
      ensures Value() == old(Value())
      ensures ok <==> Sendable(data)
      ensures multiset(actions) == if ok then ToAll(Interleaved(Encode(data)), playingClients) else multiset{}
    {
      actions := [];
      ok := FillSendBuffer(sendBuffer, data);
      if !ok {
        return;
      }
      actions := SendEach(playingClients, Interleaved(sendBuffer[..|data| + HEADER]));
    }

    /** `processErrorFunction` */
    method ProcessError() returns (actions: seq<Action>)
      ensures multiset(actions)
           == ToAll(SocketClose, beforeDescribeClients) + ToAll(SocketClose, waitingSdpClients)
              + ToAll(SocketClose, beforePlayClients) + ToAll(SocketClose, playingClients)
    {
      var a := SendEach(beforeDescribeClients, SocketClose);
      var b := SendEach(waitingSdpClients, SocketClose);
      var c := SendEach(beforePlayClients, SocketClose);
      var d := SendEach(playingClients, SocketClose);
      actions := a + b + c + d;
    }
  }

  /** A loop over one client set with one action per client. */
  method SendEach(cs: set<Client>, b: Broadcast) returns (actions: seq<Action>)
    ensures multiset(actions) == ToAll(b, cs)
  {
    actions := [];
    var rest := cs;
    while rest != {}
      invariant rest <= cs
      invariant multiset(actions) == ToAll(b, cs - rest)
      decreases rest
    {
      var es :| es in rest;
      ToAllAdd(b, cs - rest, es);
      assert cs - (rest - {es}) == (cs - rest) + {es};
      actions := actions + [ActionTo(b, es)];
      rest := rest - {es};
    }
    assert cs - rest == cs;
  }

  class RtspService {
    var proxies: map<Key, ProxyInfo>
    var nextId: ProxyId
    ghost var owed: multiset<ProxyId>

    /** No two videos share a proxy object. */
    ghost predicate Valid()
      reads this, proxies.Values
    {
      && (forall k, j :: k in proxies && j in proxies && k != j ==> proxies[k] != proxies[j])
      && (forall k :: k in proxies ==> proxies[k].sendBuffer.Length == SEND_BUFFER_SIZE)
    }

    ghost function Value(): Service
      reads this, proxies.Values
    {
      Service(map k | k in proxies :: proxies[k].Value(), nextId, owed)
    }

    constructor ()
      ensures Valid() && Value() == INIT
    {
      proxies := map[];
      nextId, owed := 0, multiset{};
    }

    /** A change to one proxy object changes that entry of the abstract map only. */
    twostate lemma OneProxyChanged(k: Key)
      requires old(Valid()) && proxies == old(proxies) && k in proxies
      requires forall j :: j in proxies && j != k ==> unchanged(proxies[j])
      ensures Valid() && Value().live == old(Value()).live[k := proxies[k].Value()]
    {}

    method OnOptions(c: Client, uri: string) returns (code: int, actions: seq<Action>)
      requires Valid()
      modifies this, proxies.Values
      ensures Valid() && Value() == Next(old(Value()), Options(c, CmpStr(Parse(uri))))
      ensures code == 0 && multiset(actions) == Actions(old(Value()), Options(c, CmpStr(Parse(uri))))
    {
      var video := ParseUrl(uri);
      var k := CmpStr(video);
      if k !in proxies {
        AddProxy(k, c);
      } else {
        var proxy := proxies[k];
        proxy.beforeDescribeClients := proxy.beforeDescribeClients + {c};
        OneProxyChanged(k);
      }
      actions, code := [ReplyOptions(c)], 0;
    }

    method AddProxy(k: Key, c: Client)
      requires Valid() && k !in proxies
      modifies this
      ensures Valid() && nextId == old(nextId) + 1 && owed == old(owed)
      ensures Value().live == old(Value()).live[k := NewProxy(old(nextId), c)]
    {
      var pProxyInfo := new ProxyInfo(c, nextId);
      proxies := proxies[k := pProxyInfo];
      nextId := nextId + 1;
    }

    method OnDescribe(c: Client, uri: string) returns (code: int, actions: seq<Action>)
      requires Valid()
      modifies this, proxies.Values
      ensures Valid() && Value() == Next(old(Value()), Describe(c, CmpStr(Parse(uri))))
      ensures multiset(actions) == Actions(old(Value()), Describe(c, CmpStr(Parse(uri))))
      ensures code == if CmpStr(Parse(uri)) in old(proxies) then 0 else -1
    {
      var video := ParseUrl(uri);
      var k := CmpStr(video);
      if k !in proxies {
        return -1, [];
      }
      code := 0;
      actions := DescribeAt(k, c);
    }

    method DescribeAt(k: Key, c: Client) returns (actions: seq<Action>)
      requires Valid() && k in proxies
      modifies this`owed, proxies[k]
      ensures Valid() && Value().live == old(Value()).live[k := ProxyDescribe(old(proxies[k].Value()), c)]
      ensures var p := old(proxies[k].Value());
              if NeedsSource(p) then owed == old(owed) + multiset{p.id} && actions == [RegisterVideo(k, p.id)]
              else owed == old(owed) && actions == if p.sdp != "" then [ReplyDescribe(c, p.sdp)] else []
    {
      var proxy := proxies[k];
      var register, reply := proxy.Describe(c);
      OneProxyChanged(k);
      actions := [];
      if register {
        owed := owed + multiset{proxy.id};
        actions := [RegisterVideo(k, proxy.id)];
      } else if reply.Some? {
        actions := [ReplyDescribe(c, reply.value)];
      }
    }

    method OnPlay(c: Client, uri: string) returns (code: int, actions: seq<Action>)
      requires Valid()
      modifies proxies.Values
      ensures Valid() && Value() == Next(old(Value()), Play(c, CmpStr(Parse(uri))))
      ensures multiset(actions) == Actions(old(Value()), Play(c, CmpStr(Parse(uri))))
      ensures code == if CmpStr(Parse(uri)) in proxies then 0 else -1
    {
      var video := ParseUrl(uri);
      var k := CmpStr(video);
      if k !in proxies {
        return -1, [];
      }
      var status := proxies[k].Play(c);
      OneProxyChanged(k);
      return 0, [ReplyPlay(c, status)];
    }

    /** `processSdpFunction`, bound to the proxy of `k`. */
    method SdpCallback(k: Key, sdp: string) returns (actions: seq<Action>)
      requires Valid() && Enabled(Value(), SdpArrives(k, sdp))
      modifies this`owed, proxies.Values
      ensures Valid() && Value() == Next(old(Value()), SdpArrives(k, sdp))
      ensures multiset(actions) == Actions(old(Value()), SdpArrives(k, sdp))
    {
      actions := proxies[k].ProcessSdp(sdp);
      OneProxyChanged(k);
      owed := owed - multiset{proxies[k].id};
    }

    /** `consumePktFunction`, bound to the proxy of `k`. */
    method PacketCallback(k: Key, data: seq<byte>) returns (ok: bool, actions: seq<Action>)
      requires Valid() && k in proxies
      modifies proxies[k].sendBuffer
      ensures Valid() && Value() == old(Value())
      ensures ok <==> Enabled(old(Value()), Packet(k, data))
      ensures if ok then Value() == Next(old(Value()), Packet(k, data))
                         && multiset(actions) == Actions(old(Value()), Packet(k, data))
              else actions == []
    {
      ok, actions := proxies[k].ConsumePkt(data);
    }

    /** `processErrorFunction`, bound to the proxy of `k`. */
    method ErrorCallback(k: Key) returns (actions: seq<Action>)
      requires Valid() && Enabled(Value(), SourceError(k))
      ensures Valid() && Value() == Next(Value(), SourceError(k))
      ensures multiset(actions) == Actions(Value(), SourceError(k))
    {
      actions := proxies[k].ProcessError();
    }

    /** `Close`: `at` is where its search loop stops. */
    method Close(c: Client) returns (at: Option<Key>, actions: seq<Action>)
      requires Valid()
      modifies this, proxies.Values
      ensures Valid() && StopsAt(old(Value()), c, at)
      ensures Value() == Next(old(Value()), Sharing.Close(c, at))
      ensures multiset(actions) == Actions(old(Value()), Sharing.Close(c, at))
    {
      at := FindClient(c);
      actions := [];
      if at.Some? {
        actions := CloseAt(at.value, c);
      }
    }

    /** The search loop of `Close`, in map order. */
    method FindClient(c: Client) returns (at: Option<Key>)
      requires Valid()
      ensures StopsAt(Value(), c, at)
    {
      var rest := proxies.Keys;
      while rest != {}
        invariant rest <= proxies.Keys
        invariant forall k :: k in proxies && k !in rest ==> !Knows(proxies[k].Value(), c)
        decreases rest
      {
        LeastExists(rest);
        var k :| IsLeast(rest, k);
        if proxies[k].Lists(c) {
          return Some(k);
        }
        rest := rest - {k};
      }
      return None;
    }

    method CloseAt(k: Key, c: Client) returns (actions: seq<Action>)
      requires Valid() && k in proxies && Knows(proxies[k].Value(), c)
      modifies this, proxies[k]
      ensures Valid() && Value() == Sharing.CloseAt(old(Value()), c, k)
      ensures actions == if old(proxies[k].registered) && Abandoned(ProxyRemove(old(proxies[k].Value()), c))
                         then [UnregisterVideo(k)] else []
    {
      var proxy := proxies[k];
      proxy.Remove(c);
      OneProxyChanged(k);
      actions := [];
      var needUnregistered := proxy.waitingSdpClients == {}
        && proxy.beforePlayClients == {} && proxy.playingClients == {};
      if needUnregistered {
        if proxy.registered {
          actions := [UnregisterVideo(k)];
        }
        EraseProxy(k);
        assert old(Value()).live[k := proxy.Value()] - {k} == old(Value()).live - {k};
      }
    }

    method EraseProxy(k: Key)
      requires Valid() && k in proxies
      modifies this`proxies
      ensures Valid() && Value() == old(Value()).(live := old(Value()).live - {k})
    {
      proxies := proxies - {k};
    }
  }
}

/** Signalling sessions over every interleaving: none is lost and none is torn down twice. */
module LockSessions {
  import opened VideoUrl
  import opened Sharing
  import opened Producer
  import opened LockMachine
  import opened LockInvariant

  /** Some registered context holds session `x`. */
  ghost predicate Holding(p: Contexts, x: string) {
    exists k :: k in p.byKey && p.byKey[k].inviteId == x
  }

  ghost predicate OneHolder(p: Contexts) {
    forall k, j :: k in p.byKey && j in p.byKey && p.byKey[k].inviteId == p.byKey[j].inviteId != "" ==> k == j
  }

  ghost predicate LedgerOk(d: Data) {
    && "" !in d.issued
    && OneHolder(d.prod)
    && (forall k :: k in d.prod.byKey && d.prod.byKey[k].inviteId != ""
                    ==> d.prod.byKey[k].inviteId in d.issued && d.prod.byKey[k].inviteId !in d.torn)
    && (forall x :: x in d.torn ==> x in d.issued && d.torn[x] == 1)
    && (forall x :: x in d.acked ==> x in d.issued && (x in d.torn || Holding(d.prod, x)))
  }

  /** The reply carries a session no context has taken over yet. */
  predicate Carries(pc: Pc) { pc.ReplyWantContexts? || pc.ReplyHasContexts? }

  ghost predicate CarriedOk(d: Data, pc: Pc) {
    && (Carries(pc) ==>
          && pc.reply.inviteId in d.issued && pc.reply.inviteId !in d.torn
          && !Holding(d.prod, pc.reply.inviteId))
    && (ReplyPast(pc) ==> pc.reply.inviteId != "")
  }

  ghost predicate DistinctCarried(pc: Pc, other: Pc) {
    Carries(pc) && Carries(other) ==> pc.reply.inviteId != other.reply.inviteId
  }

  ghost predicate SessionsOk(s: Sys) {
    && LedgerOk(s.data)
    && (forall t: Tid :: CarriedOk(s.data, PcOf(s, t)))
    && (forall t: Tid, u: Tid :: t != u ==> DistinctCarried(PcOf(s, t), PcOf(s, u)))
  }

  lemma TakeOver(d: Data, k: Key, invite: string)
    requires LedgerOk(d) && k in d.prod.byKey && d.prod.byKey[k].inviteId == ""
    requires invite in d.issued && invite !in d.torn && !Holding(d.prod, invite)
    ensures LedgerOk(d.(prod := SetInvite(d.prod, k, invite)))
  {
    var p' := SetInvite(d.prod, k, invite);
    forall x | x in d.acked ensures x in d.issued && (x in d.torn || Holding(p', x)) {
      if x !in d.torn {
        var j :| j in d.prod.byKey && d.prod.byKey[j].inviteId == x;
        assert j != k;
        assert p'.byKey[j].inviteId == x;
      }
    }
  }

  lemma TearDownOnce(d: Data, k: Key)
    requires LedgerOk(d)
    ensures var torn := TornDownBy(d.prod, k);
            LedgerOk(d.(prod := Unregister(d.prod, k),
                        torn := if torn.Some? then d.torn + multiset{torn.value} else d.torn))
  {
    var torn := TornDownBy(d.prod, k);
    var p' := Unregister(d.prod, k);
    var torn' := if torn.Some? then d.torn + multiset{torn.value} else d.torn;
    forall x | x in d.acked ensures x in d.issued && (x in torn' || Holding(p', x)) {
      if x !in d.torn {
        var j :| j in d.prod.byKey && d.prod.byKey[j].inviteId == x;
        if j != k { assert p'.byKey[j].inviteId == x; }
      }
    }
  }

  lemma NewContext(d: Data, k: Key, id: ProxyId)
    requires LedgerOk(d)
    ensures LedgerOk(d.(prod := Register(d.prod, k, id), called := d.called + {id}))
  {
    var p' := Register(d.prod, k, id);
    forall x | x in d.acked ensures x in d.issued && (x in d.torn || Holding(p', x)) {
      if x !in d.torn {
        var j :| j in d.prod.byKey && d.prod.byKey[j].inviteId == x;
        assert p'.byKey[j].inviteId == x;
      }
    }
  }

  lemma Acknowledge(d: Data, pc: Pc)
    requires LedgerOk(d) && ThreadOk(d, pc) && pc.ReplyHasPeers? && pc.reply.inviteId != ""
    ensures LedgerOk(d.(acked := d.acked + {pc.reply.inviteId}))
  {}

  lemma WorkKeepsLedger(d: Data, pc: Pc, at: Option<Key>)
    requires LedgerOk(d) && ThreadOk(d, pc) && CarriedOk(d, pc) && CanWork(d, pc, at)
    ensures LedgerOk(WorkData(d, pc, at))
  {
    if pc.HasContexts? && pc.op.OpDescribe? {
      NewContext(d, pc.k, pc.id);
    } else if pc.HasContexts? {
      TearDownOnce(d, pc.k);
    } else if pc.ReplyHasContexts? {
      if Alive(d.prod, pc.k, pc.cid) && pc.reply.ok { TakeOver(d, pc.k, pc.reply.inviteId); }
    } else if pc.ReplyHasPeers? {
      Acknowledge(d, pc);
    } else {
      assert LedgerOk(TakeStep(d, StepOf(d, pc, at)));
    }
  }

  lemma WorkKeepsCarried(d: Data, pc: Pc, at: Option<Key>, other: Pc)
    requires LedgerOk(d) && ThreadOk(d, pc) && CarriedOk(d, pc) && CanWork(d, pc, at)
    requires CarriedOk(d, other) && DistinctCarried(pc, other)
    ensures CarriedOk(WorkData(d, pc, at), other)
  {
    if Carries(other) {
      var x, d' := other.reply.inviteId, WorkData(d, pc, at);
      forall k | k in d'.prod.byKey ensures d'.prod.byKey[k].inviteId != x {
        assert k in d.prod.byKey ==> d.prod.byKey[k].inviteId != x;
        SessionsOnlyTakenOver(d, pc, at, k, x);
      }
      if pc.HasContexts? && pc.k in d.prod.byKey { assert d.prod.byKey[pc.k].inviteId != x; }
      TornOnlyFromContexts(d, pc, at, x);
    }
  }

  /** A context gets a session only from the reply it answers. */
  lemma SessionsOnlyTakenOver(d: Data, pc: Pc, at: Option<Key>, k: Key, x: string)
    requires CanWork(d, pc, at) && (k in d.prod.byKey ==> d.prod.byKey[k].inviteId != x) && x != ""
    requires pc.ReplyHasContexts? ==> pc.reply.inviteId != x
    ensures k in WorkData(d, pc, at).prod.byKey ==> WorkData(d, pc, at).prod.byKey[k].inviteId != x
  {}

  lemma TornOnlyFromContexts(d: Data, pc: Pc, at: Option<Key>, x: string)
    requires CanWork(d, pc, at) && x in d.issued && x !in d.torn
    requires pc.HasContexts? && pc.k in d.prod.byKey ==> d.prod.byKey[pc.k].inviteId != x
    ensures x in WorkData(d, pc, at).issued && x !in WorkData(d, pc, at).torn
  {}

  lemma WorkKeepsSessions(s: Sys, w: bool, t: Tid, at: Option<Key>)
    requires SysOk(s) && SessionsOk(s) && Can(s, w, Work(t, at))
    ensures SessionsOk(After(s, w, Work(t, at)))
  {
    var d, pc, s' := s.data, PcOf(s, t), After(s, w, Work(t, at));
    assert ThreadOk(d, pc) && CarriedOk(d, pc);
    WorkKeepsLedger(d, pc, at);
    NextCarriesNothing(d, pc, at);
    forall u: Tid ensures CarriedOk(s'.data, PcOf(s', u)) {
      if u != t {
        assert PcOf(s', u) == PcOf(s, u);
        assert DistinctCarried(pc, PcOf(s, u)) && CarriedOk(d, PcOf(s, u));
        WorkKeepsCarried(d, pc, at, PcOf(s, u));
      }
    }
    forall u: Tid, v: Tid | u != v ensures DistinctCarried(PcOf(s', u), PcOf(s', v)) {
      if u != t && v != t {
        assert PcOf(s', u) == PcOf(s, u) && PcOf(s', v) == PcOf(s, v);
        assert DistinctCarried(PcOf(s, u), PcOf(s, v));
      }
    }
  }

  lemma NextCarriesNothing(d: Data, pc: Pc, at: Option<Key>)
    requires LedgerOk(d) && CarriedOk(d, pc) && CanWork(d, pc, at)
    ensures !Carries(WorkPc(d, pc, at))
    ensures ReplyPast(WorkPc(d, pc, at)) ==> WorkPc(d, pc, at).reply.inviteId != ""
  {}

  lemma AnswerKeepsSessions(s: Sys, w: bool, t: Tid, cid: CtxId, reply: Reply)
    requires SessionsOk(s) && Can(s, w, Answer(t, cid, reply))
    ensures SessionsOk(After(s, w, Answer(t, cid, reply)))
  {
    var s' := After(s, w, Answer(t, cid, reply));
    forall x | x in s.data.acked ensures x in s'.data.torn || Holding(s'.data.prod, x) {
      if x !in s.data.torn {
        var k :| k in s.data.prod.byKey && s.data.prod.byKey[k].inviteId == x;
        assert s'.data.prod.byKey[k].inviteId == x;
      }
    }
    forall u: Tid ensures CarriedOk(s'.data, PcOf(s', u)) {
      assert CarriedOk(s.data, PcOf(s, u));
    }
    forall u: Tid, v: Tid | u != v ensures DistinctCarried(PcOf(s', u), PcOf(s', v)) {
      assert DistinctCarried(PcOf(s, u), PcOf(s, v));
      assert CarriedOk(s.data, PcOf(s, u)) && CarriedOk(s.data, PcOf(s, v));
    }
  }

  lemma MoveKeepsSessions(s: Sys, t: Tid, pc': Pc)
    requires SessionsOk(s)
    requires (!Carries(pc') && !ReplyPast(pc'))
          || ((Carries(pc') <==> Carries(PcOf(s, t))) && (ReplyPast(pc') <==> ReplyPast(PcOf(s, t)))
              && pc'.reply == PcOf(s, t).reply)
    ensures SessionsOk(s.(pcs := s.pcs[t := pc']))
  {
    var s' := s.(pcs := s.pcs[t := pc']);
    forall u: Tid ensures CarriedOk(s'.data, PcOf(s', u)) {
      assert CarriedOk(s.data, PcOf(s, u));
    }
    forall u: Tid, v: Tid | u != v ensures DistinctCarried(PcOf(s', u), PcOf(s', v)) {
      assert DistinctCarried(PcOf(s, u), PcOf(s, v));
    }
  }

  lemma StepKeepsSessions(s: Sys, w: bool, a: Step)
    requires SysOk(s) && SessionsOk(s) && Can(s, w, a)
    ensures SessionsOk(After(s, w, a))
  {
    match a
    case Call(t, op) => MoveKeepsSessions(s, t, WantServers(op));
    case Answer(t, cid, reply) => AnswerKeepsSessions(s, w, t, cid, reply);
    case Arrive(t, peer, data) => MoveKeepsSessions(s, t, PacketWantPeers(peer, data));
    case Acquire(t) => MoveKeepsSessions(s, t, Granted(PcOf(s, t)));
    case Work(t, at) => WorkKeepsSessions(s, w, t, at);
  }

  lemma {:induction false} SessionsAlways(h: History, w: bool)
    requires Possible(h, w)
    ensures SessionsOk(StateOf(h, w))
  {
    if h.More? {
      SessionsAlways(h.before, w);
      Always(h.before, w);
      StepKeepsSessions(StateOf(h.before, w), w, h.a);
    }
  }

  /** Every acknowledged session is at all times either held by exactly one registered context or torn
      down, never both and never neither; none is torn down twice. */
  lemma SessionConservation(h: History, w: bool, x: string)
    requires Possible(h, w)
    ensures var d := StateOf(h, w).data;
            && d.torn[x] <= 1
            && (x in d.acked ==> (x in d.torn <==> !Holding(d.prod, x)))
            && OneHolder(d.prod)
  {
    SessionsAlways(h, w);
  }
}

/** What the locks keep apart: which critical sections can touch the same memory at the same time, one of them
    writing. */
module LockRaces {
  import opened Sharing
  import opened LockMachine
  import opened LockInvariant

  /** `mVideoRequest2ProxyInfo`, the four client sets of a proxy, and its send buffer. */
  datatype Memory = ProxyMap | Sets(id: ProxyId) | SendBuffer(id: ProxyId)

  datatype Access = Untouched | Reads | Writes

  /** What a thread at work does to a piece of memory.  `Close` looks into every proxy's sets, edits one of them and
      may erase the proxy, up to the end of its unregistration. */
  function Touches(pc: Pc, m: Memory): Access {
    match m
    case ProxyMap =>
      if pc.Ready? then (if pc.op.OpOptions? || pc.op.OpClose? then Writes else Reads)
      else if (pc.WantContexts? || pc.HasContexts?) && pc.op.OpClose? then Writes
      else Untouched
    case Sets(id) =>
      if pc.Ready? && pc.op.OpClose? then Writes
      else if (pc.HasClients? || pc.ReplyHasClients?) && pc.id == id then Writes
      else if (pc.PacketHasClients? || pc.ReplyFails?) && pc.id == id then Reads
      else if pc.HasContexts? && pc.op.OpDescribe? && pc.id == id then Reads
      else Untouched
    case SendBuffer(id) => if pc.PacketHasClients? && pc.id == id then Writes else Untouched
  }

  predicate Race(pc: Pc, other: Pc, m: Memory) {
    && Touches(pc, m) != Untouched && Touches(other, m) != Untouched
    && (Touches(pc, m) == Writes || Touches(other, m) == Writes)
  }

  /** The pairs the locks leave unprotected, `pc` being the one that lacks a lock. */
  predicate Unguarded(pc: Pc, other: Pc, m: Memory) {
    match m
    case ProxyMap => pc.Ready? && pc.op.OpPlay? && other.Ready? && other.op.OpOptions?
    case Sets(id) =>
      || (pc.Ready? && pc.op.OpClose? && (other.PacketHasClients? || other.ReplyHasClients? || other.ReplyFails?))
      || (pc.ReplyFails? && (other.HasClients? || other.ReplyHasClients?))
    case SendBuffer(id) => pc.PacketHasClients? && other.PacketHasClients?
  }

  /** The exact list: two sections that race on a piece of memory can hold their locks together if and only if they are
      `Close` and a callback, the error callback and a section that writes, the lookup of PLAY and the insertion of
      OPTIONS, or two packets filling one send buffer. */
  lemma LocksAdmitIff(pc: Pc, other: Pc, m: Memory)
    requires Race(pc, other, m)
    ensures Compatible(pc, other) <==> Unguarded(pc, other, m) || Unguarded(other, pc, m)
  {
    if Unguarded(pc, other, m) || Unguarded(other, pc, m) {
      forall l ensures !Conflict(Held(pc, l), Held(other, l)) {}
    } else {
      var l := KeptApartBy(pc, other, m);
    }
  }

  /** The lock that keeps any other racing pair apart. */
  lemma KeptApartBy(pc: Pc, other: Pc, m: Memory) returns (l: Lock)
    requires Race(pc, other, m) && !Unguarded(pc, other, m) && !Unguarded(other, pc, m)
    ensures Conflict(Held(pc, l), Held(other, l))
  {
    if m.Sets? && Conflict(Held(pc, Clients(m.id)), Held(other, Clients(m.id))) { l := Clients(m.id); }
    else if Held(pc, Servers) == Unique || Held(other, Servers) == Unique { l := Servers; }
    else { l := Proxies; }
  }

  /** In every interleaving two threads race only in one of those pairs. */
  lemma RacesOnly(h: History, w: bool, t: Tid, u: Tid, m: Memory)
    requires Possible(h, w) && t != u && Race(PcOf(StateOf(h, w), t), PcOf(StateOf(h, w), u), m)
    ensures var pc, other := PcOf(StateOf(h, w), t), PcOf(StateOf(h, w), u);
            Unguarded(pc, other, m) || Unguarded(other, pc, m)
  {
    Always(h, w);
    var s := StateOf(h, w);
    assert Apart(PcOf(s, t), PcOf(s, u));
    LocksAdmitIff(PcOf(s, t), PcOf(s, u), m);
  }
}

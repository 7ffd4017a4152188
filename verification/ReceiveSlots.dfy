/** The two receive buffers of core/src/network_server.cpp and the slot allocator that walks them. */
module ReceiveSlots {
  import opened Framing

  const SLOT := 1600

  datatype Cursor = Cursor(index: int, pos: int)

  datatype Slot = Slot(index: int, offset: int)

  const START := Cursor(0, 0)

  /** The critical section in the receive loop: the slot handed out and the cursor left behind. */
  function Take(size: int, c: Cursor): (Slot, Cursor) {
    var d := if c.pos + SLOT >= size then Cursor(1 - c.index, 0) else c;
    (Slot(d.index, d.pos), d.(pos := d.pos + SLOT))
  }

  function CursorAt(size: int, n: nat): Cursor {
    if n == 0 then START else Take(size, CursorAt(size, n - 1)).1
  }

  /** The n-th slot the allocator hands out. */
  function SlotAt(size: int, n: nat): Slot { Take(size, CursorAt(size, n)).0 }

  /** How many slots fit into one buffer of `size` bytes. */
  function PerBuffer(size: int): int { (size - 1) / SLOT }

  lemma DivStep(n: nat, m: int)
    requires m > 0
    ensures if n % m == m - 1 then (n + 1) % m == 0 && (n + 1) / m == n / m + 1
            else (n + 1) % m == n % m + 1 && (n + 1) / m == n / m
  {
    var q, r := n / m, n % m;
    assert n == q * m + r;
    if r == m - 1 {
      assert n + 1 == (q + 1) * m;
      DivUnique(n + 1, m, q + 1, 0);
    } else {
      DivUnique(n + 1, m, q, r + 1);
    }
  }

  lemma DivUnique(n: int, m: int, q: int, r: int)
    requires m > 0 && n == q * m + r && 0 <= r < m
    ensures n / m == q && n % m == r
  {
    var q', r' := n / m, n % m;
    assert n == q' * m + r';
    Distribute(q', q, m);
    if q' > q { AtLeastOnce(q' - q, m); } else if q' < q { AtLeastOnce(q - q', m); Distribute(q, q', m); }
  }

  lemma Distribute(a: int, b: int, m: int)
    ensures (a - b) * m == a * m - b * m
  {}

  lemma AtLeastOnce(k: int, m: int)
    requires k >= 1 && m > 0
    ensures k * m >= m
  {}

  /** The allocator in closed form: it fills one buffer, slot by slot, then the other. */
  lemma {:induction false} ClosedForm(size: int, n: nat)
    requires size > SLOT
    ensures PerBuffer(size) == (size - 1) / 1600 > 0
    ensures var m := PerBuffer(size);
            && SlotAt(size, n) == Slot((n / m) % 2, 1600 * (n % m))
            && CursorAt(size, n + 1) == Cursor((n / m) % 2, 1600 * (n % m) + 1600)
  {
    var m := PerBuffer(size);
    if n == 0 {
      DivUnique(0, m, 0, 0);
    } else {
      ClosedForm(size, n - 1);
      DivStep(n - 1, m);
      BufferFull(size, (n - 1) % m);
    }
  }

  lemma BufferFull(size: int, r: int)
    requires size > SLOT && 0 <= r < PerBuffer(size)
    ensures SLOT * r + SLOT + SLOT >= size <==> r == PerBuffer(size) - 1
  {}

  /** Every slot lies inside its buffer. */
  lemma InBounds(size: int, n: nat)
    requires size > SLOT
    ensures SlotAt(size, n).index in {0, 1}
    ensures 0 <= SlotAt(size, n).offset && SlotAt(size, n).offset + SLOT < size
  {
    ClosedForm(size, n);
  }

  predicate Overlap(a: Slot, b: Slot) {
    a.index == b.index && a.offset < b.offset + SLOT && b.offset < a.offset + SLOT
  }

  /** Two slots overlap exactly when they are a whole number of double buffers apart, and then they are
      the same slot. */
  lemma OverlapIff(size: int, a: nat, b: nat)
    requires size > SLOT && a <= b
    ensures PerBuffer(size) > 0
    ensures Overlap(SlotAt(size, a), SlotAt(size, b)) <==> (b - a) % (2 * PerBuffer(size)) == 0
    ensures Overlap(SlotAt(size, a), SlotAt(size, b)) ==> SlotAt(size, a) == SlotAt(size, b)
  {
    var m := PerBuffer(size);
    ClosedForm(size, a);
    ClosedForm(size, b);
    SameSlotIff(a, b, m);
  }

  lemma SameSlotIff(a: nat, b: nat, m: int)
    requires m > 0 && a <= b
    ensures (a % m == b % m && (a / m) % 2 == (b / m) % 2) <==> (b - a) % (2 * m) == 0
  {
    if a % m == b % m && (a / m) % 2 == (b / m) % 2 {
      SameSlotApart(a, b, m);
    } else if (b - a) % (2 * m) == 0 {
      ApartSameSlot(a, b, m);
    }
  }

  lemma SameSlotApart(a: nat, b: nat, m: int)
    requires m > 0 && a <= b && a % m == b % m && (a / m) % 2 == (b / m) % 2
    ensures (b - a) % (2 * m) == 0
  {
    var qa, qb := a / m, b / m;
    var k := (qb - qa) / 2;
    assert qb - qa == 2 * k;
    Distribute(qb, qa, m);
    assert b - a == (2 * k) * m;
    Regroup(k, m);
    DivUnique(b - a, 2 * m, k, 0);
  }

  lemma ApartSameSlot(a: nat, b: nat, m: int)
    requires m > 0 && a <= b && (b - a) % (2 * m) == 0
    ensures a % m == b % m && (a / m) % 2 == (b / m) % 2
  {
    var k := (b - a) / (2 * m);
    assert b - a == k * (2 * m);
    Regroup(k, m);
    Distribute(a / m + 2 * k, a / m, m);
    assert b == (a / m + 2 * k) * m + a % m;
    DivUnique(b, m, a / m + 2 * k, a % m);
  }

  lemma Regroup(k: int, m: int)
    ensures (2 * k) * m == k * (2 * m)
  {}

  /** A slot is disjoint from the next 2N-1 slots, N being the number of slots per buffer. */
  lemma ReuseDistance(size: int, a: nat, b: nat)
    requires size > SLOT && a != b && a - b < 2 * PerBuffer(size) && b - a < 2 * PerBuffer(size)
    ensures !Overlap(SlotAt(size, a), SlotAt(size, b))
  {
    var lo, hi := if a < b then a else b, if a < b then b else a;
    OverlapIff(size, lo, hi);
    DivUnique(hi - lo, 2 * PerBuffer(size), 0, hi - lo);
  }

  // ---------------------------------------------------------------- 32-bit sizes

  const INT_MAX := 0x7fff_ffff

  /** `eventNum * 20 * 1024 * 1024` fits a 32-bit `int`, and so does every position, for exactly 1 to 102
      event loops. */
  lemma BufferSizeFits(loops: int)
    requires loops >= 1
    ensures loops * 20 * 1024 * 1024 <= INT_MAX <==> loops <= 102
    ensures loops * 20 * 1024 * 1024 > SLOT
    ensures loops <= 102 ==>
              forall n: nat :: CursorAt(loops * 20 * 1024 * 1024, n).pos + SLOT <= INT_MAX
  {}

  // ---------------------------------------------------------------- memory

  ghost predicate BuffersOk(mem: seq<seq<byte>>, size: int) {
    |mem| == 2 && |mem[0]| == size && |mem[1]| == size
  }

  function Stored(mem: seq<seq<byte>>, s: Slot, data: seq<byte>): seq<seq<byte>>
    requires 0 <= s.index < |mem| && 0 <= s.offset && s.offset + |data| <= |mem[s.index]|
  {
    var b := mem[s.index];
    mem[s.index := b[..s.offset] + data + b[s.offset + |data|..]]
  }

  function Loaded(mem: seq<seq<byte>>, s: Slot, len: nat): seq<byte>
    requires 0 <= s.index < |mem| && 0 <= s.offset && s.offset + len <= |mem[s.index]|
  {
    mem[s.index][s.offset..s.offset + len]
  }

  lemma StoreThenLoad(mem: seq<seq<byte>>, size: int, s: Slot, data: seq<byte>, o: Slot, len: nat)
    requires BuffersOk(mem, size) && s.index in {0, 1} && o.index in {0, 1} && |data| <= SLOT && len <= SLOT
    requires 0 <= s.offset && s.offset + SLOT <= size && 0 <= o.offset && o.offset + SLOT <= size
    ensures BuffersOk(Stored(mem, s, data), size)
    ensures Loaded(Stored(mem, s, data), s, |data|) == data
    ensures !Overlap(s, o) ==> Loaded(Stored(mem, s, data), o, len) == Loaded(mem, o, len)
  {
    var b := mem[s.index];
    var b' := b[..s.offset] + data + b[s.offset + |data|..];
    assert Stored(mem, s, data)[s.index] == b';
    assert b'[s.offset..s.offset + |data|] == data;
    if !Overlap(s, o) && s.index == o.index {
      assert b'[o.offset..o.offset + len] == b[o.offset..o.offset + len];
    }
  }

  /** The buffers and the cursor as they are, changed in place. */
  class ReceiveBuffers {
    const size: int
    const first: array<byte>
    const second: array<byte>
    var receiveBufferIndex: int
    var curPosition: int

    ghost predicate Valid()
      reads this
    {
      first.Length == second.Length == size > SLOT && first != second && receiveBufferIndex in {0, 1}
    }

    ghost function Value(): Cursor
      reads this
    {
      Cursor(receiveBufferIndex, curPosition)
    }

    ghost function Memory(): seq<seq<byte>>
      reads this, first, second
    {
      [first[..], second[..]]
    }

    constructor (size: nat)
      requires size > SLOT
      ensures Valid() && Value() == START && this.size == size
    {
      this.size := size;
      first := new byte[size](_ => 0);
      second := new byte[size](_ => 0);
      receiveBufferIndex, curPosition := 0, 0;
    }

    method TakeSlot() returns (s: Slot)
      requires Valid()
      modifies this
      ensures Valid() && (s, Value()) == Take(size, old(Value()))
    {
      if curPosition + SLOT >= size {
        receiveBufferIndex := 1 - receiveBufferIndex;
        curPosition := 0;
      }
      s := Slot(receiveBufferIndex, curPosition);
      curPosition := curPosition + SLOT;
    }

    /** `recvfrom` into a slot. */
    method Store(s: Slot, data: seq<byte>)
      requires Valid() && s.index in {0, 1} && 0 <= s.offset && s.offset + |data| <= size
      modifies first, second
      ensures Memory() == Stored(old(Memory()), s, data)
    {
      var buf := if s.index == 0 then first else second;
      var i := 0;
      while i < |data|
        invariant 0 <= i <= |data|
        invariant buf[..] == old(buf[..s.offset]) + data[..i] + old(buf[s.offset + i..])
        modifies buf
      {
        buf[s.offset + i] := data[i];
        i := i + 1;
      }
      assert data[..i] == data;
      if s.index == 0 {
        assert second[..] == old(second[..]);
      } else {
        assert first[..] == old(first[..]);
      }
    }
  }
}

/** `FileVideoContext::FFGetFrame` (core/src/rtp_producer.cpp): one timer tick reads packets until it has
    a video packet, repairs its timestamps and hands it to the muxer. */
module FrameLoop {
  import opened VideoUrl

  const AVERROR_EOF := -541478725

  /** A demuxed packet, its times already in the output time base. */
  datatype Packet = Packet(stream: int, pts: Option<int>, dts: Option<int>, duration: int)

  datatype Source = Source(
    packets: seq<Packet>, videoStream: int, repeatedly: bool, timeBaseNum: int, timeBaseDen: int, fpsNum: int, fpsDen: int)

  /** What ffmpeg answers during one tick: the i-th iteration of the loop reads, seeks and writes with the
      i-th code (0 beyond the end).  A read code is a failure other than end of file. */
  datatype Faults = Faults(read: seq<int>, seek: seq<int>, write: seq<int>)

  /** The fields `FFGetFrame` keeps between ticks, and the position of the demuxer. */
  datatype Context = Context(pts: int, prePts: int, error: int, pos: nat)

  /** The result of a tick: the packet written, if any, with its new pts, whether the error callback was
      called, and whether the process died in an undefined division. */
  datatype Tick = Tick(ctx: Context, written: Option<(Packet, int)>, reported: bool, crashed: bool)

  datatype Outcome = Again(ctx: Context) | Done(tick: Tick)

  const FRESH := Context(0, 0, 0, 0)

  function Code(codes: seq<int>, i: nat): int { if i < |codes| then codes[i] else 0 }

  // ---------------------------------------------------------------- timestamps

  /** C division truncates toward zero. */
  function TruncDiv(a: int, b: int): int
    requires b != 0
  {
    if (a >= 0) == (b > 0) then Abs(a) / Abs(b) else -(Abs(a) / Abs(b))
  }

  function Abs(a: int): nat { if a < 0 then -a else a }

  const INT_MIN := -0x8000_0000
  const INT_MAX := 0x7fff_ffff

  /** A product of two `int`s, taken to wrap around on overflow. */
  function Wrap32(x: int): int { (x - INT_MIN) % 0x1_0000_0000 + INT_MIN }

  function Numerator(src: Source): int { Wrap32(src.timeBaseDen * src.fpsDen) }

  function Divisor(src: Source): int { Wrap32(src.fpsNum * src.timeBaseNum) }

  /** The division of the fill-in is defined: it traps on a zero divisor, and when the quotient is no `int`. */
  predicate Divisible(src: Source) { Divisor(src) != 0 && !(Numerator(src) == INT_MIN && Divisor(src) == -1) }

  /** Filling in the duration of this packet kills the process. */
  predicate Kills(src: Source, p: Packet) { p.duration == 0 && !Divisible(src) }

  function Duration(src: Source, p: Packet): int
    requires !Kills(src, p)
  {
    if p.duration == 0 then TruncDiv(Numerator(src), Divisor(src)) else p.duration
  }

  /** The three-way repair: (the counter `pts`, the pts the packet goes out with). */
  function Repaired(ctx: Context, p: Packet, duration: int): (int, int) {
    if p.pts.Some? && p.pts.value > ctx.prePts then (ctx.pts, p.pts.value)
    else if p.dts.None? then (ctx.pts + duration, ctx.pts + duration)
    else if p.dts.value <= ctx.prePts then (ctx.prePts + duration, ctx.prePts + duration)
    else (ctx.pts, p.dts.value)
  }

  // ---------------------------------------------------------------- the loop

  function Failed(ctx: Context, code: int): Tick { Tick(ctx.(error := code), None, true, false) }

  /** `av_read_frame` fails otherwise than by the end of the file. */
  predicate ReadFails(f: Faults, i: nat) { Code(f.read, i) < 0 && Code(f.read, i) != AVERROR_EOF }

  function Iteration(src: Source, f: Faults, ctx: Context, i: nat): Outcome
    requires ctx.pos <= |src.packets|
  {
    if ReadFails(f, i) then Done(Failed(ctx, Code(f.read, i)))
    else if ctx.pos == |src.packets| then
      if !src.repeatedly then Done(Failed(ctx, AVERROR_EOF))
      else if Code(f.seek, i) < 0 then Done(Failed(ctx, Code(f.seek, i)))
      else Again(ctx.(pos := 0))
    else
      var p := src.packets[ctx.pos];
      var next := ctx.(pos := ctx.pos + 1);
      if p.stream != src.videoStream then Again(next)
      else if Kills(src, p) then Done(Tick(next, None, false, true))
      else
        var (pts, out) := Repaired(ctx, p, Duration(src, p));
        var w := Code(f.write, i);
        Done(Tick(next.(pts := pts, prePts := out, error := w), Some((p, out)), w != 0, false))
  }

  predicate IsVideo(src: Source, i: int) {
    0 <= i < |src.packets| && src.packets[i].stream == src.videoStream
  }

  ghost predicate VideoFrom(src: Source, pos: nat) { exists i :: pos <= i && IsVideo(src, i) }

  /** The inputs on which the loop always ends. */
  ghost predicate Ends(src: Source) { !src.repeatedly || VideoFrom(src, 0) }

  /** The loop, from iteration `i` on.  Before a rewind no video packet is ahead; after it one is. */
  ghost function Loop(src: Source, f: Faults, ctx: Context, i: nat): (r: Tick)
    requires Ends(src) && ctx.pos <= |src.packets|
    ensures r.ctx.pos <= |src.packets|
    decreases if VideoFrom(src, ctx.pos) then 0 else 1, |src.packets| - ctx.pos
  {
    assert !VideoFrom(src, ctx.pos) ==> !IsVideo(src, ctx.pos);
    match Iteration(src, f, ctx, i)
    case Done(t) => t
    case Again(c) => Loop(src, f, c, i + 1)
  }

  ghost function GetFrame(src: Source, f: Faults, ctx: Context): (r: Tick)
    requires Ends(src) && ctx.pos <= |src.packets|
    ensures r.ctx.pos <= |src.packets|
  {
    if ctx.error != 0 then Tick(ctx, None, false, false) else Loop(src, f, ctx, 0)
  }

  // ---------------------------------------------------------------- termination

  /** `n` iterations from `ctx`; `None` when the loop has ended before that. */
  ghost function After(src: Source, f: Faults, ctx: Context, i: nat, n: nat): (r: Option<Context>)
    requires ctx.pos <= |src.packets|
    ensures r.Some? ==> r.value.pos <= |src.packets|
    decreases n
  {
    if n == 0 then Some(ctx)
    else match Iteration(src, f, ctx, i)
      case Done(_) => None
      case Again(c) => After(src, f, c, i + 1, n - 1)
  }

  lemma {:induction false} LoopEnds(src: Source, f: Faults, ctx: Context, i: nat) returns (n: nat)
    requires Ends(src) && ctx.pos <= |src.packets|
    ensures After(src, f, ctx, i, n).None?
    decreases if VideoFrom(src, ctx.pos) then 0 else 1, |src.packets| - ctx.pos
  {
    assert !VideoFrom(src, ctx.pos) ==> !IsVideo(src, ctx.pos);
    match Iteration(src, f, ctx, i)
    case Done(_) => n := 1;
    case Again(c) =>
      var m := LoopEnds(src, f, c, i + 1);
      n := m + 1;
  }

  const NO_FAULTS := Faults([], [], [])

  lemma {:induction false} LoopSpins(src: Source, ctx: Context, i: nat, n: nat)
    requires !Ends(src) && ctx.pos <= |src.packets|
    ensures After(src, NO_FAULTS, ctx, i, n).Some?
    decreases n
  {
    if n > 0 {
      assert !IsVideo(src, ctx.pos);
      LoopSpins(src, Iteration(src, NO_FAULTS, ctx, i).ctx, i + 1, n - 1);
    }
  }

  /** The position of the demuxer after `i` iterations through a repeated file without video packets. */
  ghost function PosAt(src: Source, pos: nat, i: nat): (r: nat)
    requires pos <= |src.packets|
    ensures r <= |src.packets|
  {
    if i == 0 then pos
    else if PosAt(src, pos, i - 1) == |src.packets| then 0
    else PosAt(src, pos, i - 1) + 1
  }

  ghost predicate StopsAt(src: Source, f: Faults, pos: nat, i: nat)
    requires pos <= |src.packets|
  {
    ReadFails(f, i) || (PosAt(src, pos, i) == |src.packets| && Code(f.seek, i) < 0)
  }

  /** A read, or a rewind at the end of the file, fails at some time. */
  ghost predicate Interrupted(src: Source, f: Faults, pos: nat)
    requires pos <= |src.packets|
  {
    exists i :: StopsAt(src, f, pos, i)
  }

  lemma {:induction false} AfterOneMore(src: Source, f: Faults, ctx: Context, i: nat, n: nat)
    requires ctx.pos <= |src.packets|
    ensures var now := After(src, f, ctx, i, n);
            After(src, f, ctx, i, n + 1)
            == if now.None? || Iteration(src, f, now.value, i + n).Done? then None
               else Some(Iteration(src, f, now.value, i + n).ctx)
    decreases n
  {
    if n > 0 && Iteration(src, f, ctx, i).Again? { AfterOneMore(src, f, Iteration(src, f, ctx, i).ctx, i + 1, n - 1); }
  }

  /** Without a video packet the loop goes on exactly until it is interrupted. */
  lemma {:induction false} SpinsUntilInterrupted(src: Source, f: Faults, ctx: Context, n: nat)
    requires !Ends(src) && ctx.pos <= |src.packets|
    ensures var now := After(src, f, ctx, 0, n);
            if exists i :: 0 <= i < n && StopsAt(src, f, ctx.pos, i) then now.None?
            else now.Some? && now.value.pos == PosAt(src, ctx.pos, n)
  {
    if n > 0 {
      SpinsUntilInterrupted(src, f, ctx, n - 1);
      AfterOneMore(src, f, ctx, 0, n - 1);
      var now := After(src, f, ctx, 0, n - 1);
      if now.Some? {
        assert !IsVideo(src, now.value.pos) && src.repeatedly;
        assert Iteration(src, f, now.value, n - 1).Done? <==> StopsAt(src, f, ctx.pos, n - 1);
        assert (exists i :: 0 <= i < n && StopsAt(src, f, ctx.pos, i)) <==> StopsAt(src, f, ctx.pos, n - 1);
      }
    }
  }

  /** The exact condition for one tick. */
  lemma TerminatesIff(src: Source, f: Faults, ctx: Context)
    requires ctx.pos <= |src.packets|
    ensures Terminates(src, f, ctx) <==> Ends(src) || Interrupted(src, f, ctx.pos)
  {
    if Ends(src) {
      var n := LoopEnds(src, f, ctx, 0);
    } else {
      if i: nat :| StopsAt(src, f, ctx.pos, i) { SpinsUntilInterrupted(src, f, ctx, i + 1); }
      if n: nat :| After(src, f, ctx, 0, n).None? { SpinsUntilInterrupted(src, f, ctx, n); }
    }
  }

  ghost predicate Terminates(src: Source, f: Faults, ctx: Context)
    requires ctx.pos <= |src.packets|
  {
    exists n :: After(src, f, ctx, 0, n).None?
  }

  /** A tick ends whatever ffmpeg answers if and only if the file is not repeated or has a video packet. */
  lemma TickEndsIff(src: Source, ctx: Context)
    requires ctx.pos <= |src.packets|
    ensures (forall f :: Terminates(src, f, ctx)) <==> Ends(src)
  {
    if Ends(src) {
      forall f ensures Terminates(src, f, ctx) {
        var n := LoopEnds(src, f, ctx, 0);
      }
    } else {
      forall n ensures After(src, NO_FAULTS, ctx, 0, n).Some? { LoopSpins(src, ctx, 0, n); }
      assert !Terminates(src, NO_FAULTS, ctx);
    }
  }

  // ---------------------------------------------------------------- one tick

  /** Where the search for a video packet ends: its position and the iteration that reads it; nothing when
      reading or rewinding fails first. */
  ghost function Search(src: Source, f: Faults, pos: nat, i: nat): (r: Option<(nat, nat)>)
    requires Ends(src) && pos <= |src.packets|
    ensures r.Some? ==> IsNextVideo(src, pos, r.value.0)
    decreases if VideoFrom(src, pos) then 0 else 1, |src.packets| - pos
  {
    assert !VideoFrom(src, pos) ==> !IsVideo(src, pos);
    if ReadFails(f, i) then None
    else if pos == |src.packets| then
      if src.repeatedly && Code(f.seek, i) >= 0 then Search(src, f, 0, i + 1) else None
    else if IsVideo(src, pos) then Some((pos, i))
    else Search(src, f, pos + 1, i + 1)
  }

  /** The video packet at `at` is the first from `pos` on, in a repeated file going round once. */
  ghost predicate IsNextVideo(src: Source, pos: nat, at: nat) {
    && IsVideo(src, at)
    && if pos <= at then forall j :: pos <= j < at ==> !IsVideo(src, j)
       else src.repeatedly && (forall j :: j >= pos || 0 <= j < at ==> !IsVideo(src, j))
  }

  /** A tick that does not find the latch set ends in one of three ways.  If the search fails: the error callback
      and nothing written.  If the packet found has no duration and none can be computed: a crash.  Otherwise
      that packet is written with repaired times, and the error callback runs exactly if the muxer refused it. */
  lemma {:induction false} LoopResult(src: Source, f: Faults, ctx: Context, i: nat)
    requires Ends(src) && ctx.pos <= |src.packets| && ctx.error == 0
    ensures var t, found := Loop(src, f, ctx, i), Search(src, f, ctx.pos, i);
            && (found.None? ==> t.written.None? && t.reported && !t.crashed && t.ctx.error < 0
                                && t.ctx.pts == ctx.pts && t.ctx.prePts == ctx.prePts)
            && (found.Some? ==> FoundResult(src, ctx, src.packets[found.value.0], Code(f.write, found.value.1), t)
                                && t.ctx.pos == found.value.0 + 1)
    decreases if VideoFrom(src, ctx.pos) then 0 else 1, |src.packets| - ctx.pos
  {
    assert !VideoFrom(src, ctx.pos) ==> !IsVideo(src, ctx.pos);
    match Iteration(src, f, ctx, i)
    case Done(t) =>
    case Again(c) => LoopResult(src, f, c, i + 1);
  }

  /** What a tick makes of the video packet it found, the muxer answering `code`. */
  ghost predicate FoundResult(src: Source, ctx: Context, p: Packet, code: int, t: Tick) {
    && (t.crashed <==> Kills(src, p))
    && (t.crashed ==> t.written.None? && !t.reported && t.ctx.error == 0
                      && t.ctx.pts == ctx.pts && t.ctx.prePts == ctx.prePts)
    && (!t.crashed ==>
          && t.written == Some((p, t.ctx.prePts))
          && (t.ctx.pts, t.ctx.prePts) == Repaired(ctx, p, Duration(src, p))
          && t.ctx.error == code && (t.reported <==> code != 0))
  }

  /** The loop on any input on which it ends: within `n` iterations from iteration `i` on. */
  ghost function Within(src: Source, f: Faults, ctx: Context, i: nat, n: nat): Tick
    requires ctx.pos <= |src.packets| && After(src, f, ctx, i, n).None?
    decreases n
  {
    match Iteration(src, f, ctx, i)
    case Done(t) => t
    case Again(c) => Within(src, f, c, i + 1, n - 1)
  }

  /** `t` is what a tick from `ctx` results in. */
  ghost predicate TickIs(src: Source, f: Faults, ctx: Context, t: Tick)
    requires ctx.pos <= |src.packets|
  {
    if ctx.error != 0 then t == Tick(ctx, None, false, false)
    else exists n :: After(src, f, ctx, 0, n).None? && Within(src, f, ctx, 0, n) == t
  }

  lemma {:induction false} WithinIsUnique(src: Source, f: Faults, ctx: Context, i: nat, n: nat, m: nat)
    requires ctx.pos <= |src.packets| && After(src, f, ctx, i, n).None? && After(src, f, ctx, i, m).None?
    ensures Within(src, f, ctx, i, n) == Within(src, f, ctx, i, m)
    decreases n
  {
    if Iteration(src, f, ctx, i).Again? { WithinIsUnique(src, f, Iteration(src, f, ctx, i).ctx, i + 1, n - 1, m - 1); }
  }

  lemma {:induction false} WithinIsLoop(src: Source, f: Faults, ctx: Context, i: nat, n: nat)
    requires Ends(src) && ctx.pos <= |src.packets| && After(src, f, ctx, i, n).None?
    ensures Within(src, f, ctx, i, n) == Loop(src, f, ctx, i)
    decreases n
  {
    if Iteration(src, f, ctx, i).Again? { WithinIsLoop(src, f, Iteration(src, f, ctx, i).ctx, i + 1, n - 1); }
  }

  /** A tick has at most one result, and it is that of `GetFrame` where every tick ends. */
  lemma TickIsUnique(src: Source, f: Faults, ctx: Context, t: Tick, u: Tick)
    requires ctx.pos <= |src.packets| && TickIs(src, f, ctx, t)
    ensures TickIs(src, f, ctx, u) ==> t == u
    ensures Ends(src) ==> t == GetFrame(src, f, ctx)
  {
    if ctx.error == 0 {
      var n :| After(src, f, ctx, 0, n).None? && Within(src, f, ctx, 0, n) == t;
      if TickIs(src, f, ctx, u) {
        var m :| After(src, f, ctx, 0, m).None? && Within(src, f, ctx, 0, m) == u;
        WithinIsUnique(src, f, ctx, 0, n, m);
      }
      if Ends(src) { WithinIsLoop(src, f, ctx, 0, n); }
    }
  }

  /** What the muxer is given for packet `p` with pts `out`: stream 0, the filled-in duration, and as dts its own if its
      pts needed no repair, else the new pts. */
  predicate Muxed(src: Source, prePts: int, p: Packet, out: int, pkt: Packet) {
    && pkt.stream == 0 && pkt.pts == Some(out)
    && (if p.duration != 0 then pkt.duration == p.duration else !Kills(src, p) && pkt.duration == Duration(src, p))
    && pkt.dts == if p.pts.Some? && p.pts.value > prePts then p.dts else Some(out)
  }

  /** The fields as they are, updated in place. */
  class FileVideoContext {
    var pts: int
    var prePts: int
    var error: int
    var pos: nat

    ghost function Value(): Context
      reads this
    {
      Context(pts, prePts, error, pos)
    }

    constructor ()
      ensures Value() == FRESH
    {
      pts, prePts, error, pos := 0, 0, 0, 0;
    }

    /** A tick, on exactly the inputs on which it ends. */
    method FFGetFrame(src: Source, f: Faults)
      returns (written: Option<(Packet, int)>, reported: bool, crashed: bool, muxed: Option<Packet>)
      requires pos <= |src.packets| && (error != 0 || Ends(src) || Interrupted(src, f, pos))
      modifies this
      ensures TickIs(src, f, old(Value()), Tick(Value(), written, reported, crashed))
      ensures muxed.Some? <==> written.Some?
      ensures muxed.Some? ==> Muxed(src, old(prePts), written.value.0, written.value.1, muxed.value)
    {
      written, reported, crashed, muxed := None, false, false, None;
      if error != 0 {
        return;
      }
      var getVideoPkt := false;
      var ret := 0;
      var i := 0;
      ghost var start := Value();
      TerminatesIff(src, f, start);
      ghost var n: nat :| After(src, f, start, 0, n).None?;
      ghost var result := Within(src, f, start, 0, n);
      while !getVideoPkt
        invariant pos <= |src.packets| && i <= n
        invariant !getVideoPkt ==> prePts == start.prePts && muxed == None
        invariant getVideoPkt ==> written.Some? && muxed.Some?
                                  && Muxed(src, start.prePts, written.value.0, written.value.1, muxed.value)
        invariant !getVideoPkt ==> written == None && error == 0 && After(src, f, Value(), i, n - i).None?
                                   && Within(src, f, Value(), i, n - i) == result
        invariant getVideoPkt ==> error == 0 && result == Tick(Value().(error := ret), written, ret != 0, false)
        decreases !getVideoPkt, n - i
      {
        ret := ReadFrame(src, f, i);
        if ret < 0 {
          if ret == AVERROR_EOF {
            if src.repeatedly {
              ret := Code(f.seek, i);
              if ret >= 0 {
                pos, i := 0, i + 1;
                continue;
              }
            } else {
              error := AVERROR_EOF;
            }
          }
          break;
        }
        var pkt := src.packets[pos];
        pos := pos + 1;
        if pkt.stream != src.videoStream {
          i := i + 1;
          continue;
        }
        getVideoPkt := true;
        pkt := pkt.(stream := 0);
        crashed, pkt := RepairTimes(src, pkt);
        if crashed {
          return;
        }
        written, muxed := Some((src.packets[pos - 1], pkt.pts.value)), Some(pkt);
        ret := Code(f.write, i);
      }
      if ret != 0 {
        error := ret;
        reported := true;
      }
    }

    /** `av_read_frame`: the code it returns here. */
    function ReadFrame(src: Source, f: Faults, i: nat): int
      reads this
    {
      if ReadFails(f, i) then Code(f.read, i)
      else if pos >= |src.packets| then AVERROR_EOF
      else 0
    }

    /** The timestamp part of the loop body, on the packet and the two counters. */
    method RepairTimes(src: Source, packet: Packet) returns (crashed: bool, pkt: Packet)
      modifies this`pts, this`prePts
      ensures crashed <==> Kills(src, packet)
      ensures crashed ==> Value() == old(Value())
      ensures !crashed ==>
                && pkt.pts.Some? && (pts, pkt.pts.value) == Repaired(old(Value()), packet, Duration(src, packet))
                && prePts == pkt.pts.value && Muxed(src, old(prePts), packet, prePts, pkt.(stream := 0))
                && pkt.stream == packet.stream
    {
      crashed, pkt := false, packet;
      if pkt.duration == 0 {
        var numerator, divisor := Wrap32(src.timeBaseDen * src.fpsDen), Wrap32(src.fpsNum * src.timeBaseNum);
        if divisor == 0 || (numerator == INT_MIN && divisor == -1) {
          return true, pkt;
        }
        pkt := pkt.(duration := TruncDiv(numerator, divisor));
      }
      if pkt.pts.None? || pkt.pts.value <= prePts {
        if pkt.dts.None? {
          pts := pts + pkt.duration;
          pkt := pkt.(pts := Some(pts), dts := Some(pts));
        } else if pkt.dts.value <= prePts {
          pts := prePts + pkt.duration;
          pkt := pkt.(pts := Some(pts), dts := Some(pts));
        } else {
          pkt := pkt.(pts := pkt.dts);
        }
      }
      prePts := pkt.pts.value;
    }
  }

  // ---------------------------------------------------------------- many ticks

  /** The state after a number of ticks, the packets written, how often the error callback ran, and whether a
      tick crashed, in which case none follows. */
  datatype Log = Log(ctx: Context, written: seq<(Packet, int)>, reports: nat, crashed: bool)

  ghost function Ticks(src: Source, fs: seq<Faults>, ctx: Context): (r: Log)
    requires Ends(src) && ctx.pos <= |src.packets|
    ensures r.ctx.pos <= |src.packets|
  {
    if fs == [] then Log(ctx, [], 0, false)
    else
      var t := GetFrame(src, fs[0], ctx);
      if t.crashed then Log(t.ctx, [], 0, true)
      else
        var rest := Ticks(src, fs[1..], t.ctx);
        Log(rest.ctx, (if t.written.Some? then [t.written.value] else []) + rest.written,
            (if t.reported then 1 else 0) + rest.reports, rest.crashed)
  }

  lemma {:induction false} LatchedTicks(src: Source, fs: seq<Faults>, ctx: Context)
    requires Ends(src) && ctx.pos <= |src.packets| && ctx.error != 0
    ensures Ticks(src, fs, ctx) == Log(ctx, [], 0, false)
  {
    if fs != [] { LatchedTicks(src, fs[1..], ctx); }
  }

  /** Over any number of ticks: each writes at most one frame, the error callback runs at most once, exactly when
      the latch is set, and never before a crash. */
  lemma {:induction false} ErrorLatch(src: Source, fs: seq<Faults>, ctx: Context)
    requires Ends(src) && ctx.pos <= |src.packets| && ctx.error == 0
    ensures var r := Ticks(src, fs, ctx);
            && |r.written| <= |fs| && r.reports <= 1 && (r.reports == 1 <==> r.ctx.error != 0)
            && (r.reports == 0 && !r.crashed ==> |r.written| == |fs|)
            && (r.crashed ==> r.reports == 0)
  {
    if fs != [] {
      var t := GetFrame(src, fs[0], ctx);
      LoopResult(src, fs[0], ctx, 0);
      if t.ctx.error != 0 { LatchedTicks(src, fs[1..], t.ctx); }
      else if !t.crashed { ErrorLatch(src, fs[1..], t.ctx); }
    }
  }

  lemma Associative<T>(a: seq<T>, b: seq<T>, c: seq<T>)
    ensures (a + b) + c == a + (b + c)
  {}

  lemma {:induction false} TicksSplit(src: Source, fs: seq<Faults>, gs: seq<Faults>, ctx: Context)
    requires Ends(src) && ctx.pos <= |src.packets| && !Ticks(src, fs, ctx).crashed
    ensures var a := Ticks(src, fs, ctx);
            var b := Ticks(src, gs, a.ctx);
            Ticks(src, fs + gs, ctx) == Log(b.ctx, a.written + b.written, a.reports + b.reports, b.crashed)
  {
    if fs == [] {
      assert fs + gs == gs;
    } else {
      assert (fs + gs)[1..] == fs[1..] + gs && (fs + gs)[0] == fs[0];
      var t := GetFrame(src, fs[0], ctx);
      TicksSplit(src, fs[1..], gs, t.ctx);
      var first := if t.written.Some? then [t.written.value] else [];
      var rest := Ticks(src, fs[1..], t.ctx);
      Associative(first, rest.written, Ticks(src, gs, rest.ctx).written);
    }
  }

  /** Once the error callback has run, further ticks write nothing and change nothing. */
  lemma SilentAfterError(src: Source, fs: seq<Faults>, gs: seq<Faults>)
    requires Ends(src) && Ticks(src, fs, FRESH).reports > 0
    ensures Ticks(src, fs + gs, FRESH) == Ticks(src, fs, FRESH)
  {
    ErrorLatch(src, fs, FRESH);
    TicksSplit(src, fs, gs, FRESH);
    LatchedTicks(src, gs, Ticks(src, fs, FRESH).ctx);
  }

  // ---------------------------------------------------------------- crashes

  /** No video packet of the file kills the process. */
  ghost predicate Harmless(src: Source) {
    forall i :: IsVideo(src, i) ==> !Kills(src, src.packets[i])
  }

  lemma {:induction false} HarmlessNeverCrashes(src: Source, fs: seq<Faults>, ctx: Context)
    requires Ends(src) && ctx.pos <= |src.packets| && Harmless(src)
    ensures !Ticks(src, fs, ctx).crashed
  {
    if fs != [] {
      if ctx.error == 0 { LoopResult(src, fs[0], ctx, 0); }
      HarmlessNeverCrashes(src, fs[1..], GetFrame(src, fs[0], ctx).ctx);
    }
  }

  /** Without faults the search stops at or before a video packet ahead of it. */
  lemma {:induction false} SearchStops(src: Source, pos: nat, i: nat, b: nat)
    requires Ends(src) && pos <= b && IsVideo(src, b)
    ensures var r := Search(src, NO_FAULTS, pos, i); r.Some? && pos <= r.value.0 <= b
    decreases b - pos
  {
    if !IsVideo(src, pos) { SearchStops(src, pos + 1, i + 1, b); }
  }

  lemma {:induction false} FatalPacketIsReached(src: Source, ctx: Context, b: nat) returns (fs: seq<Faults>)
    requires Ends(src) && ctx.pos <= b && ctx.error == 0 && IsVideo(src, b) && Kills(src, src.packets[b])
    ensures Ticks(src, fs, ctx).crashed
    decreases b - ctx.pos
  {
    SearchStops(src, ctx.pos, 0, b);
    LoopResult(src, NO_FAULTS, ctx, 0);
    var t := GetFrame(src, NO_FAULTS, ctx);
    fs := [NO_FAULTS];
    if !t.crashed {
      var rest := FatalPacketIsReached(src, t.ctx, b);
      fs := fs + rest;
      assert fs[1..] == rest;
    }
  }

  /** Reading a file never meets an undefined division, whatever ffmpeg answers, if and only if each of its video
      packets has a duration or the division of the fill-in is defined for the file. */
  lemma NeverCrashesIff(src: Source)
    requires Ends(src)
    ensures (forall fs :: !Ticks(src, fs, FRESH).crashed) <==> Harmless(src)
  {
    if Harmless(src) {
      forall fs ensures !Ticks(src, fs, FRESH).crashed { HarmlessNeverCrashes(src, fs, FRESH); }
    } else {
      var b :| IsVideo(src, b) && Kills(src, src.packets[b]);
      var fs := FatalPacketIsReached(src, FRESH, b);
    }
  }

  // ---------------------------------------------------------------- timestamps over ticks

  /** Each pts is greater than the one before it, and the first greater than `x`. */
  ghost predicate Increasing(x: int, ws: seq<(Packet, int)>)
    decreases |ws|
  {
    ws == [] || (x < ws[0].1 && Increasing(ws[0].1, ws[1..]))
  }

  lemma {:induction false} IncreasingPairwise(x: int, ws: seq<(Packet, int)>)
    decreases |ws|
    ensures Increasing(x, ws) <==>
            (forall i :: 0 <= i < |ws| ==> x < ws[i].1) && (forall i, j :: 0 <= i < j < |ws| ==> ws[i].1 < ws[j].1)
  {
    if ws != [] {
      IncreasingPairwise(ws[0].1, ws[1..]);
      assert forall i :: 0 < i < |ws| ==> ws[i] == ws[1..][i - 1];
      if Increasing(x, ws) {
        forall i, j | 0 <= i < j < |ws| ensures ws[i].1 < ws[j].1 {
          assert ws[j] == ws[1..][j - 1];
          if i > 0 { assert ws[i] == ws[1..][i - 1]; }
        }
      } else if x < ws[0].1 {
        assert forall i :: 0 <= i < |ws[1..]| ==> ws[1..][i] == ws[i + 1];
      }
    }
  }

  /** The packet moves time forward: in the missing-dts branch the counter has to pass `prePts`, and in the
      stale-dts branch the duration has to be positive. */
  predicate Advances(ctx: Context, p: Packet, duration: int) {
    p.pts.None? || p.pts.value <= ctx.prePts ==>
      && (p.dts.None? ==> ctx.pts + duration > ctx.prePts)
      && (p.dts.Some? && p.dts.value <= ctx.prePts ==> duration > 0)
  }

  lemma RepairAdvancesIff(ctx: Context, p: Packet, duration: int)
    ensures Repaired(ctx, p, duration).1 > ctx.prePts <==> Advances(ctx, p, duration)
  {}

  /** Every packet written over the ticks advances from the state it met. */
  ghost predicate AllAdvance(src: Source, fs: seq<Faults>, ctx: Context)
    requires Ends(src) && ctx.pos <= |src.packets|
  {
    fs != [] ==>
      var t := GetFrame(src, fs[0], ctx);
      && (t.written.Some? ==>
            !Kills(src, t.written.value.0) && Advances(ctx, t.written.value.0, Duration(src, t.written.value.0)))
      && (!t.crashed ==> AllAdvance(src, fs[1..], t.ctx))
  }

  lemma OneTick(src: Source, f: Faults, ctx: Context)
    requires Ends(src) && ctx.pos <= |src.packets|
    ensures var t := GetFrame(src, f, ctx);
            && (t.written.None? ==> t.ctx.prePts == ctx.prePts && t.ctx.pts == ctx.pts)
            && (t.written.Some? ==>
                var (p, out) := t.written.value;
                && !t.crashed && p in src.packets && p.stream == src.videoStream && !Kills(src, p)
                && (t.ctx.pts, out) == Repaired(ctx, p, Duration(src, p)) && t.ctx.prePts == out)
  {
    if ctx.error == 0 { LoopResult(src, f, ctx, 0); }
  }

  /** Over any number of ticks and rewinds the pts written are strictly increasing if and only if every
      written packet advances. */
  lemma {:induction false} IncreasingIff(src: Source, fs: seq<Faults>, ctx: Context)
    requires Ends(src) && ctx.pos <= |src.packets|
    ensures Increasing(ctx.prePts, Ticks(src, fs, ctx).written) <==> AllAdvance(src, fs, ctx)
  {
    if fs != [] {
      var t := GetFrame(src, fs[0], ctx);
      OneTick(src, fs[0], ctx);
      if t.crashed { return; }
      IncreasingIff(src, fs[1..], t.ctx);
      var rest := Ticks(src, fs[1..], t.ctx).written;
      if t.written.Some? {
        RepairAdvancesIff(ctx, t.written.value.0, Duration(src, t.written.value.0));
        assert ([t.written.value] + rest)[1..] == rest;
      } else {
        assert [] + rest == rest;
      }
    }
  }

  /** The counter never runs ahead of `prePts`, whatever the packets carry. */
  lemma {:induction false} CounterBehind(src: Source, fs: seq<Faults>, ctx: Context)
    requires Ends(src) && ctx.pos <= |src.packets| && ctx.pts <= ctx.prePts
    ensures Ticks(src, fs, ctx).ctx.pts <= Ticks(src, fs, ctx).ctx.prePts
  {
    if fs != [] {
      OneTick(src, fs[0], ctx);
      CounterBehind(src, fs[1..], GetFrame(src, fs[0], ctx).ctx);
    }
  }

  ghost predicate PositiveDurations(src: Source) {
    forall p :: p in src.packets && p.stream == src.videoStream ==> !Kills(src, p) && Duration(src, p) > 0
  }

  lemma {:induction false} DtsAdvance(src: Source, fs: seq<Faults>, ctx: Context)
    requires Ends(src) && ctx.pos <= |src.packets| && PositiveDurations(src)
    requires forall p :: p in src.packets && p.stream == src.videoStream ==> p.dts.Some?
    ensures AllAdvance(src, fs, ctx)
  {
    if fs != [] {
      OneTick(src, fs[0], ctx);
      DtsAdvance(src, fs[1..], GetFrame(src, fs[0], ctx).ctx);
    }
  }

  lemma {:induction false} BareAdvance(src: Source, fs: seq<Faults>, ctx: Context)
    requires Ends(src) && ctx.pos <= |src.packets| && PositiveDurations(src)
    requires forall p :: p in src.packets && p.stream == src.videoStream ==> p.dts.None? && p.pts.None?
    requires ctx.pts == ctx.prePts
    ensures AllAdvance(src, fs, ctx)
  {
    if fs != [] {
      OneTick(src, fs[0], ctx);
      BareAdvance(src, fs[1..], GetFrame(src, fs[0], ctx).ctx);
    }
  }

  /** From a fresh context, with positive durations: if every video packet carries a dts, or none carries
      any time at all, the pts written increase strictly over every number of ticks and rewinds. */
  lemma TimestampsIncrease(src: Source, fs: seq<Faults>)
    requires Ends(src) && PositiveDurations(src)
    requires (forall p :: p in src.packets && p.stream == src.videoStream ==> p.dts.Some?)
          || (forall p :: p in src.packets && p.stream == src.videoStream ==> p.dts.None? && p.pts.None?)
    ensures Increasing(0, Ticks(src, fs, FRESH).written)
    ensures Ticks(src, fs, FRESH).ctx.pts <= Ticks(src, fs, FRESH).ctx.prePts
  {
    if forall p :: p in src.packets && p.stream == src.videoStream ==> p.dts.Some? {
      DtsAdvance(src, fs, FRESH);
    } else {
      BareAdvance(src, fs, FRESH);
    }
    IncreasingIff(src, fs, FRESH);
    CounterBehind(src, fs, FRESH);
  }

  const MIXED := Source([Packet(0, Some(100), None, 1), Packet(0, None, None, 1)], 0, false, 1, 25, 25, 1)

  lemma MixedTicks()
    ensures Ends(MIXED) && GetFrame(MIXED, NO_FAULTS, FRESH) == Tick(Context(0, 100, 0, 1), Some((MIXED.packets[0], 100)), false, false)
    ensures GetFrame(MIXED, NO_FAULTS, Context(0, 100, 0, 1)) == Tick(Context(1, 1, 0, 2), Some((MIXED.packets[1], 1)), false, false)
  {
    assert Iteration(MIXED, NO_FAULTS, FRESH, 0).Done? && Iteration(MIXED, NO_FAULTS, Context(0, 100, 0, 1), 0).Done?;
  }

  /** Mixed files can step back: a timed packet followed by one without times. */
  lemma MixedTimesStepBack()
    ensures Ends(MIXED) && PositiveDurations(MIXED)
    ensures !Increasing(0, Ticks(MIXED, [NO_FAULTS, NO_FAULTS], FRESH).written)
  {
    MixedTicks();
    var one, c := [NO_FAULTS], Context(0, 100, 0, 1);
    assert [NO_FAULTS, NO_FAULTS][1..] == one && one[1..] == [];
    assert Ticks(MIXED, one, c).written == [(MIXED.packets[1], 1)] + [];
    var ws := [(MIXED.packets[0], 100)] + [(MIXED.packets[1], 1)];
    assert Ticks(MIXED, [NO_FAULTS, NO_FAULTS], FRESH).written == ws;
    assert ws[1..] == [(MIXED.packets[1], 1)];
  }

  /** The filled-in duration is positive exactly when the 32-bit products have the same sign and the divisor is not the
      larger one ... */
  lemma FilledDurationPositiveIff(src: Source, p: Packet)
    requires p.duration == 0 && !Kills(src, p)
    ensures Duration(src, p) > 0 <==>
            (Numerator(src) > 0) == (Divisor(src) > 0) && Abs(Numerator(src)) >= Abs(Divisor(src))
  {
    TruncPositiveIff(Numerator(src), Divisor(src));
  }

  lemma TruncPositiveIff(a: int, b: int)
    requires b != 0
    ensures TruncDiv(a, b) > 0 <==> (a > 0) == (b > 0) && Abs(a) >= Abs(b)
  {
    QuotientPositiveIff(Abs(a), Abs(b));
  }

  lemma QuotientPositiveIff(x: nat, y: nat)
    requires y > 0
    ensures x / y >= 0 && (x / y > 0 <==> x >= y)
  {
    if x < y { assert x / y == 0; } else { assert x == (x / y) * y + x % y; }
  }

  /** ... which, while nothing overflows, says that a frame lasts at least one tick of the time base. */
  lemma FrameLastsATick(src: Source, p: Packet)
    requires p.duration == 0 && src.fpsNum > 0 && src.timeBaseNum > 0 && src.fpsDen > 0 && src.timeBaseDen > 0
    requires src.timeBaseDen * src.fpsDen <= INT_MAX && src.fpsNum * src.timeBaseNum <= INT_MAX
    ensures !Kills(src, p)
    ensures Duration(src, p) > 0 <==> src.timeBaseDen * src.fpsDen >= src.fpsNum * src.timeBaseNum
  {
    Positive(src.timeBaseDen, src.fpsDen);
    Positive(src.fpsNum, src.timeBaseNum);
    InRangeStays(src.timeBaseDen * src.fpsDen);
    InRangeStays(src.fpsNum * src.timeBaseNum);
    FilledDurationPositiveIff(src, p);
  }

  lemma InRangeStays(x: int)
    requires INT_MIN <= x <= INT_MAX
    ensures Wrap32(x) == x
  {}

  lemma Positive(a: int, b: int)
    requires a > 0 && b > 0
    ensures a * b > 0
  {}
}

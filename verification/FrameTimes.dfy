/** Which packets the ticks of module `FrameLoop` write, and with which pts. */
module FrameTimes {
  import opened VideoUrl
  import opened FrameLoop

  // ---------------------------------------------------------------- the law of every tick

  predicate FreshPts(x: int, p: Packet) { p.pts.Some? && p.pts.value > x }

  predicate FreshDts(x: int, p: Packet) { p.dts.Some? && p.dts.value > x }

  /** The pts a packet is written with, after pts `x` and with the counter at `c`: its own if that is newer, else its
      dts if that is newer, else the duration after `x`, or after the counter if it carries no dts. */
  ghost predicate TimeOk(src: Source, x: int, c: int, p: Packet, out: int) {
    && !Kills(src, p)
    && (FreshPts(x, p) ==> out == p.pts.value)
    && (!FreshPts(x, p) && FreshDts(x, p) ==> out == p.dts.value)
    && (!FreshPts(x, p) && !FreshDts(x, p) && p.dts.Some? ==> out == x + Duration(src, p))
    && (!FreshPts(x, p) && p.dts.None? ==> out == c + Duration(src, p))
  }

  /** The counter follows the packets that were given a computed pts. */
  function CounterAfter(x: int, c: int, p: Packet, out: int): int {
    if FreshPts(x, p) || FreshDts(x, p) then c else out
  }

  ghost predicate TimesOk(src: Source, x: int, c: int, ws: seq<(Packet, int)>)
    decreases |ws|
  {
    ws != [] ==>
      && TimeOk(src, x, c, ws[0].0, ws[0].1)
      && TimesOk(src, ws[0].1, CounterAfter(x, c, ws[0].0, ws[0].1), ws[1..])
  }

  lemma TickTime(src: Source, f: Faults, ctx: Context)
    requires Ends(src) && ctx.pos <= |src.packets|
    ensures var t := GetFrame(src, f, ctx);
            && (t.written.None? ==> t.ctx.prePts == ctx.prePts && t.ctx.pts == ctx.pts)
            && (t.written.Some? ==>
                var (p, out) := t.written.value;
                && !t.crashed && TimeOk(src, ctx.prePts, ctx.pts, p, out)
                && t.ctx.prePts == out && t.ctx.pts == CounterAfter(ctx.prePts, ctx.pts, p, out))
  {
    OneTick(src, f, ctx);
  }

  /** Over any ticks, faults and rewinds every packet is written with the pts that law gives it. */
  lemma {:induction false} WrittenTimes(src: Source, fs: seq<Faults>, ctx: Context)
    requires Ends(src) && ctx.pos <= |src.packets|
    ensures TimesOk(src, ctx.prePts, ctx.pts, Ticks(src, fs, ctx).written)
  {
    if fs != [] {
      var t := GetFrame(src, fs[0], ctx);
      TickTime(src, fs[0], ctx);
      if t.crashed { return; }
      WrittenTimes(src, fs[1..], t.ctx);
      var rest := Ticks(src, fs[1..], t.ctx).written;
      if t.written.Some? { assert ([t.written.value] + rest)[1..] == rest; } else { assert [] + rest == rest; }
    }
  }

  lemma {:induction false} TimesOkAt(src: Source, x: int, c: int, ws: seq<(Packet, int)>, i: nat)
    requires TimesOk(src, x, c, ws) && i < |ws|
    ensures var prev := if i == 0 then x else ws[i - 1].1; exists d :: TimeOk(src, prev, d, ws[i].0, ws[i].1)
    decreases |ws|
  {
    if i == 0 { assert TimeOk(src, x, c, ws[0].0, ws[0].1); }
    else { TimesOkAt(src, ws[0].1, CounterAfter(x, c, ws[0].0, ws[0].1), ws[1..], i - 1); }
  }

  /** Packet by packet, `prev` being the pts written before it: its own pts if newer, else its dts if newer, else, if it
      has a dts, `prev` plus its duration. */
  lemma WrittenTimeAt(src: Source, fs: seq<Faults>, i: nat)
    requires Ends(src) && i < |Ticks(src, fs, FRESH).written|
    ensures var ws := Ticks(src, fs, FRESH).written;
            var (p, out) := ws[i];
            var prev := if i == 0 then 0 else ws[i - 1].1;
            && (p.pts.Some? && p.pts.value > prev ==> out == p.pts.value)
            && ((p.pts.None? || p.pts.value <= prev) && p.dts.Some? && p.dts.value > prev ==> out == p.dts.value)
            && ((p.pts.None? || p.pts.value <= prev) && p.dts.Some? && p.dts.value <= prev ==>
                !Kills(src, p) && out == prev + Duration(src, p))
  {
    WrittenTimes(src, fs, FRESH);
    TimesOkAt(src, 0, 0, Ticks(src, fs, FRESH).written, i);
  }

  // ---------------------------------------------------------------- three kinds of files

  function Sum(src: Source, ws: seq<(Packet, int)>): int
    requires forall w :: w in ws ==> !Kills(src, w.0)
  {
    if ws == [] then 0 else Duration(src, ws[0].0) + Sum(src, ws[1..])
  }

  lemma {:induction false} TimesOkHarmless(src: Source, x: int, c: int, ws: seq<(Packet, int)>)
    requires TimesOk(src, x, c, ws)
    ensures forall w :: w in ws ==> !Kills(src, w.0)
    decreases |ws|
  {
    if ws != [] {
      TimesOkHarmless(src, ws[0].1, CounterAfter(x, c, ws[0].0, ws[0].1), ws[1..]);
      forall w | w in ws ensures !Kills(src, w.0) { assert w == ws[0] || w in ws[1..]; }
    }
  }

  /** The packets' own pts increase from above `x`. */
  ghost predicate OwnTimesIncrease(x: int, ws: seq<(Packet, int)>)
    decreases |ws|
  {
    ws != [] ==> FreshPts(x, ws[0].0) && OwnTimesIncrease(ws[0].0.pts.value, ws[1..])
  }

  lemma {:induction false} OwnTimesKept(src: Source, x: int, c: int, ws: seq<(Packet, int)>, i: nat)
    requires TimesOk(src, x, c, ws) && OwnTimesIncrease(x, ws) && i < |ws|
    ensures ws[i].0.pts == Some(ws[i].1)
    decreases |ws|
  {
    if i > 0 { OwnTimesKept(src, ws[0].1, CounterAfter(x, c, ws[0].0, ws[0].1), ws[1..], i - 1); }
  }

  lemma {:induction false} BareTimesAdd(src: Source, x: int, ws: seq<(Packet, int)>, i: nat)
    requires TimesOk(src, x, x, ws) && i < |ws|
    requires forall w :: w in ws ==> w.0.pts.None? && w.0.dts.None? && !Kills(src, w.0)
    ensures ws[i].1 == x + Sum(src, ws[..i + 1])
    decreases |ws|
  {
    assert ws[..i + 1][1..] == ws[1..][..i];
    assert ws[0] in ws;
    if i > 0 { BareTimesAdd(src, ws[0].1, ws[1..], i - 1); }
  }

  /** Nothing the packet carries is newer than `x`, and it carries a dts. */
  ghost predicate Stale(src: Source, x: int, p: Packet) {
    p.dts.Some? && !FreshPts(x, p) && !FreshDts(x, p) && !Kills(src, p) && Duration(src, p) >= 0
  }

  lemma {:induction false} StaleTimesFollow(src: Source, x: int, y: int, c: int, ws: seq<(Packet, int)>, i: nat)
    requires TimesOk(src, y, c, ws) && i < |ws| && x <= y
    requires forall w :: w in ws ==> Stale(src, x, w.0)
    ensures !Kills(src, ws[i].0) && ws[i].1 == (if i == 0 then y else ws[i - 1].1) + Duration(src, ws[i].0)
    decreases |ws|
  {
    assert ws[0] in ws && Stale(src, x, ws[0].0);
    if i > 0 { StaleTimesFollow(src, x, ws[0].1, CounterAfter(y, c, ws[0].0, ws[0].1), ws[1..], i - 1); }
  }

  lemma {:induction false} WrittenFromFile(src: Source, fs: seq<Faults>, ctx: Context)
    requires Ends(src) && ctx.pos <= |src.packets|
    ensures forall w :: w in Ticks(src, fs, ctx).written ==> w.0 in src.packets && w.0.stream == src.videoStream
  {
    if fs != [] {
      var t := GetFrame(src, fs[0], ctx);
      OneTick(src, fs[0], ctx);
      if !t.crashed { WrittenFromFile(src, fs[1..], t.ctx); }
    }
  }

  /** A file without any times is written with the running sums of its durations. */
  lemma BareFileTimes(src: Source, fs: seq<Faults>, i: nat)
    requires Ends(src) && i < |Ticks(src, fs, FRESH).written|
    requires forall p :: p in src.packets && p.stream == src.videoStream ==> p.pts.None? && p.dts.None?
    ensures var ws := Ticks(src, fs, FRESH).written;
            && (forall w :: w in ws ==> !Kills(src, w.0))
            && ws[i].1 == Sum(src, ws[..i + 1])
  {
    var ws := Ticks(src, fs, FRESH).written;
    WrittenTimes(src, fs, FRESH);
    TimesOkHarmless(src, 0, 0, ws);
    WrittenFromFile(src, fs, FRESH);
    BareTimesAdd(src, 0, ws, i);
  }

  /** A file none of whose times is newer than the last pts is written, from there on, with each packet at the previous
      pts plus its duration. */
  lemma StaleFileTimes(src: Source, fs: seq<Faults>, ctx: Context, i: nat)
    requires Ends(src) && ctx.pos <= |src.packets| && i < |Ticks(src, fs, ctx).written|
    requires forall p :: p in src.packets && p.stream == src.videoStream ==> Stale(src, ctx.prePts, p)
    ensures var ws := Ticks(src, fs, ctx).written;
            !Kills(src, ws[i].0) && ws[i].1 == (if i == 0 then ctx.prePts else ws[i - 1].1) + Duration(src, ws[i].0)
  {
    WrittenTimes(src, fs, ctx);
    WrittenFromFile(src, fs, ctx);
    StaleTimesFollow(src, ctx.prePts, ctx.prePts, ctx.pts, Ticks(src, fs, ctx).written, i);
  }

  // ---------------------------------------------------------------- the first pass

  /** The video packets of the file from position `pos` on. */
  ghost function VideosFrom(src: Source, pos: nat): seq<Packet>
    requires pos <= |src.packets|
    decreases |src.packets| - pos
  {
    if pos == |src.packets| then []
    else (if IsVideo(src, pos) then [src.packets[pos]] else []) + VideosFrom(src, pos + 1)
  }

  function PacketsOf(ws: seq<(Packet, int)>): (r: seq<Packet>)
    ensures |r| == |ws| && forall i :: 0 <= i < |ws| ==> r[i] == ws[i].0
  {
    if ws == [] then [] else [ws[0].0] + PacketsOf(ws[1..])
  }

  /** `n` ticks without faults. */
  ghost function Clean(n: nat): seq<Faults> { seq(n, _ => NO_FAULTS) }

  lemma {:induction false} SearchIsFirst(src: Source, pos: nat, i: nat)
    requires Ends(src) && pos <= |src.packets| && VideosFrom(src, pos) != []
    ensures var r := Search(src, NO_FAULTS, pos, i);
            && r.Some? && r.value.0 < |src.packets|
            && VideosFrom(src, pos) == [src.packets[r.value.0]] + VideosFrom(src, r.value.0 + 1)
    decreases |src.packets| - pos
  {
    if !IsVideo(src, pos) { SearchIsFirst(src, pos + 1, i + 1); }
  }

  /** Without faults the next video packet of the file is written, and the demuxer stands behind it. */
  lemma CleanTick(src: Source, ctx: Context)
    requires Ends(src) && Harmless(src) && ctx.pos <= |src.packets| && ctx.error == 0 && VideosFrom(src, ctx.pos) != []
    ensures var t := GetFrame(src, NO_FAULTS, ctx);
            && t.written.Some? && !t.crashed && !t.reported && t.ctx.error == 0
            && VideosFrom(src, ctx.pos) == [t.written.value.0] + VideosFrom(src, t.ctx.pos)
  {
    SearchIsFirst(src, ctx.pos, 0);
    LoopResult(src, NO_FAULTS, ctx, 0);
  }

  /** The first `n` ticks without faults write the next `n` video packets of the file, in order and once each. */
  lemma {:induction false} PassInOrder(src: Source, ctx: Context, n: nat)
    requires Ends(src) && Harmless(src) && ctx.pos <= |src.packets| && ctx.error == 0 && n <= |VideosFrom(src, ctx.pos)|
    ensures var r := Ticks(src, Clean(n), ctx);
            && PacketsOf(r.written) == VideosFrom(src, ctx.pos)[..n]
            && r.ctx.error == 0 && !r.crashed && r.reports == 0 && VideosFrom(src, r.ctx.pos) == VideosFrom(src, ctx.pos)[n..]
    decreases n
  {
    if n > 0 {
      var t, v := GetFrame(src, NO_FAULTS, ctx), VideosFrom(src, ctx.pos);
      CleanTick(src, ctx);
      assert v[1..] == VideosFrom(src, t.ctx.pos);
      PassInOrder(src, t.ctx, n - 1);
      var rest := Ticks(src, Clean(n - 1), t.ctx);
      CleanTicks(src, ctx, n);
      PacketsOfCons(t.written.value, rest.written);
      assert v[..n] == [v[0]] + v[1..][..n - 1] && v[n..] == v[1..][n - 1..];
    }
  }

  /** The first of `n` ticks and the rest. */
  lemma CleanTicks(src: Source, ctx: Context, n: nat)
    requires Ends(src) && ctx.pos <= |src.packets| && n > 0
    requires GetFrame(src, NO_FAULTS, ctx).written.Some? && !GetFrame(src, NO_FAULTS, ctx).crashed
    requires !GetFrame(src, NO_FAULTS, ctx).reported
    ensures var t := GetFrame(src, NO_FAULTS, ctx);
            var r, rest := Ticks(src, Clean(n), ctx), Ticks(src, Clean(n - 1), t.ctx);
            r == Log(rest.ctx, [t.written.value] + rest.written, rest.reports, rest.crashed)
  {
    assert Clean(n)[0] == NO_FAULTS && Clean(n)[1..] == Clean(n - 1);
  }

  lemma PacketsOfCons(w: (Packet, int), ws: seq<(Packet, int)>)
    ensures PacketsOf([w] + ws) == [w.0] + PacketsOf(ws)
  {
    assert ([w] + ws)[1..] == ws;
  }

  /** The packets' own pts increase strictly from above `x`. */
  ghost predicate WellTimed(x: int, v: seq<Packet>)
    decreases |v|
  {
    v != [] ==> FreshPts(x, v[0]) && WellTimed(v[0].pts.value, v[1..])
  }

  lemma {:induction false} WellTimedPrefix(x: int, ws: seq<(Packet, int)>, v: seq<Packet>)
    requires WellTimed(x, v) && PacketsOf(ws) <= v
    ensures OwnTimesIncrease(x, ws)
    decreases |ws|
  {
    if ws != [] {
      assert v[0] == PacketsOf(ws)[0] == ws[0].0;
      assert PacketsOf(ws[1..]) <= v[1..] by {
        assert PacketsOf(ws)[1..] == PacketsOf(ws[1..]);
        assert PacketsOf(ws) == v[..|ws|] && v[..|ws|][1..] == v[1..][..|ws| - 1];
      }
      WellTimedPrefix(v[0].pts.value, ws[1..], v[1..]);
    }
  }

  /** A file whose video packets carry strictly increasing pts above 0 is written, on its first pass, packet by packet
      with exactly its own pts. */
  lemma FirstPassKeepsTimes(src: Source, n: nat, i: nat)
    requires Ends(src) && Harmless(src) && WellTimed(0, VideosFrom(src, 0)) && i < n <= |VideosFrom(src, 0)|
    ensures var ws := Ticks(src, Clean(n), FRESH).written;
            |ws| == n && ws[i].0 == VideosFrom(src, 0)[i] && VideosFrom(src, 0)[i].pts == Some(ws[i].1)
  {
    var ws := Ticks(src, Clean(n), FRESH).written;
    PassInOrder(src, FRESH, n);
    WrittenTimes(src, Clean(n), FRESH);
    assert PacketsOf(ws)[i] == VideosFrom(src, 0)[..n][i];
    WellTimedPrefix(0, ws, VideosFrom(src, 0));
    OwnTimesKept(src, 0, 0, ws, i);
  }

  lemma {:induction false} PrePtsIsLast(src: Source, fs: seq<Faults>, ctx: Context)
    requires Ends(src) && ctx.pos <= |src.packets|
    ensures var r := Ticks(src, fs, ctx);
            r.ctx.prePts == if r.written == [] then ctx.prePts else r.written[|r.written| - 1].1
  {
    if fs != [] {
      var t := GetFrame(src, fs[0], ctx);
      TickTime(src, fs[0], ctx);
      if !t.crashed { PrePtsIsLast(src, fs[1..], t.ctx); }
    }
  }

  lemma AfterFirstPass(src: Source, n: nat)
    requires Ends(src) && Harmless(src) && n == |VideosFrom(src, 0)| > 0 && WellTimed(0, VideosFrom(src, 0))
    ensures var a := Ticks(src, Clean(n), FRESH);
            && |a.written| == n && !a.crashed && VideosFrom(src, 0)[n - 1].pts == Some(a.ctx.prePts)
            && a.written[n - 1].1 == a.ctx.prePts
  {
    PassInOrder(src, FRESH, n);
    FirstPassKeepsTimes(src, n, n - 1);
    PrePtsIsLast(src, Clean(n), FRESH);
  }

  /** A repeated file goes on after its first pass, whatever ffmpeg answers then: each packet is written at the previous
      pts plus its duration. */
  lemma LaterPassesExtend(src: Source, n: nat, gs: seq<Faults>, i: nat)
    requires Ends(src) && Harmless(src) && n == |VideosFrom(src, 0)| > 0 && WellTimed(0, VideosFrom(src, 0))
    requires var last := VideosFrom(src, 0)[n - 1].pts;
             last.Some? && forall p :: p in src.packets && p.stream == src.videoStream ==> Stale(src, last.value, p)
    requires n <= i < |Ticks(src, Clean(n) + gs, FRESH).written|
    ensures var ws := Ticks(src, Clean(n) + gs, FRESH).written;
            !Kills(src, ws[i].0) && ws[i].1 == ws[i - 1].1 + Duration(src, ws[i].0)
  {
    var a := Ticks(src, Clean(n), FRESH);
    AfterFirstPass(src, n);
    TicksSplit(src, Clean(n), gs, FRESH);
    assert Ticks(src, Clean(n) + gs, FRESH).written == a.written + Ticks(src, gs, a.ctx).written;
    StaleFileTimes(src, gs, a.ctx, i - n);
  }

  // ---------------------------------------------------------------- durations and failures

  /** A packet keeps the duration it has; a missing one is filled with the quotient of the two 32-bit products, cut off
      toward zero. */
  lemma FilledDurationIsQuotient(src: Source, p: Packet)
    requires !Kills(src, p)
    ensures p.duration != 0 ==> Duration(src, p) == p.duration
    ensures p.duration == 0 ==>
              var d, a, b := Duration(src, p), Numerator(src), Divisor(src);
              && Abs(d) * Abs(b) <= Abs(a) < (Abs(d) + 1) * Abs(b)
              && (d > 0 ==> (a > 0) == (b > 0)) && (d < 0 ==> (a > 0) != (b > 0))
  {
    if p.duration == 0 { TruncIsQuotient(Numerator(src), Divisor(src)); }
  }

  lemma QuotientBounds(x: nat, y: nat)
    requires y > 0
    ensures x / y >= 0 && (x / y) * y <= x < (x / y + 1) * y
  {
    var q, r := x / y, x % y;
    assert x == q * y + r && 0 <= r < y;
    Distribute(q, y);
  }

  lemma TruncSize(a: int, b: int)
    requires b != 0
    ensures Abs(TruncDiv(a, b)) == Abs(a) / Abs(b)
  {
    QuotientBounds(Abs(a), Abs(b));
  }

  lemma TruncIsQuotient(a: int, b: int)
    requires b != 0
    ensures var d := TruncDiv(a, b);
            && Abs(d) * Abs(b) <= Abs(a) < (Abs(d) + 1) * Abs(b)
            && (d > 0 ==> (a > 0) == (b > 0)) && (d < 0 ==> (a > 0) != (b > 0))
  {
    QuotientBounds(Abs(a), Abs(b));
    TruncSize(a, b);
    TruncPositiveIff(a, b);
    if a == 0 { QuotientPositiveIff(0, Abs(b)); }
  }

  lemma Distribute(q: int, y: int)
    ensures (q + 1) * y == q * y + y
  {}

  /** The products are those of the source, wrapped to 32 bits. */
  lemma ProductsWrap(src: Source)
    ensures INT_MIN <= Numerator(src) <= INT_MAX && INT_MIN <= Divisor(src) <= INT_MAX
    ensures (src.timeBaseDen * src.fpsDen - Numerator(src)) % 0x1_0000_0000 == 0
    ensures (src.fpsNum * src.timeBaseNum - Divisor(src)) % 0x1_0000_0000 == 0
  {
    WrapCongruent(src.timeBaseDen * src.fpsDen);
    WrapCongruent(src.fpsNum * src.timeBaseNum);
  }

  lemma WrapCongruent(x: int)
    ensures INT_MIN <= Wrap32(x) <= INT_MAX && (x - Wrap32(x)) % 0x1_0000_0000 == 0
  {}

  /** A tick whose search fails latches and reports the code ffmpeg failed with, or end of file. */
  lemma {:induction false} FailureCode(src: Source, f: Faults, ctx: Context, i: nat) returns (n: nat)
    requires Ends(src) && ctx.pos <= |src.packets| && ctx.error == 0 && Search(src, f, ctx.pos, i).None?
    ensures n >= i
    ensures var code := Loop(src, f, ctx, i).ctx.error;
            if ReadFails(f, n) then code == Code(f.read, n)
            else if src.repeatedly then Code(f.seek, n) < 0 && code == Code(f.seek, n)
            else code == -541478725
    ensures forall m :: i <= m < n ==> !ReadFails(f, m)
    decreases if VideoFrom(src, ctx.pos) then 0 else 1, |src.packets| - ctx.pos
  {
    assert !VideoFrom(src, ctx.pos) ==> !IsVideo(src, ctx.pos);
    match Iteration(src, f, ctx, i)
    case Done(t) => n := i;
    case Again(c) => n := FailureCode(src, f, c, i + 1);
  }
}

/** What the accumulating interpolator puts out (src/core/audio.cpp, anti_prehandler and
    samplexx_anti_handler): the mean of the channel's output since the last sample, each level weighted
    with the time it was held. */
module PaulaAverage {
  import opened Arith
  import opened Words
  import opened PaulaChannel
  import opened PaulaEngine
  import opened PaulaRegisters
  import opened PaulaFeeds
  import opened PaulaHistory
  import Blep

  /** A stretch of time with one sample and volume. */
  datatype Held = Held(sample: int, volume: int, time: nat)

  /** What newsample and update_volume can leave. */
  predicate Playable(h: Held) {
    -128 <= h.sample <= 127 && 0 <= h.volume <= 64
  }

  function Output(l: Line, h: Held): int {
    if l.attachVolume || l.attachPeriod then 0 else h.sample * h.volume
  }

  function Area(l: Line, hs: seq<Held>): int {
    if hs == [] then 0 else Area(l, hs[..|hs| - 1]) + Output(l, hs[|hs| - 1]) * hs[|hs| - 1].time
  }

  function Duration(hs: seq<Held>): nat {
    if hs == [] then 0 else Duration(hs[..|hs| - 1]) + hs[|hs| - 1].time
  }

  /** The prehandler over these stretches. */
  function Fed(e: Env, l: Line, d: Data, hs: seq<Held>): (r: Data)
    requires Blep.ValidQueue(d.sinc)
    ensures Blep.ValidQueue(r.sinc)
  {
    if hs == [] then d
    else
      var h := hs[|hs| - 1];
      Prehandle(e, l, Fed(e, l, d, hs[..|hs| - 1]).(currentSample := h.sample, mixvol := h.volume), h.time)
  }

  predicate Averaging(e: Env) {
    e.output && e.interpolation.Anti?
  }

  lemma LevelIsOutput(l: Line, d: Data, h: Held)
    ensures Level(l, d.(currentSample := h.sample, mixvol := h.volume)) == Output(l, h)
  {
  }

  /** The accumulators hold the area under the output and the time, cut to 32 bits. */
  lemma {:induction false} FedSums(e: Env, l: Line, d: Data, hs: seq<Held>)
    requires Averaging(e) && Blep.ValidQueue(d.sinc)
    requires d.accum == S32(d.accum) && d.accumTime == S32(d.accumTime)
    ensures Fed(e, l, d, hs).accum == S32(d.accum + Area(l, hs))
    ensures Fed(e, l, d, hs).accumTime == S32(d.accumTime + Duration(hs))
  {
    hide S32, Output;
    if hs != [] {
      var init, h := hs[..|hs| - 1], hs[|hs| - 1];
      FedSums(e, l, d, init);
      LevelIsOutput(l, Fed(e, l, d, init), h);
      S32Add(d.accum + Area(l, init), Output(l, h) * h.time);
      S32Add(d.accumTime + Duration(init), h.time);
    }
  }

  lemma TimesBounds(x: int, t: nat, lo: int, hi: int)
    requires lo <= x <= hi
    ensures lo * t <= x * t <= hi * t
  {
  }

  lemma LevelBounds(l: Line, h: Held)
    requires Playable(h)
    ensures -8192 <= Output(l, h) <= 8192
  {
    TimesBounds(h.sample, h.volume, -128, 127);
  }

  lemma {:induction false} AreaBounds(l: Line, hs: seq<Held>, lo: int, hi: int)
    requires forall i :: 0 <= i < |hs| ==> lo <= Output(l, hs[i]) <= hi
    ensures lo * Duration(hs) <= Area(l, hs) <= hi * Duration(hs)
  {
    if hs != [] {
      var init, h := hs[..|hs| - 1], hs[|hs| - 1];
      AreaBounds(l, init, lo, hi);
      TimesBounds(Output(l, h), h.time, lo, hi);
      assert lo * (Duration(init) + h.time) == lo * Duration(init) + lo * h.time;
      assert hi * (Duration(init) + h.time) == hi * Duration(init) + hi * h.time;
    }
  }

  /** Dividing towards zero stays between whole bounds. */
  lemma QuotientBetween(x: int, n: int, lo: int, hi: int)
    requires n > 0 && lo * n <= x <= hi * n
    ensures lo <= TruncDiv(x, n) <= hi
  {
    FloorBetween(x, n, lo, hi);
    assert (-hi) * n == -(hi * n) && (-lo) * n == -(lo * n);
    FloorBetween(-x, n, -hi, -lo);
  }

  lemma FloorBetween(x: int, n: int, lo: int, hi: int)
    requires n > 0 && lo * n <= x <= hi * n
    ensures lo <= x / n <= hi
  {
    var q := x / n;
    assert x == q * n + x % n;
    assert (q - lo) * n == q * n - lo * n && (q - hi) * n == q * n - hi * n;
    MulSign(q - lo, n);
    MulSign(q - hi, n);
  }

  /** A wrapped sum is at least 2^32 away. */
  lemma WrapIsFar(x: int)
    ensures x >= TWO_31 ==> S32(x) <= x - TWO_32
    ensures x < -TWO_31 ==> S32(x) >= x + TWO_32
    ensures S32(x) == x <==> -TWO_31 <= x < TWO_31
  {
    assert x + TWO_31 == (x + TWO_31) / TWO_32 * TWO_32 + (x + TWO_31) % TWO_32;
  }

  lemma FloorFar(x: int, y: int, n: int)
    requires n > 0 && y <= x - 2 * n
    ensures y / n <= x / n - 2
  {
    assert x == x / n * n + x % n && y == y / n * n + y % n;
    var d := y / n - (x / n - 2);
    assert d * n == y / n * n - x / n * n + 2 * n;
    MulSign(d, n);
  }

  lemma TruncNearFloor(x: int, n: int)
    requires n > 0
    ensures x / n <= TruncDiv(x, n) <= x / n + 1 && (x >= 0 ==> TruncDiv(x, n) == x / n)
  {
    assert x == x / n * n + x % n && -x == (-x) / n * n + (-x) % n;
    var s := x / n + (-x) / n;
    assert s * n == x / n * n + (-x) / n * n;
    MulSign(s + 2, n);
    assert (s + 2) * n == s * n + 2 * n;
    MulSign(s, n);
  }

  /** A wrapped area never gives the right mean. */
  lemma WrapIsSeen(area: int, n: int)
    requires 0 < n < TWO_31 && -8192 * n <= area <= 8192 * n && S32(area) != area
    ensures Blep.Clamp16(TruncDiv(S32(area), n)) != TruncDiv(area, n)
  {
    hide S32;
    WrapIsFar(area);
    var w := S32(area);
    TruncNearFloor(area, n);
    TruncNearFloor(w, n);
    QuotientBetween(area, n, -8192, 8192);
    if area >= TWO_31 { FloorFar(area, w, n); } else { FloorFar(w, area, n); }
  }

  /** For a channel drained at the last sample, over any cut of the time since then into stretches: the
      sample is the time-weighted mean of the output, rounded towards zero, if and only if the area under
      the output fits 32 bits; and then it lies between the lowest and the highest level held. */
  lemma SampleIsMeanExactlyWhen(e: Env, l: Line, c: Channel, hs: seq<Held>, lo: int, hi: int)
    requires ValidEnv(e) && Averaging(e) && Blep.ValidQueue(c.data.sinc)
    requires forall i :: 0 <= i < |hs| ==> Playable(hs[i]) && lo <= Output(l, hs[i]) <= hi
    requires 0 < Duration(hs) < TWO_31
    ensures var d := Fed(e, l, Drained(e, c).data, hs);
            && (SampleOf(e, l, d) == TruncDiv(Area(l, hs), Duration(hs)) <==> -TWO_31 <= Area(l, hs) < TWO_31)
            && (-TWO_31 <= Area(l, hs) < TWO_31 ==> lo <= SampleOf(e, l, d) <= hi)
  {
    hide S32, TruncDiv, Output, Area, Duration, Fed;
    var n, area := Duration(hs), Area(l, hs);
    S32Small(0);
    FedSums(e, l, Drained(e, c).data, hs);
    forall i | 0 <= i < |hs| ensures -8192 <= Output(l, hs[i]) <= 8192 { LevelBounds(l, hs[i]); }
    AreaBounds(l, hs, -8192, 8192);
    AreaBounds(l, hs, lo, hi);
    S32Small(n);
    WrapIsFar(area);
    QuotientBetween(area, n, -8192, 8192);
    QuotientBetween(area, n, lo, hi);
    if S32(area) != area { WrapIsSeen(area, n); }
  }

  /** It does fit for less than 2^18 time units (a sample at 44.1 kHz is about 41000). */
  lemma ShortTimesFit(l: Line, hs: seq<Held>)
    requires Duration(hs) < 0x4_0000 && forall i :: 0 <= i < |hs| ==> Playable(hs[i])
    ensures -TWO_31 <= Area(l, hs) < TWO_31
  {
    forall i | 0 <= i < |hs| ensures -8192 <= Output(l, hs[i]) <= 8192 { LevelBounds(l, hs[i]); }
    AreaBounds(l, hs, -8192, 8192);
  }

  /* ---------- Over whole runs ---------- */

  /** The time of sample `k`, and of the beginning before the first. */
  function SampleTime(samples: seq<Emitted>, k: int, origin: int): int
    requires k < |samples|
  {
    if k < 0 then 0 else samples[k].time - origin
  }

  function LevelArea(h: Blep.History, a: int, b: int): int {
    AreaTo(h.changes, b) - AreaTo(h.changes, a)
  }

  predicate Fits32(x: int) { -TWO_31 <= x < TWO_31 }

  /** One sample: the mean of the level since the sample before, rounded towards zero, if and only if the area
      under the level fits 32 bits. */
  ghost predicate IsMean(h: Blep.History, a: int, b: int, m: Emitted, nr: nat, sampleTime: real) {
    && |m.levels| == AUDIO_CHANNELS_PAULA && nr < AUDIO_CHANNELS_PAULA
    && 0 <= a < b <= h.now && (b - a) as real <= sampleTime + 1.0
    && -8192 * (b - a) <= LevelArea(h, a, b) <= 8192 * (b - a)
    && (m.levels[nr] == TruncDiv(LevelArea(h, a, b), b - a) <==> Fits32(LevelArea(h, a, b)))
  }

  /** The accumulators hold what has come in since the last sample, and every sample so far was right. */
  ghost predicate MeansHold(s: Engine, nr: nat, origin: int, sampleTime: real) {
    && nr < |s.ch| == AUDIO_CHANNELS_PAULA
    && var c, last := s.ch[nr], SampleTime(s.samples, |s.samples| - 1, origin);
       var h := c.data.history;
       && Mild(c) && Tidy(h) && h.now == s.time - origin && 0 <= last <= h.now
       && c.data.accum == S32(LevelArea(h, last, h.now)) && c.data.accumTime == S32(h.now - last)
       && -8192 * (h.now - last) <= LevelArea(h, last, h.now) <= 8192 * (h.now - last)
       && s.next + (h.now - last) as real <= sampleTime + 0.5
       && forall k :: 0 <= k < |s.samples| ==>
            IsMean(h, SampleTime(s.samples, k - 1, origin), SampleTime(s.samples, k, origin), s.samples[k], nr,
                   sampleTime)
  }

  lemma LevelBounded(l: Line, c: Channel)
    requires Mild(c)
    ensures -8192 <= Level(l, c.data) <= 8192
  {
    TimesBounds(c.data.currentSample, c.data.mixvol, -128, 127);
  }

  /** The accumulators over a wait. */
  lemma WaitMeans(e: Env, s: Engine, best: nat, nr: nat, origin: int)
    requires Inv(e, s) && best >= 1 && Averaging(e) && MeansHold(s, nr, origin, e.sampleTime)
    ensures MeansHold(Wait(e, s, best), nr, origin, e.sampleTime)
  {
    hide S32, Armed, Tidy, Extends, IsMean, Level, LevelArea;
    var c, l := s.ch[nr], e.lines[nr];
    var h, g := c.data.history, Wait(e, s, best).ch[nr].data.history;
    var last := SampleTime(s.samples, |s.samples| - 1, origin);
    Recorded(h, Level(l, c.data), best);
    LevelBounded(l, c);
    WaitSums(h, g, last, Level(l, c.data), best);
    forall k | 0 <= k < |s.samples|
      ensures IsMean(g, SampleTime(s.samples, k - 1, origin), SampleTime(s.samples, k, origin), s.samples[k], nr,
                     e.sampleTime)
    {
      MeanStays(h, g, SampleTime(s.samples, k - 1, origin), SampleTime(s.samples, k, origin), s.samples[k], nr,
                e.sampleTime);
    }
  }

  lemma WaitSums(h: Blep.History, g: Blep.History, last: int, level: int, best: nat)
    requires Extends(h, g) && last <= h.now && g.now == h.now + best && -8192 <= level <= 8192
    requires AreaTo(g.changes, g.now) == AreaTo(h.changes, h.now) + level * best
    ensures LevelArea(g, last, g.now) == LevelArea(h, last, h.now) + level * best
    ensures S32(S32(LevelArea(h, last, h.now)) + level * best) == S32(LevelArea(g, last, g.now))
    ensures S32(S32(h.now - last) + best) == S32(g.now - last)
    ensures -8192 * best <= level * best <= 8192 * best
  {
    hide S32, Extends;
    Past(h, g, last);
    S32Add(LevelArea(h, last, h.now), level * best);
    S32Add(h.now - last, best);
    TimesBounds(level, best, -8192, 8192);
  }

  lemma MeanStays(h: Blep.History, g: Blep.History, a: int, b: int, m: Emitted, nr: nat, sampleTime: real)
    requires Extends(h, g) && IsMean(h, a, b, m, nr, sampleTime)
    ensures IsMean(g, a, b, m, nr, sampleTime)
  {
    hide Extends;
    Past(h, g, a);
    Past(h, g, b);
  }

  /** A sample taken from accumulators that hold an area and a time. */
  lemma MeanTaken(e: Env, l: Line, d: Data, area: int, n: int)
    requires ValidEnv(e) && Averaging(e) && Blep.ValidQueue(d.sinc) && 0 < n < TWO_31
    requires d.accum == S32(area) && d.accumTime == S32(n) && -8192 * n <= area <= 8192 * n
    ensures SampleOf(e, l, d) == TruncDiv(area, n) <==> Fits32(area)
  {
    hide S32, TruncDiv;
    S32Small(n);
    WrapIsFar(area);
    QuotientBetween(area, n, -8192, 8192);
    if S32(area) != area { WrapIsSeen(area, n); }
  }

  lemma SampledMeans(e: Env, s: Engine, best: nat, nr: nat, origin: int)
    requires Inv(e, s) && best >= 1 && NothingBefore(e, s, best) && e.sampleTime < 0x7FFF_FFFE as real
    requires Averaging(e) && MeansHold(s, nr, origin, e.sampleTime)
    ensures MeansHold(Sampled(e, s, best), nr, origin, e.sampleTime)
  {
    hide S32, Armed, Tidy, Level, Tick, SampleOf, TruncDiv;
    WaitMeans(e, s, best, nr, origin);
    var w, t := Wait(e, s, best), Sampled(e, s, best);
    if Rounded(s.next) == best {
      var c, last := w.ch[nr], SampleTime(w.samples, |w.samples| - 1, origin);
      var h := c.data.history;
      QueueValid(e, s, best, nr);
      MeanTaken(e, e.lines[nr], c.data, LevelArea(h, last, h.now), h.now - last);
      S32Small(0);
      forall k | 0 <= k < |t.samples|
        ensures IsMean(h, SampleTime(t.samples, k - 1, origin), SampleTime(t.samples, k, origin), t.samples[k], nr,
                       e.sampleTime)
      {
        if k < |w.samples| {
          assert SampleTime(t.samples, k - 1, origin) == SampleTime(w.samples, k - 1, origin);
          assert t.samples[k] == w.samples[k];
        }
      }
    }
  }

  lemma QueueValid(e: Env, s: Engine, best: nat, nr: nat)
    requires Inv(e, s) && nr < |s.ch|
    ensures Blep.ValidQueue(Wait(e, s, best).ch[nr].data.sinc)
  {
    assert Armed(s.ch[nr]);
  }

  lemma FeedsMeans(s: Engine, t: Engine, nr: nat, origin: int, sampleTime: real)
    requires MeansHold(s, nr, origin, sampleTime) && |t.ch| == |s.ch| && Feeds(s.ch[nr], t.ch[nr])
    requires t.samples == s.samples && t.next == s.next && t.time == s.time
    ensures MeansHold(t, nr, origin, sampleTime)
  {
    hide S32, Tidy, IsMean, Area;
  }

  lemma {:induction false} RunMeans(e: Env, s: Engine, n: int, nr: nat, origin: int)
    requires Inv(e, s) && e.sampleTime < 0x7FFF_FFFE as real
    requires Averaging(e) && MeansHold(s, nr, origin, e.sampleTime)
    ensures MeansHold(Run(e, s, n), nr, origin, e.sampleTime)
    decreases n
  {
    hide MeansHold, Pass, NothingBefore, BestEvent, Mild;
    if n > 0 {
      var best := BestEvent(e, s, n);
      BestEventIs(e, s, n);
      PassKeepsInv(e, s, best);
      SampledMeans(e, s, best, nr, origin);
      ForNr(s, nr, origin, e.sampleTime);
      PassIs(e, s, best, nr);
      FeedsMeans(Sampled(e, s, best), Pass(e, s, best), nr, origin, e.sampleTime);
      RunMeans(e, Pass(e, s, best), n - best, nr, origin);
    }
  }

  lemma ForNr(s: Engine, nr: nat, origin: int, sampleTime: real)
    requires MeansHold(s, nr, origin, sampleTime)
    ensures nr < |s.ch| == AUDIO_CHANNELS_PAULA
  {
  }

  lemma UpdateMeans(e: Env, s: Engine, now: int, nr: nat, origin: int)
    requires Inv(e, s) && e.sampleTime < 0x7FFF_FFFE as real && e.soundOn
    requires Averaging(e) && MeansHold(s, nr, origin, e.sampleTime)
    ensures MeansHold(UpdateAudio(e, s, now), nr, origin, e.sampleTime)
  {
    hide MeansHold, Run, Armed;
    RunMeans(e, s, now - s.time, nr, origin);
  }

  lemma ApplyMeans(d: Device, op: Op, nr: nat, origin: int)
    requires Valid(d) && ValidOp(op) && nr < AUDIO_CHANNELS_PAULA && d.env.sampleTime < 0x7FFF_FFFE as real
    requires d.env.soundOn && Averaging(d.env) && MeansHold(d.engine, nr, origin, d.env.sampleTime)
    ensures MeansHold(Apply(d, op).engine, nr, origin, d.env.sampleTime)
  {
    hide Apply, MeansHold, Advanced, Updates, Now, UpdateAudio, Armed, Feeds;
    var q := Advanced(d, op);
    OnlyUpdateFeeds(d, op, nr);
    AdvancedIs(d, op, nr);
    FeedsMeans(d.engine, q, nr, origin, d.env.sampleTime);
    var t := if Updates(d, op) then UpdateAudio(d.env, q, Now(op)) else q;
    if Updates(d, op) { UpdateMeans(d.env, q, Now(op), nr, origin); }
    FeedsMeans(t, Apply(d, op).engine, nr, origin, d.env.sampleTime);
  }

  lemma {:induction false} ApplyAllMeans(d: Device, ops: seq<Op>, nr: nat, origin: int)
    requires Valid(d) && nr < AUDIO_CHANNELS_PAULA && forall i :: 0 <= i < |ops| ==> ValidOp(ops[i])
    requires d.env.sampleTime < 0x7FFF_FFFE as real
    requires d.env.soundOn && Averaging(d.env) && MeansHold(d.engine, nr, origin, d.env.sampleTime)
    ensures MeansHold(ApplyAll(d, ops).engine, nr, origin, d.env.sampleTime)
    decreases |ops|
  {
    hide Apply, MeansHold, ValidOp;
    if ops != [] {
      ApplyMeans(d, ops[0], nr, origin);
      FixedPreferences(d, ops[0]);
      ApplyKeepsValid(d, ops[0]);
      ApplyAllMeans(Apply(d, ops[0]), ops[1..], nr, origin);
    }
  }

  lemma ResetMeans(e: Env, start: int, nr: nat)
    requires ValidEnv(e) && nr < AUDIO_CHANNELS_PAULA
    ensures MeansHold(Reset(e, start).engine, nr, start, e.sampleTime)
  {
    S32Small(0);
  }

  /** With the accumulating interpolator, from reset over any run, for every channel, attached or not: every
      sample is the time-weighted mean of the channel's level since the sample before, rounded towards zero, if
      and only if the area under the level fits 32 bits. */
  lemma EverySampleIsMeanExactlyWhen(e: Env, start: int, ops: seq<Op>, nr: nat, k: nat)
    requires ValidEnv(e) && nr < AUDIO_CHANNELS_PAULA && forall i :: 0 <= i < |ops| ==> ValidOp(ops[i])
    requires e.soundOn && Averaging(e) && e.sampleTime < 0x7FFF_FFFE as real
    requires k < |ApplyAll(Reset(e, start), ops).engine.samples|
    ensures var s := ApplyAll(Reset(e, start), ops).engine;
            IsMean(s.ch[nr].data.history, SampleTime(s.samples, k - 1, start), SampleTime(s.samples, k, start),
                   s.samples[k], nr, e.sampleTime)
  {
    hide Apply, Reset, IsMean, Armed;
    ResetMeans(e, start, nr);
    ResetEnv(e, start);
    ApplyAllMeans(Reset(e, start), ops, nr, start);
  }

  lemma ResetEnv(e: Env, start: int)
    ensures Reset(e, start).env == e
  {
  }

  /** It always fits when samples are less than 2^18 - 2 time units apart (6.9 kHz and more). */
  lemma EverySampleIsMean(e: Env, start: int, ops: seq<Op>, nr: nat, k: nat)
    requires ValidEnv(e) && nr < AUDIO_CHANNELS_PAULA && forall i :: 0 <= i < |ops| ==> ValidOp(ops[i])
    requires e.soundOn && Averaging(e) && e.sampleTime < 0x3_FFFE as real
    requires k < |ApplyAll(Reset(e, start), ops).engine.samples|
    ensures var s := ApplyAll(Reset(e, start), ops).engine;
            var h, a, b := s.ch[nr].data.history, SampleTime(s.samples, k - 1, start), SampleTime(s.samples, k, start);
            && a < b && |s.samples[k].levels| == AUDIO_CHANNELS_PAULA
            && s.samples[k].levels[nr] == TruncDiv(LevelArea(h, a, b), b - a)
  {
    hide ApplyAll, Reset, Armed, LevelArea, TruncDiv;
    EverySampleIsMeanExactlyWhen(e, start, ops, nr, k);
  }
}

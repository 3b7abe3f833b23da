/** From the registers to the samples (src/core/audio.cpp): over whole runs the level of a Paula channel is the
    product of the byte and the volume that are due, and the samples are made of nothing else. */
module PaulaLevel {
  import opened PaulaChannel
  import opened PaulaEngine
  import opened PaulaRegisters
  import opened PaulaPlayback
  import opened PaulaHistory
  import opened PaulaSound
  import opened PaulaClaims
  import opened PaulaRuns
  import opened PaulaFeeds
  import PaulaAverage
  import Blep

  /* ---------- The volume register ---------- */

  lemma VolumeWritten(d: Device, now: int, nr: nat, v: int)
    requires Valid(d) && ValidOp(WriteVol(now, nr, v))
    ensures var c := Apply(d, WriteVol(now, nr, v)).engine.ch[nr];
            && c.data.audvol == (if v % 128 < 64 then v % 128 else 64)
            && Holds(Tuned(if v % 128 < 64 then v % 128 else 64, c.log.volumes), c, now)
  {
    hide UpdateAudio, Armed;
  }

  /** After a write to AUDxVOL, over any run without another one and without modulation of the volume: the
      register, and the volume noted for every byte that begins, is the 7-bit value written, 64 at most. */
  lemma VolumeIsLastWritten(d: Device, now: int, nr: nat, v: int, ops: seq<Op>)
    requires Valid(d) && ValidOp(WriteVol(now, nr, v)) && forall i :: 0 <= i < |ops| ==> ValidOp(ops[i])
    requires Unattached(d.env, nr) && VolumesUntouched(d.env, nr) && Valid(Apply(d, WriteVol(now, nr, v)))
    requires var f := Apply(d, WriteVol(now, nr, v));
             AllKeep(Tuned(if v % 128 < 64 then v % 128 else 64, f.engine.ch[nr].log.volumes), f, ops, nr)
    ensures var before := Apply(d, WriteVol(now, nr, v)).engine.ch[nr].log.volumes;
            var c := ApplyAll(Apply(d, WriteVol(now, nr, v)), ops).engine.ch[nr];
            var volume := if v % 128 < 64 then v % 128 else 64;
            && c.data.audvol == volume && before <= c.log.volumes
            && forall k :: |before| <= k < |c.log.volumes| ==> c.log.volumes[k].register == volume
  {
    hide Apply, ApplyAll, AllKeep, Armed;
    VolumeWritten(d, now, nr, v);
    WriteKeepsEnv(d, WriteVol(now, nr, v));
    var f := Apply(d, WriteVol(now, nr, v));
    var claim := Tuned(if v % 128 < 64 then v % 128 else 64, f.engine.ch[nr].log.volumes);
    RunsHold(claim, f, ops, nr);
    NextOfOthers(claim, ops, nr);
  }

  lemma WriteKeepsEnv(d: Device, op: Op)
    requires Valid(d) && ValidOp(op) && op.WriteVol?
    ensures Apply(d, op).env == d.env
  {
    hide UpdateAudio, Armed;
  }

  /* ---------- The level ---------- */

  /** After reset and a first period, the claim holds. */
  lemma StartedSounds(e: Env, start: int, nr: nat, v: int)
    requires ValidEnv(e) && nr < AUDIO_CHANNELS_PAULA && 0 <= v < 0x10000
    ensures Holds(Sounds(start), Started(e, start, nr, v).engine.ch[nr], start)
  {
    hide Playback;
    assert UpdateAudio(e, Reset(e, start).engine, start) == Reset(e, start).engine;
  }

  /** From reset over any run that leaves a channel unattached and audible and takes no tracker-player hack: the
      sample it holds is the byte last begun, read as signed; while it plays, its volume is the register as it
      stood when that byte began, for a low byte by hand when its high byte began; and its level has been that of
      the bytes due at every time so far. */
  lemma LevelIsHeard(e: Env, start: int, nr: nat, v: int, ops: seq<Op>)
    requires ValidEnv(e) && nr < AUDIO_CHANNELS_PAULA && Under(Sounds(start), e, nr) && 0 <= v < 0x10000
    requires forall i :: 0 <= i < |ops| ==> ValidOp(ops[i])
    requires AllKeep(Sounds(start), Started(e, start, nr, v), ops, nr)
    ensures var t := ApplyAll(Started(e, start, nr, v), ops);
            var c := t.engine.ch[nr];
            var n := |c.log.bytes|;
            && |c.log.volumes| == n
            && (n == 0 ==> c.data.currentSample == 0)
            && (n > 0 ==> var b := c.log.bytes[n - 1].byte; c.data.currentSample == if b < 128 then b else b - 256)
            && (n > 0 ==> c.data.mixvol == (var last := c.log.volumes[n - 1];
                                            if last.manual && n > 1 then c.log.volumes[n - 2].register
                                            else last.register))
            && c.data.history.now == t.engine.time - start
            && forall u :: 0 < u <= c.data.history.now ==>
                 AsOf(c.data.history, u).level == LevelBefore(c.log.bytes, c.log.volumes, start + u)
  {
    hide Started, AllKeep, ApplyAll, Under, Playback, Armed;
    StartedSounds(e, start, nr, v);
    RunsHold(Sounds(start), Started(e, start, nr, v), ops, nr);
    NextOfOthers(Sounds(start), ops, nr);
  }

  /* ---------- Plain samples ---------- */

  predicate Plainly(e: Env) { e.soundOn && e.output && e.interpolation.Plain? }

  ghost predicate IsPlain(h: Blep.History, t: int, m: Emitted, nr: nat) {
    && |m.levels| == AUDIO_CHANNELS_PAULA && nr < AUDIO_CHANNELS_PAULA
    && 0 < t <= h.now && m.levels[nr] == AsOf(h, t).level
  }

  ghost predicate PlainHold(s: Engine, nr: nat, origin: int) {
    && nr < |s.ch| == AUDIO_CHANNELS_PAULA
    && var h := s.ch[nr].data.history;
       && Tidy(h) && h.now == s.time - origin
       && forall k :: 0 <= k < |s.samples| ==> IsPlain(h, s.samples[k].time - origin, s.samples[k], nr)
  }

  lemma PlainStays(h: Blep.History, g: Blep.History, t: int, m: Emitted, nr: nat)
    requires Extends(h, g) && IsPlain(h, t, m, nr)
    ensures IsPlain(g, t, m, nr)
  {
    hide Extends, Blep.Total;
    Past(h, g, t);
  }

  lemma SampledPlain(e: Env, s: Engine, best: nat, nr: nat, origin: int)
    requires Inv(e, s) && Plainly(e) && best >= 1 && PlainHold(s, nr, origin)
    ensures PlainHold(Sampled(e, s, best), nr, origin)
  {
    hide Armed, Extends, Tidy, IsPlain, Level;
    var t, c := Sampled(e, s, best), s.ch[nr];
    var h, g := c.data.history, t.ch[nr].data.history;
    PaulaAverage.QueueValid(e, s, best, nr);
    Recorded(h, Level(e.lines[nr], c.data), best);
    SampleIsLevel(e, s, best, nr, origin);
    forall k | 0 <= k < |t.samples| ensures IsPlain(g, t.samples[k].time - origin, t.samples[k], nr) {
      if k < |s.samples| {
        assert t.samples[k] == s.samples[k];
        PlainStays(h, g, s.samples[k].time - origin, s.samples[k], nr);
      }
    }
  }

  /** The sample of this pass. */
  lemma SampleIsLevel(e: Env, s: Engine, best: nat, nr: nat, origin: int)
    requires Inv(e, s) && Plainly(e) && best >= 1 && nr < AUDIO_CHANNELS_PAULA
    requires Tidy(s.ch[nr].data.history) && s.ch[nr].data.history.now == s.time - origin
    ensures var t, n := Sampled(e, s, best), |s.samples|;
            |t.samples| > n ==> |t.samples| == n + 1 && IsPlain(t.ch[nr].data.history, t.samples[n].time - origin,
                                                                t.samples[n], nr)
  {
    hide Extends;
    assert Armed(s.ch[nr]);
    hide Armed;
    var t := Sampled(e, s, best);
    Recorded(s.ch[nr].data.history, Level(e.lines[nr], s.ch[nr].data), best);
    hide Tidy;
    AsOfNow(t.ch[nr].data.history);
  }

  lemma FeedsPlain(s: Engine, t: Engine, nr: nat, origin: int)
    requires PlainHold(s, nr, origin) && |t.ch| == |s.ch| && Feeds(s.ch[nr], t.ch[nr])
    requires t.samples == s.samples && t.time == s.time
    ensures PlainHold(t, nr, origin)
  {
    hide Tidy, IsPlain;
  }

  lemma {:induction false} RunPlain(e: Env, s: Engine, n: int, nr: nat, origin: int)
    requires Inv(e, s) && Plainly(e) && PlainHold(s, nr, origin)
    ensures PlainHold(Run(e, s, n), nr, origin)
    decreases n
  {
    hide PlainHold, Pass, NothingBefore, BestEvent, Mild;
    if n > 0 {
      var best := BestEvent(e, s, n);
      BestEventIs(e, s, n);
      PassKeepsInv(e, s, best);
      SampledPlain(e, s, best, nr, origin);
      PlainChannel(s, nr, origin);
      PassIs(e, s, best, nr);
      FeedsPlain(Sampled(e, s, best), Pass(e, s, best), nr, origin);
      RunPlain(e, Pass(e, s, best), n - best, nr, origin);
    }
  }

  lemma PlainChannel(s: Engine, nr: nat, origin: int)
    requires PlainHold(s, nr, origin)
    ensures nr < |s.ch| == AUDIO_CHANNELS_PAULA
  {
  }

  lemma UpdatePlain(e: Env, s: Engine, now: int, nr: nat, origin: int)
    requires Inv(e, s) && Plainly(e) && PlainHold(s, nr, origin)
    ensures PlainHold(UpdateAudio(e, s, now), nr, origin)
  {
    hide PlainHold, Run, Armed;
    RunPlain(e, s, now - s.time, nr, origin);
  }

  lemma ApplyPlain(d: Device, op: Op, nr: nat, origin: int)
    requires Valid(d) && ValidOp(op) && nr < AUDIO_CHANNELS_PAULA && Plainly(d.env)
    requires PlainHold(d.engine, nr, origin)
    ensures PlainHold(Apply(d, op).engine, nr, origin)
  {
    hide Apply, PlainHold, Advanced, Updates, Now, UpdateAudio, Armed, Feeds;
    var q := Advanced(d, op);
    OnlyUpdateFeeds(d, op, nr);
    AdvancedIs(d, op, nr);
    FeedsPlain(d.engine, q, nr, origin);
    var t := if Updates(d, op) then UpdateAudio(d.env, q, Now(op)) else q;
    if Updates(d, op) { UpdatePlain(d.env, q, Now(op), nr, origin); }
    FeedsPlain(t, Apply(d, op).engine, nr, origin);
  }

  lemma {:induction false} ApplyAllPlain(d: Device, ops: seq<Op>, nr: nat, origin: int)
    requires Valid(d) && nr < AUDIO_CHANNELS_PAULA && forall i :: 0 <= i < |ops| ==> ValidOp(ops[i])
    requires Plainly(d.env) && PlainHold(d.engine, nr, origin)
    ensures PlainHold(ApplyAll(d, ops).engine, nr, origin)
    decreases |ops|
  {
    hide Apply, PlainHold, ValidOp;
    if ops != [] {
      ApplyPlain(d, ops[0], nr, origin);
      FixedPreferences(d, ops[0]);
      ApplyKeepsValid(d, ops[0]);
      ApplyAllPlain(Apply(d, ops[0]), ops[1..], nr, origin);
    }
  }

  lemma StartedPlain(e: Env, start: int, nr: nat, v: int)
    requires ValidEnv(e) && nr < AUDIO_CHANNELS_PAULA && 0 <= v < 0x10000
    ensures PlainHold(Started(e, start, nr, v).engine, nr, start)
    ensures PaulaAverage.MeansHold(Started(e, start, nr, v).engine, nr, start, e.sampleTime)
  {
    assert UpdateAudio(e, Reset(e, start).engine, start) == Reset(e, start).engine;
    PaulaAverage.ResetMeans(e, start, nr);
  }

  /** Without interpolation every sample put out over such a run is the level heard then: the byte last begun, read
      as signed, times its volume. */
  lemma EveryPlainSampleIsHeard(e: Env, start: int, nr: nat, v: int, ops: seq<Op>, k: nat)
    requires ValidEnv(e) && nr < AUDIO_CHANNELS_PAULA && Under(Sounds(start), e, nr) && 0 <= v < 0x10000
    requires Plainly(e) && forall i :: 0 <= i < |ops| ==> ValidOp(ops[i])
    requires AllKeep(Sounds(start), Started(e, start, nr, v), ops, nr)
    requires k < |ApplyAll(Started(e, start, nr, v), ops).engine.samples|
    ensures var t := ApplyAll(Started(e, start, nr, v), ops).engine;
            var log := t.ch[nr].log;
            && |log.volumes| == |log.bytes| && |t.samples[k].levels| == AUDIO_CHANNELS_PAULA
            && t.samples[k].levels[nr] == LevelBefore(log.bytes, log.volumes, t.samples[k].time)
  {
    hide Started, AllKeep, ApplyAll, Under, Armed, Tidy;
    StartedPlain(e, start, nr, v);
    ApplyAllPlain(Started(e, start, nr, v), ops, nr, start);
    LevelIsHeard(e, start, nr, v, ops);
  }

  /* ---------- Averaged samples ---------- */

  /** The levels heard in the time units after `a` and up to `b`, added up. */
  function HeardArea(bytes: seq<Played>, volumes: seq<Loudness>, a: int, b: int): int
    requires |bytes| == |volumes|
    decreases b - a
  {
    if b <= a then 0 else HeardArea(bytes, volumes, a, b - 1) + LevelBefore(bytes, volumes, b)
  }

  lemma {:induction false} AreaIsHeard(h: Blep.History, bytes: seq<Played>, volumes: seq<Loudness>, time: int,
                                       origin: int, a: int, b: int)
    requires Echoed(h, bytes, volumes, time, origin) && 0 <= a <= b <= h.now
    ensures PaulaAverage.LevelArea(h, a, b) == HeardArea(bytes, volumes, origin + a, origin + b)
    decreases b - a
  {
    hide LevelBefore, AreaTo, Upto, Blep.Total;
    if a < b {
      AreaIsHeard(h, bytes, volumes, time, origin, a, b - 1);
      AreaStep(h.changes, b);
    }
  }

  /** With the accumulating interpolator every sample put out over such a run is the mean of the levels heard
      since the sample before, rounded towards zero (at 6.9 kHz and more). */
  lemma EveryMeanIsHeard(e: Env, start: int, nr: nat, v: int, ops: seq<Op>, k: nat)
    requires ValidEnv(e) && nr < AUDIO_CHANNELS_PAULA && Under(Sounds(start), e, nr) && 0 <= v < 0x10000
    requires PaulaAverage.Averaging(e) && e.sampleTime < 0x3_FFFE as real
    requires forall i :: 0 <= i < |ops| ==> ValidOp(ops[i])
    requires AllKeep(Sounds(start), Started(e, start, nr, v), ops, nr)
    requires k < |ApplyAll(Started(e, start, nr, v), ops).engine.samples|
    ensures var t := ApplyAll(Started(e, start, nr, v), ops).engine;
            var log := t.ch[nr].log;
            var a, b := if k == 0 then start else t.samples[k - 1].time, t.samples[k].time;
            && |log.volumes| == |log.bytes| && |t.samples[k].levels| == AUDIO_CHANNELS_PAULA && a < b
            && t.samples[k].levels[nr] == TruncDiv(HeardArea(log.bytes, log.volumes, a, b), b - a)
  {
    hide Started, AllKeep, ApplyAll, Under, Armed, Echoed, TruncDiv, Loud, Playback;
    StartedPlain(e, start, nr, v);
    StartedSounds(e, start, nr, v);
    SoundsOutput(e, nr, start);
    var d := Started(e, start, nr, v);
    PaulaAverage.ApplyAllMeans(d, ops, nr, start);
    RunsHold(Sounds(start), d, ops, nr);
    NextOfOthers(Sounds(start), ops, nr);
    var t := ApplyAll(d, ops).engine;
    MeanOf(t, nr, start, e.sampleTime, k);
    var c, from := t.ch[nr], PaulaAverage.SampleTime(t.samples, k - 1, start);
    AreaIsHeard(c.data.history, c.log.bytes, c.log.volumes, t.time, start, from, t.samples[k].time - start);
    SameLengths(c.data.history, c.log.bytes, c.log.volumes, t.time, start);
  }

  lemma SameLengths(h: Blep.History, bytes: seq<Played>, volumes: seq<Loudness>, time: int, origin: int)
    requires Echoed(h, bytes, volumes, time, origin)
    ensures |bytes| == |volumes|
  {
  }

  lemma SoundsOutput(e: Env, nr: nat, start: int)
    requires nr < |e.lines| && Under(Sounds(start), e, nr)
    ensures e.soundOn && e.output
  {
  }

  lemma MeanOf(s: Engine, nr: nat, origin: int, sampleTime: real, k: nat)
    requires PaulaAverage.MeansHold(s, nr, origin, sampleTime) && k < |s.samples| && sampleTime < 0x3_FFFE as real
    ensures nr < |s.ch|
    ensures var h, a, b := s.ch[nr].data.history, PaulaAverage.SampleTime(s.samples, k - 1, origin),
                           s.samples[k].time - origin;
            && 0 <= a < b <= h.now && |s.samples[k].levels| == AUDIO_CHANNELS_PAULA && nr < AUDIO_CHANNELS_PAULA
            && s.samples[k].levels[nr] == TruncDiv(PaulaAverage.LevelArea(h, a, b), b - a)
  {
    hide TruncDiv, PaulaAverage.LevelArea;
  }
}

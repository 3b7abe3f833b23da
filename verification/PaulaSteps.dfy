/** The band-limited steps of an unattached Paula channel over whole runs (src/core/audio.cpp): the 256
    entries of the step queue are always enough, and every sample is what the unbounded history of level
    changes says it should be. */
module PaulaSteps {
  import opened Words
  import opened PaulaChannel
  import opened PaulaEngine
  import opened PaulaRegisters
  import opened PaulaPlayback
  import opened PaulaClaims
  import opened PaulaRuns
  import opened PaulaFeeds
  import opened PaulaHistory
  import Blep

  /** The sample from the whole history: the level now, less the ringing of every change younger than
      the limit. */
  function IdealSample(h: Blep.History, winsinc: seq<int>): int
    requires |winsinc| == Blep.SINC_QUEUE_MAX_AGE
  {
    Blep.Clamp16((h.level * 0x20000 - Blep.FullSum(h.changes, h.now, winsinc)) / 0x8000)
  }

  /** After reset and a first period, a run starts with an empty history. */
  lemma ResetStartsSteps(e: Env, start: int, nr: nat, v: int)
    requires ValidEnv(e) && nr < AUDIO_CHANNELS_PAULA && 0 <= v < 0x10000
    ensures Holds(Steps(start), Started(e, start, nr, v).engine.ch[nr], start)
  {
    hide Playback, Reset, Apply, PerWritten, Blep.Mirrors, Blep.InOrder, Blep.Spaced;
    ResetStartsPlayback(e, start, nr, v);
    WrittenKeepsSteps(e, v);
    EmptyMirrors();
  }

  lemma WrittenKeepsSteps(e: Env, v: int)
    ensures var c := PerWritten(e, ResetChannel(), v);
            c.data == ResetChannel().data && c.log == ResetChannel().log
  {
  }

  lemma EmptyMirrors()
    ensures var h := Blep.History([], 0, 0);
            Blep.Mirrors(Blep.Empty(), h) && Blep.InOrder(h) && Blep.Spaced(h.changes)
  {
  }

  /** From reset through any run that leaves a channel unattached and takes none of the tracker-player hacks:
      its level changes are recorded 8 or more time units apart (in fact 512), and the queue holds the newest
      256 of them. */
  lemma ChangesAreSpaced(e: Env, start: int, nr: nat, v: int, ops: seq<Op>)
    requires ValidEnv(e) && nr < AUDIO_CHANNELS_PAULA && Under(Steps(start), e, nr) && 0 <= v < 0x10000
    requires forall i :: 0 <= i < |ops| ==> ValidOp(ops[i])
    requires AllKeep(Steps(start), Started(e, start, nr, v), ops, nr)
    ensures var d := ApplyAll(Started(e, start, nr, v), ops);
            && StepsSpaced(d.engine.ch[nr], d.engine.time, start)
            && Blep.Spaced(d.engine.ch[nr].data.history.changes)
  {
    hide Started, Holds, Under, AllKeep, ApplyAll, Armed;
    ResetStartsSteps(e, start, nr, v);
    var d := Started(e, start, nr, v);
    RunsHold(Steps(start), d, ops, nr);
    NextOfOthers(Steps(start), ops, nr);
    SpacedInSteps(ApplyAll(d, ops).engine.ch[nr], ApplyAll(d, ops).engine.time, start);
  }

  lemma SpacedInSteps(c: Channel, time: int, origin: int)
    requires Holds(Steps(origin), c, time)
    ensures StepsSpaced(c, time, origin) && Blep.Spaced(c.data.history.changes)
  {
  }

  /** In every state such a run reaches, a sample due after a further wait is exactly the one that the
      unbounded history gives, unless the 32-bit clock has wrapped a change that is too old back into
      range; before 2^32 time units have passed it never has. */
  lemma SamplesAreIdeal(e: Env, c: Channel, nr: int, best: nat, time: int, origin: int)
    requires ValidEnv(e) && 0 <= nr < AUDIO_CHANNELS_PAULA && Under(Steps(origin), e, nr)
    requires StepsSpaced(c, time, origin) && (c.evtime == MAX_EV || best <= c.evtime < MAX_EV)
    ensures Blep.ValidQueue(c.data.sinc)
    ensures var d := Tick(e, e.lines[nr], c, best).data;
            && d.history.level == Amplitude(c)
            && (!Blep.Aliased(d.history) ==> SampleOf(e, e.lines[nr], d) == IdealSample(d.history, e.winsinc))
            && (time + best - origin < TWO_32 ==> !Blep.Aliased(d.history))
  {
    hide Playback, Blep.Scan, Blep.FullSum, Blep.Aliased, Tick;
    TickSteps(e, e.lines[nr], c, best, time, origin);
    var d := Tick(e, e.lines[nr], c, best).data;
    Blep.QueueAgrees(d.sinc, d.history, e.winsinc);
    if time + best - origin < TWO_32 { Blep.NoWrapNoAlias(d.history); }
  }

  /** So is the sample that a pass of update_audio puts out. */
  lemma EmittedIsIdeal(e: Env, s: Engine, best: nat, nr: nat, origin: int)
    requires Inv(e, s) && nr < AUDIO_CHANNELS_PAULA && Under(Steps(origin), e, nr) && NothingBefore(e, s, best)
    requires StepsSpaced(s.ch[nr], s.time, origin) && Rounded(s.next) == best
    ensures var h := Tick(e, e.lines[nr], s.ch[nr], best).data.history;
            var t := Sampled(e, s, best);
            && |t.samples| == |s.samples| + 1 && t.samples[|s.samples|].time == s.time + best
            && |t.samples[|s.samples|].levels| == AUDIO_CHANNELS_PAULA
            && (!Blep.Aliased(h) ==> t.samples[|s.samples|].levels[nr] == IdealSample(h, e.winsinc))
  {
    hide Playback, StepsSpaced, Blep.Aliased, IdealSample;
    SamplesAreIdeal(e, s.ch[nr], nr, best, s.time, origin);
  }

  /* ---------- Over whole runs ---------- */

  /** One sample: the one that the unbounded history up to then gives, unless the 32-bit clock had wrapped an old
      change back into range. */
  ghost predicate IsIdeal(h: Blep.History, t: int, m: Emitted, nr: nat, winsinc: seq<int>)
    requires |winsinc| == Blep.SINC_QUEUE_MAX_AGE
  {
    && |m.levels| == AUDIO_CHANNELS_PAULA && nr < AUDIO_CHANNELS_PAULA && 0 <= t <= h.now
    && (!Blep.Aliased(AsOf(h, t)) ==> m.levels[nr] == IdealSample(AsOf(h, t), winsinc))
    && (t < TWO_32 ==> !Blep.Aliased(AsOf(h, t)))
  }

  ghost predicate IdealsHold(s: Engine, nr: nat, origin: int, winsinc: seq<int>)
    requires |winsinc| == Blep.SINC_QUEUE_MAX_AGE
  {
    && nr < |s.ch| == AUDIO_CHANNELS_PAULA
    && var h := s.ch[nr].data.history;
       && Tidy(h) && h.now == s.time - origin
       && forall k :: 0 <= k < |s.samples| ==> IsIdeal(h, s.samples[k].time - origin, s.samples[k], nr, winsinc)
  }

  lemma IdealStays(h: Blep.History, g: Blep.History, t: int, m: Emitted, nr: nat, winsinc: seq<int>)
    requires |winsinc| == Blep.SINC_QUEUE_MAX_AGE && Extends(h, g) && IsIdeal(h, t, m, nr, winsinc)
    ensures IsIdeal(g, t, m, nr, winsinc)
  {
    hide Extends, Blep.Aliased, IdealSample;
    Past(h, g, t);
  }

  lemma QueueIsValid(e: Env, s: Engine, nr: nat)
    requires Inv(e, s) && nr < AUDIO_CHANNELS_PAULA
    ensures Blep.ValidQueue(s.ch[nr].data.sinc) && s.ch[nr].evtime <= MAX_EV
  {
    assert Armed(s.ch[nr]);
  }

  lemma SampledIdeals(e: Env, s: Engine, best: nat, nr: nat, origin: int)
    requires Inv(e, s) && best >= 1 && NothingBefore(e, s, best) && nr < AUDIO_CHANNELS_PAULA
    requires Under(Steps(origin), e, nr) && StepsSpaced(s.ch[nr], s.time, origin)
    requires IdealsHold(s, nr, origin, e.winsinc)
    ensures IdealsHold(Sampled(e, s, best), nr, origin, e.winsinc)
  {
    hide StepsSpaced, IsIdeal, Extends, Tidy, Blep.Aliased, IdealSample, SampleOf, Blep.Prehandler, Armed;
    QueueIsValid(e, s, nr);
    var t, c := Sampled(e, s, best), Tick(e, e.lines[nr], s.ch[nr], best);
    var h, g := s.ch[nr].data.history, c.data.history;
    Recorded(h, Level(e.lines[nr], s.ch[nr].data), best);
    assert t.ch[nr] == c;
    if Rounded(s.next) == best {
      EmittedIsIdeal(e, s, best, nr, origin);
      NewIdeal(e, s, best, nr, origin);
    }
    forall k | 0 <= k < |t.samples| ensures IsIdeal(g, t.samples[k].time - origin, t.samples[k], nr, e.winsinc) {
      if k < |s.samples| {
        assert t.samples[k] == s.samples[k];
        IdealStays(h, g, s.samples[k].time - origin, s.samples[k], nr, e.winsinc);
      }
    }
  }

  /** The sample that this pass puts out. */
  lemma NewIdeal(e: Env, s: Engine, best: nat, nr: nat, origin: int)
    requires Inv(e, s) && best >= 1 && NothingBefore(e, s, best) && nr < AUDIO_CHANNELS_PAULA
    requires Under(Steps(origin), e, nr) && StepsSpaced(s.ch[nr], s.time, origin)
    requires Rounded(s.next) == best && Tidy(s.ch[nr].data.history) && s.ch[nr].data.history.now == s.time - origin
    ensures Blep.ValidQueue(s.ch[nr].data.sinc)
    ensures var g := Tick(e, e.lines[nr], s.ch[nr], best).data.history;
            var t := Sampled(e, s, best);
            && |t.samples| == |s.samples| + 1
            && IsIdeal(g, t.samples[|s.samples|].time - origin, t.samples[|s.samples|], nr, e.winsinc)
  {
    hide StepsSpaced, Extends, Blep.Aliased, IdealSample, SampleOf, Blep.Prehandler, Sampled, IsIdeal, Tidy, Armed;
    QueueIsValid(e, s, nr);
    var g := Tick(e, e.lines[nr], s.ch[nr], best).data.history;
    Recorded(s.ch[nr].data.history, Level(e.lines[nr], s.ch[nr].data), best);
    EmittedIsIdeal(e, s, best, nr, origin);
    SamplesAreIdeal(e, s.ch[nr], nr, best, s.time, origin);
    IdealNow(g, Sampled(e, s, best).samples[|s.samples|], nr, e.winsinc);
  }

  lemma IdealNow(h: Blep.History, m: Emitted, nr: nat, winsinc: seq<int>)
    requires |winsinc| == Blep.SINC_QUEUE_MAX_AGE && Tidy(h) && |m.levels| == AUDIO_CHANNELS_PAULA
    requires nr < AUDIO_CHANNELS_PAULA && (!Blep.Aliased(h) ==> m.levels[nr] == IdealSample(h, winsinc))
    requires h.now < TWO_32 ==> !Blep.Aliased(h)
    ensures IsIdeal(h, h.now, m, nr, winsinc)
  {
    hide Blep.Aliased, IdealSample, AsOf;
    AsOfNow(h);
    assert h.now >= 0;
  }

  lemma FeedsIdeals(s: Engine, t: Engine, nr: nat, origin: int, winsinc: seq<int>)
    requires |winsinc| == Blep.SINC_QUEUE_MAX_AGE && IdealsHold(s, nr, origin, winsinc)
    requires |t.ch| == |s.ch| && Feeds(s.ch[nr], t.ch[nr]) && t.samples == s.samples && t.time == s.time
    ensures IdealsHold(t, nr, origin, winsinc)
  {
    hide Tidy, IsIdeal;
  }

  lemma {:induction false} RunIdeals(e: Env, s: Engine, n: nat, nr: nat, origin: int, polled: bool)
    requires Inv(e, s) && nr < AUDIO_CHANNELS_PAULA && Under(Steps(origin), e, nr)
    requires Holds(Steps(origin), s.ch[nr], s.time)
    requires Calm(Steps(origin), e, nr, s.ch[nr], s.time, n, polled) && IdealsHold(s, nr, origin, e.winsinc)
    ensures IdealsHold(Run(e, s, n), nr, origin, e.winsinc)
    decreases n
  {
    hide IdealsHold, StepsSpaced, Under, Calm, Pass, NothingBefore, BestEvent, Mild;
    if n > 0 {
      var best := BestEvent(e, s, n);
      BestEventIs(e, s, n);
      PassKeepsInv(e, s, best);
      SampledIdeals(e, s, best, nr, origin);
      PassHolds(Steps(origin), e, s, best, nr, n, polled);
      PassIs(e, s, best, nr);
      FeedsIdeals(Sampled(e, s, best), Pass(e, s, best), nr, origin, e.winsinc);
      RunIdeals(e, Pass(e, s, best), n - best, nr, origin, polled);
    }
  }

  lemma UpdateIdeals(e: Env, s: Engine, now: int, nr: nat, origin: int, polled: bool)
    requires Inv(e, s) && nr < AUDIO_CHANNELS_PAULA && Under(Steps(origin), e, nr)
    requires Holds(Steps(origin), s.ch[nr], s.time) && IdealsHold(s, nr, origin, e.winsinc)
    requires Calm(Steps(origin), e, nr, s.ch[nr], s.time, Elapsed(s, now), polled)
    ensures IdealsHold(UpdateAudio(e, s, now), nr, origin, e.winsinc)
  {
    hide IdealsHold, Holds, Calm, Run, Armed;
    RunIdeals(e, s, Elapsed(s, now), nr, origin, polled);
    if now <= s.time { NoRun(e, s, now - s.time); }
  }

  /** What the condition on an operation says about the engine that it brings up to date. */
  lemma AdvancedIsCalm(claim: Claim, d: Device, op: Op, nr: nat) returns (polled: bool)
    requires Valid(d) && ValidOp(op) && nr < AUDIO_CHANNELS_PAULA && claim.Steps? && Updates(d, op)
    requires Holds(claim, d.engine.ch[nr], d.engine.time) && Keeps(claim, d, op, nr)
    ensures var q := Advanced(d, op);
            && |q.ch| == AUDIO_CHANNELS_PAULA && q.time == d.engine.time && Holds(claim, q.ch[nr], q.time)
            && Calm(claim, d.env, nr, q.ch[nr], q.time, Elapsed(q, Now(op)), polled)
  {
    hide Apply, Holds, Calm, Hackable, Armed, Under;
    AdvancedIs(d, op, nr);
    var c, e, left := d.engine.ch[nr], d.env, Elapsed(d.engine, Now(op));
    polled := op.StateMachine? || (op.DataEvent? && op.nr == nr);
    if op.DataEvent? && op.nr == nr {
      AlikeHolds(claim, c, WithWord(c, op.value), d.engine.time);
      CalmThroughout(claim, e, nr, WithWord(c, op.value), d.engine.time, left);
    } else if op.StateMachine? {
      CalmThroughout(claim, e, nr, c, d.engine.time, left);
    } else {
      CalmBefore(claim, d, nr, Now(op));
    }
  }

  lemma ApplyIdeals(d: Device, op: Op, nr: nat, origin: int)
    requires Valid(d) && ValidOp(op) && nr < AUDIO_CHANNELS_PAULA && Under(Steps(origin), d.env, nr)
    requires Holds(Steps(origin), d.engine.ch[nr], d.engine.time) && Keeps(Steps(origin), d, op, nr)
    requires IdealsHold(d.engine, nr, origin, d.env.winsinc)
    ensures IdealsHold(Apply(d, op).engine, nr, origin, d.env.winsinc)
  {
    hide Apply, Holds, Calm, Keeps, Under, IdealsHold, Advanced, Updates, Now, UpdateAudio, Armed, Feeds;
    var q := Advanced(d, op);
    OnlyUpdateFeeds(d, op, nr);
    AdvancedIs(d, op, nr);
    FeedsIdeals(d.engine, q, nr, origin, d.env.winsinc);
    var t := if Updates(d, op) then UpdateAudio(d.env, q, Now(op)) else q;
    if Updates(d, op) {
      var polled := AdvancedIsCalm(Steps(origin), d, op, nr);
      UpdateIdeals(d.env, q, Now(op), nr, origin, polled);
    }
    FeedsIdeals(t, Apply(d, op).engine, nr, origin, d.env.winsinc);
  }

  lemma {:induction false} ApplyAllIdeals(d: Device, ops: seq<Op>, nr: nat, origin: int)
    requires Valid(d) && nr < AUDIO_CHANNELS_PAULA && forall i :: 0 <= i < |ops| ==> ValidOp(ops[i])
    requires Under(Steps(origin), d.env, nr) && Holds(Steps(origin), d.engine.ch[nr], d.engine.time)
    requires AllKeep(Steps(origin), d, ops, nr) && IdealsHold(d.engine, nr, origin, d.env.winsinc)
    ensures Valid(ApplyAll(d, ops)) && IdealsHold(ApplyAll(d, ops).engine, nr, origin, d.env.winsinc)
    decreases |ops|
  {
    hide Apply, Holds, Keeps, Under, IdealsHold, ValidOp;
    if ops != [] {
      ApplyIdeals(d, ops[0], nr, origin);
      ApplyHolds(Steps(origin), d, ops[0], nr);
      KeepsUnder(Steps(origin), d, ops[0], nr);
      FixedPreferences(d, ops[0]);
      ApplyKeepsValid(d, ops[0]);
      ApplyAllIdeals(Apply(d, ops[0]), ops[1..], nr, origin);
    }
  }

  /** With the band-limited interpolator, from reset and a first period over any run that leaves a channel
      unattached and takes no tracker-player hack: every sample is the one that the unbounded history of the level
      up to then gives, unless the 32-bit clock had wrapped; in the first 2^32 time units it never has. */
  lemma EverySampleIsIdeal(e: Env, start: int, nr: nat, v: int, ops: seq<Op>, k: nat)
    requires ValidEnv(e) && nr < AUDIO_CHANNELS_PAULA && Under(Steps(start), e, nr) && 0 <= v < 0x10000
    requires forall i :: 0 <= i < |ops| ==> ValidOp(ops[i])
    requires AllKeep(Steps(start), Started(e, start, nr, v), ops, nr)
    requires k < |ApplyAll(Started(e, start, nr, v), ops).engine.samples|
    ensures var s := ApplyAll(Started(e, start, nr, v), ops).engine;
            IsIdeal(s.ch[nr].data.history, s.samples[k].time - start, s.samples[k], nr, e.winsinc)
  {
    hide Started, Under, Holds, AllKeep, ApplyAll, IsIdeal, Armed;
    ResetStartsSteps(e, start, nr, v);
    ResetStartsIdeals(e, start, nr, v);
    ApplyAllIdeals(Started(e, start, nr, v), ops, nr, start);
  }

  lemma ResetStartsIdeals(e: Env, start: int, nr: nat, v: int)
    requires ValidEnv(e) && nr < AUDIO_CHANNELS_PAULA && 0 <= v < 0x10000
    ensures IdealsHold(Started(e, start, nr, v).engine, nr, start, e.winsinc)
  {
    assert UpdateAudio(e, Reset(e, start).engine, start) == Reset(e, start).engine;
  }
}

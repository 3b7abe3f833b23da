/** What holds of a Paula channel over whole runs (src/core/audio.cpp): any sequence of register writes,
    DMA data, events, vertical blanks, changes of preferences and calls of update_audio. */
module PaulaRuns {
  import opened PaulaChannel
  import opened PaulaEngine
  import opened PaulaRegisters
  import opened PaulaPlayback
  import opened PaulaHistory
  import opened PaulaSound
  import opened PaulaClaims
  import Blep

  /* ---------- Conditions on an operation ---------- */

  /** A call of update_audio at `now` reaches the channel's own time. */
  predicate Reaches(d: Device, nr: nat, now: int)
    requires nr < |d.engine.ch|
  {
    !Unreached(d.engine.ch[nr], Elapsed(d.engine, now))
  }

  /** The operation calls the state machine of channel `nr` while one of the tracker-player hacks is
      pending. */
  ghost predicate TakesHack(d: Device, op: Op, nr: nat)
    requires Valid(d) && ValidOp(op) && nr < AUDIO_CHANNELS_PAULA
  {
    var e, c := d.env, d.engine.ch[nr];
    match op
    case Update(now) => Reaches(d, nr, now) && Hackable(e, c, nr)
    case WritePer(now, _, _) => Reaches(d, nr, now) && Hackable(e, c, nr)
    case WriteLen(now, _, _) => Reaches(d, nr, now) && Hackable(e, c, nr)
    case WriteVol(now, _, _) => Reaches(d, nr, now) && Hackable(e, c, nr)
    case StateMachine(_) => Hackable(e, c, nr)
    case DataEvent(now, j, v, _, _) =>
      !Playing(d.engine.ch[j]) &&
      (if j == nr then Hackable(e, WithWord(c, v), nr) else Reaches(d, nr, now) && Hackable(e, c, nr))
    case Registers(_, _, _) => false
    case Preferences(_, _, _, _, _, _) => false
    case WriteDat(_, _) => false
    case DsrEvent(_) => false
    case Dmal => false
    case Vsync => false
  }

  /** The stored enable flag once the engine has been brought up to `now`. */
  predicate EnaAt(d: Device, nr: nat, now: int)
    requires nr < |d.engine.ch| && nr < |d.env.lines|
  {
    if Reaches(d, nr, now) then EnaAfter(d.env, d.engine.ch[nr], nr) else d.engine.ch[nr].dma.enaStore
  }

  /** The low period hack, if it fires now, leaves the period as it is. */
  predicate HackHarmless(e: Env, l: Line, c: Channel) {
    HackFires(e, l, c) ==> RaisedPeriod(e) == c.per
  }

  /** If the operation writes the channel's period, what it stores is `per`. */
  ghost predicate Stores(d: Device, op: Op, nr: nat, per: int)
    requires Valid(d) && ValidOp(op) && nr < AUDIO_CHANNELS_PAULA
  {
    op.WritePer? && op.nr == nr ==> StoredPeriod(d.env, EnaAt(d, nr, op.now), op.value) == per
  }

  /** The operation writes no other period to the channel and does not trigger the low period hack. */
  ghost predicate KeepsPeriod(d: Device, op: Op, nr: nat)
    requires Valid(d) && ValidOp(op) && nr < AUDIO_CHANNELS_PAULA
  {
    var e, c := d.env, d.engine.ch[nr];
    && Stores(d, op, nr, c.per)
    && (op.DataEvent? && op.nr == nr && Playing(c) && op.ena && c.dma.wlen == 1 ==> HackHarmless(e, e.lines[nr], c))
    && (op.Vsync? ==> HackHarmless(e, e.lines[nr], c))
  }

  /** The volume that a 7-bit value stands for. */
  function Clipped(v: int): int { if v < 64 then v else 64 }

  /** The claim speaks of something that a tracker-player hack would break. */
  predicate NeedsCare(claim: Claim) {
    !claim.Fixed? && !claim.Slow? && !claim.Tuned?
  }

  /** The condition on an operation under which a claim goes on. */
  ghost predicate Keeps(claim: Claim, d: Device, op: Op, nr: nat)
    requires Valid(d) && ValidOp(op) && nr < AUDIO_CHANNELS_PAULA
  {
    && Lasting(claim)
    && |Apply(d, op).env.lines| == AUDIO_CHANNELS_PAULA && Under(claim, Apply(d, op).env, nr)
    && (!NeedsCare(claim) || !TakesHack(d, op, nr))
    && (claim.Fixed? ==> KeepsPeriod(d, op, nr))
    && (claim.Stream? && op.WriteLen? && op.nr == nr ==> op.value == claim.len)
    && (claim.Irqs? ==> !SetsFlag(d, op, nr))
    && (claim.Tuned? && op.WriteVol? && op.nr == nr ==> Clipped(op.value % 128) == claim.register)
    && (claim.Slow? ==> Stores(d, op, nr, claim.per) && Next(claim, op, nr).count < PERIOD_MIN_LOOP_COUNT)
  }

  /** AUDxDAT while its event will be delayed. */
  predicate Delayed(e: Env, c: Channel) {
    !e.jit && (c.per < PERIOD_LOW * CYCLE_UNIT || e.compatible)
  }

  /** The operation sets the flag of a reload: AUDxDAT of a DMA word whose event is delayed, or the event
      itself. */
  predicate SetsFlag(d: Device, op: Op, nr: nat)
    requires nr < |d.engine.ch| && nr < |d.env.lines|
  {
    var e, c := d.env, d.engine.ch[nr];
    && (op.WriteDat? || op.DataEvent?) && op.nr == nr && c.dma.wlen == 1 && Playing(c)
    && if op.WriteDat? then Enabled(e, nr) && Delayed(e, c) else op.ena && !op.preset
  }

  /** A DMA word for channel `nr`. */
  predicate IsWord(op: Op, nr: nat) {
    op.DataEvent? && op.nr == nr && op.ena
  }

  /** A length counter after one more word. */
  function Counted(wlen: int, len: int): int {
    if wlen == 1 then len else (wlen - 1) % 0x10000
  }

  /** A DMA word steps the length counter; reloads and vertical blanks count for the low period hack. */
  function Next(claim: Claim, op: Op, nr: nat): (r: Claim)
    ensures claim.Slow? ==> r.Slow? && r.per == claim.per
  {
    match claim
    case Stream(len, wlen) => if IsWord(op, nr) then Stream(len, Counted(wlen, len)) else claim
    case Slow(p, count, len, wlen) =>
      if IsWord(op, nr) then
        Slow(p, if wlen == 1 then count + LoopWeight(len) else count, len, Counted(wlen, len))
      else if op.Vsync? then Slow(p, count + LoopWeight(len), len, wlen)
      else if op.WriteLen? && op.nr == nr then Slow(p, count, op.value, wlen)
      else claim
    case Timing => claim
    case Fixed(_, _) => claim
    case Irqs(_) => claim
    case Tuned(_, _) => claim
    case Sounds(_) => claim
    case Steps(_) => claim
    case Waits(_, _) => claim
    case Called(_, _, _) => claim
  }

  /* ---------- Bringing the engine up to date ---------- */

  /** What Keeps says about the call of update_audio in an operation. */
  lemma CalmBefore(claim: Claim, d: Device, nr: nat, now: int)
    requires Valid(d) && nr < AUDIO_CHANNELS_PAULA && Lasting(claim)
    requires !NeedsCare(claim) || !(Reaches(d, nr, now) && Hackable(d.env, d.engine.ch[nr], nr))
    ensures Calm(claim, d.env, nr, d.engine.ch[nr], d.engine.time, Elapsed(d.engine, now), false)
  {
    hide Hackable, Armed;
  }

  lemma CalmThroughout(claim: Claim, e: Env, nr: nat, c: Channel, time: int, left: int)
    requires nr < |e.lines| && Lasting(claim) && (!NeedsCare(claim) || !Hackable(e, c, nr))
    ensures Calm(claim, e, nr, c, time, left, true)
  {
    hide Hackable;
  }

  /** Waiting for the same moment. */
  predicate SameDue(c: Channel, time: int, d: Channel, later: int) {
    d.evtime == MAX_EV || later + d.evtime == time + c.evtime
  }

  /** The enable flag and the hacks after a call of update_audio. */
  lemma UpdateSettles(d: Device, nr: nat, now: int)
    requires Valid(d) && nr < AUDIO_CHANNELS_PAULA && Unattached(d.env, nr) && PeriodsUntouched(d.env, nr)
    ensures var c, f := d.engine.ch[nr], UpdateAudio(d.env, d.engine, now).ch[nr];
            && f.dma.enaStore == EnaAt(d, nr, now)
            && (Reaches(d, nr, now) ==> |f.log.hacks| == |c.log.hacks| + (if HackTaken(d.env, c, nr) then 1 else 0))
            && (Reaches(d, nr, now) ==> !HackTaken(d.env, f, nr))
            && (!Reaches(d, nr, now) ==>
                  Untouched(c, f) && SameDue(c, d.engine.time, f, UpdateAudio(d.env, d.engine, now).time))
  {
    hide Armed, UpdateAudio, HackTaken, EnaAfter;
    var e, s, c := d.env, d.engine, d.engine.ch[nr];
    var t := UpdateAudio(e, s, now);
    assert Armed(t.ch[nr]);
    if Reaches(d, nr, now) {
      UpdateHolds(Called(s.time + c.evtime, |c.log.hacks| + (if HackTaken(e, c, nr) then 1 else 0), EnaAfter(e, c, nr)),
                  e, s, now, nr, false);
      NotNow(t.ch[nr]);
      NotNow(c);
    } else {
      UpdateHolds(Waits(c, s.time + c.evtime), e, s, now, nr, false);
    }
  }

  lemma NotNow(c: Channel)
    requires Armed(c)
    ensures c.evtime > 0
  {
  }

  /* ---------- One operation ---------- */

  lemma HackHolds(claim: Claim, e: Env, l: Line, c: Channel, time: int)
    requires Holds(claim, c, time) && Lasting(claim) && !claim.Slow? && 1 <= e.maxhpos <= 0x10000
    requires claim.Fixed? ==> HackHarmless(e, l, c)
    ensures Holds(claim, LowPeriodHack(e, l, c), time)
  {
    hide Playback, StepsSpaced;
    if LowLoop(e, l, c) {
      var d := c.(dma := c.dma.(minperloop := c.dma.minperloop + LoopWeight(c.dma.len)));
      CountHolds(claim, c, d.dma.minperloop, time);
      if HackFires(e, l, c) { PeriodHolds(claim, d, RaisedPeriod(e), time); }
    }
  }

  lemma CountHolds(claim: Claim, c: Channel, count: int, time: int)
    requires Holds(claim, c, time) && Lasting(claim) && !claim.Slow?
    ensures Holds(claim, c.(dma := c.dma.(minperloop := count)), time)
  {
    hide Heard, Blep.Mirrors, Blep.InOrder, Blep.Spaced, Echoed, Loud;
  }

  /** While the count stays below the limit the hack only counts. */
  lemma HackCounts(claim: Claim, e: Env, l: Line, c: Channel, time: int)
    requires claim.Slow? && Holds(claim, c, time) && LowLoop(e, l, c)
    requires claim.count + LoopWeight(claim.len) < PERIOD_MIN_LOOP_COUNT
    ensures Holds(claim.(count := claim.count + LoopWeight(claim.len)), LowPeriodHack(e, l, c), time)
  {
  }

  lemma DataHolds(claim: Claim, e: Env, l: Line, c: Channel, v: int, ena: bool, preset: bool, time: int)
    requires Holds(claim, c, time) && Lasting(claim) && 1 <= e.maxhpos <= 0x10000
    requires claim.Fixed? && ena && c.dma.wlen == 1 ==> HackHarmless(e, l, c)
    requires claim.Stream? || claim.Slow? ==> !ena
    requires claim.Irqs? && ena ==> c.dma.wlen != 1 || preset
    ensures Holds(claim, DataWhilePlaying(e, l, c, v, ena, preset), time)
  {
    hide Playback, StepsSpaced, LowPeriodHack;
    var d := c.(dma := WordFetched(c.dma, preset));
    if !ena {
      AlikeHolds(claim, c, DataWhilePlaying(e, l, c, v, ena, preset), time);
    } else {
      FetchHolds(claim, c, preset, time);
      if c.dma.wlen == 1 {
        HackHolds(claim, e, l, d, time);
        var f := LowPeriodHack(e, l, d);
        AlikeHolds(claim, f, f.(dma := f.dma.(datWritten := false)), time);
      } else {
        AlikeHolds(claim, d, d.(dma := d.dma.(datWritten := false)), time);
      }
    }
  }

  lemma FetchHolds(claim: Claim, c: Channel, preset: bool, time: int)
    requires Holds(claim, c, time) && Lasting(claim) && !claim.Stream? && !claim.Slow?
    requires claim.Irqs? ==> c.dma.wlen != 1 || preset
    ensures Holds(claim, c.(dma := WordFetched(c.dma, preset)), time)
  {
    hide Heard, Blep.Mirrors, Blep.InOrder, Blep.Spaced, Echoed, Loud;
  }

  /** A DMA word for a stream. */
  lemma WordHolds(claim: Claim, e: Env, nr: nat, c: Channel, op: Op, time: int)
    requires IsWord(op, nr) && (claim.Stream? || claim.Slow?) && Holds(claim, c, time)
    requires nr < |e.lines| && Under(claim, e, nr)
    requires claim.Slow? ==> Next(claim, op, nr).count < PERIOD_MIN_LOOP_COUNT
    ensures Holds(Next(claim, op, nr), DataWhilePlaying(e, e.lines[nr], c, op.value, true, op.preset), time)
  {
  }

  /** event_audxdat_func for any channel `j`. */
  lemma DataArrivesHolds(claim: Claim, d: Device, op: Op, nr: nat)
    requires Valid(d) && op.DataEvent? && ValidOp(op) && nr < AUDIO_CHANNELS_PAULA && Under(claim, d.env, nr)
    requires Holds(claim, d.engine.ch[nr], d.engine.time) && Keeps(claim, d, op, nr)
    ensures var t := Apply(d, op).engine; Holds(Next(claim, op, nr), t.ch[nr], t.time)
  {
    hide Holds, Serve, UpdateAudio, DataWhilePlaying, Armed, Under, Hackable, HackHarmless;
    var e, s, j := d.env, d.engine, op.nr;
    var c := s.ch[j];
    ReplaceKeepsInv(e, s, j, c);
    KnownWhenArmed(c);
    if !Playing(c) {
      NotStreaming(claim, s.ch[nr], s.time, op, nr);
      WordStoredHolds(claim, d, op, nr);
    } else if j == nr {
      if (claim.Stream? || claim.Slow?) && op.ena {
        WordHolds(claim, e, nr, c, op, s.time);
      } else {
        DataHolds(claim, e, e.lines[nr], c, op.value, op.ena, op.preset, s.time);
      }
    }
  }

  lemma NotStreaming(claim: Claim, c: Channel, time: int, op: Op, nr: nat)
    requires Holds(claim, c, time) && op.DataEvent?
    ensures !Playing(c) || op.nr != nr ==> Next(claim, op, nr) == claim
  {
  }

  /** The same outside states 2 and 3: the word is stored, the engine brought up to date, the state machine
      called. */
  lemma WordStoredHolds(claim: Claim, d: Device, op: Op, nr: nat)
    requires Valid(d) && op.DataEvent? && ValidOp(op) && nr < AUDIO_CHANNELS_PAULA && Under(claim, d.env, nr)
    requires Holds(claim, d.engine.ch[nr], d.engine.time) && Lasting(claim)
    requires !Playing(d.engine.ch[op.nr]) && (!NeedsCare(claim) || !TakesHack(d, op, nr))
    ensures var t := Apply(d, op).engine; Holds(claim, t.ch[nr], t.time)
  {
    hide Holds, Calm, Serve, UpdateAudio, DataWhilePlaying, Armed, Under, Hackable;
    var e, s, j := d.env, d.engine, op.nr;
    var c := s.ch[j];
    ReplaceKeepsInv(e, s, j, c);
    KnownWhenArmed(c);
    StoredWordKeepsArmed(c, op.value);
    ReplaceKeepsInv(e, s, j, WithWord(c, op.value));
    var q := s.(ch := s.ch[j := WithWord(c, op.value)]);
    if j == nr {
      AlikeHolds(claim, c, WithWord(c, op.value), s.time);
      CalmThroughout(claim, e, nr, WithWord(c, op.value), s.time, Elapsed(q, op.now));
    } else {
      CalmBefore(claim, d, nr, op.now);
    }
    UpdateHolds(claim, e, q, op.now, nr, j == nr);
    var t := UpdateAudio(e, q, op.now);
    ServeHolds(claim, e, t.ch, t.time, j, false, nr, 0, j == nr);
    var served := Serve(e, t.ch, t.time, j, false);
    AlikeHolds(claim, served[nr], served[nr].(dma := served[nr].dma.(datWritten := false)), t.time);
  }

  lemma KnownWhenArmed(c: Channel)
    requires Armed(c)
    ensures Playing(c) <==> c.state % 16 == 2 || c.state % 16 == 3
  {
  }

  /** An operation that begins by bringing the engine up to date. */
  lemma UpdateFirst(claim: Claim, d: Device, op: Op, now: int, nr: nat)
    requires Valid(d) && ValidOp(op) && nr < AUDIO_CHANNELS_PAULA && Under(claim, d.env, nr)
    requires op.Update? || op.WritePer? || op.WriteLen? || op.WriteVol?
    requires now == op.now && Holds(claim, d.engine.ch[nr], d.engine.time) && Keeps(claim, d, op, nr)
    ensures var t := UpdateAudio(d.env, d.engine, now); Holds(claim, t.ch[nr], t.time)
  {
    hide Holds, Calm, Under, UpdateAudio, Armed, Hackable, KeepsPeriod, Stores;
    CalmBefore(claim, d, nr, now);
    UpdateHolds(claim, d.env, d.engine, now, nr, false);
  }

  /** A period written to an up-to-date channel. */
  lemma PeriodWriteHolds(claim: Claim, e: Env, c: Channel, v: int, time: int)
    requires Holds(claim, c, time) && Armed(c) && 0 <= v < 0x10000 && Allows(claim, StoredPeriod(e, c.dma.enaStore, v))
    ensures Holds(claim, PerWritten(e, c, v), time)
  {
    hide Heard, Blep.Mirrors, Blep.InOrder, Blep.Spaced, Echoed, Loud;
    var p := StoredPeriod(e, c.dma.enaStore, v);
    assert CYCLE_UNIT <= p < PERIOD_MAX - 1;
    if PeriodSet(c) {
      assert PerWritten(e, c, v) == c.(per := p);
      PeriodHolds(claim, c, p, time);
    }
  }

  lemma FixedIs(claim: Claim, c: Channel, time: int)
    requires Holds(claim, c, time)
    ensures claim.Fixed? ==> claim.per == c.per
  {
  }

  lemma WritePerHolds(claim: Claim, d: Device, op: Op, nr: nat)
    requires Valid(d) && op.WritePer? && ValidOp(op) && nr < AUDIO_CHANNELS_PAULA && Under(claim, d.env, nr)
    requires Holds(claim, d.engine.ch[nr], d.engine.time) && Keeps(claim, d, op, nr)
    ensures var t := Apply(d, op).engine; |t.ch| == AUDIO_CHANNELS_PAULA && Holds(claim, t.ch[nr], t.time)
  {
    hide Holds, Calm, UpdateAudio, PerWritten, Armed, Hackable;
    FixedIs(claim, d.engine.ch[nr], d.engine.time);
    UpdateFirst(claim, d, op, op.now, nr);
    var t := UpdateAudio(d.env, d.engine, op.now);
    if op.nr == nr {
      if claim.Fixed? || claim.Slow? { UpdateSettles(d, nr, op.now); }
      PeriodWriteHolds(claim, d.env, t.ch[nr], op.value, t.time);
    }
  }

  lemma WriteVolHolds(claim: Claim, d: Device, op: Op, nr: nat)
    requires Valid(d) && op.WriteVol? && ValidOp(op) && nr < AUDIO_CHANNELS_PAULA && Under(claim, d.env, nr)
    requires Holds(claim, d.engine.ch[nr], d.engine.time) && Keeps(claim, d, op, nr)
    ensures var t := Apply(d, op).engine; |t.ch| == AUDIO_CHANNELS_PAULA && Holds(claim, t.ch[nr], t.time)
  {
    hide Holds, Under, UpdateAudio, Armed, TakesHack, Stores, KeepsPeriod;
    UpdateFirst(claim, d, op, op.now, nr);
    var t := UpdateAudio(d.env, d.engine, op.now);
    TunedIs(claim, t.ch[nr], t.time);
    if op.nr == nr {
      AlikeHolds(claim, t.ch[nr], t.ch[nr].(data := t.ch[nr].data.(audvol := VolumeOf(op.value))), t.time);
    }
  }

  lemma TunedIs(claim: Claim, c: Channel, time: int)
    requires Holds(claim, c, time)
    ensures claim.Tuned? ==> c.data.audvol == claim.register
  {
  }

  lemma LenHolds(claim: Claim, c: Channel, op: Op, nr: nat, time: int)
    requires op.WriteLen? && op.nr == nr && Holds(claim, c, time) && Lasting(claim)
    requires claim.Stream? ==> op.value == claim.len
    ensures Holds(Next(claim, op, nr), c.(dma := c.dma.(len := op.value)), time)
  {
    hide Heard, Blep.Mirrors, Blep.InOrder, Blep.Spaced, Echoed, Loud;
  }

  lemma DatHolds(claim: Claim, e: Env, c: Channel, nr: int, v: int, time: int)
    requires 0 <= nr < |e.lines| && Holds(claim, c, time) && Lasting(claim)
    requires claim.Irqs? ==> Announced(DatWritten(e, c, nr, v)) == Announced(c)
    ensures Holds(claim, DatWritten(e, c, nr, v), time)
  {
    hide Holds;
    AlikeHolds(claim, c, DatWritten(e, c, nr, v), time);
  }

  lemma DatAnnounces(d: Device, op: Op, nr: nat)
    requires Valid(d) && nr < AUDIO_CHANNELS_PAULA && op.WriteDat? && op.nr == nr
    ensures var c := d.engine.ch[nr];
            Announced(DatWritten(d.env, c, nr, op.value)) ==
            Announced(c) + if SetsFlag(d, op, nr) && !c.dma.intreq2 then 1 else 0
  {
    assert Armed(d.engine.ch[nr]);
    KnownWhenArmed(d.engine.ch[nr]);
  }

  lemma VsyncHolds(claim: Claim, d: Device, nr: nat)
    requires Valid(d) && nr < AUDIO_CHANNELS_PAULA && Under(claim, d.env, nr)
    requires Holds(claim, d.engine.ch[nr], d.engine.time) && Keeps(claim, d, Vsync, nr)
    ensures Holds(Next(claim, Vsync, nr), LowPeriodHack(d.env, d.env.lines[nr], d.engine.ch[nr]), d.engine.time)
  {
    hide Playback, StepsSpaced, LowPeriodHack, HackHarmless, Armed, Hackable;
    if claim.Slow? {
      HackCounts(claim, d.env, d.env.lines[nr], d.engine.ch[nr], d.engine.time);
    } else {
      HackHolds(claim, d.env, d.env.lines[nr], d.engine.ch[nr], d.engine.time);
    }
  }

  lemma PolledHolds(claim: Claim, d: Device, op: Op, nr: nat)
    requires Valid(d) && op.StateMachine? && nr < AUDIO_CHANNELS_PAULA && Under(claim, d.env, nr)
    requires Holds(claim, d.engine.ch[nr], d.engine.time) && Keeps(claim, d, op, nr)
    ensures var t := Apply(d, op).engine; Holds(claim, t.ch[nr], t.time)
  {
    hide Holds, Calm, Under, UpdateAudio, PollFrom, Armed, Hackable;
    var t := UpdateAudio(d.env, d.engine, op.now);
    CalmThroughout(claim, d.env, nr, d.engine.ch[nr], d.engine.time, Elapsed(d.engine, op.now));
    UpdateHolds(claim, d.env, d.engine, op.now, nr, true);
    PollHolds(claim, d.env, t.ch, t.time, 0, nr);
  }

  lemma WriteLenHolds(claim: Claim, d: Device, op: Op, nr: nat)
    requires Valid(d) && op.WriteLen? && ValidOp(op) && nr < AUDIO_CHANNELS_PAULA && Under(claim, d.env, nr)
    requires Holds(claim, d.engine.ch[nr], d.engine.time) && Keeps(claim, d, op, nr)
    ensures var t := Apply(d, op).engine;
            |t.ch| == AUDIO_CHANNELS_PAULA && Holds(Next(claim, op, nr), t.ch[nr], t.time)
  {
    hide Holds, Under, UpdateAudio, Armed, TakesHack, Stores, KeepsPeriod;
    UpdateFirst(claim, d, op, op.now, nr);
    var t := UpdateAudio(d.env, d.engine, op.now);
    if op.nr == nr { LenHolds(claim, t.ch[nr], op, nr, t.time); }
  }

  lemma WriteDatHolds(claim: Claim, d: Device, op: Op, nr: nat)
    requires Valid(d) && op.WriteDat? && ValidOp(op) && nr < AUDIO_CHANNELS_PAULA
    requires Holds(claim, d.engine.ch[nr], d.engine.time) && Keeps(claim, d, op, nr)
    ensures var t := Apply(d, op).engine; |t.ch| == AUDIO_CHANNELS_PAULA && Holds(claim, t.ch[nr], t.time)
  {
    hide Holds, Under, DatWritten, Armed, SetsFlag, KeepsPeriod;
    if op.nr == nr {
      DatAnnounces(d, op, nr);
      DatHolds(claim, d.env, d.engine.ch[nr], nr, op.value, d.engine.time);
    }
  }

  /** Every operation keeps every claim, under the condition that belongs to it. */
  lemma ApplyHolds(claim: Claim, d: Device, op: Op, nr: nat)
    requires Valid(d) && ValidOp(op) && nr < AUDIO_CHANNELS_PAULA && Under(claim, d.env, nr)
    requires Holds(claim, d.engine.ch[nr], d.engine.time) && Keeps(claim, d, op, nr)
    ensures var t := Apply(d, op).engine;
            |t.ch| == AUDIO_CHANNELS_PAULA && Holds(Next(claim, op, nr), t.ch[nr], t.time)
  {
    hide Holds, Calm, Under, UpdateAudio, PollFrom, DataArrives, PerWritten, DatWritten, Armed, LowPeriodHack,
      HackHarmless, Hackable, KeepsPeriod, Stores, TakesHack;
    ApplyKeepsValid(d, op);
    var e, s := d.env, d.engine;
    var c := s.ch[nr];
    match op
    case Update(now) => UpdateFirst(claim, d, op, now, nr);
    case Registers(_, _, _) =>
    case Preferences(_, _, _, _, _, _) =>
    case StateMachine(_) => PolledHolds(claim, d, op, nr);
    case WritePer(_, _, _) => WritePerHolds(claim, d, op, nr);
    case WriteLen(_, _, _) => WriteLenHolds(claim, d, op, nr);
    case WriteVol(_, _, _) => WriteVolHolds(claim, d, op, nr);
    case WriteDat(_, _) => WriteDatHolds(claim, d, op, nr);
    case DataEvent(_, _, _, _, _) => DataArrivesHolds(claim, d, op, nr);
    case DsrEvent(n) => AlikeHolds(claim, c, c.(dma := c.dma.(dsr := true)), s.time);
    case Dmal => AlikeHolds(claim, c, c.(dma := c.dma.(dr := false, dsr := false)), s.time);
    case Vsync => VsyncHolds(claim, d, nr);
  }

  /* ---------- Runs of operations ---------- */

  /** Every operation of a run meets the claim's condition where it comes. */
  ghost predicate AllKeep(claim: Claim, d: Device, ops: seq<Op>, nr: nat)
    requires Valid(d) && nr < AUDIO_CHANNELS_PAULA && forall i :: 0 <= i < |ops| ==> ValidOp(ops[i])
    decreases |ops|
  {
    ops == [] ||
    (Keeps(claim, d, ops[0], nr) &&
     (ApplyKeepsValid(d, ops[0]); AllKeep(Next(claim, ops[0], nr), Apply(d, ops[0]), ops[1..], nr)))
  }

  function NextAll(claim: Claim, ops: seq<Op>, nr: nat): (r: Claim)
    ensures claim.Slow? ==> r.Slow? && r.per == claim.per
    decreases |ops|
  {
    if ops == [] then claim else NextAll(Next(claim, ops[0], nr), ops[1..], nr)
  }

  lemma {:induction false} RunsHold(claim: Claim, d: Device, ops: seq<Op>, nr: nat)
    requires Valid(d) && nr < AUDIO_CHANNELS_PAULA && forall i :: 0 <= i < |ops| ==> ValidOp(ops[i])
    requires Under(claim, d.env, nr) && Holds(claim, d.engine.ch[nr], d.engine.time) && AllKeep(claim, d, ops, nr)
    ensures var t := ApplyAll(d, ops);
            && Valid(t) && Under(NextAll(claim, ops, nr), t.env, nr)
            && Holds(NextAll(claim, ops, nr), t.engine.ch[nr], t.engine.time)
    decreases |ops|
  {
    hide Holds, Apply, ValidOp, Under, Next;
    if ops != [] {
      ApplyHolds(claim, d, ops[0], nr);
      ApplyKeepsValid(d, ops[0]);
      UnderNext(claim, Apply(d, ops[0]).env, ops[0], nr);
      RunsHold(Next(claim, ops[0], nr), Apply(d, ops[0]), ops[1..], nr);
    }
  }

  lemma UnderNext(claim: Claim, e: Env, op: Op, nr: nat)
    requires nr < |e.lines| && Under(claim, e, nr)
    ensures Under(Next(claim, op, nr), e, nr)
  {
  }

  lemma KeepsUnder(claim: Claim, d: Device, op: Op, nr: nat)
    requires Valid(d) && ValidOp(op) && nr < AUDIO_CHANNELS_PAULA && Keeps(claim, d, op, nr)
    ensures |Apply(d, op).env.lines| == AUDIO_CHANNELS_PAULA && Under(claim, Apply(d, op).env, nr)
  {
    hide Apply, Under, TakesHack, Stores, KeepsPeriod;
  }

  lemma {:induction false} NextOfOthers(claim: Claim, ops: seq<Op>, nr: nat)
    requires !claim.Stream? && !claim.Slow?
    ensures NextAll(claim, ops, nr) == claim
    decreases |ops|
  {
    if ops != [] { NextOfOthers(claim, ops[1..], nr); }
  }

  /** The operation leaves the channel unattached and the tracker-player hacks off. */
  predicate LeavesHacksOff(op: Op, nr: nat)
    requires ValidOp(op) && nr < AUDIO_CHANNELS_PAULA
  {
    match op
    case Registers(_, lines, _) => !lines[nr].attachVolume && !lines[nr].attachPeriod
    case Preferences(hacks, _, _, _, _, _) => !hacks
    case _ => true
  }

  /** Where the hacks are off throughout, the condition is met. */
  lemma {:induction false} HacksOffKeeps(claim: Claim, d: Device, ops: seq<Op>, nr: nat)
    requires claim.Timing? || claim.Steps?
    requires Valid(d) && nr < AUDIO_CHANNELS_PAULA && Under(claim, d.env, nr) && !d.env.hacks
    requires forall i :: 0 <= i < |ops| ==> ValidOp(ops[i]) && LeavesHacksOff(ops[i], nr)
    ensures AllKeep(claim, d, ops, nr)
    decreases |ops|
  {
    hide Apply;
    if ops != [] {
      HacksOffIsEnough(claim, d, ops[0], nr);
      ApplyKeepsValid(d, ops[0]);
      HacksOffKeeps(claim, Apply(d, ops[0]), ops[1..], nr);
    }
  }

  lemma HacksOffIsEnough(claim: Claim, d: Device, op: Op, nr: nat)
    requires claim.Timing? || claim.Steps?
    requires Valid(d) && nr < AUDIO_CHANNELS_PAULA && Under(claim, d.env, nr) && !d.env.hacks
    requires ValidOp(op) && LeavesHacksOff(op, nr)
    ensures Keeps(claim, d, op, nr) && Under(claim, Apply(d, op).env, nr) && !Apply(d, op).env.hacks
  {
    hide UpdateAudio, PollFrom, DataArrives, PerWritten, DatWritten, Armed;
  }

  /* ---------- Main results ---------- */

  /** Over any run that leaves a channel unattached and takes none of the tracker-player hacks: the bytes
      heard are, in order, the high and low byte of every word moved into dat2, and every byte is held
      exactly for the period in force when it began, whatever is written to any register meanwhile. */
  lemma EveryByteIsHeldForItsPeriod(d: Device, ops: seq<Op>, nr: nat)
    requires Valid(d) && nr < AUDIO_CHANNELS_PAULA && forall i :: 0 <= i < |ops| ==> ValidOp(ops[i])
    requires Unattached(d.env, nr) && Playback(d.engine.ch[nr], d.engine.time) && AllKeep(Timing, d, ops, nr)
    ensures var t := ApplyAll(d, ops); Valid(t) && Playback(t.engine.ch[nr], t.engine.time)
  {
    hide ValidOp, Playback, Keeps;
    RunsHold(Timing, d, ops, nr);
    NextOfOthers(Timing, ops, nr);
  }

  /** The first period written after reset starts the promise, whatever the value. */
  lemma ResetStartsPlayback(e: Env, start: int, nr: nat, v: int)
    requires ValidEnv(e) && nr < AUDIO_CHANNELS_PAULA && 0 <= v < 0x10000
    ensures Valid(Reset(e, start)) && Valid(Apply(Reset(e, start), WritePer(start, nr, v)))
    ensures var d := Apply(Reset(e, start), WritePer(start, nr, v));
            && d.env == e && d.engine.time == start && Playback(d.engine.ch[nr], start)
            && d.engine.ch[nr] == PerWritten(e, ResetChannel(), v)
  {
    var d := Reset(e, start);
    ApplyKeepsValid(d, WritePer(start, nr, v));
    assert UpdateAudio(e, d.engine, start) == d.engine;
  }

  /** The device after reset and a first period for channel `nr`. */
  ghost function Started(e: Env, start: int, nr: nat, v: int): (d: Device)
    requires ValidEnv(e) && nr < AUDIO_CHANNELS_PAULA && 0 <= v < 0x10000
    ensures Valid(d) && d.env == e && d.engine.time == start && Playback(d.engine.ch[nr], start)
  {
    ResetStartsPlayback(e, start, nr, v);
    Apply(Reset(e, start), WritePer(start, nr, v))
  }

  /** From reset on. */
  lemma HeardFromReset(e: Env, start: int, nr: nat, v: int, ops: seq<Op>)
    requires ValidEnv(e) && nr < AUDIO_CHANNELS_PAULA && Unattached(e, nr) && 0 <= v < 0x10000
    requires forall i :: 0 <= i < |ops| ==> ValidOp(ops[i])
    requires AllKeep(Timing, Started(e, start, nr, v), ops, nr)
    ensures var c := ApplyAll(Started(e, start, nr, v), ops).engine.ch[nr];
            Heard(c.log.words, c.log.bytes) && |c.log.bytes| >= 2 * |c.log.words| - 1
  {
    hide Heard, Started, AllKeep, ApplyAll;
    EveryByteIsHeldForItsPeriod(Started(e, start, nr, v), ops, nr);
  }

  /** An operation keeps the period of a channel that is not modulated from the one before if and only
      if it writes no other period and does not make the low period hack fire. */
  lemma PeriodStaysExactlyWhen(d: Device, op: Op, nr: nat)
    requires Valid(d) && ValidOp(op) && nr < AUDIO_CHANNELS_PAULA
    requires Unattached(d.env, nr) && PeriodsUntouched(d.env, nr)
    ensures |Apply(d, op).engine.ch| == AUDIO_CHANNELS_PAULA
    ensures Apply(d, op).engine.ch[nr].per == d.engine.ch[nr].per <==> KeepsPeriod(d, op, nr)
  {
    hide UpdateAudio, PollFrom, DataArrives, Armed, StoredPeriod, Holds;
    ApplyKeepsValid(d, op);
    var e, c := d.env, d.engine.ch[nr];
    var claim := Fixed(c.per, c.log.bytes);
    if !KeepsPeriod(d, op, nr) {
      PeriodMoves(d, op, nr);
    } else if !op.Registers? && !op.Preferences? {
      FixedNow(c, d.engine.time);
      ApplyHolds(claim, d, op, nr);
      FixedIs(claim, Apply(d, op).engine.ch[nr], Apply(d, op).engine.time);
    }
  }

  /** What AUDxPER leaves behind, in colour clocks of 512 units: the value written, 65536 for zero; a value below 60
      becomes 60 while the stored enable flag is on, unless the CPU is cycle exact.  Only the first write after
      reset also starts the channel's time. */
  lemma PeriodWrittenIs(d: Device, now: int, nr: nat, v: int)
    requires Valid(d) && ValidOp(WritePer(now, nr, v))
    ensures var c, f := UpdateAudio(d.env, d.engine, now).ch[nr], Apply(d, WritePer(now, nr, v)).engine.ch[nr];
            && f == c.(per := f.per, evtime := if c.per == 0x7FFF_FFFE then 512 else c.evtime)
            && (v == 0 ==> f.per == 65536 * 512)
            && (v >= 60 ==> f.per == v * 512)
            && (0 < v < 60 ==> f.per == (if c.dma.enaStore && !d.env.cycleExact then 60 * 512 else v * 512))
  {
    hide UpdateAudio, Armed;
  }

  lemma FixedNow(c: Channel, time: int)
    ensures Holds(Fixed(c.per, c.log.bytes), c, time)
  {
  }

  lemma PeriodMoves(d: Device, op: Op, nr: nat)
    requires Valid(d) && ValidOp(op) && nr < AUDIO_CHANNELS_PAULA && !KeepsPeriod(d, op, nr)
    requires Unattached(d.env, nr) && PeriodsUntouched(d.env, nr)
    ensures |Apply(d, op).engine.ch| == AUDIO_CHANNELS_PAULA
    ensures Apply(d, op).engine.ch[nr].per ==
            if op.WritePer? then StoredPeriod(d.env, EnaAt(d, nr, op.now), op.value) else RaisedPeriod(d.env)
    ensures Apply(d, op).engine.ch[nr].per != d.engine.ch[nr].per
  {
    hide Apply, Armed, StoredPeriod, EnaAt;
    if op.WritePer? {
      WriteMoves(d, op, nr);
    } else {
      RaiseMoves(d, op, nr);
    }
  }

  lemma WriteMoves(d: Device, op: Op, nr: nat)
    requires Valid(d) && op.WritePer? && ValidOp(op) && op.nr == nr
    requires Unattached(d.env, nr) && PeriodsUntouched(d.env, nr)
    ensures |Apply(d, op).engine.ch| == AUDIO_CHANNELS_PAULA
    ensures Apply(d, op).engine.ch[nr].per == StoredPeriod(d.env, EnaAt(d, nr, op.now), op.value)
  {
    hide UpdateAudio, Armed, StoredPeriod, EnaAt;
    UpdateSettles(d, nr, op.now);
  }

  lemma RaiseMoves(d: Device, op: Op, nr: nat)
    requires Valid(d) && ValidOp(op) && nr < AUDIO_CHANNELS_PAULA && HackFires(d.env, d.env.lines[nr], d.engine.ch[nr])
    requires op.Vsync? || (IsWord(op, nr) && d.engine.ch[nr].dma.wlen == 1)
    ensures |Apply(d, op).engine.ch| == AUDIO_CHANNELS_PAULA
    ensures Apply(d, op).engine.ch[nr].per == RaisedPeriod(d.env)
  {
    hide Armed, LowPeriodHack;
    var c := d.engine.ch[nr];
    HackRaises(d.env, d.env.lines[nr], c);
    if op.DataEvent? { HackRaises(d.env, d.env.lines[nr], c.(dma := WordFetched(c.dma, op.preset))); }
  }

  lemma HackRaises(e: Env, l: Line, c: Channel)
    ensures HackFires(e, l, c) ==> LowPeriodHack(e, l, c).per == RaisedPeriod(e)
  {
  }

  /** A run that keeps the period at `p` and takes no hack holds every byte, from now on, exactly that
      long. */
  lemma WordsAreHeardInOrderAndInTime(d: Device, ops: seq<Op>, nr: nat, p: int)
    requires Valid(d) && nr < AUDIO_CHANNELS_PAULA && forall i :: 0 <= i < |ops| ==> ValidOp(ops[i])
    requires Unattached(d.env, nr) && PeriodsUntouched(d.env, nr)
    requires Playback(d.engine.ch[nr], d.engine.time) && d.engine.ch[nr].per == p
    requires AllKeep(Timing, d, ops, nr) && AllKeep(Fixed(p, d.engine.ch[nr].log.bytes), d, ops, nr)
    ensures var t := ApplyAll(d, ops);
            && Valid(t) && Playback(t.engine.ch[nr], t.engine.time) && t.engine.ch[nr].per == p
            && d.engine.ch[nr].log.bytes <= t.engine.ch[nr].log.bytes
            && forall k :: |d.engine.ch[nr].log.bytes| <= k < |t.engine.ch[nr].log.bytes| ==>
                 t.engine.ch[nr].log.bytes[k].hold == p
  {
    hide Playback, Apply, Keeps, ValidOp;
    var claim := Fixed(p, d.engine.ch[nr].log.bytes);
    RunsHold(Timing, d, ops, nr);
    RunsHold(claim, d, ops, nr);
    NextOfOthers(claim, ops, nr);
    NextOfOthers(Timing, ops, nr);
  }
}

/** What feeds the interpolators of the Paula engine over whole runs (src/core/audio.cpp): nothing but the
    passing of time, and every operation passes it through update_audio. */
module PaulaFeeds {
  import opened PaulaChannel
  import opened PaulaEngine
  import opened PaulaRegisters
  import opened PaulaPlayback
  import opened PaulaClaims
  import opened PaulaRuns

  /* ---------- What feeds the interpolators ---------- */

  predicate SameFeed(c: Channel, d: Channel) {
    c.data.sinc == d.data.sinc && c.data.history == d.data.history &&
    c.data.accum == d.data.accum && c.data.accumTime == d.data.accumTime
  }

  /** What newsample and update_volume can leave. */
  predicate Mild(c: Channel) {
    -128 <= c.data.currentSample <= 127 && 0 <= c.data.audvol <= 64 && 0 <= c.data.mixvol <= 64
  }

  /** A call may change the sample and the volume, nothing that has been fed. */
  predicate Feeds(c: Channel, d: Channel) {
    SameFeed(c, d) && (Mild(c) ==> Mild(d))
  }

  lemma EnteringFeeds(e: Env, l: Line, ena: bool, c: Channel, time: int)
    ensures Feeds(c, EnterHigh(l, c, time)) && Feeds(c, EnterLow(e, l, ena, c, time))
  {
  }

  lemma CheckFeeds(e: Env, l: Line, ena: bool, c: Channel, time: int)
    ensures Feeds(c, DmaOffCheck(e, l, ena, c, time))
  {
    hide CutShort;
    CutFeeds(e, l, c.(dma := c.dma.(enaStore := ena)), time);
  }

  lemma CutFeeds(e: Env, l: Line, c: Channel, time: int)
    ensures Feeds(c, CutShort(e, l, c, time))
  {
  }

  lemma IdleFeeds(e: Env, l: Line, ena: bool, c: Channel, nr: int, time: int)
    ensures Feeds(c, Idle(e, l, ena, c, nr, time).0)
  {
    hide LoadDat, SetDr, CutShort, EnterHigh;
    var d := LoadDat(l, SetIrq(c.(state := 2), time), nr, false, true).0;
    CutFeeds(e, l, d, time);
    EnteringFeeds(e, l, ena, d.(pbufldl := true), time);
  }

  lemma StartFeeds(e: Env, l: Line, ena: bool, c: Channel, nr: int, time: int)
    ensures Feeds(c, Start(e, ena, c, time)) && Feeds(c, Prefetch(e, l, ena, c, nr, time).0)
    ensures Feeds(c, LastUnit(l, ena, c))
  {
    hide LoadDat, SetDr, EnterHigh;
    EnteringFeeds(e, l, ena, FirstWord(e, l, c, nr, time).0, time);
  }

  lemma LeaveHighFeeds(e: Env, l: Line, ena: bool, c: Channel, nr: int, time: int)
    ensures Feeds(c, LeaveHigh(e, l, ena, c, nr, time).0)
  {
    hide LoadDat, SetDr, EnterLow, Reloaded, Mild;
    EnteringFeeds(e, l, ena, HighDone(e, l, ena, c, nr, time).0, time);
    SameData(c, HighDone(e, l, ena, c, nr, time).0);
  }

  lemma LeaveLowFeeds(e: Env, l: Line, ena: bool, c: Channel, nr: int, time: int)
    ensures Feeds(c, LeaveLow(e, l, ena, c, nr, time).0)
  {
    hide LoadDat, SetDr, EnterHigh, Reloaded, Mild, LateCheck;
    var d := if ena then c else ManualDone(l, c, time);
    LateCheckFeeds(l, c);
    EnteringFeeds(e, l, ena, NextWord(e, l, ena, d, nr, time).0, time);
    SameData(c, d);
    SameData(c, ZeroState(e, d, false));
    SameData(d, NextWord(e, l, ena, d, nr, time).0);
  }

  lemma LateCheckFeeds(l: Line, c: Channel)
    ensures LateCheck(l, c).data == c.data
  {
  }

  lemma SameData(c: Channel, d: Channel)
    ensures c.data == d.data ==> Feeds(c, d)
  {
  }

  lemma ServiceFeeds(e: Env, c: Channel, nr: int, time: int, perfin: bool)
    requires 0 <= nr < |e.lines|
    ensures Feeds(c, StateChannel2(e, c, nr, time, perfin).0)
  {
    hide Idle, Start, Prefetch, LeaveHigh, LeaveLow, EnterHigh, EnterLow, LastUnit, DmaOffCheck;
    var l, ena := e.lines[nr], Enabled(e, nr);
    var b := DmaOffCheck(e, l, ena, c, time);
    CheckFeeds(e, l, ena, c, time);
    IdleFeeds(e, l, ena, b, nr, time);
    StartFeeds(e, l, ena, b, nr, time);
    EnteringFeeds(e, l, ena, b, time);
    LeaveHighFeeds(e, l, ena, EnterHigh(l, b, time), nr, time);
    LeaveLowFeeds(e, l, ena, EnterLow(e, l, ena, b, time), nr, time);
  }

  lemma ServeFeeds(e: Env, ch: seq<Channel>, time: int, j: nat, perfin: bool, nr: nat)
    requires ValidEnv(e) && |ch| == AUDIO_CHANNELS_PAULA && j < |ch| && nr < |ch|
    requires if perfin then Due(ch[j]) else Armed(ch[j])
    ensures Feeds(ch[nr], Serve(e, ch, time, j, perfin)[nr])
  {
    hide StateChannel2, Armed, Due;
    ServiceFeeds(e, ch[j], j, time, perfin);
    ServiceModulates(e, ch[j], j, time, perfin);
  }

  lemma {:induction false} ServeDueFeeds(e: Env, ch: seq<Channel>, time: int, i: nat, nr: nat)
    requires ValidEnv(e) && |ch| == AUDIO_CHANNELS_PAULA && i <= |ch| && nr < |ch| && ServedUpTo(ch, i)
    ensures Feeds(ch[nr], ServeDue(e, ch, time, i)[nr])
    decreases |ch| - i
  {
    hide Serve, Armed, Due, Mild;
    if i < |ch| {
      if ch[i].evtime == 0 {
        DueIsDue(ch[i]);
        ServeArms(e, ch, time, i);
        ServeFeeds(e, ch, time, i, true, nr);
      } else {
        NotDueIsArmed(ch[i]);
      }
      ServeDueFeeds(e, if ch[i].evtime == 0 then Serve(e, ch, time, i, true) else ch, time, i + 1, nr);
    }
  }

  lemma {:induction false} PollFeeds(e: Env, ch: seq<Channel>, time: int, i: nat, nr: nat)
    requires ValidEnv(e) && AllArmed(ch) && i <= |ch| && nr < |ch|
    ensures Feeds(ch[nr], PollFrom(e, ch, time, i)[nr])
    decreases |ch| - i
  {
    hide Serve, Armed, Mild;
    if i < |ch| {
      ServeFeeds(e, ch, time, i, false, nr);
      PollArms(e, ch, time, i);
      PollFeeds(e, Serve(e, ch, time, i, false), time, i + 1, nr);
    }
  }

  /** After the sample instant only the service loop is left. */
  lemma PassIs(e: Env, s: Engine, best: nat, nr: nat)
    requires Inv(e, s) && best >= 1 && NothingBefore(e, s, best) && nr < |s.ch|
    ensures var w, t := Sampled(e, s, best), Pass(e, s, best);
            && t.samples == w.samples && t.next == w.next && t.time == w.time
            && |w.ch| == |t.ch| == AUDIO_CHANNELS_PAULA && Feeds(w.ch[nr], t.ch[nr])
  {
    hide Sampled, ServeDue, Armed, Mild;
    var w := Sampled(e, s, best);
    SampledAreServed(e, s, best);
    ServeDueFeeds(e, w.ch, w.time, 0, nr);
  }

  /* ---------- Operations ---------- */

  /** The engine that an operation brings up to date: a word for a channel that is not playing is stored
      first. */
  ghost function Advanced(d: Device, op: Op): Engine
    requires Valid(d) && ValidOp(op)
  {
    if op.DataEvent? && !Playing(d.engine.ch[op.nr]) then
      d.engine.(ch := d.engine.ch[op.nr := WithWord(d.engine.ch[op.nr], op.value)])
    else d.engine
  }

  /** The operation calls update_audio. */
  ghost predicate Updates(d: Device, op: Op)
    requires Valid(d) && ValidOp(op)
  {
    op.Update? || op.StateMachine? || op.WritePer? || op.WriteLen? || op.WriteVol? ||
    (op.DataEvent? && !Playing(d.engine.ch[op.nr]))
  }

  function Now(op: Op): int {
    match op
    case Update(now) => now
    case StateMachine(now) => now
    case WritePer(now, _, _) => now
    case WriteLen(now, _, _) => now
    case WriteVol(now, _, _) => now
    case DataEvent(now, _, _, _, _) => now
    case Registers(_, _, _) => 0
    case Preferences(_, _, _, _, _, _) => 0
    case WriteDat(_, _) => 0
    case DsrEvent(_) => 0
    case Dmal => 0
    case Vsync => 0
  }

  lemma AdvancedIs(d: Device, op: Op, nr: nat)
    requires Valid(d) && ValidOp(op) && nr < AUDIO_CHANNELS_PAULA
    ensures var q := Advanced(d, op);
            && Inv(d.env, q) && q.samples == d.engine.samples && q.next == d.engine.next && q.time == d.engine.time
            && Feeds(d.engine.ch[nr], q.ch[nr])
  {
    hide Armed;
    if op.DataEvent? {
      var c := d.engine.ch[op.nr];
      ReplaceKeepsInv(d.env, d.engine, op.nr, c);
      StoredWordKeepsArmed(c, op.value);
      ReplaceKeepsInv(d.env, d.engine, op.nr, WithWord(c, op.value));
    }
  }

  /** Beside the call of update_audio an operation takes no sample and feeds nothing. */
  lemma OnlyUpdateFeeds(d: Device, op: Op, nr: nat)
    requires Valid(d) && ValidOp(op) && nr < AUDIO_CHANNELS_PAULA
    ensures Inv(d.env, Advanced(d, op)) && |Apply(d, op).engine.ch| == AUDIO_CHANNELS_PAULA
    ensures var t := if Updates(d, op) then UpdateAudio(d.env, Advanced(d, op), Now(op)) else Advanced(d, op);
            var r := Apply(d, op).engine;
            && r.samples == t.samples && r.next == t.next && r.time == t.time
            && |t.ch| == AUDIO_CHANNELS_PAULA && Feeds(t.ch[nr], r.ch[nr])
  {
    hide UpdateAudio, Serve, PollFrom, Armed, Mild, LowPeriodHack, DataWhilePlaying, PerWritten, DatWritten;
    AdvancedIs(d, op, nr);
    ApplyKeepsValid(d, op);
    SmallChanges(d.env, d.engine.ch[nr], nr, op);
    if op.DataEvent? {
      EventFeeds(d, op, nr);
    } else if Updates(d, op) {
      var t := UpdateAudio(d.env, d.engine, Now(op));
      if op.StateMachine? { PollFeeds(d.env, t.ch, t.time, 0, nr); }
      SmallChanges(d.env, t.ch[nr], nr, op);
    }
  }

  lemma SmallChanges(e: Env, c: Channel, nr: nat, op: Op)
    requires nr < |e.lines| && ValidOp(op)
    ensures Feeds(c, c) && Feeds(c, LowPeriodHack(e, e.lines[nr], c))
    ensures op.WritePer? ==> Feeds(c, PerWritten(e, c, op.value))
    ensures op.WriteLen? ==> Feeds(c, c.(dma := c.dma.(len := op.value)))
    ensures op.WriteVol? ==> Feeds(c, c.(data := c.data.(audvol := VolumeOf(op.value))))
    ensures op.WriteDat? ==> Feeds(c, DatWritten(e, c, nr, op.value))
    ensures op.DataEvent? ==> Feeds(c, DataWhilePlaying(e, e.lines[nr], c, op.value, op.ena, op.preset))
    ensures Feeds(c, c.(dma := c.dma.(dsr := true))) && Feeds(c, c.(dma := c.dma.(dr := false, dsr := false)))
  {
    hide LowPeriodHack, StoredPeriod;
    HackFeeds(e, e.lines[nr], c);
    if op.DataEvent? { HackFeeds(e, e.lines[nr], c.(dma := WordFetched(c.dma, op.preset))); }
  }

  lemma HackFeeds(e: Env, l: Line, c: Channel)
    ensures LowPeriodHack(e, l, c).data == c.data
  {
  }

  lemma EventFeeds(d: Device, op: Op, nr: nat)
    requires Valid(d) && op.DataEvent? && ValidOp(op) && nr < AUDIO_CHANNELS_PAULA
    ensures Inv(d.env, Advanced(d, op)) && |Apply(d, op).engine.ch| == AUDIO_CHANNELS_PAULA
    ensures var t := if Updates(d, op) then UpdateAudio(d.env, Advanced(d, op), Now(op)) else Advanced(d, op);
            var r := Apply(d, op).engine;
            && r.samples == t.samples && r.next == t.next && r.time == t.time
            && |t.ch| == AUDIO_CHANNELS_PAULA && Feeds(t.ch[nr], r.ch[nr])
  {
    hide UpdateAudio, Serve, Armed, Mild, DataWhilePlaying;
    AdvancedIs(d, op, nr);
    ArmedOne(d, op.nr);
    KnownWhenArmed(d.engine.ch[op.nr]);
    SmallChanges(d.env, d.engine.ch[nr], nr, op);
    if Updates(d, op) {
      var t := UpdateAudio(d.env, Advanced(d, op), Now(op));
      ServeFeeds(d.env, t.ch, t.time, op.nr, false, nr);
      var served := Serve(d.env, t.ch, t.time, op.nr, false)[nr];
      SameData(served, served.(dma := served.dma.(datWritten := false)));
    }
  }

  lemma ArmedOne(d: Device, nr: nat)
    requires Valid(d) && nr < AUDIO_CHANNELS_PAULA
    ensures Armed(d.engine.ch[nr])
  {
  }

  lemma FixedPreferences(d: Device, op: Op)
    requires Valid(d) && ValidOp(op)
    ensures var e, f := d.env, Apply(d, op).env;
            && f.output == e.output && f.interpolation == e.interpolation && f.soundOn == e.soundOn
            && f.sampleTime == e.sampleTime && f.winsinc == e.winsinc
  {
    hide UpdateAudio, PollFrom, DataArrives, PerWritten, DatWritten, SlotsTaken, Vsynced, Valid, Inv, ValidOp;
  }
}

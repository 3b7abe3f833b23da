/** The two tracker-player hacks (src/core/audio.cpp, audio_state_channel2): exactly which operations make
    them cut a word short, and runs from reset in which they do. */
module PaulaHacks {
  import opened PaulaChannel
  import opened PaulaEngine
  import opened PaulaRegisters
  import opened PaulaPlayback
  import opened PaulaClaims
  import opened PaulaRuns
  import Blep

  /* ---------- Exactly when ---------- */

  lemma {:induction false} PolledAlready(e: Env, ch: seq<Channel>, time: int, i: nat, nr: nat)
    requires nr < i <= |ch| <= |e.lines|
    ensures PollFrom(e, ch, time, i)[nr] == ch[nr]
    decreases |ch| - i
  {
    hide StateChannel2, Modulate;
    if i < |ch| { PolledAlready(e, Serve(e, ch, time, i, false), time, i + 1, nr); }
  }

  /** What serving channel `j` does to the hacks of channel `nr`. */
  lemma ServeHacks(e: Env, ch: seq<Channel>, time: int, j: nat, nr: nat)
    requires ValidEnv(e) && AllArmed(ch) && j < |ch| && nr < |ch| && e.soundOn && PeriodsUntouched(e, nr)
    ensures var c, d := ch[nr], Serve(e, ch, time, j, false)[nr];
            if j == nr then |d.log.hacks| == |c.log.hacks| + if HackTaken(e, c, nr) then 1 else 0
            else d.log == c.log && HackTaken(e, d, nr) == HackTaken(e, c, nr)
  {
    hide StateChannel2, HackTaken, Armed;
    ArmedIsKnown(ch[nr]);
    if j == nr {
      ServedSettles(e, ch[nr], nr, time, false);
    } else if j + 1 == nr {
      ServiceModulates(e, ch[j], j, time, false);
      SameOutlook(e, nr, ch[nr], Modulate(ch[nr], StateChannel2(e, ch[j], j, time, false).2));
    }
  }

  lemma ArmedIsKnown(c: Channel)
    requires Armed(c)
    ensures KnownState(c.state) && !c.pbufldl && c.evtime > 0
  {
  }

  /** A poll calls the state machine of channel `nr` once, on a record that differs from the one before at most
      in the volume. */
  lemma {:induction false} PollOf(e: Env, ch: seq<Channel>, time: int, i: nat, nr: nat) returns (c: Channel)
    requires ValidEnv(e) && AllArmed(ch) && i <= nr < |ch| && PeriodsUntouched(e, nr)
    ensures Armed(c) && c == ch[nr].(data := ch[nr].data.(audvol := c.data.audvol))
    ensures PollFrom(e, ch, time, i)[nr] == Served(e, c, nr, time, false)
    decreases |ch| - i
  {
    hide StateChannel2, Armed, PeriodsUntouched, Modulate;
    var served := Serve(e, ch, time, i, false);
    PollArms(e, ch, time, i);
    if i == nr {
      c := ch[nr];
      PolledAlready(e, served, time, i + 1, nr);
    } else {
      if i + 1 == nr {
        ServiceModulates(e, ch[i], i, time, false);
        VolumeOnly(e, ch[nr], nr, StateChannel2(e, ch[i], i, time, false).2);
      }
      c := PollOf(e, served, time, i + 1, nr);
    }
  }

  lemma VolumeOnly(e: Env, c: Channel, nr: nat, m: Modulation)
    requires nr < |e.lines| && PeriodsUntouched(e, nr) && Expected(e, nr, m)
    ensures var d := Modulate(c, m); d == c.(data := c.data.(audvol := d.data.audvol))
  {
  }

  lemma PollHacks(e: Env, ch: seq<Channel>, time: int, nr: nat)
    requires ValidEnv(e) && AllArmed(ch) && nr < |ch| && e.soundOn && PeriodsUntouched(e, nr)
    ensures |PollFrom(e, ch, time, 0)[nr].log.hacks| ==
            |ch[nr].log.hacks| + if HackTaken(e, ch[nr], nr) then 1 else 0
  {
    hide HackTaken, Served, Armed;
    var c := PollOf(e, ch, time, 0, nr);
    ArmedIsKnown(c);
    ServedSettles(e, c, nr, time, false);
    SameOutlook(e, nr, ch[nr], c);
  }

  /** A call of update_audio followed by one call of the state machine takes a hack once if one is pending. */
  lemma UpdateThenCall(d: Device, nr: nat, now: int)
    requires Valid(d) && nr < AUDIO_CHANNELS_PAULA && Unattached(d.env, nr) && PeriodsUntouched(d.env, nr)
    ensures var c, f := d.engine.ch[nr], UpdateAudio(d.env, d.engine, now).ch[nr];
            |f.log.hacks| + (if HackTaken(d.env, f, nr) then 1 else 0) ==
            |c.log.hacks| + if HackTaken(d.env, c, nr) then 1 else 0
  {
    hide UpdateAudio, HackTaken, Armed, EnaAfter;
    var c, f := d.engine.ch[nr], UpdateAudio(d.env, d.engine, now).ch[nr];
    UpdateSettles(d, nr, now);
    if !Reaches(d, nr, now) { SameOutlook(d.env, nr, c, f); }
  }

  lemma StoredHacks(d: Device, op: Op, nr: nat)
    requires Valid(d) && op.DataEvent? && ValidOp(op) && nr < AUDIO_CHANNELS_PAULA
    requires Unattached(d.env, nr) && PeriodsUntouched(d.env, nr) && !Playing(d.engine.ch[op.nr])
    ensures |Apply(d, op).engine.ch| == AUDIO_CHANNELS_PAULA
    ensures |Apply(d, op).engine.ch[nr].log.hacks| ==
            |d.engine.ch[nr].log.hacks| + if TakesHack(d, op, nr) then 1 else 0
  {
    hide Serve, UpdateAudio, HackTaken, Armed, EnaAfter, EnaAt;
    var e, s, j := d.env, d.engine, op.nr;
    var c := s.ch[j];
    ReplaceKeepsInv(e, s, j, c);
    KnownWhenArmed(c);
    StoredWordKeepsArmed(c, op.value);
    ReplaceKeepsInv(e, s, j, WithWord(c, op.value));
    var q := Device(e, s.(ch := s.ch[j := WithWord(c, op.value)]));
    var t := UpdateAudio(e, q.engine, op.now);
    HackableCovers(e, q.engine.ch[nr], nr);
    ServeHacks(e, t.ch, t.time, j, nr);
    if j == nr { UpdateThenCall(q, nr, op.now); } else { UpdateSettles(q, nr, op.now); }
  }

  /** For every operation, and a channel neither attached nor modulated in its period: one word is cut short
      if the condition on the state before holds, and none otherwise. */
  lemma CutsExactlyWhen(d: Device, op: Op, nr: nat)
    requires Valid(d) && ValidOp(op) && nr < AUDIO_CHANNELS_PAULA
    requires Unattached(d.env, nr) && PeriodsUntouched(d.env, nr)
    ensures |Apply(d, op).engine.ch| == AUDIO_CHANNELS_PAULA
    ensures |Apply(d, op).engine.ch[nr].log.hacks| ==
            |d.engine.ch[nr].log.hacks| + if TakesHack(d, op, nr) then 1 else 0
  {
    hide UpdateAudio, PollFrom, DataArrives, HackTaken, Hackable, Armed, EnaAfter, EnaAt, LowPeriodHack;
    ApplyKeepsValid(d, op);
    HackableCovers(d.env, d.engine.ch[nr], nr);
    if op.StateMachine? {
      UpdateThenCall(d, nr, op.now);
      var t := UpdateAudio(d.env, d.engine, op.now);
      PollHacks(d.env, t.ch, t.time, nr);
    } else if op.Update? || op.WritePer? || op.WriteLen? || op.WriteVol? {
      UpdateSettles(d, nr, op.now);
    } else if op.DataEvent? {
      if Playing(d.engine.ch[op.nr]) { PlayingUncut(d, op, nr); } else { StoredHacks(d, op, nr); }
    } else if op.Vsync? {
      HackKeepsLog(d.env, d.env.lines[nr], d.engine.ch[nr]);
    }
  }

  lemma HackKeepsLog(e: Env, l: Line, c: Channel)
    ensures LowPeriodHack(e, l, c).log == c.log
  {
  }

  lemma PlayingUncut(d: Device, op: Op, nr: nat)
    requires Valid(d) && op.DataEvent? && ValidOp(op) && nr < AUDIO_CHANNELS_PAULA && Playing(d.engine.ch[op.nr])
    ensures |Apply(d, op).engine.ch| == AUDIO_CHANNELS_PAULA
    ensures Apply(d, op).engine.ch[nr].log == d.engine.ch[nr].log
  {
    PlayingIs(d.engine.ch[op.nr]);
    hide Armed, DataWhilePlaying, Playing;
    EventKeepsLog(d.env, d.env.lines[op.nr], d.engine.ch[op.nr], op);
  }

  lemma PlayingIs(c: Channel)
    ensures Playing(c) ==> c.state % 16 == 2 || c.state % 16 == 3
  {
  }

  lemma EventKeepsLog(e: Env, l: Line, c: Channel, op: Op)
    requires op.DataEvent?
    ensures DataWhilePlaying(e, l, c, op.value, op.ena, op.preset).log == c.log
  {
    hide LowPeriodHack;
    HackKeepsLog(e, l, c.(dma := WordFetched(c.dma, op.preset)));
  }

  /** The operation leaves the channel neither attached nor modulated in its period. */
  predicate LeavesFree(op: Op, nr: nat)
    requires ValidOp(op) && nr < AUDIO_CHANNELS_PAULA
  {
    op.Registers? ==>
      && !op.lines[nr].attachVolume && !op.lines[nr].attachPeriod
      && (nr > 0 ==> !op.lines[nr - 1].attachPeriod)
  }

  /** Over any run that leaves it so: the condition of the playback results holds throughout if and only if
      no word has been cut short. */
  lemma {:induction false} UncutExactlyWhen(d: Device, ops: seq<Op>, nr: nat)
    requires Valid(d) && nr < AUDIO_CHANNELS_PAULA && Unattached(d.env, nr) && PeriodsUntouched(d.env, nr)
    requires forall i :: 0 <= i < |ops| ==> ValidOp(ops[i]) && LeavesFree(ops[i], nr)
    ensures var t := ApplyAll(d, ops);
            && Valid(t) && |t.engine.ch[nr].log.hacks| >= |d.engine.ch[nr].log.hacks|
            && (AllKeep(Timing, d, ops, nr) <==> |t.engine.ch[nr].log.hacks| == |d.engine.ch[nr].log.hacks|)
    decreases |ops|
  {
    hide Apply, TakesHack, Armed;
    if ops != [] {
      CutsExactlyWhen(d, ops[0], nr);
      ApplyKeepsValid(d, ops[0]);
      StaysFree(d, ops[0], nr);
      UncutExactlyWhen(Apply(d, ops[0]), ops[1..], nr);
    }
  }

  lemma StaysFree(d: Device, op: Op, nr: nat)
    requires Valid(d) && ValidOp(op) && nr < AUDIO_CHANNELS_PAULA && LeavesFree(op, nr)
    requires Unattached(d.env, nr) && PeriodsUntouched(d.env, nr)
    ensures |Apply(d, op).env.lines| == AUDIO_CHANNELS_PAULA
    ensures Unattached(Apply(d, op).env, nr) && PeriodsUntouched(Apply(d, op).env, nr)
    ensures Keeps(Timing, d, op, nr) <==> !TakesHack(d, op, nr)
  {
    hide UpdateAudio, PollFrom, DataArrives, PerWritten, DatWritten, TakesHack, Armed;
  }

  /* ---------- Joining runs ---------- */

  /** A channel at the end of a run. */
  ghost function After(d: Device, ops: seq<Op>, nr: nat): Channel
    requires Valid(d) && nr < AUDIO_CHANNELS_PAULA && forall k :: 0 <= k < |ops| ==> ValidOp(ops[k])
  {
    ApplyAll(d, ops).engine.ch[nr]
  }

  lemma {:induction false} ApplyJoined(d: Device, before: seq<Op>, after: seq<Op>)
    requires Valid(d)
    requires forall k :: 0 <= k < |before| ==> ValidOp(before[k])
    requires forall k :: 0 <= k < |after| ==> ValidOp(after[k])
    ensures Valid(ApplyAll(d, before))
    ensures ApplyAll(d, before + after) == ApplyAll(ApplyAll(d, before), after)
    decreases |before|
  {
    hide Apply, ValidOp, Armed;
    if before == [] {
      assert before + after == after;
    } else {
      ApplyKeepsValid(d, before[0]);
      assert (before + after)[1..] == before[1..] + after;
      ApplyJoined(Apply(d, before[0]), before[1..], after);
    }
  }

  lemma AfterJoined(d: Device, before: seq<Op>, after: seq<Op>, nr: nat)
    requires Valid(d) && nr < AUDIO_CHANNELS_PAULA
    requires forall k :: 0 <= k < |before| ==> ValidOp(before[k])
    requires forall k :: 0 <= k < |after| ==> ValidOp(after[k])
    ensures Valid(ApplyAll(d, before)) && After(d, before + after, nr) == After(ApplyAll(d, before), after, nr)
  {
    hide ApplyAll, ValidOp, Armed;
    ApplyJoined(d, before, after);
  }

  lemma ApplyOne(d: Device, op: Op)
    requires Valid(d) && ValidOp(op)
    ensures ApplyAll(d, [op]) == Apply(d, op)
  {
    hide Apply;
    ApplyKeepsValid(d, op);
    assert ApplyAll(Apply(d, op), [op][1..]) == Apply(d, op);
  }

  lemma ApplyTwo(d: Device, first: Op, second: Op)
    requires Valid(d) && ValidOp(first) && ValidOp(second)
    ensures Valid(Apply(d, first)) && ApplyAll(d, [first, second]) == Apply(Apply(d, first), second)
  {
    hide Apply;
    ApplyKeepsValid(d, first);
    ApplyOne(Apply(d, first), second);
    assert [first, second][1..] == [second];
  }

  /* ---------- Runs in which it happens ---------- */

  /** Polled while its own time has not come, a channel is called once. */
  lemma PolledAt(d: Device, nr: nat, t: int) returns (c: Channel)
    requires Valid(d) && nr < AUDIO_CHANNELS_PAULA && Unattached(d.env, nr) && PeriodsUntouched(d.env, nr)
    requires d.engine.time <= t && !Reaches(d, nr, t)
    ensures var r := Apply(d, StateMachine(t));
            && Valid(r) && r.env == d.env && r.engine.time == t
            && Armed(c) && Untouched(d.engine.ch[nr], c) && SameDue(d.engine.ch[nr], d.engine.time, c, t)
            && r.engine.ch[nr] == Served(d.env, c, nr, t, false)
  {
    hide Armed, UpdateAudio, Served, PollFrom;
    UpdateSettles(d, nr, t);
    ApplyKeepsValid(d, StateMachine(t));
    var s := UpdateAudio(d.env, d.engine, t);
    c := PollOf(d.env, s.ch, t, 0, nr);
  }

  function Unwritten(c: Channel): Channel {
    c.(dma := c.dma.(datWritten := false))
  }

  /** A word stored while the channel is not playing and its own time has not come. */
  lemma StoredAt(d: Device, nr: nat, word: int, ena: bool, t: int) returns (c: Channel)
    requires Valid(d) && nr < AUDIO_CHANNELS_PAULA && Unattached(d.env, nr) && PeriodsUntouched(d.env, nr)
    requires d.engine.time <= t && !Reaches(d, nr, t) && !Playing(d.engine.ch[nr]) && 0 <= word < 0x10000
    ensures var r := Apply(d, DataEvent(t, nr, word, ena, false));
            && Valid(r) && r.env == d.env && r.engine.time == t
            && Armed(c) && Untouched(WithWord(d.engine.ch[nr], word), c)
            && SameDue(d.engine.ch[nr], d.engine.time, c, t)
            && r.engine.ch[nr] == Unwritten(StateChannel2(d.env, c, nr, t, false).0)
  {
    hide Armed, UpdateAudio, StateChannel2, Modulate;
    var e, s := d.env, d.engine;
    var stored := WithWord(s.ch[nr], word);
    ReplaceKeepsInv(e, s, nr, stored);
    KnownWhenArmed(s.ch[nr]);
    StoredWordKeepsArmed(s.ch[nr], word);
    var q := Device(e, s.(ch := s.ch[nr := stored]));
    UpdateSettles(q, nr, t);
    ApplyKeepsValid(d, DataEvent(t, nr, word, ena, false));
    c := UpdateAudio(e, q.engine, t).ch[nr];
  }

  /** The channel is idle and set up for a period of `v` units, with DMA off; nothing has been heard. */
  ghost predicate Ready(d: Device, e: Env, start: int, nr: nat, v: int)
    requires nr < AUDIO_CHANNELS_PAULA
  {
    && Valid(d) && d.env == e && d.engine.time == start
    && var c := d.engine.ch[nr];
       && c.state == 0 && c.evtime == MAX_EV && c.per == v * CYCLE_UNIT && c.log == Log([], [], [], [], [], [])
       && !c.dma.offActive && !c.dma.enaStore && c.dma.minperloop == 0
  }

  /** After reset, a first period and a write to DMACON that leaves audio DMA off. */
  lemma ResetIsReady(e: Env, start: int, nr: nat, v: int)
    requires ValidEnv(e) && nr < AUDIO_CHANNELS_PAULA && Unattached(e, nr) && PeriodsUntouched(e, nr)
    requires !Enabled(e, nr) && 0 < v < 0x10000
    ensures Valid(Reset(e, start)) && Valid(Apply(Reset(e, start), WritePer(start, nr, v)))
    ensures Ready(Apply(Apply(Reset(e, start), WritePer(start, nr, v)), StateMachine(start)), e, start, nr, v)
  {
    hide Apply, Reset, Armed;
    ResetStartsPlayback(e, start, nr, v);
    var d := Apply(Reset(e, start), WritePer(start, nr, v));
    var c := PolledAt(d, nr, start);
  }

  /** The device after reset, a first period of `v` units and a write to DMACON that leaves audio DMA off. */
  ghost function Prepared(e: Env, start: int, nr: nat, v: int): (d: Device)
    requires ValidEnv(e) && nr < AUDIO_CHANNELS_PAULA && Unattached(e, nr) && PeriodsUntouched(e, nr)
    requires !Enabled(e, nr) && 0 < v < 0x10000
    ensures Ready(d, e, start, nr, v)
  {
    ResetIsReady(e, start, nr, v);
    Apply(Apply(Reset(e, start), WritePer(start, nr, v)), StateMachine(start))
  }

  /** With the hacks on, a period below 10 units and one word written by hand, at any time: its high byte is
      never heard, its low byte is not held. */
  lemma RefusedStart(e: Env, start: int, nr: nat, v: int, word: int, t: int)
    requires ValidEnv(e) && nr < AUDIO_CHANNELS_PAULA && Unattached(e, nr) && PeriodsUntouched(e, nr)
    requires !Enabled(e, nr) && e.hacks && !e.lines[nr].irq
    requires 0 < v < 10 && 0 <= word < 0x10000 && start <= t
    ensures var c := After(Prepared(e, start, nr, v), [DataEvent(t, nr, word, false, false)], nr);
            && c.state == 0 && c.log.words == [Load(word, true)]
            && c.log.bytes == [Played(t, word % 256, v * CYCLE_UNIT)] && !Playback(c, t)
  {
    hide Apply, Prepared, Armed;
    ApplyOne(Prepared(e, start, nr, v), DataEvent(t, nr, word, false, false));
    var c := StoredAt(Prepared(e, start, nr, v), nr, word, false, t);
  }

  /** The high byte `b` of the only word so far is being played. */
  ghost predicate InHigh(d: Device, nr: nat, word: int, b: Played)
    requires nr < AUDIO_CHANNELS_PAULA
  {
    && Valid(d) && Unattached(d.env, nr) && PeriodsUntouched(d.env, nr)
    && var c := d.engine.ch[nr];
       && c.state == 2 && Playback(c, d.engine.time) && d.engine.time < End(b)
       && c.log.words == [Load(word, true)] && c.log.bytes == [b] && c.log.hacks == []
  }

  /** From 10 units up a word written by hand starts. */
  lemma HandStarts(d: Device, e: Env, start: int, nr: nat, v: int, word: int, t: int)
    requires nr < AUDIO_CHANNELS_PAULA && Ready(d, e, start, nr, v) && Unattached(e, nr) && PeriodsUntouched(e, nr)
    requires !Enabled(e, nr) && !e.lines[nr].irq && (e.hacks ==> v >= 10)
    requires 0 < v < 0x10000 && 0 <= word < 0x10000 && start <= t
    ensures var r := Apply(d, DataEvent(t, nr, word, false, false));
            && InHigh(r, nr, word, Played(t, word / 256 % 256, v * CYCLE_UNIT)) && r.env == e && r.engine.time == t
            && r.engine.ch[nr].per == v * CYCLE_UNIT && !r.engine.ch[nr].dma.offActive
  {
    hide Apply, Armed, Playback;
    var c := StoredAt(d, nr, word, false, t);
    SilentBefore(c, t);
    ServicePlays(e, c, nr, t, false);
    HandPlays(e, c, nr, word, t);
    FlagHolds(Timing, e, c, nr, t, false);
  }

  lemma SilentBefore(c: Channel, t: int)
    requires Armed(c) && c.state == 0 && PeriodSet(c) && c.log == Log([], [], [], [], [], [])
    ensures Playback(c, t)
  {
  }

  lemma HandPlays(e: Env, c: Channel, nr: nat, word: int, t: int)
    requires nr < |e.lines| && Unattached(e, nr) && !Enabled(e, nr) && !e.lines[nr].irq
    requires c.state == 0 && c.dma.datWritten && c.dma.dat == word && !c.dma.offActive
    requires (e.hacks ==> c.per >= 10 * CYCLE_UNIT) && c.log == Log([], [], [], [], [], [])
    ensures var (d, done, _) := StateChannel2(e, c, nr, t, false);
            && done && d.state == 2 && d.per == c.per && !d.dma.offActive && d.log.hacks == []
            && d.log.words == [Load(word, true)] && d.log.bytes == [Played(t, word / 256 % 256, c.per)]
  {
    hide Start, Prefetch, LeaveHigh, LeaveLow, EnterLow, LastUnit;
  }

  lemma StillInHigh(d: Device, nr: nat, word: int, b: Played, c: Channel, t: int)
    requires nr < AUDIO_CHANNELS_PAULA && InHigh(d, nr, word, b)
    requires d.engine.time <= t < End(b) && Armed(c) && Untouched(d.engine.ch[nr], c)
    requires SameDue(d.engine.ch[nr], d.engine.time, c, t)
    ensures Playback(c, t)
  {
    hide Heard;
  }

  /** A poll that forces no restart leaves the byte playing and notes whether DMA is on. */
  lemma HighPolled(d: Device, nr: nat, word: int, b: Played, t: int)
    requires nr < AUDIO_CHANNELS_PAULA && InHigh(d, nr, word, b) && d.engine.time <= t < End(b)
    requires !ForcedRestart(d.env, Enabled(d.env, nr), d.engine.ch[nr])
    ensures var e, c, ena := d.env, d.engine.ch[nr], Enabled(d.env, nr);
            var r := Apply(d, StateMachine(t));
            && InHigh(r, nr, word, b) && r.env == e && r.engine.time == t
            && r.engine.ch[nr].dma.enaStore == ena && r.engine.ch[nr].per == c.per
            && (!ena && c.dma.enaStore ==>
                  r.engine.ch[nr].dma.offActive && r.engine.ch[nr].dma.offCount == e.instructions)
  {
    hide Apply, Armed, Playback, DmaOffCheck;
    NotReached(d, nr, word, b, t);
    var c := PolledAt(d, nr, t);
    StillInHigh(d, nr, word, b, c, t);
    ArmedIsKnown(c);
    NoForce(d.env, d.env.lines[nr], Enabled(d.env, nr), c, t);
    FlagHolds(Timing, d.env, c, nr, t, false) by { ServicePlays(d.env, c, nr, t, false); }
  }

  lemma NotReached(d: Device, nr: nat, word: int, b: Played, t: int)
    requires nr < AUDIO_CHANNELS_PAULA && InHigh(d, nr, word, b) && t < End(b)
    ensures !Reaches(d, nr, t)
  {
    hide Heard;
  }

  lemma NoForce(e: Env, l: Line, ena: bool, c: Channel, time: int)
    requires c.state == 2 && !ForcedRestart(e, ena, c)
    ensures var f := DmaOffCheck(e, l, ena, c, time);
            && f.(dma := c.dma) == c && f.dma.enaStore == ena && f.dma.dat2 == c.dma.dat2
            && (!ena && c.dma.enaStore ==> f.dma.offActive && f.dma.offCount == e.instructions)
  {
  }

  /** A poll with a restart pending plays the low byte at once. */
  lemma HighCut(d: Device, nr: nat, word: int, b: Played, t: int)
    requires nr < AUDIO_CHANNELS_PAULA && InHigh(d, nr, word, b) && d.engine.time <= t < End(b)
    requires ForcedRestart(d.env, Enabled(d.env, nr), d.engine.ch[nr])
    ensures var c := Apply(d, StateMachine(t)).engine.ch[nr];
            && c.state == 1 && c.log.words == [Load(word, true)] && !Playback(c, t)
            && c.log.bytes == [b, Played(t, word % 256, d.engine.ch[nr].per)]
  {
    hide Apply, Armed, Playback, Served;
    NotReached(d, nr, word, b, t);
    var c := PolledAt(d, nr, t);
    StillInHigh(d, nr, word, b, c, t);
    OnlyHacksBreakPlayback(d.env, c, nr, t, false);
    WordNow(d, nr, word, b);
    CutIs(d.env, c, nr, t);
    FlagApart(d.env, c, nr, t);
  }

  lemma WordNow(d: Device, nr: nat, word: int, b: Played)
    requires nr < AUDIO_CHANNELS_PAULA && InHigh(d, nr, word, b)
    ensures d.engine.ch[nr].dma.dat2 == word
  {
    hide Heard;
  }

  lemma CutIs(e: Env, c: Channel, nr: nat, t: int)
    requires nr < |e.lines| && Unattached(e, nr) && c.state == 2 && ForcedRestart(e, Enabled(e, nr), c)
    ensures var d := StateChannel2(e, c, nr, t, false).0;
            && d.state == 1 && d.log.words == c.log.words
            && d.log.bytes == c.log.bytes + [Played(t, c.dma.dat2 % 256, c.per)]
  {
    hide SetDr;
  }

  lemma FlagApart(e: Env, c: Channel, nr: nat, t: int)
    requires nr < |e.lines|
    ensures var d, f := StateChannel2(e, c, nr, t, false).0, Served(e, c, nr, t, false);
            d.state == f.state && d.log == f.log && (Playback(d, t) <==> Playback(f, t))
  {
    hide StateChannel2, Heard;
  }

  function Switched(e: Env, nr: nat, on: bool): (r: seq<Line>)
    requires nr < |e.lines|
    ensures |r| == |e.lines|
  {
    e.lines[nr := e.lines[nr].(dma := on)]
  }

  /** DMA of the channel is switched, and the state machine polled at `t`. */
  function Switch(e: Env, nr: nat, on: bool, i: int, t: int): (ops: seq<Op>)
    requires nr < |e.lines| == AUDIO_CHANNELS_PAULA
    ensures forall k :: 0 <= k < |ops| ==> ValidOp(ops[k])
  {
    [Registers(true, Switched(e, nr, on), i), StateMachine(t)]
  }

  /** A word by hand, then DMA switched on, off and on again. */
  function SwitchRun(e: Env, nr: nat, word: int, t: seq<int>, i: seq<int>): (ops: seq<Op>)
    requires nr < |e.lines| == AUDIO_CHANNELS_PAULA && 0 <= word < 0x10000 && |t| == 4 && |i| == 3
    ensures forall k :: 0 <= k < |ops| ==> ValidOp(ops[k])
  {
    [DataEvent(t[0], nr, word, false, false)] +
    (Switch(e, nr, true, i[0], t[1]) + (Switch(e, nr, false, i[1], t[2]) + Switch(e, nr, true, i[2], t[3])))
  }

  lemma SwitchKeeps(d: Device, e: Env, nr: nat, word: int, b: Played, on: bool, i: int)
    requires nr < AUDIO_CHANNELS_PAULA && InHigh(d, nr, word, b) && |e.lines| == AUDIO_CHANNELS_PAULA
    requires Unattached(e, nr) && PeriodsUntouched(e, nr)
    ensures var r := Apply(d, Registers(true, Switched(e, nr, on), i));
            && InHigh(r, nr, word, b) && r.engine == d.engine && Enabled(r.env, nr) == on
            && r.env.hacks == d.env.hacks && r.env.jit == d.env.jit && r.env.instructions == i
  {
    hide Heard, Armed;
  }

  lemma SwitchAndPoll(d: Device, e: Env, nr: nat, word: int, b: Played, on: bool, i: int, t: int)
    requires nr < AUDIO_CHANNELS_PAULA && InHigh(d, nr, word, b) && |e.lines| == AUDIO_CHANNELS_PAULA
    requires Unattached(e, nr) && PeriodsUntouched(e, nr) && d.engine.time <= t < End(b)
    requires on ==> !d.engine.ch[nr].dma.offActive
    ensures Valid(d)
    ensures var r := ApplyAll(d, Switch(e, nr, on, i, t));
            && InHigh(r, nr, word, b) && r.engine.time == t && r.engine.ch[nr].dma.enaStore == on
            && r.env.hacks == d.env.hacks && r.env.jit == d.env.jit && r.engine.ch[nr].per == d.engine.ch[nr].per
            && (!on && d.engine.ch[nr].dma.enaStore ==>
                  r.engine.ch[nr].dma.offActive && r.engine.ch[nr].dma.offCount == i)
  {
    hide Apply, InHigh, Playback, Switched;
    HighIsValid(d, nr, word, b);
    SwitchKeeps(d, e, nr, word, b, on, i);
    var op := Registers(true, Switched(e, nr, on), i);
    HighIsValid(Apply(d, op), nr, word, b);
    HighPolled(Apply(d, op), nr, word, b, t);
    ApplyTwo(d, op, StateMachine(t));
  }

  lemma SwitchAndCut(d: Device, e: Env, nr: nat, word: int, b: Played, i: int, t: int)
    requires nr < AUDIO_CHANNELS_PAULA && InHigh(d, nr, word, b) && |e.lines| == AUDIO_CHANNELS_PAULA
    requires Unattached(e, nr) && PeriodsUntouched(e, nr) && d.engine.time <= t < End(b)
    requires var c := d.engine.ch[nr].dma;
             d.env.hacks && c.offActive && !c.enaStore && (d.env.jit || i - c.offCount >= 60)
    ensures Valid(d)
    ensures var c := After(d, Switch(e, nr, true, i, t), nr);
            && c.state == 1 && c.log.words == [Load(word, true)] && !Playback(c, t)
            && c.log.bytes == [b, Played(t, word % 256, d.engine.ch[nr].per)]
  {
    hide Apply, InHigh, Playback, Switched, Armed;
    HighIsValid(d, nr, word, b);
    SwitchKeeps(d, e, nr, word, b, true, i);
    var op := Registers(true, Switched(e, nr, true), i);
    HighIsValid(Apply(d, op), nr, word, b);
    HighCut(Apply(d, op), nr, word, b, t);
    ApplyTwo(d, op, StateMachine(t));
  }

  lemma HighIsValid(d: Device, nr: nat, word: int, b: Played)
    requires nr < AUDIO_CHANNELS_PAULA && InHigh(d, nr, word, b)
    ensures Valid(d) && Unattached(d.env, nr) && PeriodsUntouched(d.env, nr) && d.engine.ch[nr].state == 2
  {
  }

  /** With the hacks on, and 60 instructions or the JIT between off and on: whatever the word, the period and
      the times within the high byte, the low byte begins too early and is not held. */
  lemma RestartedWord(e: Env, start: int, nr: nat, v: int, word: int, t: seq<int>, i: seq<int>)
    requires ValidEnv(e) && nr < AUDIO_CHANNELS_PAULA && Unattached(e, nr) && PeriodsUntouched(e, nr)
    requires !Enabled(e, nr) && e.hacks && !e.lines[nr].irq
    requires 10 <= v < 0x10000 && 0 <= word < 0x10000 && |t| == 4 && |i| == 3 && (e.jit || i[2] - i[1] >= 60)
    requires start <= t[0] <= t[1] <= t[2] <= t[3] < t[0] + v * CYCLE_UNIT
    ensures var c := After(Prepared(e, start, nr, v), SwitchRun(e, nr, word, t, i), nr);
            && c.state == 1 && c.log.words == [Load(word, true)] && !Playback(c, t[3])
            && c.log.bytes == [Played(t[0], word / 256 % 256, v * CYCLE_UNIT),
                               Played(t[3], word % 256, v * CYCLE_UNIT)]
  {
    hide Apply, ApplyAll, After, Prepared, InHigh, Playback, Switch;
    var d, b := Prepared(e, start, nr, v), Played(t[0], word / 256 % 256, v * CYCLE_UNIT);
    var first := DataEvent(t[0], nr, word, false, false);
    var on, off := Switch(e, nr, true, i[0], t[1]), Switch(e, nr, false, i[1], t[2]);
    var again := Switch(e, nr, true, i[2], t[3]);
    HandStarts(d, e, start, nr, v, word, t[0]);
    ApplyOne(d, first);
    AfterJoined(d, [first], on + (off + again), nr);
    var d1 := Apply(d, first);
    SwitchAndPoll(d1, e, nr, word, b, true, i[0], t[1]);
    AfterJoined(d1, on, off + again, nr);
    var d2 := ApplyAll(d1, on);
    SwitchAndPoll(d2, e, nr, word, b, false, i[1], t[2]);
    AfterJoined(d2, off, again, nr);
    SwitchAndCut(ApplyAll(d2, off), e, nr, word, b, i[2], t[3]);
  }
}

/** What the rest of the emulator does to the audio channels (src/core/audio.cpp): register writes,
    the delayed DMA events, the DMA slot query and changes of the control registers.  A run is any
    sequence of these from reset. */
module PaulaRegisters {
  import opened PaulaChannel
  import opened PaulaEngine
  import Blep

  datatype Device = Device(env: Env, engine: Engine)

  /** Operations that bring the engine up to date first carry the current cycle count `now`.
      `Registers` stands for any change of DMACON, ADKCON, INTREQ or INTENA and of the instruction
      counter, `Preferences` for a change of the preferences that only the channels look at and of the
      line length; `DataEvent` is event_audxdat_func, `DsrEvent` is event_setdsr, `Dmal` is audio_dmal,
      `Vsync` is audio_vsync. */
  datatype Op =
    | Update(now: int)
    | Registers(dmaMaster: bool, lines: seq<Line>, instructions: int)
    | Preferences(hacks: bool, jit: bool, compatible: bool, cycleExact: bool, loopHack: bool, maxhpos: int)
    | StateMachine(now: int)
    | WritePer(now: int, nr: nat, value: int)
    | WriteLen(now: int, nr: nat, value: int)
    | WriteVol(now: int, nr: nat, value: int)
    | WriteDat(nr: nat, value: int)
    | DataEvent(now: int, nr: nat, value: int, ena: bool, preset: bool)
    | DsrEvent(nr: nat)
    | Dmal
    | Vsync

  predicate ValidOp(op: Op) {
    match op
    case Registers(_, lines, _) => |lines| == AUDIO_CHANNELS_PAULA
    case Preferences(_, _, _, _, _, maxhpos) => 1 <= maxhpos <= 0x10000
    case WritePer(_, nr, v) => nr < AUDIO_CHANNELS_PAULA && 0 <= v < 0x10000
    case WriteLen(_, nr, v) => nr < AUDIO_CHANNELS_PAULA && 0 <= v < 0x10000
    case WriteVol(_, nr, v) => nr < AUDIO_CHANNELS_PAULA && 0 <= v < 0x10000
    case WriteDat(nr, v) => nr < AUDIO_CHANNELS_PAULA && 0 <= v < 0x10000
    case DataEvent(_, nr, v, _, _) => nr < AUDIO_CHANNELS_PAULA && 0 <= v < 0x10000
    case DsrEvent(nr) => nr < AUDIO_CHANNELS_PAULA
    case Update(_) => true
    case StateMachine(_) => true
    case Dmal => true
    case Vsync => true
  }

  ghost predicate Valid(d: Device) {
    Inv(d.env, d.engine)
  }

  /** update_audio: without sound the time is just skipped. */
  ghost function UpdateAudio(e: Env, s: Engine, now: int): (r: Engine)
    requires Inv(e, s)
    ensures Inv(e, r)
    ensures r.time == if now > s.time || !e.soundOn then now else s.time
  {
    if !e.soundOn then s.(time := now)
    else
      RunKeepsInv(e, s, now - s.time);
      Run(e, s, now - s.time)
  }

  /** The period AUDxPER stores: never below one cycle unit, and raised while DMA runs unless the
      CPU is cycle exact. */
  function StoredPeriod(e: Env, enaStore: bool, v: int): int {
    var per := if v == 0 then 65536 * CYCLE_UNIT else v * CYCLE_UNIT;
    if per < PERIOD_MIN * CYCLE_UNIT then PERIOD_MIN * CYCLE_UNIT
    else if per < PERIOD_MIN_NONCE * CYCLE_UNIT && !e.cycleExact && enaStore then PERIOD_MIN_NONCE * CYCLE_UNIT
    else per
  }

  /** AUDxPER on an up-to-date channel. */
  function PerWritten(e: Env, c: Channel, v: int): Channel {
    var per := StoredPeriod(e, c.dma.enaStore, v);
    c.(per := per, evtime := if c.per == PERIOD_MAX - 1 && per != PERIOD_MAX - 1 then CYCLE_UNIT else c.evtime)
  }

  /** A word fetched by DMA while the channel plays: the length counter, reloaded after its last word. */
  function WordFetched(d: Dma, preset: bool): (r: Dma)
    ensures r.dat == d.dat && r.dat2 == d.dat2 && r.len == d.len && r.minperloop == d.minperloop
  {
    if d.wlen == 1 then d.(wlen := d.len, intreq2 := if preset then d.intreq2 else true)
    else d.(wlen := (d.wlen - 1) % 0x10000)
  }

  /** A channel whose repeats audio_low_period_hack counts: it plays a very low period and its interrupt
      is disabled.  State 0x13 does not count. */
  predicate LowLoop(e: Env, l: Line, c: Channel) {
    (c.state == 2 || c.state == 3) && c.per < PERIOD_MIN_LOOP * CYCLE_UNIT && !l.intena && e.loopHack
  }

  /** How much one call counts: long samples more. */
  function LoopWeight(len: int): int {
    if len == 0 || len > 1000 then 5 else 1
  }

  function RaisedPeriod(e: Env): int { 3 * e.maxhpos * CYCLE_UNIT }

  /** The call that raises the period. */
  predicate HackFires(e: Env, l: Line, c: Channel) {
    LowLoop(e, l, c) && c.dma.minperloop + LoopWeight(c.dma.len) >= PERIOD_MIN_LOOP_COUNT
  }

  /** audio_low_period_hack. */
  function LowPeriodHack(e: Env, l: Line, c: Channel): Channel {
    if !LowLoop(e, l, c) then c
    else
      c.(dma := c.dma.(minperloop := c.dma.minperloop + LoopWeight(c.dma.len)),
         per := if HackFires(e, l, c) then RaisedPeriod(e) else c.per)
  }

  /** audio_vsync. */
  function Vsynced(e: Env, ch: seq<Channel>): (r: seq<Channel>)
    requires |ch| <= |e.lines|
    ensures |r| == |ch|
  {
    seq(|ch|, i requires 0 <= i < |ch| => LowPeriodHack(e, e.lines[i], ch[i]))
  }

  /** A word stored for the state machine. */
  function WithWord(c: Channel, v: int): Channel {
    c.(dma := c.dma.(dat := v, datWritten := true))
  }

  /** event_audxdat_func for a channel in state 2 or 3: every reload counts for the low period hack. */
  function DataWhilePlaying(e: Env, l: Line, c: Channel, v: int, ena: bool, preset: bool): Channel {
    var d := if !ena then c.(dma := c.dma.(dat := v))
             else if c.dma.wlen == 1 then LowPeriodHack(e, l, c.(dma := WordFetched(c.dma, preset)))
             else c.(dma := WordFetched(c.dma, preset));
    d.(dma := d.dma.(datWritten := false))
  }

  /** AUDxDAT up to the event: a DMA word is stored at once, and when the event will be delayed the
      reload flag is set early. */
  function DatWritten(e: Env, c: Channel, nr: int, v: int): Channel
    requires 0 <= nr < |e.lines|
  {
    if !Enabled(e, nr) then c
    else
      var d := c.dma.(dat := v, datWritten := true);
      var delayed := !e.jit && (c.per < PERIOD_LOW * CYCLE_UNIT || e.compatible);
      var reload := delayed && (c.state % 16 == 2 || c.state % 16 == 3) && d.wlen == 1;
      c.(dma := if reload then d.(intreq2 := true) else d)
  }

  /** audio_state_channel2 for every channel from `i` on, nothing due. */
  function PollFrom(e: Env, ch: seq<Channel>, time: int, i: nat): (r: seq<Channel>)
    requires i <= |ch| <= |e.lines|
    ensures |r| == |ch|
    decreases |ch| - i
  {
    if i == |ch| then ch else PollFrom(e, Serve(e, ch, time, i, false), time, i + 1)
  }

  ghost function Apply(d: Device, op: Op): Device
    requires Valid(d) && ValidOp(op)
  {
    var e := d.env;
    match op
    case Update(now) => d.(engine := UpdateAudio(e, d.engine, now))
    case Registers(master, lines, instructions) =>
      d.(env := e.(dmaMaster := master, lines := lines, instructions := instructions))
    case Preferences(hacks, jit, compatible, cycleExact, loopHack, maxhpos) =>
      d.(env := e.(hacks := hacks, jit := jit, compatible := compatible, cycleExact := cycleExact,
                   loopHack := loopHack, maxhpos := maxhpos))
    case StateMachine(now) =>
      var s := UpdateAudio(e, d.engine, now);
      d.(engine := s.(ch := PollFrom(e, s.ch, s.time, 0)))
    case WritePer(now, nr, v) =>
      var s := UpdateAudio(e, d.engine, now);
      d.(engine := s.(ch := s.ch[nr := PerWritten(e, s.ch[nr], v)]))
    case WriteLen(now, nr, v) =>
      var s := UpdateAudio(e, d.engine, now);
      var c := s.ch[nr];
      d.(engine := s.(ch := s.ch[nr := c.(dma := c.dma.(len := v))]))
    case WriteVol(now, nr, v) =>
      var s := UpdateAudio(e, d.engine, now);
      var c := s.ch[nr];
      d.(engine := s.(ch := s.ch[nr := c.(data := c.data.(audvol := VolumeOf(v)))]))
    case WriteDat(nr, v) =>
      d.(engine := d.engine.(ch := d.engine.ch[nr := DatWritten(e, d.engine.ch[nr], nr, v)]))
    case DataEvent(now, nr, v, ena, preset) =>
      d.(engine := DataArrives(e, d.engine, now, nr, v, ena, preset))
    case DsrEvent(nr) =>
      var c := d.engine.ch[nr];
      d.(engine := d.engine.(ch := d.engine.ch[nr := c.(dma := c.dma.(dsr := true))]))
    case Dmal =>
      d.(engine := d.engine.(ch := SlotsTaken(d.engine.ch)))
    case Vsync =>
      d.(engine := d.engine.(ch := Vsynced(e, d.engine.ch)))
  }

  function SlotsTaken(ch: seq<Channel>): (r: seq<Channel>)
    ensures |r| == |ch|
  {
    seq(|ch|, i requires 0 <= i < |ch| => ch[i].(dma := ch[i].dma.(dr := false, dsr := false)))
  }

  /** event_audxdat_func.  Outside states 2 and 3 it stores the word, brings the engine up to date
      and runs the state machine. */
  ghost function DataArrives(e: Env, s: Engine, now: int, nr: nat, v: int, ena: bool, preset: bool): Engine
    requires Inv(e, s) && nr < AUDIO_CHANNELS_PAULA && 0 <= v < 0x10000
  {
    var c := s.ch[nr];
    if c.state % 16 == 2 || c.state % 16 == 3 then
      s.(ch := s.ch[nr := DataWhilePlaying(e, e.lines[nr], c, v, ena, preset)])
    else
      var stored := s.(ch := s.ch[nr := WithWord(c, v)]);
      var t := UpdateAudio(e, stored, now);
      var ch := Serve(e, t.ch, t.time, nr, false);
      t.(ch := ch[nr := ch[nr].(dma := ch[nr].dma.(datWritten := false))])
  }

  /** audio_reset: every channel idle with the period not yet set. */
  function ResetChannel(): Channel {
    Channel(MAX_EV, 0, PERIOD_MAX - 1, false,
            Dma(0, 0, 0, 0, false, false, false, false, 0, false, false, 0, 0),
            Data(0, 0, 0, 0, 0, Blep.Empty(), Blep.History([], 0, 0)), Log([], [], [], [], [], []))
  }

  function Reset(e: Env, now: int): (r: Device)
    ensures ValidEnv(e) ==> Valid(r)
  {
    Device(e, Engine(seq(AUDIO_CHANNELS_PAULA, i => ResetChannel()), e.sampleTime, now, []))
  }

  ghost function ApplyAll(d: Device, ops: seq<Op>): (r: Device)
    requires Valid(d) && forall i :: 0 <= i < |ops| ==> ValidOp(ops[i])
    ensures Valid(r)
    decreases |ops|
  {
    if ops == [] then d
    else
      ApplyKeepsValid(d, ops[0]);
      ApplyAll(Apply(d, ops[0]), ops[1..])
  }

  /* ---------- Every operation keeps the channels armed ---------- */

  lemma PollArms(e: Env, ch: seq<Channel>, time: int, nr: nat)
    requires ValidEnv(e) && AllArmed(ch) && nr < |ch|
    ensures AllArmed(Serve(e, ch, time, nr, false))
  {
    hide Armed, StateChannel2, GoodModulation, Modulate;
    ServiceArms(e, ch[nr], nr, time, false);
    var (d, done, m) := StateChannel2(e, ch[nr], nr, time, false);
    WrittenFlagIrrelevant(d, false);
    if nr + 1 < |ch| { ModulateArms(ch[nr + 1], m); }
  }

  lemma WrittenFlagIrrelevant(c: Channel, b: bool)
    ensures Armed(c.(dma := c.dma.(datWritten := b))) == Armed(c)
  {
  }

  lemma {:induction false} PollFromArms(e: Env, ch: seq<Channel>, time: int, i: nat)
    requires ValidEnv(e) && AllArmed(ch) && i <= |ch|
    ensures AllArmed(PollFrom(e, ch, time, i))
    decreases |ch| - i
  {
    hide Armed, Serve;
    if i < |ch| {
      PollArms(e, ch, time, i);
      PollFromArms(e, Serve(e, ch, time, i, false), time, i + 1);
    }
  }

  lemma PerWrittenArms(e: Env, c: Channel, v: int)
    requires Armed(c) && 0 <= v < 0x10000
    ensures Armed(PerWritten(e, c, v))
  {
  }

  lemma ReplaceKeepsInv(e: Env, s: Engine, nr: nat, c: Channel)
    requires Inv(e, s) && nr < |s.ch|
    ensures Armed(s.ch[nr]) && (Armed(c) ==> Inv(e, s.(ch := s.ch[nr := c])))
  {
  }

  lemma DataArrivesKeepsInv(e: Env, s: Engine, now: int, nr: nat, v: int, ena: bool, preset: bool)
    requires Inv(e, s) && nr < AUDIO_CHANNELS_PAULA && 0 <= v < 0x10000
    ensures Inv(e, DataArrives(e, s, now, nr, v, ena, preset))
  {
    hide Serve, Run, UpdateAudio, Armed;
    var c := s.ch[nr];
    ReplaceKeepsInv(e, s, nr, c);
    if c.state % 16 == 2 || c.state % 16 == 3 {
      DataKeepsArmed(e, e.lines[nr], c, v, ena, preset);
      ReplaceKeepsInv(e, s, nr, DataWhilePlaying(e, e.lines[nr], c, v, ena, preset));
    } else {
      StoredWordKeepsArmed(c, v);
      var stored := WithWord(c, v);
      ReplaceKeepsInv(e, s, nr, stored);
      var t := UpdateAudio(e, s.(ch := s.ch[nr := stored]), now);
      PollArms(e, t.ch, t.time, nr);
      var u := t.(ch := Serve(e, t.ch, t.time, nr, false));
      ReplaceKeepsInv(e, u, nr, u.ch[nr]);
      WrittenFlagIrrelevant(u.ch[nr], false);
      ReplaceKeepsInv(e, u, nr, u.ch[nr].(dma := u.ch[nr].dma.(datWritten := false)));
    }
  }

  /** The raised period is a good one. */
  lemma HackKeepsArmed(e: Env, l: Line, c: Channel)
    requires Armed(c) && 1 <= e.maxhpos <= 0x10000
    ensures Armed(LowPeriodHack(e, l, c))
  {
  }

  lemma DataKeepsArmed(e: Env, l: Line, c: Channel, v: int, ena: bool, preset: bool)
    requires 0 <= v < 0x10000 && Armed(c) && 1 <= e.maxhpos <= 0x10000
    ensures Armed(DataWhilePlaying(e, l, c, v, ena, preset))
  {
    hide WordFetched, LowPeriodHack;
    if ena && c.dma.wlen == 1 { HackKeepsArmed(e, l, c.(dma := WordFetched(c.dma, preset))); }
  }

  lemma StoredWordKeepsArmed(c: Channel, v: int)
    requires 0 <= v < 0x10000 && Armed(c)
    ensures Armed(WithWord(c, v))
  {
  }

  lemma ApplyKeepsValid(d: Device, op: Op)
    requires Valid(d) && ValidOp(op)
    ensures Valid(Apply(d, op))
  {
    hide PollFrom, DataArrives, Run, PerWritten;
    match op
    case StateMachine(now) =>
      var s := UpdateAudio(d.env, d.engine, now);
      PollFromArms(d.env, s.ch, s.time, 0);
    case WritePer(now, nr, v) =>
      var s := UpdateAudio(d.env, d.engine, now);
      PerWrittenArms(d.env, s.ch[nr], v);
    case DataEvent(now, nr, v, ena, preset) => DataArrivesKeepsInv(d.env, d.engine, now, nr, v, ena, preset);
    case Vsync =>
      forall i | 0 <= i < AUDIO_CHANNELS_PAULA ensures Armed(Vsynced(d.env, d.engine.ch)[i]) {
        HackKeepsArmed(d.env, d.env.lines[i], d.engine.ch[i]);
      }
    case Update(_) =>
    case Registers(_, _, _) =>
    case Preferences(_, _, _, _, _, _) =>
    case WriteLen(_, _, _) =>
    case WriteVol(_, _, _) =>
    case WriteDat(_, _) =>
    case DsrEvent(_) =>
    case Dmal =>
  }

  /* ---------- Main results ---------- */

  /** From reset, through any run of register writes, events and calls, update_audio always
      terminates with the emulated time brought exactly to now; every channel is left waiting a
      positive time or none, with a period of a cycle unit or more. */
  lemma UpdateAlwaysCatchesUp(e: Env, start: int, ops: seq<Op>, now: int)
    requires ValidEnv(e) && forall i :: 0 <= i < |ops| ==> ValidOp(ops[i])
    ensures Valid(Reset(e, start))
    ensures var d := ApplyAll(Reset(e, start), ops);
            && Valid(d)
            && (now >= d.engine.time ==> UpdateAudio(d.env, d.engine, now).time == now)
  {
  }

  /** Cutting an interval at any point is invisible, in every reachable state. */
  lemma CallsCanBeSplit(d: Device, now1: int, now2: int)
    requires Valid(d) && d.engine.time <= now1 <= now2
    ensures Valid(Apply(d, Update(now1)))
    ensures Apply(Apply(d, Update(now1)), Update(now2)) == Apply(d, Update(now2))
  {
    hide Run;
    ApplyKeepsValid(d, Update(now1));
    if d.env.soundOn { TimeSlicing(d.env, d.engine, now1 - d.engine.time, now2 - now1); }
  }
}

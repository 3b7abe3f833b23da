/** One Paula audio channel (src/core/audio.cpp): its registers, its output and the state machine of
    audio_state_channel2.

    The chip registers and preferences that the code only reads while time passes are gathered in
    `Env`.  Interrupts, DMA events, loaded words, played bytes and words cut short are also kept in a
    log, which no decision reads. */
module PaulaChannel {
  import opened Words
  import Blep

  const CYCLE_UNIT := 512
  const MAX_EV := 0xFFFF_FFFF
  const PERIOD_MAX := 0x7FFF_FFFF
  const PERIOD_MIN := 1
  const PERIOD_MIN_NONCE := 60
  const PERIOD_LOW := 124
  const PERIOD_MIN_LOOP := 24
  const PERIOD_MIN_LOOP_COUNT := 64
  const AUDIO_CHANNELS_PAULA := 4

  /** How output samples are made (sound_interpol): from the current level, from the average since
      the last sample, or with band-limited steps. */
  datatype Interpolation = Plain | Anti | Sinc

  /** DMACON, ADKCON, INTREQ and INTENA as they concern one channel, and the sample mute mask. */
  datatype Line = Line(dma: bool, attachVolume: bool, attachPeriod: bool, irq: bool, intena: bool, audible: bool)

  /** `soundOn` is produce_sound > 0 and `output` produce_sound > 1; `hacks` is usehacks(); `jit` is
      cachesize != 0; `cycleExact` is cpu_memory_cycle_exact; `loopHack` is cs_hacks without bit 5;
      `maxhpos` is the line length, one more than the 16-bit HTOTAL at most; `instructions` is
      instruction_cnt. */
  datatype Env = Env(
    dmaMaster: bool, lines: seq<Line>,
    soundOn: bool, output: bool, interpolation: Interpolation, winsinc: seq<int>, sampleTime: real,
    hacks: bool, jit: bool, compatible: bool, cycleExact: bool, loopHack: bool, maxhpos: int, instructions: int)

  ghost predicate ValidEnv(e: Env) {
    && |e.lines| == AUDIO_CHANNELS_PAULA && |e.winsinc| == Blep.SINC_QUEUE_MAX_AGE && e.sampleTime >= 1.0
    && 1 <= e.maxhpos <= 0x10000
  }

  /** A word moved into dat2; `first` when playback starts with it. */
  datatype Load = Load(word: int, first: bool)

  /** A byte handed to newsample, and the period then in force. */
  datatype Played = Played(time: int, byte: int, hold: int)

  /** The volume register when a byte began; `manual` for a low byte that began without DMA. */
  datatype Loudness = Loudness(register: int, manual: bool)

  /** `volumes` has one entry for each of `bytes`; `hacks` holds the times at which one of the two
      tracker-player hacks was taken. */
  datatype Log = Log(
    words: seq<Load>, bytes: seq<Played>, volumes: seq<Loudness>, irqs: seq<int>, dsrEvents: seq<int>,
    hacks: seq<int>)

  datatype Dma = Dma(
    len: int, wlen: int, dat: int, dat2: int, datWritten: bool, dr: bool, dsr: bool,
    intreq2: bool, irqcheck: int, enaStore: bool, offActive: bool, offCount: int, minperloop: int)

  /** audio_channel_data2.  `history` tells every change of the level while samples are made, which no decision
      reads. */
  datatype Data = Data(
    currentSample: int, audvol: int, mixvol: int, accum: int, accumTime: int, sinc: Blep.Queue, history: Blep.History)

  datatype Channel = Channel(evtime: int, state: int, per: int, pbufldl: bool, dma: Dma, data: Data, log: Log)

  /** What a channel attached to the next one does to it. */
  datatype Modulation = NoModulation | Period(per: int) | Volume(vol: int)

  predicate GoodModulation(m: Modulation) {
    && (m.Period? ==> CYCLE_UNIT <= m.per < PERIOD_MAX - 1)
    && (m.Volume? ==> 0 <= m.vol <= 64)
  }

  /** Equal in everything that decides what the channel does and when. */
  predicate SameControl(c: Channel, d: Channel) {
    c.evtime == d.evtime && c.state == d.state && c.per == d.per && c.pbufldl == d.pbufldl && c.data == d.data &&
    c.dma.dat == d.dma.dat && c.log.hacks == d.log.hacks && c.log.volumes == d.log.volumes
  }

  /** Equal in the length counter and what goes with it. */
  predicate SameCounter(c: Channel, d: Channel) {
    d.dma.len == c.dma.len && d.dma.wlen == c.dma.wlen && d.dma.minperloop == c.dma.minperloop
  }

  /** Equal also in everything that is or has been heard. */
  predicate SameSound(c: Channel, d: Channel) {
    SameControl(c, d) && c.dma.dat2 == d.dma.dat2 && c.log.words == d.log.words && c.log.bytes == d.log.bytes
  }

  function Enabled(e: Env, nr: int): bool
    requires 0 <= nr < |e.lines|
  {
    e.dmaMaster && e.lines[nr].dma
  }

  /** napnav: the channel is not attached, or it modulates volume. */
  function Napnav(l: Line): bool {
    (!l.attachVolume && !l.attachPeriod) || l.attachVolume
  }

  function S8(b: int): int {
    if b % 256 >= 128 then b % 256 - 256 else b % 256
  }

  /** update_volume. */
  function VolumeOf(v: int): int {
    if v % 128 > 64 then 64 else v % 128
  }

  function ZeroState(e: Env, c: Channel, reset: bool): Channel {
    c.(state := 0, evtime := MAX_EV,
       dma := c.dma.(irqcheck := 0, enaStore := false, offActive := false, minperloop := 0,
                     intreq2 := if !e.cycleExact || reset then false else c.dma.intreq2))
  }

  function NewSample(l: Line, c: Channel, byte: int, time: int, manual: bool): Channel {
    c.(data := c.data.(currentSample := if l.audible then S8(byte) else 0),
       log := c.log.(bytes := c.log.bytes + [Played(time, byte, c.per)],
                     volumes := c.log.volumes + [Loudness(c.data.audvol, manual)]))
  }

  function SetIrq(c: Channel, time: int): (r: Channel)
    ensures SameSound(r, c) && r.dma == c.dma
  {
    c.(log := c.log.(irqs := c.log.irqs + [time]))
  }

  /** DSR events of a precise CPU are delayed through the event queue, others take effect at once. */
  function SetDr(e: Env, c: Channel, startup: bool, time: int): (r: Channel)
    ensures SameSound(r, c) && r.dma.intreq2 == c.dma.intreq2 && r.log.irqs == c.log.irqs
    ensures r.dma.enaStore == c.dma.enaStore && SameCounter(r, c)
  {
    if !e.dmaMaster then c
    else if !startup && c.dma.wlen == 1 then
      if !e.jit && (c.per < PERIOD_LOW * CYCLE_UNIT || e.compatible) then
        c.(log := c.log.(dsrEvents := c.log.dsrEvents + [time]))
      else
        c.(dma := c.dma.(dsr := true))
    else c.(dma := c.dma.(dr := true))
  }

  function PeriodOf(dat: int): int {
    if dat == 0 then 65536 * CYCLE_UNIT
    else if dat > PERIOD_MIN then dat * CYCLE_UNIT
    else PERIOD_MIN * CYCLE_UNIT
  }

  function LoadDat(l: Line, c: Channel, nr: int, modper: bool, first: bool): (r: (Channel, Modulation))
    ensures SameControl(r.0, c) && r.0.dma.intreq2 == c.dma.intreq2 && r.0.log.irqs == c.log.irqs
    ensures r.0.dma.enaStore == c.dma.enaStore && SameCounter(r.0, c)
    ensures 0 <= c.dma.dat < 0x10000 ==> GoodModulation(r.1)
  {
    if l.attachVolume || (modper && l.attachPeriod) then
      if nr >= 3 then (c, NoModulation)
      else if modper && l.attachPeriod then (c, Period(PeriodOf(c.dma.dat)))
      else (c, Volume(VolumeOf(c.dma.dat)))
    else
      (c.(dma := c.dma.(dat2 := c.dma.dat), log := c.log.(words := c.log.words + [Load(c.dma.dat, first)])),
       NoModulation)
  }

  function LoadPer(c: Channel): Channel {
    c.(evtime := c.per, data := c.data.(mixvol := c.data.audvol))
  }

  function LoadPer1(c: Channel): Channel {
    c.(evtime := CYCLE_UNIT)
  }

  /** The low byte's time without DMA: one cycle unit is kept back for the final interrupt check. */
  function LoadPerM1(l: Line, c: Channel): Channel {
    if c.per == CYCLE_UNIT then c.(evtime := CYCLE_UNIT, dma := c.dma.(irqcheck := if l.irq then 1 else -1))
    else if c.per > CYCLE_UNIT then c.(evtime := c.per - CYCLE_UNIT, state := 0x13)
    else c.(evtime := 65536 * CYCLE_UNIT, state := 0x13)
  }

  /** State 2 entered: play the high byte. */
  function EnterHigh(l: Line, c: Channel, time: int): Channel {
    if c.pbufldl then LoadPer(NewSample(l, c, c.dma.dat2 / 256 % 256, time, false)).(pbufldl := false) else c
  }

  /** State 3 entered: play the low byte. */
  function EnterLow(e: Env, l: Line, ena: bool, c: Channel, time: int): Channel {
    if c.pbufldl then
      var n := NewSample(l, c, c.dma.dat2 % 256, time, !ena);
      (if ena then LoadPer(n) else LoadPerM1(l, n)).(pbufldl := false)
    else c
  }

  /** A tracker-player hack: the low byte is handed out at once and the channel goes idle. */
  function CutShort(e: Env, l: Line, c: Channel, time: int): Channel {
    var d := ZeroState(e, NewSample(l, c, c.dma.dat2 % 256, time, false), true);
    d.(log := d.log.(hacks := d.log.hacks + [time]))
  }

  /** DMA switched off and on again while a word is being played. */
  function DmaOffCheck(e: Env, l: Line, ena: bool, c: Channel, time: int): Channel {
    var was := c.dma.enaStore;
    var d := c.(dma := c.dma.(enaStore := ena));
    if c.state % 16 != 2 && c.state % 16 != 3 then d
    else if !ena && was then d.(dma := d.dma.(offActive := true, offCount := e.instructions))
    else if d.dma.offActive && !was && ena then
      var f := if e.hacks && (e.jit || e.instructions - d.dma.offCount >= 60)
               then CutShort(e, l, d, time) else d;
      f.(dma := f.dma.(offActive := false))
    else d
  }

  /** State 0. */
  function Idle(e: Env, l: Line, ena: bool, c: Channel, nr: int, time: int): (Channel, Modulation) {
    if ena then
      var d := SetDr(e, c.(evtime := MAX_EV, state := 1), true, time);
      (d.(dma := d.dma.(wlen := d.dma.len, dsr := true)), NoModulation)
    else if c.dma.datWritten && !l.irq then
      var (d, m) := LoadDat(l, SetIrq(c.(state := 2), time), nr, false, true);
      if e.hacks && d.per < 10 * CYCLE_UNIT then (CutShort(e, l, d, time), m)
      else (EnterHigh(l, d.(pbufldl := true), time), m)
    else (ZeroState(e, c, false), NoModulation)
  }

  /** State 1: DMA is on, the first word has been asked for. */
  function Start(e: Env, ena: bool, c: Channel, time: int): Channel {
    if !ena then ZeroState(e, c.(evtime := MAX_EV), false)
    else if !c.dma.datWritten then c.(evtime := MAX_EV)
    else
      var d := SetDr(e, SetIrq(c.(evtime := MAX_EV), time), false, time);
      d.(state := 5, dma := d.dma.(wlen := if d.dma.wlen != 1 then (d.dma.wlen - 1) % 0x10000 else 1))
  }

  /** State 5: the first word is about to arrive. */
  function Prefetch(e: Env, l: Line, ena: bool, c: Channel, nr: int, time: int): (Channel, Modulation) {
    if !ena then (ZeroState(e, c.(evtime := MAX_EV), false), NoModulation)
    else if !c.dma.datWritten then (c.(evtime := MAX_EV), NoModulation)
    else
      var (d, m) := FirstWord(e, l, c, nr, time);
      (EnterHigh(l, d, time), m)
  }

  /** The first word of a DMA stream: load it and ask for the one after. */
  function FirstWord(e: Env, l: Line, c: Channel, nr: int, time: int): (Channel, Modulation) {
    var (d, m) := LoadDat(l, c, nr, false, true);
    var f := if Napnav(l) then SetDr(e, d, false, time) else d;
    (LoadPer(f.(state := 2, pbufldl := true, dma := f.dma.(intreq2 := false))), m)
  }

  /** The interrupt that announces a reload of the length counter. */
  function Reloaded(c: Channel, time: int): (r: Channel)
    ensures SameSound(r, c) && r.dma.enaStore == c.dma.enaStore
    ensures SameCounter(r, c)
  {
    if c.dma.intreq2 then SetIrq(c.(dma := c.dma.(intreq2 := false)), time) else c
  }

  /** The end of the high byte's period, up to the change to state 3. */
  function HighDone(e: Env, l: Line, ena: bool, c: Channel, nr: int, time: int): (Channel, Modulation) {
    var (d, m) := if l.attachPeriod then LoadDat(l, c, nr, true, false) else (c, NoModulation);
    var f := if !l.attachPeriod then d
             else if ena then Reloaded(SetDr(e, d, false, time), time)
             else SetIrq(d, time);
    (f.(pbufldl := true, state := 3, dma := f.dma.(irqcheck := 0)), m)
  }

  function LeaveHigh(e: Env, l: Line, ena: bool, c: Channel, nr: int, time: int): (Channel, Modulation) {
    var (d, m) := HighDone(e, l, ena, c, nr, time);
    (EnterLow(e, l, ena, d, time), m)
  }

  /** State 0x13: all but the last cycle unit of a low byte without DMA has passed. */
  function LastUnit(l: Line, ena: bool, c: Channel): Channel {
    var d := LoadPer1(c.(state := 3));
    d.(dma := d.dma.(irqcheck := if !ena && l.irq then 1 else -1))
  }

  /** The final check of a word played without DMA: a pending interrupt ends playback. */
  function ManualDone(l: Line, c: Channel, time: int): Channel {
    if Napnav(l) then SetIrq(LateCheck(l, c), time) else LateCheck(l, c)
  }

  /** The interrupt check that the last cycle unit did not need. */
  function LateCheck(l: Line, c: Channel): Channel {
    if c.dma.irqcheck == 0 then c.(dma := c.dma.(irqcheck := if l.irq then 1 else 0)) else c
  }

  /** The next word of a word stream: load it and ask for the one after. */
  function NextWord(e: Env, l: Line, ena: bool, c: Channel, nr: int, time: int): (Channel, Modulation) {
    var (d, m) := LoadDat(l, c, nr, false, false);
    var f := if ena && Napnav(l) then Reloaded(SetDr(e, d, false, time), time) else d;
    (f.(pbufldl := true, state := 2), m)
  }

  /** The end of the low byte's period. */
  function LeaveLow(e: Env, l: Line, ena: bool, c: Channel, nr: int, time: int): (Channel, Modulation) {
    var d := if ena then c else ManualDone(l, c, time);
    if !ena && d.dma.irqcheck > 0 then (ZeroState(e, d, false), NoModulation)
    else
      var (f, m) := NextWord(e, l, ena, d, nr, time);
      (EnterHigh(l, f, time), m)
  }

  /** The switch of audio_state_channel2.  The second result is the function's return value. */
  function Dispatch(e: Env, l: Line, ena: bool, c: Channel, nr: int, time: int, perfin: bool)
    : (Channel, bool, Modulation)
  {
    if c.state == 0 then var (d, m) := Idle(e, l, ena, c, nr, time); (d, true, m)
    else if c.state == 1 then (Start(e, ena, c, time), true, NoModulation)
    else if c.state == 5 then var (d, m) := Prefetch(e, l, ena, c, nr, time); (d, true, m)
    else if c.state == 2 then
      var d := EnterHigh(l, c, time);
      if !perfin then (d, true, NoModulation)
      else var (f, m) := LeaveHigh(e, l, ena, d, nr, time); (f, true, m)
    else if c.state == 0x13 then
      if !perfin then (c, true, NoModulation) else (LastUnit(l, ena, c), false, NoModulation)
    else if c.state == 3 then
      var d := EnterLow(e, l, ena, c, time);
      if !perfin then (d, true, NoModulation)
      else var (f, m) := LeaveLow(e, l, ena, d, nr, time); (f, true, m)
    else (c, true, NoModulation)
  }

  /** audio_state_channel2. */
  function StateChannel2(e: Env, c: Channel, nr: int, time: int, perfin: bool): (Channel, bool, Modulation)
    requires 0 <= nr < |e.lines|
  {
    var l, ena := e.lines[nr], Enabled(e, nr);
    if !e.soundOn then (ZeroState(e, c.(dma := c.dma.(enaStore := ena)), true), true, NoModulation)
    else Dispatch(e, l, ena, DmaOffCheck(e, l, ena, c, time), nr, time, perfin)
  }

  /* ---------- Every reachable channel is armed ---------- */

  predicate KnownState(s: int) {
    s == 0 || s == 1 || s == 5 || s == 2 || s == 3 || s == 0x13
  }

  /** The channel waits a positive time, or not at all, and its period is a whole cycle unit or more. */
  predicate Armed(c: Channel) {
    && 0 < c.evtime <= MAX_EV
    && CYCLE_UNIT <= c.per < PERIOD_MAX
    && KnownState(c.state)
    && !c.pbufldl
    && 0 <= c.dma.dat < 0x10000
    && Blep.ValidQueue(c.data.sinc)
  }

  /** A channel whose time has come: like an armed one, but `evtime` is down to zero. */
  predicate Due(c: Channel) {
    c.evtime == 0 && Armed(c.(evtime := 1))
  }

  /** Armed, but for the waiting time and the pending period load. */
  predicate Sound(c: Channel) {
    && CYCLE_UNIT <= c.per < PERIOD_MAX
    && KnownState(c.state)
    && 0 <= c.dma.dat < 0x10000
    && Blep.ValidQueue(c.data.sinc)
  }

  lemma EntersArmed(e: Env, l: Line, ena: bool, c: Channel, time: int)
    requires Sound(c) && c.pbufldl
    ensures c.state == 2 ==> Armed(EnterHigh(l, c, time))
    ensures c.state == 3 ==> Armed(EnterLow(e, l, ena, c, time))
  {
  }

  lemma IdleArms(e: Env, l: Line, ena: bool, c: Channel, nr: int, time: int)
    requires Sound(c) && !c.pbufldl
    ensures var (d, m) := Idle(e, l, ena, c, nr, time); Armed(d) && GoodModulation(m)
  {
  }

  lemma StartsArmed(e: Env, ena: bool, c: Channel, time: int)
    requires Sound(c) && !c.pbufldl
    ensures Armed(Start(e, ena, c, time))
  {
  }

  lemma PrefetchArms(e: Env, l: Line, ena: bool, c: Channel, nr: int, time: int)
    requires Sound(c) && !c.pbufldl
    ensures var (d, m) := Prefetch(e, l, ena, c, nr, time); Armed(d) && GoodModulation(m)
  {
  }

  lemma HighDoneIsSound(e: Env, l: Line, ena: bool, c: Channel, nr: int, time: int)
    requires Sound(c)
    ensures var (d, m) := HighDone(e, l, ena, c, nr, time);
            Sound(d) && d.pbufldl && d.state == 3 && GoodModulation(m)
  {
  }

  lemma NextWordIsSound(e: Env, l: Line, ena: bool, c: Channel, nr: int, time: int)
    requires Sound(c)
    ensures var (d, m) := NextWord(e, l, ena, c, nr, time);
            Sound(d) && d.pbufldl && d.state == 2 && GoodModulation(m)
  {
  }

  lemma LeavesArmed(e: Env, l: Line, ena: bool, c: Channel, nr: int, time: int)
    requires Sound(c) && !c.pbufldl
    ensures var (d, m) := LeaveHigh(e, l, ena, c, nr, time); Armed(d) && GoodModulation(m)
    ensures var (d, m) := LeaveLow(e, l, ena, c, nr, time); Armed(d) && GoodModulation(m)
  {
    hide EnterHigh, EnterLow, HighDone, NextWord;
    HighDoneIsSound(e, l, ena, c, nr, time);
    EntersArmed(e, l, ena, HighDone(e, l, ena, c, nr, time).0, time);
    var d := if ena then c else ManualDone(l, c, time);
    NextWordIsSound(e, l, ena, d, nr, time);
    EntersArmed(e, l, ena, NextWord(e, l, ena, d, nr, time).0, time);
  }

  lemma DmaOffKeepsArmed(e: Env, l: Line, ena: bool, c: Channel, time: int)
    requires Armed(c) || Due(c)
    ensures var d := DmaOffCheck(e, l, ena, c, time); Sound(d) && !d.pbufldl && (Armed(c) ==> Armed(d))
  {
  }

  /** From every reachable state, and whatever the registers say, a channel that is due leaves the
      state machine with a positive waiting time or with none; a channel that is not due stays armed. */
  lemma ServiceArms(e: Env, c: Channel, nr: int, time: int, perfin: bool)
    requires ValidEnv(e) && 0 <= nr < AUDIO_CHANNELS_PAULA
    requires Armed(c) || (Due(c) && perfin)
    ensures var (d, _, m) := StateChannel2(e, c, nr, time, perfin); Armed(d) && GoodModulation(m)
  {
    var l, ena := e.lines[nr], Enabled(e, nr);
    DmaOffKeepsArmed(e, l, ena, c, time);
    var d := DmaOffCheck(e, l, ena, c, time);
    IdleArms(e, l, ena, d, nr, time);
    StartsArmed(e, ena, d, time);
    PrefetchArms(e, l, ena, d, nr, time);
    LeavesArmed(e, l, ena, d, nr, time);
  }
}

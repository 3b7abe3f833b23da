/** The byte and the interrupt check of a Paula channel (src/core/audio.cpp), for every call of audio_state_channel2
    and for channels attached or not, heard or muted. */
module PaulaBytes {
  import opened PaulaChannel
  import opened PaulaEngine
  import opened PaulaPlayback
  import opened PaulaEffects

  /* ---------- The byte ---------- */

  /** From `c` to `d` at most one byte has begun, and the sample is that byte read as signed, or nothing while the
      channel is muted. */
  predicate Hears(l: Line, c: Channel, d: Channel) {
    var n := |c.log.bytes|;
    && c.log.bytes <= d.log.bytes && |d.log.bytes| <= n + 1
    && d.data.currentSample ==
       if |d.log.bytes| == n then c.data.currentSample
       else if !l.audible then 0
       else var b := d.log.bytes[n].byte % 256; if b < 128 then b else b - 256
  }

  /** Nothing has begun. */
  predicate Silent(c: Channel, d: Channel) {
    d.log.bytes == c.log.bytes && d.data.currentSample == c.data.currentSample
  }

  lemma SetDrSilent(e: Env, c: Channel, startup: bool, time: int)
    ensures Silent(c, SetDr(e, c, startup, time)) && Silent(c, SetIrq(c, time)) && Silent(c, Reloaded(c, time))
  {
  }

  lemma LoadSilent(l: Line, c: Channel, nr: int, modper: bool, first: bool)
    ensures Silent(c, LoadDat(l, c, nr, modper, first).0)
  {
  }

  lemma EntryHears(e: Env, l: Line, ena: bool, c: Channel, time: int)
    ensures Hears(l, c, EnterHigh(l, c, time)) && Hears(l, c, EnterLow(e, l, ena, c, time))
    ensures Hears(l, c, CutShort(e, l, c, time))
    ensures Silent(c, LastUnit(l, ena, c)) && Silent(c, ZeroState(e, c, false)) && Silent(c, ZeroState(e, c, true))
    ensures !c.pbufldl ==> EnterHigh(l, c, time) == c && EnterLow(e, l, ena, c, time) == c
  {
  }

  lemma HearsAfter(l: Line, c: Channel, b: Channel, d: Channel)
    requires Silent(c, b) && Hears(l, b, d)
    ensures Hears(l, c, d)
  {
  }

  lemma IdleHears(e: Env, l: Line, ena: bool, c: Channel, nr: int, time: int)
    ensures ena ==> Silent(c, Idle(e, l, ena, c, nr, time).0)
    ensures Hears(l, c, Idle(e, l, ena, c, nr, time).0)
  {
    hide SetDr, LoadDat, SetIrq, CutShort, EnterHigh, ZeroState, Hears;
    EntryHears(e, l, ena, c, time);
    if ena {
      SetDrSilent(e, c.(evtime := MAX_EV, state := 1), true, time);
      SilentHears(l, c, Idle(e, l, ena, c, nr, time).0);
    } else if c.dma.datWritten && !l.irq {
      SetDrSilent(e, c.(state := 2), true, time);
      LoadSilent(l, SetIrq(c.(state := 2), time), nr, false, true);
      var d := LoadDat(l, SetIrq(c.(state := 2), time), nr, false, true).0;
      EntryHears(e, l, ena, d, time);
      EntryHears(e, l, ena, d.(pbufldl := true), time);
      HearsAfter(l, c, d, CutShort(e, l, d, time));
      HearsAfter(l, c, d.(pbufldl := true), EnterHigh(l, d.(pbufldl := true), time));
    } else {
      SilentHears(l, c, ZeroState(e, c, false));
    }
  }

  lemma SilentHears(l: Line, c: Channel, d: Channel)
    requires Silent(c, d)
    ensures Hears(l, c, d)
  {
  }

  lemma StartSilent(e: Env, ena: bool, c: Channel, time: int)
    ensures Silent(c, Start(e, ena, c, time))
  {
    hide SetDr, SetIrq;
    SetDrSilent(e, c.(evtime := MAX_EV), false, time);
    SetDrSilent(e, SetIrq(c.(evtime := MAX_EV), time), false, time);
  }

  lemma PrefetchHears(e: Env, l: Line, ena: bool, c: Channel, nr: int, time: int)
    requires !c.pbufldl
    ensures Hears(l, c, Prefetch(e, l, ena, c, nr, time).0)
  {
    hide SetDr, LoadDat, EnterHigh, Hears;
    LoadSilent(l, c, nr, false, true);
    var d := LoadDat(l, c, nr, false, true).0;
    SetDrSilent(e, d, false, time);
    var f := FirstWord(e, l, c, nr, time).0;
    EntryHears(e, l, ena, f, time);
    if ena && c.dma.datWritten {
      HearsAfter(l, c, f, EnterHigh(l, f, time));
    } else {
      SilentHears(l, c, Prefetch(e, l, ena, c, nr, time).0);
    }
  }

  lemma HighDoneSilent(e: Env, l: Line, ena: bool, c: Channel, nr: int, time: int)
    ensures Silent(c, HighDone(e, l, ena, c, nr, time).0)
  {
    hide SetDr, LoadDat, SetIrq, Reloaded;
    LoadSilent(l, c, nr, true, false);
    var d := LoadDat(l, c, nr, true, false).0;
    SetDrSilent(e, d, false, time);
    SetDrSilent(e, SetDr(e, d, false, time), false, time);
  }

  lemma LowDoneHears(e: Env, l: Line, ena: bool, c: Channel, nr: int, time: int)
    ensures Hears(l, c, LeaveLow(e, l, ena, c, nr, time).0)
  {
    hide SetDr, LoadDat, SetIrq, Reloaded, EnterHigh, Hears;
    SetDrSilent(e, LateCheck(l, c), false, time);
    var d := if ena then c else ManualDone(l, c, time);
    LoadSilent(l, d, nr, false, false);
    var f := LoadDat(l, d, nr, false, false).0;
    SetDrSilent(e, f, false, time);
    SetDrSilent(e, SetDr(e, f, false, time), false, time);
    var g := NextWord(e, l, ena, d, nr, time).0;
    EntryHears(e, l, ena, g, time);
    if !ena && d.dma.irqcheck > 0 {
      SilentHears(l, c, LeaveLow(e, l, ena, c, nr, time).0);
    } else {
      HearsAfter(l, c, g, EnterHigh(l, g, time));
    }
  }

  /** Whatever the state and the registers: a call begins at most one byte, and the sample of the channel is from then
      on that byte read as signed; a muted channel's is 0. */
  lemma SampleIsSignedByte(e: Env, c: Channel, nr: int, time: int, perfin: bool)
    requires 0 <= nr < |e.lines| && KnownState(c.state) && !c.pbufldl
    ensures Hears(e.lines[nr], c, StateChannel2(e, c, nr, time, perfin).0)
  {
    hide DmaOffCheck, EnterHigh, EnterLow, Idle, Start, Prefetch, LeaveHigh, LeaveLow, LastUnit, ZeroState, Hears;
    var l, ena := e.lines[nr], Enabled(e, nr);
    var d := StateChannel2(e, c, nr, time, perfin).0;
    if !e.soundOn {
      EntryHears(e, l, ena, c.(dma := c.dma.(enaStore := ena)), time);
      SilentHears(l, c, d);
    } else if ForcedRestart(e, ena, c) {
      RestartHears(e, c, nr, time, perfin);
    } else {
      var b := DmaOffCheck(e, l, ena, c, time);
      CheckedIs(e, l, ena, c, time);
      CheckSilent(e, l, ena, c, time);
      EntryHears(e, l, ena, b, time);
      HearsFrom(e, l, ena, b, nr, time);
      SilentHears(l, b, b);
      SilentHears(l, b, LastUnit(l, ena, b));
      HearsAfter(l, c, b, d);
    }
  }

  lemma CheckSilent(e: Env, l: Line, ena: bool, c: Channel, time: int)
    requires KnownState(c.state) && !ForcedRestart(e, ena, c)
    ensures Silent(c, DmaOffCheck(e, l, ena, c, time))
  {
    hide CutShort;
  }

  /** A restart hands the low byte out at once. */
  lemma RestartHears(e: Env, c: Channel, nr: int, time: int, perfin: bool)
    requires 0 <= nr < |e.lines| && e.soundOn && KnownState(c.state) && ForcedRestart(e, Enabled(e, nr), c)
    ensures Hears(e.lines[nr], c, StateChannel2(e, c, nr, time, perfin).0)
  {
    hide CutShort, Idle, Hears;
    var l, was := e.lines[nr], c.(dma := c.dma.(enaStore := true));
    var b := DmaOffCheck(e, l, true, c, time);
    CutShortIs(e, l, was, time);
    EntryHears(e, l, true, was, time);
    HearsAfter(l, c, was, CutShort(e, l, was, time));
    IdleHears(e, l, true, b, nr, time);
    HearsBefore(l, c, CutShort(e, l, was, time), Idle(e, l, true, b, nr, time).0);
  }

  lemma HearsBefore(l: Line, c: Channel, b: Channel, d: Channel)
    requires Hears(l, c, b) && Silent(b, d)
    ensures Hears(l, c, d)
  {
  }

  /** The branches of the switch. */
  lemma HearsFrom(e: Env, l: Line, ena: bool, c: Channel, nr: int, time: int)
    requires !c.pbufldl
    ensures Hears(l, c, Idle(e, l, ena, c, nr, time).0) && Hears(l, c, Start(e, ena, c, time))
    ensures Hears(l, c, Prefetch(e, l, ena, c, nr, time).0)
    ensures Hears(l, c, LeaveHigh(e, l, ena, c, nr, time).0) && Hears(l, c, LeaveLow(e, l, ena, c, nr, time).0)
  {
    hide Idle, Start, Prefetch, HighDone, LeaveLow, EnterLow, Hears;
    IdleHears(e, l, ena, c, nr, time);
    StartSilent(e, ena, c, time);
    SilentHears(l, c, Start(e, ena, c, time));
    PrefetchHears(e, l, ena, c, nr, time);
    var d := HighDone(e, l, ena, c, nr, time).0;
    HighDoneSilent(e, l, ena, c, nr, time);
    EntryHears(e, l, ena, d, time);
    HearsAfter(l, c, d, EnterLow(e, l, ena, d, time));
    LowDoneHears(e, l, ena, c, nr, time);
  }

  /* ---------- The interrupt check of a word by hand ---------- */

  /** What a call knows of the interrupt at the end of the word: 1 seen, -1 seen not to be there, 0 not looked. */
  function CheckAfter(e: Env, c: Channel, nr: int, perfin: bool): int
    requires 0 <= nr < |e.lines|
  {
    var seen := if e.lines[nr].irq then 1 else -1;
    if c.state == 0x13 && perfin then if Enabled(e, nr) then -1 else seen
    else if c.state == 2 && perfin then if !Enabled(e, nr) && c.per == 512 then seen else 0
    else c.dma.irqcheck
  }

  lemma EntryChecks(e: Env, l: Line, ena: bool, c: Channel, time: int)
    requires c.per >= CYCLE_UNIT
    ensures EnterHigh(l, c, time).dma.irqcheck == c.dma.irqcheck
    ensures c.pbufldl && !ena && c.per == 512 ==>
              EnterLow(e, l, ena, c, time).dma.irqcheck == if l.irq then 1 else -1
    ensures ena || c.per > 512 ==> EnterLow(e, l, ena, c, time).dma.irqcheck == c.dma.irqcheck
    ensures LastUnit(l, ena, c).dma.irqcheck == if !ena && l.irq then 1 else -1
  {
    hide NewSample, S8;
    SampleChecks(l, c, c.dma.dat2 / 256 % 256, time, false);
    SampleChecks(l, c, c.dma.dat2 % 256, time, !ena);
  }

  lemma SampleChecks(l: Line, c: Channel, byte: int, time: int, manual: bool)
    ensures NewSample(l, c, byte, time, manual).dma == c.dma && NewSample(l, c, byte, time, manual).per == c.per
  {
  }

  lemma SetDrChecks(e: Env, c: Channel, startup: bool, time: int)
    ensures SetDr(e, c, startup, time).dma.irqcheck == c.dma.irqcheck == Reloaded(c, time).dma.irqcheck
  {
  }

  lemma LoadChecks(l: Line, c: Channel, nr: int, modper: bool, first: bool)
    ensures LoadDat(l, c, nr, modper, first).0.dma.irqcheck == c.dma.irqcheck
    ensures LoadDat(l, c, nr, modper, first).0.per == c.per
  {
  }

  lemma IdleChecks(e: Env, l: Line, ena: bool, c: Channel, nr: int, time: int)
    requires c.per >= CYCLE_UNIT
    ensures var d := Idle(e, l, ena, c, nr, time).0; d.state != 0 ==> d.dma.irqcheck == c.dma.irqcheck
  {
    hide SetDr, LoadDat, CutShort, EnterHigh;
    SetDrChecks(e, c.(evtime := MAX_EV, state := 1), true, time);
    LoadChecks(l, SetIrq(c.(state := 2), time), nr, false, true);
    var d := LoadDat(l, SetIrq(c.(state := 2), time), nr, false, true).0;
    EntryChecks(e, l, ena, d.(pbufldl := true), time);
    CutShortIs(e, l, d, time);
  }

  lemma StartChecks(e: Env, ena: bool, c: Channel, time: int)
    ensures var d := Start(e, ena, c, time); d.state != 0 ==> d.dma.irqcheck == c.dma.irqcheck
  {
    hide SetDr;
    SetDrChecks(e, SetIrq(c.(evtime := MAX_EV), time), false, time);
  }

  lemma PrefetchChecks(e: Env, l: Line, ena: bool, c: Channel, nr: int, time: int)
    requires c.per >= CYCLE_UNIT
    ensures var d := Prefetch(e, l, ena, c, nr, time).0; d.state != 0 ==> d.dma.irqcheck == c.dma.irqcheck
  {
    hide SetDr, LoadDat, EnterHigh;
    LoadChecks(l, c, nr, false, true);
    SetDrChecks(e, LoadDat(l, c, nr, false, true).0, false, time);
    EntryChecks(e, l, ena, FirstWord(e, l, c, nr, time).0, time);
  }

  lemma LeaveHighChecks(e: Env, l: Line, ena: bool, c: Channel, nr: int, time: int)
    requires c.per >= CYCLE_UNIT
    ensures LeaveHigh(e, l, ena, c, nr, time).0.dma.irqcheck ==
            if !ena && c.per == 512 then if l.irq then 1 else -1 else 0
  {
    hide SetDr, LoadDat, EnterLow, Reloaded;
    LoadChecks(l, c, nr, true, false);
    EntryChecks(e, l, ena, HighDone(e, l, ena, c, nr, time).0, time);
  }

  lemma LeaveLowChecks(e: Env, l: Line, ena: bool, c: Channel, nr: int, time: int)
    requires c.per >= CYCLE_UNIT
    ensures var d := LeaveLow(e, l, ena, c, nr, time).0; d.state != 0 ==> d.dma.irqcheck == c.dma.irqcheck
  {
    hide SetDr, LoadDat, EnterHigh, Reloaded;
    var d := if ena then c else ManualDone(l, c, time);
    LoadChecks(l, d, nr, false, false);
    var f := LoadDat(l, d, nr, false, false).0;
    SetDrChecks(e, f, false, time);
    SetDrChecks(e, SetDr(e, f, false, time), false, time);
    EntryChecks(e, l, ena, NextWord(e, l, ena, d, nr, time).0, time);
  }

  /** For every state: what a call that leaves the channel running has found out about the interrupt. Without DMA the
      check is made one cycle unit before the end of the low byte, or where it begins if it is no longer than that. */
  lemma ChecksAre(e: Env, c: Channel, nr: int, time: int, perfin: bool)
    requires 0 <= nr < |e.lines| && e.soundOn && KnownState(c.state) && !c.pbufldl && c.per >= 512
    requires !ForcedRestart(e, Enabled(e, nr), c)
    ensures var d := StateChannel2(e, c, nr, time, perfin).0;
            d.state != 0 ==> d.dma.irqcheck == CheckAfter(e, c, nr, perfin)
  {
    hide DmaOffCheck, EnterHigh, EnterLow, Idle, Start, Prefetch, LeaveHigh, LeaveLow, LastUnit;
    var l, ena := e.lines[nr], Enabled(e, nr);
    var b := DmaOffCheck(e, l, ena, c, time);
    CheckedIs(e, l, ena, c, time);
    EntryChecks(e, l, ena, b, time);
    EntryStays(e, l, ena, b, time);
    IdleChecks(e, l, ena, b, nr, time);
    StartChecks(e, ena, b, time);
    PrefetchChecks(e, l, ena, b, nr, time);
    LeaveHighChecks(e, l, ena, b, nr, time);
    LeaveLowChecks(e, l, ena, b, nr, time);
  }
}

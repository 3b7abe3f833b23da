/** The flags that a call of audio_state_channel2 leaves in a Paula channel (src/core/audio.cpp), for every state and
    for channels attached or not: the switch of DMA off and on, the flag of a reload and the flag of a new word. */
module PaulaFlags {
  import opened PaulaChannel
  import opened PaulaEngine
  import opened PaulaPlayback
  import opened PaulaEffects

  /** What is remembered of DMA: the enable flag seen last, whether it went off during a word, and when; and the flag
      of a reload whose interrupt is still to come. */
  datatype Memory = Memory(ena: bool, off: bool, since: int, reload: bool)

  function Of(c: Channel): Memory {
    Memory(c.dma.enaStore, c.dma.offActive, c.dma.offCount, c.dma.intreq2)
  }

  /** What a call remembers that leaves the channel running. */
  function Remembered(e: Env, c: Channel, nr: int, perfin: bool): Memory
    requires 0 <= nr < |e.lines|
  {
    var ena, m := Enabled(e, nr), Of(c);
    var announced := ena && perfin && ((c.state == 2 && e.lines[nr].attachPeriod) || (c.state == 3 && LoadsOwn(e, nr)));
    var n := m.(ena := ena, reload := m.reload && !announced && !WordCame(e, c, nr, 5));
    if c.state == 2 || c.state == 3 || c.state == 0x13 then
      if m.ena && !ena then n.(off := true, since := e.instructions)
      else if m.off && !m.ena && ena then n.(off := false)
      else n
    else n
  }

  lemma CheckRemembers(e: Env, l: Line, ena: bool, c: Channel, time: int)
    requires KnownState(c.state) && !ForcedRestart(e, ena, c)
    ensures var m, n := Of(c), Of(DmaOffCheck(e, l, ena, c, time)).(reload := c.dma.intreq2);
            n == if c.state == 2 || c.state == 3 || c.state == 0x13 then
                   if m.ena && !ena then Memory(ena, true, e.instructions, m.reload)
                   else if m.off && !m.ena && ena then Memory(ena, false, m.since, m.reload)
                   else m.(ena := ena)
                 else m.(ena := ena)
    ensures DmaOffCheck(e, l, ena, c, time).dma.intreq2 == c.dma.intreq2
    ensures DmaOffCheck(e, l, ena, c, time).dma.datWritten == c.dma.datWritten
  {
    hide CutShort;
  }

  /** The steps of the state machine that leave all of this alone. */
  predicate Same(c: Channel, d: Channel) {
    Of(d) == Of(c) && d.dma.datWritten == c.dma.datWritten
  }

  lemma StepsKeep(e: Env, l: Line, c: Channel, nr: int, startup: bool, modper: bool, first: bool, time: int)
    ensures Same(c, SetDr(e, c, startup, time)) && Same(c, SetIrq(c, time)) && Same(c, LateCheck(l, c))
    ensures Same(c, LoadDat(l, c, nr, modper, first).0) && Same(c, ManualDone(l, c, time))
    ensures Of(Reloaded(c, time)) == Of(c).(reload := false)
    ensures Reloaded(c, time).dma.datWritten == c.dma.datWritten
  {
    hide SetDr, LoadDat, Reloaded, ManualDone, LateCheck;
    AsksKeep(e, c, startup, time);
    ChecksKeep(l, c, time);
    LoadKeepsFlags(l, c, nr, modper, first);
  }

  lemma ChecksKeep(l: Line, c: Channel, time: int)
    ensures Same(c, LateCheck(l, c)) && Same(c, ManualDone(l, c, time))
    ensures Of(Reloaded(c, time)) == Of(c).(reload := false)
    ensures Reloaded(c, time).dma.datWritten == c.dma.datWritten
  {
  }

  lemma AsksKeep(e: Env, c: Channel, startup: bool, time: int)
    ensures Same(c, SetDr(e, c, startup, time))
  {
    if !e.dmaMaster {
      assert SetDr(e, c, startup, time) == c;
    } else if startup || c.dma.wlen != 1 {
      assert SetDr(e, c, startup, time) == c.(dma := c.dma.(dr := true));
    }
  }

  lemma LoadKeepsFlags(l: Line, c: Channel, nr: int, modper: bool, first: bool)
    ensures Same(c, LoadDat(l, c, nr, modper, first).0)
  {
  }

  lemma EntryKeepsFlags(e: Env, l: Line, ena: bool, c: Channel, time: int)
    ensures Same(c, EnterHigh(l, c, time)) && Same(c, EnterLow(e, l, ena, c, time)) && Same(c, LastUnit(l, ena, c))
    ensures CutShort(e, l, c, time).dma.datWritten == c.dma.datWritten == ZeroState(e, c, false).dma.datWritten
    ensures !c.pbufldl ==> EnterHigh(l, c, time) == c && EnterLow(e, l, ena, c, time) == c
  {
    hide S8;
  }

  lemma IdleRemembers(e: Env, l: Line, ena: bool, c: Channel, nr: int, time: int)
    ensures var d := Idle(e, l, ena, c, nr, time).0;
            d.dma.datWritten == c.dma.datWritten && (d.state != 0 ==> Of(d) == Of(c))
  {
    hide SetDr, LoadDat, SetIrq, CutShort, EnterHigh;
    StepsKeep(e, l, c.(evtime := MAX_EV, state := 1), nr, true, false, true, time);
    StepsKeep(e, l, c.(state := 2), nr, true, false, true, time);
    StepsKeep(e, l, SetIrq(c.(state := 2), time), nr, true, false, true, time);
    var d := LoadDat(l, SetIrq(c.(state := 2), time), nr, false, true).0;
    EntryKeepsFlags(e, l, ena, d.(pbufldl := true), time);
    EntryKeepsFlags(e, l, ena, d, time);
    CutShortIs(e, l, d, time);
  }

  lemma StartRemembers(e: Env, ena: bool, c: Channel, time: int)
    ensures var d := Start(e, ena, c, time);
            d.dma.datWritten == c.dma.datWritten && (d.state != 0 ==> Of(d) == Of(c))
  {
    hide SetDr, SetIrq;
    var b, l := c.(evtime := MAX_EV), Line(false, false, false, false, false, false);
    StepsKeep(e, l, b, 0, false, false, false, time);
    StepsKeep(e, l, SetIrq(b, time), 0, false, false, false, time);
  }

  lemma PrefetchRemembers(e: Env, l: Line, ena: bool, c: Channel, nr: int, time: int)
    ensures var d := Prefetch(e, l, ena, c, nr, time).0;
            && d.dma.datWritten == c.dma.datWritten
            && (d.state != 0 ==> Of(d) == Of(c).(reload := c.dma.intreq2 && !(ena && c.dma.datWritten)))
  {
    hide SetDr, LoadDat, EnterHigh;
    StepsKeep(e, l, c, nr, false, false, true, time);
    StepsKeep(e, l, LoadDat(l, c, nr, false, true).0, nr, false, false, true, time);
    EntryKeepsFlags(e, l, ena, FirstWord(e, l, c, nr, time).0, time);
  }

  lemma LeaveHighRemembers(e: Env, l: Line, ena: bool, c: Channel, nr: int, time: int)
    ensures var d := LeaveHigh(e, l, ena, c, nr, time).0;
            && d.dma.datWritten == c.dma.datWritten
            && Of(d) == Of(c).(reload := c.dma.intreq2 && !(ena && l.attachPeriod))
  {
    hide SetDr, SetIrq, LoadDat, EnterLow, Reloaded;
    var d := LoadDat(l, c, nr, true, false).0;
    StepsKeep(e, l, c, nr, false, true, false, time);
    StepsKeep(e, l, d, nr, false, true, false, time);
    StepsKeep(e, l, SetDr(e, d, false, time), nr, false, true, false, time);
    EntryKeepsFlags(e, l, ena, HighDone(e, l, ena, c, nr, time).0, time);
  }

  lemma LeaveLowRemembers(e: Env, l: Line, ena: bool, c: Channel, nr: int, time: int)
    ensures var d := LeaveLow(e, l, ena, c, nr, time).0;
            && d.dma.datWritten == c.dma.datWritten
            && (d.state != 0 ==> Of(d) == Of(c).(reload := c.dma.intreq2 && !(ena && Napnav(l))))
  {
    hide SetDr, SetIrq, LoadDat, EnterHigh, Reloaded, ManualDone;
    var d := if ena then c else ManualDone(l, c, time);
    var f := LoadDat(l, d, nr, false, false).0;
    StepsKeep(e, l, c, nr, false, false, false, time);
    StepsKeep(e, l, d, nr, false, false, false, time);
    StepsKeep(e, l, f, nr, false, false, false, time);
    StepsKeep(e, l, SetDr(e, f, false, time), nr, false, false, false, time);
    EntryKeepsFlags(e, l, ena, NextWord(e, l, ena, d, nr, time).0, time);
  }

  /** For every state and every setting: what a call that leaves the channel running remembers of DMA and of a reload.
      An idle channel has forgotten it. */
  lemma MemoryIs(e: Env, c: Channel, nr: int, time: int, perfin: bool)
    requires 0 <= nr < |e.lines| && e.soundOn && KnownState(c.state) && !c.pbufldl
    requires !ForcedRestart(e, Enabled(e, nr), c)
    ensures var d := StateChannel2(e, c, nr, time, perfin).0;
            d.state != 0 ==> Of(d) == Remembered(e, c, nr, perfin)
  {
    hide DmaOffCheck, EnterHigh, EnterLow, Idle, Start, Prefetch, LeaveHigh, LeaveLow, LastUnit;
    var l, ena := e.lines[nr], Enabled(e, nr);
    var b := DmaOffCheck(e, l, ena, c, time);
    CheckedIs(e, l, ena, c, time);
    CheckRemembers(e, l, ena, c, time);
    EntryKeepsFlags(e, l, ena, b, time);
    if c.state == 0 {
      IdleRemembers(e, l, ena, b, nr, time);
    } else if c.state == 1 {
      StartRemembers(e, ena, b, time);
    } else if c.state == 5 {
      PrefetchRemembers(e, l, ena, b, nr, time);
    } else if c.state == 2 {
      LeaveHighRemembers(e, l, ena, b, nr, time);
    } else if c.state == 3 {
      LeaveLowRemembers(e, l, ena, b, nr, time);
    }
  }

  /** The state machine itself never clears a new word's flag. It tells its caller to, but for the last cycle unit of a
      low byte by hand. */
  lemma DoneExactlyWhen(e: Env, c: Channel, nr: int, time: int, perfin: bool)
    requires 0 <= nr < |e.lines| && KnownState(c.state) && !c.pbufldl
    ensures var (d, done, _) := StateChannel2(e, c, nr, time, perfin);
            && d.dma.datWritten == c.dma.datWritten
            && (!done <==> e.soundOn && c.state == 0x13 && perfin && !ForcedRestart(e, Enabled(e, nr), c))
  {
    hide DmaOffCheck, EnterHigh, EnterLow, Idle, Start, Prefetch, LeaveHigh, LeaveLow, LastUnit;
    var l, ena := e.lines[nr], Enabled(e, nr);
    if e.soundOn && ForcedRestart(e, ena, c) {
      RestartDone(e, c, nr, time, perfin);
    } else if e.soundOn {
      var b := DmaOffCheck(e, l, ena, c, time);
      CheckedIs(e, l, ena, c, time);
      CheckRemembers(e, l, ena, c, time);
      EntryKeepsFlags(e, l, ena, b, time);
      IdleRemembers(e, l, ena, b, nr, time);
      StartRemembers(e, ena, b, time);
      PrefetchRemembers(e, l, ena, b, nr, time);
      LeaveHighRemembers(e, l, ena, b, nr, time);
      LeaveLowRemembers(e, l, ena, b, nr, time);
    }
  }

  lemma RestartDone(e: Env, c: Channel, nr: int, time: int, perfin: bool)
    requires 0 <= nr < |e.lines| && e.soundOn && KnownState(c.state) && ForcedRestart(e, Enabled(e, nr), c)
    ensures var (d, done, _) := StateChannel2(e, c, nr, time, perfin); done && d.dma.datWritten == c.dma.datWritten
  {
    hide DmaOffCheck, Idle;
    var l := e.lines[nr];
    RestartCuts(e, l, c, time);
    IdleRemembers(e, l, true, DmaOffCheck(e, l, true, c, time), nr, time);
  }

  lemma RestartCuts(e: Env, l: Line, c: Channel, time: int)
    requires KnownState(c.state) && ForcedRestart(e, true, c)
    ensures var b := DmaOffCheck(e, l, true, c, time); b.state == 0 && b.dma.datWritten == c.dma.datWritten
  {
    hide CutShort;
    var was := c.(dma := c.dma.(enaStore := true));
    CutShortIs(e, l, was, time);
    EntryKeepsFlags(e, l, true, was, time);
  }

  /** So a new word's flag is up after a call through the wrapper only if it was up before and the call was that one. */
  lemma WordFlagAfter(e: Env, ch: seq<Channel>, time: int, nr: nat, perfin: bool)
    requires nr < |ch| <= |e.lines| && KnownState(ch[nr].state) && !ch[nr].pbufldl
    ensures Serve(e, ch, time, nr, perfin)[nr].dma.datWritten <==>
            && ch[nr].dma.datWritten && e.soundOn && ch[nr].state == 0x13 && perfin
            && !ForcedRestart(e, Enabled(e, nr), ch[nr])
  {
    hide StateChannel2;
    DoneExactlyWhen(e, ch[nr], nr, time, perfin);
  }
}

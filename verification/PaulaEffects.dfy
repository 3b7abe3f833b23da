/** What a call of the Paula state machine does beside playing (src/core/audio.cpp, audio_state_channel2), for
    channels attached or not: exactly when it raises an interrupt, asks for DMA, steps the length counter and
    modulates the next channel. */
module PaulaEffects {
  import opened PaulaChannel
  import opened PaulaEngine
  import opened PaulaRegisters
  import opened PaulaPlayback
  import opened PaulaClaims
  import opened PaulaRuns
  import Blep

  /** A word is waiting, DMA is off and no interrupt is pending: an idle channel starts by hand. */
  predicate StartsByHand(e: Env, c: Channel, nr: int)
    requires 0 <= nr < |e.lines|
  {
    c.state == 0 && !Enabled(e, nr) && c.dma.datWritten && !e.lines[nr].irq
  }

  /** A word that the channel was waiting for has come by DMA. */
  predicate WordCame(e: Env, c: Channel, nr: int, state: int)
    requires 0 <= nr < |e.lines|
  {
    c.state == state && Enabled(e, nr) && c.dma.datWritten
  }

  /** The end of a word stops a channel without DMA while an interrupt is, or was, pending. */
  predicate StopsHere(e: Env, c: Channel, nr: int)
    requires 0 <= nr < |e.lines|
  {
    !Enabled(e, nr) && (c.dma.irqcheck > 0 || (c.dma.irqcheck == 0 && e.lines[nr].irq))
  }

  /** Not attached, or attached for volume. */
  predicate LoadsOwn(e: Env, nr: int)
    requires 0 <= nr < |e.lines|
  {
    e.lines[nr].attachVolume || !e.lines[nr].attachPeriod
  }

  predicate RaisesInterrupt(e: Env, c: Channel, nr: int, perfin: bool)
    requires 0 <= nr < |e.lines|
  {
    || StartsByHand(e, c, nr)
    || WordCame(e, c, nr, 1)
    || (c.state == 2 && perfin && e.lines[nr].attachPeriod && (Enabled(e, nr) ==> c.dma.intreq2))
    || (c.state == 3 && perfin && LoadsOwn(e, nr) && (Enabled(e, nr) ==> c.dma.intreq2))
  }

  predicate AsksForWord(e: Env, c: Channel, nr: int, perfin: bool)
    requires 0 <= nr < |e.lines|
  {
    || WordCame(e, c, nr, 1)
    || (WordCame(e, c, nr, 5) && LoadsOwn(e, nr))
    || (c.state == 2 && perfin && Enabled(e, nr) && e.lines[nr].attachPeriod)
    || (c.state == 3 && perfin && Enabled(e, nr) && LoadsOwn(e, nr))
  }

  /** The state machine called on a channel that forces no restart. */
  lemma CheckedIs(e: Env, l: Line, ena: bool, c: Channel, time: int)
    requires KnownState(c.state) && !ForcedRestart(e, ena, c)
    ensures var b := DmaOffCheck(e, l, ena, c, time);
            && b.state == c.state && b.pbufldl == c.pbufldl && b.per == c.per && b.log == c.log && b.evtime == c.evtime
            && b.dma.(enaStore := c.dma.enaStore, offActive := c.dma.offActive, offCount := c.dma.offCount) == c.dma
  {
    hide CutShort;
  }

  /* ---------- Interrupts ---------- */

  lemma EntryRaisesNothing(e: Env, l: Line, ena: bool, c: Channel, time: int)
    ensures EnterHigh(l, c, time).log.irqs == c.log.irqs && EnterLow(e, l, ena, c, time).log.irqs == c.log.irqs
    ensures LastUnit(l, ena, c).log.irqs == c.log.irqs
    ensures !c.pbufldl ==> EnterHigh(l, c, time) == c && EnterLow(e, l, ena, c, time) == c
  {
  }

  function WithIrq(irqs: seq<int>, raised: bool, time: int): seq<int> {
    if raised then irqs + [time] else irqs
  }

  lemma HighDoneRaises(e: Env, l: Line, ena: bool, c: Channel, nr: int, time: int)
    ensures HighDone(e, l, ena, c, nr, time).0.log.irqs ==
            WithIrq(c.log.irqs, l.attachPeriod && (ena ==> c.dma.intreq2), time)
  {
    hide SetDr, LoadDat;
  }

  lemma LowDoneRaises(e: Env, l: Line, ena: bool, c: Channel, nr: int, time: int)
    ensures LeaveLow(e, l, ena, c, nr, time).0.log.irqs ==
            WithIrq(c.log.irqs, (l.attachVolume || !l.attachPeriod) && (ena ==> c.dma.intreq2), time)
  {
    hide SetDr, LoadDat, EnterHigh;
    var d := if ena then c else ManualDone(l, c, time);
    EntryRaisesNothing(e, l, ena, NextWord(e, l, ena, d, nr, time).0, time);
  }

  /** A restart leads to state 1 at once. */
  lemma ForcedIs(e: Env, c: Channel, nr: int, time: int, perfin: bool)
    requires 0 <= nr < |e.lines| && e.soundOn && KnownState(c.state) && ForcedRestart(e, Enabled(e, nr), c)
    ensures var (d, _, m) := StateChannel2(e, c, nr, time, perfin);
            && m.NoModulation? && d.state == 1 && d.log.irqs == c.log.irqs && d.log.dsrEvents == c.log.dsrEvents
            && d.dma.dr && d.dma.dsr && d.dma.wlen == c.dma.len && d.evtime == MAX_EV
            && d.dma.irqcheck == 0 && !d.dma.offActive && d.dma.minperloop == 0 && !d.dma.intreq2
  {
    hide NewSample;
    CutShortIs(e, e.lines[nr], c.(dma := c.dma.(enaStore := true)), time);
  }

  lemma CutShortIs(e: Env, l: Line, c: Channel, time: int)
    ensures var d := CutShort(e, l, c, time);
            && d.state == 0 && d.evtime == MAX_EV && d.log.irqs == c.log.irqs && d.log.dsrEvents == c.log.dsrEvents
            && d.dma == c.dma.(irqcheck := 0, enaStore := false, offActive := false, minperloop := 0, intreq2 := false)
  {
  }

  /** For every state and every setting of the registers: a call raises one interrupt or none, exactly when. */
  lemma InterruptsExactlyWhen(e: Env, c: Channel, nr: int, time: int, perfin: bool)
    requires 0 <= nr < |e.lines| && e.soundOn && KnownState(c.state) && !c.pbufldl
    ensures StateChannel2(e, c, nr, time, perfin).0.log.irqs ==
            if RaisesInterrupt(e, c, nr, perfin) && !ForcedRestart(e, Enabled(e, nr), c) then c.log.irqs + [time]
            else c.log.irqs
  {
    hide DmaOffCheck, EnterHigh, EnterLow, LeaveHigh, LeaveLow, LastUnit, CutShort, SetDr, LoadDat;
    var l, ena := e.lines[nr], Enabled(e, nr);
    if ForcedRestart(e, ena, c) {
      ForcedIs(e, c, nr, time, perfin);
    } else {
      var b := DmaOffCheck(e, l, ena, c, time);
      CheckedIs(e, l, ena, c, time);
      EntryRaisesNothing(e, l, ena, b, time);
      var d := LoadDat(l, SetIrq(b.(state := 2), time), nr, false, true).0;
      CutShortIs(e, l, d, time);
      EntryRaisesNothing(e, l, ena, d.(pbufldl := true), time);
      EntryRaisesNothing(e, l, ena, FirstWord(e, l, b, nr, time).0, time);
      HighDoneRaises(e, l, ena, b, nr, time);
      EntryRaisesNothing(e, l, ena, HighDone(e, l, ena, b, nr, time).0, time);
      LeaveHighIs(e, l, ena, b, nr, time);
      LowDoneRaises(e, l, ena, b, nr, time);
    }
  }

  lemma LeaveHighIs(e: Env, l: Line, ena: bool, c: Channel, nr: int, time: int)
    ensures var (d, m) := HighDone(e, l, ena, c, nr, time);
            LeaveHigh(e, l, ena, c, nr, time) == (EnterLow(e, l, ena, d, time), m)
  {
    hide HighDone, EnterLow;
  }

  /* ---------- Requests and the length counter ---------- */

  /** What is asked of DMA: a word, the start of the sample (at once, or through the event queue), and the words
      left before that. */
  datatype Requests = Requests(dr: bool, dsr: bool, events: seq<int>, wlen: int)

  function Of(c: Channel): Requests {
    Requests(c.dma.dr, c.dma.dsr, c.log.dsrEvents, c.dma.wlen)
  }

  /** The next word is asked for; with one word left, the start of the sample. */
  function Asked(e: Env, c: Channel, time: int): Requests {
    var r := Of(c);
    if r.wlen != 1 then r.(dr := true)
    else if !e.jit && (c.per < 124 * CYCLE_UNIT || e.compatible) then r.(events := r.events + [time])
    else r.(dsr := true)
  }

  lemma SetDrAsks(e: Env, c: Channel, time: int)
    requires e.dmaMaster
    ensures Of(SetDr(e, c, false, time)) == Asked(e, c, time)
    ensures Of(SetDr(e, c, true, time)) == Of(c).(dr := true)
  {
  }

  lemma EntryKeeps(e: Env, l: Line, ena: bool, c: Channel, time: int)
    ensures Of(EnterHigh(l, c, time)) == Of(EnterLow(e, l, ena, c, time)) == Of(c) == Of(LastUnit(l, ena, c))
    ensures !c.pbufldl ==> EnterHigh(l, c, time) == c && EnterLow(e, l, ena, c, time) == c
  {
  }

  lemma LoadKeeps(l: Line, c: Channel, nr: int, modper: bool, first: bool)
    ensures Of(LoadDat(l, c, nr, modper, first).0) == Of(c)
  {
  }

  lemma IrqKeeps(l: Line, c: Channel, time: int)
    ensures Of(Reloaded(c, time)) == Of(LateCheck(l, c)) == Of(SetIrq(c, time)) == Of(c) == Of(ManualDone(l, c, time))
  {
  }

  lemma FirstWordAsks(e: Env, l: Line, c: Channel, nr: int, time: int)
    requires e.dmaMaster
    ensures Of(FirstWord(e, l, c, nr, time).0) == if Napnav(l) then Asked(e, c, time) else Of(c)
  {
    hide SetDr, LoadDat;
    LoadKeeps(l, c, nr, false, true);
    SetDrAsks(e, LoadDat(l, c, nr, false, true).0, time);
  }

  lemma HighDoneAsks(e: Env, l: Line, ena: bool, c: Channel, nr: int, time: int)
    requires ena ==> e.dmaMaster
    ensures Of(HighDone(e, l, ena, c, nr, time).0) == if ena && l.attachPeriod then Asked(e, c, time) else Of(c)
  {
    hide SetDr, LoadDat, Reloaded, SetIrq;
    var d := LoadDat(l, c, nr, true, false).0;
    LoadKeeps(l, c, nr, true, false);
    IrqKeeps(l, d, time);
    IrqKeeps(l, SetDr(e, d, false, time), time);
    if ena { SetDrAsks(e, d, time); }
  }

  lemma NextWordAsks(e: Env, l: Line, ena: bool, c: Channel, nr: int, time: int)
    requires ena ==> e.dmaMaster
    ensures Of(NextWord(e, l, ena, c, nr, time).0) == if ena && Napnav(l) then Asked(e, c, time) else Of(c)
  {
    hide SetDr, LoadDat, Reloaded, SetIrq;
    var d := LoadDat(l, c, nr, false, false).0;
    LoadKeeps(l, c, nr, false, false);
    IrqKeeps(l, SetDr(e, d, false, time), time);
    if ena { SetDrAsks(e, d, time); }
  }

  lemma LowDoneAsks(e: Env, l: Line, ena: bool, c: Channel, nr: int, time: int)
    requires ena ==> e.dmaMaster
    ensures Of(LeaveLow(e, l, ena, c, nr, time).0) == if ena && Napnav(l) then Asked(e, c, time) else Of(c)
  {
    hide NextWord, EnterHigh, ManualDone;
    var d := if ena then c else ManualDone(l, c, time);
    IrqKeeps(l, c, time);
    NextWordAsks(e, l, ena, d, nr, time);
    EntryKeeps(e, l, ena, NextWord(e, l, ena, d, nr, time).0, time);
    ZeroKeeps(e, d);
  }

  lemma ZeroKeeps(e: Env, c: Channel)
    ensures Of(ZeroState(e, c, false)) == Of(c)
  {
  }

  lemma IdleAsks(e: Env, l: Line, ena: bool, c: Channel, nr: int, time: int)
    requires ena ==> e.dmaMaster
    ensures Of(Idle(e, l, ena, c, nr, time).0) ==
            if ena then Requests(true, true, c.log.dsrEvents, c.dma.len) else Of(c)
  {
    hide SetDr, LoadDat, CutShort, EnterHigh, SetIrq, ZeroState;
    if ena {
      SetDrAsks(e, c.(evtime := MAX_EV, state := 1), time);
      assert SetDr(e, c.(evtime := MAX_EV, state := 1), true, time).dma.len == c.dma.len;
    } else {
      var b := SetIrq(c.(state := 2), time);
      IrqKeeps(l, c.(state := 2), time);
      LoadKeeps(l, b, nr, false, true);
      var d := LoadDat(l, b, nr, false, true).0;
      CutKeeps(e, l, d, time);
      EntryKeeps(e, l, ena, d.(pbufldl := true), time);
      ZeroKeeps(e, c);
    }
  }

  lemma CutKeeps(e: Env, l: Line, c: Channel, time: int)
    ensures Of(CutShort(e, l, c, time)) == Of(c)
  {
  }

  lemma StartAsks(e: Env, ena: bool, c: Channel, time: int)
    requires ena ==> e.dmaMaster
    ensures Of(Start(e, ena, c, time)) ==
            if ena && c.dma.datWritten then
              Asked(e, c, time).(wlen := if c.dma.wlen != 1 then (c.dma.wlen - 1) % 0x10000 else 1)
            else Of(c)
  {
    hide SetDr;
    if ena { SetDrAsks(e, SetIrq(c.(evtime := MAX_EV), time), time); }
  }

  /** For every state: what a call asks of DMA, and how it steps the length counter. */
  lemma RequestsExactlyWhen(e: Env, c: Channel, nr: int, time: int, perfin: bool)
    requires 0 <= nr < |e.lines| && e.soundOn && KnownState(c.state) && !c.pbufldl
    ensures Of(StateChannel2(e, c, nr, time, perfin).0) ==
            if ForcedRestart(e, Enabled(e, nr), c) || (c.state == 0 && Enabled(e, nr)) then
              Requests(true, true, c.log.dsrEvents, c.dma.len)
            else if WordCame(e, c, nr, 1) then
              Asked(e, c, time).(wlen := if c.dma.wlen != 1 then (c.dma.wlen - 1) % 0x10000 else 1)
            else if AsksForWord(e, c, nr, perfin) then Asked(e, c, time)
            else Of(c)
  {
    hide DmaOffCheck, Idle, Start, Prefetch, EnterHigh, EnterLow, LeaveHigh, LeaveLow, LastUnit, Asked;
    var l, ena := e.lines[nr], Enabled(e, nr);
    if ForcedRestart(e, ena, c) {
      ForcedIs(e, c, nr, time, perfin);
    } else {
      var b := DmaOffCheck(e, l, ena, c, time);
      CheckedIs(e, l, ena, c, time);
      AskedAlike(e, c, b, time);
      EntryKeeps(e, l, ena, b, time);
      if c.state == 0 {
        IdleAsks(e, l, ena, b, nr, time);
      } else if c.state == 1 {
        StartAsks(e, ena, b, time);
      } else if c.state == 5 {
        PrefetchAsks(e, l, ena, b, nr, time);
      } else if c.state == 2 {
        HighDoneAsks(e, l, ena, b, nr, time);
        LeaveHighIs(e, l, ena, b, nr, time);
        EntryKeeps(e, l, ena, HighDone(e, l, ena, b, nr, time).0, time);
      } else if c.state == 3 {
        LowDoneAsks(e, l, ena, b, nr, time);
      }
    }
  }

  lemma PrefetchAsks(e: Env, l: Line, ena: bool, c: Channel, nr: int, time: int)
    requires ena ==> e.dmaMaster
    ensures Of(Prefetch(e, l, ena, c, nr, time).0) ==
            if ena && c.dma.datWritten && Napnav(l) then Asked(e, c, time) else Of(c)
  {
    hide FirstWord, EnterHigh, ZeroState;
    if ena { FirstWordAsks(e, l, c, nr, time); }
    EntryKeeps(e, l, ena, FirstWord(e, l, c, nr, time).0, time);
    ZeroKeeps(e, c.(evtime := MAX_EV));
  }

  lemma AskedAlike(e: Env, c: Channel, d: Channel, time: int)
    requires Of(c) == Of(d) && c.per == d.per
    ensures Asked(e, c, time) == Asked(e, d, time)
  {
  }

  /* ---------- Modulation ---------- */

  /** What a call does to the next channel. */
  function NextChange(e: Env, c: Channel, nr: int, perfin: bool): Modulation
    requires 0 <= nr < |e.lines|
  {
    var l := e.lines[nr];
    if nr >= 3 || ForcedRestart(e, Enabled(e, nr), c) then NoModulation
    else if c.state == 2 && perfin && l.attachPeriod then
      Period(if c.dma.dat == 0 then 65536 * 512 else c.dma.dat * 512)
    else if l.attachVolume &&
            (|| StartsByHand(e, c, nr) || WordCame(e, c, nr, 5)
             || (c.state == 3 && perfin && !StopsHere(e, c, nr))) then
      Volume(if c.dma.dat % 128 < 64 then c.dma.dat % 128 else 64)
    else NoModulation
  }

  lemma LoadModulates(l: Line, c: Channel, nr: int, modper: bool, first: bool)
    requires 0 <= c.dma.dat < 0x10000
    ensures LoadDat(l, c, nr, modper, first).1 ==
            if nr >= 3 then NoModulation
            else if modper && l.attachPeriod then Period(if c.dma.dat == 0 then 65536 * 512 else c.dma.dat * 512)
            else if l.attachVolume then Volume(if c.dma.dat % 128 < 64 then c.dma.dat % 128 else 64)
            else NoModulation
  {
  }

  lemma IdleModulates(e: Env, l: Line, ena: bool, c: Channel, nr: int, time: int)
    requires 0 <= c.dma.dat < 0x10000
    ensures Idle(e, l, ena, c, nr, time).1 ==
            if !ena && c.dma.datWritten && !l.irq then LoadDat(l, c, nr, false, true).1 else NoModulation
  {
    hide EnterHigh, LoadDat, CutShort, SetDr, ZeroState;
    LoadModulates(l, c, nr, false, true);
    LoadModulates(l, SetIrq(c.(state := 2), time), nr, false, true);
  }

  lemma PrefetchModulates(e: Env, l: Line, ena: bool, c: Channel, nr: int, time: int)
    ensures Prefetch(e, l, ena, c, nr, time).1 ==
            if ena && c.dma.datWritten then LoadDat(l, c, nr, false, true).1 else NoModulation
  {
    hide EnterHigh, LoadDat, SetDr, ZeroState;
  }

  lemma LeaveHighModulates(e: Env, l: Line, ena: bool, c: Channel, nr: int, time: int)
    ensures LeaveHigh(e, l, ena, c, nr, time).1 ==
            if l.attachPeriod then LoadDat(l, c, nr, true, false).1 else NoModulation
  {
    hide EnterLow, LoadDat, SetDr, Reloaded;
  }

  lemma LeaveLowModulates(e: Env, l: Line, ena: bool, c: Channel, nr: int, time: int)
    requires 0 <= c.dma.dat < 0x10000
    ensures LeaveLow(e, l, ena, c, nr, time).1 ==
            if !ena && (c.dma.irqcheck > 0 || (c.dma.irqcheck == 0 && l.irq)) then NoModulation
            else LoadDat(l, c, nr, false, false).1
  {
    hide EnterHigh, LoadDat, SetDr, Reloaded, ZeroState;
    LoadModulates(l, c, nr, false, false);
    LoadModulates(l, ManualDone(l, c, time), nr, false, false);
  }

  /** For every state and attachment: the next channel's period becomes the word at the end of a high byte, its
      volume the word where one is loaded, and nothing else is modulated. */
  lemma ModulatesExactlyWhen(e: Env, c: Channel, nr: int, time: int, perfin: bool)
    requires 0 <= nr < |e.lines| && e.soundOn && KnownState(c.state) && !c.pbufldl && 0 <= c.dma.dat < 0x10000
    ensures StateChannel2(e, c, nr, time, perfin).2 == NextChange(e, c, nr, perfin)
  {
    hide DmaOffCheck, Idle, Start, Prefetch, LeaveHigh, LeaveLow, EnterHigh, EnterLow, LoadDat, LastUnit;
    var l, ena := e.lines[nr], Enabled(e, nr);
    if ForcedRestart(e, ena, c) {
      ForcedIs(e, c, nr, time, perfin);
    } else {
      var b := DmaOffCheck(e, l, ena, c, time);
      CheckedIs(e, l, ena, c, time);
      EntryKeeps(e, l, ena, b, time);
      if c.state == 0 {
        IdleModulates(e, l, ena, b, nr, time);
        LoadModulates(l, b, nr, false, true);
      } else if c.state == 5 {
        PrefetchModulates(e, l, ena, b, nr, time);
        LoadModulates(l, b, nr, false, true);
      } else if c.state == 2 {
        LeaveHighModulates(e, l, ena, b, nr, time);
        LoadModulates(l, b, nr, true, false);
      } else if c.state == 3 {
        LeaveLowModulates(e, l, ena, b, nr, time);
        LoadModulates(l, b, nr, false, false);
      }
    }
  }

  /** And that is what the next channel gets: its period or its volume register, nothing else. */
  lemma NextIsModulated(e: Env, ch: seq<Channel>, time: int, nr: nat, perfin: bool)
    requires nr + 1 < |ch| <= |e.lines| && e.soundOn && KnownState(ch[nr].state) && !ch[nr].pbufldl
    requires 0 <= ch[nr].dma.dat < 0x10000
    ensures var c, d, m := ch[nr + 1], Serve(e, ch, time, nr, perfin)[nr + 1], NextChange(e, ch[nr], nr, perfin);
            && d.(per := c.per, data := c.data) == c && d.data.(audvol := c.data.audvol) == c.data
            && d.per == (if m.Period? then m.per else c.per)
            && d.data.audvol == (if m.Volume? then m.vol else c.data.audvol)
  {
    hide StateChannel2, NextChange;
    ModulatesExactlyWhen(e, ch[nr], nr, time, perfin);
  }

  /* ---------- Going idle ---------- */

  /** An idle channel waits for nothing and has forgotten all pending checks; `flag` is what is left of a reload's
      flag. */
  predicate Forgotten(c: Channel, flag: bool) {
    c.state == 0 ==>
      && c.evtime == MAX_EV && c.dma.irqcheck == 0 && !c.dma.enaStore && !c.dma.offActive
      && c.dma.minperloop == 0 && c.dma.intreq2 == flag
  }

  lemma ZeroForgets(e: Env, c: Channel)
    ensures Forgotten(ZeroState(e, c, false), e.cycleExact && c.dma.intreq2)
    ensures Forgotten(ZeroState(e, c, true), false)
  {
  }

  lemma EntryStays(e: Env, l: Line, ena: bool, c: Channel, time: int)
    ensures c.state == 2 ==> EnterHigh(l, c, time).state == 2
    ensures c.state == 3 ==> EnterLow(e, l, ena, c, time).state != 0
    ensures !c.pbufldl ==> EnterHigh(l, c, time) == c && EnterLow(e, l, ena, c, time) == c
    ensures LastUnit(l, ena, c).state == 3
  {
  }

  lemma IdleStays(e: Env, l: Line, ena: bool, c: Channel, nr: int, time: int)
    ensures Forgotten(Idle(e, l, ena, c, nr, time).0,
                      e.cycleExact && c.dma.intreq2 && !ShortStartRefused(e, l, ena, c.(state := 0)))
  {
    hide EnterHigh, LoadDat, CutShort, SetDr, ZeroState;
    ZeroForgets(e, c);
    var d := LoadDat(l, SetIrq(c.(state := 2), time), nr, false, true).0;
    CutShortIs(e, l, d, time);
    EntryStays(e, l, ena, d.(pbufldl := true), time);
  }

  lemma StartStays(e: Env, ena: bool, c: Channel, time: int)
    requires c.state == 1
    ensures Forgotten(Start(e, ena, c, time), e.cycleExact && c.dma.intreq2)
  {
    hide SetDr, ZeroState, SetIrq;
    ZeroForgets(e, c.(evtime := MAX_EV));
  }

  lemma PrefetchStays(e: Env, l: Line, ena: bool, c: Channel, nr: int, time: int)
    requires c.state == 5
    ensures Forgotten(Prefetch(e, l, ena, c, nr, time).0, e.cycleExact && c.dma.intreq2)
  {
    hide EnterHigh, LoadDat, SetDr, ZeroState;
    ZeroForgets(e, c.(evtime := MAX_EV));
    EntryStays(e, l, ena, FirstWord(e, l, c, nr, time).0, time);
  }

  lemma LeaveHighStays(e: Env, l: Line, ena: bool, c: Channel, nr: int, time: int)
    ensures LeaveHigh(e, l, ena, c, nr, time).0.state != 0
  {
    hide EnterLow, LoadDat, SetDr, Reloaded;
    EntryStays(e, l, ena, HighDone(e, l, ena, c, nr, time).0, time);
  }

  lemma LeaveLowStays(e: Env, l: Line, ena: bool, c: Channel, nr: int, time: int)
    ensures Forgotten(LeaveLow(e, l, ena, c, nr, time).0, e.cycleExact && c.dma.intreq2)
  {
    hide EnterHigh, LoadDat, SetDr, Reloaded, ZeroState;
    var d := if ena then c else ManualDone(l, c, time);
    assert d.dma.intreq2 == c.dma.intreq2;
    ZeroForgets(e, d);
    EntryStays(e, l, ena, NextWord(e, l, ena, d, nr, time).0, time);
  }

  /** A channel that a call leaves idle waits for nothing and has forgotten all pending checks; the flag of a
      reload survives only on a cycle-exact CPU, with sound on, where no hack cut the word short. */
  lemma IdleForgets(e: Env, c: Channel, nr: int, time: int, perfin: bool)
    requires 0 <= nr < |e.lines| && KnownState(c.state) && !c.pbufldl
    ensures var d := StateChannel2(e, c, nr, time, perfin).0;
            d.state == 0 ==>
              && d.evtime == MAX_EV && d.dma.irqcheck == 0 && !d.dma.enaStore && !d.dma.offActive
              && d.dma.minperloop == 0
              && d.dma.intreq2 == (e.soundOn && e.cycleExact && c.dma.intreq2 && !HackTaken(e, c, nr))
  {
    hide DmaOffCheck, EnterHigh, EnterLow, Idle, Start, Prefetch, LeaveHigh, LeaveLow, LastUnit, ZeroState;
    var l, ena := e.lines[nr], Enabled(e, nr);
    if !e.soundOn {
      ZeroForgets(e, c.(dma := c.dma.(enaStore := ena)));
    } else if ForcedRestart(e, ena, c) {
      ForcedIs(e, c, nr, time, perfin);
    } else {
      var b := DmaOffCheck(e, l, ena, c, time);
      CheckedIs(e, l, ena, c, time);
      EntryStays(e, l, ena, b, time);
      if c.state == 0 {
        IdleStays(e, l, ena, b, nr, time);
        assert ShortStartRefused(e, l, ena, b.(state := 0)) == ShortStartRefused(e, l, ena, c);
      } else if c.state == 1 {
        StartStays(e, ena, b, time);
      } else if c.state == 5 {
        PrefetchStays(e, l, ena, b, nr, time);
      } else if c.state == 2 {
        LeaveHighStays(e, l, ena, b, nr, time);
      } else if c.state == 3 {
        LeaveLowStays(e, l, ena, b, nr, time);
      }
    }
  }
}

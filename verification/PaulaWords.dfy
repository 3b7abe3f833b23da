/** The words that a Paula channel plays (src/core/audio.cpp): exactly when one is loaded, and that it is the one
    last written or fetched, over whole runs and for channels attached or not. */
module PaulaWords {
  import opened PaulaChannel
  import opened PaulaEngine
  import opened PaulaRegisters
  import opened PaulaPlayback
  import opened PaulaClaims
  import opened PaulaRuns
  import opened PaulaFeeds
  import opened PaulaEffects

  /* ---------- Loading ---------- */

  /** The words loaded so far, AUDxDAT, the word being played, and AUDxLEN. */
  datatype Words = Words(loaded: seq<Load>, dat: int, dat2: int, len: int)

  function Of(c: Channel): Words {
    Words(c.log.words, c.dma.dat, c.dma.dat2, c.dma.len)
  }

  /** The channel plays AUDxDAT next. */
  function Moved(c: Channel, first: bool): Words {
    Words(c.log.words + [Load(c.dma.dat, first)], c.dma.dat, c.dma.dat, c.dma.len)
  }

  /** A call loads a word: at a start by hand, when the first word has come by DMA, or where the word before it ends;
      while the channel modulates the next one's volume nothing is loaded. */
  predicate Loads(e: Env, c: Channel, nr: int, perfin: bool)
    requires 0 <= nr < |e.lines|
  {
    && !ForcedRestart(e, Enabled(e, nr), c) && !e.lines[nr].attachVolume
    && (|| StartsByHand(e, c, nr) || WordCame(e, c, nr, 5) || (c.state == 3 && perfin && !StopsHere(e, c, nr)))
  }

  lemma OthersLoadNothing(e: Env, l: Line, c: Channel, startup: bool, time: int)
    ensures Of(SetDr(e, c, startup, time)) == Of(c) == Of(SetIrq(c, time)) == Of(Reloaded(c, time))
    ensures Of(ManualDone(l, c, time)) == Of(c) == Of(ZeroState(e, c, false)) == Of(ZeroState(e, c, true))
  {
  }

  lemma LoadMoves(l: Line, c: Channel, nr: int, modper: bool, first: bool)
    ensures Of(LoadDat(l, c, nr, modper, first).0) ==
            if l.attachVolume || (modper && l.attachPeriod) then Of(c) else Moved(c, first)
  {
  }

  lemma EntryLoadsNothing(e: Env, l: Line, ena: bool, c: Channel, time: int)
    ensures Of(EnterHigh(l, c, time)) == Of(c) == Of(EnterLow(e, l, ena, c, time)) == Of(LastUnit(l, ena, c))
    ensures Of(CutShort(e, l, c, time)) == Of(c)
    ensures !c.pbufldl ==> EnterHigh(l, c, time) == c && EnterLow(e, l, ena, c, time) == c
  {
    hide S8;
  }

  lemma CheckLoadsNothing(e: Env, l: Line, ena: bool, c: Channel, time: int)
    ensures Of(DmaOffCheck(e, l, ena, c, time)) == Of(c)
  {
    hide CutShort;
    EntryLoadsNothing(e, l, ena, c.(dma := c.dma.(enaStore := ena)), time);
  }

  lemma IdleLoads(e: Env, l: Line, ena: bool, c: Channel, nr: int, time: int)
    ensures Of(Idle(e, l, ena, c, nr, time).0) ==
            if !ena && c.dma.datWritten && !l.irq && !l.attachVolume then Moved(c, true) else Of(c)
  {
    hide SetDr, LoadDat, SetIrq, CutShort, EnterHigh, ZeroState;
    OthersLoadNothing(e, l, c.(evtime := MAX_EV, state := 1), true, time);
    OthersLoadNothing(e, l, c.(state := 2), true, time);
    OthersLoadNothing(e, l, c, true, time);
    LoadMoves(l, SetIrq(c.(state := 2), time), nr, false, true);
    var d := LoadDat(l, SetIrq(c.(state := 2), time), nr, false, true).0;
    EntryLoadsNothing(e, l, ena, d, time);
    EntryLoadsNothing(e, l, ena, d.(pbufldl := true), time);
  }

  lemma StartLoads(e: Env, l: Line, ena: bool, c: Channel, time: int)
    ensures Of(Start(e, ena, c, time)) == Of(c)
  {
    hide SetDr, SetIrq, ZeroState;
    OthersLoadNothing(e, l, c.(evtime := MAX_EV), false, time);
    OthersLoadNothing(e, l, SetIrq(c.(evtime := MAX_EV), time), false, time);
  }

  lemma PrefetchLoads(e: Env, l: Line, ena: bool, c: Channel, nr: int, time: int)
    ensures Of(Prefetch(e, l, ena, c, nr, time).0) ==
            if ena && c.dma.datWritten && !l.attachVolume then Moved(c, true) else Of(c)
  {
    hide SetDr, LoadDat, EnterHigh, ZeroState;
    OthersLoadNothing(e, l, c.(evtime := MAX_EV), false, time);
    LoadMoves(l, c, nr, false, true);
    OthersLoadNothing(e, l, LoadDat(l, c, nr, false, true).0, false, time);
    EntryLoadsNothing(e, l, ena, FirstWord(e, l, c, nr, time).0, time);
  }

  lemma LeaveHighLoads(e: Env, l: Line, ena: bool, c: Channel, nr: int, time: int)
    ensures Of(LeaveHigh(e, l, ena, c, nr, time).0) == Of(c)
  {
    hide SetDr, SetIrq, LoadDat, EnterLow, Reloaded;
    LoadMoves(l, c, nr, true, false);
    var d := LoadDat(l, c, nr, true, false).0;
    OthersLoadNothing(e, l, d, false, time);
    OthersLoadNothing(e, l, SetDr(e, d, false, time), false, time);
    EntryLoadsNothing(e, l, ena, HighDone(e, l, ena, c, nr, time).0, time);
  }

  lemma LeaveLowLoads(e: Env, l: Line, ena: bool, c: Channel, nr: int, time: int)
    ensures Of(LeaveLow(e, l, ena, c, nr, time).0) ==
            if l.attachVolume || (!ena && (c.dma.irqcheck > 0 || (c.dma.irqcheck == 0 && l.irq))) then Of(c)
            else Moved(c, false)
  {
    hide SetDr, SetIrq, LoadDat, EnterHigh, Reloaded, ZeroState;
    OthersLoadNothing(e, l, c, false, time);
    var d := if ena then c else ManualDone(l, c, time);
    OthersLoadNothing(e, l, d, false, time);
    LoadMoves(l, d, nr, false, false);
    var f := LoadDat(l, d, nr, false, false).0;
    OthersLoadNothing(e, l, f, false, time);
    OthersLoadNothing(e, l, SetDr(e, f, false, time), false, time);
    EntryLoadsNothing(e, l, ena, NextWord(e, l, ena, d, nr, time).0, time);
  }

  /** For every state and setting: a call loads AUDxDAT, once, or leaves all words alone, exactly when; AUDxDAT and
      AUDxLEN stay as they are. */
  lemma LoadsExactlyWhen(e: Env, c: Channel, nr: int, time: int, perfin: bool)
    requires 0 <= nr < |e.lines| && KnownState(c.state) && !c.pbufldl
    ensures Of(StateChannel2(e, c, nr, time, perfin).0) ==
            if e.soundOn && Loads(e, c, nr, perfin) then Moved(c, c.state != 3) else Of(c)
  {
    hide DmaOffCheck, EnterHigh, EnterLow, Idle, Start, Prefetch, LeaveHigh, LeaveLow, LastUnit, ZeroState;
    var l, ena := e.lines[nr], Enabled(e, nr);
    var b := DmaOffCheck(e, l, ena, c, time);
    CheckLoadsNothing(e, l, ena, c, time);
    OthersLoadNothing(e, l, c.(dma := c.dma.(enaStore := ena)), false, time);
    if !e.soundOn {
    } else if ForcedRestart(e, ena, c) {
      RestartIsIdle(e, l, c, time);
      IdleLoads(e, l, ena, b, nr, time);
    } else {
      CheckedIs(e, l, ena, c, time);
      EntryLoadsNothing(e, l, ena, b, time);
      if c.state == 0 {
        IdleLoads(e, l, ena, b, nr, time);
      } else if c.state == 1 {
        StartLoads(e, l, ena, b, time);
      } else if c.state == 5 {
        PrefetchLoads(e, l, ena, b, nr, time);
      } else if c.state == 2 {
        LeaveHighLoads(e, l, ena, b, nr, time);
      } else if c.state == 3 {
        LeaveLowLoads(e, l, ena, b, nr, time);
      }
    }
  }

  lemma RestartIsIdle(e: Env, l: Line, c: Channel, time: int)
    requires KnownState(c.state) && ForcedRestart(e, true, c)
    ensures DmaOffCheck(e, l, true, c, time).state == 0
  {
    hide CutShort;
    CutShortIs(e, l, c.(dma := c.dma.(enaStore := true)), time);
  }

  /* ---------- The registers over runs ---------- */

  /** AUDxDAT and AUDxLEN are the same. */
  predicate Kept(c: Channel, d: Channel) {
    d.dma.dat == c.dma.dat && d.dma.len == c.dma.len
  }

  lemma KnownChannel(c: Channel)
    requires Armed(c) || Due(c)
    ensures KnownState(c.state) && !c.pbufldl
  {
  }

  lemma ServeKeeps(e: Env, ch: seq<Channel>, time: int, j: nat, perfin: bool, nr: nat)
    requires j < |ch| <= |e.lines| && nr < |ch| && (Armed(ch[j]) || Due(ch[j]))
    ensures Kept(ch[nr], Serve(e, ch, time, j, perfin)[nr])
  {
    hide StateChannel2, Armed, Due, Loads;
    KnownChannel(ch[j]);
    LoadsExactlyWhen(e, ch[j], j, time, perfin);
  }

  lemma {:induction false} ServeDueKeeps(e: Env, ch: seq<Channel>, time: int, i: nat, nr: nat)
    requires ValidEnv(e) && |ch| == AUDIO_CHANNELS_PAULA && i <= |ch| && nr < |ch| && ServedUpTo(ch, i)
    ensures Kept(ch[nr], ServeDue(e, ch, time, i)[nr])
    decreases |ch| - i
  {
    hide Serve, Armed, Due;
    if i < |ch| {
      if ch[i].evtime == 0 {
        DueIsDue(ch[i]);
        ServeArms(e, ch, time, i);
        ServeKeeps(e, ch, time, i, true, nr);
      } else {
        NotDueIsArmed(ch[i]);
      }
      ServeDueKeeps(e, if ch[i].evtime == 0 then Serve(e, ch, time, i, true) else ch, time, i + 1, nr);
    }
  }

  lemma {:induction false} PollKeeps(e: Env, ch: seq<Channel>, time: int, i: nat, nr: nat)
    requires ValidEnv(e) && AllArmed(ch) && i <= |ch| && nr < |ch|
    ensures Kept(ch[nr], PollFrom(e, ch, time, i)[nr])
    decreases |ch| - i
  {
    hide Serve, Armed;
    if i < |ch| {
      ServeKeeps(e, ch, time, i, false, nr);
      PollArms(e, ch, time, i);
      PollKeeps(e, Serve(e, ch, time, i, false), time, i + 1, nr);
    }
  }

  lemma PassKeeps(e: Env, s: Engine, best: nat, nr: nat)
    requires Inv(e, s) && best >= 1 && NothingBefore(e, s, best) && nr < |s.ch|
    ensures |Pass(e, s, best).ch| == |s.ch| && Kept(s.ch[nr], Pass(e, s, best).ch[nr])
  {
    hide ServeDue, Armed;
    var w := Sampled(e, s, best);
    SampledAreServed(e, s, best);
    ServeDueKeeps(e, w.ch, w.time, 0, nr);
    assert Kept(s.ch[nr], w.ch[nr]) by { hide ServedUpTo; }
  }

  lemma {:induction false} RunKeepsWords(e: Env, s: Engine, n: int, nr: nat)
    requires Inv(e, s) && nr < |s.ch|
    ensures |Run(e, s, n).ch| == |s.ch| && Kept(s.ch[nr], Run(e, s, n).ch[nr])
    decreases n
  {
    hide Pass, NothingBefore, BestEvent;
    if n > 0 {
      var best := BestEvent(e, s, n);
      BestEventIs(e, s, n);
      PassKeepsInv(e, s, best);
      PassKeeps(e, s, best, nr);
      RunKeepsWords(e, Pass(e, s, best), n - best, nr);
    }
  }

  lemma UpdateKeeps(e: Env, s: Engine, now: int, nr: nat)
    requires Inv(e, s) && nr < AUDIO_CHANNELS_PAULA
    ensures |UpdateAudio(e, s, now).ch| == |s.ch| == AUDIO_CHANNELS_PAULA
    ensures Kept(s.ch[nr], UpdateAudio(e, s, now).ch[nr])
  {
    hide Run, Armed;
    if e.soundOn { RunKeepsWords(e, s, now - s.time, nr); }
  }

  /** The operation puts a word into AUDxDAT of channel `nr`: AUDxDAT itself while DMA is on, the delayed event for a
      channel that is not playing or for a word by hand. */
  predicate PutsWord(d: Device, op: Op, nr: nat)
    requires nr < |d.engine.ch| && nr < |d.env.lines|
  {
    || (op.WriteDat? && op.nr == nr && Enabled(d.env, nr))
    || (op.DataEvent? && op.nr == nr && !(Playing(d.engine.ch[nr]) && op.ena))
  }

  lemma HackKeepsWords(e: Env, l: Line, c: Channel)
    ensures Kept(c, LowPeriodHack(e, l, c))
  {
  }

  lemma EventKeeps(d: Device, op: Op, nr: nat)
    requires Valid(d) && op.DataEvent? && ValidOp(op) && nr < AUDIO_CHANNELS_PAULA
    ensures |Apply(d, op).engine.ch| == AUDIO_CHANNELS_PAULA
    ensures var c, f := d.engine.ch[nr], Apply(d, op).engine.ch[nr];
            f.dma.dat == (if PutsWord(d, op, nr) then op.value else c.dma.dat) && f.dma.len == c.dma.len
  {
    hide UpdateAudio, Serve, Armed, LowPeriodHack;
    ArmedOne(d, op.nr);
    KnownWhenArmed(d.engine.ch[op.nr]);
    AdvancedIs(d, op, nr);
    if Playing(d.engine.ch[op.nr]) {
      var c := d.engine.ch[op.nr];
      HackKeepsWords(d.env, d.env.lines[op.nr], c.(dma := WordFetched(c.dma, op.preset)));
    } else {
      var q := Advanced(d, op);
      UpdateKeeps(d.env, q, op.now, nr);
      var t := UpdateAudio(d.env, q, op.now);
      assert Armed(t.ch[op.nr]);
      ServeKeeps(d.env, t.ch, t.time, op.nr, false, nr);
    }
  }

  /** What every operation leaves in AUDxDAT and AUDxLEN. */
  lemma WordAfter(d: Device, op: Op, nr: nat)
    requires Valid(d) && ValidOp(op) && nr < AUDIO_CHANNELS_PAULA
    ensures |Apply(d, op).engine.ch| == AUDIO_CHANNELS_PAULA
    ensures var c, f := d.engine.ch[nr], Apply(d, op).engine.ch[nr];
            && f.dma.dat == (if PutsWord(d, op, nr) then op.value else c.dma.dat)
            && f.dma.len == (if op.WriteLen? && op.nr == nr then op.value else c.dma.len)
  {
    hide UpdateAudio, PollFrom, DataArrives, Armed, LowPeriodHack;
    if op.DataEvent? {
      EventKeeps(d, op, nr);
    } else if op.Vsync? {
      HackKeepsWords(d.env, d.env.lines[nr], d.engine.ch[nr]);
    } else if Updates(d, op) {
      UpdateKeeps(d.env, d.engine, Now(op), nr);
      var t := UpdateAudio(d.env, d.engine, Now(op));
      if op.StateMachine? { PollKeeps(d.env, t.ch, t.time, 0, nr); }
    }
  }

  /** Over any run: a channel's AUDxDAT is the word of the last operation that put one there. With LoadsExactlyWhen
      that is the word loaded next. */
  lemma {:induction false} WordIsLast(d: Device, ops: seq<Op>, nr: nat, v: int)
    requires Valid(d) && nr < AUDIO_CHANNELS_PAULA && forall i :: 0 <= i < |ops| ==> ValidOp(ops[i])
    requires d.engine.ch[nr].dma.dat == v && PutNone(d, ops, nr)
    ensures |ApplyAll(d, ops).engine.ch| == AUDIO_CHANNELS_PAULA
    ensures ApplyAll(d, ops).engine.ch[nr].dma.dat == v
    decreases |ops|
  {
    hide Apply, PutsWord, ValidOp, Armed;
    if ops != [] {
      WordAfter(d, ops[0], nr);
      ApplyKeepsValid(d, ops[0]);
      WordIsLast(Apply(d, ops[0]), ops[1..], nr, v);
    }
  }

  ghost predicate PutNone(d: Device, ops: seq<Op>, nr: nat)
    requires Valid(d) && nr < AUDIO_CHANNELS_PAULA && forall i :: 0 <= i < |ops| ==> ValidOp(ops[i])
    decreases |ops|
  {
    if ops == [] then true
    else
      && |d.env.lines| == AUDIO_CHANNELS_PAULA && !PutsWord(d, ops[0], nr)
      && (ApplyKeepsValid(d, ops[0]); PutNone(Apply(d, ops[0]), ops[1..], nr))
  }

  /* ---------- Requests ---------- */

  /** audio_dmal takes every request that stood, and event_setdsr makes one. */
  lemma RequestsTaken(d: Device, nr: nat)
    requires Valid(d) && nr < AUDIO_CHANNELS_PAULA
    ensures |Apply(d, Dmal).engine.ch| == |Apply(d, DsrEvent(nr)).engine.ch| == AUDIO_CHANNELS_PAULA
    ensures var c, f, g := d.engine.ch[nr], Apply(d, Dmal).engine.ch[nr], Apply(d, DsrEvent(nr)).engine.ch[nr];
            && !f.dma.dr && !f.dma.dsr && f.(dma := f.dma.(dr := c.dma.dr, dsr := c.dma.dsr)) == c
            && g.dma.dsr && g.(dma := g.dma.(dsr := c.dma.dsr)) == c
  {
  }
}

/** The DMA length counter of a playing Paula channel (src/core/audio.cpp): 16 bits, where a length
    register of 0 stands for 65536 words. */
module PaulaLoop {
  import opened Arith
  import opened PaulaChannel
  import opened PaulaEngine
  import opened PaulaRegisters
  import opened PaulaPlayback
  import opened PaulaClaims
  import opened PaulaRuns

  /** The counter after a row of DMA words; each word comes with the flag that says whether its
      reload has been announced early. */
  function Fetched(d: Dma, presets: seq<bool>): Dma {
    if presets == [] then d
    else WordFetched(Fetched(d, presets[..|presets| - 1]), presets[|presets| - 1])
  }

  /** How many of these words reloaded the counter. */
  function Reloads(d: Dma, presets: seq<bool>): nat {
    if presets == [] then 0
    else
      var before := Fetched(d, presets[..|presets| - 1]);
      Reloads(d, presets[..|presets| - 1]) + if before.wlen == 1 then 1 else 0
  }

  /** A 16-bit count in which 0 means 65536. */
  function Words16(x: int): int {
    if x == 0 then 65536 else x
  }

  /** From any counter value, the first reload comes after the words it still stands for and the
      others every `len` words. */
  lemma {:induction false} CounterAfter(d: Dma, presets: seq<bool>)
    requires 0 <= d.len < 0x10000 && 0 <= d.wlen < 0x10000
    ensures var n, first, period := |presets|, Words16(d.wlen), Words16(d.len);
            var e := Fetched(d, presets);
            && e.len == d.len && 0 <= e.wlen < 0x10000
            && (n < first ==> Reloads(d, presets) == 0 && Words16(e.wlen) == first - n)
            && (n >= first ==> && Reloads(d, presets) == 1 + (n - first) / period
                               && Words16(e.wlen) == period - (n - first) % period)
  {
    hide WordFetched, Words16;
    Words16Bounds(d.len);
    Words16Bounds(d.wlen);
    if presets != [] {
      var n, first, period := |presets| - 1, Words16(d.wlen), Words16(d.len);
      CounterAfter(d, presets[..n]);
      CounterSteps(Fetched(d, presets[..n]), presets[n]);
      if n >= first {
        NextInPeriod(n - first, period);
      } else if n + 1 == first {
        ModUnique(0, period, 0, 0);
      }
    }
  }

  lemma Words16Bounds(x: int)
    requires 0 <= x < 0x10000
    ensures 1 <= Words16(x) <= 65536
  {
  }

  lemma CounterSteps(d: Dma, preset: bool)
    requires 0 <= d.len < 0x10000 && 0 <= d.wlen < 0x10000
    ensures var e := WordFetched(d, preset);
            && e.len == d.len && 0 <= e.wlen < 0x10000 && (d.wlen == 1 <==> Words16(d.wlen) == 1)
            && Words16(e.wlen) == if Words16(d.wlen) == 1 then Words16(d.len) else Words16(d.wlen) - 1
  {
    if d.wlen == 0 {
      assert (d.wlen - 1) % 0x10000 == 0xFFFF;
    } else {
      ModUnique(d.wlen - 1, 0x10000, 0, d.wlen - 1);
    }
  }

  lemma NextInPeriod(k: nat, period: int)
    requires period > 0
    ensures if k % period == period - 1 then (k + 1) % period == 0 && (k + 1) / period == k / period + 1
            else (k + 1) % period == k % period + 1 && (k + 1) / period == k / period
  {
    assert k == (k / period) * period + k % period;
    if k % period == period - 1 {
      assert (k / period + 1) * period == (k / period) * period + period;
      ModUnique(k + 1, period, k / period + 1, 0);
    } else {
      ModUnique(k + 1, period, k / period, k % period + 1);
    }
  }

  /* ---------- Main results ---------- */

  /** After a reload, `n` words cause exactly n / length further reloads, for every length register,
      through the 16-bit wrap. */
  lemma LoopCount(d: Dma, presets: seq<bool>)
    requires 0 <= d.len < 0x10000 && d.wlen == d.len
    ensures Reloads(d, presets) == |presets| / Words16(d.len)
  {
    var n, period := |presets|, Words16(d.len);
    CounterAfter(d, presets);
    if n < period {
      ModUnique(n, period, 0, n);
    } else {
      DivShift(n, period);
    }
  }

  lemma {:induction false} FetchedFirst(d: Dma, preset: bool, presets: seq<bool>)
    ensures Fetched(d, [preset] + presets) == Fetched(WordFetched(d, preset), presets)
    ensures Reloads(d, [preset] + presets) ==
            (if d.wlen == 1 then 1 else 0) + Reloads(WordFetched(d, preset), presets)
  {
    hide WordFetched;
    if presets == [] {
      assert ([preset] + presets)[..0] == [];
      assert Fetched(d, []) == d;
    } else {
      var n := |presets| - 1;
      FetchedFirst(d, preset, presets[..n]);
      assert ([preset] + presets)[..n + 1] == [preset] + presets[..n];
    }
  }

  lemma NoneFetched(d: Dma)
    ensures Fetched(d, []) == d && Reloads(d, []) == 0
  {
  }

  /** The DMA words for channel `nr` in a run, each with its flag. */
  function WordsIn(ops: seq<Op>, nr: nat): seq<bool> {
    if ops == [] then []
    else (if IsWord(ops[0], nr) then [ops[0].preset] else []) + WordsIn(ops[1..], nr)
  }

  /** How often the length counter of channel `nr` is reloaded in a run. */
  ghost function ReloadsIn(d: Device, ops: seq<Op>, nr: nat): nat
    requires Valid(d) && nr < AUDIO_CHANNELS_PAULA && forall i :: 0 <= i < |ops| ==> ValidOp(ops[i])
    decreases |ops|
  {
    if ops == [] then 0
    else
      ApplyKeepsValid(d, ops[0]);
      (if IsWord(ops[0], nr) && d.engine.ch[nr].dma.wlen == 1 then 1 else 0) +
      ReloadsIn(Apply(d, ops[0]), ops[1..], nr)
  }

  lemma {:induction false} RunReloads(d: Device, ops: seq<Op>, nr: nat, f: Dma)
    requires Valid(d) && nr < AUDIO_CHANNELS_PAULA && forall i :: 0 <= i < |ops| ==> ValidOp(ops[i])
    requires Under(Stream(f.len, f.wlen), d.env, nr)
    requires Holds(Stream(f.len, f.wlen), d.engine.ch[nr], d.engine.time) && AllKeep(Stream(f.len, f.wlen), d, ops, nr)
    ensures ReloadsIn(d, ops, nr) == Reloads(f, WordsIn(ops, nr))
    ensures NextAll(Stream(f.len, f.wlen), ops, nr) == Stream(f.len, Fetched(f, WordsIn(ops, nr)).wlen)
    decreases |ops|
  {
    hide Apply, ValidOp, Holds, Under, Keeps, Fetched, Reloads, WordFetched, Next;
    NoneFetched(f);
    if ops != [] {
      var claim, op := Stream(f.len, f.wlen), ops[0];
      StreamIs(claim, d.engine.ch[nr], d.engine.time);
      ApplyHolds(claim, d, op, nr);
      ApplyKeepsValid(d, op);
      KeepsUnder(claim, d, op, nr);
      NextIsFetched(f, op, nr);
      if IsWord(op, nr) {
        UnderNext(claim, Apply(d, op).env, op, nr);
        RunReloads(Apply(d, op), ops[1..], nr, WordFetched(f, op.preset));
        FetchedFirst(f, op.preset, WordsIn(ops[1..], nr));
      } else {
        RunReloads(Apply(d, op), ops[1..], nr, f);
        assert WordsIn(ops, nr) == WordsIn(ops[1..], nr);
      }
    }
  }

  lemma NextIsFetched(f: Dma, op: Op, nr: nat)
    ensures Next(Stream(f.len, f.wlen), op, nr) ==
            if IsWord(op, nr) then Stream(f.len, WordFetched(f, op.preset).wlen) else Stream(f.len, f.wlen)
    ensures IsWord(op, nr) ==> WordFetched(f, op.preset).len == f.len
  {
  }

  lemma StreamIs(claim: Claim, c: Channel, time: int)
    requires claim.Stream?
    ensures Holds(claim, c, time) <==> Playing(c) && c.dma.len == claim.len && c.dma.wlen == claim.wlen
  {
  }

  /** Over any run that keeps a playing channel's DMA on and its length fixed and forces no restart, with
      polls, services, other channels and any other operations in between: the channel plays on, and N words
      after a reload there have been exactly N / length further reloads. */
  lemma LoopCountOverRuns(d: Device, ops: seq<Op>, nr: nat)
    requires Valid(d) && nr < AUDIO_CHANNELS_PAULA && forall i :: 0 <= i < |ops| ==> ValidOp(ops[i])
    requires Unattached(d.env, nr) && Enabled(d.env, nr) && Playing(d.engine.ch[nr])
    requires var c := d.engine.ch[nr].dma;
             0 <= c.len < 0x10000 && c.wlen == c.len && AllKeep(Stream(c.len, c.len), d, ops, nr)
    ensures var c := d.engine.ch[nr].dma;
            && ReloadsIn(d, ops, nr) == |WordsIn(ops, nr)| / Words16(c.len)
            && Valid(ApplyAll(d, ops)) && Playing(ApplyAll(d, ops).engine.ch[nr])
            && ApplyAll(d, ops).engine.ch[nr].dma.wlen == Fetched(c, WordsIn(ops, nr)).wlen
  {
    hide Apply, ValidOp, Keeps, Fetched, Reloads;
    var c := d.engine.ch[nr].dma;
    var claim := Stream(c.len, c.len);
    StreamIs(claim, d.engine.ch[nr], d.engine.time);
    RunReloads(d, ops, nr, c);
    RunsHold(claim, d, ops, nr);
    StreamIs(NextAll(claim, ops, nr), ApplyAll(d, ops).engine.ch[nr], ApplyAll(d, ops).engine.time);
    LoopCount(c, WordsIn(ops, nr));
  }

  /** Whichever way the CPU model takes, a DMA word that reloads the counter leaves the reload flag
      set, and a word that does not leaves the flag as it was. */
  lemma ReloadIsFlagged(e: Env, c: Channel, nr: int, v: int)
    requires 0 <= nr < |e.lines| && Enabled(e, nr) && (c.state % 16 == 2 || c.state % 16 == 3)
    ensures var delayed := !e.jit && (c.per < PERIOD_LOW * CYCLE_UNIT || e.compatible);
            var d := DataWhilePlaying(e, e.lines[nr], DatWritten(e, c, nr, v), v, true, delayed);
            && d.dma.dat == v && !d.dma.datWritten
            && d.dma.wlen == (if c.dma.wlen == 1 then c.dma.len else (c.dma.wlen - 1) % 0x10000)
            && d.dma.intreq2 == (c.dma.intreq2 || c.dma.wlen == 1)
  {
  }

  /** With DMA and no period attachment, the end of the word raises the interrupt for a flagged
      reload, once. */
  lemma FlagRaisesOneInterrupt(e: Env, l: Line, c: Channel, nr: int, time: int)
    requires Napnav(l)
    ensures var d := LeaveLow(e, l, true, c, nr, time).0;
            && !d.dma.intreq2
            && d.log.irqs == c.log.irqs + if c.dma.intreq2 then [time] else []
  {
    hide EnterHigh, LoadDat, SetDr;
    EnteringRaises(l, NextWord(e, l, true, c, nr, time).0, time);
  }

  lemma EnteringRaises(l: Line, c: Channel, time: int)
    ensures EnterHigh(l, c, time).log.irqs == c.log.irqs && EnterHigh(l, c, time).dma == c.dma
  {
  }

  /* ---------- Interrupts over runs ---------- */

  /** How many operations of a run set the reload flag while it is clear. */
  ghost function FlagsIn(d: Device, ops: seq<Op>, nr: nat): nat
    requires Valid(d) && nr < AUDIO_CHANNELS_PAULA && forall i :: 0 <= i < |ops| ==> ValidOp(ops[i])
    decreases |ops|
  {
    if ops == [] then 0
    else
      ApplyKeepsValid(d, ops[0]);
      (if SetsFlag(d, ops[0], nr) && !d.engine.ch[nr].dma.intreq2 then 1 else 0) +
      FlagsIn(Apply(d, ops[0]), ops[1..], nr)
  }

  /** How many set it while the last one is still waiting for its interrupt. */
  ghost function LostIn(d: Device, ops: seq<Op>, nr: nat): nat
    requires Valid(d) && nr < AUDIO_CHANNELS_PAULA && forall i :: 0 <= i < |ops| ==> ValidOp(ops[i])
    decreases |ops|
  {
    if ops == [] then 0
    else
      ApplyKeepsValid(d, ops[0]);
      (if SetsFlag(d, ops[0], nr) && d.engine.ch[nr].dma.intreq2 then 1 else 0) +
      LostIn(Apply(d, ops[0]), ops[1..], nr)
  }

  /** The events of a run tell the truth about the flag, as AUDxDAT makes them: a reload comes with `preset`
      exactly if the flag has been set early for it; `early` says that one is on its way. */
  ghost predicate Paired(d: Device, ops: seq<Op>, nr: nat, early: bool)
    requires Valid(d) && nr < AUDIO_CHANNELS_PAULA && forall i :: 0 <= i < |ops| ==> ValidOp(ops[i])
    decreases |ops|
  {
    if ops == [] then !early
    else
      var op := ops[0];
      ApplyKeepsValid(d, op);
      if op.WriteDat? && SetsFlag(d, op, nr) then !early && Paired(Apply(d, op), ops[1..], nr, true)
      else if IsWord(op, nr) && d.engine.ch[nr].dma.wlen == 1 then
        op.preset == early && Paired(Apply(d, op), ops[1..], nr, false)
      else Paired(Apply(d, op), ops[1..], nr, early)
  }

  /** One operation: what is announced grows by one if the flag is set while clear. */
  lemma FlagStep(claim: Claim, d: Device, op: Op, nr: nat)
    requires Valid(d) && ValidOp(op) && nr < AUDIO_CHANNELS_PAULA && claim.Stream?
    requires Under(claim, d.env, nr) && Holds(claim, d.engine.ch[nr], d.engine.time) && Keeps(claim, d, op, nr)
    ensures |Apply(d, op).engine.ch| == AUDIO_CHANNELS_PAULA
    ensures Announced(Apply(d, op).engine.ch[nr]) == Announced(d.engine.ch[nr]) +
            if SetsFlag(d, op, nr) && !d.engine.ch[nr].dma.intreq2 then 1 else 0
  {
    hide Apply, Armed, SetsFlag;
    if !SetsFlag(d, op, nr) {
      IrqsKeep(claim, d, op, nr);
      ApplyHolds(Irqs(Announced(d.engine.ch[nr])), d, op, nr);
    } else {
      FlagIsSet(d, op, nr);
    }
  }

  lemma IrqsKeep(claim: Claim, d: Device, op: Op, nr: nat)
    requires Valid(d) && ValidOp(op) && nr < AUDIO_CHANNELS_PAULA && claim.Stream? && !SetsFlag(d, op, nr)
    requires Under(claim, d.env, nr) && Holds(claim, d.engine.ch[nr], d.engine.time) && Keeps(claim, d, op, nr)
    ensures var irqs := Irqs(Announced(d.engine.ch[nr]));
            && Under(irqs, d.env, nr) && Holds(irqs, d.engine.ch[nr], d.engine.time) && Keeps(irqs, d, op, nr)
  {
    hide Apply, Armed, SetsFlag, TakesHack;
  }

  lemma FlagIsSet(d: Device, op: Op, nr: nat)
    requires Valid(d) && ValidOp(op) && nr < AUDIO_CHANNELS_PAULA && SetsFlag(d, op, nr)
    ensures |Apply(d, op).engine.ch| == AUDIO_CHANNELS_PAULA
    ensures Announced(Apply(d, op).engine.ch[nr]) == Announced(d.engine.ch[nr]) +
            if d.engine.ch[nr].dma.intreq2 then 0 else 1
  {
    hide Armed, DataWhilePlaying, DatWritten, Delayed, Announced;
    if op.WriteDat? {
      DatAnnounces(d, op, nr);
    } else {
      EventAnnounces(d.env, d.env.lines[nr], d.engine.ch[nr], op.value);
    }
  }

  lemma EventAnnounces(e: Env, l: Line, c: Channel, v: int)
    requires c.dma.wlen == 1
    ensures Announced(DataWhilePlaying(e, l, c, v, true, false)) == Announced(c) + if c.dma.intreq2 then 0 else 1
  {
  }

  /** Over any run that keeps a playing channel's DMA on and forces no restart: each time the flag is set while
      clear there is one interrupt more, raised or still to come at the end of the word. */
  lemma {:induction false} InterruptsOverRuns(claim: Claim, d: Device, ops: seq<Op>, nr: nat)
    requires Valid(d) && nr < AUDIO_CHANNELS_PAULA && forall i :: 0 <= i < |ops| ==> ValidOp(ops[i])
    requires claim.Stream? && Under(claim, d.env, nr) && Holds(claim, d.engine.ch[nr], d.engine.time)
    requires AllKeep(claim, d, ops, nr)
    ensures Valid(ApplyAll(d, ops))
    ensures Announced(ApplyAll(d, ops).engine.ch[nr]) == Announced(d.engine.ch[nr]) + FlagsIn(d, ops, nr)
    decreases |ops|
  {
    hide Apply, ValidOp, Holds, Under, Keeps, SetsFlag, Announced;
    if ops != [] {
      FlagStep(claim, d, ops[0], nr);
      ApplyHolds(claim, d, ops[0], nr);
      ApplyKeepsValid(d, ops[0]);
      KeepsUnder(claim, d, ops[0], nr);
      UnderNext(claim, Apply(d, ops[0]).env, ops[0], nr);
      InterruptsOverRuns(Next(claim, ops[0], nr), Apply(d, ops[0]), ops[1..], nr);
    }
  }

  lemma {:induction false} ReloadsAreFlagged(claim: Claim, d: Device, ops: seq<Op>, nr: nat, early: bool)
    requires Valid(d) && nr < AUDIO_CHANNELS_PAULA && forall i :: 0 <= i < |ops| ==> ValidOp(ops[i])
    requires claim.Stream? && Under(claim, d.env, nr) && Holds(claim, d.engine.ch[nr], d.engine.time)
    requires AllKeep(claim, d, ops, nr) && Paired(d, ops, nr, early)
    ensures FlagsIn(d, ops, nr) + LostIn(d, ops, nr) + (if early then 1 else 0) == ReloadsIn(d, ops, nr)
    decreases |ops|
  {
    hide Apply, ValidOp, Holds, Under, Keeps, Next;
    if ops != [] {
      var op := ops[0];
      StreamIs(claim, d.engine.ch[nr], d.engine.time);
      ApplyHolds(claim, d, op, nr);
      ApplyKeepsValid(d, op);
      KeepsUnder(claim, d, op, nr);
      UnderNext(claim, Apply(d, op).env, op, nr);
      StreamNext(claim, op, nr);
      var left := if op.WriteDat? && SetsFlag(d, op, nr) then true
                  else if IsWord(op, nr) && d.engine.ch[nr].dma.wlen == 1 then false else early;
      ReloadsAreFlagged(Next(claim, op, nr), Apply(d, op), ops[1..], nr, left);
    }
  }

  lemma StreamNext(claim: Claim, op: Op, nr: nat)
    requires claim.Stream?
    ensures Next(claim, op, nr).Stream?
  {
  }

  /** And so N words after a reload have announced exactly N / length interrupts, if and only if no reload came
      while the one before was still waiting for its interrupt. */
  lemma InterruptsPerLoop(d: Device, ops: seq<Op>, nr: nat)
    requires Valid(d) && nr < AUDIO_CHANNELS_PAULA && forall i :: 0 <= i < |ops| ==> ValidOp(ops[i])
    requires Unattached(d.env, nr) && Enabled(d.env, nr) && Playing(d.engine.ch[nr])
    requires var c := d.engine.ch[nr].dma;
             0 <= c.len < 0x10000 && c.wlen == c.len && AllKeep(Stream(c.len, c.len), d, ops, nr)
    requires Paired(d, ops, nr, false)
    ensures Valid(ApplyAll(d, ops))
    ensures var c, f := d.engine.ch[nr], ApplyAll(d, ops).engine.ch[nr];
            Announced(f) - Announced(c) == |WordsIn(ops, nr)| / Words16(c.dma.len) <==> LostIn(d, ops, nr) == 0
  {
    hide Apply, ValidOp, Keeps, Fetched, Reloads, Announced, FlagsIn, LostIn, Paired, AllKeep;
    var c := d.engine.ch[nr];
    var claim := Stream(c.dma.len, c.dma.len);
    StreamIs(claim, c, d.engine.time);
    LoopCountOverRuns(d, ops, nr);
    InterruptsOverRuns(claim, d, ops, nr);
    ReloadsAreFlagged(claim, d, ops, nr, false);
  }

  /* ---------- Every word loaded asks for the next one ---------- */

  /** The request for the word after the one just loaded: with one word left, for the start of the
      loop (at once, or through the event queue for a precise CPU), otherwise for the next word. */
  predicate Asked(e: Env, before: Channel, after: Channel, time: int) {
    if before.dma.wlen != 1 then after.dma.dr
    else if !e.jit && (before.per < PERIOD_LOW * CYCLE_UNIT || e.compatible) then
      after.log.dsrEvents == before.log.dsrEvents + [time]
    else after.dma.dsr
  }

  lemma LoadsAsk(e: Env, l: Line, c: Channel, nr: int, time: int)
    requires e.dmaMaster && !l.attachVolume && !l.attachPeriod
    ensures Asked(e, c, FirstWord(e, l, c, nr, time).0, time)
    ensures Asked(e, c, NextWord(e, l, true, c, nr, time).0, time)
    ensures |FirstWord(e, l, c, nr, time).0.log.words| == |c.log.words| + 1
    ensures |NextWord(e, l, true, c, nr, time).0.log.words| == |c.log.words| + 1
  {
  }

  /** Equal in everything a request depends on. */
  predicate SameRequests(c: Channel, d: Channel) {
    c.log.words == d.log.words && c.log.dsrEvents == d.log.dsrEvents && c.per == d.per &&
    c.dma.wlen == d.dma.wlen && c.dma.dr == d.dma.dr && c.dma.dsr == d.dma.dsr
  }

  lemma PlayingKeepsRequests(e: Env, l: Line, ena: bool, c: Channel, time: int)
    ensures SameRequests(EnterHigh(l, c, time), c)
    ensures SameRequests(EnterLow(e, l, ena, c, time), c)
    ensures SameRequests(LastUnit(l, ena, c), c)
  {
  }

  lemma CheckKeepsRequests(e: Env, l: Line, ena: bool, c: Channel, time: int)
    ensures SameRequests(DmaOffCheck(e, l, ena, c, time), c)
  {
    hide CutShort;
    CutKeepsRequests(e, l, c.(dma := c.dma.(enaStore := ena)), time);
  }

  lemma CutKeepsRequests(e: Env, l: Line, c: Channel, time: int)
    ensures SameRequests(CutShort(e, l, c, time), c)
  {
  }

  lemma SameAsked(e: Env, b: Channel, c: Channel, d: Channel, f: Channel, time: int)
    requires SameRequests(b, c) && SameRequests(d, f) && Asked(e, b, d, time)
    ensures Asked(e, c, f, time)
  {
  }

  /** With DMA, a call of the state machine loads at most one word, and whenever it loads one it asks
      for the next: the stream never starves. */
  lemma EveryLoadAsksForMore(e: Env, c: Channel, nr: int, time: int, perfin: bool)
    requires 0 <= nr < |e.lines| && e.soundOn && Enabled(e, nr)
    requires !e.lines[nr].attachVolume && !e.lines[nr].attachPeriod
    ensures var d := StateChannel2(e, c, nr, time, perfin).0;
            && |d.log.words| <= |c.log.words| + 1
            && (|d.log.words| > |c.log.words| ==> Asked(e, c, d, time))
  {
    hide FirstWord, NextWord, EnterHigh, EnterLow, DmaOffCheck, SetDr, LastUnit, Asked;
    var l, b := e.lines[nr], DmaOffCheck(e, e.lines[nr], true, c, time);
    CheckKeepsRequests(e, l, true, c, time);
    PlayingKeepsRequests(e, l, true, b, time);
    if b.state == 5 {
      var first := FirstWord(e, l, b, nr, time).0;
      LoadsAsk(e, l, b, nr, time);
      PlayingKeepsRequests(e, l, true, first, time);
      SameAsked(e, b, c, first, EnterHigh(l, first, time), time);
    } else if b.state == 2 {
      var high := EnterHigh(l, b, time);
      PlayingKeepsRequests(e, l, true, HighDone(e, l, true, high, nr, time).0, time);
    } else if b.state == 3 {
      var low := EnterLow(e, l, true, b, time);
      var next := NextWord(e, l, true, low, nr, time).0;
      LoadsAsk(e, l, low, nr, time);
      PlayingKeepsRequests(e, l, true, next, time);
      SameAsked(e, low, c, next, EnterHigh(l, next, time), time);
    }
  }

  /* ---------- Words played without DMA ---------- */

  lemma PlayingRaisesNothing(e: Env, l: Line, ena: bool, c: Channel, time: int)
    ensures EnterHigh(l, c, time).log.irqs == c.log.irqs && EnterHigh(l, c, time).log.words == c.log.words
    ensures EnterLow(e, l, ena, c, time).log.irqs == c.log.irqs && EnterLow(e, l, ena, c, time).log.words == c.log.words
    ensures DmaOffCheck(e, l, ena, c, time).log.irqs == c.log.irqs
    ensures DmaOffCheck(e, l, ena, c, time).log.words == c.log.words
    ensures LastUnit(l, ena, c).log == c.log && (c.state == 2 ==> EnterHigh(l, c, time).state == 2)
  {
  }

  lemma OffCheckIsQuiet(e: Env, l: Line, c: Channel, time: int)
    ensures var d := DmaOffCheck(e, l, false, c, time);
            d.state == c.state && d.pbufldl == c.pbufldl && d.dma.irqcheck == c.dma.irqcheck
  {
  }

  /** Without DMA a call loads at most one word and raises one interrupt with it.  The end of a word
      always raises one, and playback stops there exactly if the last interrupt is still pending. */
  lemma EveryManualWordInterrupts(e: Env, c: Channel, nr: int, time: int, perfin: bool)
    requires 0 <= nr < |e.lines| && e.soundOn && !Enabled(e, nr)
    requires !e.lines[nr].attachVolume && !e.lines[nr].attachPeriod && !c.pbufldl
    ensures var d := StateChannel2(e, c, nr, time, perfin).0;
            && |d.log.words| <= |c.log.words| + 1
            && ((|d.log.words| > |c.log.words| && c.state != 5) || (c.state == 3 && perfin) ==>
                  d.log.irqs == c.log.irqs + [time])
            && (c.state == 3 && perfin ==>
                  (d.log.words == c.log.words <==>
                     c.dma.irqcheck > 0 || (c.dma.irqcheck == 0 && e.lines[nr].irq)))
  {
    hide EnterHigh, EnterLow, DmaOffCheck, SetDr, LastUnit;
    var l, b := e.lines[nr], DmaOffCheck(e, e.lines[nr], false, c, time);
    PlayingRaisesNothing(e, l, false, c, time);
    OffCheckIsQuiet(e, l, c, time);
    PlayingRaisesNothing(e, l, false, b, time);
    if b.state == 0 && b.dma.datWritten && !l.irq {
      var d := LoadDat(l, SetIrq(b.(state := 2), time), nr, false, true).0;
      PlayingRaisesNothing(e, l, false, d.(pbufldl := true), time);
    } else if b.state == 2 {
      PlayingRaisesNothing(e, l, false, HighDone(e, l, false, EnterHigh(l, b, time), nr, time).0, time);
    } else if b.state == 3 {
      QuietEntry(e, l, b, time);
      var d := ManualDone(l, b, time);
      PlayingRaisesNothing(e, l, false, NextWord(e, l, false, d, nr, time).0, time);
    }
  }

  lemma QuietEntry(e: Env, l: Line, c: Channel, time: int)
    requires !c.pbufldl
    ensures EnterLow(e, l, false, c, time) == c
  {
  }
}

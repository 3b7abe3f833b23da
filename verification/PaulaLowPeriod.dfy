/** The period that the emulator raises by itself (src/core/audio.cpp, audio_low_period_hack): a channel
    that repeats a very short period while its interrupt is disabled is slowed down. */
module PaulaLowPeriod {
  import opened PaulaChannel
  import opened PaulaEngine
  import opened PaulaRegisters
  import opened PaulaPlayback
  import opened PaulaClaims
  import opened PaulaRuns
  import opened PaulaHacks

  /** `n` calls of the hack. */
  function Hacked(e: Env, l: Line, c: Channel, n: nat): Channel
    decreases n
  {
    if n == 0 then c else Hacked(e, l, LowPeriodHack(e, l, c), n - 1)
  }

  /** A channel in state 2 or 3 at a period below 24 units, its interrupt disabled, with the hack switched on: calls of
      the hack count up to 64, in steps of 5 for a long sample, and then raise the period for good. Any other channel
      they leave alone. */
  lemma {:induction false} RaisedAfter64(e: Env, l: Line, c: Channel, n: nat)
    requires n > 0
    ensures var d, weight := Hacked(e, l, c, n), if c.dma.len == 0 || c.dma.len > 1000 then 5 else 1;
            if (c.state == 2 || c.state == 3) && c.per < 24 * 512 && !l.intena && e.loopHack then
              && d.per == (if c.dma.minperloop + n * weight >= 64 then 3 * e.maxhpos * 512 else c.per)
              && d.dma.minperloop > c.dma.minperloop
              && d.(per := c.per, dma := d.dma.(minperloop := c.dma.minperloop)) == c
            else d == c
    decreases n
  {
    if !LowLoop(e, l, c) {
      NotCounted(e, l, c, n);
    } else if n > 1 {
      var d := LowPeriodHack(e, l, c);
      if LowLoop(e, l, d) {
        RaisedAfter64(e, l, d, n - 1);
      } else {
        NotCounted(e, l, d, n - 1);
      }
      WeightAdds(n, LoopWeight(c.dma.len));
    }
  }

  lemma WeightAdds(n: int, w: int)
    requires n > 1 && w > 0
    ensures n * w == w + (n - 1) * w && (n - 1) * w > 0
  {
  }

  lemma {:induction false} NotCounted(e: Env, l: Line, c: Channel, n: nat)
    requires !LowLoop(e, l, c)
    ensures Hacked(e, l, c, n) == c
    decreases n
  {
    if n > 0 { NotCounted(e, l, c, n - 1); }
  }

  /* ---------- Exactly when ---------- */

  /** The channel as a `Slow` claim sees it. */
  function Counting(c: Channel): Claim {
    Slow(c.per, c.dma.minperloop, c.dma.len, c.dma.wlen)
  }

  /** A channel that plays by DMA, so briefly that the hack counts its reloads. */
  ghost predicate Repeats(d: Device, nr: nat)
    requires nr < AUDIO_CHANNELS_PAULA
  {
    && Valid(d) && Under(Counting(d.engine.ch[nr]), d.env, nr)
    && (d.engine.ch[nr].state == 2 || d.engine.ch[nr].state == 3) && d.engine.ch[nr].dma.enaStore
    && d.engine.ch[nr].dma.minperloop < PERIOD_MIN_LOOP_COUNT
  }

  /** Over any run in which a channel goes on playing by DMA at a short period, with its interrupt disabled:
      the period is the one written up to the operation that brings the count of reloads and vertical blanks,
      each with the weight of the length then in force, to 64, and is raised by that operation. */
  lemma RaisedExactlyWhen(d: Device, ops: seq<Op>, op: Op, nr: nat)
    requires nr < AUDIO_CHANNELS_PAULA && Repeats(d, nr)
    requires forall i :: 0 <= i < |ops| ==> ValidOp(ops[i])
    requires AllKeep(Counting(d.engine.ch[nr]), d, ops, nr)
    requires ValidOp(op) && Valid(ApplyAll(d, ops)) && Stores(ApplyAll(d, ops), op, nr, d.engine.ch[nr].per)
    requires |Apply(ApplyAll(d, ops), op).env.lines| == AUDIO_CHANNELS_PAULA
    requires Under(Counting(d.engine.ch[nr]), Apply(ApplyAll(d, ops), op).env, nr)
    ensures var claim, t := NextAll(Counting(d.engine.ch[nr]), ops, nr), ApplyAll(d, ops);
            && Counting(t.engine.ch[nr]) == claim && claim.per == d.engine.ch[nr].per
            && Valid(Apply(t, op))
            && Apply(t, op).engine.ch[nr].per ==
               if Next(claim, op, nr).count >= 64 then 3 * t.env.maxhpos * 512 else claim.per
  {
    hide Apply, Keeps, KeepsPeriod, Stores, Holds, Under, Next;
    var first := Counting(d.engine.ch[nr]);
    CountingHolds(d.engine.ch[nr], d.engine.time);
    RunsHold(first, d, ops, nr);
    var t, claim := ApplyAll(d, ops), NextAll(first, ops, nr);
    HoldsCounting(claim, t.engine.ch[nr], t.engine.time);
    ApplyKeepsValid(t, op);
    SameUnder(first, claim, Apply(t, op).env, nr);
    if Next(claim, op, nr).count >= PERIOD_MIN_LOOP_COUNT {
      BelowLimit(first, d, ops, nr);
      CountReached(claim, t, op, nr);
    } else {
      StillKeeps(claim, t, op, nr);
      ApplyHolds(claim, t, op, nr);
      HoldsCounting(Next(claim, op, nr), Apply(t, op).engine.ch[nr], Apply(t, op).engine.time);
    }
  }

  lemma CountingHolds(c: Channel, time: int)
    requires (c.state == 2 || c.state == 3) && c.dma.enaStore
    ensures Holds(Counting(c), c, time)
  {
  }

  lemma HoldsCounting(claim: Claim, c: Channel, time: int)
    requires claim.Slow? && Holds(claim, c, time)
    ensures Counting(c) == claim && (c.state == 2 || c.state == 3) && c.dma.enaStore
  {
  }

  lemma SameUnder(claim: Claim, other: Claim, e: Env, nr: nat)
    requires nr < |e.lines| && claim.Slow? && other.Slow? && claim.per == other.per && Under(claim, e, nr)
    ensures Under(other, e, nr)
  {
  }

  lemma StillKeeps(claim: Claim, d: Device, op: Op, nr: nat)
    requires Valid(d) && ValidOp(op) && nr < AUDIO_CHANNELS_PAULA && claim.Slow? && Stores(d, op, nr, claim.per)
    requires |Apply(d, op).env.lines| == AUDIO_CHANNELS_PAULA && Under(claim, Apply(d, op).env, nr)
    requires Next(claim, op, nr).count < PERIOD_MIN_LOOP_COUNT
    ensures Keeps(claim, d, op, nr)
  {
    hide Apply, Stores, Next, Under;
  }

  /** Up to here the count has stayed below the limit. */
  lemma {:induction false} BelowLimit(claim: Claim, d: Device, ops: seq<Op>, nr: nat)
    requires claim.Slow? && claim.count < PERIOD_MIN_LOOP_COUNT && Valid(d) && nr < AUDIO_CHANNELS_PAULA
    requires forall i :: 0 <= i < |ops| ==> ValidOp(ops[i])
    requires AllKeep(claim, d, ops, nr)
    ensures NextAll(claim, ops, nr).count < PERIOD_MIN_LOOP_COUNT
    decreases |ops|
  {
    hide Apply, Next, Stores, Under;
    if ops != [] {
      ApplyKeepsValid(d, ops[0]);
      BelowLimit(Next(claim, ops[0], nr), Apply(d, ops[0]), ops[1..], nr);
    }
  }

  /** The operation that brings the count to the limit raises the period. */
  lemma CountReached(claim: Claim, d: Device, op: Op, nr: nat)
    requires Valid(d) && ValidOp(op) && nr < AUDIO_CHANNELS_PAULA && claim.Slow? && Under(claim, d.env, nr)
    requires Holds(claim, d.engine.ch[nr], d.engine.time)
    requires claim.count < PERIOD_MIN_LOOP_COUNT <= Next(claim, op, nr).count
    ensures |Apply(d, op).engine.ch| == AUDIO_CHANNELS_PAULA
    ensures Apply(d, op).engine.ch[nr].per == RaisedPeriod(d.env)
  {
    hide Apply, Armed, LoopWeight;
    FiresNow(claim, d.env, nr, d.engine.ch[nr], d.engine.time);
    RaiseMoves(d, op, nr);
  }

  lemma FiresNow(claim: Claim, e: Env, nr: nat, c: Channel, time: int)
    requires nr < |e.lines| && claim.Slow? && Under(claim, e, nr) && Holds(claim, c, time)
    requires claim.count + LoopWeight(claim.len) >= PERIOD_MIN_LOOP_COUNT
    ensures HackFires(e, e.lines[nr], c)
  {
  }

  /* ---------- A run in which it happens ---------- */

  /** Waiting for DMA: in state 1 or 5, with the period, one word to the loop, and nothing heard yet. */
  ghost predicate Awaiting(d: Device, nr: nat, v: int, state: int)
    requires nr < AUDIO_CHANNELS_PAULA
  {
    && Valid(d) && Unattached(d.env, nr) && PeriodsUntouched(d.env, nr) && Enabled(d.env, nr)
    && var c := d.engine.ch[nr];
       && c.state == state && c.evtime == MAX_EV && c.per == v * CYCLE_UNIT && c.log.words == [] && c.log.bytes == []
       && c.dma.len == 1 && c.dma.wlen == 1 && c.dma.minperloop == 0 && c.dma.enaStore
  }

  /** The operations that start a sample of one word by DMA. */
  function LoopStart(e: Env, start: int, nr: nat, i: int, word: int, t0: int, t1: int): (ops: seq<Op>)
    requires nr < |e.lines| == AUDIO_CHANNELS_PAULA && 0 <= word < 0x10000
    ensures forall k :: 0 <= k < |ops| ==> ValidOp(ops[k])
  {
    [WriteLen(start, nr, 1)] + (Switch(e, nr, true, i, start) + (Word(nr, word, t0, false) + Word(nr, word, t1, false)))
  }

  /** AUDxDAT by DMA: the word is stored, and its event comes, with `preset` if it was delayed while playing. */
  function Word(nr: nat, word: int, t: int, preset: bool): (ops: seq<Op>)
    requires nr < AUDIO_CHANNELS_PAULA && 0 <= word < 0x10000
    ensures forall k :: 0 <= k < |ops| ==> ValidOp(ops[k])
  {
    [WriteDat(nr, word), DataEvent(t, nr, word, true, preset)]
  }

  lemma LengthSet(d: Device, e: Env, start: int, nr: nat, v: int)
    requires nr < AUDIO_CHANNELS_PAULA && Ready(d, e, start, nr, v) && e.soundOn
    ensures var r := Apply(d, WriteLen(start, nr, 1));
            Ready(r, e, start, nr, v) && r.engine.ch[nr].dma.len == 1
  {
    hide Armed;
    NothingToDo(e, d.engine);
    ApplyKeepsValid(d, WriteLen(start, nr, 1));
  }

  lemma NothingToDo(e: Env, s: Engine)
    requires Inv(e, s) && e.soundOn
    ensures UpdateAudio(e, s, s.time) == s
  {
  }

  lemma DmaStarts(d: Device, e: Env, start: int, nr: nat, v: int, i: int)
    requires nr < AUDIO_CHANNELS_PAULA && Ready(d, e, start, nr, v) && d.engine.ch[nr].dma.len == 1
    requires Unattached(e, nr) && PeriodsUntouched(e, nr)
    ensures var r := ApplyAll(d, Switch(e, nr, true, i, start));
            && Awaiting(r, nr, v, 1) && r.engine.time == start
            && r.env == e.(dmaMaster := true, lines := Switched(e, nr, true), instructions := i)
  {
    hide Apply, Armed;
    var op := Registers(true, Switched(e, nr, true), i);
    ApplyTwo(d, op, StateMachine(start));
    RegistersApply(d, op, nr);
    SwitchedIs(e, nr, true, i);
    var c := PolledAt(Apply(d, op), nr, start);
    IdleStarts(Apply(d, op).env, c, nr, start);
  }

  lemma SwitchedIs(e: Env, nr: nat, on: bool, i: int)
    requires nr < |e.lines| && Unattached(e, nr) && PeriodsUntouched(e, nr)
    ensures var f := e.(dmaMaster := true, lines := Switched(e, nr, on), instructions := i);
            Unattached(f, nr) && PeriodsUntouched(f, nr) && Enabled(f, nr) == on
  {
  }

  lemma IdleStarts(e: Env, c: Channel, nr: nat, time: int)
    requires nr < |e.lines| && e.soundOn && Enabled(e, nr) && c.state == 0
    ensures var d := Served(e, c, nr, time, false);
            && d.state == 1 && d.evtime == MAX_EV && d.per == c.per && d.log.words == c.log.words
            && d.log.bytes == c.log.bytes && d.dma.len == d.dma.wlen == c.dma.len
            && d.dma.minperloop == c.dma.minperloop && d.dma.enaStore
  {
    hide Start, Prefetch, LeaveHigh, LeaveLow, EnterHigh, EnterLow;
  }

  lemma RegistersApply(d: Device, op: Op, nr: nat)
    requires Valid(d) && ValidOp(op) && op.Registers?
    ensures Apply(d, op) ==
            d.(env := d.env.(dmaMaster := op.dmaMaster, lines := op.lines, instructions := op.instructions))
    ensures Valid(Apply(d, op))
  {
    hide Armed;
  }

  lemma WordAwaited(d: Device, nr: nat, v: int, word: int, state: int)
    requires nr < AUDIO_CHANNELS_PAULA && Awaiting(d, nr, v, state) && (state == 1 || state == 5) && 0 <= word < 0x10000
    ensures var r := Apply(d, WriteDat(nr, word));
            Awaiting(r, nr, v, state) && r.env == d.env && r.engine.time == d.engine.time
  {
    hide Armed;
    ApplyKeepsValid(d, WriteDat(nr, word));
  }

  lemma FirstWordComes(d: Device, nr: nat, v: int, word: int, t: int)
    requires nr < AUDIO_CHANNELS_PAULA && Awaiting(d, nr, v, 1) && d.engine.time <= t && 0 <= word < 0x10000
    ensures var r := ApplyAll(d, Word(nr, word, t, false));
            Awaiting(r, nr, v, 5) && r.env == d.env && r.engine.time == t
  {
    hide Apply, Armed;
    WordAwaited(d, nr, v, word, 1);
    ApplyTwo(d, WriteDat(nr, word), DataEvent(t, nr, word, true, false));
    var c := StoredAt(Apply(d, WriteDat(nr, word)), nr, word, true, t);
  }

  lemma SecondWordComes(d: Device, nr: nat, v: int, word: int, t: int)
    requires nr < AUDIO_CHANNELS_PAULA && Awaiting(d, nr, v, 5) && d.engine.time <= t && 0 <= word < 0x10000
    requires 0 < v < PERIOD_MIN_LOOP && !d.env.lines[nr].intena && d.env.loopHack
    ensures var r := ApplyAll(d, Word(nr, word, t, false));
            && Repeats(r, nr) && r.env == d.env && r.engine.time == t && Playback(r.engine.ch[nr], t)
            && Counting(r.engine.ch[nr]) == Slow(v * CYCLE_UNIT, 0, 1, 1)
  {
    hide Apply, Armed, Playback;
    WordAwaited(d, nr, v, word, 5);
    ApplyTwo(d, WriteDat(nr, word), DataEvent(t, nr, word, true, false));
    var c := StoredAt(Apply(d, WriteDat(nr, word)), nr, word, true, t);
    PlaysNow(d.env, c, nr, v, t);
  }

  /** The first word begins. */
  lemma PlaysNow(e: Env, c: Channel, nr: nat, v: int, t: int)
    requires nr < |e.lines| && Unattached(e, nr) && Enabled(e, nr) && 0 < v < 0x10000
    requires c.state == 5 && c.dma.datWritten && c.dma.enaStore && c.per == v * CYCLE_UNIT
    requires c.log.words == [] && c.log.bytes == [] && c.dma.len == c.dma.wlen == 1 && c.dma.minperloop == 0
    ensures var d := Unwritten(StateChannel2(e, c, nr, t, false).0);
            && d.state == 2 && d.dma.enaStore && Playback(d, t)
            && Counting(d) == Slow(v * CYCLE_UNIT, 0, 1, 1)
  {
    hide SetDr;
  }

  /** A sample of one word playing by DMA, some time after reset. */
  ghost function Looping(e: Env, start: int, nr: nat, v: int, i: int, word: int, t0: int, t1: int): (d: Device)
    requires ValidEnv(e) && nr < AUDIO_CHANNELS_PAULA && Unattached(e, nr) && PeriodsUntouched(e, nr)
    requires !Enabled(e, nr) && !e.lines[nr].intena && e.loopHack && 0 < v < PERIOD_MIN_LOOP
    requires 0 <= word < 0x10000 && start <= t0 <= t1
    ensures Repeats(d, nr) && d.engine.time == t1 && Playback(d.engine.ch[nr], t1) && d.env.maxhpos == e.maxhpos
    ensures Counting(d.engine.ch[nr]) == Slow(v * CYCLE_UNIT, 0, 1, 1)
  {
    LoopStarts(e, start, nr, v, i, word, t0, t1);
    ApplyAll(Prepared(e, start, nr, v), LoopStart(e, start, nr, i, word, t0, t1))
  }

  lemma LoopStarts(e: Env, start: int, nr: nat, v: int, i: int, word: int, t0: int, t1: int)
    requires ValidEnv(e) && nr < AUDIO_CHANNELS_PAULA && Unattached(e, nr) && PeriodsUntouched(e, nr)
    requires !Enabled(e, nr) && !e.lines[nr].intena && e.loopHack && 0 < v < PERIOD_MIN_LOOP
    requires 0 <= word < 0x10000 && start <= t0 <= t1
    ensures var d := ApplyAll(Prepared(e, start, nr, v), LoopStart(e, start, nr, i, word, t0, t1));
            && Repeats(d, nr) && d.engine.time == t1 && Playback(d.engine.ch[nr], t1) && d.env.maxhpos == e.maxhpos
            && Counting(d.engine.ch[nr]) == Slow(v * CYCLE_UNIT, 0, 1, 1)
  {
    hide Apply, Prepared, Switch, Word, ApplyAll, Repeats, Counting, Playback;
    var d := Prepared(e, start, nr, v);
    var first, on, word0, word1 :=
      WriteLen(start, nr, 1), Switch(e, nr, true, i, start), Word(nr, word, t0, false), Word(nr, word, t1, false);
    LengthSet(d, e, start, nr, v);
    ApplyOne(d, first);
    ApplyJoined(d, [first], on + (word0 + word1));
    var d1 := Apply(d, first);
    DmaStarts(d1, e, start, nr, v, i);
    ApplyJoined(d1, on, word0 + word1);
    var d2 := ApplyAll(d1, on);
    ApplyJoined(d2, word0, word1);
    FirstWordComes(d2, nr, v, word, t0);
    SecondWordComes(ApplyAll(d2, word0), nr, v, word, t1);
  }

  /** Time goes on to `t[k]`, and then the next word comes, for every `k`. */
  function Words(nr: nat, word: int, t: seq<int>, preset: bool): (ops: seq<Op>)
    requires nr < AUDIO_CHANNELS_PAULA && 0 <= word < 0x10000
    ensures forall k :: 0 <= k < |ops| ==> ValidOp(ops[k])
    decreases |t|
  {
    if t == [] then [] else [Update(t[0])] + (Word(nr, word, t[0], preset) + Words(nr, word, t[1..], preset))
  }

  lemma {:induction false} WordsJoined(nr: nat, word: int, t: seq<int>, u: seq<int>, preset: bool)
    requires nr < AUDIO_CHANNELS_PAULA && 0 <= word < 0x10000
    ensures Words(nr, word, t + u, preset) == Words(nr, word, t, preset) + Words(nr, word, u, preset)
    decreases |t|
  {
    if t == [] {
      assert t + u == u;
    } else {
      WordsJoined(nr, word, t[1..], u, preset);
      assert (t + u)[1..] == t[1..] + u;
    }
  }

  /** Every word is a reload, and counts one. */
  lemma WordCounts(claim: Claim, d: Device, nr: nat, word: int, t: int, preset: bool)
    requires Valid(d) && nr < AUDIO_CHANNELS_PAULA && 0 <= word < 0x10000 && Under(claim, d.env, nr)
    requires claim.Slow? && claim.len == claim.wlen == 1 && claim.count < PERIOD_MIN_LOOP_COUNT
    ensures var op := DataEvent(t, nr, word, true, preset);
            && Next(claim, op, nr) == claim.(count := claim.count + 1)
            && Stores(d, op, nr, claim.per) && Valid(Apply(d, op)) && Apply(d, op).env == d.env
            && (claim.count + 1 < PERIOD_MIN_LOOP_COUNT ==> Keeps(claim, d, op, nr))
  {
    hide UpdateAudio, DataArrives, Armed;
    ApplyKeepsValid(d, DataEvent(t, nr, word, true, preset));
  }

  /** What comes before the event counts nothing. */
  lemma TimeCounts(claim: Claim, d: Device, nr: nat, word: int, t: int)
    requires Valid(d) && nr < AUDIO_CHANNELS_PAULA && 0 <= word < 0x10000 && Under(claim, d.env, nr)
    requires claim.Slow? && claim.count < PERIOD_MIN_LOOP_COUNT
    ensures Keeps(claim, d, Update(t), nr) && Next(claim, Update(t), nr) == claim
    ensures Valid(Apply(d, Update(t))) && Apply(d, Update(t)).env == d.env
    ensures Keeps(claim, d, WriteDat(nr, word), nr) && Next(claim, WriteDat(nr, word), nr) == claim
    ensures Valid(Apply(d, WriteDat(nr, word))) && Apply(d, WriteDat(nr, word)).env == d.env
  {
    hide UpdateAudio, DatWritten, Armed;
    ApplyKeepsValid(d, Update(t));
    ApplyKeepsValid(d, WriteDat(nr, word));
  }

  /** A run that meets the claim's condition throughout, and where it leads. */
  ghost predicate Leads(claim: Claim, d: Device, ops: seq<Op>, nr: nat, last: Claim, end: Device) {
    && Valid(d) && nr < AUDIO_CHANNELS_PAULA && (forall i :: 0 <= i < |ops| ==> ValidOp(ops[i]))
    && AllKeep(claim, d, ops, nr) && NextAll(claim, ops, nr) == last && ApplyAll(d, ops) == end
  }

  lemma LeadsNowhere(claim: Claim, d: Device, nr: nat)
    requires Valid(d) && nr < AUDIO_CHANNELS_PAULA
    ensures Leads(claim, d, [], nr, claim, d)
  {
  }

  lemma LeadsOn(claim: Claim, d: Device, op: Op, r: Device, rest: seq<Op>, nr: nat, last: Claim, end: Device)
    requires Valid(d) && nr < AUDIO_CHANNELS_PAULA && ValidOp(op) && Keeps(claim, d, op, nr) && r == Apply(d, op)
    requires Leads(Next(claim, op, nr), r, rest, nr, last, end)
    ensures Leads(claim, d, [op] + rest, nr, last, end)
  {
    hide Apply, Keeps, Next, ValidOp;
    assert ([op] + rest)[1..] == rest;
  }

  lemma {:induction false} WordsKeep(claim: Claim, d: Device, nr: nat, word: int, t: seq<int>, preset: bool)
    returns (end: Device)
    requires Valid(d) && nr < AUDIO_CHANNELS_PAULA && 0 <= word < 0x10000 && Under(claim, d.env, nr)
    requires claim.Slow? && claim.len == claim.wlen == 1 && claim.count + |t| < PERIOD_MIN_LOOP_COUNT
    ensures Leads(claim, d, Words(nr, word, t, preset), nr, claim.(count := claim.count + |t|), end)
    ensures end.env == d.env
    decreases |t|
  {
    hide Apply, Keeps, Next, Stores, Under, Leads;
    if t == [] {
      end := d;
      LeadsNowhere(claim, d, nr);
    } else {
      var more, rest := claim.(count := claim.count + 1), Words(nr, word, t[1..], preset);
      var dat, event := WriteDat(nr, word), DataEvent(t[0], nr, word, true, preset);
      TimeCounts(claim, d, nr, word, t[0]);
      var r := Apply(d, Update(t[0]));
      TimeCounts(claim, r, nr, word, t[0]);
      var q := Apply(r, dat);
      WordCounts(claim, q, nr, word, t[0], preset);
      SameUnder(claim, more, d.env, nr);
      end := WordsKeep(more, Apply(q, event), nr, word, t[1..], preset);
      var last := claim.(count := claim.count + |t|);
      LeadsOn(claim, q, event, Apply(q, event), rest, nr, last, end);
      LeadsOn(claim, r, dat, q, [event] + rest, nr, last, end);
      LeadsOn(claim, d, Update(t[0]), r, [dat] + ([event] + rest), nr, last, end);
      assert Words(nr, word, t, preset) == [Update(t[0])] + ([dat] + ([event] + rest));
    }
  }

  /** Such a run cuts no word short. */
  lemma {:induction false} RepeatsUncut(claim: Claim, d: Device, ops: seq<Op>, nr: nat)
    requires Valid(d) && nr < AUDIO_CHANNELS_PAULA && forall i :: 0 <= i < |ops| ==> ValidOp(ops[i])
    requires claim.Slow? && Under(claim, d.env, nr) && Holds(claim, d.engine.ch[nr], d.engine.time)
    requires AllKeep(claim, d, ops, nr)
    ensures AllKeep(Timing, d, ops, nr)
    decreases |ops|
  {
    hide Apply, ValidOp, Holds, Under, Keeps, Next;
    if ops != [] {
      TimingStays(ops[0], nr);
      KeepsUnder(claim, d, ops[0], nr);
      SlowIsUncut(claim, d, ops[0], nr);
      ApplyHolds(claim, d, ops[0], nr);
      ApplyKeepsValid(d, ops[0]);
      UnderNext(claim, Apply(d, ops[0]).env, ops[0], nr);
      RepeatsUncut(Next(claim, ops[0], nr), Apply(d, ops[0]), ops[1..], nr);
    }
  }

  lemma TimingStays(op: Op, nr: nat)
    ensures Next(Timing, op, nr) == Timing
  {
  }

  lemma SlowIsUncut(claim: Claim, d: Device, op: Op, nr: nat)
    requires Valid(d) && ValidOp(op) && nr < AUDIO_CHANNELS_PAULA && claim.Slow?
    requires Under(claim, d.env, nr) && Holds(claim, d.engine.ch[nr], d.engine.time)
    requires |Apply(d, op).env.lines| == AUDIO_CHANNELS_PAULA && Under(claim, Apply(d, op).env, nr)
    ensures Keeps(Timing, d, op, nr) && Under(claim, Apply(d, op).env, nr)
  {
    hide Apply, HackTaken, Armed;
    StreamUncut(claim, d.env, d.engine.ch[nr], nr, d.engine.time);
  }

  lemma {:induction false} AllKeepJoined(claim: Claim, d: Device, before: seq<Op>, op: Op, nr: nat)
    requires Valid(d) && nr < AUDIO_CHANNELS_PAULA && forall i :: 0 <= i < |before| ==> ValidOp(before[i])
    requires ValidOp(op) && AllKeep(claim, d, before, nr)
    requires Valid(ApplyAll(d, before)) && Keeps(NextAll(claim, before, nr), ApplyAll(d, before), op, nr)
    ensures AllKeep(claim, d, before + [op], nr)
    ensures NextAll(claim, before + [op], nr) == Next(NextAll(claim, before, nr), op, nr)
    decreases |before|
  {
    hide Apply, ValidOp, Keeps, Next;
    var ops := before + [op];
    if before == [] {
      ApplyKeepsValid(d, op);
      assert ops[1..] == [];
      assert NextAll(Next(claim, op, nr), [], nr) == Next(claim, op, nr);
    } else {
      ApplyKeepsValid(d, before[0]);
      assert ops[1..] == before[1..] + [op];
      AllKeepJoined(Next(claim, before[0], nr), Apply(d, before[0]), before[1..], op, nr);
    }
  }

  /** Playing by DMA with the period raised. */
  ghost predicate Raised(d: Device, nr: nat)
    requires nr < AUDIO_CHANNELS_PAULA
  {
    && Valid(d) && Unattached(d.env, nr) && PeriodsUntouched(d.env, nr) && Enabled(d.env, nr)
    && var c := d.engine.ch[nr];
       && (c.state == 2 || c.state == 3) && c.dma.enaStore && Playback(c, d.engine.time)
       && c.per == RaisedPeriod(d.env)
  }

  /** The operations before the 64th word. */
  function BeforeLast(nr: nat, word: int, t: seq<int>, preset: bool): (ops: seq<Op>)
    requires nr < AUDIO_CHANNELS_PAULA && 0 <= word < 0x10000 && |t| > 0
    ensures forall k :: 0 <= k < |ops| ==> ValidOp(ops[k])
  {
    Words(nr, word, t[..|t| - 1], preset) + [Update(t[|t| - 1])] + [WriteDat(nr, word)]
  }

  lemma Regroup(ops: seq<Op>, a: Op, b: Op, c: Op)
    ensures ops + ([a] + ([b, c] + [])) == ops + [a] + [b] + [c]
  {
  }

  lemma WordsAre(nr: nat, word: int, t: seq<int>, preset: bool)
    requires nr < AUDIO_CHANNELS_PAULA && 0 <= word < 0x10000 && |t| > 0
    ensures Words(nr, word, t, preset) ==
            BeforeLast(nr, word, t, preset) + [DataEvent(t[|t| - 1], nr, word, true, preset)]
  {
    var init, last := t[..|t| - 1], t[|t| - 1];
    WordsJoined(nr, word, init, [last], preset);
    assert t == init + [last];
    var dat, event := WriteDat(nr, word), DataEvent(last, nr, word, true, preset);
    assert Words(nr, word, [last], preset) == [Update(last)] + ([dat, event] + []);
    Regroup(Words(nr, word, init, preset), Update(last), dat, event);
  }

  lemma BeforeLastKeeps(d: Device, nr: nat, word: int, t: seq<int>, preset: bool)
    requires nr < AUDIO_CHANNELS_PAULA && 0 <= word < 0x10000 && |t| == PERIOD_MIN_LOOP_COUNT
    requires Repeats(d, nr) && Counting(d.engine.ch[nr]) == Slow(d.engine.ch[nr].per, 0, 1, 1)
    ensures var claim, ops := Counting(d.engine.ch[nr]), BeforeLast(nr, word, t, preset);
            && AllKeep(claim, d, ops, nr) && NextAll(claim, ops, nr) == claim.(count := PERIOD_MIN_LOOP_COUNT - 1)
            && Valid(ApplyAll(d, ops)) && ApplyAll(d, ops).env == d.env
  {
    hide Apply, Keeps, Next, Under, Words;
    var claim, init, last := Counting(d.engine.ch[nr]), t[..|t| - 1], t[|t| - 1];
    var before := Words(nr, word, init, preset);
    var r := WordsKeep(claim, d, nr, word, init, preset);
    var more := claim.(count := |init|);
    SameUnder(claim, more, d.env, nr);
    TimeCounts(more, r, nr, word, last);
    AllKeepJoined(claim, d, before, Update(last), nr);
    ApplyJoined(d, before, [Update(last)]);
    ApplyOne(r, Update(last));
    var q := Apply(r, Update(last));
    TimeCounts(more, q, nr, word, last);
    AllKeepJoined(claim, d, before + [Update(last)], WriteDat(nr, word), nr);
    ApplyJoined(d, before + [Update(last)], [WriteDat(nr, word)]);
    ApplyOne(q, WriteDat(nr, word));
  }

  /** The 64th word comes to a channel that goes on playing. */
  lemma LastWord(claim: Claim, d: Device, nr: nat, word: int, t: int, preset: bool)
    requires Valid(d) && nr < AUDIO_CHANNELS_PAULA && 0 <= word < 0x10000
    requires claim.Slow? && claim.len == claim.wlen == 1 && claim.count == PERIOD_MIN_LOOP_COUNT - 1
    requires Under(claim, d.env, nr) && Holds(claim, d.engine.ch[nr], d.engine.time)
    ensures var op := DataEvent(t, nr, word, true, preset);
            && Stores(d, op, nr, claim.per) && Apply(d, op).env == d.env && Valid(Apply(d, op))
            && Apply(d, op).engine.time == d.engine.time && Next(claim, op, nr).count == PERIOD_MIN_LOOP_COUNT
            && Keeps(Timing, d, op, nr)
            && var c := Apply(d, op).engine.ch[nr]; (c.state == 2 || c.state == 3) && c.dma.enaStore
    ensures Unattached(d.env, nr) && PeriodsUntouched(d.env, nr) && Enabled(d.env, nr)
  {
    hide DataWhilePlaying, Armed, HackTaken, Keeps;
    var op := DataEvent(t, nr, word, true, preset);
    ApplyKeepsValid(d, op);
    WordGoesOn(d, op, nr);
    SlowIsUncut(claim, d, op, nr);
  }

  lemma WordGoesOn(d: Device, op: Op, nr: nat)
    requires Valid(d) && ValidOp(op) && nr < AUDIO_CHANNELS_PAULA && IsWord(op, nr)
    requires (d.engine.ch[nr].state == 2 || d.engine.ch[nr].state == 3) && d.engine.ch[nr].dma.enaStore
    ensures var r := Apply(d, op);
            && r.env == d.env && r.engine.time == d.engine.time && |r.engine.ch| == AUDIO_CHANNELS_PAULA
            && (r.engine.ch[nr].state == 2 || r.engine.ch[nr].state == 3) && r.engine.ch[nr].dma.enaStore
  {
    hide LowPeriodHack, Armed;
    var c := d.engine.ch[nr];
    HackPlays(d.env, d.env.lines[nr], c.(dma := WordFetched(c.dma, op.preset)));
  }

  lemma HackPlays(e: Env, l: Line, c: Channel)
    ensures LowPeriodHack(e, l, c).state == c.state && LowPeriodHack(e, l, c).dma.enaStore == c.dma.enaStore
  {
  }

  lemma TimingHolds(d: Device, ops: seq<Op>, nr: nat)
    requires Valid(d) && nr < AUDIO_CHANNELS_PAULA && forall i :: 0 <= i < |ops| ==> ValidOp(ops[i])
    requires Unattached(d.env, nr) && AllKeep(Timing, d, ops, nr) && Playback(d.engine.ch[nr], d.engine.time)
    ensures var r := ApplyAll(d, ops); Valid(r) && Playback(r.engine.ch[nr], r.engine.time)
  {
    hide Playback;
    EveryByteIsHeldForItsPeriod(d, ops, nr);
  }

  lemma TimingGoesOn(d: Device, op: Op, nr: nat)
    requires Valid(d) && ValidOp(op) && nr < AUDIO_CHANNELS_PAULA && Unattached(d.env, nr)
    requires Keeps(Timing, d, op, nr) && Playback(d.engine.ch[nr], d.engine.time)
    ensures var r := Apply(d, op); |r.engine.ch| == AUDIO_CHANNELS_PAULA && Playback(r.engine.ch[nr], r.engine.time)
  {
    hide Playback, Apply;
    ApplyHolds(Timing, d, op, nr);
  }

  lemma RaisedAtLast(d: Device, nr: nat, word: int, t: seq<int>, preset: bool)
    requires nr < AUDIO_CHANNELS_PAULA && 0 <= word < 0x10000 && |t| == PERIOD_MIN_LOOP_COUNT
    requires Repeats(d, nr) && Counting(d.engine.ch[nr]) == Slow(d.engine.ch[nr].per, 0, 1, 1)
    requires Playback(d.engine.ch[nr], d.engine.time)
    ensures var r := ApplyAll(d, Words(nr, word, t, preset)); Raised(r, nr) && r.env == d.env
  {
    hide Apply, ApplyAll, Keeps, Next, Under, Words, BeforeLast, AllKeep, Stores, Holds, Playback, NextAll;
    var claim, ops := Counting(d.engine.ch[nr]), BeforeLast(nr, word, t, preset);
    var op := DataEvent(t[|t| - 1], nr, word, true, preset);
    var r, more := ApplyAll(d, ops), claim.(count := PERIOD_MIN_LOOP_COUNT - 1);
    CountingHolds(d.engine.ch[nr], d.engine.time);
    BeforeLastKeeps(d, nr, word, t, preset);
    SameUnder(claim, more, d.env, nr);
    RunsHold(claim, d, ops, nr);
    LastWord(more, r, nr, word, t[|t| - 1], preset);
    SameUnder(more, claim, Apply(r, op).env, nr);
    RaisedExactlyWhen(d, ops, op, nr);
    RepeatsUncut(claim, d, ops, nr);
    TimingHolds(d, ops, nr);
    TimingGoesOn(r, op, nr);
    WordsAre(nr, word, t, preset);
    ApplyJoined(d, ops, [op]);
    ApplyOne(r, op);
  }

  lemma DmaUncut(d: Device, nr: nat, now: int)
    requires nr < AUDIO_CHANNELS_PAULA && Raised(d, nr)
    ensures Keeps(Timing, d, Update(now), nr)
    ensures Keeps(Fixed(d.engine.ch[nr].per, d.engine.ch[nr].log.bytes), d, Update(now), nr)
    ensures var c := d.engine.ch[nr].dma; Keeps(Stream(c.len, c.wlen), d, Update(now), nr)
  {
    hide UpdateAudio, Armed, Playback;
  }

  /** When the byte now playing is over, another one has begun, for the raised period. */
  lemma NextByteBegins(d: Device, nr: nat)
    requires nr < AUDIO_CHANNELS_PAULA && Raised(d, nr) && |d.engine.ch[nr].log.bytes| > 0
    ensures var c := d.engine.ch[nr];
            var f := Apply(d, Update(End(Latest(c)))).engine.ch[nr];
            && c.log.bytes <= f.log.bytes && |f.log.bytes| > |c.log.bytes|
            && f.log.bytes[|c.log.bytes|].hold == RaisedPeriod(d.env)
  {
    hide Apply, Armed, Playback, Keeps;
    var c := d.engine.ch[nr];
    var op := Update(End(Latest(c)));
    DmaUncut(d, nr, op.now);
    ApplyKeepsValid(d, op);
    FixedNow(c, d.engine.time);
    ApplyHolds(Timing, d, op, nr);
    ApplyHolds(Fixed(c.per, c.log.bytes), d, op, nr);
    ApplyHolds(Stream(c.dma.len, c.dma.wlen), d, op, nr);
    TimeReached(d, op.now);
    assert Armed(Apply(d, op).engine.ch[nr]);
    StillPlaying(c, Apply(d, op).engine.ch[nr], op.now);
  }

  lemma TimeReached(d: Device, now: int)
    requires Valid(d) && d.env.soundOn
    ensures Apply(d, Update(now)).engine.time >= now
  {
  }

  lemma StillPlaying(c: Channel, d: Channel, now: int)
    requires Armed(d) && |c.log.bytes| > 0 && c.log.bytes <= d.log.bytes && now == End(Latest(c))
    requires exists time :: time >= now && Playback(d, time)
    requires Playing(d)
    ensures |d.log.bytes| > |c.log.bytes|
  {
    hide Heard;
  }

  /** From reset, with DMA and a sample of one word, whatever the short period and whenever the words come:
      the period is the one written until the 64th word. */
  lemma ShortPeriodStays(e: Env, start: int, nr: nat, v: int, i: int, word: int, t0: int, t1: int, t: seq<int>,
                     preset: bool)
    requires ValidEnv(e) && nr < AUDIO_CHANNELS_PAULA && Unattached(e, nr) && PeriodsUntouched(e, nr)
    requires !Enabled(e, nr) && !e.lines[nr].intena && e.loopHack && 0 < v < 24
    requires 0 <= word < 0x10000 && start <= t0 <= t1 && |t| < 64
    ensures After(Looping(e, start, nr, v, i, word, t0, t1), Words(nr, word, t, preset), nr).per == v * 512
  {
    hide Apply, ApplyAll, Looping, Words, AllKeep, NextAll, Under, Holds, Armed;
    var d := Looping(e, start, nr, v, i, word, t0, t1);
    var claim, ops := Counting(d.engine.ch[nr]), Words(nr, word, t, preset);
    CountingHolds(d.engine.ch[nr], d.engine.time);
    var end := WordsKeep(claim, d, nr, word, t, preset);
    RunsHold(claim, d, ops, nr);
    HoldsCounting(NextAll(claim, ops, nr), ApplyAll(d, ops).engine.ch[nr], ApplyAll(d, ops).engine.time);
  }

  /** With that word it becomes 3 * maxhpos units, and the next byte is held so long. */
  lemma ShortPeriodIsRaised(e: Env, start: int, nr: nat, v: int, i: int, word: int, t0: int, t1: int, t: seq<int>,
                     preset: bool)
    requires ValidEnv(e) && nr < AUDIO_CHANNELS_PAULA && Unattached(e, nr) && PeriodsUntouched(e, nr)
    requires !Enabled(e, nr) && !e.lines[nr].intena && e.loopHack && 0 < v < 24
    requires 0 <= word < 0x10000 && start <= t0 <= t1 && |t| == 64
    ensures var d := Looping(e, start, nr, v, i, word, t0, t1);
            var c := After(d, Words(nr, word, t, preset), nr);
            && c.per == 3 * e.maxhpos * 512 && |c.log.bytes| > 0
            && var f := After(d, Words(nr, word, t, preset) + [Update(End(Latest(c)))], nr);
               && c.log.bytes <= f.log.bytes && |f.log.bytes| > |c.log.bytes|
               && f.log.bytes[|c.log.bytes|].hold == 3 * e.maxhpos * 512
  {
    hide Apply, ApplyAll, Looping, Words, Playback, Armed;
    var d := Looping(e, start, nr, v, i, word, t0, t1);
    RaisedAtLast(d, nr, word, t, preset);
    var r := ApplyAll(d, Words(nr, word, t, preset));
    SomethingHeard(r.engine.ch[nr], r.engine.time);
    NextByteBegins(r, nr);
    var op := Update(End(Latest(r.engine.ch[nr])));
    AfterJoined(d, Words(nr, word, t, preset), [op], nr);
    ApplyOne(r, op);
  }

  lemma SomethingHeard(c: Channel, time: int)
    requires Playback(c, time) && Playing(c)
    ensures |c.log.bytes| > 0
  {
    hide Heard;
  }

  /* ---------- Periods that stay ---------- */

  /** Every operation of a run that writes the channel's period stores `p`, and none attaches the channel or
      the one before it to another. */
  ghost predicate AllStore(d: Device, ops: seq<Op>, nr: nat, p: int)
    requires Valid(d) && nr < AUDIO_CHANNELS_PAULA && forall i :: 0 <= i < |ops| ==> ValidOp(ops[i])
    decreases |ops|
  {
    ops == [] ||
    (Stores(d, ops[0], nr, p) && LeavesFree(ops[0], nr) &&
     (ApplyKeepsValid(d, ops[0]); AllStore(Apply(d, ops[0]), ops[1..], nr, p)))
  }

  /** From 24 units up the hack never fires. */
  lemma LongPeriodsStay(d: Device, op: Op, nr: nat, past: seq<Played>)
    requires Valid(d) && ValidOp(op) && nr < AUDIO_CHANNELS_PAULA
    requires Unattached(d.env, nr) && PeriodsUntouched(d.env, nr) && LeavesFree(op, nr)
    requires d.engine.ch[nr].per >= PERIOD_MIN_LOOP * CYCLE_UNIT && Stores(d, op, nr, d.engine.ch[nr].per)
    ensures Keeps(Fixed(d.engine.ch[nr].per, past), d, op, nr) && KeepsPeriod(d, op, nr)
  {
    hide UpdateAudio, PollFrom, DataArrives, PerWritten, DatWritten, LowPeriodHack, Armed, Stores;
    StaysFree(d, op, nr);
  }

  lemma {:induction false} LongPeriodsKeep(d: Device, ops: seq<Op>, nr: nat, p: int, past: seq<Played>)
    requires Valid(d) && nr < AUDIO_CHANNELS_PAULA && forall i :: 0 <= i < |ops| ==> ValidOp(ops[i])
    requires Unattached(d.env, nr) && PeriodsUntouched(d.env, nr) && AllStore(d, ops, nr, p)
    requires d.engine.ch[nr].per == p >= PERIOD_MIN_LOOP * CYCLE_UNIT
    ensures AllKeep(Fixed(p, past), d, ops, nr)
    decreases |ops|
  {
    hide Apply, Stores, Keeps, KeepsPeriod, ValidOp, LeavesFree;
    if ops != [] {
      LongPeriodsStay(d, ops[0], nr, past);
      PeriodStaysExactlyWhen(d, ops[0], nr);
      ApplyKeepsValid(d, ops[0]);
      StaysFree(d, ops[0], nr);
      LongPeriodsKeep(Apply(d, ops[0]), ops[1..], nr, p, past);
    }
  }

  /** Over any run in which every write of the period stores `p`, at least 24 units, and no hack cuts a word
      short: every byte that begins is held exactly `p`, whatever the interrupts, preferences and vertical
      blanks. */
  lemma LongPeriodsAreExact(d: Device, ops: seq<Op>, nr: nat, p: int)
    requires Valid(d) && nr < AUDIO_CHANNELS_PAULA && forall i :: 0 <= i < |ops| ==> ValidOp(ops[i])
    requires Unattached(d.env, nr) && PeriodsUntouched(d.env, nr) && Playback(d.engine.ch[nr], d.engine.time)
    requires d.engine.ch[nr].per == p >= 24 * 512
    requires AllStore(d, ops, nr, p) && AllKeep(Timing, d, ops, nr)
    ensures var t := ApplyAll(d, ops);
            && Valid(t) && Playback(t.engine.ch[nr], t.engine.time)
            && d.engine.ch[nr].log.bytes <= t.engine.ch[nr].log.bytes
            && forall k :: |d.engine.ch[nr].log.bytes| <= k < |t.engine.ch[nr].log.bytes| ==>
                 t.engine.ch[nr].log.bytes[k].hold == p
  {
    hide Playback, Apply, AllStore, ValidOp, Keeps;
    LongPeriodsKeep(d, ops, nr, p, d.engine.ch[nr].log.bytes);
    WordsAreHeardInOrderAndInTime(d, ops, nr, p);
  }
}

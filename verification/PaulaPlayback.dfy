/** What a Paula channel plays, and for how long (src/core/audio.cpp): every word that reaches dat2 is
    heard as its high and then its low byte, each for exactly the period in force when it began, with
    DMA or without.  Here: one call of the state machine. */
module PaulaPlayback {
  import opened PaulaChannel
  import opened PaulaEngine
  import Blep

  predicate Playing(c: Channel) {
    c.state == 2 || c.state == 3 || c.state == 0x13
  }

  /** The `k`-th byte of a stream of words. */
  function ByteOf(words: seq<Load>, k: nat): int
    requires k / 2 < |words|
  {
    if k % 2 == 0 then words[k / 2].word / 256 % 256 else words[k / 2].word % 256
  }

  /** Byte `k` follows its predecessor without a pause in playback. */
  predicate Follows(words: seq<Load>, k: nat)
    requires k / 2 < |words|
  {
    k > 0 && (k % 2 == 1 || !words[k / 2].first)
  }

  /** When a byte's time is up. */
  function End(b: Played): int { b.time + b.hold }

  /** The bytes played are those of the loaded words, high byte first; each one that follows another
      came exactly when that one's period was up, and none came earlier. */
  ghost predicate Heard(words: seq<Load>, bytes: seq<Played>) {
    && |bytes| <= 2 * |words|
    && forall k :: 0 <= k < |bytes| ==>
         && bytes[k].byte == ByteOf(words, k) && bytes[k].hold >= CYCLE_UNIT
         && (k > 0 ==> bytes[k].time >= End(bytes[k - 1]))
         && (Follows(words, k) ==> bytes[k].time == End(bytes[k - 1]))
  }

  /** The word being played is the newest one. */
  predicate CurrentWord(c: Channel) {
    |c.log.words| > 0 && c.dma.dat2 == c.log.words[|c.log.words| - 1].word
  }

  /** The byte now playing, or the last one. */
  function Latest(c: Channel): Played
    requires |c.log.bytes| > 0
  {
    c.log.bytes[|c.log.bytes| - 1]
  }

  /** A period has been written since reset. */
  predicate PeriodSet(c: Channel) {
    CYCLE_UNIT <= c.per < PERIOD_MAX - 1
  }

  /** Everything loaded has been heard, except that state 2 still owes the low byte; the byte now
      playing will end when its period is up (state 0x13 stops one cycle unit early). */
  ghost predicate Playback(c: Channel, time: int) {
    && PeriodSet(c) && !c.pbufldl
    && Heard(c.log.words, c.log.bytes)
    && |c.log.bytes| == 2 * |c.log.words| - (if c.state == 2 then 1 else 0)
    && (if Playing(c) then
          && CurrentWord(c) && c.evtime != MAX_EV
          && time + c.evtime == End(Latest(c)) - (if c.state == 0x13 then CYCLE_UNIT else 0)
        else
          |c.log.bytes| > 0 ==> End(Latest(c)) <= time)
  }

  /** The conditions under which the promise is made: sound is on and the channel is not attached. */
  predicate Unattached(e: Env, nr: int)
    requires 0 <= nr < |e.lines|
  {
    e.soundOn && !e.lines[nr].attachVolume && !e.lines[nr].attachPeriod
  }

  /* ---------- Playing one byte ---------- */

  /** A word has just been loaded; if it follows another, that one ends now. */
  ghost predicate WordReady(c: Channel, time: int) {
    && PeriodSet(c) && c.pbufldl && c.state == 2
    && Heard(c.log.words, c.log.bytes) && CurrentWord(c) && |c.log.bytes| == 2 * |c.log.words| - 2
    && (|c.log.bytes| > 0 ==> End(Latest(c)) <= time)
    && (Follows(c.log.words, |c.log.bytes|) ==> End(Latest(c)) == time)
  }

  lemma HighBytePlays(l: Line, c: Channel, time: int)
    requires WordReady(c, time)
    ensures Playback(EnterHigh(l, c, time), time)
  {
    hide Heard;
    HighByteHeard(c.log.words, c.log.bytes, c.dma.dat2, time, c.per);
  }

  lemma HighByteHeard(words: seq<Load>, bytes: seq<Played>, word: int, time: int, per: int)
    requires Heard(words, bytes) && |words| > 0 && |bytes| == 2 * |words| - 2 && words[|words| - 1].word == word
    requires |bytes| > 0 ==> End(bytes[|bytes| - 1]) <= time
    requires Follows(words, |bytes|) ==> End(bytes[|bytes| - 1]) == time
    requires per >= CYCLE_UNIT
    ensures Heard(words, bytes + [Played(time, word / 256 % 256, per)])
  {
    hide Heard;
    MoreBytesHeard(words, bytes, Played(time, word / 256 % 256, per));
  }

  /** The high byte ends now. */
  ghost predicate LowReady(c: Channel, time: int) {
    && PeriodSet(c) && c.pbufldl && c.state == 3
    && Heard(c.log.words, c.log.bytes) && CurrentWord(c) && |c.log.bytes| == 2 * |c.log.words| - 1
    && End(Latest(c)) == time
  }

  lemma LowBytePlays(e: Env, l: Line, ena: bool, c: Channel, time: int)
    requires LowReady(c, time)
    ensures Playback(EnterLow(e, l, ena, c, time), time)
  {
    hide Heard;
    LowByteHeard(c.log.words, c.log.bytes, c.dma.dat2, time, c.per);
  }

  lemma LowByteHeard(words: seq<Load>, bytes: seq<Played>, word: int, time: int, per: int)
    requires Heard(words, bytes) && |bytes| == 2 * |words| - 1 && words[|words| - 1].word == word
    requires End(bytes[|bytes| - 1]) == time && per >= CYCLE_UNIT
    ensures Heard(words, bytes + [Played(time, word % 256, per)])
  {
    hide Heard;
    MoreBytesHeard(words, bytes, Played(time, word % 256, per));
  }

  /** One more byte of the words, at the right time. */
  lemma MoreBytesHeard(words: seq<Load>, bytes: seq<Played>, b: Played)
    requires Heard(words, bytes) && |bytes| < 2 * |words| && b.byte == ByteOf(words, |bytes|) && b.hold >= CYCLE_UNIT
    requires |bytes| > 0 ==> b.time >= End(bytes[|bytes| - 1])
    requires Follows(words, |bytes|) ==> b.time == End(bytes[|bytes| - 1])
    ensures Heard(words, bytes + [b])
  {
    hide ByteOf, Follows;
  }

  /** Loading a word into dat2. */
  lemma WordLoads(l: Line, c: Channel, nr: int, time: int, first: bool)
    requires !l.attachVolume && !l.attachPeriod
    requires PeriodSet(c) && Heard(c.log.words, c.log.bytes)
    requires |c.log.bytes| == 2 * |c.log.words| && (|c.log.bytes| > 0 ==> End(Latest(c)) <= time)
    requires !first ==> |c.log.bytes| > 0 && End(Latest(c)) == time
    ensures var d := LoadDat(l, c, nr, false, first).0.(pbufldl := true, state := 2); WordReady(d, time)
  {
    hide Heard;
    MoreWordsHeard(c.log.words, Load(c.dma.dat, first), c.log.bytes);
  }

  lemma MoreWordsHeard(words: seq<Load>, w: Load, bytes: seq<Played>)
    requires Heard(words, bytes)
    ensures Heard(words + [w], bytes)
  {
    var more := words + [w];
    forall k | 0 <= k < |bytes| ensures ByteOf(more, k) == ByteOf(words, k) && Follows(more, k) == Follows(words, k) {
      assert more[k / 2] == words[k / 2];
    }
  }

  /* ---------- Every transition keeps the promise ---------- */

  /** The two hacks: manual playback of a very short period is refused, and DMA that is switched off
      and on again during a word restarts the channel at once. */
  predicate ShortStartRefused(e: Env, l: Line, ena: bool, c: Channel) {
    e.hacks && c.state == 0 && !ena && c.dma.datWritten && !l.irq && c.per < 10 * CYCLE_UNIT
  }

  predicate ForcedRestart(e: Env, ena: bool, c: Channel) {
    e.hacks && Playing(c) && c.dma.offActive && !c.dma.enaStore && ena &&
    (e.jit || e.instructions - c.dma.offCount >= 60)
  }

  predicate HackTaken(e: Env, c: Channel, nr: int)
    requires 0 <= nr < |e.lines|
  {
    ShortStartRefused(e, e.lines[nr], Enabled(e, nr), c) || ForcedRestart(e, Enabled(e, nr), c)
  }

  lemma IdlePlays(e: Env, l: Line, ena: bool, c: Channel, nr: int, time: int)
    requires !ShortStartRefused(e, l, ena, c) && !l.attachVolume && !l.attachPeriod
    requires c.state == 0 && Playback(c, time)
    ensures Playback(Idle(e, l, ena, c, nr, time).0, time)
  {
    hide Heard, EnterHigh, LoadDat, SetDr;
    if !ena && c.dma.datWritten && !l.irq {
      var d := SetIrq(c.(state := 2), time);
      WordLoads(l, d, nr, time, true);
      HighBytePlays(l, LoadDat(l, d, nr, false, true).0.(pbufldl := true), time);
    }
  }

  lemma StartPlays(e: Env, ena: bool, c: Channel, time: int)
    requires c.state == 1 && Playback(c, time)
    ensures Playback(Start(e, ena, c, time), time)
  {
    hide Heard, SetDr;
  }

  lemma PrefetchPlays(e: Env, l: Line, ena: bool, c: Channel, nr: int, time: int)
    requires !l.attachVolume && !l.attachPeriod
    requires c.state == 5 && Playback(c, time)
    ensures Playback(Prefetch(e, l, ena, c, nr, time).0, time)
  {
    hide Heard, EnterHigh, LoadDat, SetDr;
    if ena && c.dma.datWritten {
      WordLoads(l, c, nr, time, true);
      HighBytePlays(l, FirstWord(e, l, c, nr, time).0, time);
    }
  }

  lemma HighEnds(e: Env, l: Line, ena: bool, c: Channel, nr: int, time: int)
    requires !l.attachVolume && !l.attachPeriod
    requires c.state == 2 && c.evtime == 0 && Playback(c, time)
    ensures Playback(LeaveHigh(e, l, ena, c, nr, time).0, time)
  {
    hide Heard, EnterLow;
    LowBytePlays(e, l, ena, HighDone(e, l, ena, c, nr, time).0, time);
  }

  lemma LowEnds(e: Env, l: Line, ena: bool, c: Channel, nr: int, time: int)
    requires !l.attachVolume && !l.attachPeriod
    requires c.state == 3 && c.evtime == 0 && Playback(c, time)
    ensures Playback(LeaveLow(e, l, ena, c, nr, time).0, time)
  {
    hide Heard, EnterHigh, LoadDat, SetDr;
    var d := if ena then c else ManualDone(l, c, time);
    if ena || d.dma.irqcheck <= 0 {
      WordLoads(l, d, nr, time, false);
      HighBytePlays(l, NextWord(e, l, ena, d, nr, time).0, time);
    }
  }

  lemma DmaCheckKeepsSound(e: Env, l: Line, ena: bool, c: Channel, time: int)
    requires Armed(c) || Due(c)
    requires !ForcedRestart(e, ena, c)
    ensures var d := DmaOffCheck(e, l, ena, c, time); SameSound(d, c) && d.dma.datWritten == c.dma.datWritten
  {
  }

  /** One call of audio_state_channel2, due or not. */
  lemma ServicePlays(e: Env, c: Channel, nr: int, time: int, perfin: bool)
    requires ValidEnv(e) && 0 <= nr < AUDIO_CHANNELS_PAULA && e.soundOn
    requires !e.lines[nr].attachVolume && !e.lines[nr].attachPeriod
    requires Armed(c) || Due(c)
    requires perfin ==> c.evtime == 0
    requires Playback(c, time) && !HackTaken(e, c, nr)
    ensures Playback(StateChannel2(e, c, nr, time, perfin).0, time)
  {
    hide Heard, Idle, Start, Prefetch, LeaveHigh, LeaveLow, DmaOffCheck;
    var l, ena := e.lines[nr], Enabled(e, nr);
    DmaCheckKeepsSound(e, l, ena, c, time);
    var d := DmaOffCheck(e, l, ena, c, time);
    assert Playback(d, time);
    if d.state == 0 { IdlePlays(e, l, ena, d, nr, time); }
    else if d.state == 1 { StartPlays(e, ena, d, time); }
    else if d.state == 5 { PrefetchPlays(e, l, ena, d, nr, time); }
    else if d.state == 2 && perfin { HighEnds(e, l, ena, d, nr, time); }
    else if d.state == 3 && perfin { LowEnds(e, l, ena, d, nr, time); }
  }

  lemma RefusedStartLosesByte(e: Env, l: Line, c: Channel, nr: int, time: int)
    requires !l.attachVolume && !l.attachPeriod && Playback(c, time) && ShortStartRefused(e, l, false, c)
    ensures !Playback(Idle(e, l, false, c, nr, time).0, time)
  {
    hide Heard;
  }

  /** From state 2 the low byte is played too early or not held, from state 3 it is played a second time. */
  lemma RestartBreaksWord(e: Env, l: Line, c: Channel, nr: int, time: int)
    requires (Armed(c) || Due(c)) && Playback(c, time) && ForcedRestart(e, true, c)
    ensures var d := DmaOffCheck(e, l, true, c, time);
            d.state == 0 && !Playback(Idle(e, l, true, d, nr, time).0, time)
  {
    hide SetDr;
    var d := DmaOffCheck(e, l, true, c, time);
    var n := |c.log.bytes|;
    assert d.log.bytes == c.log.bytes + [Played(time, c.dma.dat2 % 256, c.per)];
    if c.state == 2 && c.evtime > 0 {
      assert Follows(d.log.words, n);
      assert d.log.bytes[n].time != End(d.log.bytes[n - 1]);
      assert !Heard(d.log.words, d.log.bytes);
    }
  }

  /** For an unattached channel a call of the state machine, due or not, keeps the promise exactly when
      neither hack is taken. */
  lemma OnlyHacksBreakPlayback(e: Env, c: Channel, nr: int, time: int, perfin: bool)
    requires ValidEnv(e) && 0 <= nr < AUDIO_CHANNELS_PAULA && Unattached(e, nr)
    requires (if perfin then Due(c) else Armed(c)) && Playback(c, time)
    ensures Playback(StateChannel2(e, c, nr, time, perfin).0, time) <==> !HackTaken(e, c, nr)
  {
    hide Heard, Idle, DmaOffCheck;
    var l, ena := e.lines[nr], Enabled(e, nr);
    if !HackTaken(e, c, nr) {
      ServicePlays(e, c, nr, time, perfin);
    } else if ForcedRestart(e, ena, c) {
      RestartBreaksWord(e, l, c, nr, time);
    } else {
      DmaCheckKeepsSound(e, l, ena, c, time);
      RefusedStartLosesByte(e, l, DmaOffCheck(e, l, ena, c, time), nr, time);
    }
  }

  lemma TickKeepsPlayback(e: Env, l: Line, c: Channel, best: nat, time: int)
    requires Blep.ValidQueue(c.data.sinc) && Playback(c, time) && (c.evtime == MAX_EV || best <= c.evtime < MAX_EV)
    ensures Playback(Tick(e, l, c, best), time + best)
    ensures Playback(Drained(e, Tick(e, l, c, best)), time + best)
  {
    hide Heard;
  }

  /* ---------- What a call may start ---------- */

  /** Nothing new is heard; the level and the step queue stay. */
  predicate Quiet(c: Channel, d: Channel) {
    d.log.bytes == c.log.bytes && d.data.currentSample == c.data.currentSample && d.data.mixvol == c.data.mixvol &&
    d.data.sinc == c.data.sinc && d.data.history == c.data.history && d.data.audvol == c.data.audvol &&
    d.log.volumes == c.log.volumes
  }

  /** One byte begins now, for the period in force. */
  predicate Begins(c: Channel, d: Channel, time: int) {
    && |d.log.bytes| == |c.log.bytes| + 1 && d.log.bytes[..|c.log.bytes|] == c.log.bytes
    && d.log.bytes[|c.log.bytes|].time == time && d.log.bytes[|c.log.bytes|].hold == c.per
    && d.data.sinc == c.data.sinc && d.data.history == c.data.history && d.data.audvol == c.data.audvol
    && |d.log.volumes| == |c.log.volumes| + 1 && d.log.volumes[..|c.log.volumes|] == c.log.volumes
    && d.log.volumes[|c.log.volumes|].register == c.data.audvol
  }

  lemma EnteringBegins(e: Env, l: Line, ena: bool, b: Channel, c: Channel, time: int)
    requires Quiet(b, c) && c.per == b.per && c.pbufldl
    ensures Begins(b, EnterHigh(l, c, time), time)
    ensures Begins(b, EnterLow(e, l, ena, c, time), time)
  {
  }

  /** A call starts at most one byte, and without one the level stays; the period stays in any case. */
  lemma ServiceBegins(e: Env, c: Channel, nr: int, time: int, perfin: bool)
    requires 0 <= nr < |e.lines| && Unattached(e, nr) && !c.pbufldl && KnownState(c.state)
    ensures var d := StateChannel2(e, c, nr, time, perfin).0;
            d.per == c.per && (Quiet(c, d) || Begins(c, d, time))
  {
    hide DmaOffCheck, CutShort, SetDr, EnterHigh, EnterLow;
    var l, ena := e.lines[nr], Enabled(e, nr);
    var b := DmaOffCheck(e, l, ena, c, time);
    OffCheckBegins(e, l, ena, c, time);
    if !ForcedRestart(e, ena, c) {
      EnteringKeepsPeriod(e, l, ena, b, time);
      if b.state == 0 && !ena && b.dma.datWritten && !l.irq {
        var d := LoadDat(l, SetIrq(b.(state := 2), time), nr, false, true).0;
        CutShortBegins(e, l, c, d, time);
        EnteringBegins(e, l, ena, c, d.(pbufldl := true), time);
        EnteringKeepsPeriod(e, l, ena, d.(pbufldl := true), time);
      } else if b.state == 5 && ena && b.dma.datWritten {
        FirstWordReady(e, l, b, nr, time);
        EnteringAfterLoad(e, l, c, FirstWord(e, l, b, nr, time).0, time);
        EnteringKeepsPeriod(e, l, ena, FirstWord(e, l, b, nr, time).0, time);
      } else if b.state == 2 {
        var d := HighDone(e, l, ena, b, nr, time).0;
        EnteringBegins(e, l, ena, c, d, time);
        EnteringKeepsPeriod(e, l, ena, d, time);
      } else if b.state == 3 {
        var f := if ena then b else ManualDone(l, b, time);
        var d := NextWord(e, l, ena, f, nr, time).0;
        EnteringBegins(e, l, ena, c, d, time);
        EnteringKeepsPeriod(e, l, ena, d, time);
      }
    }
  }

  lemma CutShortBegins(e: Env, l: Line, b: Channel, c: Channel, time: int)
    requires Quiet(b, c) && c.per == b.per
    ensures Begins(b, CutShort(e, l, c, time), time) && CutShort(e, l, c, time).per == b.per
  {
  }

  /** The check itself starts a byte only when it forces a restart, and then the channel is idle. */
  lemma OffCheckBegins(e: Env, l: Line, ena: bool, c: Channel, time: int)
    requires KnownState(c.state)
    ensures var d := DmaOffCheck(e, l, ena, c, time);
            && d.per == c.per && d.pbufldl == c.pbufldl
            && if ForcedRestart(e, ena, c) then d.state == 0 && Begins(c, d, time) else Quiet(c, d)
  {
  }

  /** The first word of a DMA stream also sets the volume, just before its byte begins. */
  lemma FirstWordReady(e: Env, l: Line, c: Channel, nr: int, time: int)
    requires !l.attachVolume && !l.attachPeriod
    ensures var d := FirstWord(e, l, c, nr, time).0;
            d.log.bytes == c.log.bytes && d.per == c.per && d.pbufldl && d.data.sinc == c.data.sinc &&
            d.data.history == c.data.history && d.data.audvol == c.data.audvol && d.log.volumes == c.log.volumes
  {
  }

  lemma EnteringAfterLoad(e: Env, l: Line, b: Channel, c: Channel, time: int)
    requires c.log.bytes == b.log.bytes && c.per == b.per && c.pbufldl
    requires c.data.sinc == b.data.sinc && c.data.history == b.data.history
    requires c.data.audvol == b.data.audvol && c.log.volumes == b.log.volumes
    ensures Begins(b, EnterHigh(l, c, time), time)
  {
  }

  lemma EnteringKeepsPeriod(e: Env, l: Line, ena: bool, c: Channel, time: int)
    ensures EnterHigh(l, c, time).per == c.per && EnterLow(e, l, ena, c, time).per == c.per
    ensures !c.pbufldl ==> EnterHigh(l, c, time) == c && EnterLow(e, l, ena, c, time) == c
  {
  }

  /* ---------- After a call no hack is pending ---------- */

  /** The enable flag that a call leaves behind. */
  predicate EnaAfter(e: Env, c: Channel, nr: int)
    requires 0 <= nr < |e.lines|
  {
    Enabled(e, nr) && !ForcedRestart(e, Enabled(e, nr), c)
  }

  /** The hacks on the log are exactly those whose condition held before the call.  After it neither can be
      taken until a register or a preference changes or a new word is stored. */
  lemma ServiceSettles(e: Env, c: Channel, nr: int, time: int, perfin: bool)
    requires 0 <= nr < |e.lines| && e.soundOn && KnownState(c.state)
    ensures var (d, done, _) := StateChannel2(e, c, nr, time, perfin);
            && d.log.hacks == (if HackTaken(e, c, nr) then c.log.hacks + [time] else c.log.hacks)
            && d.dma.enaStore == EnaAfter(e, c, nr)
            && (ForcedRestart(e, Enabled(e, nr), c) ==> d.state == 1 && d.evtime == MAX_EV)
            && (d.state == 0 ==> done)
  {
    hide DmaOffCheck, Idle, Start, Prefetch, LeaveHigh, LeaveLow, EnterHigh, EnterLow, LastUnit;
    var l, ena := e.lines[nr], Enabled(e, nr);
    var b := DmaOffCheck(e, l, ena, c, time);
    OffCheckSettles(e, l, ena, c, time);
    if ForcedRestart(e, ena, c) {
      IdleSettles(e, l, ena, b, nr, time);
    } else {
      DispatchSettles(e, l, ena, b, nr, time, perfin);
    }
  }

  lemma DispatchSettles(e: Env, l: Line, ena: bool, c: Channel, nr: int, time: int, perfin: bool)
    requires c.dma.enaStore == ena
    ensures var (d, done, _) := Dispatch(e, l, ena, c, nr, time, perfin);
            && d.dma.enaStore == ena && (d.state == 0 ==> done)
            && d.log.hacks == if ShortStartRefused(e, l, ena, c) then c.log.hacks + [time] else c.log.hacks
  {
    hide Idle, Start, Prefetch, LeaveHigh, LeaveLow, EnterHigh, EnterLow, LastUnit;
    if c.state == 0 {
      IdleSettles(e, l, ena, c, nr, time);
    } else if c.state == 2 && perfin {
      LeaveHighSettles(e, l, ena, c, nr, time);
    } else if c.state == 3 && perfin {
      LeaveLowSettles(e, l, ena, c, nr, time);
    } else {
      StartSettles(e, l, ena, c, nr, time);
      EntersSettled(e, l, ena, c, time);
    }
  }

  /** Nothing cut short, and the enable flag kept. */
  predicate Uncut(c: Channel, d: Channel) {
    d.log.hacks == c.log.hacks && d.dma.enaStore == c.dma.enaStore
  }

  lemma OffCheckSettles(e: Env, l: Line, ena: bool, c: Channel, time: int)
    requires KnownState(c.state)
    ensures var d := DmaOffCheck(e, l, ena, c, time);
            if ForcedRestart(e, ena, c) then
              d.log.hacks == c.log.hacks + [time] && !d.dma.enaStore && d.state == 0
            else
              && d.log.hacks == c.log.hacks && d.dma.enaStore == ena && d.state == c.state
              && d.per == c.per && d.dma.datWritten == c.dma.datWritten
  {
  }

  lemma IdleSettles(e: Env, l: Line, ena: bool, c: Channel, nr: int, time: int)
    requires ena || !c.dma.enaStore
    ensures var d := Idle(e, l, ena, c, nr, time).0;
            && d.dma.enaStore == c.dma.enaStore
            && (ena ==> d.state == 1 && d.evtime == MAX_EV)
            && (c.state == 0 ==>
                  d.log.hacks == if ShortStartRefused(e, l, ena, c) then c.log.hacks + [time] else c.log.hacks)
  {
    hide LoadDat, SetDr, EnterHigh;
    var d := LoadDat(l, SetIrq(c.(state := 2), time), nr, false, true).0;
    EntersSettled(e, l, ena, d.(pbufldl := true), time);
    assert d.per == c.per;
  }

  lemma StartSettles(e: Env, l: Line, ena: bool, c: Channel, nr: int, time: int)
    requires c.dma.enaStore == ena
    ensures Uncut(c, Start(e, ena, c, time)) && Uncut(c, Prefetch(e, l, ena, c, nr, time).0)
    ensures Uncut(c, LastUnit(l, ena, c)) && LastUnit(l, ena, c).state == 3
  {
    hide LoadDat, SetDr, EnterHigh;
    EntersSettled(e, l, ena, FirstWord(e, l, c, nr, time).0, time);
  }

  lemma EntersSettled(e: Env, l: Line, ena: bool, c: Channel, time: int)
    ensures Uncut(c, EnterHigh(l, c, time)) && Uncut(c, EnterLow(e, l, ena, c, time))
  {
  }

  lemma LeaveHighSettles(e: Env, l: Line, ena: bool, b: Channel, nr: int, time: int)
    requires b.dma.enaStore == ena
    ensures Uncut(b, LeaveHigh(e, l, ena, EnterHigh(l, b, time), nr, time).0)
  {
    hide EnterHigh, EnterLow, LoadDat, SetDr, Reloaded;
    EntersSettled(e, l, ena, b, time);
    EntersSettled(e, l, ena, HighDone(e, l, ena, EnterHigh(l, b, time), nr, time).0, time);
  }

  lemma LeaveLowSettles(e: Env, l: Line, ena: bool, b: Channel, nr: int, time: int)
    requires b.dma.enaStore == ena
    ensures Uncut(b, LeaveLow(e, l, ena, EnterLow(e, l, ena, b, time), nr, time).0)
  {
    hide EnterHigh, EnterLow, LoadDat, SetDr, Reloaded, LateCheck;
    EntersSettled(e, l, ena, b, time);
    var d := EnterLow(e, l, ena, b, time);
    LateCheckUncut(l, d);
    var f := if ena then d else ManualDone(l, d, time);
    EntersSettled(e, l, ena, NextWord(e, l, ena, f, nr, time).0, time);
  }

  lemma LateCheckUncut(l: Line, c: Channel)
    ensures Uncut(c, LateCheck(l, c))
  {
  }
}

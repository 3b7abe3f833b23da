/** Claims about one Paula channel (src/core/audio.cpp), and why each call of the state machine and the
    loop of update_audio keep them. */
module PaulaClaims {
  import opened PaulaChannel
  import opened PaulaEngine
  import opened PaulaRegisters
  import opened PaulaPlayback
  import opened PaulaHistory
  import opened PaulaSound
  import Blep

  /** What a run keeps.  `Timing`: every byte is heard for its period.  `Fixed`: after the bytes `past`,
      that period is `per`.  `Stream`: a channel playing by DMA goes on doing so, its length counter changed
      by nothing but its words.  `Slow`: the same at period `per`, with the calls of the low period hack
      counted.  `Irqs`: the interrupts raised and the one still flagged for a reload add up to `count`.
      `Tuned`: the volume register is `register`, and was for every byte that began after those of `begun`.
      `Sounds`: the level is that of the byte last begun, and the history since `origin` tells no other.
      `Steps`: the step queue records changes of level 8 or more time units apart; `origin` is when the
      recording began.

      Two claims speak of a single call of update_audio.  `Waits`: the state machine has not been called
      since `base`, and will be when the time is `due`.  `Called`: once it has been, the log shows `hacks`
      words cut short and the enable flag is `on`. */
  datatype Claim =
    | Timing
    | Fixed(per: int, past: seq<Played>)
    | Stream(len: int, wlen: int)
    | Slow(per: int, count: int, len: int, wlen: int)
    | Irqs(count: int)
    | Tuned(register: int, begun: seq<Loudness>)
    | Sounds(origin: int)
    | Steps(origin: int)
    | Waits(base: Channel, due: int)
    | Called(due: int, hacks: nat, on: bool)

  predicate Lasting(claim: Claim) { !claim.Waits? && !claim.Called? }

  /** The level that the channel puts out while it is not attached. */
  function Amplitude(c: Channel): int { c.data.currentSample * c.data.mixvol }

  function LastChange(h: Blep.History): int
    requires h.changes != []
  {
    h.changes[|h.changes| - 1].at
  }

  /** Every change recorded so far came with a byte, and a change still to be recorded comes with the
      byte that begins now. */
  ghost predicate StepsSpaced(c: Channel, time: int, origin: int) {
    var h := c.data.history;
    && Playback(c, time)
    && Blep.Mirrors(c.data.sinc, h) && Blep.InOrder(h) && Blep.Spaced(h.changes)
    && h.now == time - origin >= 0 && (h.changes != [] ==> h.changes[0].at >= 0)
    && (h.changes != [] ==> |c.log.bytes| > 0 && LastChange(h) + origin <= Latest(c).time)
    && (Amplitude(c) != h.level ==>
          && |c.log.bytes| > 0 && Latest(c).time == time
          && (h.changes != [] ==> LastChange(h) + origin + 8 <= time))
  }

  /** The state machine has not touched the channel. */
  predicate Untouched(base: Channel, c: Channel) {
    && c.state == base.state && c.per == base.per && c.dma == base.dma && c.log == base.log
    && (c.evtime == MAX_EV <==> base.evtime == MAX_EV)
  }

  /** Interrupts raised, and the one that is flagged and will be at the end of the word. */
  function Announced(c: Channel): nat {
    |c.log.irqs| + if c.dma.intreq2 then 1 else 0
  }

  ghost predicate Holds(claim: Claim, c: Channel, time: int) {
    match claim
    case Timing => Playback(c, time)
    case Fixed(p, past) =>
      c.per == p && past <= c.log.bytes && forall k :: |past| <= k < |c.log.bytes| ==> c.log.bytes[k].hold == p
    case Stream(len, wlen) => Playing(c) && c.dma.len == len && c.dma.wlen == wlen
    case Slow(p, count, len, wlen) =>
      && (c.state == 2 || c.state == 3) && c.per == p && c.dma.enaStore
      && c.dma.minperloop == count && c.dma.len == len && c.dma.wlen == wlen
    case Irqs(count) => Playing(c) && Announced(c) == count
    case Tuned(register, begun) =>
      && c.data.audvol == register && begun <= c.log.volumes
      && forall k :: |begun| <= k < |c.log.volumes| ==> c.log.volumes[k].register == register
    case Sounds(origin) =>
      && Playback(c, time) && IsLoud(c) && Echoed(c.data.history, c.log.bytes, c.log.volumes, time, origin)
    case Steps(origin) => StepsSpaced(c, time, origin)
    case Waits(base, due) => Untouched(base, c) && (c.evtime != MAX_EV ==> time + c.evtime == due)
    case Called(_, _, _) => true
  }

  predicate PeriodsUntouched(e: Env, nr: int)
    requires 0 <= nr < |e.lines|
  {
    nr > 0 ==> !e.lines[nr - 1].attachPeriod
  }

  predicate VolumesUntouched(e: Env, nr: int)
    requires 0 <= nr < |e.lines|
  {
    nr > 0 ==> !e.lines[nr - 1].attachVolume
  }

  /** The registers and preferences under which a claim is made. */
  predicate Under(claim: Claim, e: Env, nr: int)
    requires 0 <= nr < |e.lines|
  {
    && Unattached(e, nr)
    && match claim
       case Timing => true
       case Fixed(_, _) => PeriodsUntouched(e, nr)
       case Stream(_, _) => Enabled(e, nr)
       case Slow(p, _, _, _) =>
         && PeriodsUntouched(e, nr) && Enabled(e, nr) && !e.lines[nr].intena && e.loopHack
         && p < PERIOD_MIN_LOOP * CYCLE_UNIT
       case Irqs(_) => Enabled(e, nr)
       case Tuned(_, _) => VolumesUntouched(e, nr)
       case Sounds(_) => e.output && e.lines[nr].audible
       case Steps(_) => e.output && e.interpolation.Sinc?
       case Waits(_, _) => PeriodsUntouched(e, nr)
       case Called(_, _, _) => PeriodsUntouched(e, nr)
  }

  /* ---------- Hacks that may come ---------- */

  /** The next call of the state machine takes one of the two hacks.  While the channel before modulates the
      period, any period counts as short. */
  predicate Hackable(e: Env, c: Channel, nr: int)
    requires 0 <= nr < |e.lines|
  {
    HackTaken(e, if PeriodsUntouched(e, nr) then c else c.(per := CYCLE_UNIT), nr)
  }

  /** The channel's own time does not come within the next `left` time units. */
  predicate Unreached(c: Channel, left: int) {
    c.evtime == MAX_EV || left < c.evtime
  }

  /** With `left` time units to go, and a poll after them if `polled`: what the claim asks of the channel so
      that no hack comes in between; for the claims about a single call, where that call stands. */
  predicate Calm(claim: Claim, e: Env, nr: int, c: Channel, time: int, left: int, polled: bool)
    requires 0 <= nr < |e.lines|
  {
    match claim
    case Fixed(_, _) => true
    case Slow(_, _, _, _) => true
    case Tuned(_, _) => true
    case Waits(_, _) => !polled && Unreached(c, left)
    case Called(due, hacks, on) =>
      !polled &&
      (|| (&& c.evtime != MAX_EV && time + c.evtime == due
           && hacks == |c.log.hacks| + (if HackTaken(e, c, nr) then 1 else 0) && on == EnaAfter(e, c, nr))
       || (&& |c.log.hacks| == hacks && c.dma.enaStore == on && !HackTaken(e, c, nr)
           && (on == Enabled(e, nr) || c.evtime == MAX_EV)))
    case Timing => !Hackable(e, c, nr) || (!polled && Unreached(c, left))
    case Stream(_, _) => !Hackable(e, c, nr) || (!polled && Unreached(c, left))
    case Irqs(_) => !Hackable(e, c, nr) || (!polled && Unreached(c, left))
    case Sounds(_) => !Hackable(e, c, nr) || (!polled && Unreached(c, left))
    case Steps(_) => !Hackable(e, c, nr) || (!polled && Unreached(c, left))
  }

  /* ---------- One call, one wait, one change ---------- */

  /** With DMA a playing channel goes on playing, unless a restart is pending. */
  lemma ServiceStreams(e: Env, c: Channel, nr: int, time: int, perfin: bool)
    requires 0 <= nr < |e.lines| && Unattached(e, nr) && Enabled(e, nr) && Playing(c) && !ForcedRestart(e, true, c)
    ensures var d := StateChannel2(e, c, nr, time, perfin).0;
            Playing(d) && SameCounter(d, c) && (c.state != 0x13 ==> d.state != 0x13)
  {
    hide EnterHigh, EnterLow, DmaOffCheck, HighDone, NextWord, Idle, Start, Prefetch, ManualDone;
    var l, b := e.lines[nr], DmaOffCheck(e, e.lines[nr], true, c, time);
    CheckStreams(e, l, c, nr, time);
    EnteringStreams(e, l, b, time);
    var high, low := EnterHigh(l, b, time), EnterLow(e, l, true, b, time);
    WordsStream(e, l, high, nr, time);
    WordsStream(e, l, low, nr, time);
    EnteringStreams(e, l, HighDone(e, l, true, high, nr, time).0, time);
    EnteringStreams(e, l, NextWord(e, l, true, low, nr, time).0, time);
  }

  lemma CheckStreams(e: Env, l: Line, c: Channel, nr: int, time: int)
    requires Playing(c) && !ForcedRestart(e, true, c)
    ensures var d := DmaOffCheck(e, l, true, c, time); d.state == c.state && SameCounter(d, c)
  {
  }

  lemma WordsStream(e: Env, l: Line, c: Channel, nr: int, time: int)
    ensures var d := HighDone(e, l, true, c, nr, time).0; d.state == 3 && SameCounter(d, c)
    ensures var d := NextWord(e, l, true, c, nr, time).0; d.state == 2 && SameCounter(d, c)
  {
    hide SetDr, LoadDat, Reloaded;
  }

  lemma EnteringStreams(e: Env, l: Line, c: Channel, time: int)
    ensures EnterHigh(l, c, time).state == c.state && EnterHigh(l, c, time).dma == c.dma
    ensures EnterLow(e, l, true, c, time).state == c.state && EnterLow(e, l, true, c, time).dma == c.dma
  {
  }

  /** With DMA, a call raises the interrupt that is flagged, or none. */
  lemma ServiceIrqs(e: Env, c: Channel, nr: int, time: int, perfin: bool)
    requires 0 <= nr < |e.lines| && Unattached(e, nr) && Enabled(e, nr) && Playing(c) && !ForcedRestart(e, true, c)
    ensures Announced(StateChannel2(e, c, nr, time, perfin).0) == Announced(c)
  {
    hide EnterHigh, EnterLow, DmaOffCheck, HighDone, NextWord, Idle, Start, Prefetch, ManualDone, Announced;
    var l, b := e.lines[nr], DmaOffCheck(e, e.lines[nr], true, c, time);
    CheckRaisesNothing(e, l, c, time);
    EnteringRaisesNothing(e, l, b, time);
    var high, low := EnterHigh(l, b, time), EnterLow(e, l, true, b, time);
    WordsAnnounce(e, l, high, nr, time);
    WordsAnnounce(e, l, low, nr, time);
    EnteringRaisesNothing(e, l, HighDone(e, l, true, high, nr, time).0, time);
    EnteringRaisesNothing(e, l, NextWord(e, l, true, low, nr, time).0, time);
    LastUnitRaisesNothing(l, b);
  }

  lemma CheckRaisesNothing(e: Env, l: Line, c: Channel, time: int)
    requires Playing(c) && !ForcedRestart(e, true, c)
    ensures var d := DmaOffCheck(e, l, true, c, time); d.state == c.state && Announced(d) == Announced(c)
  {
  }

  lemma EnteringRaisesNothing(e: Env, l: Line, c: Channel, time: int)
    ensures EnterHigh(l, c, time).state == c.state && Announced(EnterHigh(l, c, time)) == Announced(c)
    ensures Announced(EnterLow(e, l, true, c, time)) == Announced(c)
  {
  }

  lemma LastUnitRaisesNothing(l: Line, c: Channel)
    ensures Announced(LastUnit(l, true, c)) == Announced(c)
  {
  }

  lemma WordsAnnounce(e: Env, l: Line, c: Channel, nr: int, time: int)
    requires !l.attachVolume && !l.attachPeriod
    ensures Announced(HighDone(e, l, true, c, nr, time).0) == Announced(c)
    ensures Announced(NextWord(e, l, true, c, nr, time).0) == Announced(c)
  {
    hide SetDr, LoadDat;
  }

  lemma ServiceSteps(e: Env, c: Channel, nr: int, time: int, perfin: bool, origin: int)
    requires ValidEnv(e) && 0 <= nr < AUDIO_CHANNELS_PAULA && Unattached(e, nr) && (Armed(c) || Due(c))
    requires (perfin ==> c.evtime == 0) && StepsSpaced(c, time, origin) && !HackTaken(e, c, nr)
    ensures StepsSpaced(StateChannel2(e, c, nr, time, perfin).0, time, origin)
  {
    hide StateChannel2, Armed, Due, Playback, HackTaken;
    NotPending(c);
    ServicePlays(e, c, nr, time, perfin);
    ServiceBegins(e, c, nr, time, perfin);
    StepsAfterService(c, StateChannel2(e, c, nr, time, perfin).0, time, origin);
  }

  lemma StepsAfterService(c: Channel, d: Channel, time: int, origin: int)
    requires StepsSpaced(c, time, origin) && Playback(d, time) && (Quiet(c, d) || Begins(c, d, time))
    ensures StepsSpaced(d, time, origin)
  {
    hide Blep.Mirrors, Blep.InOrder, Blep.Spaced;
    if Begins(c, d, time) && |c.log.bytes| > 0 { NextAfterEnd(c, d, time); }
    hide Playback;
  }

  lemma NextAfterEnd(c: Channel, d: Channel, time: int)
    requires Playback(d, time) && Begins(c, d, time) && |c.log.bytes| > 0
    ensures Latest(c).time + CYCLE_UNIT <= time
  {
    var n := |c.log.bytes|;
    assert d.log.bytes[n - 1] == c.log.bytes[n - 1];
    assert d.log.bytes[n].time >= End(d.log.bytes[n - 1]);
  }

  lemma NotPending(c: Channel)
    ensures Armed(c) || Due(c) ==> !c.pbufldl && KnownState(c.state)
  {
  }

  /** The record after a call, as audio_state_channel leaves it. */
  function Served(e: Env, c: Channel, nr: int, time: int, perfin: bool): Channel
    requires 0 <= nr < |e.lines|
  {
    var (d, done, _) := StateChannel2(e, c, nr, time, perfin);
    if done then d.(dma := d.dma.(datWritten := false)) else d
  }

  lemma HackableCovers(e: Env, c: Channel, nr: int)
    requires 0 <= nr < |e.lines|
    ensures HackTaken(e, c, nr) ==> Hackable(e, c, nr)
    ensures PeriodsUntouched(e, nr) ==> Hackable(e, c, nr) == HackTaken(e, c, nr)
  {
  }

  /** After a call none is pending. */
  lemma ServedSettles(e: Env, c: Channel, nr: int, time: int, perfin: bool)
    requires 0 <= nr < |e.lines| && e.soundOn && KnownState(c.state)
    ensures var d := Served(e, c, nr, time, perfin);
            && !Hackable(e, d, nr) && !HackTaken(e, d, nr)
            && |d.log.hacks| == |c.log.hacks| + (if HackTaken(e, c, nr) then 1 else 0)
            && d.dma.enaStore == EnaAfter(e, c, nr)
            && (ForcedRestart(e, Enabled(e, nr), c) ==> d.evtime == MAX_EV)
  {
    hide StateChannel2, ShortStartRefused;
    ServiceSettles(e, c, nr, time, perfin);
    WrittenFirst(e, Served(e, c, nr, time, perfin), nr);
  }

  lemma WrittenFirst(e: Env, c: Channel, nr: int)
    requires 0 <= nr < |e.lines|
    ensures !c.dma.datWritten || c.state != 0 ==> !ShortStartRefused(e, e.lines[nr], Enabled(e, nr), c)
    ensures !c.dma.datWritten || c.state != 0 ==>
              !ShortStartRefused(e, e.lines[nr], Enabled(e, nr), c.(per := CYCLE_UNIT))
  {
  }

  /** One call keeps every claim. */
  lemma ServiceHolds(claim: Claim, e: Env, c: Channel, nr: int, time: int, perfin: bool)
    requires ValidEnv(e) && 0 <= nr < AUDIO_CHANNELS_PAULA && Under(claim, e, nr) && (Armed(c) || Due(c))
    requires (perfin ==> c.evtime == 0) && Holds(claim, c, time) && Lasting(claim)
    requires claim.Fixed? || claim.Tuned? || !HackTaken(e, c, nr)
    ensures Holds(claim, StateChannel2(e, c, nr, time, perfin).0, time)
  {
    hide StateChannel2, Playback, StepsSpaced, Armed, Due, HackTaken, Loud, Echoed;
    NotPending(c);
    match claim
    case Timing => ServicePlays(e, c, nr, time, perfin);
    case Fixed(_, _) => ServiceBegins(e, c, nr, time, perfin);
    case Stream(_, _) => RestartIsHack(e, c, nr); ServiceStreams(e, c, nr, time, perfin);
    case Slow(_, _, _, _) =>
      RestartIsHack(e, c, nr);
      ServiceStreams(e, c, nr, time, perfin);
      ServiceBegins(e, c, nr, time, perfin);
      ServiceSettles(e, c, nr, time, perfin);
    case Irqs(_) =>
      RestartIsHack(e, c, nr);
      ServiceStreams(e, c, nr, time, perfin);
      ServiceIrqs(e, c, nr, time, perfin);
    case Tuned(_, _) => ServiceBegins(e, c, nr, time, perfin);
    case Sounds(origin) =>
      ServicePlays(e, c, nr, time, perfin);
      ServiceIsLoud(e, c, nr, time, perfin);
      ServiceBegins(e, c, nr, time, perfin);
      ServiceEchoes(c, StateChannel2(e, c, nr, time, perfin).0, time, origin);
    case Steps(origin) => ServiceSteps(e, c, nr, time, perfin, origin);
  }

  lemma RestartIsHack(e: Env, c: Channel, nr: int)
    requires 0 <= nr < |e.lines| && !HackTaken(e, c, nr)
    ensures !ForcedRestart(e, Enabled(e, nr), c)
  {
  }

  /** With the flag cleared, and with the conditions for the calls to come. */
  lemma ServedHolds(claim: Claim, e: Env, c: Channel, nr: int, time: int, perfin: bool, left: int, polled: bool)
    requires ValidEnv(e) && 0 <= nr < AUDIO_CHANNELS_PAULA && Under(claim, e, nr)
    requires if perfin then Due(c) && left >= 0 else Armed(c) && polled
    requires Holds(claim, c, time) && Calm(claim, e, nr, c, time, left, polled)
    ensures var d := Served(e, c, nr, time, perfin);
            Holds(claim, d, time) && Calm(claim, e, nr, d, time, left, polled)
  {
    hide StateChannel2, Hackable, HackTaken, EnaAfter, Armed;
    DueNow(c);
    NotPending(c);
    HackableCovers(e, c, nr);
    ServedSettles(e, c, nr, time, perfin);
    if Lasting(claim) {
      StreamUncut(claim, e, c, nr, time);
      hide Holds, Under, Served;
      ServiceHolds(claim, e, c, nr, time, perfin);
      FlagHolds(claim, e, c, nr, time, perfin);
    } else {
      hide Served;
      NoRestart(e, c, nr);
    }
  }

  /** A channel that plays by DMA and knows that DMA is on. */
  lemma StreamUncut(claim: Claim, e: Env, c: Channel, nr: int, time: int)
    requires 0 <= nr < |e.lines| && Under(claim, e, nr) && Holds(claim, c, time)
    ensures claim.Slow? ==> !HackTaken(e, c, nr)
  {
  }

  lemma DueNow(c: Channel)
    ensures Due(c) ==> c.evtime == 0
  {
  }

  lemma NoRestart(e: Env, c: Channel, nr: int)
    requires 0 <= nr < |e.lines|
    ensures !HackTaken(e, c, nr) ==> EnaAfter(e, c, nr) == Enabled(e, nr)
    ensures EnaAfter(e, c, nr) != Enabled(e, nr) ==> ForcedRestart(e, Enabled(e, nr), c)
  {
  }

  lemma FlagHolds(claim: Claim, e: Env, c: Channel, nr: int, time: int, perfin: bool)
    requires 0 <= nr < |e.lines| && Lasting(claim) && Holds(claim, StateChannel2(e, c, nr, time, perfin).0, time)
    ensures Holds(claim, Served(e, c, nr, time, perfin), time)
  {
    hide Holds, StateChannel2;
    AlikeHolds(claim, StateChannel2(e, c, nr, time, perfin).0, Served(e, c, nr, time, perfin), time);
  }

  /** A wait records the level, which may have changed when it began. */
  lemma TickSteps(e: Env, l: Line, c: Channel, best: nat, time: int, origin: int)
    requires !l.attachVolume && !l.attachPeriod && e.output && e.interpolation.Sinc?
    requires Blep.ValidQueue(c.data.sinc) && StepsSpaced(c, time, origin)
    requires c.evtime == MAX_EV || best <= c.evtime < MAX_EV
    ensures StepsSpaced(Tick(e, l, c, best), time + best, origin)
    ensures Amplitude(c) == Tick(e, l, c, best).data.history.level
  {
    hide Blep.Mirrors, Blep.InOrder, Blep.Spaced, Playback, Blep.Prehandler;
    TickKeepsPlayback(e, l, c, best, time);
    var h := c.data.history;
    Blep.RecordMirrors(c.data.sinc, h, Blep.Call(Amplitude(c), best));
    if Amplitude(c) != h.level { ChangeSpaced(h, Amplitude(c)); }
  }

  lemma ChangeSpaced(h: Blep.History, level: int)
    requires Blep.Spaced(h.changes) && (h.changes != [] ==> LastChange(h) + 8 <= h.now)
    ensures Blep.Spaced(Blep.Changed(h, level).changes)
  {
  }

  /** What a wait leaves alone, and what it records. */
  lemma WaitRecords(e: Env, l: Line, c: Channel, best: nat)
    requires Blep.ValidQueue(c.data.sinc)
    ensures var d := Tick(e, l, c, best).data;
            && d.audvol == c.data.audvol && d.currentSample == c.data.currentSample && d.mixvol == c.data.mixvol
            && (e.output ==> d.history == Blep.Record(c.data.history, Blep.Call(Level(l, c.data), best)))
  {
  }

  lemma WaitIsLoud(c: Channel, d: Channel)
    requires c.state == d.state && c.log == d.log
    requires c.data.currentSample == d.data.currentSample && c.data.mixvol == d.data.mixvol
    ensures IsLoud(c) ==> IsLoud(d)
  {
  }

  lemma TickHolds(claim: Claim, e: Env, nr: int, c: Channel, best: nat, time: int)
    requires 0 <= nr < |e.lines| && Under(claim, e, nr) && Blep.ValidQueue(c.data.sinc) && Holds(claim, c, time)
    requires best >= 1 && (c.evtime == MAX_EV || best <= c.evtime < MAX_EV)
    ensures Holds(claim, Tick(e, e.lines[nr], c, best), time + best)
    ensures Holds(claim, Drained(e, Tick(e, e.lines[nr], c, best)), time + best)
  {
    hide Playback, StepsSpaced, Prehandle, Loud, Echoed;
    WaitRecords(e, e.lines[nr], c, best);
    match claim
    case Timing => TickKeepsPlayback(e, e.lines[nr], c, best, time);
    case Fixed(_, _) =>
    case Stream(_, _) =>
    case Slow(_, _, _, _) =>
    case Irqs(_) =>
    case Tuned(_, _) =>
    case Sounds(origin) =>
      TickKeepsPlayback(e, e.lines[nr], c, best, time);
      WaitEchoes(c.data.history, c, best, time, origin);
      WaitIsLoud(c, Tick(e, e.lines[nr], c, best));
      WaitIsLoud(c, Drained(e, Tick(e, e.lines[nr], c, best)));
    case Steps(origin) => TickSteps(e, e.lines[nr], c, best, time, origin);
    case Waits(_, _) =>
    case Called(_, _, _) =>
  }

  lemma TickCalm(claim: Claim, e: Env, nr: int, c: Channel, best: nat, time: int, left: int, polled: bool)
    requires 0 <= nr < |e.lines| && Blep.ValidQueue(c.data.sinc) && Calm(claim, e, nr, c, time, left, polled)
    requires c.evtime == MAX_EV || best <= c.evtime < MAX_EV
    ensures var d := Tick(e, e.lines[nr], c, best);
            && Calm(claim, e, nr, d, time + best, left - best, polled)
            && Calm(claim, e, nr, Drained(e, d), time + best, left - best, polled)
  {
    hide Prehandle, Hackable, HackTaken, EnaAfter;
    var d := Tick(e, e.lines[nr], c, best);
    SameOutlook(e, nr, c, d);
    SameOutlook(e, nr, c, Drained(e, d));
  }

  /** What the hacks look at. */
  lemma SameOutlook(e: Env, nr: int, c: Channel, d: Channel)
    requires 0 <= nr < |e.lines| && c.state == d.state && c.dma == d.dma
    requires c.per == d.per || !PeriodsUntouched(e, nr)
    ensures Hackable(e, c, nr) == Hackable(e, d, nr)
    ensures c.per == d.per ==> HackTaken(e, c, nr) == HackTaken(e, d, nr)
    ensures EnaAfter(e, c, nr) == EnaAfter(e, d, nr)
  {
  }

  /** Equal in everything a claim over a run speaks of. */
  predicate Alike(c: Channel, d: Channel) {
    && c.evtime == d.evtime && c.state == d.state && c.per == d.per && c.pbufldl == d.pbufldl
    && c.dma.dat2 == d.dma.dat2 && c.dma.enaStore == d.dma.enaStore && SameCounter(c, d)
    && c.data.(audvol := 0) == d.data.(audvol := 0)
    && c.log.words == d.log.words && c.log.bytes == d.log.bytes && c.log.volumes == d.log.volumes
  }

  lemma AlikeHolds(claim: Claim, c: Channel, d: Channel, time: int)
    requires Alike(c, d) && Holds(claim, c, time) && Lasting(claim)
    requires claim.Irqs? ==> Announced(d) == Announced(c)
    requires claim.Tuned? ==> d.data.audvol == c.data.audvol
    ensures Holds(claim, d, time)
  {
    hide Heard, Blep.Mirrors, Blep.InOrder, Blep.Spaced, Echoed;
  }

  /** The claim says nothing against this period. */
  predicate Allows(claim: Claim, per: int) {
    (claim.Fixed? ==> claim.per == per) && (claim.Slow? ==> claim.per == per) && Lasting(claim)
  }

  /** A new period takes effect with the next byte. */
  lemma PeriodHolds(claim: Claim, c: Channel, per: int, time: int)
    requires Holds(claim, c, time) && CYCLE_UNIT <= per < PERIOD_MAX - 1 && Allows(claim, per)
    ensures Holds(claim, c.(per := per), time)
  {
    hide Heard, Blep.Mirrors, Blep.InOrder, Blep.Spaced, Echoed;
  }

  /** The channel before this one changes its period or volume only while it is attached to it. */
  predicate Expected(e: Env, nr: int, m: Modulation)
    requires 0 <= nr < |e.lines|
  {
    (m.Period? ==> !PeriodsUntouched(e, nr)) && (m.Volume? ==> !VolumesUntouched(e, nr))
  }

  lemma ModulateHolds(claim: Claim, e: Env, nr: int, c: Channel, m: Modulation, time: int, left: int, polled: bool)
    requires 0 <= nr < |e.lines| && Under(claim, e, nr) && GoodModulation(m) && Expected(e, nr, m)
    requires Holds(claim, c, time) && Calm(claim, e, nr, c, time, left, polled)
    ensures Holds(claim, Modulate(c, m), time) && Calm(claim, e, nr, Modulate(c, m), time, left, polled)
  {
    hide Hackable, HackTaken, EnaAfter, Playback, StepsSpaced;
    SameOutlook(e, nr, c, Modulate(c, m));
    match m
    case NoModulation =>
    case Period(p) => PeriodHolds(claim, c, p, time);
    case Volume(v) => if Lasting(claim) { AlikeHolds(claim, c, Modulate(c, m), time); }
  }

  lemma OnlyAttachedModulate(e: Env, c: Channel, nr: int, time: int, perfin: bool)
    requires 0 <= nr < |e.lines| && !e.lines[nr].attachPeriod
    ensures !StateChannel2(e, c, nr, time, perfin).2.Period?
  {
    hide DmaOffCheck, EnterHigh, EnterLow, Start, SetDr, ManualDone;
  }

  lemma OnlyAttachedLouder(e: Env, c: Channel, nr: int, time: int, perfin: bool)
    requires 0 <= nr < |e.lines| && !e.lines[nr].attachVolume
    ensures !StateChannel2(e, c, nr, time, perfin).2.Volume?
  {
    hide DmaOffCheck, EnterHigh, EnterLow, Start, SetDr, ManualDone;
  }

  lemma ServiceModulates(e: Env, c: Channel, nr: int, time: int, perfin: bool)
    requires ValidEnv(e) && 0 <= nr < AUDIO_CHANNELS_PAULA && (if perfin then Due(c) else Armed(c))
    ensures GoodModulation(StateChannel2(e, c, nr, time, perfin).2)
    ensures nr + 1 < AUDIO_CHANNELS_PAULA ==> Expected(e, nr + 1, StateChannel2(e, c, nr, time, perfin).2)
  {
    hide StateChannel2;
    ServiceArms(e, c, nr, time, perfin);
    if !e.lines[nr].attachPeriod { OnlyAttachedModulate(e, c, nr, time, perfin); }
    if !e.lines[nr].attachVolume { OnlyAttachedLouder(e, c, nr, time, perfin); }
  }

  /* ---------- Passes and runs ---------- */

  /** Serving channel `j` keeps the claim about channel `nr`. */
  lemma ServeHolds(claim: Claim, e: Env, ch: seq<Channel>, time: int, j: nat, perfin: bool,
                   nr: nat, left: int, polled: bool)
    requires ValidEnv(e) && |ch| == AUDIO_CHANNELS_PAULA && j < |ch| && nr < |ch| && Under(claim, e, nr)
    requires if perfin then Due(ch[j]) && left >= 0 else Armed(ch[j]) && (j == nr ==> polled)
    requires Holds(claim, ch[nr], time) && Calm(claim, e, nr, ch[nr], time, left, polled)
    ensures var r := Serve(e, ch, time, j, perfin)[nr];
            Holds(claim, r, time) && Calm(claim, e, nr, r, time, left, polled)
  {
    hide Holds, Calm, StateChannel2, Modulate, Armed, Due, GoodModulation, Under, Expected;
    if j == nr {
      ServedHolds(claim, e, ch[nr], nr, time, perfin, left, polled);
    } else if j + 1 == nr {
      ServiceModulates(e, ch[j], j, time, perfin);
      ModulateHolds(claim, e, nr, ch[nr], StateChannel2(e, ch[j], j, time, perfin).2, time, left, polled);
    }
  }

  lemma {:induction false} ServeDueHolds(claim: Claim, e: Env, ch: seq<Channel>, time: int, i: nat,
                                         nr: nat, left: nat, polled: bool)
    requires ValidEnv(e) && |ch| == AUDIO_CHANNELS_PAULA && i <= |ch| && nr < |ch| && Under(claim, e, nr)
    requires ServedUpTo(ch, i) && Holds(claim, ch[nr], time) && Calm(claim, e, nr, ch[nr], time, left, polled)
    ensures var r := ServeDue(e, ch, time, i)[nr];
            Holds(claim, r, time) && Calm(claim, e, nr, r, time, left, polled)
    decreases |ch| - i
  {
    hide Holds, Calm, Serve, Armed, Due, Under;
    if i < |ch| {
      if ch[i].evtime == 0 {
        DueIsDue(ch[i]);
        ServeArms(e, ch, time, i);
        ServeHolds(claim, e, ch, time, i, true, nr, left, polled);
      } else {
        NotDueIsArmed(ch[i]);
      }
      ServeDueHolds(claim, e, if ch[i].evtime == 0 then Serve(e, ch, time, i, true) else ch, time, i + 1, nr, left,
                    polled);
    }
  }

  lemma NotDueIsArmed(c: Channel)
    requires ArmedOrDue(c) && c.evtime != 0
    ensures Armed(c)
  {
  }

  lemma DueIsDue(c: Channel)
    requires ArmedOrDue(c) && c.evtime == 0
    ensures Due(c)
  {
  }

  lemma PassHolds(claim: Claim, e: Env, s: Engine, best: nat, nr: nat, left: int, polled: bool)
    requires Inv(e, s) && 1 <= best <= left && NothingBefore(e, s, best)
    requires nr < |s.ch| && Under(claim, e, nr)
    requires Holds(claim, s.ch[nr], s.time) && Calm(claim, e, nr, s.ch[nr], s.time, left, polled)
    ensures var r := Pass(e, s, best).ch[nr];
            Holds(claim, r, s.time + best) && Calm(claim, e, nr, r, s.time + best, left - best, polled)
  {
    hide Holds, Calm, Sampled, Tick, Drained, Armed, ServeDue, Under;
    SampledIs(e, s, best, nr);
    var w := Sampled(e, s, best);
    TickHolds(claim, e, nr, s.ch[nr], best, s.time);
    TickCalm(claim, e, nr, s.ch[nr], best, s.time, left, polled);
    ServeDueHolds(claim, e, w.ch, w.time, 0, nr, left - best, polled);
  }

  /** A channel when the wait is over. */
  lemma SampledIs(e: Env, s: Engine, best: nat, nr: nat)
    requires Inv(e, s) && best >= 1 && NothingBefore(e, s, best) && nr < |s.ch|
    ensures ValidEnv(e) && |s.ch| == AUDIO_CHANNELS_PAULA && Blep.ValidQueue(s.ch[nr].data.sinc)
    ensures s.ch[nr].evtime == MAX_EV || best <= s.ch[nr].evtime < MAX_EV
    ensures var w := Sampled(e, s, best);
            var c := Tick(e, e.lines[nr], s.ch[nr], best);
            && w.time == s.time + best && |w.ch| == AUDIO_CHANNELS_PAULA && ServedUpTo(w.ch, 0)
            && (w.ch[nr] == c || w.ch[nr] == Drained(e, c))
  {
    hide Prehandle, SampleOf, Drained;
    assert Armed(s.ch[nr]);
    SampledAreServed(e, s, best);
  }

  /** The loop of update_audio keeps every claim. */
  lemma {:induction false} RunHolds(claim: Claim, e: Env, s: Engine, n: int, nr: nat, polled: bool)
    requires Inv(e, s) && nr < |s.ch| && Under(claim, e, nr) && n >= 0
    requires Holds(claim, s.ch[nr], s.time) && Calm(claim, e, nr, s.ch[nr], s.time, n, polled)
    ensures var t := Run(e, s, n);
            Inv(e, t) && Holds(claim, t.ch[nr], t.time) && Calm(claim, e, nr, t.ch[nr], t.time, 0, polled)
    decreases n
  {
    hide Holds, Calm, Pass, NothingBefore, BestEvent, Under;
    RunKeepsInv(e, s, n);
    if n > 0 {
      var best := BestEvent(e, s, n);
      BestEventIs(e, s, n);
      PassKeepsInv(e, s, best);
      PassHolds(claim, e, s, best, nr, n, polled);
      RunHolds(claim, e, Pass(e, s, best), n - best, nr, polled);
    }
  }

  lemma {:induction false} PollHolds(claim: Claim, e: Env, ch: seq<Channel>, time: int, i: nat, nr: nat)
    requires ValidEnv(e) && AllArmed(ch) && i <= |ch| && nr < |ch| && Under(claim, e, nr)
    requires Holds(claim, ch[nr], time) && Calm(claim, e, nr, ch[nr], time, 0, true)
    ensures Holds(claim, PollFrom(e, ch, time, i)[nr], time)
    decreases |ch| - i
  {
    hide Holds, Calm, Serve, Armed, Under;
    if i < |ch| {
      ServeHolds(claim, e, ch, time, i, false, nr, 0, true);
      PollArms(e, ch, time, i);
      PollHolds(claim, e, Serve(e, ch, time, i, false), time, i + 1, nr);
    }
  }

  /** How long a call at `now` runs. */
  function Elapsed(s: Engine, now: int): nat {
    if now > s.time then now - s.time else 0
  }

  lemma UpdateHolds(claim: Claim, e: Env, s: Engine, now: int, nr: nat, polled: bool)
    requires Inv(e, s) && nr < |s.ch| && Under(claim, e, nr)
    requires Holds(claim, s.ch[nr], s.time) && Calm(claim, e, nr, s.ch[nr], s.time, Elapsed(s, now), polled)
    ensures var t := UpdateAudio(e, s, now);
            Holds(claim, t.ch[nr], t.time) && Calm(claim, e, nr, t.ch[nr], t.time, 0, polled)
  {
    hide Holds, Calm, Armed, Run;
    RunHolds(claim, e, s, Elapsed(s, now), nr, polled);
    if now <= s.time { NoRun(e, s, now - s.time); }
  }

  lemma NoRun(e: Env, s: Engine, n: int)
    requires Inv(e, s) && n <= 0
    ensures Run(e, s, n) == s == Run(e, s, 0)
  {
  }
}

/** The channel records and the sample clock of src/core/audio.cpp as they sit in memory, changed in
    place by update_audio and the state machine.  Each method is one function of the file and is
    proved against its specification on values. */
module PaulaDevice {
  import opened PaulaChannel
  import opened PaulaEngine
  import opened Words
  import opened Arith
  import PaulaRegisters
  import Blep

  /** A re-entry of the state machine only plays the byte that has been prepared. */
  lemma Reentry(e: Env, c: Channel, nr: int, time: int)
    requires 0 <= nr < |e.lines| && e.soundOn && c.dma.enaStore == Enabled(e, nr)
    ensures c.state == 2 ==>
              StateChannel2(e, c, nr, time, false) == (EnterHigh(e.lines[nr], c, time), true, NoModulation)
    ensures c.state == 3 ==>
              StateChannel2(e, c, nr, time, false) ==
              (EnterLow(e, e.lines[nr], Enabled(e, nr), c, time), true, NoModulation)
  {
    hide Idle, Start, Prefetch, LeaveHigh, LeaveLow, LastUnit, EnterHigh, EnterLow, DmaOffCheck;
    NoDmaChange(e, e.lines[nr], c, time);
  }

  lemma NoDmaChange(e: Env, l: Line, c: Channel, time: int)
    ensures DmaOffCheck(e, l, c.dma.enaStore, c, time) == c
  {
    hide CutShort;
    assert c.dma.(enaStore := c.dma.enaStore) == c.dma && c.(dma := c.dma) == c;
  }

  /** Changing channel `nr` again does not disturb what was done to the next one. */
  lemma ChangeAgain(before: seq<Channel>, nr: nat, c: Channel, m: Modulation, d: Channel)
    requires nr < |before|
    ensures Modulated(before[nr := c], nr + 1, m)[nr] == c
    ensures Modulated(before[nr := c], nr + 1, m)[nr := d] == Modulated(before[nr := d], nr + 1, m)
    ensures before[nr := c][nr := d] == before[nr := d]
  {
    hide Modulate;
    if nr + 1 < |before| {
      var x := Modulate(before[nr + 1], m);
      assert before[nr := c][nr + 1 := x][nr := d] == before[nr := d][nr + 1 := x];
    }
  }

  /** The enable flag is stored for the next call, unless a restart is forced. */
  lemma CheckKeepsEnable(e: Env, l: Line, ena: bool, c: Channel, time: int)
    ensures var d := DmaOffCheck(e, l, ena, c, time);
            && (d.dma.enaStore == ena || (ena && d.state == 0))
            && (c.dma.enaStore == ena ==> d == c)
    ensures EnterHigh(l, c, time).dma.enaStore == c.dma.enaStore
    ensures EnterLow(e, l, ena, c, time).dma.enaStore == c.dma.enaStore
  {
    NoDmaChange(e, l, c, time);
  }

  /** A channel whose next byte is prepared is in state 2 or 3 and remembers whether DMA is on. */
  lemma PreparedIs(e: Env, l: Line, ena: bool, c: Channel, nr: int, time: int)
    ensures var d := FirstWord(e, l, c, nr, time).0; d.state == 2 && d.dma.enaStore == c.dma.enaStore
    ensures var d := HighDone(e, l, ena, c, nr, time).0; d.state == 3 && d.dma.enaStore == c.dma.enaStore
    ensures var d := NextWord(e, l, ena, c, nr, time).0; d.state == 2 && d.dma.enaStore == c.dma.enaStore
  {
  }

  lemma NothingModulated(ch: seq<Channel>, nr: nat)
    ensures Modulated(ch, nr, NoModulation) == ch
  {
  }

  class AudioDevice {
    const channel: array<Channel>
    var env: Env
    var nextSampleEvtime: real
    var lastCycles: int
    var samples: seq<Emitted>

    ghost predicate WellFormed()
      reads this
    {
      channel.Length == AUDIO_CHANNELS_PAULA && |env.lines| == AUDIO_CHANNELS_PAULA
    }

    ghost function Model(): Engine
      reads this, channel
    {
      Engine(channel[..], nextSampleEvtime, lastCycles, samples)
    }

    ghost predicate Valid()
      reads this, channel
    {
      WellFormed() && Inv(env, Model())
    }

    constructor (e: Env, start: int)
      requires ValidEnv(e)
      ensures Valid() && fresh(channel) && Device() == PaulaRegisters.Reset(e, start)
    {
      env := e;
      channel := new Channel[AUDIO_CHANNELS_PAULA](i => PaulaRegisters.ResetChannel());
      nextSampleEvtime := e.sampleTime;
      lastCycles := start;
      samples := [];
      new;
      assert channel[..] == seq(AUDIO_CHANNELS_PAULA, i => PaulaRegisters.ResetChannel());
    }

    /* ---------- Small state changes ---------- */

    method Zerostate(nr: nat, reset: bool)
      requires WellFormed() && nr < channel.Length
      modifies channel
      ensures channel[..] == old(channel[..])[nr := ZeroState(env, old(channel[nr]), reset)]
    {
      var c := channel[nr];
      var d := c.dma.(irqcheck := 0);
      if !env.cycleExact || reset {
        d := d.(intreq2 := false);
      }
      d := d.(enaStore := false, offActive := false, minperloop := 0);
      channel[nr] := c.(state := 0, evtime := MAX_EV, dma := d);
    }

    method Newsample(nr: nat, byte: int, time: int, manual: bool)
      requires WellFormed() && nr < channel.Length
      modifies channel
      ensures channel[..] == old(channel[..])[nr := NewSample(env.lines[nr], old(channel[nr]), byte, time, manual)]
    {
      var c := channel[nr];
      var sample := S8(byte);
      if !env.lines[nr].audible {
        sample := 0;
      }
      channel[nr] := c.(data := c.data.(currentSample := sample),
                        log := c.log.(bytes := c.log.bytes + [Played(time, byte, c.per)],
                                      volumes := c.log.volumes + [Loudness(c.data.audvol, manual)]));
    }

    method Setirq(nr: nat, time: int)
      requires WellFormed() && nr < channel.Length
      modifies channel
      ensures channel[..] == old(channel[..])[nr := SetIrq(old(channel[nr]), time)]
    {
      var c := channel[nr];
      channel[nr] := c.(log := c.log.(irqs := c.log.irqs + [time]));
    }

    method Setdr(nr: nat, startup: bool, time: int)
      requires WellFormed() && nr < channel.Length
      modifies channel
      ensures channel[..] == old(channel[..])[nr := SetDr(env, old(channel[nr]), startup, time)]
    {
      var c := channel[nr];
      if env.dmaMaster {
        if !startup && c.dma.wlen == 1 {
          if !env.jit && (c.per < PERIOD_LOW * CYCLE_UNIT || env.compatible) {
            channel[nr] := c.(log := c.log.(dsrEvents := c.log.dsrEvents + [time]));
          } else {
            channel[nr] := c.(dma := c.dma.(dsr := true));
          }
        } else {
          channel[nr] := c.(dma := c.dma.(dr := true));
        }
      }
    }

    method Loaddat(nr: nat, modper: bool, first: bool)
      requires WellFormed() && nr < channel.Length
      modifies channel
      ensures var (d, m) := LoadDat(env.lines[nr], old(channel[nr]), nr, modper, first);
              channel[..] == Modulated(old(channel[..])[nr := d], nr + 1, m)
    {
      var c := channel[nr];
      var audav, audap := env.lines[nr].attachVolume, env.lines[nr].attachPeriod;
      if audav || (modper && audap) {
        if nr >= 3 {
          return;
        }
        if modper && audap {
          var per := if c.dma.dat == 0 then 65536 * CYCLE_UNIT
                     else if c.dma.dat > PERIOD_MIN then c.dma.dat * CYCLE_UNIT
                     else PERIOD_MIN * CYCLE_UNIT;
          channel[nr + 1] := channel[nr + 1].(per := per);
        } else if audav {
          var next := channel[nr + 1];
          channel[nr + 1] := next.(data := next.data.(audvol := VolumeOf(c.dma.dat)));
        }
      } else {
        channel[nr] := c.(dma := c.dma.(dat2 := c.dma.dat),
                          log := c.log.(words := c.log.words + [Load(c.dma.dat, first)]));
      }
    }

    method Loadper(nr: nat)
      requires WellFormed() && nr < channel.Length
      modifies channel
      ensures channel[..] == old(channel[..])[nr := LoadPer(old(channel[nr]))]
    {
      var c := channel[nr];
      channel[nr] := c.(evtime := c.per, data := c.data.(mixvol := c.data.audvol));
    }

    method Loadperm1(nr: nat)
      requires WellFormed() && nr < channel.Length
      modifies channel
      ensures channel[..] == old(channel[..])[nr := LoadPerM1(env.lines[nr], old(channel[nr]))]
    {
      var c := channel[nr];
      if c.per == CYCLE_UNIT {
        channel[nr] := c.(evtime := CYCLE_UNIT, dma := c.dma.(irqcheck := if env.lines[nr].irq then 1 else -1));
      } else if c.per > CYCLE_UNIT {
        channel[nr] := c.(evtime := c.per - CYCLE_UNIT, state := 0x13);
      } else {
        channel[nr] := c.(evtime := 65536 * CYCLE_UNIT, state := 0x13);
      }
    }

    /** Raise the reload interrupt if it is flagged. */
    method TakeReload(nr: nat, time: int)
      requires WellFormed() && nr < channel.Length
      modifies channel
      ensures channel[..] == old(channel[..])[nr := Reloaded(old(channel[nr]), time)]
    {
      if channel[nr].dma.intreq2 {
        Setirq(nr, time);
        channel[nr] := channel[nr].(dma := channel[nr].dma.(intreq2 := false));
      }
    }

    /* ---------- The state machine ---------- */

    method PlayHigh(nr: nat, time: int)
      requires WellFormed() && nr < channel.Length
      modifies channel
      ensures channel[..] == old(channel[..])[nr := EnterHigh(env.lines[nr], old(channel[nr]), time)]
    {
      if channel[nr].pbufldl {
        Newsample(nr, channel[nr].dma.dat2 / 256 % 256, time, false);
        Loadper(nr);
        channel[nr] := channel[nr].(pbufldl := false);
      }
    }

    method PlayLow(nr: nat, ena: bool, time: int)
      requires WellFormed() && nr < channel.Length
      modifies channel
      ensures channel[..] == old(channel[..])[nr := EnterLow(env, env.lines[nr], ena, old(channel[nr]), time)]
    {
      if channel[nr].pbufldl {
        Newsample(nr, channel[nr].dma.dat2 % 256, time, !ena);
        if ena {
          Loadper(nr);
        } else {
          Loadperm1(nr);
        }
        channel[nr] := channel[nr].(pbufldl := false);
      }
    }

    /** The running word is cut short. */
    method RestartAtOnce(nr: nat, time: int)
      requires WellFormed() && nr < channel.Length
      modifies channel
      ensures channel[..] == old(channel[..])[nr := CutShort(env, env.lines[nr], old(channel[nr]), time)]
    {
      hide ZeroState, NewSample;
      Newsample(nr, channel[nr].dma.dat2 % 256, time, false);
      Zerostate(nr, true);
      var c := channel[nr];
      channel[nr] := c.(log := c.log.(hacks := c.log.hacks + [time]));
    }

    /** The check for DMA switched off and on again during a word. */
    method CheckDmaOff(nr: nat, ena: bool, time: int)
      requires WellFormed() && nr < channel.Length
      modifies channel
      ensures channel[..] == old(channel[..])[nr := DmaOffCheck(env, env.lines[nr], ena, old(channel[nr]), time)]
    {
      hide CutShort;
      var oldDma := channel[nr].dma.enaStore;
      channel[nr] := channel[nr].(dma := channel[nr].dma.(enaStore := ena));
      if channel[nr].state % 16 == 2 || channel[nr].state % 16 == 3 {
        if !ena && oldDma {
          channel[nr] := channel[nr].(dma := channel[nr].dma.(offActive := true, offCount := env.instructions));
        }
        if channel[nr].dma.offActive && !oldDma && ena {
          DmaBackOn(nr, time);
        }
      }
    }

    /** DMA is back on during a word. */
    method DmaBackOn(nr: nat, time: int)
      requires WellFormed() && nr < channel.Length
      modifies channel
      ensures var c := old(channel[nr]);
              var d := if env.hacks && (env.jit || env.instructions - c.dma.offCount >= 60)
                       then CutShort(env, env.lines[nr], c, time) else c;
              channel[..] == old(channel[..])[nr := d.(dma := d.dma.(offActive := false))]
    {
      hide CutShort;
      if env.hacks && (env.jit || env.instructions - channel[nr].dma.offCount >= 60) {
        RestartAtOnce(nr, time);
      }
      channel[nr] := channel[nr].(dma := channel[nr].dma.(offActive := false));
    }

    /** The channel after a transition that may also modulate the next one. */
    ghost predicate Became(before: seq<Channel>, nr: nat, r: (Channel, Modulation))
      requires nr < |before|
      reads this, channel
    {
      channel[..] == Modulated(before[nr := r.0], nr + 1, r.1)
    }

    /** The recursive call after a byte has been prepared. */
    method PlayPrepared(nr: nat, ghost before: seq<Channel>, ghost r: (Channel, Modulation), time: int)
      requires WellFormed() && nr < channel.Length && |before| == channel.Length && env.soundOn
      requires Became(before, nr, r) && r.0.dma.enaStore == Enabled(env, nr) && (r.0.state == 2 || r.0.state == 3)
      modifies channel
      ensures r.0.state == 2 ==> Became(before, nr, (EnterHigh(env.lines[nr], r.0, time), r.1))
      ensures r.0.state == 3 ==> Became(before, nr, (EnterLow(env, env.lines[nr], Enabled(env, nr), r.0, time), r.1))
      decreases 0, 4
    {
      hide StateChannel2, EnterHigh, EnterLow, Modulated, Modulate;
      ghost var here := channel[..];
      ChangeAgain(before, nr, r.0, r.1, r.0);
      Reentry(env, r.0, nr, time);
      ghost var d := StateChannel2(env, r.0, nr, time, false).0;
      var done := StateMachine(nr, false, time);
      NothingModulated(here[nr := d], nr + 1);
      ChangeAgain(before, nr, r.0, r.1, d);
    }

    method StateIdle(nr: nat, ena: bool, time: int)
      requires WellFormed() && nr < channel.Length && env.soundOn && ena == Enabled(env, nr)
      requires channel[nr].state == 0 && (channel[nr].dma.enaStore == ena || ena)
      modifies channel
      ensures Became(old(channel[..]), nr, Idle(env, env.lines[nr], ena, old(channel[nr]), nr, time))
      decreases 1, 1
    {
      hide ZeroState, CutShort, SetDr, LoadDat;
      if ena {
        channel[nr] := channel[nr].(evtime := MAX_EV, state := 1);
        Setdr(nr, true, time);
        var c := channel[nr];
        channel[nr] := c.(dma := c.dma.(wlen := c.dma.len, dsr := true));
      } else if channel[nr].dma.datWritten && !env.lines[nr].irq {
        ghost var before := channel[..];
        channel[nr] := channel[nr].(state := 2);
        Setirq(nr, time);
        ghost var m := LoadDat(env.lines[nr], channel[nr], nr, false, true).1;
        Loaddat(nr, false, true);
        if env.hacks && channel[nr].per < 10 * CYCLE_UNIT {
          RestartAtOnce(nr, time);
        } else {
          channel[nr] := channel[nr].(pbufldl := true);
          PlayPrepared(nr, before, (channel[nr], m), time);
        }
      } else {
        Zerostate(nr, false);
      }
    }

    method StateStart(nr: nat, ena: bool, time: int)
      requires WellFormed() && nr < channel.Length
      modifies channel
      ensures channel[..] == old(channel[..])[nr := Start(env, ena, old(channel[nr]), time)]
    {
      channel[nr] := channel[nr].(evtime := MAX_EV);
      if !ena {
        Zerostate(nr, false);
        return;
      }
      if !channel[nr].dma.datWritten {
        return;
      }
      Setirq(nr, time);
      Setdr(nr, false, time);
      var c := channel[nr];
      if c.dma.wlen != 1 {
        c := c.(dma := c.dma.(wlen := (c.dma.wlen - 1) % 0x10000));
      }
      channel[nr] := c.(state := 5);
    }

    /** State 5 up to the change to state 2. */
    method PrepareFirst(nr: nat, time: int) returns (ghost r: (Channel, Modulation))
      requires WellFormed() && nr < channel.Length
      modifies channel
      ensures r == FirstWord(env, env.lines[nr], old(channel[nr]), nr, time)
      ensures Became(old(channel[..]), nr, r)
    {
      ghost var before := channel[..];
      ghost var m := LoadDat(env.lines[nr], channel[nr], nr, false, true).1;
      Loaddat(nr, false, true);
      ChangeAgain(before, nr, LoadDat(env.lines[nr], before[nr], nr, false, true).0, m, channel[nr]);
      if Napnav(env.lines[nr]) {
        Setdr(nr, false, time);
      }
      channel[nr] := channel[nr].(state := 2);
      Loadper(nr);
      channel[nr] := channel[nr].(pbufldl := true, dma := channel[nr].dma.(intreq2 := false));
      r := (channel[nr], m);
    }

    method StatePrefetch(nr: nat, ena: bool, time: int)
      requires WellFormed() && nr < channel.Length && env.soundOn && ena == Enabled(env, nr)
      requires channel[nr].state == 5 && channel[nr].dma.enaStore == ena
      modifies channel
      ensures Became(old(channel[..]), nr, Prefetch(env, env.lines[nr], ena, old(channel[nr]), nr, time))
      decreases 1, 1
    {
      hide FirstWord, EnterHigh;
      if !ena {
        channel[nr] := channel[nr].(evtime := MAX_EV);
        Zerostate(nr, false);
      } else if !channel[nr].dma.datWritten {
        channel[nr] := channel[nr].(evtime := MAX_EV);
      } else {
        ghost var before := channel[..];
        ghost var r := PrepareFirst(nr, time);
        PreparedIs(env, env.lines[nr], ena, before[nr], nr, time);
        PlayPrepared(nr, before, r, time);
      }
    }

    /** The end of state 2, up to the change to state 3. */
    method PrepareLow(nr: nat, ena: bool, time: int) returns (ghost r: (Channel, Modulation))
      requires WellFormed() && nr < channel.Length
      modifies channel
      ensures r == HighDone(env, env.lines[nr], ena, old(channel[nr]), nr, time)
      ensures Became(old(channel[..]), nr, r)
    {
      ghost var before := channel[..];
      ghost var m := NoModulation;
      if env.lines[nr].attachPeriod {
        m := LoadDat(env.lines[nr], channel[nr], nr, true, false).1;
        Loaddat(nr, true, false);
        if ena {
          Setdr(nr, false, time);
          TakeReload(nr, time);
        } else {
          Setirq(nr, time);
        }
      }
      var c := channel[nr];
      channel[nr] := c.(pbufldl := true, state := 3, dma := c.dma.(irqcheck := 0));
      r := (channel[nr], m);
    }

    method EndHigh(nr: nat, ena: bool, time: int)
      requires WellFormed() && nr < channel.Length && env.soundOn && ena == Enabled(env, nr)
      requires channel[nr].dma.enaStore == ena
      modifies channel
      ensures Became(old(channel[..]), nr, LeaveHigh(env, env.lines[nr], ena, old(channel[nr]), nr, time))
      decreases 1, 1
    {
      hide HighDone, EnterLow;
      ghost var before := channel[..];
      ghost var r := PrepareLow(nr, ena, time);
      PreparedIs(env, env.lines[nr], ena, before[nr], nr, time);
      PlayPrepared(nr, before, r, time);
    }

    /** The end of state 3 with a word to follow, up to the change to state 2. */
    method PrepareHigh(nr: nat, ena: bool, time: int) returns (ghost r: (Channel, Modulation))
      requires WellFormed() && nr < channel.Length
      modifies channel
      ensures r == NextWord(env, env.lines[nr], ena, old(channel[nr]), nr, time)
      ensures Became(old(channel[..]), nr, r)
    {
      ghost var m := LoadDat(env.lines[nr], channel[nr], nr, false, false).1;
      Loaddat(nr, false, false);
      if ena && Napnav(env.lines[nr]) {
        Setdr(nr, false, time);
        TakeReload(nr, time);
      }
      channel[nr] := channel[nr].(pbufldl := true, state := 2);
      r := (channel[nr], m);
    }

    method CheckIrqLate(nr: nat)
      requires WellFormed() && nr < channel.Length
      modifies channel
      ensures channel[..] == old(channel[..])[nr := LateCheck(env.lines[nr], old(channel[nr]))]
      ensures channel[nr].dma.enaStore == old(channel[nr]).dma.enaStore
    {
      if channel[nr].dma.irqcheck == 0 {
        channel[nr] := channel[nr].(dma := channel[nr].dma.(irqcheck := if env.lines[nr].irq then 1 else 0));
      }
    }

    /** The final interrupt check of a word played without DMA. */
    method FinishManual(nr: nat, time: int)
      requires WellFormed() && nr < channel.Length
      modifies channel
      ensures channel[..] == old(channel[..])[nr := ManualDone(env.lines[nr], old(channel[nr]), time)]
      ensures channel[nr].dma.enaStore == old(channel[nr]).dma.enaStore
    {
      hide LateCheck, Napnav;
      CheckIrqLate(nr);
      if Napnav(env.lines[nr]) {
        Setirq(nr, time);
      }
    }

    method EndLow(nr: nat, ena: bool, time: int)
      requires WellFormed() && nr < channel.Length && env.soundOn && ena == Enabled(env, nr)
      requires channel[nr].dma.enaStore == ena
      modifies channel
      ensures Became(old(channel[..]), nr, LeaveLow(env, env.lines[nr], ena, old(channel[nr]), nr, time))
      decreases 1, 1
    {
      hide NextWord, EnterHigh, ManualDone, ZeroState, Modulated;
      ghost var before := channel[..];
      if !ena {
        FinishManual(nr, time);
        if channel[nr].dma.irqcheck > 0 {
          ghost var d := channel[nr];
          Zerostate(nr, false);
          ChangeAgain(before, nr, d, NoModulation, channel[nr]);
          NothingModulated(channel[..], nr + 1);
          return;
        }
      }
      ghost var middle := channel[..];
      ghost var c := channel[nr];
      ghost var r := PrepareHigh(nr, ena, time);
      PreparedIs(env, env.lines[nr], ena, c, nr, time);
      PlayPrepared(nr, middle, r, time);
      ChangeAgain(before, nr, c, NoModulation, EnterHigh(env.lines[nr], r.0, time));
    }

    /** The switch over the states. */
    method SwitchState(nr: nat, ena: bool, perfin: bool, time: int) returns (done: bool)
      requires WellFormed() && nr < channel.Length && env.soundOn && ena == Enabled(env, nr)
      requires channel[nr].dma.enaStore == ena || (ena && channel[nr].state == 0)
      modifies channel
      ensures var (d, r, m) := Dispatch(env, env.lines[nr], ena, old(channel[nr]), nr, time, perfin);
              done == r && Became(old(channel[..]), nr, (d, m))
      decreases if !perfin && (channel[nr].state == 2 || channel[nr].state == 3) then 0 else 1, 2
    {
      hide Idle, Start, Prefetch, LeaveHigh, LeaveLow, EnterHigh, EnterLow, Modulated;
      ghost var before := channel[..];
      ghost var result := Dispatch(env, env.lines[nr], ena, channel[nr], nr, time, perfin);
      NothingModulated(before[nr := result.0], nr + 1);
      assert before[nr := before[nr]] == before;
      var state := channel[nr].state;
      if state == 0 {
        StateIdle(nr, ena, time);
      } else if state == 1 {
        StateStart(nr, ena, time);
      } else if state == 5 {
        StatePrefetch(nr, ena, time);
      } else if state == 2 {
        PlayHigh(nr, time);
        CheckKeepsEnable(env, env.lines[nr], ena, before[nr], time);
        ChangeAgain(before, nr, channel[nr], NoModulation, result.0);
        if perfin {
          EndHigh(nr, ena, time);
        }
      } else if state == 0x13 {
        if perfin {
          var c := channel[nr].(state := 3, evtime := CYCLE_UNIT);
          channel[nr] := c.(dma := c.dma.(irqcheck := if !ena && env.lines[nr].irq then 1 else -1));
          return false;
        }
      } else if state == 3 {
        PlayLow(nr, ena, time);
        CheckKeepsEnable(env, env.lines[nr], ena, before[nr], time);
        ChangeAgain(before, nr, channel[nr], NoModulation, result.0);
        if perfin {
          EndLow(nr, ena, time);
        }
      }
      return true;
    }

    /** audio_state_channel2. */
    method StateMachine(nr: nat, perfin: bool, time: int) returns (done: bool)
      requires WellFormed() && nr < channel.Length
      modifies channel
      ensures var (d, r, m) := StateChannel2(env, old(channel[nr]), nr, time, perfin);
              done == r && Became(old(channel[..]), nr, (d, m))
      decreases if !perfin && channel[nr].dma.enaStore == Enabled(env, nr) &&
                   (channel[nr].state == 2 || channel[nr].state == 3) then 0 else 1, 3
    {
      hide Dispatch, DmaOffCheck, ZeroState, Modulated;
      var ena := Enabled(env, nr);
      ghost var before := channel[..];
      ghost var result := StateChannel2(env, channel[nr], nr, time, perfin);
      if !env.soundOn {
        channel[nr] := channel[nr].(dma := channel[nr].dma.(enaStore := ena));
        Zerostate(nr, true);
        ChangeAgain(before, nr, before[nr].(dma := before[nr].dma.(enaStore := ena)), NoModulation, result.0);
        NothingModulated(before[nr := result.0], nr + 1);
        return true;
      }
      CheckDmaOff(nr, ena, time);
      CheckKeepsEnable(env, env.lines[nr], ena, before[nr], time);
      ChangeAgain(before, nr, channel[nr], NoModulation, result.0);
      done := SwitchState(nr, ena, perfin, time);
    }

    /** audio_state_channel */
    method StateChannel(nr: nat, perfin: bool, time: int)
      requires WellFormed() && nr < channel.Length
      modifies channel
      ensures channel[..] == Serve(env, old(channel[..]), time, nr, perfin)
    {
      hide StateChannel2, Modulate;
      ghost var before := channel[..];
      ghost var (d, r, m) := StateChannel2(env, channel[nr], nr, time, perfin);
      var done := StateMachine(nr, perfin, time);
      ChangeAgain(before, nr, d, m, d.(dma := d.dma.(datWritten := false)));
      if done {
        channel[nr] := channel[nr].(dma := channel[nr].dma.(datWritten := false));
      }
    }

    /* ---------- The loop of update_audio ---------- */

    /** How far the next pass goes. */
    method FindBest(n: int) returns (best: int)
      requires WellFormed()
      ensures best == BestEvent(env, Model(), n)
    {
      best := n + 1;
      var i := 0;
      while i < channel.Length
        invariant 0 <= i <= channel.Length
        invariant best == Soonest(channel[..i], n + 1)
      {
        assert channel[..i + 1][..i] == channel[..i];
        if channel[i].evtime != MAX_EV && best > channel[i].evtime {
          best := channel[i].evtime;
        }
        i := i + 1;
      }
      assert channel[..i] == channel[..];
      var rounded := Rounded(nextSampleEvtime);
      if env.output && best > rounded {
        best := rounded;
      }
      if best > n {
        best := n;
      }
    }

    /** The sample prehandler: it feeds the accumulators or the step queues of all channels. */
    method SamplePrehandler(best: nat)
      requires WellFormed() && forall i :: 0 <= i < channel.Length ==> Blep.ValidQueue(channel[i].data.sinc)
      modifies channel
      ensures forall i :: 0 <= i < channel.Length ==>
                channel[i] == old(channel[i]).(data := Prehandle(env, env.lines[i], old(channel[i]).data, best))
    {
      if !env.output {
        return;
      }
      var i := 0;
      while i < channel.Length
        invariant 0 <= i <= channel.Length
        invariant forall k :: 0 <= k < i ==>
                    channel[k] == old(channel[k]).(data := Prehandle(env, env.lines[k], old(channel[k]).data, best))
        invariant forall k :: i <= k < channel.Length ==> channel[k] == old(channel[k])
      {
        var d := channel[i].data;
        var output := Level(env.lines[i], d);
        match env.interpolation {
          case Plain =>
          case Anti =>
            d := d.(accum := S32(d.accum + output * best), accumTime := S32(d.accumTime + best));
          case Sinc =>
            d := d.(sinc := Blep.Prehandler(d.sinc, output, best));
        }
        d := d.(history := Blep.Record(d.history, Blep.Call(output, best)));
        channel[i] := channel[i].(data := d);
        i := i + 1;
      }
    }

    /** Decrease the waiting times. */
    method CountDown(best: nat)
      requires WellFormed()
      modifies channel
      ensures forall i :: 0 <= i < channel.Length ==>
                channel[i] == old(channel[i]).(evtime := if old(channel[i]).evtime == MAX_EV then MAX_EV
                                                         else old(channel[i]).evtime - best)
    {
      var i := 0;
      while i < channel.Length
        invariant 0 <= i <= channel.Length
        invariant forall k :: 0 <= k < i ==>
                    channel[k] == old(channel[k]).(evtime := if old(channel[k]).evtime == MAX_EV then MAX_EV
                                                             else old(channel[k]).evtime - best)
        invariant forall k :: i <= k < channel.Length ==> channel[k] == old(channel[k])
      {
        if channel[i].evtime != MAX_EV {
          channel[i] := channel[i].(evtime := channel[i].evtime - best);
        }
        i := i + 1;
      }
    }

    /** The sample handler: one value from every channel, accumulators drained. */
    method SampleHandler(time: int)
      requires WellFormed() && ValidEnv(env)
      requires forall i :: 0 <= i < channel.Length ==> Blep.ValidQueue(channel[i].data.sinc)
      modifies channel, this`samples
      ensures var (ch, emitted) := Emit(env, old(channel[..]), time);
              channel[..] == ch && samples == old(samples) + [emitted]
    {
      hide Prehandle, SampleOf;
      var levels: seq<int> := [];
      var i := 0;
      ghost var before := channel[..];
      while i < channel.Length
        invariant 0 <= i <= channel.Length && |levels| == i && samples == old(samples)
        invariant forall k :: 0 <= k < channel.Length ==> Blep.ValidQueue(before[k].data.sinc)
        invariant forall k :: 0 <= k < i ==> levels[k] == SampleOf(env, env.lines[k], before[k].data)
        invariant forall k :: 0 <= k < i ==> channel[k] == Drained(env, before[k])
        invariant forall k :: i <= k < channel.Length ==> channel[k] == before[k]
      {
        levels := levels + [SampleOf(env, env.lines[i], channel[i].data)];
        if env.interpolation.Anti? {
          channel[i] := channel[i].(data := channel[i].data.(accum := 0, accumTime := 0));
        }
        i := i + 1;
      }
      assert levels == Emit(env, before, time).1.levels;
      samples := samples + [Emitted(time, levels)];
    }

    /** Serve every channel whose time has come. */
    method ServiceDue(time: int)
      requires WellFormed()
      modifies channel
      ensures channel[..] == ServeDue(env, old(channel[..]), time, 0)
    {
      hide Serve;
      var i := 0;
      while i < channel.Length
        invariant 0 <= i <= channel.Length
        invariant ServeDue(env, channel[..], time, i) == ServeDue(env, old(channel[..]), time, 0)
      {
        if channel[i].evtime == 0 {
          StateChannel(i, true, time);
        }
        i := i + 1;
      }
    }

    /** One pass of the loop; `end` is the cycle count the call runs to. */
    method OnePass(n: int, end: int) returns (left: int)
      requires WellFormed() && n > 0 && Inv(env, Model().(time := end - n))
      modifies channel, this`nextSampleEvtime, this`samples
      ensures 0 <= left < n && left == n - BestEvent(env, old(Model()), n)
      ensures Model().(time := end - left) ==
              Pass(env, old(Model()).(time := end - n), n - left)
    {
      hide Tick, Prehandle, Soonest, ServeDue, SampleOf, Sampled, Inv, NothingBefore;
      ghost var s := Model().(time := end - n);
      var best := FindBest(n);
      BestEventIs(env, s, n);
      left := n - best;
      WaitAndSample(best, end - left);
      ServiceDue(end - left);
    }

    /** The part of the pass before the channels are served: `now` is the time it reaches. */
    method WaitAndSample(best: nat, now: int)
      requires WellFormed() && Inv(env, Model().(time := now - best))
      modifies channel, this`nextSampleEvtime, this`samples
      ensures Model().(time := now) == Sampled(env, old(Model()).(time := now - best), best)
    {
      hide Tick, Prehandle, Emit;
      ghost var s := Model().(time := now - best);
      var rounded := Rounded(nextSampleEvtime);
      nextSampleEvtime := nextSampleEvtime - best as real;
      SamplePrehandler(best);
      CountDown(best);
      PreThenCount(env, s.ch, best);
      assert channel[..] == TickAll(env, s.ch, best);
      if env.output && rounded == best {
        nextSampleEvtime := nextSampleEvtime + env.sampleTime;
        SampleHandler(now);
      }
    }

    /** update_audio, called when the cycle counter shows `now`. */
    method UpdateAudio(now: int)
      requires Valid()
      modifies this`nextSampleEvtime, this`lastCycles, this`samples, channel
      ensures Valid() && Model() == PaulaRegisters.UpdateAudio(env, old(Model()), now)
    {
      hide Pass, BestEvent, NothingBefore;
      var n := 0;
      if env.soundOn {
        n := now - lastCycles;
        ghost var target := Run(env, Model(), n);
        RunKeepsInv(env, Model(), n);
        while n > 0
          invariant lastCycles == old(lastCycles)
          invariant Inv(env, Model().(time := now - n)) && Run(env, Model().(time := now - n), n) == target
          decreases n
        {
          ghost var s := Model().(time := now - n);
          BestEventIs(env, s, n);
          PassKeepsInv(env, s, BestEvent(env, s, n));
          SameHorizon(env, s, Model(), n);
          n := OnePass(n, now);
        }
      }
      lastCycles := now - n;
    }

    /* ---------- Register writes, events and DMA slots ---------- */

    /** The registers and the engine, as the specification of the operations sees them. */
    ghost function Device(): PaulaRegisters.Device
      reads this, channel
    {
      PaulaRegisters.Device(env, Model())
    }

    /** AUDxPER */
    method AUDxPER(now: int, nr: nat, v: int)
      requires Valid() && nr < AUDIO_CHANNELS_PAULA && 0 <= v < 0x10000
      modifies this`nextSampleEvtime, this`lastCycles, this`samples, channel
      ensures Valid() && Device() == PaulaRegisters.Apply(old(Device()), PaulaRegisters.WritePer(now, nr, v))
    {
      hide Armed, Run;
      UpdateAudio(now);
      PaulaRegisters.PerWrittenArms(env, channel[nr], v);
      var per := (if v != 0 then v else 65536) * CYCLE_UNIT;
      if per < PERIOD_MIN * CYCLE_UNIT {
        per := PERIOD_MIN * CYCLE_UNIT;
      }
      if per < PERIOD_MIN_NONCE * CYCLE_UNIT && !env.cycleExact && channel[nr].dma.enaStore {
        per := PERIOD_MIN_NONCE * CYCLE_UNIT;
      }
      if channel[nr].per == PERIOD_MAX - 1 && per != PERIOD_MAX - 1 {
        channel[nr] := channel[nr].(evtime := CYCLE_UNIT);
      }
      channel[nr] := channel[nr].(per := per);
    }

    /** AUDxLEN */
    method AUDxLEN(now: int, nr: nat, v: int)
      requires Valid() && nr < AUDIO_CHANNELS_PAULA && 0 <= v < 0x10000
      modifies this`nextSampleEvtime, this`lastCycles, this`samples, channel
      ensures Valid() && Device() == PaulaRegisters.Apply(old(Device()), PaulaRegisters.WriteLen(now, nr, v))
    {
      hide Run;
      UpdateAudio(now);
      channel[nr] := channel[nr].(dma := channel[nr].dma.(len := v));
    }

    /** AUDxVOL */
    method AUDxVOL(now: int, nr: nat, v: int)
      requires Valid() && nr < AUDIO_CHANNELS_PAULA && 0 <= v < 0x10000
      modifies this`nextSampleEvtime, this`lastCycles, this`samples, channel
      ensures Valid() && Device() == PaulaRegisters.Apply(old(Device()), PaulaRegisters.WriteVol(now, nr, v))
    {
      hide Run;
      UpdateAudio(now);
      channel[nr] := channel[nr].(data := channel[nr].data.(audvol := VolumeOf(v)));
    }

    /** The first half of AUDxDAT: what is stored at once, and whether the event comes a cycle later. */
    method StoreDat(nr: nat, v: int) returns (delayed: bool, preset: bool)
      requires Valid() && nr < AUDIO_CHANNELS_PAULA && 0 <= v < 0x10000
      modifies channel
      ensures Valid() && Device() == PaulaRegisters.Apply(old(Device()), PaulaRegisters.WriteDat(nr, v))
      ensures delayed <==> Enabled(env, nr) && !env.jit &&
                           (old(channel[nr]).per < PERIOD_LOW * CYCLE_UNIT || env.compatible)
      ensures preset <==> delayed && (old(channel[nr]).state % 16 == 2 || old(channel[nr]).state % 16 == 3)
    {
      hide Armed;
      PaulaRegisters.ApplyKeepsValid(Device(), PaulaRegisters.WriteDat(nr, v));
      delayed, preset := false, false;
      if Enabled(env, nr) {
        channel[nr] := channel[nr].(dma := channel[nr].dma.(dat := v, datWritten := true));
        if !env.jit && (channel[nr].per < PERIOD_LOW * CYCLE_UNIT || env.compatible) {
          delayed := true;
          if channel[nr].state % 16 == 2 || channel[nr].state % 16 == 3 {
            if channel[nr].dma.wlen == 1 {
              channel[nr] := channel[nr].(dma := channel[nr].dma.(intreq2 := true));
            }
            preset := true;
          }
        }
      }
      assert Device() == PaulaRegisters.Apply(old(Device()), PaulaRegisters.WriteDat(nr, v));
    }

    /** audio_low_period_hack */
    method AudioLowPeriodHack(nr: nat)
      requires WellFormed() && nr < AUDIO_CHANNELS_PAULA
      modifies channel
      ensures channel[..] == old(channel[..])[nr :=
                PaulaRegisters.LowPeriodHack(env, env.lines[nr], old(channel[nr]))]
    {
      var c := channel[nr];
      if (c.state == 2 || c.state == 3) && c.per < PERIOD_MIN_LOOP * CYCLE_UNIT &&
         !env.lines[nr].intena && env.loopHack
      {
        var add := 1;
        if c.dma.len == 0 || c.dma.len > 1000 {
          add := 5;
        }
        c := c.(dma := c.dma.(minperloop := c.dma.minperloop + add));
        if c.dma.minperloop >= PERIOD_MIN_LOOP_COUNT {
          c := c.(per := 3 * env.maxhpos * CYCLE_UNIT);
        }
        channel[nr] := c;
      }
    }

    /** audio_vsync */
    method AudioVsync()
      requires Valid()
      modifies channel
      ensures Valid() && Device() == PaulaRegisters.Apply(old(Device()), PaulaRegisters.Vsync)
    {
      hide Armed, PaulaRegisters.LowPeriodHack;
      PaulaRegisters.ApplyKeepsValid(Device(), PaulaRegisters.Vsync);
      ghost var before := channel[..];
      var i := 0;
      while i < AUDIO_CHANNELS_PAULA
        invariant 0 <= i <= AUDIO_CHANNELS_PAULA
        invariant forall k :: 0 <= k < i ==> channel[k] == PaulaRegisters.LowPeriodHack(env, env.lines[k], before[k])
        invariant forall k :: i <= k < AUDIO_CHANNELS_PAULA ==> channel[k] == before[k]
      {
        AudioLowPeriodHack(i);
        i := i + 1;
      }
      assert channel[..] == PaulaRegisters.Vsynced(env, before);
      assert Device() == PaulaRegisters.Apply(old(Device()), PaulaRegisters.Vsync);
    }

    /** The counter has run out: reload it, and flag the reload unless that has been done. */
    method Reload(nr: nat, preset: bool)
      requires WellFormed() && nr < AUDIO_CHANNELS_PAULA && channel[nr].dma.wlen == 1
      modifies channel
      ensures channel[..] == old(channel[..])[nr := PaulaRegisters.LowPeriodHack(env, env.lines[nr],
                old(channel[nr]).(dma := PaulaRegisters.WordFetched(old(channel[nr]).dma, preset)))]
    {
      hide PaulaRegisters.LowPeriodHack;
      ghost var before := channel[..];
      ghost var c := channel[nr].(dma := channel[nr].dma.(wlen := channel[nr].dma.len));
      HackIgnoresFlag(env, env.lines[nr], c);
      channel[nr] := channel[nr].(dma := channel[nr].dma.(wlen := channel[nr].dma.len));
      AudioLowPeriodHack(nr);
      if !preset {
        channel[nr] := channel[nr].(dma := channel[nr].dma.(intreq2 := true));
      }
    }

    /** event_audxdat_func on a channel that plays. */
    method DataWhilePlaying(nr: nat, a: Argument)
      requires WellFormed() && nr < AUDIO_CHANNELS_PAULA
      modifies channel
      ensures channel[..] == old(channel[..])[nr :=
                PaulaRegisters.DataWhilePlaying(env, env.lines[nr], old(channel[nr]), a.value, a.enabled, a.preset)]
    {
      hide PaulaRegisters.LowPeriodHack;
      if !a.enabled {
        channel[nr] := channel[nr].(dma := channel[nr].dma.(dat := a.value, datWritten := true));
      } else if channel[nr].dma.wlen == 1 {
        Reload(nr, a.preset);
      } else {
        channel[nr] := channel[nr].(dma := channel[nr].dma.(wlen := (channel[nr].dma.wlen - 1) % 0x10000));
      }
      channel[nr] := channel[nr].(dma := channel[nr].dma.(datWritten := false));
    }

    /** event_audxdat_func on a channel that does not: the word may start it. */
    method DataWhileWaiting(now: int, nr: nat, v: int)
      requires Valid() && nr < AUDIO_CHANNELS_PAULA && 0 <= v < 0x10000
      requires channel[nr].state % 16 != 2 && channel[nr].state % 16 != 3
      modifies this`nextSampleEvtime, this`lastCycles, this`samples, channel
      ensures forall ena, preset ::
        Model() == PaulaRegisters.DataArrives(env, old(Model()), now, nr, v, ena, preset)
    {
      hide Serve, Run, Armed;
      PaulaRegisters.StoredWordKeepsArmed(channel[nr], v);
      PaulaRegisters.ReplaceKeepsInv(env, Model(), nr,
        channel[nr].(dma := channel[nr].dma.(dat := v, datWritten := true)));
      channel[nr] := channel[nr].(dma := channel[nr].dma.(dat := v, datWritten := true));
      UpdateAudio(now);
      StateChannel(nr, false, lastCycles);
      channel[nr] := channel[nr].(dma := channel[nr].dma.(datWritten := false));
    }

    /** event_audxdat_func on its packed argument. */
    method EventAudxdat(now: int, packed: int)
      requires Valid() && 0 <= packed < TWO_32
      modifies this`nextSampleEvtime, this`lastCycles, this`samples, channel
      ensures Valid()
      ensures var a := Unpacked(packed);
              Device() == PaulaRegisters.Apply(old(Device()),
                PaulaRegisters.DataEvent(now, a.nr, a.value, a.enabled, a.preset))
    {
      hide Serve, Run, Armed, PaulaRegisters.UpdateAudio, PaulaRegisters.DataWhilePlaying, Unpacked;
      var a := Unpacked(packed);
      var nr := a.nr;
      PaulaRegisters.DataArrivesKeepsInv(env, Model(), now, nr, a.value, a.enabled, a.preset);
      if channel[nr].state % 16 == 2 || channel[nr].state % 16 == 3 {
        DataWhilePlaying(nr, a);
      } else {
        DataWhileWaiting(now, nr, a.value);
      }
      assert Model() == PaulaRegisters.DataArrives(env, old(Model()), now, nr, a.value, a.enabled, a.preset);
    }

    /** AUDxDAT: the store, and the event at once unless it is left for a cycle later; `later` is then
        the argument to call event_audxdat_func with. */
    method AUDxDAT(now: int, nr: nat, v: int) returns (delayed: bool, later: int)
      requires Valid() && nr < AUDIO_CHANNELS_PAULA && 0 <= v < 0x10000
      modifies this`nextSampleEvtime, this`lastCycles, this`samples, channel
      ensures Valid() && 0 <= later < TWO_32
      ensures var stored := PaulaRegisters.WriteDat(nr, v);
              var a := Unpacked(later);
              var event := PaulaRegisters.DataEvent(now, nr, v, Enabled(env, nr), false);
              && (delayed ==> Device() == PaulaRegisters.Apply(old(Device()), stored))
              && (!delayed ==> Device() == PaulaRegisters.ApplyAll(old(Device()), [stored, event]))
              && a.nr == nr && a.value == v && a.enabled == Enabled(env, nr) && (a.preset ==> delayed)
    {
      hide Armed, PaulaRegisters.Apply;
      ghost var before := Device();
      var preset;
      delayed, preset := StoreDat(nr, v);
      var a := Argument(nr, v, Enabled(env, nr), preset);
      ArgumentRoundTrip(a);
      later := Packed(a);
      if !delayed {
        ghost var stored := PaulaRegisters.WriteDat(nr, v);
        ghost var event := PaulaRegisters.DataEvent(now, nr, v, a.enabled, false);
        TwoOps(before, stored, event);
        EventAudxdat(now, later);
      }
    }

    /** audio_state_machine */
    method AudioStateMachine(now: int)
      requires Valid()
      modifies this`nextSampleEvtime, this`lastCycles, this`samples, channel
      ensures Valid() && Device() == PaulaRegisters.Apply(old(Device()), PaulaRegisters.StateMachine(now))
    {
      hide Serve, Run, Armed;
      PaulaRegisters.ApplyKeepsValid(Device(), PaulaRegisters.StateMachine(now));
      UpdateAudio(now);
      ghost var target := PaulaRegisters.PollFrom(env, channel[..], lastCycles, 0);
      var nr := 0;
      while nr < AUDIO_CHANNELS_PAULA
        invariant 0 <= nr <= AUDIO_CHANNELS_PAULA
        invariant nextSampleEvtime == PaulaRegisters.UpdateAudio(env, old(Model()), now).next
        invariant lastCycles == PaulaRegisters.UpdateAudio(env, old(Model()), now).time
        invariant samples == PaulaRegisters.UpdateAudio(env, old(Model()), now).samples
        invariant PaulaRegisters.PollFrom(env, channel[..], lastCycles, nr) == target
      {
        StateChannel(nr, false, lastCycles);
        nr := nr + 1;
      }
      assert Device() == PaulaRegisters.Apply(old(Device()), PaulaRegisters.StateMachine(now));
    }

    /** The loop of audio_dmal. */
    method TakeSlots() returns (mask: int)
      requires WellFormed()
      modifies channel
      ensures channel[..] == PaulaRegisters.SlotsTaken(old(channel[..])) && mask == SlotMask(old(channel[..]))
    {
      hide SlotMask, SlotBit;
      ghost var before := channel[..];
      mask := 0;
      var nr := 0;
      NoSlots();
      assert before[..0] == [];
      while nr < AUDIO_CHANNELS_PAULA
        invariant 0 <= nr <= AUDIO_CHANNELS_PAULA && mask == SlotMask(before[..nr])
        invariant forall i :: 0 <= i < nr ==>
                    channel[i] == before[i].(dma := before[i].dma.(dr := false, dsr := false))
        invariant forall i :: nr <= i < AUDIO_CHANNELS_PAULA ==> channel[i] == before[i]
      {
        OneMoreSlot(before, nr);
        if channel[nr].dma.dr { mask := mask + 2 * SlotBit(nr); }
        if channel[nr].dma.dsr { mask := mask + SlotBit(nr); }
        channel[nr] := channel[nr].(dma := channel[nr].dma.(dr := false, dsr := false));
        nr := nr + 1;
      }
      assert before[..nr] == before;
    }

    /** audio_dmal: the slots asked for, as one bit each, all taken. */
    method AudioDmal() returns (mask: int)
      requires Valid()
      modifies channel
      ensures Valid() && Device() == PaulaRegisters.Apply(old(Device()), PaulaRegisters.Dmal)
      ensures mask == SlotMask(old(channel[..]))
    {
      hide Armed, SlotMask;
      ghost var before := channel[..];
      mask := TakeSlots();
      forall i | 0 <= i < AUDIO_CHANNELS_PAULA ensures Armed(channel[i]) {
        assert Armed(before[i]);
        SlotsIrrelevant(before[i]);
      }
    }
  }

  lemma HackIgnoresFlag(e: Env, l: Line, c: Channel)
    ensures var d := PaulaRegisters.LowPeriodHack(e, l, c);
            d.(dma := d.dma.(intreq2 := true)) ==
            PaulaRegisters.LowPeriodHack(e, l, c.(dma := c.dma.(intreq2 := true)))
    ensures c.(dma := c.dma.(intreq2 := c.dma.intreq2)) == c
  {
    var f := c.(dma := c.dma.(intreq2 := true));
    assert PaulaRegisters.LowLoop(e, l, f) == PaulaRegisters.LowLoop(e, l, c);
    assert PaulaRegisters.HackFires(e, l, f) == PaulaRegisters.HackFires(e, l, c);
    hide PaulaRegisters.LowLoop, PaulaRegisters.HackFires, PaulaRegisters.LoopWeight;
  }

  lemma TwoOps(d: PaulaRegisters.Device, a: PaulaRegisters.Op, b: PaulaRegisters.Op)
    requires PaulaRegisters.Valid(d) && PaulaRegisters.ValidOp(a) && PaulaRegisters.ValidOp(b)
    ensures PaulaRegisters.Valid(PaulaRegisters.Apply(d, a))
    ensures PaulaRegisters.ApplyAll(d, [a, b]) == PaulaRegisters.Apply(PaulaRegisters.Apply(d, a), b)
  {
    hide PaulaRegisters.Apply;
    PaulaRegisters.ApplyKeepsValid(d, a);
    var d1 := PaulaRegisters.Apply(d, a);
    PaulaRegisters.ApplyKeepsValid(d1, b);
    var d2 := PaulaRegisters.Apply(d1, b);
    var ops, last := [a, b], [b];
    assert ops[1..] == last && last[1..] == [];
    assert PaulaRegisters.ApplyAll(d2, []) == d2;
    assert PaulaRegisters.ApplyAll(d1, last) == d2;
  }

  lemma SlotsIrrelevant(c: Channel)
    ensures Armed(c.(dma := c.dma.(dr := false, dsr := false))) == Armed(c)
  {
  }

  /** 1 << (nr * 2) */
  function SlotBit(nr: nat): (r: int)
    ensures r > 0
  {
    if nr == 0 then 1 else 4 * SlotBit(nr - 1)
  }

  function SlotMask(ch: seq<Channel>): int {
    if ch == [] then 0
    else
      var n := |ch| - 1;
      SlotMask(ch[..n]) + (if ch[n].dma.dr then 2 * SlotBit(n) else 0) + if ch[n].dma.dsr then SlotBit(n) else 0
  }

  lemma NoSlots()
    ensures SlotMask([]) == 0
  {
  }

  lemma OneMoreSlot(ch: seq<Channel>, n: nat)
    requires n < |ch|
    ensures SlotMask(ch[..n + 1]) ==
            SlotMask(ch[..n]) + (if ch[n].dma.dr then 2 * SlotBit(n) else 0) + if ch[n].dma.dsr then SlotBit(n) else 0
  {
    assert ch[..n + 1][..n] == ch[..n];
  }

  function Requests(c: Channel): (r: int)
    ensures 0 <= r <= 3
  {
    (if c.dma.dr then 2 else 0) + if c.dma.dsr then 1 else 0
  }

  /** Every channel's two requests can be read from the mask, which has no other bits. */
  lemma {:induction false} MaskTellsRequests(ch: seq<Channel>, i: nat)
    requires i < |ch|
    ensures 0 <= SlotMask(ch) < SlotBit(|ch|)
    ensures SlotMask(ch) / SlotBit(i) % 4 == Requests(ch[i])
  {
    var n := |ch| - 1;
    hide Requests;
    var low := SlotMask(ch[..n]);
    if n > 0 { MaskTellsRequests(ch[..n], if i < n then i else 0); }
    hide SlotBit;
    assert 0 <= low < SlotBit(n);
    assert SlotMask(ch) == low + Requests(ch[n]) * SlotBit(n) by { MaskStep(ch); }
    TopDigit(low, Requests(ch[n]), n);
    if i < n { LowerDigit(low, Requests(ch[n]), i, n); }
  }

  lemma MaskStep(ch: seq<Channel>)
    requires ch != []
    ensures SlotMask(ch) == SlotMask(ch[..|ch| - 1]) + Requests(ch[|ch| - 1]) * SlotBit(|ch| - 1)
  {
    hide SlotBit, Requests;
    var c, p := ch[|ch| - 1], SlotBit(|ch| - 1);
    RequestBits(c, p);
  }

  lemma RequestBits(c: Channel, p: int)
    ensures Requests(c) * p == (if c.dma.dr then 2 * p else 0) + if c.dma.dsr then p else 0
  {
  }

  lemma TopDigit(low: int, digit: int, n: nat)
    requires 0 <= low < SlotBit(n) && 0 <= digit <= 3
    ensures (low + digit * SlotBit(n)) / SlotBit(n) % 4 == digit
    ensures 0 <= low + digit * SlotBit(n) < SlotBit(n + 1)
  {
    ModUnique(low + digit * SlotBit(n), SlotBit(n), digit, low);
  }

  lemma LowerDigit(low: int, digit: int, i: nat, n: nat)
    requires i < n && 0 <= digit <= 3
    ensures (low + digit * SlotBit(n)) / SlotBit(i) % 4 == low / SlotBit(i) % 4
  {
    HigherBits(i, n);
    Times(digit, SlotBit(n - 1 - i), SlotBit(i));
    ShiftDigits(low, digit * SlotBit(n - 1 - i), SlotBit(i));
  }

  lemma Times(digit: int, m: int, p: int)
    ensures digit * (4 * (m * p)) == 4 * ((digit * m) * p)
  {
    assert (digit * m) * p == digit * (m * p);
  }

  lemma ShiftDigits(low: int, m: int, p: int)
    requires p > 0
    ensures (low + 4 * (m * p)) / p % 4 == low / p % 4
  {
    assert low == low / p * p + low % p;
    assert (4 * m) * p == 4 * (m * p);
    ModUnique(low + (4 * m) * p, p, low / p + 4 * m, low % p);
    ModShift(low / p, 4, m);
  }

  lemma {:induction false} HigherBits(i: nat, n: nat)
    requires i < n
    ensures SlotBit(n) == 4 * (SlotBit(n - 1 - i) * SlotBit(i))
  {
    if i + 1 < n { HigherBits(i, n - 1); }
  }

  /** The argument of the delayed event: the channel in the low bits, the enable flag, the word, and a
      mark that the reload flag has been set already. */
  datatype Argument = Argument(nr: nat, value: int, enabled: bool, preset: bool)

  function Packed(a: Argument): int {
    a.nr + (if a.enabled then 0x80 else 0) + a.value * 0x100 + if a.preset then 0x8000_0000 else 0
  }

  function Unpacked(v: int): (a: Argument)
    requires 0 <= v < TWO_32
    ensures a.nr < AUDIO_CHANNELS_PAULA && 0 <= a.value < 0x10000
  {
    Argument(v % 4, v / 0x100 % 0x10000, v / 0x80 % 2 == 1, v / 0x8000_0000 == 1)
  }

  /** The event gets back what AUDxDAT packed. */
  lemma ArgumentRoundTrip(a: Argument)
    requires a.nr < AUDIO_CHANNELS_PAULA && 0 <= a.value < 0x10000
    ensures 0 <= Packed(a) < TWO_32 && Unpacked(Packed(a)) == a
  {
    var x, v, e, p := Packed(a), a.value, if a.enabled then 1 else 0, if a.preset then 1 else 0;
    assert x == a.nr + 0x80 * e + 0x100 * v + 0x8000_0000 * p;
    ModUnique(x, 4, 0x20 * e + 0x40 * v + 0x2000_0000 * p, a.nr);
    ModUnique(x, 0x100, v + 0x80_0000 * p, a.nr + 0x80 * e);
    ModUnique(v + 0x80_0000 * p, 0x10000, 0x80 * p, v);
    ModUnique(x, 0x80, e + 2 * v + 0x100_0000 * p, a.nr);
    ModUnique(e + 2 * v + 0x100_0000 * p, 2, v + 0x80_0000 * p, e);
    ModUnique(x, 0x8000_0000, p, a.nr + 0x80 * e + 0x100 * v);
  }

  /** The horizon does not depend on the clock reading. */
  lemma SameHorizon(e: Env, s: Engine, t: Engine, n: int)
    requires s.ch == t.ch && s.next == t.next
    ensures BestEvent(e, s, n) == BestEvent(e, t, n)
  {
  }

  lemma PreThenCount(e: Env, ch: seq<Channel>, best: nat)
    requires |ch| <= |e.lines| && forall i :: 0 <= i < |ch| ==> Blep.ValidQueue(ch[i].data.sinc)
    ensures forall i :: 0 <= i < |ch| ==>
              var c := ch[i].(data := Prehandle(e, e.lines[i], ch[i].data, best));
              c.(evtime := if c.evtime == MAX_EV then MAX_EV else c.evtime - best) == TickAll(e, ch, best)[i] &&
              Blep.ValidQueue(c.data.sinc)
  {
  }
}

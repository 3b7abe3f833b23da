/** When the Paula engine puts out samples (src/core/audio.cpp): the sample clock over whole runs. */
module PaulaClock {
  import opened PaulaChannel
  import opened PaulaEngine
  import opened PaulaRegisters
  import opened PaulaClaims
  import opened PaulaFeeds

  /** The sample clock after `k` more samples. */
  function After(next: real, sampleTime: real, k: nat): real {
    next + k as real * sampleTime
  }

  /** When sample `k` from now on is due, counted from now. */
  function DueAt(next: real, sampleTime: real, k: nat): int {
    Rounded(After(next, sampleTime, k))
  }

  /** From `s` to `t` the samples put out are exactly those whose time has come, each at that time; the clock
      has lost the time that passed and gained one distance per sample. */
  ghost predicate Clocked(sampleTime: real, s: Engine, t: Engine) {
    && s.time <= t.time && s.samples <= t.samples
    && var n, count := t.time - s.time, |t.samples| - |s.samples|;
       && (forall k: nat :: k < count ==>
             && DueAt(s.next, sampleTime, k) <= n
             && t.samples[|s.samples| + k].time == s.time + DueAt(s.next, sampleTime, k))
       && DueAt(s.next, sampleTime, count) > n
       && t.next == After(s.next, sampleTime, count) - n as real
  }

  /** Nothing has been due yet. */
  lemma ClockedNow(sampleTime: real, s: Engine)
    requires s.next >= 0.5
    ensures Clocked(sampleTime, s, s)
  {
    assert 0 as real * sampleTime == 0.0;
  }

  lemma LaterDue(s: Engine, t: Engine, sampleTime: real, k: nat)
    requires Clocked(sampleTime, s, t)
    ensures DueAt(t.next, sampleTime, k) ==
            DueAt(s.next, sampleTime, |t.samples| - |s.samples| + k) - (t.time - s.time)
  {
    hide Rounded, After;
    var count, n := |t.samples| - |s.samples|, t.time - s.time;
    AfterMore(s.next, sampleTime, count, k, n);
    RoundedShifts(After(s.next, sampleTime, count + k), n);
  }

  lemma AfterMore(next: real, sampleTime: real, a: nat, b: nat, n: int)
    ensures After(After(next, sampleTime, a) - n as real, sampleTime, b) == After(next, sampleTime, a + b) - n as real
  {
    TimesSum(a, b, sampleTime);
  }

  lemma TimesSum(a: int, b: int, x: real)
    ensures (a + b) as real * x == a as real * x + b as real * x
  {
  }

  lemma ClockedOn(sampleTime: real, s: Engine, t: Engine, u: Engine)
    requires Clocked(sampleTime, s, t) && Clocked(sampleTime, t, u)
    ensures Clocked(sampleTime, s, u)
  {
    hide DueAt, After;
    var first, all := |t.samples| - |s.samples|, |u.samples| - |s.samples|;
    forall k: nat | k < all
      ensures DueAt(s.next, sampleTime, k) <= u.time - s.time
      ensures u.samples[|s.samples| + k].time == s.time + DueAt(s.next, sampleTime, k)
    {
      if k < first {
        assert u.samples[|s.samples| + k] == t.samples[|s.samples| + k];
      } else {
        LaterDue(s, t, sampleTime, k - first);
        assert u.samples[|t.samples| + (k - first)].time == t.time + DueAt(t.next, sampleTime, k - first);
      }
    }
    LaterDue(s, t, sampleTime, all - first);
    AfterMore(s.next, sampleTime, first, all - first, t.time - s.time);
    assert (u.time - s.time) as real == (t.time - s.time) as real + (u.time - t.time) as real;
  }

  /** A pass without a sample. */
  lemma TimePasses(sampleTime: real, s: Engine, t: Engine, best: nat)
    requires t.time == s.time + best && t.samples == s.samples && t.next == s.next - best as real
    requires Rounded(s.next) > best
    ensures Clocked(sampleTime, s, t)
  {
    hide Rounded;
    assert 0 as real * sampleTime == 0.0;
  }

  /** A pass with a sample at its end. */
  lemma SampleTaken(sampleTime: real, s: Engine, t: Engine, best: nat)
    requires t.time == s.time + best && t.next == s.next + sampleTime - best as real && sampleTime >= 1.0
    requires |t.samples| == |s.samples| + 1 && s.samples <= t.samples && t.samples[|s.samples|].time == t.time
    requires Rounded(s.next) == best
    ensures Clocked(sampleTime, s, t)
  {
    assert 0 as real * sampleTime == 0.0 && 1 as real * sampleTime == sampleTime;
    RoundedShifts(s.next + 1.0, -1);
    assert Rounded(s.next + 1.0) == best + 1 <= Rounded(s.next + sampleTime);
    hide Rounded;
  }

  lemma PassClocked(e: Env, s: Engine, best: nat)
    requires Inv(e, s) && e.output && best >= 1 && NothingBefore(e, s, best)
    ensures Clocked(e.sampleTime, s, Pass(e, s, best))
  {
    hide Armed, ServeDue, Tick, SampleOf, Clocked, Rounded;
    PassIs(e, s, best, 0);
    if Rounded(s.next) == best {
      SampleTaken(e.sampleTime, s, Pass(e, s, best), best);
    } else {
      TimePasses(e.sampleTime, s, Pass(e, s, best), best);
    }
  }

  /** Over `n` time units of the loop. */
  lemma {:induction false} RunClocked(e: Env, s: Engine, n: nat)
    requires Inv(e, s) && e.output
    ensures Clocked(e.sampleTime, s, Run(e, s, n))
    decreases n
  {
    hide Clocked, Pass, NothingBefore, BestEvent;
    if n == 0 {
      ClockedNow(e.sampleTime, s);
    } else {
      var best := BestEvent(e, s, n);
      BestEventIs(e, s, n);
      PassKeepsInv(e, s, best);
      PassClocked(e, s, best);
      RunClocked(e, Pass(e, s, best), n - best);
      ClockedOn(e.sampleTime, s, Pass(e, s, best), Run(e, s, n));
    }
  }

  lemma UpdateClocked(e: Env, s: Engine, now: int)
    requires Inv(e, s) && e.output && e.soundOn
    ensures Clocked(e.sampleTime, s, UpdateAudio(e, s, now))
  {
    hide Clocked, Run, Armed;
    if now > s.time {
      RunClocked(e, s, now - s.time);
    } else {
      NoRun(e, s, now - s.time);
      ClockedNow(e.sampleTime, s);
    }
  }

  lemma SameClock(sampleTime: real, s: Engine, q: Engine, t: Engine, u: Engine)
    requires Clocked(sampleTime, q, t)
    requires s.samples == q.samples && s.next == q.next && s.time == q.time
    requires t.samples == u.samples && t.next == u.next && t.time == u.time
    ensures Clocked(sampleTime, s, u)
  {
    hide DueAt, After;
  }

  /** No operation puts out a sample by itself or moves the clock. */
  lemma ApplyClocked(d: Device, op: Op)
    requires Valid(d) && ValidOp(op) && d.env.output && d.env.soundOn
    ensures Clocked(d.env.sampleTime, d.engine, Apply(d, op).engine)
  {
    hide Apply, Advanced, Updates, Now, UpdateAudio, Armed, Clocked;
    var q := Advanced(d, op);
    OnlyUpdateFeeds(d, op, 0);
    AdvancedIs(d, op, 0);
    var t := if Updates(d, op) then UpdateAudio(d.env, q, Now(op)) else q;
    if Updates(d, op) { UpdateClocked(d.env, q, Now(op)); } else { ClockedNow(d.env.sampleTime, q); }
    SameClock(d.env.sampleTime, d.engine, q, t, Apply(d, op).engine);
  }

  /* ---------- Main results ---------- */

  /** Over any run of operations: the samples put out are exactly those whose time has come, each at its time,
      `sampleTime` apart before rounding. */
  lemma SamplesComeOnTime(d: Device, ops: seq<Op>)
    requires Valid(d) && forall i :: 0 <= i < |ops| ==> ValidOp(ops[i])
    requires d.env.output && d.env.soundOn
    ensures var s, t := d.engine, ApplyAll(d, ops).engine;
            && s.time <= t.time && s.samples <= t.samples
            && var n, count := t.time - s.time, |t.samples| - |s.samples|;
               && (forall k: nat :: DueAt(s.next, d.env.sampleTime, k) <= n <==> k < count)
               && (forall k: nat :: k < count ==>
                     t.samples[|s.samples| + k].time == s.time + DueAt(s.next, d.env.sampleTime, k))
               && t.next == After(s.next, d.env.sampleTime, count) - n as real
  {
    hide Clocked, ApplyAll, Armed;
    ApplyAllClocked(d, ops);
    OnlyThose(d.env.sampleTime, d.engine, ApplyAll(d, ops).engine);
  }

  lemma {:induction false} ApplyAllClocked(d: Device, ops: seq<Op>)
    requires Valid(d) && forall i :: 0 <= i < |ops| ==> ValidOp(ops[i])
    requires d.env.output && d.env.soundOn
    ensures Clocked(d.env.sampleTime, d.engine, ApplyAll(d, ops).engine)
    decreases |ops|
  {
    hide Apply, Clocked, ValidOp, Armed;
    if ops == [] {
      ClockedNow(d.env.sampleTime, d.engine);
    } else {
      ApplyClocked(d, ops[0]);
      FixedPreferences(d, ops[0]);
      ApplyKeepsValid(d, ops[0]);
      ApplyAllClocked(Apply(d, ops[0]), ops[1..]);
      ClockedOn(d.env.sampleTime, d.engine, Apply(d, ops[0]).engine, ApplyAll(d, ops).engine);
    }
  }

  lemma DueLater(next: real, sampleTime: real, k: nat, m: nat)
    requires sampleTime >= 0.0 && k <= m
    ensures DueAt(next, sampleTime, k) <= DueAt(next, sampleTime, m)
  {
    hide Rounded;
    TimesSum(k, m - k, sampleTime);
    NotNegative(m - k, sampleTime);
    RoundedGrows(After(next, sampleTime, k), After(next, sampleTime, m));
  }

  lemma NotNegative(a: nat, x: real)
    requires x >= 0.0
    ensures a as real * x >= 0.0
  {
    var r := a as real;
    assert r >= 0.0 && r * x >= 0.0;
  }

  lemma RoundedGrows(x: real, y: real)
    requires x <= y
    ensures Rounded(x) <= Rounded(y)
  {
    var a, b := Rounded(x), Rounded(y);
    hide Rounded;
    assert a as real - 0.5 < b as real + 0.5;
    assert (a - b) as real == a as real - b as real;
  }

  lemma OnlyThose(sampleTime: real, s: Engine, t: Engine)
    requires Clocked(sampleTime, s, t) && sampleTime >= 0.0
    ensures s.time <= t.time && s.samples <= t.samples
    ensures var n, count := t.time - s.time, |t.samples| - |s.samples|;
            && (forall k: nat :: DueAt(s.next, sampleTime, k) <= n <==> k < count)
            && (forall k: nat :: k < count ==>
                  t.samples[|s.samples| + k].time == s.time + DueAt(s.next, sampleTime, k))
            && t.next == After(s.next, sampleTime, count) - n as real
  {
    hide DueAt, After;
    var count := |t.samples| - |s.samples|;
    forall k: nat ensures DueAt(s.next, sampleTime, k) <= t.time - s.time <==> k < count {
      if k >= count { DueLater(s.next, sampleTime, count, k); }
    }
  }

  /** From reset the k-th sample comes after k + 1 distances. */
  lemma SamplesFromReset(e: Env, start: int, ops: seq<Op>, k: nat)
    requires ValidEnv(e) && e.output && e.soundOn && forall i :: 0 <= i < |ops| ==> ValidOp(ops[i])
    ensures var t := ApplyAll(Reset(e, start), ops).engine;
            && (k < |t.samples| <==> start + Rounded((k + 1) as real * e.sampleTime) <= t.time)
            && (k < |t.samples| ==> t.samples[k].time == start + Rounded((k + 1) as real * e.sampleTime))
  {
    hide ApplyAll, Armed, DueAt, After, Rounded, Reset;
    ResetClock(e, start);
    SamplesComeOnTime(Reset(e, start), ops);
    FirstDue(e.sampleTime, k);
  }

  lemma ResetClock(e: Env, start: int)
    ensures var d := Reset(e, start);
            d.env == e && d.engine.next == e.sampleTime && d.engine.samples == [] && d.engine.time == start
  {
  }

  lemma FirstDue(sampleTime: real, k: nat)
    ensures DueAt(sampleTime, sampleTime, k) == Rounded((k + 1) as real * sampleTime)
  {
    hide Rounded;
    TimesSum(k, 1, sampleTime);
    assert 1.0 * sampleTime == sampleTime;
    assert 1 as real == 1.0;
  }
}

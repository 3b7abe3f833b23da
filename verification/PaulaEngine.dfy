/** update_audio (src/core/audio.cpp): a discrete-event loop that carries the four Paula channels and
    the sample clock from `last_cycles` to now, whatever happens in between. */
module PaulaEngine {
  import opened Arith
  import opened Words
  import opened PaulaChannel
  import Blep

  /** One output instant: when, and the level of every channel. */
  datatype Emitted = Emitted(time: int, levels: seq<int>)

  /** `next` is next_sample_evtime, `time` the emulated time reached (last_cycles between calls). */
  datatype Engine = Engine(ch: seq<Channel>, next: real, time: int, samples: seq<Emitted>)

  /** Floor, or one more from a half on. */
  function Rounded(x: real): (r: int)
    ensures r as real - 0.5 <= x < r as real + 0.5
  {
    if x - x.Floor as real >= 0.5 then x.Floor + 1 else x.Floor
  }

  /** The channel's output before interpolation; attached channels are silent. */
  function Level(l: Line, d: Data): int {
    if l.attachVolume || l.attachPeriod then 0 else d.currentSample * d.mixvol
  }

  /** The sample prehandlers. */
  function Prehandle(e: Env, l: Line, d: Data, best: nat): Data
    requires Blep.ValidQueue(d.sinc)
  {
    if !e.output then d
    else
      var f := d.(history := Blep.Record(d.history, Blep.Call(Level(l, d), best)));
      match e.interpolation
      case Plain => f
      case Anti => f.(accum := S32(d.accum + Level(l, d) * best), accumTime := S32(d.accumTime + best))
      case Sinc => f.(sinc := Blep.Prehandler(d.sinc, Level(l, d), best))
  }

  /** `best` time units pass for one channel. */
  function Tick(e: Env, l: Line, c: Channel, best: nat): Channel
    requires Blep.ValidQueue(c.data.sinc)
  {
    c.(data := Prehandle(e, l, c.data, best), evtime := if c.evtime == MAX_EV then MAX_EV else c.evtime - best)
  }

  /** Division as C does it. */
  function TruncDiv(a: int, b: int): int
    requires b != 0
  {
    if a >= 0 then a / b else -((-a) / b)
  }

  /** The remainder has the sign of the dividend and is smaller than the divisor. */
  lemma Truncates(a: int, b: int)
    requires b != 0
    ensures var rest, size := a - TruncDiv(a, b) * b, if b > 0 then b else -b;
            (a >= 0 ==> 0 <= rest < size) && (a < 0 ==> -size < rest <= 0)
  {
    var n := if a >= 0 then a else -a;
    assert n == n / b * b + n % b;
    assert -(n / b) * b == -(n / b * b);
  }

  /** What the sample handlers take from one channel. */
  function SampleOf(e: Env, l: Line, d: Data): int
    requires ValidEnv(e) && Blep.ValidQueue(d.sinc)
  {
    match e.interpolation
    case Plain => Level(l, d)
    case Anti => Blep.Clamp16(if d.accumTime != 0 then TruncDiv(d.accum, d.accumTime) else 0)
    case Sinc => Blep.Sample(d.sinc, e.winsinc)
  }

  function Drained(e: Env, c: Channel): Channel {
    if e.interpolation.Anti? then c.(data := c.data.(accum := 0, accumTime := 0)) else c
  }

  ghost predicate AllArmed(ch: seq<Channel>) {
    |ch| == AUDIO_CHANNELS_PAULA && forall i :: 0 <= i < |ch| ==> Armed(ch[i])
  }

  ghost predicate Inv(e: Env, s: Engine) {
    && ValidEnv(e)
    && AllArmed(s.ch)
    && (e.output ==> s.next >= 0.5)
  }

  /** The nearest channel event, or the bound if that comes first. */
  function Soonest(ch: seq<Channel>, bound: int): int {
    if ch == [] then bound
    else
      var last := ch[|ch| - 1];
      var rest := Soonest(ch[..|ch| - 1], bound);
      if last.evtime != MAX_EV && rest > last.evtime then last.evtime else rest
  }

  /** How far one pass of the loop goes. */
  function BestEvent(e: Env, s: Engine, n: int): int {
    var soonest := Soonest(s.ch, n + 1);
    var best := if e.output && soonest > Rounded(s.next) then Rounded(s.next) else soonest;
    if best > n then n else best
  }

  function TickAll(e: Env, ch: seq<Channel>, best: nat): (r: seq<Channel>)
    requires |ch| <= |e.lines| && forall i :: 0 <= i < |ch| ==> Blep.ValidQueue(ch[i].data.sinc)
    ensures |r| == |ch| && forall i :: 0 <= i < |ch| ==> r[i] == Tick(e, e.lines[i], ch[i], best)
  {
    seq(|ch|, i requires 0 <= i < |ch| => Tick(e, e.lines[i], ch[i], best))
  }

  /** The sample handler, when a sample is due. */
  function Emit(e: Env, ch: seq<Channel>, time: int): (r: (seq<Channel>, Emitted))
    requires ValidEnv(e) && |ch| == AUDIO_CHANNELS_PAULA
    requires forall i :: 0 <= i < |ch| ==> Blep.ValidQueue(ch[i].data.sinc)
    ensures |r.0| == |ch| && forall i :: 0 <= i < |ch| ==> r.0[i] == Drained(e, ch[i])
  {
    (seq(|ch|, i requires 0 <= i < |ch| => Drained(e, ch[i])),
     Emitted(time, seq(|ch|, i requires 0 <= i < |ch| => SampleOf(e, e.lines[i], ch[i].data))))
  }

  function Modulate(c: Channel, m: Modulation): Channel {
    match m
    case NoModulation => c
    case Period(p) => c.(per := p)
    case Volume(v) => c.(data := c.data.(audvol := v))
  }

  function Modulated(ch: seq<Channel>, nr: nat, m: Modulation): (r: seq<Channel>)
    ensures |r| == |ch|
  {
    if nr < |ch| then ch[nr := Modulate(ch[nr], m)] else ch
  }

  /** audio_state_channel for channel `nr`, with its effect on the next one. */
  function Serve(e: Env, ch: seq<Channel>, time: int, nr: nat, perfin: bool): (r: seq<Channel>)
    requires nr < |ch| <= |e.lines|
    ensures |r| == |ch|
  {
    var (d, done, m) := StateChannel2(e, ch[nr], nr, time, perfin);
    Modulated(ch[nr := if done then d.(dma := d.dma.(datWritten := false)) else d], nr + 1, m)
  }

  /** The service loop, from channel `i` on. */
  function ServeDue(e: Env, ch: seq<Channel>, time: int, i: nat): (r: seq<Channel>)
    requires i <= |ch| <= |e.lines|
    ensures |r| == |ch|
    decreases |ch| - i
  {
    if i == |ch| then ch
    else ServeDue(e, if ch[i].evtime == 0 then Serve(e, ch, time, i, true) else ch, time, i + 1)
  }

  /** Time passes; nothing is due. */
  function Wait(e: Env, s: Engine, best: nat): Engine
    requires Inv(e, s)
  {
    Engine(TickAll(e, s.ch, best), s.next - best as real, s.time + best, s.samples)
  }

  /** The sample instant, if `best` reaches it. */
  function Sampled(e: Env, s: Engine, best: nat): Engine
    requires Inv(e, s)
  {
    var w := Wait(e, s, best);
    if e.output && Rounded(s.next) == best then
      var (ch, emitted) := Emit(e, w.ch, w.time);
      w.(ch := ch, next := w.next + e.sampleTime, samples := w.samples + [emitted])
    else w
  }

  /** One pass of the loop over `best` time units. */
  function Pass(e: Env, s: Engine, best: nat): Engine
    requires Inv(e, s)
  {
    var w := Sampled(e, s, best);
    w.(ch := ServeDue(e, w.ch, w.time, 0))
  }

  /* ---------- Every pass makes progress and keeps the channels armed ---------- */

  /** Nothing happens before `d` time units have passed. */
  ghost predicate NothingBefore(e: Env, s: Engine, d: int) {
    && (forall i :: 0 <= i < |s.ch| ==> s.ch[i].evtime == MAX_EV || d <= s.ch[i].evtime)
    && (e.output ==> d <= Rounded(s.next))
  }

  lemma Sooner(e: Env, s: Engine, d: int)
    requires NothingBefore(e, s, d + 1)
    ensures NothingBefore(e, s, d)
  {
  }

  lemma {:induction false} SoonestIs(ch: seq<Channel>, bound: int)
    ensures var r := Soonest(ch, bound);
            && r <= bound
            && (forall i :: 0 <= i < |ch| && ch[i].evtime != MAX_EV ==> r <= ch[i].evtime)
            && (r < bound ==> exists i :: 0 <= i < |ch| && ch[i].evtime != MAX_EV && r == ch[i].evtime)
  {
    if ch != [] {
      var init := ch[..|ch| - 1];
      SoonestIs(init, bound);
      var r := Soonest(ch, bound);
      if r < bound && r == Soonest(init, bound) {
        var i :| 0 <= i < |init| && init[i].evtime != MAX_EV && r == init[i].evtime;
        assert ch[i].evtime == r;
      } else if r < bound {
        assert ch[|ch| - 1].evtime == r;
      }
    }
  }

  /** A pass takes all the time there is, or stops exactly at the next event. */
  lemma BestEventIs(e: Env, s: Engine, n: int)
    requires Inv(e, s) && n > 0
    ensures var best := BestEvent(e, s, n);
            && 1 <= best <= n
            && NothingBefore(e, s, best)
            && (best < n ==> !NothingBefore(e, s, best + 1))
  {
    SoonestIs(s.ch, n + 1);
    assert e.output ==> Rounded(s.next) >= 1;
  }

  lemma BestEventUnique(e: Env, s: Engine, n: int, d: int)
    requires Inv(e, s) && 1 <= d <= n && NothingBefore(e, s, d)
    requires d < n ==> !NothingBefore(e, s, d + 1)
    ensures BestEvent(e, s, n) == d
  {
    BestEventIs(e, s, n);
  }

  predicate ArmedOrDue(c: Channel) {
    Armed(c) || Due(c)
  }

  ghost predicate ServedUpTo(ch: seq<Channel>, i: int) {
    forall k :: 0 <= k < |ch| ==> if k < i then Armed(ch[k]) else ArmedOrDue(ch[k])
  }

  lemma ServeArms(e: Env, ch: seq<Channel>, time: int, nr: nat)
    requires ValidEnv(e) && |ch| == AUDIO_CHANNELS_PAULA && nr < |ch| && ServedUpTo(ch, nr)
    ensures ServedUpTo(Serve(e, ch, time, nr, true), nr + 1)
  {
    ServiceArms(e, ch[nr], nr, time, true);
    var (d, done, m) := StateChannel2(e, ch[nr], nr, time, true);
    if nr + 1 < |ch| { ModulateArms(ch[nr + 1], m); }
  }

  lemma ModulateArms(c: Channel, m: Modulation)
    requires GoodModulation(m)
    ensures Armed(c) ==> Armed(Modulate(c, m))
    ensures Due(c) ==> Due(Modulate(c, m))
  {
  }

  lemma {:induction false} ServeDueArms(e: Env, ch: seq<Channel>, time: int, i: nat)
    requires ValidEnv(e) && |ch| == AUDIO_CHANNELS_PAULA && i <= |ch| && ServedUpTo(ch, i)
    ensures var r := ServeDue(e, ch, time, i); |r| == |ch| && ServedUpTo(r, |ch|)
    decreases |ch| - i
  {
    if i < |ch| {
      if ch[i].evtime == 0 { ServeArms(e, ch, time, i); }
      ServeDueArms(e, if ch[i].evtime == 0 then Serve(e, ch, time, i, true) else ch, time, i + 1);
    }
  }

  lemma PassKeepsInv(e: Env, s: Engine, best: nat)
    requires Inv(e, s) && best >= 1 && NothingBefore(e, s, best)
    ensures Inv(e, Pass(e, s, best)) && Pass(e, s, best).time == s.time + best
  {
    var w := Sampled(e, s, best);
    SampledAreServed(e, s, best);
    ServeDueArms(e, w.ch, w.time, 0);
  }

  /** When the wait is over every channel is armed or due. */
  lemma SampledAreServed(e: Env, s: Engine, best: nat)
    requires Inv(e, s) && best >= 1 && NothingBefore(e, s, best)
    ensures var w := Sampled(e, s, best); |w.ch| == AUDIO_CHANNELS_PAULA && ServedUpTo(w.ch, 0)
  {
    hide Prehandle, SampleOf;
    forall i | 0 <= i < |s.ch| ensures ArmedOrDue(Tick(e, e.lines[i], s.ch[i], best)) {
      TickArms(e, e.lines[i], s.ch[i], best);
    }
    forall i | 0 <= i < |s.ch| ensures ArmedOrDue(Sampled(e, s, best).ch[i]) {
      DrainedArms(e, Tick(e, e.lines[i], s.ch[i], best));
    }
  }

  lemma TickArms(e: Env, l: Line, c: Channel, best: nat)
    requires Armed(c) && (c.evtime == MAX_EV || best <= c.evtime)
    ensures ArmedOrDue(Tick(e, l, c, best))
  {
  }

  lemma DrainedArms(e: Env, c: Channel)
    ensures ArmedOrDue(Drained(e, c)) == ArmedOrDue(c)
  {
  }

  /** The loop of update_audio: `n` time units from here, one pass after the other.  It terminates
      because every pass takes at least one unit. */
  ghost function Run(e: Env, s: Engine, n: int): Engine
    requires Inv(e, s)
    decreases n
  {
    if n <= 0 then s
    else
      var best := BestEvent(e, s, n);
      BestEventIs(e, s, n);
      PassKeepsInv(e, s, best);
      Run(e, Pass(e, s, best), n - best)
  }

  lemma {:induction false} RunKeepsInv(e: Env, s: Engine, n: int)
    requires Inv(e, s)
    ensures Inv(e, Run(e, s, n)) && Run(e, s, n).time == s.time + if n > 0 then n else 0
    decreases n
  {
    hide Inv, Pass, BestEvent, NothingBefore;
    if n > 0 {
      var best := BestEvent(e, s, n);
      BestEventIs(e, s, n);
      PassKeepsInv(e, s, best);
      RunKeepsInv(e, Pass(e, s, best), n - best);
    }
  }

  /** A run starts with the pass to its next event. */
  lemma RunFrom(e: Env, s: Engine, n: int, best: nat)
    requires Inv(e, s) && 1 <= best <= n && NothingBefore(e, s, best)
    requires best < n ==> !NothingBefore(e, s, best + 1)
    ensures Inv(e, Pass(e, s, best)) && Run(e, s, n) == Run(e, Pass(e, s, best), n - best)
  {
    hide Inv, Pass, BestEvent, NothingBefore;
    BestEventUnique(e, s, n, best);
    PassKeepsInv(e, s, best);
  }

  /* ---------- Waiting twice is waiting once ---------- */

  lemma PrehandleAdds(e: Env, l: Line, d: Data, a: nat, b: nat)
    requires Blep.ValidQueue(d.sinc)
    ensures Prehandle(e, l, Prehandle(e, l, d, a), b) == Prehandle(e, l, d, a + b)
  {
    hide S32, Level, Blep.Push;
    var v := Level(l, d);
    SameLevel(l, d, Prehandle(e, l, d, a));
    RecordAdds(d.history, v, a, b);
    match e.interpolation
    case Plain =>
    case Anti =>
      S32Add(d.accum + v * a, v * b);
      assert v * (a + b) == v * a + v * b;
      S32Add(d.accumTime + a, b);
    case Sinc =>
      StepsAdd(d.sinc, v, a, b);
  }

  lemma SameLevel(l: Line, d: Data, f: Data)
    requires f.currentSample == d.currentSample && f.mixvol == d.mixvol
    ensures Level(l, f) == Level(l, d)
  {
  }

  /** The level is recorded once, however the wait is cut. */
  lemma StepsAdd(q: Blep.Queue, v: int, a: nat, b: nat)
    requires Blep.ValidQueue(q)
    ensures Blep.Prehandler(Blep.Prehandler(q, v, a), v, b) == Blep.Prehandler(q, v, a + b)
  {
    hide S32;
    S32Add(q.time + a, b);
  }

  lemma RecordAdds(h: Blep.History, v: int, a: nat, b: nat)
    ensures Blep.Record(Blep.Record(h, Blep.Call(v, a)), Blep.Call(v, b)) == Blep.Record(h, Blep.Call(v, a + b))
  {
  }

  lemma RoundedShifts(x: real, k: int)
    ensures Rounded(x - k as real) == Rounded(x) - k
  {
    assert (x - k as real).Floor == x.Floor - k;
  }

  lemma WaitAdds(e: Env, s: Engine, a: nat, b: nat)
    requires Inv(e, s) && NothingBefore(e, s, a + 1)
    ensures Inv(e, Wait(e, s, a)) && Wait(e, Wait(e, s, a), b) == Wait(e, s, a + b)
    ensures forall d :: NothingBefore(e, Wait(e, s, a), d) <==> NothingBefore(e, s, a + d)
  {
    var w := Wait(e, s, a);
    RoundedShifts(s.next, a);
    forall i | 0 <= i < |s.ch|
      ensures Tick(e, e.lines[i], w.ch[i], b) == Tick(e, e.lines[i], s.ch[i], a + b)
    {
      PrehandleAdds(e, e.lines[i], s.ch[i].data, a, b);
    }
    assert Wait(e, w, b).ch == Wait(e, s, a + b).ch;
  }

  /** A pass that stops short of every event only waits. */
  lemma QuietPass(e: Env, s: Engine, d: nat)
    requires Inv(e, s) && d >= 1 && NothingBefore(e, s, d + 1)
    ensures Pass(e, s, d) == Wait(e, s, d)
  {
    var w := Wait(e, s, d);
    ServeNone(e, w.ch, w.time, 0);
  }

  lemma {:induction false} ServeNone(e: Env, ch: seq<Channel>, time: int, i: nat)
    requires i <= |ch| <= |e.lines| && forall k :: 0 <= k < |ch| ==> ch[k].evtime != 0
    ensures ServeDue(e, ch, time, i) == ch
    decreases |ch| - i
  {
    if i < |ch| { ServeNone(e, ch, time, i + 1); }
  }

  lemma PassAfterWait(e: Env, s: Engine, a: nat, b: nat)
    requires Inv(e, s) && NothingBefore(e, s, a + 1) && b >= 1
    ensures Inv(e, Wait(e, s, a)) && Pass(e, Wait(e, s, a), b) == Pass(e, s, a + b)
  {
    WaitAdds(e, s, a, b);
    RoundedShifts(s.next, a);
  }

  /* ---------- Main results ---------- */

  /** However the elapsed time is cut into calls, the channels, the accumulators, the step queues,
      the sample clock, the emitted samples and all logs come out the same. */
  lemma {:induction false} TimeSlicing(e: Env, s: Engine, a: nat, b: nat)
    requires Inv(e, s)
    ensures Inv(e, Run(e, s, a)) && Run(e, Run(e, s, a), b) == Run(e, s, a + b)
    decreases a
  {
    hide Pass, Wait, Inv, NothingBefore, BestEvent;
    RunKeepsInv(e, s, a);
    if a > 0 && b > 0 {
      if NothingBefore(e, s, a + 1) {
        SlicedWait(e, s, a, b);
      } else {
        var best := BestEvent(e, s, a);
        BestEventIs(e, s, a);
        RunFrom(e, s, a, best);
        RunFrom(e, s, a + b, best);
        TimeSlicing(e, Pass(e, s, best), a - best, b);
      }
    }
  }

  lemma SlicedWait(e: Env, s: Engine, a: nat, b: nat)
    requires Inv(e, s) && a > 0 && b > 0 && NothingBefore(e, s, a + 1)
    ensures Inv(e, Run(e, s, a)) && Run(e, Run(e, s, a), b) == Run(e, s, a + b)
  {
    hide Pass, Wait, Inv, NothingBefore, BestEvent;
    Sooner(e, s, a);
    RunFrom(e, s, a, a);
    QuietPass(e, s, a);
    var w := Wait(e, s, a);
    assert Run(e, s, a) == Run(e, w, 0) == w;
    WaitAdds(e, s, a, b);
    var best := BestEvent(e, w, b);
    BestEventIs(e, w, b);
    RunFrom(e, w, b, best);
    RunFrom(e, s, a + b, a + best);
    PassAfterWait(e, s, a, best);
  }
}

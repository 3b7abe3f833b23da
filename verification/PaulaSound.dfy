/** What a Paula channel sounds like (src/core/audio.cpp): the level it puts out against the bytes and volumes
    on its log. */
module PaulaSound {
  import opened PaulaChannel
  import opened PaulaEngine
  import opened PaulaPlayback
  import opened PaulaHistory
  import Blep

  /** A byte as a sample. */
  function Signed(b: int): int { if b < 128 then b else b - 256 }

  /** The volume at which byte `k` is heard: as the register stood when it began; for a low byte played by hand,
      when its high byte began. */
  function VolumeAt(volumes: seq<Loudness>, k: nat): int
    requires k < |volumes|
  {
    if volumes[k].manual && k > 0 then volumes[k - 1].register else volumes[k].register
  }

  /** The level just before time `t`: the last byte begun by then, and silence before the first. */
  function LevelBefore(bytes: seq<Played>, volumes: seq<Loudness>, t: int): int
    requires |bytes| == |volumes|
  {
    if bytes == [] then 0
    else
      var n := |bytes| - 1;
      if bytes[n].time < t then Signed(bytes[n].byte) * VolumeAt(volumes, n)
      else LevelBefore(bytes[..n], volumes[..n], t)
  }

  /** The sample and the volume that the channel holds are those of the last byte. */
  predicate Loud(state: int, d: Data, bytes: seq<Played>, volumes: seq<Loudness>) {
    && |bytes| == |volumes|
    && (bytes == [] ==> d.currentSample == 0 && state != 2 && state != 3 && state != 0x13)
    && (bytes != [] ==>
          var n := |bytes| - 1;
          && d.currentSample == Signed(bytes[n].byte) && d.mixvol == VolumeAt(volumes, n)
          && (state == 2 ==> !volumes[n].manual))
  }

  predicate IsLoud(c: Channel) {
    Loud(c.state, c.data, c.log.bytes, c.log.volumes)
  }

  /** A call that begins no byte. */
  lemma StaysLoud(c: Channel, d: Channel)
    requires IsLoud(c) && c.data.currentSample == d.data.currentSample && c.data.mixvol == d.data.mixvol
    requires c.log.bytes == d.log.bytes && c.log.volumes == d.log.volumes
    requires d.state == c.state || (d.state != 2 && d.state != 3 && d.state != 0x13)
    ensures IsLoud(d)
  {
  }

  lemma NextVolume(volumes: seq<Loudness>, v: Loudness)
    ensures var after := volumes + [v];
            VolumeAt(after, |volumes|) ==
            if v.manual && |volumes| > 0 then volumes[|volumes| - 1].register else v.register
  {
  }

  lemma HighIsLoud(l: Line, c: Channel, time: int)
    requires c.pbufldl && c.state == 2 && l.audible && |c.log.bytes| == |c.log.volumes|
    ensures IsLoud(EnterHigh(l, c, time))
  {
    NextVolume(c.log.volumes, Loudness(c.data.audvol, false));
  }

  /** The low byte, from a channel in which the high byte is what is heard. */
  lemma LowIsLoud(e: Env, l: Line, ena: bool, c: Channel, time: int)
    requires c.pbufldl && c.state == 3 && l.audible && c.log.bytes != []
    requires Loud(2, c.data, c.log.bytes, c.log.volumes)
    ensures IsLoud(EnterLow(e, l, ena, c, time))
  {
    NextVolume(c.log.volumes, Loudness(c.data.audvol, !ena));
  }

  lemma WordsAreLoud(e: Env, l: Line, ena: bool, c: Channel, nr: int, time: int)
    requires !l.attachVolume && !l.attachPeriod
    ensures var d := HighDone(e, l, ena, c, nr, time).0;
            d.data == c.data && d.state == 3 && d.pbufldl && SameHeard(c, d)
    ensures var d := NextWord(e, l, ena, c, nr, time).0;
            d.data == c.data && d.state == 2 && d.pbufldl && SameHeard(c, d)
    ensures var d := FirstWord(e, l, c, nr, time).0; d.state == 2 && d.pbufldl && SameHeard(c, d)
  {
    hide SetDr, LoadDat, Reloaded;
    assert SameHeard(c, LoadDat(l, c, nr, false, false).0) && SameHeard(c, LoadDat(l, c, nr, false, true).0) by {
      LoadIsHeard(l, c, nr);
    }
  }

  predicate SameHeard(c: Channel, d: Channel) {
    c.log.bytes == d.log.bytes && c.log.volumes == d.log.volumes
  }

  lemma LoadIsHeard(l: Line, c: Channel, nr: int)
    ensures SameHeard(c, LoadDat(l, c, nr, false, false).0) && SameHeard(c, LoadDat(l, c, nr, false, true).0)
  {
  }

  lemma EntryIsQuiet(e: Env, l: Line, ena: bool, c: Channel, time: int)
    requires !c.pbufldl
    ensures EnterHigh(l, c, time) == c && EnterLow(e, l, ena, c, time) == c
  {
  }

  lemma IdleIsLoud(e: Env, l: Line, ena: bool, c: Channel, nr: int, time: int)
    requires !ShortStartRefused(e, l, ena, c) && !l.attachVolume && !l.attachPeriod && l.audible
    requires c.state == 0 && IsLoud(c)
    ensures IsLoud(Idle(e, l, ena, c, nr, time).0)
  {
    hide SetDr, EnterHigh, CutShort, VolumeAt;
    if !ena && c.dma.datWritten && !l.irq {
      var d := LoadDat(l, SetIrq(c.(state := 2), time), nr, false, true).0.(pbufldl := true);
      HighIsLoud(l, d, time);
    }
  }

  lemma StartIsLoud(e: Env, l: Line, ena: bool, c: Channel, nr: int, time: int)
    requires !l.attachVolume && !l.attachPeriod && l.audible && IsLoud(c)
    ensures c.state == 1 ==> IsLoud(Start(e, ena, c, time))
    ensures c.state == 5 ==> IsLoud(Prefetch(e, l, ena, c, nr, time).0)
  {
    hide SetDr, FirstWord, EnterHigh, VolumeAt;
    WordsAreLoud(e, l, ena, c, nr, time);
    HighIsLoudAfter(l, FirstWord(e, l, c, nr, time).0, time);
  }

  lemma HighIsLoudAfter(l: Line, c: Channel, time: int)
    ensures c.pbufldl && c.state == 2 && l.audible && |c.log.bytes| == |c.log.volumes| ==> IsLoud(EnterHigh(l, c, time))
  {
    if c.pbufldl && c.state == 2 && l.audible && |c.log.bytes| == |c.log.volumes| { HighIsLoud(l, c, time); }
  }

  lemma LeavingIsLoud(e: Env, l: Line, ena: bool, c: Channel, nr: int, time: int)
    requires !l.attachVolume && !l.attachPeriod && l.audible && IsLoud(c) && !c.pbufldl
    ensures c.state == 2 ==> IsLoud(LeaveHigh(e, l, ena, c, nr, time).0)
    ensures c.state == 3 ==> IsLoud(LeaveLow(e, l, ena, c, nr, time).0)
  {
    hide EnterHigh, EnterLow, HighDone, NextWord, VolumeAt, LateCheck;
    WordsAreLoud(e, l, ena, c, nr, time);
    if c.state == 2 {
      LowIsLoud(e, l, ena, HighDone(e, l, ena, c, nr, time).0, time);
    } else if c.state == 3 {
      var d := if ena then c else ManualDone(l, c, time);
      LateIsHeard(l, c);
      WordsAreLoud(e, l, ena, d, nr, time);
      HighIsLoudAfter(l, NextWord(e, l, ena, d, nr, time).0, time);
    }
  }

  lemma LateIsHeard(l: Line, c: Channel)
    ensures SameHeard(c, LateCheck(l, c)) && LateCheck(l, c).data == c.data
  {
  }

  /** One call of the state machine that takes no hack. */
  lemma ServiceIsLoud(e: Env, c: Channel, nr: int, time: int, perfin: bool)
    requires 0 <= nr < |e.lines| && Unattached(e, nr) && e.lines[nr].audible && (Armed(c) || Due(c))
    requires IsLoud(c) && !HackTaken(e, c, nr)
    ensures IsLoud(StateChannel2(e, c, nr, time, perfin).0)
  {
    hide Idle, Start, Prefetch, LeaveHigh, LeaveLow, EnterHigh, EnterLow, DmaOffCheck, VolumeAt;
    var l, ena := e.lines[nr], Enabled(e, nr);
    var b := DmaOffCheck(e, l, ena, c, time);
    DmaCheckKeepsSound(e, l, ena, c, time);
    StaysLoud(c, b);
    EntryIsQuiet(e, l, ena, b, time);
    if b.state == 0 { IdleIsLoud(e, l, ena, b, nr, time); }
    StartIsLoud(e, l, ena, b, nr, time);
    LeavingIsLoud(e, l, ena, b, nr, time);
  }

  predicate MarkedAfter(c: Channel, d: Channel, manual: bool) {
    |d.log.volumes| > |c.log.volumes| ==> d.log.volumes[|c.log.volumes|].manual == manual
  }

  lemma EntryMarks(e: Env, l: Line, ena: bool, b: Channel, c: Channel, time: int)
    requires b.log.volumes == c.log.volumes
    ensures MarkedAfter(b, EnterHigh(l, c, time), false) && MarkedAfter(b, EnterLow(e, l, ena, c, time), !ena)
  {
  }

  lemma LeavingMarks(e: Env, l: Line, ena: bool, c: Channel, nr: int, time: int)
    requires !l.attachVolume && !l.attachPeriod
    ensures MarkedAfter(c, LeaveHigh(e, l, ena, c, nr, time).0, !ena)
    ensures MarkedAfter(c, LeaveLow(e, l, ena, c, nr, time).0, false)
  {
    hide EnterHigh, EnterLow, HighDone, NextWord, LateCheck;
    WordsAreLoud(e, l, ena, c, nr, time);
    EntryMarks(e, l, ena, c, HighDone(e, l, ena, c, nr, time).0, time);
    var d := if ena then c else ManualDone(l, c, time);
    LateIsHeard(l, c);
    WordsAreLoud(e, l, ena, d, nr, time);
    EntryMarks(e, l, ena, c, NextWord(e, l, ena, d, nr, time).0, time);
  }

  /** The mark of a low byte played by hand. */
  lemma ServiceMarks(e: Env, c: Channel, nr: int, time: int, perfin: bool)
    requires 0 <= nr < |e.lines| && Unattached(e, nr) && (Armed(c) || Due(c)) && !HackTaken(e, c, nr)
    ensures MarkedAfter(c, StateChannel2(e, c, nr, time, perfin).0, c.state == 2 && !Enabled(e, nr))
  {
    hide EnterHigh, EnterLow, LeaveHigh, LeaveLow, DmaOffCheck, CutShort;
    var l, ena := e.lines[nr], Enabled(e, nr);
    var b := DmaOffCheck(e, l, ena, c, time);
    DmaCheckKeepsSound(e, l, ena, c, time);
    EntryIsQuiet(e, l, ena, b, time);
    LeavingMarks(e, l, ena, b, nr, time);
    EntryMarks(e, l, ena, c, LoadDat(l, SetIrq(b.(state := 2), time), nr, false, true).0.(pbufldl := true), time);
    WordsAreLoud(e, l, ena, b, nr, time);
    EntryMarks(e, l, ena, c, FirstWord(e, l, b, nr, time).0, time);
  }

  /* ---------- The history tells the sound ---------- */

  /** At every time since `origin` the level recorded was the one heard. */
  ghost predicate Echoed(h: Blep.History, bytes: seq<Played>, volumes: seq<Loudness>, time: int, origin: int) {
    && Tidy(h) && h.now == time - origin && |bytes| == |volumes|
    && (forall k :: 0 <= k < |bytes| ==> bytes[k].time <= time)
    && forall t :: 0 < t <= h.now ==> Blep.Total(Upto(h.changes, t)) == LevelBefore(bytes, volumes, origin + t)
  }

  lemma LevelNow(c: Channel, t: int)
    requires IsLoud(c) && (c.log.bytes != [] ==> c.log.bytes[|c.log.bytes| - 1].time < t)
    ensures LevelBefore(c.log.bytes, c.log.volumes, t) == c.data.currentSample * c.data.mixvol
  {
    hide VolumeAt;
  }

  /** A byte that begins now was not heard before. */
  lemma NotYet(bytes: seq<Played>, volumes: seq<Loudness>, b: Played, v: Loudness, t: int)
    requires |bytes| == |volumes| && t <= b.time
    ensures LevelBefore(bytes + [b], volumes + [v], t) == LevelBefore(bytes, volumes, t)
  {
    hide VolumeAt;
    assert (bytes + [b])[..|bytes|] == bytes && (volumes + [v])[..|volumes|] == volumes;
  }

  lemma AllPast(h: Blep.History, level: int, best: nat, t: int)
    requires Tidy(h) && best >= 1 && h.now < t <= h.now + best
    ensures var g := Blep.Record(h, Blep.Call(level, best)); Blep.Total(Upto(g.changes, t)) == level
  {
    hide Blep.Total;
    Recorded(h, level, best);
  }

  /** Both the level recorded for time `t` and the one heard then. */
  ghost predicate HeldAt(g: Blep.History, bytes: seq<Played>, volumes: seq<Loudness>, origin: int, level: int, t: int)
    requires |bytes| == |volumes|
  {
    Blep.Total(Upto(g.changes, t)) == level == LevelBefore(bytes, volumes, origin + t)
  }

  lemma EchoGrows(h: Blep.History, g: Blep.History, bytes: seq<Played>, volumes: seq<Loudness>, time: int,
                  best: nat, origin: int, level: int)
    requires |bytes| == |volumes| && Echoed(h, bytes, volumes, time, origin)
    requires Tidy(g) && Extends(h, g) && g.now == h.now + best
    requires forall t :: h.now < t <= g.now ==> HeldAt(g, bytes, volumes, origin, level, t)
    ensures Echoed(g, bytes, volumes, time + best, origin)
  {
    hide LevelBefore, Upto, Blep.Total, Tidy, Extends;
    forall t | 0 < t <= g.now ensures Blep.Total(Upto(g.changes, t)) == LevelBefore(bytes, volumes, origin + t) {
      if t <= h.now {
        Past(h, g, t);
      } else {
        assert HeldAt(g, bytes, volumes, origin, level, t);
      }
    }
  }

  /** Every byte so far has begun by `time`. */
  lemma BegunBy(h: Blep.History, bytes: seq<Played>, volumes: seq<Loudness>, time: int, origin: int)
    requires Echoed(h, bytes, volumes, time, origin)
    ensures Tidy(h) && h.now == time - origin && |bytes| == |volumes|
    ensures bytes != [] ==> bytes[|bytes| - 1].time <= time
  {
    hide Tidy;
  }

  /** The level is recorded while the last byte is heard. */
  lemma WaitEchoes(h: Blep.History, c: Channel, best: nat, time: int, origin: int)
    requires Echoed(h, c.log.bytes, c.log.volumes, time, origin) && IsLoud(c) && best >= 1
    ensures Echoed(Blep.Record(h, Blep.Call(c.data.currentSample * c.data.mixvol, best)), c.log.bytes, c.log.volumes,
                   time + best, origin)
  {
    hide LevelBefore, Loud, Upto, Blep.Total, Echoed, Tidy, Extends, Blep.Record;
    var level := c.data.currentSample * c.data.mixvol;
    var g := Blep.Record(h, Blep.Call(level, best));
    BegunBy(h, c.log.bytes, c.log.volumes, time, origin);
    Recorded(h, level, best);
    forall t | h.now < t <= g.now
      ensures HeldAt(g, c.log.bytes, c.log.volumes, origin, level, t)
    {
      AllPast(h, level, best, t);
      LevelNow(c, origin + t);
    }
    EchoGrows(h, g, c.log.bytes, c.log.volumes, time, best, origin, level);
  }

  /** A call that begins at most one byte, now. */
  lemma ServiceEchoes(c: Channel, d: Channel, time: int, origin: int)
    requires Echoed(c.data.history, c.log.bytes, c.log.volumes, time, origin)
    requires Quiet(c, d) || Begins(c, d, time)
    ensures Echoed(d.data.history, d.log.bytes, d.log.volumes, time, origin)
  {
    hide LevelBefore, Upto, Blep.Total, Tidy;
    if !Quiet(c, d) {
      var n := |c.log.bytes|;
      var b, v := d.log.bytes[n], d.log.volumes[n];
      assert d.log.bytes == c.log.bytes + [b] && d.log.volumes == c.log.volumes + [v];
      var h := c.data.history;
      forall t | 0 < t <= h.now
        ensures Blep.Total(Upto(h.changes, t)) == LevelBefore(d.log.bytes, d.log.volumes, origin + t)
      {
        NotYet(c.log.bytes, c.log.volumes, b, v, origin + t);
      }
    }
  }
}

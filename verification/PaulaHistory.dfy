/** The history of one channel's level, as the interpolators are fed with it (src/core/audio.cpp). */
module PaulaHistory {
  import Blep

  ghost predicate Ordered(changes: seq<Blep.Change>) {
    forall i, j :: 0 <= i < j < |changes| ==> changes[i].at <= changes[j].at
  }

  /** Every change lies in the past, in order, and they add up to the level. */
  ghost predicate Tidy(h: Blep.History) {
    && (forall i :: 0 <= i < |h.changes| ==> 0 <= h.changes[i].at < h.now)
    && Ordered(h.changes)
    && Blep.Total(h.changes) == h.level && h.now >= 0
  }

  /** The area under the level from the beginning to time `t`: every change counts from when it was made. */
  function AreaTo(changes: seq<Blep.Change>, t: int): int {
    if changes == [] then 0
    else
      var c := changes[|changes| - 1];
      AreaTo(changes[..|changes| - 1], t) + if c.at < t then c.delta * (t - c.at) else 0
  }

  /** The changes made before `t`. */
  function Upto(changes: seq<Blep.Change>, t: int): seq<Blep.Change> {
    if changes == [] || changes[|changes| - 1].at < t then changes else Upto(changes[..|changes| - 1], t)
  }

  /** The history as it was at time `t`. */
  function AsOf(h: Blep.History, t: int): Blep.History {
    var changes := Upto(h.changes, t);
    Blep.History(changes, t, Blep.Total(changes))
  }

  lemma {:induction false} AreaGrows(changes: seq<Blep.Change>, now: int, best: nat)
    requires forall i :: 0 <= i < |changes| ==> changes[i].at <= now
    ensures AreaTo(changes, now + best) == AreaTo(changes, now) + Blep.Total(changes) * best
  {
    if changes != [] {
      var init, c := changes[..|changes| - 1], changes[|changes| - 1];
      AreaGrows(init, now, best);
      assert c.delta * (now + best - c.at) == c.delta * (now - c.at) + c.delta * best;
      assert (Blep.Total(init) + c.delta) * best == Blep.Total(init) * best + c.delta * best;
    }
  }

  /** One more change, at the end. */
  lemma OneMore(changes: seq<Blep.Change>, c: Blep.Change, t: int)
    ensures AreaTo(changes + [c], t) == AreaTo(changes, t) + if c.at < t then c.delta * (t - c.at) else 0
    ensures t <= c.at ==> Upto(changes + [c], t) == Upto(changes, t)
    ensures Blep.Total(changes + [c]) == Blep.Total(changes) + c.delta
  {
    assert (changes + [c])[..|changes|] == changes;
  }

  /** The later history tells the same about the past. */
  ghost predicate Extends(h: Blep.History, g: Blep.History) {
    && h.now <= g.now
    && forall t :: t <= h.now ==>
         AreaTo(g.changes, t) == AreaTo(h.changes, t) && Upto(g.changes, t) == Upto(h.changes, t)
  }

  lemma Past(h: Blep.History, g: Blep.History, t: int)
    requires Extends(h, g) && t <= h.now
    ensures AreaTo(g.changes, t) == AreaTo(h.changes, t) && AreaTo(g.changes, h.now) == AreaTo(h.changes, h.now)
    ensures Upto(g.changes, t) == Upto(h.changes, t) && h.now <= g.now
  {
  }

  /** The level changes now. */
  lemma ChangedNow(h: Blep.History, level: int)
    requires Tidy(h)
    ensures var g := Blep.Changed(h, level);
            && g.now == h.now && Blep.Total(g.changes) == level && Extends(h, g) && Ordered(g.changes)
            && forall i :: 0 <= i < |g.changes| ==> 0 <= g.changes[i].at <= g.now
  {
    hide AreaTo, Upto, Blep.Total;
    var g := Blep.Changed(h, level);
    var c := Blep.Change(h.now, level - h.level);
    OneMore(h.changes, c, h.now);
    forall t | t <= h.now
      ensures AreaTo(g.changes, t) == AreaTo(h.changes, t) && Upto(g.changes, t) == Upto(h.changes, t)
    {
      OneMore(h.changes, c, t);
    }
  }

  /** Time passes. */
  lemma Held(h: Blep.History, best: nat)
    requires best >= 1 && Blep.Total(h.changes) == h.level && h.now >= 0 && Ordered(h.changes)
    requires forall i :: 0 <= i < |h.changes| ==> 0 <= h.changes[i].at <= h.now
    ensures var g := h.(now := h.now + best);
            && Tidy(g) && Extends(h, g) && AreaTo(g.changes, g.now) == AreaTo(h.changes, h.now) + h.level * best
  {
    hide AreaTo, Upto, Blep.Total;
    AreaGrows(h.changes, h.now, best);
  }

  lemma ExtendsOn(h: Blep.History, g: Blep.History, f: Blep.History)
    requires Extends(h, g) && Extends(g, f)
    ensures Extends(h, f)
  {
    hide AreaTo, Upto;
  }

  /** A level held for a while. */
  lemma Recorded(h: Blep.History, level: int, best: nat)
    requires Tidy(h) && best >= 1
    ensures var g := Blep.Record(h, Blep.Call(level, best));
            && Tidy(g) && Extends(h, g) && g.level == level && g.now == h.now + best
            && AreaTo(g.changes, g.now) == AreaTo(h.changes, h.now) + level * best
  {
    hide AreaTo, Upto, Blep.Total;
    var f := if level == h.level then h else Blep.Changed(h, level);
    if level != h.level { ChangedNow(h, level); }
    Held(f, best);
    ExtendsOn(h, f, f.(now := f.now + best));
    Past(h, f, h.now);
  }

  /** What was is as it was. */
  lemma AsOfNow(h: Blep.History)
    requires Tidy(h)
    ensures AsOf(h, h.now) == h
  {
  }

  /** In one time unit the area grows by the level then. */
  lemma {:induction false} AreaStep(changes: seq<Blep.Change>, t: int)
    requires Ordered(changes)
    ensures AreaTo(changes, t) == AreaTo(changes, t - 1) + Blep.Total(Upto(changes, t))
  {
    if changes != [] {
      var init, c := changes[..|changes| - 1], changes[|changes| - 1];
      AreaStep(init, t);
      if c.at < t {
        assert c.delta * (t - c.at) == c.delta * (t - 1 - c.at) + c.delta;
        AllBefore(init, t);
      }
    }
  }

  lemma AllBefore(changes: seq<Blep.Change>, t: int)
    requires changes == [] || changes[|changes| - 1].at < t
    ensures Upto(changes, t) == changes
  {
  }
}

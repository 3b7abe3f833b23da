/** How much each call moves through the host audio ring (od-leopard/leuae-audio.c), in every interleaving of the
    two threads: a callback takes all that its buffer holds or the ring has, a submit gives all that fits. */
module AudioCalls {
  import opened AudioRing

  function Least(a: int, b: int): int { if a < b then a else b }

  /** The bytes of `total` that go into a ring with `backlog` bytes in it: one frame is kept free, and only whole
      frames are taken. */
  function Room(total: int, backlog: int): int {
    var n := Least(total, 32768 - 4 - backlog);
    if n < 0 then 0 else n - n % 4
  }

  function Count(steps: seq<Step>, t: Step): nat {
    if steps == [] then 0 else Count(steps[1..], t) + if steps[0] == t then 1 else 0
  }

  ghost predicate AllValid(steps: seq<Step>) {
    forall i :: 0 <= i < |steps| ==> ValidStep(steps[i])
  }

  /* ---------- The callback ---------- */

  /** Buffers are only ever added, and bytes are only taken for a buffer. */
  lemma {:induction false} BuffersGrow(s: State, steps: seq<Step>)
    requires WellSized(s) && AllValid(steps)
    ensures var t := Exec(s, steps);
            s.buffers <= t.buffers && |s.delivered| <= |t.delivered| &&
            (|t.buffers| == |s.buffers| ==> t.delivered == s.delivered)
    decreases |steps|
  {
    if steps != [] {
      BuffersGrow(Take(s, steps[0]), steps[1..]);
    }
  }

  /** The callback that is running ends after one step for each byte and a last one. */
  lemma {:induction false} CallbackEnds(s: State, steps: seq<Step>)
    requires Inv(s) && s.consumer.Taking? && AllValid(steps)
    ensures var t, c, d := Exec(s, steps), s.consumer, |s.delivered|;
            && (|t.buffers| > |s.buffers| <==> Count(steps, Consume) > c.fill - |c.got|)
            && d + c.fill <= |s.accepted| && c.fill <= c.needed
            && (|t.buffers| > |s.buffers| ==>
                  && t.buffers[|s.buffers|] == s.accepted[d..d + c.fill] + Silence(c.needed - c.fill)
                  && |t.delivered| >= d + c.fill)
            && (|t.buffers| == |s.buffers| ==> t.delivered == s.delivered)
            && (|t.buffers| == |s.buffers| + 1 ==> |t.delivered| == d + c.fill)
    decreases |steps|
  {
    hide Exec, Take, Inv, Silence;
    KnownSizes(s);
    if steps == [] {
      ExecNone(s);
    } else {
      var u := Take(s, steps[0]);
      ExecFirst(s, steps);
      TakeKeepsInv(s, steps[0]);
      CallbackGoesOn(s, steps[0]);
      if u.consumer.Taking? {
        CallbackEnds(u, steps[1..]);
        assert u.accepted[|s.delivered|..|s.delivered| + s.consumer.fill] ==
               s.accepted[|s.delivered|..|s.delivered| + s.consumer.fill];
      } else {
        BuffersGrow(u, steps[1..]);
      }
    }
  }

  lemma KnownSizes(s: State)
    requires Inv(s)
    ensures WellSized(s) && 0 <= |s.accepted| - |s.delivered| <= 32768 - 4
    ensures s.consumer.Taking? ==> |s.delivered| + s.consumer.fill <= |s.accepted|
    ensures s.w == |s.accepted| % 32768 && s.r == |s.delivered| % 32768
  {
    hide Stored;
  }

  lemma ExecFromInit(ring: seq<byte>, steps: seq<Step>)
    requires |ring| == 32768 && AllValid(steps)
    ensures Inv(Exec(Init(ring), steps))
  {
    ExecKeepsInv(Init(ring), steps);
  }

  lemma ExecNone(s: State)
    requires WellSized(s)
    ensures Exec(s, []) == s
  {
  }

  lemma ExecFirst(s: State, steps: seq<Step>)
    requires WellSized(s) && AllValid(steps) && steps != []
    ensures AllValid(steps[1..]) && Exec(s, steps) == Exec(Take(s, steps[0]), steps[1..])
  {
  }

  lemma CallbackGoesOn(s: State, t: Step)
    requires Inv(s) && s.consumer.Taking? && ValidStep(t)
    ensures var u, c, d := Take(s, t), s.consumer, |s.delivered|;
            && s.accepted <= u.accepted && d + c.fill <= |s.accepted| && c.fill <= c.needed
            && if t.Consume? && |c.got| == c.fill then
                 && u.consumer.Quiet? && |u.delivered| == d + c.fill
                 && u.buffers == s.buffers + [s.accepted[d..d + c.fill] + Silence(c.needed - c.fill)]
               else
                 && u.consumer.Taking? && u.delivered == s.delivered && u.buffers == s.buffers
                 && u.consumer.fill == c.fill && u.consumer.needed == c.needed
                 && |u.consumer.got| == |c.got| + if t.Consume? then 1 else 0
  {
    hide Stored, Silence;
  }

  /** For every run of both threads before and after: a callback that begins with `backlog` bytes in the ring puts
      exactly the smaller of that and its size into the buffer, the oldest bytes in their order, and then silence;
      the bytes count as taken when the buffer is handed over, and it is once the callback has had a step for each
      byte and a last one. */
  lemma CallbackTakes(ring: seq<byte>, before: seq<Step>, needed: nat, after: seq<Step>)
    requires |ring| == 32768 && AllValid(before) && AllValid(after)
    requires Exec(Init(ring), before).consumer.Quiet?
    ensures var s := Exec(Init(ring), before);
            var n, d := Least(|s.accepted| - |s.delivered|, needed), |s.delivered|;
            var t := Exec(Take(s, Callback(needed)), after);
            && 0 <= n <= needed && d + n <= |s.accepted|
            && (|t.buffers| > |s.buffers| <==> Count(after, Consume) > n)
            && (|t.buffers| > |s.buffers| ==>
                  t.buffers[|s.buffers|] == s.accepted[d..d + n] + seq(needed - n, i => 0))
            && (|t.buffers| == |s.buffers| ==> |t.delivered| == d)
            && (|t.buffers| == |s.buffers| + 1 ==> |t.delivered| == d + n)
  {
    hide Exec, Inv;
    ExecFromInit(ring, before);
    var s := Exec(Init(ring), before);
    KnownSizes(s);
    var u := Take(s, Callback(needed));
    TakeKeepsInv(s, Callback(needed));
    AvailableIs(|s.accepted|, |s.delivered|);
    CallbackEnds(u, after);
    assert Silence(needed - u.consumer.fill) == seq(needed - u.consumer.fill, i => 0);
  }

  /* ---------- The submit ---------- */

  /** Bytes are only ever added to the stream. */
  lemma {:induction false} StreamGrows(s: State, steps: seq<Step>)
    requires WellSized(s) && AllValid(steps)
    ensures s.accepted <= Exec(s, steps).accepted
    ensures s.producer.Idle? && (forall i :: 0 <= i < |steps| ==> !steps[i].Submit?) ==>
              Exec(s, steps).accepted == s.accepted && Exec(s, steps).producer.Idle?
    decreases |steps|
  {
    if steps != [] {
      StreamGrows(Take(s, steps[0]), steps[1..]);
    }
  }

  lemma {:induction false} SubmitEnds(s: State, steps: seq<Step>)
    requires WellSized(s) && s.producer.Copying? && AllValid(steps)
    ensures var t, p := Exec(s, steps), s.producer;
            if Count(steps, Produce) > |p.src| - p.done then
              && s.accepted + p.src <= t.accepted
              && ((forall i :: 0 <= i < |steps| ==> !steps[i].Submit?) ==> t.accepted == s.accepted + p.src)
            else t.accepted == s.accepted
    decreases |steps|
  {
    if steps != [] {
      var u := Take(s, steps[0]);
      if u.producer.Copying? {
        SubmitEnds(u, steps[1..]);
      } else {
        StreamGrows(u, steps[1..]);
      }
    }
  }

  /** For every run of both threads before and after: a submit that begins with `backlog` bytes in the ring, those of
      a running callback included, adds exactly the first bytes that fit, in whole frames; they join the stream
      once the submit has had a step for each byte and a last one. */
  lemma SubmitGives(ring: seq<byte>, before: seq<Step>, data: seq<byte>, after: seq<Step>)
    requires |ring| == 32768 && AllValid(before) && AllValid(after) && ValidStep(Submit(data))
    requires Exec(Init(ring), before).producer.Idle?
    ensures var s := Exec(Init(ring), before);
            var n := Room(|data|, |s.accepted| - |s.delivered|);
            var t := Exec(Take(s, Submit(data)), after);
            && 0 <= n <= |data|
            && if Count(after, Produce) > n then
                 && s.accepted + data[..n] <= t.accepted
                 && ((forall i :: 0 <= i < |after| ==> !after[i].Submit?) ==> t.accepted == s.accepted + data[..n])
               else t.accepted == s.accepted
  {
    hide Exec, Inv, Available;
    ExecFromInit(ring, before);
    var s := Exec(Init(ring), before);
    KnownSizes(s);
    AvailableIs(|s.accepted|, |s.delivered|);
    SubmitEnds(Take(s, Submit(data)), after);
  }
}

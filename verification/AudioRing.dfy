/** The host audio ring (od-leopard/leuae-audio.c).  The emulation thread submits frames, the audio
    thread's callback takes them; there is no lock, only two byte indices of which each thread
    writes its own. */
module AudioRing {
  import opened Arith

  type byte = int

  const BYTES_PER_FRAME := 4
  const RING_FRAMES := 8192
  const RING_SIZE := 32768

  /** ring_available from the two indices. */
  function Available(w: int, r: int): int {
    if w >= r then w - r else RING_SIZE - r + w
  }

  /** How many bytes leuae_audio_submit takes of `total`, rounded down to whole frames. */
  function Accepts(total: int, w: int, r: int): (n: int)
  {
    var free := RING_SIZE - Available(w, r) - BYTES_PER_FRAME;
    var n := if total < free then total else free;
    if n <= 0 then 0 else n / BYTES_PER_FRAME * BYTES_PER_FRAME
  }

  /** How many bytes audio_callback takes for a buffer of `needed`. */
  function Fills(needed: int, w: int, r: int): int {
    if Available(w, r) < needed then Available(w, r) else needed
  }

  /** The emulation thread: outside leuae_audio_submit, or copying `src`, `done` bytes of it so far. */
  datatype Producer = Idle | Copying(src: seq<byte>, done: nat)

  /** The audio thread: outside audio_callback, or copying `fill` bytes into its buffer. */
  datatype Consumer = Quiet | Taking(fill: nat, needed: nat, got: seq<byte>)

  /** The shared ring and indices, both threads, and three logs: bytes the producer has published,
      bytes the consumer has taken, and the buffers handed to the audio queue. */
  datatype State = State(
    ring: seq<byte>, w: int, r: int, producer: Producer, consumer: Consumer,
    accepted: seq<byte>, delivered: seq<byte>, buffers: seq<seq<byte>>)

  /** One step of one thread: entering a call (which reads the other side's index), copying one byte,
      or publishing the own index. */
  datatype Step = Submit(data: seq<byte>) | Produce | Callback(needed: nat) | Consume

  predicate ValidStep(t: Step) {
    t.Submit? ==> |t.data| > 0 && |t.data| % BYTES_PER_FRAME == 0
  }

  predicate WellSized(s: State) {
    |s.ring| == RING_SIZE && 0 <= s.w < RING_SIZE && 0 <= s.r < RING_SIZE &&
    (s.producer.Copying? ==> s.producer.done <= |s.producer.src|) &&
    (s.consumer.Taking? ==> |s.consumer.got| <= s.consumer.fill <= s.consumer.needed)
  }

  function Init(ring: seq<byte>): State {
    State(ring, 0, 0, Idle, Quiet, [], [], [])
  }

  function Silence(n: nat): seq<byte> {
    seq(n, i => 0)
  }

  function ProducerStep(s: State): State
    requires WellSized(s) && s.producer.Copying?
  {
    var p := s.producer;
    if p.done < |p.src| then
      s.(ring := s.ring[(s.w + p.done) % RING_SIZE := p.src[p.done]], producer := p.(done := p.done + 1))
    else
      s.(w := (s.w + |p.src|) % RING_SIZE, accepted := s.accepted + p.src, producer := Idle)
  }

  function ConsumerStep(s: State): State
    requires WellSized(s) && s.consumer.Taking?
  {
    var c := s.consumer;
    if |c.got| < c.fill then
      s.(consumer := c.(got := c.got + [s.ring[(s.r + |c.got|) % RING_SIZE]]))
    else
      s.(r := (s.r + c.fill) % RING_SIZE, delivered := s.delivered + c.got,
         buffers := s.buffers + [c.got + Silence(c.needed - c.fill)], consumer := Quiet)
  }

  /** A step that does not apply (a call while one is running, or none running) changes nothing. */
  function Take(s: State, t: Step): (n: State)
    requires WellSized(s) && ValidStep(t)
    ensures WellSized(n)
  {
    match t
    case Submit(data) =>
      if s.producer.Idle? then s.(producer := Copying(data[..Accepts(|data|, s.w, s.r)], 0)) else s
    case Produce => if s.producer.Copying? then ProducerStep(s) else s
    case Callback(needed) =>
      if s.consumer.Quiet? then s.(consumer := Taking(Fills(needed, s.w, s.r), needed, [])) else s
    case Consume => if s.consumer.Taking? then ConsumerStep(s) else s
  }

  function Exec(s: State, steps: seq<Step>): (n: State)
    requires WellSized(s) && forall i :: 0 <= i < |steps| ==> ValidStep(steps[i])
    ensures WellSized(n)
    decreases |steps|
  {
    if steps == [] then s else Exec(Take(s, steps[0]), steps[1..])
  }

  /* ---------- The invariant ---------- */

  /** Published bytes not yet taken. */
  function Backlog(s: State): int {
    |s.accepted| - |s.delivered|
  }

  /** Bytes the producer is committed to on top of the backlog. */
  function Pending(s: State): int {
    if s.producer.Copying? then |s.producer.src| else 0
  }

  ghost predicate Indices(s: State) {
    && WellSized(s)
    && s.w == |s.accepted| % RING_SIZE && s.r == |s.delivered| % RING_SIZE
    && 0 <= Backlog(s) && Backlog(s) + Pending(s) <= RING_SIZE - BYTES_PER_FRAME
  }

  ghost predicate Stored(s: State)
    requires WellSized(s)
  {
    && Unread(s.ring, s.accepted, |s.delivered|)
    && (s.producer.Copying? ==> Copied(s.ring, |s.accepted|, s.producer.src, s.producer.done))
  }

  /** Every byte published and not yet taken is in its place. */
  ghost predicate Unread(ring: seq<byte>, accepted: seq<byte>, taken: nat)
    requires |ring| == RING_SIZE
  {
    forall i :: taken <= i < |accepted| ==> ring[i % RING_SIZE] == accepted[i]
  }

  /** So are the first `done` bytes of the copy that follows byte `at`. */
  ghost predicate Copied(ring: seq<byte>, at: nat, src: seq<byte>, done: nat)
    requires |ring| == RING_SIZE && done <= |src|
  {
    forall i :: 0 <= i < done ==> ring[(at + i) % RING_SIZE] == src[i]
  }

  ghost predicate Taken(s: State) {
    && |s.delivered| <= |s.accepted| && s.delivered == s.accepted[..|s.delivered|]
    && (s.consumer.Taking? ==>
          && |s.delivered| + s.consumer.fill <= |s.accepted|
          && |s.consumer.got| <= s.consumer.fill
          && s.consumer.got == s.accepted[|s.delivered|..|s.delivered| + |s.consumer.got|])
  }

  ghost predicate Inv(s: State) {
    Indices(s) && Stored(s) && Taken(s)
  }

  lemma AvailableIs(w: nat, r: nat)
    requires r <= w < r + RING_SIZE
    ensures Available(w % RING_SIZE, r % RING_SIZE) == w - r
  {
    IndexDistance(r, w, RING_SIZE);
    ModShift(w % RING_SIZE - r % RING_SIZE, RING_SIZE, 1);
  }

  lemma AcceptsFits(total: int, w: int, r: int)
    requires total >= 0
    ensures var n := Accepts(total, w, r);
            0 <= n <= total && n % BYTES_PER_FRAME == 0 &&
            (n > 0 ==> Available(w, r) + n <= RING_SIZE - BYTES_PER_FRAME)
  {
  }

  /** A byte written ahead of the backlog hits no byte that is still to be read. */
  lemma CopyInKeepsStored(s: State)
    requires Inv(s) && s.producer.Copying? && s.producer.done < |s.producer.src|
    ensures Stored(ProducerStep(s))
  {
    hide Unread, Copied, Taken;
    ModAdd(|s.accepted|, s.producer.done, RING_SIZE);
    NextByteStored(s.ring, s.accepted, |s.delivered|, s.producer.src, s.producer.done);
  }

  lemma NextByteStored(ring: seq<byte>, accepted: seq<byte>, taken: nat, src: seq<byte>, done: nat)
    requires |ring| == RING_SIZE && taken <= |accepted| && done < |src| && |accepted| - taken + |src| < RING_SIZE
    requires Unread(ring, accepted, taken) && Copied(ring, |accepted|, src, done)
    ensures var after := ring[(|accepted| + done) % RING_SIZE := src[done]];
            Unread(after, accepted, taken) && Copied(after, |accepted|, src, done + 1)
  {
    var a := |accepted|;
    OthersKept(ring, taken, a + done, src[done]);
    var after := ring[(a + done) % RING_SIZE := src[done]];
    forall i | 0 <= i < done + 1 ensures after[(a + i) % RING_SIZE] == src[i] {
      if i < done { assert taken <= a + i < a + done; }
    }
  }

  lemma OthersKept(ring: seq<byte>, from: nat, at: nat, v: byte)
    requires |ring| == RING_SIZE && at < from + RING_SIZE
    ensures var after := ring[at % RING_SIZE := v];
            forall i :: from <= i < at ==> after[i % RING_SIZE] == ring[i % RING_SIZE]
  {
    forall i | from <= i < at ensures i % RING_SIZE != at % RING_SIZE { SlotsDiffer(i, at, RING_SIZE); }
  }

  lemma PublishKeepsStored(s: State)
    requires Inv(s) && s.producer.Copying? && s.producer.done == |s.producer.src|
    ensures Stored(ProducerStep(s))
  {
    hide Unread, Copied, Taken;
    CopyPublished(s.ring, s.accepted, |s.delivered|, s.producer.src);
  }

  lemma CopyPublished(ring: seq<byte>, accepted: seq<byte>, taken: nat, src: seq<byte>)
    requires |ring| == RING_SIZE && taken <= |accepted|
    requires Unread(ring, accepted, taken) && Copied(ring, |accepted|, src, |src|)
    ensures Unread(ring, accepted + src, taken)
  {
    var a := |accepted|;
    forall i | a <= i < a + |src| ensures ring[i % RING_SIZE] == (accepted + src)[i] {
      assert ring[(a + (i - a)) % RING_SIZE] == src[i - a];
    }
  }

  lemma ProduceKeepsInv(s: State)
    requires Inv(s) && s.producer.Copying?
    ensures Inv(ProducerStep(s))
  {
    if s.producer.done < |s.producer.src| { CopyInKeepsStored(s); } else { PublishKeepsStored(s); }
    hide Stored;
    ModAdd(|s.accepted|, |s.producer.src|, RING_SIZE);
  }

  lemma CopyOutKeepsTaken(s: State)
    requires Inv(s) && s.consumer.Taking? && |s.consumer.got| < s.consumer.fill
    ensures Taken(ConsumerStep(s))
  {
    var c, d := s.consumer, |s.delivered|;
    ModAdd(d, |c.got|, RING_SIZE);
    assert s.ring[(d + |c.got|) % RING_SIZE] == s.accepted[d + |c.got|];
    hide Stored, Indices;
    var g := s.accepted[d + |c.got|];
    assert s.accepted[d..d + |c.got| + 1] == s.accepted[d..d + |c.got|] + [g];
  }

  lemma PublishKeepsTaken(s: State)
    requires Inv(s) && s.consumer.Taking? && |s.consumer.got| == s.consumer.fill
    ensures Taken(ConsumerStep(s))
  {
    hide Stored;
    var c, d := s.consumer, |s.delivered|;
    assert s.accepted[..d] + s.accepted[d..d + c.fill] == s.accepted[..d + c.fill];
  }

  lemma ConsumeKeepsInv(s: State)
    requires Inv(s) && s.consumer.Taking?
    ensures Inv(ConsumerStep(s))
  {
    if |s.consumer.got| < s.consumer.fill { CopyOutKeepsTaken(s); } else { PublishKeepsTaken(s); }
    ModAdd(|s.delivered|, s.consumer.fill, RING_SIZE);
    hide Taken;
    FewerUnread(s);
  }

  lemma FewerUnread(s: State)
    requires Inv(s) && s.consumer.Taking?
    ensures Stored(ConsumerStep(s)) && |ConsumerStep(s).delivered| <= |s.accepted|
  {
  }

  lemma TakeKeepsInv(s: State, t: Step)
    requires Inv(s) && ValidStep(t)
    ensures Inv(Take(s, t))
  {
    hide ProducerStep, ConsumerStep, Accepts, Available;
    AvailableIs(|s.accepted|, |s.delivered|);
    match t
    case Submit(data) => AcceptsFits(|data|, s.w, s.r);
    case Produce => if s.producer.Copying? { ProduceKeepsInv(s); }
    case Callback(needed) =>
    case Consume => if s.consumer.Taking? { ConsumeKeepsInv(s); }
  }

  lemma {:induction false} ExecKeepsInv(s: State, steps: seq<Step>)
    requires Inv(s) && forall i :: 0 <= i < |steps| ==> ValidStep(steps[i])
    ensures Inv(Exec(s, steps))
    decreases |steps|
  {
    hide Stored, Taken, Take;
    if steps != [] {
      TakeKeepsInv(s, steps[0]);
      ExecKeepsInv(Take(s, steps[0]), steps[1..]);
    }
  }

  /* ---------- Main results ---------- */

  /** In every interleaving of submit and callback: the bytes taken are the accepted bytes in order,
      and the ring never fills up so far that a full ring would look like an empty one. */
  lemma BytesArriveInOrder(ring: seq<byte>, steps: seq<Step>)
    requires |ring| == RING_SIZE && forall i :: 0 <= i < |steps| ==> ValidStep(steps[i])
    ensures var s := Exec(Init(ring), steps);
            && |s.delivered| <= |s.accepted|
            && s.delivered == s.accepted[..|s.delivered|]
            && |s.accepted| - |s.delivered| <= RING_SIZE - BYTES_PER_FRAME
            && (s.w == s.r <==> |s.accepted| == |s.delivered|)
  {
    ExecKeepsInv(Init(ring), steps);
    var s := Exec(Init(ring), steps);
    AvailableIs(|s.accepted|, |s.delivered|);
  }

  /** The callback asks for whole frames. */
  predicate WholeFrames(t: Step) {
    t.Callback? ==> t.needed % BYTES_PER_FRAME == 0
  }

  ghost predicate Aligned(s: State) {
    && s.w % BYTES_PER_FRAME == 0 && s.r % BYTES_PER_FRAME == 0
    && (s.producer.Copying? ==> |s.producer.src| % BYTES_PER_FRAME == 0)
    && (s.consumer.Taking? ==> s.consumer.fill % BYTES_PER_FRAME == 0)
  }

  lemma AlignedSum(a: int, b: int)
    requires a % BYTES_PER_FRAME == 0 && b % BYTES_PER_FRAME == 0
    ensures (a + b) % RING_SIZE % BYTES_PER_FRAME == 0
  {
    var q := (a + b) / RING_SIZE;
    assert (a + b) % RING_SIZE == BYTES_PER_FRAME * (a / 4 + b / 4 - RING_FRAMES * q);
  }

  lemma {:induction false} IndicesStayAligned(s: State, steps: seq<Step>)
    requires WellSized(s) && Aligned(s)
    requires forall i :: 0 <= i < |steps| ==> ValidStep(steps[i]) && WholeFrames(steps[i])
    ensures Aligned(Exec(s, steps))
    decreases |steps|
  {
    if steps != [] {
      match steps[0] {
        case Submit(data) => AcceptsFits(|data|, s.w, s.r);
        case Produce => if s.producer.Copying? { AlignedSum(s.w, |s.producer.src|); }
        case Consume => if s.consumer.Taking? { AlignedSum(s.r, s.consumer.fill); }
        case Callback(needed) =>
      }
      IndicesStayAligned(Take(s, steps[0]), steps[1..]);
    }
  }

  /** The buffer is a stretch of the stream followed by silence only. */
  ghost predicate Padded(buffer: seq<byte>, from: int, to: int, stream: seq<byte>) {
    && 0 <= from <= to <= |stream|
    && stream[from..to] <= buffer
    && forall j :: to - from <= j < |buffer| ==> buffer[j] == 0
  }

  function CutBefore(cuts: seq<int>, k: int): int
    requires 0 <= k <= |cuts|
  {
    if k == 0 then 0 else cuts[k - 1]
  }

  /** The buffers handed over are consecutive stretches of the delivered stream, each padded. */
  ghost predicate PaddedParts(buffers: seq<seq<byte>>, cuts: seq<int>, stream: seq<byte>) {
    && |cuts| == |buffers|
    && CutBefore(cuts, |cuts|) == |stream|
    && forall k :: 0 <= k < |buffers| ==> Padded(buffers[k], CutBefore(cuts, k), cuts[k], stream)
  }

  /** An underrun pads with silence and loses nothing: cutting the silence off the buffers and
      joining them gives the accepted bytes, as far as they have been taken. */
  lemma {:induction false} BuffersCarryTheStream(s: State, cuts: seq<int>, steps: seq<Step>) returns (after: seq<int>)
    requires Inv(s) && PaddedParts(s.buffers, cuts, s.delivered)
    requires forall i :: 0 <= i < |steps| ==> ValidStep(steps[i])
    ensures PaddedParts(Exec(s, steps).buffers, after, Exec(s, steps).delivered)
    decreases |steps|
  {
    if steps == [] {
      after := cuts;
    } else {
      hide Take, ConsumerStep, PaddedParts, Inv;
      var next := cuts;
      OtherStepsKeepBuffers(s, steps[0]);
      if steps[0].Consume? && s.consumer.Taking? && |s.consumer.got| == s.consumer.fill {
        next := cuts + [|s.delivered| + s.consumer.fill];
        OneMoreBuffer(s, cuts);
      }
      TakeKeepsInv(s, steps[0]);
      after := BuffersCarryTheStream(Take(s, steps[0]), next, steps[1..]);
    }
  }

  lemma OtherStepsKeepBuffers(s: State, t: Step)
    requires Inv(s) && ValidStep(t)
    ensures WellSized(s)
    ensures if t.Consume? && s.consumer.Taking? && |s.consumer.got| == s.consumer.fill then
              Take(s, t) == ConsumerStep(s)
            else Take(s, t).buffers == s.buffers && Take(s, t).delivered == s.delivered
  {
    hide Stored, Taken;
  }

  lemma OneMoreBuffer(s: State, cuts: seq<int>)
    requires WellSized(s) && PaddedParts(s.buffers, cuts, s.delivered)
    requires s.consumer.Taking? && |s.consumer.got| == s.consumer.fill
    ensures var t := ConsumerStep(s);
            PaddedParts(t.buffers, cuts + [|s.delivered| + s.consumer.fill], t.delivered)
  {
    hide Padded, Silence;
    AppendPart(s.buffers, cuts, s.delivered, s.consumer.got, s.consumer.needed);
  }

  lemma AppendPart(buffers: seq<seq<byte>>, cuts: seq<int>, stream: seq<byte>, got: seq<byte>, needed: nat)
    requires PaddedParts(buffers, cuts, stream) && |got| <= needed
    ensures PaddedParts(buffers + [got + Silence(needed - |got|)], cuts + [|stream| + |got|], stream + got)
  {
    hide Padded, Silence;
    var all, more := cuts + [|stream| + |got|], buffers + [got + Silence(needed - |got|)];
    forall k | 0 <= k < |more| ensures Padded(more[k], CutBefore(all, k), all[k], stream + got) {
      if k < |buffers| {
        PaddedExtends(buffers[k], CutBefore(cuts, k), cuts[k], stream, got);
      } else {
        LastPadded(stream, got, needed);
      }
    }
  }

  lemma PaddedExtends(buffer: seq<byte>, from: int, to: int, stream: seq<byte>, more: seq<byte>)
    requires Padded(buffer, from, to, stream)
    ensures Padded(buffer, from, to, stream + more)
  {
    assert (stream + more)[from..to] == stream[from..to];
  }

  lemma LastPadded(stream: seq<byte>, got: seq<byte>, needed: nat)
    requires |got| <= needed
    ensures Padded(got + Silence(needed - |got|), |stream|, |stream| + |got|, stream + got)
  {
    assert (stream + got)[|stream|..|stream| + |got|] == got;
  }

  /* ---------- The ring as it sits in memory ---------- */

  /** Byte-wise modular copying: what the two memcpy calls of ring_write must amount to. */
  function Put(ring: seq<byte>, w: int, src: seq<byte>): (after: seq<byte>)
    requires |ring| == RING_SIZE && 0 <= w < RING_SIZE
    ensures |after| == RING_SIZE
    decreases |src|
  {
    if src == [] then ring
    else Put(ring, w, src[..|src| - 1])[(w + |src| - 1) % RING_SIZE := src[|src| - 1]]
  }

  function Get(ring: seq<byte>, r: int, n: nat): (got: seq<byte>)
    requires |ring| == RING_SIZE && 0 <= r < RING_SIZE
    ensures |got| == n
  {
    seq(n, i requires 0 <= i < n => ring[(r + i) % RING_SIZE])
  }

  /** Up to the end of the ring the copy is straight; the rest starts again at its beginning. */
  lemma {:induction false} PutIsTwoCopies(ring: seq<byte>, w: int, src: seq<byte>)
    requires |ring| == RING_SIZE && 0 <= w < RING_SIZE && |src| <= RING_SIZE
    ensures forall k :: 0 <= k < RING_SIZE ==>
              Put(ring, w, src)[k] == if w <= k < w + |src| then src[k - w]
                                      else if k < w + |src| - RING_SIZE then src[k + RING_SIZE - w]
                                      else ring[k]
    decreases |src|
  {
    if src != [] {
      var init := src[..|src| - 1];
      PutIsTwoCopies(ring, w, init);
      var last := w + |src| - 1;
      if last < RING_SIZE { ModUnique(last, RING_SIZE, 0, last); }
      else { ModUnique(last, RING_SIZE, 1, last - RING_SIZE); }
    }
  }

  lemma TwoCopiesGet(ring: seq<byte>, r: int, n: nat, got: seq<byte>)
    requires |ring| == RING_SIZE && 0 <= r < RING_SIZE && n <= RING_SIZE && |got| == n
    requires forall k :: 0 <= k < n ==> got[k] == if r + k < RING_SIZE then ring[r + k] else ring[r + k - RING_SIZE]
    ensures got == Get(ring, r, n)
  {
    forall k | 0 <= k < n ensures got[k] == ring[(r + k) % RING_SIZE] {
      if r + k < RING_SIZE { ModUnique(r + k, RING_SIZE, 0, r + k); }
      else { ModUnique(r + k, RING_SIZE, 1, r + k - RING_SIZE); }
    }
  }

  /** The producer's byte-by-byte steps add up to the same copy. */
  lemma {:induction false} StepsAddUp(s: State, n: nat)
    requires WellSized(s) && s.producer.Copying? && s.producer.done == 0 && n <= |s.producer.src|
    ensures Exec(s, seq(n, i => Produce)) ==
            s.(ring := Put(s.ring, s.w, s.producer.src[..n]), producer := s.producer.(done := n))
  {
    if n > 0 {
      hide Exec, Put;
      PutOneMore(s.ring, s.w, s.producer.src, n - 1);
      var before := seq(n - 1, i => Produce);
      StepsAddUp(s, n - 1);
      assert seq(n, i => Produce) == before + [Produce];
      ExecOneMore(s, before);
    } else {
      assert s.producer.src[..0] == [];
    }
  }

  lemma PutOneMore(ring: seq<byte>, w: int, src: seq<byte>, n: nat)
    requires |ring| == RING_SIZE && 0 <= w < RING_SIZE && n < |src|
    ensures Put(ring, w, src[..n + 1]) == Put(ring, w, src[..n])[(w + n) % RING_SIZE := src[n]]
  {
    assert src[..n + 1][..n] == src[..n];
  }

  lemma {:induction false} ExecOneMore(s: State, steps: seq<Step>)
    requires WellSized(s) && forall i :: 0 <= i < |steps| ==> ValidStep(steps[i])
    ensures Exec(s, steps + [Produce]) == Take(Exec(s, steps), Produce)
    decreases |steps|
  {
    if steps == [] {
      assert steps + [Produce] == [Produce];
      assert Exec(s, [Produce]) == Exec(Take(s, Produce), []);
    } else {
      assert (steps + [Produce])[1..] == steps[1..] + [Produce];
      ExecOneMore(Take(s, steps[0]), steps[1..]);
    }
  }

  class Ring {
    const bytes: array<byte>
    var write: int
    var read: int

    ghost predicate Valid()
      reads this
    {
      bytes.Length == RING_SIZE && 0 <= write < RING_SIZE && 0 <= read < RING_SIZE
    }

    constructor ()
      ensures Valid() && fresh(bytes) && write == read == 0
    {
      bytes := new byte[RING_SIZE](i => 0);
      write, read := 0, 0;
    }

    /** memcpy into the ring. */
    method CopyIn(at: int, src: array<byte>, from: int, n: int)
      requires Valid() && src != bytes
      requires 0 <= at && 0 <= n && at + n <= RING_SIZE && 0 <= from && from + n <= src.Length
      modifies bytes
      ensures forall k :: 0 <= k < RING_SIZE ==>
                bytes[k] == if at <= k < at + n then src[from + k - at] else old(bytes[k])
    {
      var i := 0;
      while i < n
        invariant 0 <= i <= n
        invariant forall k :: 0 <= k < RING_SIZE ==>
                    bytes[k] == if at <= k < at + i then src[from + k - at] else old(bytes[k])
      {
        bytes[at + i] := src[from + i];
        i := i + 1;
      }
    }

    /** memcpy out of the ring. */
    method CopyOut(at: int, dst: array<byte>, from: int, n: int)
      requires Valid() && dst != bytes
      requires 0 <= at && 0 <= n && at + n <= RING_SIZE && 0 <= from && from + n <= dst.Length
      modifies dst
      ensures forall k :: 0 <= k < dst.Length ==>
                dst[k] == if from <= k < from + n then bytes[at + k - from] else old(dst[k])
    {
      var i := 0;
      while i < n
        invariant 0 <= i <= n
        invariant forall k :: 0 <= k < dst.Length ==>
                    dst[k] == if from <= k < from + i then bytes[at + k - from] else old(dst[k])
      {
        dst[from + i] := bytes[at + i];
        i := i + 1;
      }
    }

    /** ring_write. */
    method RingWrite(src: array<byte>, n: int)
      requires Valid() && src != bytes && 0 <= n <= src.Length && n <= RING_SIZE
      modifies bytes, this`write
      ensures Valid() && bytes[..] == Put(old(bytes[..]), old(write), src[..n])
      ensures write == (old(write) + n) % RING_SIZE
    {
      var w := write;
      var first := RING_SIZE - w;
      PutIsTwoCopies(bytes[..], w, src[..n]);
      if first >= n {
        CopyIn(w, src, 0, n);
      } else {
        CopyIn(w, src, 0, first);
        CopyIn(0, src, first, n - first);
      }
      write := (w + n) % RING_SIZE;
    }

    /** ring_read. */
    method RingRead(dst: array<byte>, n: int)
      requires Valid() && dst != bytes && 0 <= n <= dst.Length && n <= RING_SIZE
      modifies dst, this`read
      ensures Valid() && read == (old(read) + n) % RING_SIZE
      ensures dst[..n] == Get(bytes[..], old(read), n) && dst[n..] == old(dst[n..])
    {
      var r := read;
      var first := RING_SIZE - r;
      if first >= n {
        CopyOut(r, dst, 0, n);
      } else {
        CopyOut(r, dst, 0, first);
        CopyOut(0, dst, first, n - first);
      }
      TwoCopiesGet(bytes[..], r, n, dst[..n]);
      read := (r + n) % RING_SIZE;
    }

    /** leuae_audio_submit, for a running queue: the frames written. */
    method SubmitFrames(samples: array<byte>, frames: int) returns (written: int)
      requires Valid() && samples != bytes && frames * BYTES_PER_FRAME <= samples.Length
      modifies bytes, this`write
      ensures Valid()
      ensures written * BYTES_PER_FRAME ==
              if frames <= 0 then 0 else Accepts(frames * BYTES_PER_FRAME, old(write), read)
      ensures bytes[..] == Put(old(bytes[..]), old(write), samples[..written * BYTES_PER_FRAME])
      ensures write == (old(write) + written * BYTES_PER_FRAME) % RING_SIZE
    {
      written := 0;
      if frames > 0 {
        var n := Accepts(frames * BYTES_PER_FRAME, write, read);
        AcceptsFits(frames * BYTES_PER_FRAME, write, read);
        if n > 0 {
          RingWrite(samples, n);
          written := n / BYTES_PER_FRAME;
          return;
        }
      }
      assert samples[..0] == [];
      ModUnique(write, RING_SIZE, 0, write);
    }

    /** memset from `from` to the end of a buffer. */
    method ZeroFill(buffer: array<byte>, from: int)
      requires 0 <= from <= buffer.Length
      modifies buffer
      ensures buffer[..from] == old(buffer[..from]) && buffer[from..] == Silence(buffer.Length - from)
    {
      var i := from;
      while i < buffer.Length
        invariant from <= i <= buffer.Length && buffer[..from] == old(buffer[..from])
        invariant forall k :: from <= k < i ==> buffer[k] == 0
      {
        buffer[i] := 0;
        i := i + 1;
      }
    }

    /** audio_callback: the buffer is filled from the ring, the rest is silence. */
    method FillBuffer(buffer: array<byte>)
      requires Valid() && buffer != bytes
      modifies buffer, this`read
      ensures Valid()
      ensures var fill := Fills(buffer.Length, write, old(read));
              && 0 <= fill <= buffer.Length
              && buffer[..] == Get(bytes[..], old(read), fill) + Silence(buffer.Length - fill)
              && read == (old(read) + fill) % RING_SIZE
    {
      var needed := buffer.Length;
      var fill := Fills(needed, write, read);
      if fill > 0 {
        RingRead(buffer, fill);
      } else {
        ModUnique(read, RING_SIZE, 0, read);
      }
      ZeroFill(buffer, fill);
      assert buffer[..] == buffer[..fill] + buffer[fill..];
      assert buffer[fill..] == Silence(needed - fill);
    }
  }
}

/** The stereo mixer with delay (src/core/audio.cpp): each output word is a weighted mean of the new
    word of its own side and an older word of the other side, computed in unsigned 32-bit arithmetic
    and cut to 16 bits. */
module StereoDelay {
  import opened Arith
  import opened Words

  const SOUND_MAX_DELAY_BUFFER := 1024
  const MIXED_STEREO_SCALE := 32
  const MIXED_STEREO_MAX := 16

  /** What PUT_SOUND_WORD keeps of a word. */
  function Low16(x: int): int { x % 0x10000 }

  /** The mixing expression: unsigned product, sum and quotient. */
  function Mix(newWord: int, oldWord: int, sep: int): int {
    U32(newWord * (MIXED_STEREO_SCALE / 2 + sep) + oldWord * (MIXED_STEREO_SCALE / 2 - sep)) / MIXED_STEREO_SCALE
  }

  /** The weighted mean of two signed samples, rounded down. */
  function Mean(newWord: int, oldWord: int, sep: int): int {
    (newWord * (16 + sep) + oldWord * (16 - sep)) / 32
  }

  lemma ModMul(x: int, a: int, n: int)
    requires n > 0
    ensures exists k :: x * a == (x % n) * a + k * n
  {
    assert x == (x / n) * n + x % n;
    assert x * a == (x % n) * a + ((x / n) * a) * n;
  }

  /** Cutting both operands to 32 bits first changes the weighted sum by a multiple of 2^32. */
  lemma WeightedSum(x: int, a: int, y: int, b: int, n: int)
    requires n > 0
    ensures ((x % n) * a + (y % n) * b) % n == (x * a + y * b) % n
  {
    ModMul(x, a, n);
    ModMul(y, b, n);
    var k :| x * a == (x % n) * a + k * n;
    var j :| y * b == (y % n) * b + j * n;
    assert x * a + y * b == (x % n) * a + (y % n) * b + (k + j) * n;
    ModShift((x % n) * a + (y % n) * b, n, k + j);
  }

  /** Dividing the 32-bit remainder by 32 leaves the low 16 bits of the floor quotient. */
  lemma LowBitsOfQuotient(z: int)
    ensures Low16(U32(z) / 32) == Low16(z / 32)
  {
    var q, m := z / 0x1_0000_0000, z % 0x1_0000_0000;
    assert z == q * 0x1_0000_0000 + m;
    assert m == (m / 32) * 32 + m % 32;
    ModUnique(z, 32, q * 0x800_0000 + m / 32, m % 32);
    ModShift(m / 32, 0x10000, q * 0x800);
  }

  /** For every pair of signed samples the unsigned expression gives the low 16 bits of the mean. */
  lemma MixIsMean(x: int, y: int, sep: int)
    ensures Low16(Mix(U32(x), U32(y), sep)) == Low16(Mean(x, y, sep))
  {
    WeightedSum(x, 16 + sep, y, 16 - sep, 0x1_0000_0000);
    LowBitsOfQuotient(x * (16 + sep) + y * (16 - sep));
  }

  predicate Sample16(x: int) { -32768 <= x <= 32767 }

  /** The mean of two 16-bit samples is a 16-bit sample: mixing never overflows. */
  lemma MeanFits(x: int, y: int, sep: int)
    requires Sample16(x) && Sample16(y) && 0 <= sep <= MIXED_STEREO_MAX
    ensures Sample16(Mean(x, y, sep))
  {
    var a, b := 16 + sep, 16 - sep;
    MulBounds(x, a);
    MulBounds(y, b);
    assert 32767 * a + 32767 * b == 32767 * 32 && -32768 * a + -32768 * b == -32768 * 32;
    QuotientBounds(x * a + y * b);
  }

  lemma MulBounds(x: int, a: int)
    requires Sample16(x) && a >= 0
    ensures -32768 * a <= x * a <= 32767 * a
  {
  }

  lemma QuotientBounds(z: int)
    requires -32768 * 32 <= z <= 32767 * 32
    ensures -32768 <= z / 32 <= 32767
  {
  }

  /* ---------- The delay line ---------- */

  /** One stereo sample as it is put: right word first, then left. */
  datatype Frame = Frame(right: int, left: int)

  /** The two words that leave the mixer for one frame. */
  datatype Out = Out(first: int, second: int)

  /** The saved words.  `mask` is mixed_stereo_size, one less than a power of two. */
  datatype Line = Line(right: seq<int>, left: seq<int>, ptr: int, mask: int)

  predicate ValidLine(d: Line) {
    && |d.right| == |d.left| == SOUND_MAX_DELAY_BUFFER
    && 0 <= d.ptr <= d.mask < SOUND_MAX_DELAY_BUFFER
  }

  /** 1 << k */
  function PowerOfTwo(k: nat): (p: int)
    ensures p >= 1
  {
    if k == 0 then 1 else 2 * PowerOfTwo(k - 1)
  }

  lemma DelayFits(delay: nat)
    requires delay <= 10
    ensures PowerOfTwo(delay) <= SOUND_MAX_DELAY_BUFFER
    decreases 10 - delay
  {
    if delay < 10 { DelayFits(delay + 1); }
  }

  /** mixed_stereo_size for the delay preference. */
  function MaskOf(delay: int): int {
    if delay > 0 then PowerOfTwo(delay) - 1 else 0
  }

  /** The delay in frames: none, or one frame for the preference 1 and, from one value to the next, twice as many
      and one more. */
  lemma MaskIs(delay: int)
    ensures MaskOf(delay) == if delay <= 0 then 0 else 2 * MaskOf(delay - 1) + 1
  {
  }

  /** `& mask`, for a mask of the form 2^k - 1. */
  function Masked(x: int, mask: nat): int { x % (mask + 1) }

  /** One step of the saved pointer as the bitwise expression computes it. */
  lemma AndWraps(ptr: bv16, mask: bv16)
    requires mask & (mask + 1) == 0 && ptr <= mask < 1024
    ensures (ptr + 1) & mask == if ptr == mask then 0 else ptr + 1
  {
  }

  /** The same step as a remainder. */
  lemma MaskedWraps(ptr: int, mask: nat)
    requires 0 <= ptr <= mask
    ensures Masked(ptr + 1, mask) == if ptr == mask then 0 else ptr + 1
  {
    if ptr == mask { ModUnique(ptr + 1, mask + 1, 1, 0); } else { ModUnique(ptr + 1, mask + 1, 0, ptr + 1); }
  }

  /** put_sound_word_right with the mixer on: the word only waits for its left one. */
  function SaveRight(d: Line, w: int): (r: Line)
    requires ValidLine(d)
    ensures ValidLine(r)
  {
    d.(right := d.right[d.ptr := w])
  }

  /** put_sound_word_left with the mixer on. */
  function PutLeft(d: Line, w: int, sep: int, base: int): (r: (Line, Out))
    requires ValidLine(d)
    ensures ValidLine(r.0)
  {
    var left := d.left[d.ptr := w];
    var ptr := Masked(d.ptr + 1, d.mask);
    (Line(d.right, left, ptr, d.mask),
     Out(U32(Mix(U32(d.right[d.ptr] - base), U32(left[ptr] - base), sep) + base),
         Mix(U32(w - base), U32(d.right[ptr] - base), sep)))
  }

  /** One stereo frame: put_sound_word_right followed by put_sound_word_left. */
  function PutFrame(d: Line, f: Frame, sep: int, base: int): (Line, Out)
    requires ValidLine(d)
  {
    PutLeft(SaveRight(d, f.right), f.left, sep, base)
  }

  function Lines(d: Line, frames: seq<Frame>, sep: int, base: int): (r: Line)
    requires ValidLine(d)
    ensures ValidLine(r) && r.mask == d.mask
  {
    if frames == [] then d
    else PutFrame(Lines(d, frames[..|frames| - 1], sep, base), frames[|frames| - 1], sep, base).0
  }

  /** The slot of the `i`-th frame of a run that starts at `d`. */
  function Slot(d: Line, i: int): int
    requires ValidLine(d)
  {
    (d.ptr + i) % (d.mask + 1)
  }

  function Saved(d: Line, slot: int): Frame
    requires ValidLine(d) && 0 <= slot <= d.mask
  {
    Frame(d.right[slot], d.left[slot])
  }

  /** What one frame changes in the line. */
  lemma FrameSaved(d: Line, f: Frame, sep: int, base: int)
    requires ValidLine(d)
    ensures var r := PutFrame(d, f, sep, base).0;
            && ValidLine(r) && r.mask == d.mask && r.ptr == (d.ptr + 1) % (d.mask + 1)
            && Saved(r, d.ptr) == f
            && forall i :: 0 <= i <= d.mask && i != d.ptr ==> Saved(r, i) == Saved(d, i)
  {
  }

  lemma {:induction false} PointerIs(d: Line, frames: seq<Frame>, sep: int, base: int)
    requires ValidLine(d)
    ensures Lines(d, frames, sep, base).ptr == Slot(d, |frames|)
  {
    hide PutFrame;
    if frames == [] {
      ModUnique(d.ptr, d.mask + 1, 0, d.ptr);
    } else {
      PointerIs(d, frames[..|frames| - 1], sep, base);
      FrameSaved(Lines(d, frames[..|frames| - 1], sep, base), frames[|frames| - 1], sep, base);
      ModAdd(d.ptr + |frames| - 1, 1, d.mask + 1);
    }
  }

  /** What a slot holds after a run: the newest frame put there, or its earlier contents. */
  lemma {:induction false} SlotHolds(d: Line, frames: seq<Frame>, sep: int, base: int, i: nat)
    requires ValidLine(d) && |frames| - (d.mask + 1) <= i && (i < |frames| || i <= d.mask)
    ensures Saved(Lines(d, frames, sep, base), Slot(d, i)) ==
            if i < |frames| then frames[i] else Saved(d, Slot(d, i))
  {
    hide PutFrame, Saved;
    if frames != [] {
      var n := |frames| - 1;
      FrameSaved(Lines(d, frames[..n], sep, base), frames[n], sep, base);
      PointerIs(d, frames[..n], sep, base);
      if i != n {
        SlotHolds(d, frames[..n], sep, base, i);
        if i < n { SlotsDiffer(d.ptr + i, d.ptr + n, d.mask + 1); }
        else { SlotsDiffer(d.ptr + n, d.ptr + i, d.mask + 1); }
      }
    }
  }

  /** The frame whose other side is mixed in: from `mask` frames ago, or the line's earlier contents
      while the run is shorter than that. */
  function Delayed(d: Line, frames: seq<Frame>): Frame
    requires ValidLine(d) && |frames| > 0
  {
    if |frames| > d.mask then frames[|frames| - 1 - d.mask] else Saved(d, Slot(d, |frames|))
  }

  lemma DelayedIsSaved(d: Line, frames: seq<Frame>, sep: int, base: int)
    requires ValidLine(d) && |frames| > 0
    ensures Saved(Lines(d, frames, sep, base), Slot(d, |frames|)) == Delayed(d, frames)
  {
    var n := |frames|;
    if n > d.mask {
      ModShift(d.ptr + n - 1 - d.mask, d.mask + 1, 1);
      assert Slot(d, n - 1 - d.mask) == Slot(d, n);
      SlotHolds(d, frames, sep, base, n - 1 - d.mask);
    } else {
      SlotHolds(d, frames, sep, base, n);
    }
  }

  /** The words that leave for the last frame of a run. */
  function LastOut(d: Line, frames: seq<Frame>, sep: int, base: int): Out
    requires ValidLine(d) && |frames| > 0
  {
    PutFrame(Lines(d, frames[..|frames| - 1], sep, base), frames[|frames| - 1], sep, base).1
  }

  /** Over any run, for every delay preference: each frame is mixed with the frame put exactly
      2^delay - 1 earlier, the right word with the delayed left one and the left word with the delayed
      right one. */
  lemma DelayIsExact(d: Line, delay: int, frames: seq<Frame>, sep: int, base: int)
    requires ValidLine(d) && d.mask == MaskOf(delay) && |frames| > MaskOf(delay)
    ensures var f, oldFrame := frames[|frames| - 1], frames[|frames| - 1 - MaskOf(delay)];
            LastOut(d, frames, sep, base) ==
            Out(U32(Mix(U32(f.right - base), U32(oldFrame.left - base), sep) + base),
                Mix(U32(f.left - base), U32(oldFrame.right - base), sep))
    ensures delay >= 0 ==> MaskOf(delay) == PowerOfTwo(delay) - 1
  {
    hide Mix, LastOut, U32, Saved, Slot;
    LastIsMixed(d, frames, sep, base);
  }

  lemma LastIsMixed(d: Line, frames: seq<Frame>, sep: int, base: int)
    requires ValidLine(d) && |frames| > 0
    ensures var f, oldFrame := frames[|frames| - 1], Delayed(d, frames);
            LastOut(d, frames, sep, base) ==
            Out(U32(Mix(U32(f.right - base), U32(oldFrame.left - base), sep) + base),
                Mix(U32(f.left - base), U32(oldFrame.right - base), sep))
  {
    hide Mix, U32, Slot, Delayed;
    PointerIs(d, frames, sep, base);
    DelayedIsSaved(d, frames, sep, base);
  }

  /** Signed samples as the unsigned words the mixer is given. */
  function Encoded(frames: seq<Frame>): (r: seq<Frame>)
    ensures |r| == |frames|
  {
    seq(|frames|, i requires 0 <= i < |frames| => Frame(U32(frames[i].right), U32(frames[i].left)))
  }

  lemma MixOfEncoded(x: int, y: int, sep: int)
    ensures Mix(U32(U32(x) - 0), U32(U32(y) - 0), sep) == Mix(U32(x), U32(y), sep)
    ensures U32(Mix(x, y, sep) + 0) == Mix(x, y, sep)
  {
    ModAdd(x, 0, 0x1_0000_0000);
    ModAdd(y, 0, 0x1_0000_0000);
  }

  /** With base value 0, over any run of signed 16-bit frames that fills the line, both words are the
      low 16 bits of the weighted mean, which itself fits 16 bits. */
  lemma OutputIsMean(d: Line, delay: int, frames: seq<Frame>, sep: int)
    requires ValidLine(d) && d.mask == MaskOf(delay) && |frames| > MaskOf(delay) && 0 <= sep <= MIXED_STEREO_MAX
    requires forall i :: 0 <= i < |frames| ==> Sample16(frames[i].right) && Sample16(frames[i].left)
    ensures var f, oldFrame := frames[|frames| - 1], frames[|frames| - 1 - MaskOf(delay)];
            var out := LastOut(d, Encoded(frames), sep, 0);
            var right, left := Mean(f.right, oldFrame.left, sep), Mean(f.left, oldFrame.right, sep);
            && Low16(out.first) == Low16(right) && Sample16(right)
            && Low16(out.second) == Low16(left) && Sample16(left)
  {
    hide Mix, Mean, LastOut, Low16, U32;
    var f, oldFrame := frames[|frames| - 1], frames[|frames| - 1 - MaskOf(delay)];
    DelayIsExact(d, delay, Encoded(frames), sep, 0);
    MixOfEncoded(f.right, oldFrame.left, sep);
    MixOfEncoded(f.left, oldFrame.right, sep);
    MixOfEncoded(U32(f.right), U32(oldFrame.left), sep);
    MixIsMean(f.right, oldFrame.left, sep);
    MixIsMean(f.left, oldFrame.right, sep);
    MeanFits(f.right, oldFrame.left, sep);
    MeanFits(f.left, oldFrame.right, sep);
  }

  /** The base value is taken off both inputs but put back only on the first word: the second word is
      based like the first exactly when the base is 0 in 16 bits. */
  lemma SecondWordLacksBase(x: int, y: int, sep: int, base: int)
    ensures var out := Mix(U32(x - base), U32(y - base), sep);
            Low16(out) == Low16(Mean(x - base, y - base, sep) + base) <==> Low16(base) == 0
  {
    var mean := Mean(x - base, y - base, sep);
    MixIsMean(x - base, y - base, sep);
    if Low16(mean) == Low16(mean + base) {
      assert mean + base - mean == base;
      assert (mean + base) == ((mean + base) / 0x10000) * 0x10000 + Low16(mean + base);
      assert mean == (mean / 0x10000) * 0x10000 + Low16(mean);
      ModUnique(base, 0x10000, (mean + base) / 0x10000 - mean / 0x10000, 0);
    }
    if Low16(base) == 0 {
      assert base == (base / 0x10000) * 0x10000;
      ModShift(mean, 0x10000, base / 0x10000);
    }
  }

  /* ---------- The mixer in place ---------- */

  class Mixer {
    const right: array<int>
    const left: array<int>
    const delay: int
    var savedPtr: int
    var mask: int
    var sep: int
    var base: int
    var mixedOn: bool
    /** Everything PUT_SOUND_WORD has been given, cut to 16 bits. */
    var words: seq<int>

    ghost predicate Valid()
      reads this, right, left
    {
      right != left && ValidLine(Model()) && mask == MaskOf(delay)
    }

    ghost function Model(): Line
      reads this, right, left
    {
      Line(right[..], left[..], savedPtr, mask)
    }

    constructor (delay: int, sep: int, base: int, mixedOn: bool)
      requires delay <= 10
      ensures Valid() && fresh(right) && fresh(left) && words == []
      ensures this.delay == delay && mask == MaskOf(delay) && (delay >= 0 ==> mask == PowerOfTwo(delay) - 1)
      ensures savedPtr == 0 && this.sep == sep && this.base == base && this.mixedOn == mixedOn
      ensures right.Length == left.Length == 1024 && forall i :: 0 <= i < 1024 ==> right[i] == left[i] == 0
    {
      right := new int[SOUND_MAX_DELAY_BUFFER](_ => 0);
      left := new int[SOUND_MAX_DELAY_BUFFER](_ => 0);
      savedPtr := 0;
      mask := if delay > 0 then PowerOfTwo(delay) - 1 else 0;
      this.delay := delay;
      if delay >= 0 { DelayFits(delay); }
      this.sep, this.base, this.mixedOn, words := sep, base, mixedOn, [];
    }

    method PutSoundWord(w: int)
      modifies `words
      ensures words == old(words) + [Low16(w)]
    {
      words := words + [Low16(w)];
    }

    method PutSoundWordRight(w: int)
      requires Valid()
      modifies right, `words
      ensures Valid()
      ensures mixedOn ==> Model() == SaveRight(old(Model()), w) && words == old(words)
      ensures !mixedOn ==> Model() == old(Model()) && words == old(words) + [Low16(w)]
    {
      if mixedOn {
        right[savedPtr] := w;
        return;
      }
      PutSoundWord(w);
    }

    method PutSoundWordLeft(w: int)
      requires Valid()
      modifies left, `savedPtr, `words
      ensures Valid()
      ensures mixedOn ==> var (line, out) := PutLeft(old(Model()), w, sep, base);
                          Model() == line && words == old(words) + [Low16(out.first), Low16(out.second)]
      ensures !mixedOn ==> Model() == old(Model()) && words == old(words) + [Low16(w)]
    {
      hide Mix, Low16, U32;
      if mixedOn {
        left[savedPtr] := w;
        var lnew, rnew := U32(w - base), U32(right[savedPtr] - base);
        savedPtr := Masked(savedPtr + 1, mask);
        var tmp := Mix(rnew, U32(left[savedPtr] - base), sep);
        tmp := U32(tmp + base);
        var rold := U32(right[savedPtr] - base);
        var second := Mix(lnew, rold, sep);
        PutSoundWord(tmp);
        PutSoundWord(second);
      } else {
        PutSoundWord(w);
      }
    }
  }
}

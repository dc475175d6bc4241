/** The visualizer's capture buffer: PCM scaled to bytes, written round a 64K ring, read
    back as the bytes most recently produced. */
module VisualizerCapture {
  const CAPTURE_BUF_SIZE: nat := 65536
  const SILENCE: Byte := 0x80
  const MAX_STALL_TIME_MS: nat := 1000
  const TWO_31: int := 0x8000_0000
  const TWO_32: int := 0x1_0000_0000
  const EINVAL: int := 22
  const ENODATA: int := 61

  type Byte = b: int | 0 <= b < 256
  type Pcm16 = x: int | -32768 <= x < 32768

  datatype ScalingMode = Normalized | AsPlayed

  // ---- scaling ----

  function Pow2(k: nat): (p: int)
    ensures p > 0
  {
    if k == 0 then 1 else 2 * Pow2(k - 1)
  }

  /** Leading zeros of a 32-bit value, 32 for zero. */
  function Clz(x: nat): (n: int) {
    if x == 0 then 32 else Clz(x / 2) - 1
  }

  /** C's >> of a signed value. */
  function ShiftRight(x: int, k: nat): int {
    x / Pow2(k)
  }

  /** A sample folded onto the non-negative half, keeping -32768 in range. */
  function Magnitude(x: Pcm16): nat {
    if x < 0 then -(x as int) - 1 else x
  }

  function MinClz(samples: seq<Pcm16>): int {
    if samples == [] then 32
    else
      var n, c := MinClz(samples[..|samples| - 1]), Clz(Magnitude(samples[|samples| - 1]));
      if n > c then c else n
  }

  function Shift(mode: ScalingMode, samples: seq<Pcm16>): int {
    match mode
    case Normalized => (if 25 - MinClz(samples) < 3 then 3 else 25 - MinClz(samples)) + 1
    case AsPlayed => 9
  }

  /** The byte a scaled value is stored as: a cast and a flip of the sign bit. */
  function ToByte(v: int): Byte {
    FlipTop(v % 256)
  }

  /** b ^ 0x80, for a byte. */
  function FlipTop(b: Byte): Byte {
    if b < 128 then b + 128 else b - 128
  }

  lemma {:induction false} MagnitudeBelow(x: nat)
    requires x < 32768
    ensures 17 <= Clz(x) <= 32 && x < Pow2(32 - Clz(x))
  {
    ClzBounds(x, 15);
  }

  lemma {:induction false} ClzBounds(x: nat, bits: nat)
    requires x < Pow2(bits)
    ensures 32 - bits <= Clz(x) <= 32 && x < Pow2(32 - Clz(x))
  {
    if x != 0 {
      assert Pow2(bits) == 2 * Pow2(bits - 1);
      ClzBounds(x / 2, bits - 1);
      var c := Clz(x / 2);
      assert Pow2(33 - c) == 2 * Pow2(32 - c);
    }
  }

  lemma {:induction false} Pow2Monotone(a: nat, b: nat)
    requires a <= b
    ensures Pow2(a) <= Pow2(b)
    decreases b
  {
    if a < b {
      Pow2Monotone(a, b - 1);
    }
  }

  lemma {:induction false} MinClzIsLeast(samples: seq<Pcm16>, i: nat)
    requires i < |samples|
    ensures 17 <= MinClz(samples) <= Clz(Magnitude(samples[i]))
  {
    var last := |samples| - 1;
    MagnitudeBelow(Magnitude(samples[last]));
    if i < last {
      MinClzIsLeast(samples[..last], i);
    } else if last > 0 {
      MinClzIsLeast(samples[..last], 0);
    }
  }

  lemma {:induction false} ShiftInRange(mode: ScalingMode, samples: seq<Pcm16>)
    requires samples != []
    ensures 4 <= Shift(mode, samples) <= 9
  {
    MinClzIsLeast(samples, 0);
  }

  lemma {:induction false} SampleFits(samples: seq<Pcm16>, i: nat)
    requires i < |samples|
    ensures var k := Shift(Normalized, samples);
            4 <= k <= 9 && -Pow2(k + 6) <= samples[i] < Pow2(k + 6)
  {
    var k := Shift(Normalized, samples);
    ShiftInRange(Normalized, samples);
    MinClzIsLeast(samples, i);
    MagnitudeBelow(Magnitude(samples[i]));
    Pow2Monotone(32 - Clz(Magnitude(samples[i])), k + 6);
  }

  lemma {:induction false} ClzReached(x: nat, bits: nat)
    requires 0 < x < Pow2(bits) && bits <= 31
    ensures Clz(x) <= 31 && Pow2(31 - Clz(x)) <= x
  {
    ClzBounds(x, bits);
    if x > 1 {
      assert Pow2(bits) == 2 * Pow2(bits - 1);
      ClzReached(x / 2, bits - 1);
    }
  }

  lemma {:induction false} MinClzReached(samples: seq<Pcm16>) returns (i: nat)
    requires samples != []
    ensures i < |samples| && MinClz(samples) == Clz(Magnitude(samples[i]))
  {
    var last := |samples| - 1;
    MagnitudeBelow(Magnitude(samples[last]));
    i := last;
    if last > 0 && MinClz(samples[..last]) < Clz(Magnitude(samples[last])) {
      i := MinClzReached(samples[..last]);
    }
  }

  /** Normalised scaling takes the least shift from 4 on that brings every sample into 7 bits, so
      that the loudest one fills them; the other mode shifts by 9. */
  lemma {:induction false} ShiftFollowsThePeak(samples: seq<Pcm16>, k: nat)
    requires samples != []
    ensures 4 <= k && (forall i :: 0 <= i < |samples| ==> -Pow2(k + 6) <= samples[i] < Pow2(k + 6))
            <==> k >= Shift(Normalized, samples)
    ensures 4 <= Shift(Normalized, samples) <= 9 && Shift(AsPlayed, samples) == 9
  {
    var s := Shift(Normalized, samples);
    ShiftInRange(Normalized, samples);
    if k >= s {
      forall i | 0 <= i < |samples| ensures -Pow2(k + 6) <= samples[i] < Pow2(k + 6) {
        SampleFits(samples, i);
        Pow2Monotone(s + 6, k + 6);
      }
    } else if k >= 4 {
      var i := MinClzReached(samples);
      var x := Magnitude(samples[i]);
      assert Clz(x) < 32 && x != 0;
      SevenAndFifteenBits();
      ClzReached(x, 15);
      Pow2Monotone(k + 6, 31 - Clz(x));
      assert !(-Pow2(k + 6) <= samples[i] < Pow2(k + 6));
    }
  }

  lemma {:induction false} ShiftOfRange(x: int, k: nat, n: nat)
    requires -Pow2(k + n) <= x < Pow2(k + n)
    ensures -Pow2(n) <= ShiftRight(x, k) < Pow2(n)
  {
    Pow2Product(k, n);
    hide Pow2;
    DivisionBounds(x, Pow2(k), Pow2(n));
  }

  lemma {:induction false} DivisionBounds(x: int, p: int, m: int)
    requires p > 0 && -(m * p) <= x < m * p
    ensures -m <= x / p < m
  {
    var q := x / p;
    assert q * p <= x < (q + 1) * p;
    if q >= m { ProductGrows(m, q, p); }
    if q < -m { ProductGrows(q + 1, -m, p); }
  }

  lemma Floored(x: int, p: int)
    requires p > 0
    ensures x / p * p <= x < (x / p + 1) * p
  {
  }

  lemma ProductGrows(a: int, b: int, p: int)
    requires a <= b && p > 0
    ensures a * p <= b * p
  {
  }

  lemma {:induction false} Pow2Product(k: nat, n: nat)
    ensures Pow2(k + n) == Pow2(n) * Pow2(k)
  {
    if k > 0 {
      Pow2Product(k - 1, n);
      assert Pow2(k + n) == 2 * Pow2(k - 1 + n);
      assert Pow2(k) == 2 * Pow2(k - 1);
    }
  }

  lemma FlippedSign(b: bv8)
    ensures (b ^ 0x80) as int == FlipTop(b as int)
  {
  }

  lemma {:induction false} ByteOfSigned(v: int)
    requires -128 <= v <= 127
    ensures ToByte(v) == v + 128
  {
  }

  lemma SevenAndFifteenBits()
    ensures Pow2(7) == 128 && Pow2(15) == 32768
  {
  }

  function FrameSum(samples: seq<Pcm16>, i: nat): int
    requires 2 * i + 1 < |samples|
  {
    samples[2 * i] as int + samples[2 * i + 1] as int
  }

  lemma {:induction false} SumFits(mode: ScalingMode, samples: seq<Pcm16>, i: nat)
    requires 2 * i + 1 < |samples|
    ensures var k := Shift(mode, samples);
            k >= 4 && -Pow2(k + 7) <= FrameSum(samples, i) < Pow2(k + 7)
  {
    var k := Shift(mode, samples);
    ShiftInRange(mode, samples);
    if mode.Normalized? {
      SampleFits(samples, 2 * i);
      SampleFits(samples, 2 * i + 1);
      assert Pow2(k + 7) == 2 * Pow2(k + 6);
    } else {
      SevenAndFifteenBits();
      assert Pow2(16) == 2 * Pow2(15);
    }
  }

  /** The byte stored for frame i. */
  function CapturedByte(mode: ScalingMode, samples: seq<Pcm16>, i: nat): Byte
    requires 2 * i + 1 < |samples|
  {
    var k := Shift(mode, samples);
    ToByte(if k < 0 then 0 else ShiftRight(FrameSum(samples, i), k))
  }

  /** The scaled sum of a frame always fits a signed byte, so the cast loses nothing. */
  lemma {:induction false} ScaledFrameIsExact(mode: ScalingMode, samples: seq<Pcm16>, i: nat)
    requires 2 * i + 1 < |samples|
    ensures var k := Shift(mode, samples);
            && k >= 0
            && -128 <= ShiftRight(FrameSum(samples, i), k) <= 127
            && CapturedByte(mode, samples, i) == ShiftRight(FrameSum(samples, i), k) + 128
            && var v, sum := CapturedByte(mode, samples, i) - 128, samples[2 * i] as int + samples[2 * i + 1] as int;
               v * Pow2(k) <= sum < (v + 1) * Pow2(k)
  {
    SumFits(mode, samples, i);
    var k := Shift(mode, samples);
    Floored(FrameSum(samples, i), Pow2(k));
    hide Shift, ToByte, ShiftRight, Pow2;
    ShiftOfRange(FrameSum(samples, i), k, 7);
    SevenAndFifteenBits();
    ByteOfSigned(ShiftRight(FrameSum(samples, i), k));
  }

  // ---- the ring ----

  function Silence(n: nat): seq<Byte> {
    seq(n, _ => SILENCE)
  }

  /** The last k elements. */
  function Last<T>(s: seq<T>, k: nat): (r: seq<T>)
    requires k <= |s|
    ensures |r| == k
  {
    s[|s| - k..]
  }

  /** A ring read from its write index round to that index. */
  function Unrolled<T>(ring: seq<T>, idx: nat): seq<T>
    requires idx <= |ring|
  {
    ring[idx..] + ring[..idx]
  }

  function CapturedBytes(mode: ScalingMode, samples: seq<Pcm16>): (bytes: seq<Byte>)
    ensures |bytes| == |samples| / 2
  {
    seq(|samples| / 2, i requires 0 <= i < |samples| / 2 => CapturedByte(mode, samples, i))
  }

  function ToInt32(x: int): int {
    var u := x % TWO_32;
    if u < TWO_31 then u else u - TWO_32
  }

  /** The latency left when the buffer was updated `deltaMs` ago, in C's unsigned and
      signed 32-bit arithmetic. */
  function LatencyMs(latency: nat, deltaMs: nat): int {
    var left := ToInt32(latency - deltaMs);
    if left < 0 then 0 else left
  }

  function DeltaSamples(rate: nat, latencyMs: int): int {
    ((rate * latencyMs) % TWO_32) / 1000
  }

  lemma SmallDifference(x: int)
    requires -TWO_31 <= x < TWO_31
    ensures ToInt32(x % TWO_32) == x
  {
    assert x % TWO_32 == if x < 0 then x + TWO_32 else x;
  }

  /** A latency that is never set leaves none, unless the last update is 2^31 ms old. */
  lemma {:induction false} NoLatency(deltaMs: nat)
    requires deltaMs < TWO_32
    ensures LatencyMs(0, deltaMs) == 0 <==> deltaMs <= TWO_31
  {
  }

  lemma {:induction false} RingStep<T>(ring: seq<T>, idx: nat, x: T, history: seq<T>)
    requires idx <= |ring| && 0 < |ring| <= |history|
    requires Unrolled(ring, idx) == Last(history, |ring|)
    ensures var at := if idx >= |ring| then 0 else idx;
            Unrolled(ring[at := x], at + 1) == Last(history + [x], |ring|)
  {
  }

  /** The index after n more bytes; it wraps only with the next byte. */
  function IdxAfter(idx: nat, n: nat): nat {
    if n == 0 then idx else (idx + n - 1) % CAPTURE_BUF_SIZE + 1
  }

  lemma IdxStep(idx: nat, n: nat)
    requires idx <= CAPTURE_BUF_SIZE
    ensures var i := IdxAfter(idx, n);
            i <= CAPTURE_BUF_SIZE && IdxAfter(idx, n + 1) == (if i >= CAPTURE_BUF_SIZE then 0 else i) + 1
  {
  }

  /** The copy out of the ring, in two pieces when it starts before slot 0. */
  function CopyOut<T>(ring: seq<T>, idx: nat, k: nat): seq<T>
    requires idx <= |ring| && k <= |ring|
  {
    if idx >= k then ring[idx - k..idx] else ring[|ring| + idx - k..] + ring[..idx]
  }

  lemma {:induction false} CopyOutIsLast<T>(ring: seq<T>, idx: nat, k: nat, history: seq<T>)
    requires idx <= |ring| <= |history| && k <= |ring|
    requires Unrolled(ring, idx) == Last(history, |ring|)
    ensures CopyOut(ring, idx, k) == Last(history, k)
  {
  }

  /** The first `size` elements of a copy that starts at `point`. */
  lemma CopyOutParts<T>(ring: seq<T>, idx: nat, point: int, size: nat)
    requires point + size <= idx <= |ring| && idx - point <= |ring|
    ensures CopyOut(ring, idx, idx - point)[..size] ==
            if point >= 0 then ring[point..point + size]
            else if -point >= size then ring[|ring| + point..|ring| + point + size]
            else ring[|ring| + point..] + ring[..size + point]
  {
  }

  /** Where a stalled reply is cleared from: the pointer has moved over the piece copied from
      before slot 0, and `size` bytes are cleared from there. */
  function StallOffset(idx: nat, k: nat, size: nat): (off: nat)
    ensures off <= size
    ensures off == 0 <==> k <= idx || size == 0
  {
    if k <= idx then 0 else if k - idx > size then size else k - idx
  }

  /** The reply left by clearing it from `off`, with `off` bytes cleared past its end. */
  function Cleared(bytes: seq<Byte>, off: nat): Reply
    requires off <= |bytes|
  {
    Data(bytes[..off] + Silence(|bytes| - off), off)
  }

  /** The reply to VISUALIZER_CMD_CAPTURE; `past` bytes were written past its end. */
  datatype Reply = Refused(status: int) | Untouched | Data(bytes: seq<Byte>, past: nat) | OutsideRing

  class Visualizer {
    const captureBuf: array<Byte>
    var captureIdx: nat
    var captureSize: nat
    var scalingMode: ScalingMode
    var lastCaptureIdx: nat
    var updated: bool
    var active: bool
    var offloadEnabled: bool
    ghost var produced: seq<Byte>

    /** What a reader that never lost a byte would have heard since the reset. */
    ghost function History(): (h: seq<Byte>)
      reads this
    {
      Silence(CAPTURE_BUF_SIZE) + produced
    }

    ghost predicate Valid()
      reads this, captureBuf
    {
      && captureBuf.Length == CAPTURE_BUF_SIZE
      && captureIdx <= CAPTURE_BUF_SIZE
      && Unrolled(captureBuf[..], captureIdx) == Last(History(), CAPTURE_BUF_SIZE)
    }

    constructor (size: nat)
      ensures Valid() && fresh(captureBuf) && produced == [] && captureIdx == 0
      ensures !active && !offloadEnabled && captureSize == size
    {
      captureBuf := new Byte[CAPTURE_BUF_SIZE](_ => SILENCE);
      captureIdx, lastCaptureIdx, captureSize, scalingMode := 0, 0, size, Normalized;
      updated, active, offloadEnabled, produced := false, false, false, [];
      new;
      assert captureBuf[..] == Silence(CAPTURE_BUF_SIZE);
    }

    method Reset()
      requires captureBuf.Length == CAPTURE_BUF_SIZE
      modifies this`captureIdx, this`lastCaptureIdx, this`updated, this`produced, captureBuf
      ensures Valid() && produced == []
    {
      captureIdx, lastCaptureIdx, updated, produced := 0, 0, false, [];
      forall i | 0 <= i < captureBuf.Length {
        captureBuf[i] := SILENCE;
      }
      assert captureBuf[..] == Silence(CAPTURE_BUF_SIZE);
    }

    method FindShift(samples: seq<Pcm16>) returns (shift: nat)
      requires samples != []
      ensures shift == Shift(scalingMode, samples)
    {
      ShiftInRange(scalingMode, samples);
      if scalingMode.AsPlayed? {
        return 9;
      }
      var least := 32;
      for i := 0 to |samples|
        invariant least == MinClz(samples[..i])
      {
        var smp := samples[i] as int;
        if smp < 0 {
          smp := -smp - 1;
        }
        var clz := Clz(smp);
        if least > clz {
          least := clz;
        }
        assert samples[..i + 1][..i] == samples[..i];
      }
      assert samples[..|samples|] == samples;
      var s := 25 - least;
      if s < 3 {
        s := 3;
      }
      shift := s + 1;
    }

    /** One byte at the running index, which wraps lazily: it may rest at the end. */
    method Put(idx: nat, b: Byte, ghost history: seq<Byte>) returns (next: nat)
      requires captureBuf.Length == CAPTURE_BUF_SIZE <= |history| && idx <= CAPTURE_BUF_SIZE
      requires Unrolled(captureBuf[..], idx) == Last(history, CAPTURE_BUF_SIZE)
      modifies captureBuf
      ensures next == (if idx >= CAPTURE_BUF_SIZE then 0 else idx) + 1
      ensures Unrolled(captureBuf[..], next) == Last(history + [b], CAPTURE_BUF_SIZE)
    {
      RingStep(captureBuf[..], idx, b, history);
      var at := if idx >= CAPTURE_BUF_SIZE then 0 else idx;
      ghost var ring := captureBuf[..];
      captureBuf[at] := b;
      assert captureBuf[..] == ring[at := b];
      next := at + 1;
    }

    method Process(samples: seq<Pcm16>, clockOk: bool) returns (status: int)
      requires Valid() && |samples| % 2 == 0
      modifies this`captureIdx, this`updated, this`produced, captureBuf
      ensures Valid()
      ensures samples == [] ==> status == -EINVAL && produced == old(produced) && updated == old(updated)
      ensures samples != [] ==>
                && updated == clockOk
                && status == (if active then 0 else -ENODATA)
                && produced == old(produced) + CapturedBytes(scalingMode, samples)
                && captureIdx == IdxAfter(old(captureIdx), |samples| / 2)
    {
      if samples == [] {
        return -EINVAL;
      }
      var shift := FindShift(samples);
      ghost var bytes := CapturedBytes(scalingMode, samples);
      ghost var history := History();
      var idx: nat := captureIdx;
      assert bytes[..0] == [] && history + [] == history;
      assert IdxAfter(idx, 0) == idx;
      hide IdxAfter, Valid, Unrolled, Last, Shift;
      for i := 0 to |samples| / 2
        modifies captureBuf
        invariant idx <= CAPTURE_BUF_SIZE && idx == IdxAfter(captureIdx, i)
        invariant Unrolled(captureBuf[..], idx) == Last(history + bytes[..i], CAPTURE_BUF_SIZE)
      {
        var smp := ShiftRight(samples[2 * i] as int + samples[2 * i + 1] as int, shift);
        assert bytes[i] == ToByte(smp);
        IdxStep(captureIdx, i);
        idx := Put(idx, ToByte(smp), history + bytes[..i]);
        assert (history + bytes[..i]) + [bytes[i]] == history + bytes[..i + 1];
      }
      assert history + bytes == Silence(CAPTURE_BUF_SIZE) + (produced + bytes);
      assert bytes[..|samples| / 2] == bytes;
      captureIdx := idx;
      produced := produced + bytes;
      updated := clockOk;
      status := if active then 0 else -ENODATA;
    }

    /** The copy of captureSize bytes out of the ring, from a point that may lie before slot 0. */
    method CopyFrom(point: int) returns (bytes: seq<Byte>)
      requires captureBuf.Length == CAPTURE_BUF_SIZE && captureIdx <= CAPTURE_BUF_SIZE && captureSize <= CAPTURE_BUF_SIZE
      requires 0 <= CAPTURE_BUF_SIZE + point && point <= captureIdx - captureSize
      ensures |bytes| == captureSize
      ensures var k := captureIdx - point;
              k <= CAPTURE_BUF_SIZE ==> bytes == CopyOut(captureBuf[..], captureIdx, k)[..captureSize]
    {
      ghost var ring := captureBuf[..];
      if captureIdx - point <= CAPTURE_BUF_SIZE { CopyOutParts(ring, captureIdx, point, captureSize); }
      hide CopyOut;
      var capturePoint, size := point, captureSize;
      bytes := [];
      if capturePoint < 0 {
        var n := -capturePoint;
        if n > size {
          n := size;
        }
        bytes := captureBuf[CAPTURE_BUF_SIZE + capturePoint..CAPTURE_BUF_SIZE + capturePoint + n];
        assert bytes == ring[CAPTURE_BUF_SIZE + point..CAPTURE_BUF_SIZE + point + n];
        size := size - n;
        capturePoint := 0;
      }
      bytes := bytes + captureBuf[capturePoint..capturePoint + size];
    }

    /** The effect is active but nothing was played for a while. */
    predicate Stalling(deltaMs: nat)
      reads this
    {
      lastCaptureIdx == captureIdx && updated && deltaMs > MAX_STALL_TIME_MS
    }

    /** VISUALIZER_CMD_CAPTURE, `deltaMs` after the last update.  The bytes are the last
        captureSize, or those before the latency that is left; a stall clears them, or part of
        them and what lies behind. */
    method Capture(replySize: nat, deltaMs: nat, samplingRate: nat) returns (reply: Reply)
      requires Valid() && captureSize <= CAPTURE_BUF_SIZE && deltaMs < TWO_32
      modifies this`lastCaptureIdx, this`updated
      ensures Valid()
      ensures replySize != captureSize ==> reply == Refused(-EINVAL)
      ensures replySize == captureSize && !offloadEnabled ==> reply == Untouched
      ensures replySize == captureSize && offloadEnabled && !active ==> reply == Data(Silence(captureSize), 0)
      ensures replySize == captureSize && offloadEnabled && active && deltaMs <= TWO_31 ==>
                && reply == Window(captureSize, old(Stalling(deltaMs)))
                && (!old(Stalling(deltaMs)) ==> reply == Data(Last(History(), captureSize), 0))
                && (reply.past == 0 <==> !old(Stalling(deltaMs)) || captureIdx >= captureSize)
      ensures var k := captureSize + DeltaSamples(samplingRate, LatencyMs(0, deltaMs));
              replySize == captureSize && offloadEnabled && active && k <= CAPTURE_BUF_SIZE ==>
                reply == Window(k, old(Stalling(deltaMs)))
      ensures var on := replySize == captureSize && offloadEnabled && active;
              && lastCaptureIdx == (if on then captureIdx else old(lastCaptureIdx))
              && updated == (old(updated) && !(on && old(Stalling(deltaMs))))
    {
      if replySize != captureSize {
        return Refused(-EINVAL);
      }
      if !offloadEnabled {
        return Untouched;
      }
      if !active {
        return Data(Silence(captureSize), 0);
      }
      hide Stalling, DeltaSamples, LatencyMs, Last, Valid;
      reply := CaptureActive(deltaMs, samplingRate);
    }

    /** The bytes `k` back from the newest, or what a stall leaves of them. */
    ghost function Window(k: nat, stalls: bool): Reply
      reads this
      requires captureSize <= k <= CAPTURE_BUF_SIZE
    {
      var bytes := Last(History(), k)[..captureSize];
      if stalls then Cleared(bytes, StallOffset(captureIdx, k, captureSize)) else Data(bytes, 0)
    }

    method CaptureActive(deltaMs: nat, samplingRate: nat) returns (reply: Reply)
      requires Valid() && captureSize <= CAPTURE_BUF_SIZE && deltaMs < TWO_32
      modifies this`lastCaptureIdx, this`updated
      ensures Valid() && lastCaptureIdx == captureIdx && updated == (old(updated) && !old(Stalling(deltaMs)))
      ensures var k := captureSize + DeltaSamples(samplingRate, LatencyMs(0, deltaMs));
              && (deltaMs <= TWO_31 ==> k == captureSize)
              && (k <= CAPTURE_BUF_SIZE ==> reply == Window(k, old(Stalling(deltaMs))))
    {
      NoLatency(deltaMs);
      var deltaSmp := DeltaSamples(samplingRate, LatencyMs(0, deltaMs));
      SmallDifference(captureIdx - captureSize - deltaSmp);
      var capturePoint := ToInt32((captureIdx - captureSize - deltaSmp) % TWO_32);
      var stalls := Stalling(deltaMs);
      hide Stalling, DeltaSamples, LatencyMs, ToInt32, Valid, Window;
      reply := CopyReply(capturePoint, captureSize + deltaSmp, stalls);
      if stalls { updated := false; }
      lastCaptureIdx := captureIdx;
    }

    method CopyReply(capturePoint: int, ghost k: nat, stalls: bool) returns (reply: Reply)
      requires Valid() && captureSize <= k && captureSize <= CAPTURE_BUF_SIZE && capturePoint == captureIdx - k
      ensures k <= CAPTURE_BUF_SIZE ==> reply == Window(k, stalls)
    {
      if CAPTURE_BUF_SIZE + capturePoint < 0 {
        return OutsideRing;
      }
      if k <= CAPTURE_BUF_SIZE { CopyOutIsLast(captureBuf[..], captureIdx, k, History()); }
      var bytes := CopyFrom(capturePoint);
      hide Valid, Last, History;
      reply := Data(bytes, 0);
      if stalls {
        var moved := if capturePoint >= 0 then 0 else if -capturePoint > captureSize then captureSize else -capturePoint;
        reply := Data(bytes[..moved] + seq(captureSize - moved, _ => SILENCE), moved);
        assert Silence(captureSize - moved) == seq(captureSize - moved, _ => SILENCE);
      }
    }
  }

  /** An effect that was reset, played ten frames and was read once: a second read after a stall
      clears 1014 bytes past a reply of 1024. */
  method AStalledCaptureWritesPastItsReply() returns (reply: Reply)
    ensures reply.Data? && |reply.bytes| == 1024 && reply.past == 1014
  {
    var v := new Visualizer(1024);
    v.active, v.offloadEnabled := true, true;
    var _ := v.Process(seq(20, _ => 0), true);
    reply := v.Capture(1024, 0, 48000);
    reply := v.Capture(1024, 2000, 48000);
  }
}

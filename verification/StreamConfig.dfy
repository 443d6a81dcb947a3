/** Validation of stream parameters, the size of the shared-memory area and the
    clamping of the latency: server/src/server.rs.

    Every operation on a u32 is checked: `None` is an overflow, which a debug
    build turns into a panic and a release build into a wrong number. */
module StreamConfig {
  import opened Wire

  const U32_LIMIT: nat := 0x1_0000_0000
  const PAGE: nat := 0x1_0000

  type U32 = x: nat | x < 0x1_0000_0000 witness 0

  // --- Arithmetic on u32 ------------------------------------------------------------------------

  function Checked(x: nat): Option<U32> {
    if x < U32_LIMIT then Some(x) else None
  }

  function Pow2(k: nat): (p: nat)
    ensures p > 0
  {
    if k == 0 then 1 else 2 * Pow2(k - 1)
  }

  // `x & y`, bit by bit.
  function BitAnd(x: nat, y: nat): nat {
    if x == 0 || y == 0 then 0 else (if x % 2 == 1 && y % 2 == 1 then 1 else 0) + 2 * BitAnd(x / 2, y / 2)
  }

  function Not(x: U32): U32 {
    U32_LIMIT - 1 - x
  }

  // The number of bits up to the highest one that is set.
  function BitLength(x: nat): nat {
    if x == 0 then 0 else 1 + BitLength(x / 2)
  }

  function LeadingZeros(x: U32): (z: nat)
    ensures z <= 32
  {
    Pow2High();
    BitLengthBound(x, 32);
    32 - BitLength(x)
  }

  lemma {:induction false} BitLengthBound(x: nat, k: nat)
    requires x < Pow2(k)
    ensures BitLength(x) <= k
  {
    if x > 0 {
      BitLengthBound(x / 2, k - 1);
    }
  }

  lemma {:induction false} BitLengthRange(x: nat)
    ensures x < Pow2(BitLength(x))
    ensures x > 0 ==> Pow2(BitLength(x)) <= 2 * x
  {
    if x > 0 {
      BitLengthRange(x / 2);
    }
  }

  lemma {:induction false} Pow2Grows(i: nat, j: nat)
    requires i < j
    ensures 2 * Pow2(i) <= Pow2(j)
  {
    if i + 1 < j {
      Pow2Grows(i, j - 1);
    }
  }

  function Shl(x: nat, k: nat): nat {
    if k == 0 then x else 2 * Shl(x, k - 1)
  }

  function Shr(x: nat, k: nat): nat {
    if k == 0 then x else Shr(x / 2, k - 1)
  }

  // A mask whose low k bits are clear clears the low k bits.
  lemma {:induction false} MaskShifts(x: nat, k: nat, y: nat)
    ensures BitAnd(x, Shl(y, k)) == Shl(BitAnd(Shr(x, k), y), k)
  {
    if k > 0 {
      MaskShifts(x / 2, k - 1, y);
      assert 2 * Shl(y, k - 1) / 2 == Shl(y, k - 1);
    }
  }

  lemma ShiftSixteen(x: nat)
    ensures Shl(x, 16) == PAGE * x && Shr(x, 16) == x / PAGE
  {
    ShlFour(x, 0);
    ShlFour(x, 4);
    ShlFour(x, 8);
    ShlFour(x, 12);
    ShrFour(x, 12);
    ShrFour(x / 16, 8);
    ShrFour(x / 16 / 16, 4);
    ShrFour(x / 16 / 16 / 16, 0);
  }

  lemma ShlFour(x: nat, k: nat)
    ensures Shl(x, k + 4) == 16 * Shl(x, k)
  {
    assert Shl(x, k + 2) == 4 * Shl(x, k);
  }

  lemma ShrFour(x: nat, k: nat)
    ensures Shr(x, k + 4) == Shr(x / 16, k)
  {
    assert Shr(x, k + 4) == Shr(x / 2, k + 3);
    assert Shr(x / 2, k + 3) == Shr(x / 2 / 2, k + 2);
    assert Shr(x / 2 / 2, k + 2) == Shr(x / 2 / 2 / 2, k + 1);
  }

  // A mask of k ones keeps anything below 2^k.
  lemma {:induction false} OnesKeep(x: nat, k: nat)
    requires x < Pow2(k)
    ensures BitAnd(x, Pow2(k) - 1) == x
  {
    if k > 0 && x > 0 {
      var ones, fewer := Pow2(k) - 1, Pow2(k - 1) - 1;
      assert ones == 2 * fewer + 1;
      assert x == x % 2 + 2 * (x / 2) && x / 2 < fewer + 1;
      hide Pow2;
      OnesKeep(x / 2, k - 1);
      BitAndOdd(x, fewer);
    }
  }

  lemma BitAndOdd(x: nat, y: nat)
    ensures BitAnd(x, 2 * y + 1) == x % 2 + 2 * BitAnd(x / 2, y)
  {
    assert (2 * y + 1) / 2 == y;
  }

  /** `x & !0xffff` rounds down to a multiple of 64 KiB. */
  lemma MaskRoundsDown(x: U32)
    ensures BitAnd(x, Not(0xffff)) == x - x % PAGE
  {
    Pow2Page();
    ShiftSixteen(0xffff);
    ShiftSixteen(x);
    ShiftSixteen(x / PAGE);
    MaskShifts(x, 16, 0xffff);
    OnesKeep(x / PAGE, 16);
  }

  lemma Pow2Page()
    ensures Pow2(16) == PAGE
  {
    assert Pow2(8) == 256 by { assert Pow2(4) == 16; }
    assert Pow2(12) == 4096;
  }

  // --- Parameters -----------------------------------------------------------------------------------

  datatype Format = S16LE | S16BE | Float32LE | Float32BE | Unknown(raw: int)

  datatype StreamParams = StreamParams(format: Format, rate: U32, channels: U32)

  datatype CreateParams = CreateParams(input: Option<StreamParams>, output: Option<StreamParams>, latencyFrames: U32)

  const MIN_RATE := 1_000
  const MAX_RATE := 768_000
  const MAX_CHANNELS := 255

  // validate_stream_params
  predicate ValidParams(p: StreamParams) {
    && !p.format.Unknown?
    && 1 <= p.channels <= MAX_CHANNELS
    && MIN_RATE <= p.rate <= MAX_RATE
  }

  // validate_stream_create_params: Ok(())?
  predicate Validate(c: CreateParams) {
    if c.input.None? && c.output.None? then false
    else if c.input.Some? && !ValidParams(c.input.value) then false
    else if c.output.Some? && !ValidParams(c.output.value) then false
    else if c.input.Some? && c.output.Some? &&
            (c.input.value.rate != c.output.value.rate || c.input.value.format != c.output.value.format) then false
    else true
  }

  /** Which parameters are accepted: at least one direction; in each a known format, 1 to
      255 channels and a rate from 1 kHz to 768 kHz; and for both, the same rate and
      format. */
  lemma ValidateIff(c: CreateParams)
    ensures Validate(c) <==>
              && (c.input.Some? || c.output.Some?)
              && (forall p :: c.input == Some(p) || c.output == Some(p) ==>
                    && (p.format.S16LE? || p.format.S16BE? || p.format.Float32LE? || p.format.Float32BE?)
                    && 0 < p.channels < 256 && 999 < p.rate < 768_001)
              && (forall i, o :: c.input == Some(i) && c.output == Some(o) ==> i.rate == o.rate && i.format == o.format)
  {
    if c.input.Some? {
      assert c.input == Some(c.input.value);
    }
    if c.output.Some? {
      assert c.output == Some(c.output.value);
    }
  }

  // frame_size_in_bytes; what cubeb makes of an unknown format is not part of this model.
  function FrameSize(p: StreamParams): nat
    requires !p.format.Unknown?
  {
    (if p.format.S16LE? || p.format.S16BE? then 2 else 4) * p.channels
  }

  /** A frame has two bytes for each channel of 16 bits and four for each float, so floats
      take twice the room, and all channels of a frame take the same. */
  lemma FrameSizes(p: StreamParams)
    requires !p.format.Unknown?
    ensures p.format.S16LE? || p.format.S16BE? ==>
              FrameSize(p) == p.channels + p.channels && FrameSize(p.(format := Float32LE)) == 2 * FrameSize(p)
    ensures FrameSize(p.(format := Float32BE)) == FrameSize(p.(format := Float32LE))
    ensures FrameSize(p.(format := S16BE)) == FrameSize(p.(format := S16LE))
    ensures FrameSize(p) == p.channels * FrameSize(p.(channels := 1))
  {
  }

  function FrameSizeOr0(p: Option<StreamParams>): nat
    requires p.Some? ==> !p.value.format.Unknown?
  {
    if p.Some? then FrameSize(p.value) else 0
  }

  // A direction that is not used takes no room.
  lemma UnusedTakesNothing()
    ensures FrameSizeOr0(None) == 0 && RateOr0(None) == 0
  {
  }

  function RateOr0(p: Option<StreamParams>): nat {
    if p.Some? then p.value.rate else 0
  }

  function Max(a: nat, b: nat): nat {
    if a >= b then a else b
  }

  // --- The shared-memory area -------------------------------------------------------------------

  // process_stream_create; `fixed` is the server's shm_area_size override, 0 if there is none.
  function AreaSize(c: CreateParams, fixed: nat): Option<nat>
    requires Validate(c)
  {
    if fixed != 0 then Some(fixed)
    else
      var frameSize := Max(FrameSizeOr0(c.output), FrameSizeOr0(c.input));
      var rate := Max(RateOr0(c.output), RateOr0(c.input));
      var bytes := Checked(rate * frameSize);
      if bytes.None? then None
      else
        var padded := Checked(bytes.value + 0xffff);
        if padded.None? then None else Some(BitAnd(padded.value, Not(0xffff)))
  }

  // One second of audio in the wider direction.
  function SecondOfAudio(c: CreateParams): nat
    requires Validate(c)
  {
    Rate(c) * Max(FrameSizeOr0(c.output), FrameSizeOr0(c.input))
  }

  // --- Latency --------------------------------------------------------------------------------------

  // The rate process_stream_init uses.
  function Rate(c: CreateParams): U32
    requires Validate(c)
  {
    if c.output.Some? then c.output.value.rate else c.input.value.rate
  }

  // `1 << (32 - (v - 1).leading_zeros())`; a shift by 32 overflows, and so does v - 1 at 0.
  function RoundUpPow2(v: U32): Option<U32> {
    if v == 0 then None
    else
      var shift := 32 - LeadingZeros(v - 1);
      if shift < 32 then Checked(Pow2(shift)) else None
  }

  function MinLatency(rate: U32): Option<U32> {
    var five := Checked(5 * rate);
    if five.None? then None else RoundUpPow2(five.value / 1000)
  }

  // Ord::clamp panics unless lo <= hi.
  function Clamp(x: U32, lo: U32, hi: U32): Option<U32> {
    if lo > hi then None
    else if x < lo then Some(lo)
    else if x > hi then Some(hi)
    else Some(x)
  }

  /** `clamp` gives the value in range that is nearest, and panics exactly if there is no
      range. */
  lemma ClampIsNearest(x: U32, lo: U32, hi: U32, y: U32)
    ensures Clamp(x, lo, hi).None? <==> lo > hi
    ensures Clamp(x, lo, hi).Some? ==>
              var r := Clamp(x, lo, hi).value;
              lo <= r <= hi && (lo <= y <= hi ==> x <= r <= y || y <= r <= x)
  {
  }

  function Latency(c: CreateParams): Option<U32>
    requires Validate(c)
  {
    var lo := MinLatency(Rate(c));
    if lo.None? then None else Clamp(c.latencyFrames, lo.value, Rate(c))
  }

  // --- Results ----------------------------------------------------------------------------------------

  predicate IsPow2(p: nat) {
    p > 0 && p == Pow2(BitLength(p) - 1)
  }

  lemma {:induction false} PowersOfTwo(k: nat)
    ensures BitLength(Pow2(k)) == k + 1 && IsPow2(Pow2(k))
  {
    if k > 0 {
      PowersOfTwo(k - 1);
      assert Pow2(k) / 2 == Pow2(k - 1);
    }
  }

  /** round_up_pow2 is the least power of two at or above its argument, as long
      as that is a u32. */
  lemma RoundUpIsLeast(v: U32)
    requires 1 <= v <= 0x8000_0000
    ensures var r := RoundUpPow2(v);
            r.Some? && IsPow2(r.value) && v <= r.value && forall k: nat :: v <= Pow2(k) ==> r.value <= Pow2(k)
    ensures RoundUpPow2(v).value < 2 * v
  {
    var shift := ShiftOf(v);
    PowersOfTwo(shift);
    hide BitLength, LeadingZeros, Pow2, RoundUpPow2;
    forall k: nat
      ensures v <= Pow2(k) ==> Pow2(shift) <= Pow2(k)
    {
      LeastPow2(v, shift, k);
    }
  }

  // The shift round_up_pow2 comes to, and what it shifts to.
  lemma ShiftOf(v: U32) returns (shift: nat)
    requires 1 <= v <= 0x8000_0000
    ensures RoundUpPow2(v) == Some(Pow2(shift)) && v <= Pow2(shift) < 2 * v
    ensures (v > 1 ==> Pow2(shift) <= 2 * (v - 1)) && (v == 1 ==> shift == 0)
  {
    shift := BitLength(v - 1);
    BitLengthRange(v - 1);
    Pow2High();
    BitLengthBound(v - 1, 31);
    assert shift == 32 - LeadingZeros(v - 1);
    hide BitLength, LeadingZeros;
    if shift < 31 { Pow2Grows(shift, 31); }
    hide Pow2;
  }

  lemma LeastPow2(v: nat, shift: nat, k: nat)
    requires v >= 1 && (v > 1 ==> Pow2(shift) <= 2 * (v - 1)) && (v == 1 ==> shift == 0)
    ensures v <= Pow2(k) ==> Pow2(shift) <= Pow2(k)
  {
    if k < shift {
      if k + 1 < shift { Pow2Grows(k, shift - 1); }
      assert 2 * Pow2(k) <= Pow2(shift) <= 2 * (v - 1);
    } else if k > shift {
      Pow2Grows(shift, k);
    }
  }

  lemma Pow2High()
    ensures Pow2(31) == 0x8000_0000 && Pow2(32) == U32_LIMIT
  {
    Pow2Page();
    assert Pow2(20) == 0x10_0000;
    assert Pow2(24) == 0x100_0000;
    assert Pow2(28) == 0x1000_0000;
  }

  lemma ProductBound(a: nat, b: nat, x: nat, y: nat)
    requires a <= x && b <= y
    ensures a * b <= x * y
  {
    assert a * b <= x * b <= x * y;
  }

  // Both directions of a validated duplex stream share one rate.
  lemma RateIsMax(c: CreateParams)
    requires Validate(c)
    ensures Max(RateOr0(c.output), RateOr0(c.input)) == Rate(c)
    ensures MIN_RATE <= Rate(c) <= MAX_RATE
    ensures 1 <= Max(FrameSizeOr0(c.output), FrameSizeOr0(c.input)) <= 4 * MAX_CHANNELS
  {
  }

  lemma LeastMultiple(n: nat, a: nat)
    requires a == n + 0xffff - (n + 0xffff) % PAGE
    ensures a % PAGE == 0 && n <= a && forall other: nat :: other % PAGE == 0 && n <= other ==> a <= other
  {
  }

  lemma SecondBound(c: CreateParams)
    requires Validate(c)
    ensures SecondOfAudio(c) + 0xffff < U32_LIMIT
  {
    RateIsMax(c);
    hide FrameSizeOr0, RateOr0, Validate;
    ProductBound(Rate(c), Max(FrameSizeOr0(c.output), FrameSizeOr0(c.input)), MAX_RATE, 4 * MAX_CHANNELS);
  }

  lemma AreaIsMasked(c: CreateParams)
    requires Validate(c) && SecondOfAudio(c) + 0xffff < U32_LIMIT
    ensures AreaSize(c, 0) == Some(BitAnd(SecondOfAudio(c) + 0xffff, Not(0xffff)))
  {
    RateIsMax(c);
    hide FrameSizeOr0, RateOr0, Validate, BitAnd, Not, Rate, Max;
  }

  /** Nothing overflows in sizing the area, and without an override it is the
      least multiple of 64 KiB that holds one second of audio. */
  lemma AreaIsLeast(c: CreateParams)
    requires Validate(c)
    ensures var area := AreaSize(c, 0);
            && area.Some? && area.value % PAGE == 0 && SecondOfAudio(c) <= area.value
            && forall other: nat :: other % PAGE == 0 && SecondOfAudio(c) <= other ==> area.value <= other
  {
    hide BitAnd, Not, SecondOfAudio, FrameSizeOr0, AreaSize, Validate;
    var n := SecondOfAudio(c);
    SecondBound(c);
    AreaIsMasked(c);
    MaskRoundsDown(n + 0xffff);
    LeastMultiple(n, BitAnd(n + 0xffff, Not(0xffff)));
  }

  /** The latency never overflows and `clamp` never panics: the minimum is the
      least power of two at or above 5 * rate / 1000, far below the maximum.
      The result is the requested latency, moved into that range. */
  lemma LatencyIsClamped(c: CreateParams)
    requires Validate(c)
    ensures var lo, hi, r := MinLatency(Rate(c)), Rate(c), Latency(c);
            && lo.Some? && r.Some? && IsPow2(lo.value) && 5 * hi / 1000 <= lo.value <= hi
            && (forall k: nat :: 5 * hi / 1000 <= Pow2(k) ==> lo.value <= Pow2(k))
            && lo.value <= r.value <= hi
            && r.value == if c.latencyFrames < lo.value then lo.value else if c.latencyFrames > hi then hi
               else c.latencyFrames
  {
    RateIsMax(c);
    RoundUpIsLeast(5 * Rate(c) / 1000);
    hide RoundUpPow2, IsPow2;
  }

  /** With an automatically sized area, a buffer of `latency` frames fits it in
      both directions. */
  lemma AutomaticAreaFits(c: CreateParams)
    requires Validate(c)
    ensures var area, latency := AreaSize(c, 0), Latency(c);
            && area.Some? && latency.Some?
            && latency.value * FrameSizeOr0(c.input) <= area.value
            && latency.value * FrameSizeOr0(c.output) <= area.value
  {
    AreaIsLeast(c);
    LatencyIsClamped(c);
    var fs := Max(FrameSizeOr0(c.output), FrameSizeOr0(c.input));
    hide AreaSize, Latency, MinLatency, IsPow2, FrameSizeOr0;
    var latency := Latency(c).value;
    ProductBound(latency, FrameSizeOr0(c.input), Rate(c), fs);
    ProductBound(latency, FrameSizeOr0(c.output), Rate(c), fs);
  }

  // Whatever latency is asked for, a buffer of that many frames fits the area.
  ghost predicate AlwaysFits(c: CreateParams, fixed: nat)
    requires Validate(c)
  {
    forall requested: U32 ::
      var d := c.(latencyFrames := requested);
      AreaSize(d, fixed).Some? && Latency(d).Some? &&
      Latency(d).value * Max(FrameSizeOr0(c.output), FrameSizeOr0(c.input)) <= AreaSize(d, fixed).value
  }

  /** A fixed area gives no such promise: it fits every requested latency if and
      only if it holds one second of audio. */
  lemma FixedAreaFitsIff(c: CreateParams, fixed: nat)
    requires Validate(c) && fixed != 0
    ensures AlwaysFits(c, fixed) <==> SecondOfAudio(c) <= fixed
  {
    hide MinLatency, FrameSizeOr0;
    var fs := Max(FrameSizeOr0(c.output), FrameSizeOr0(c.input));
    if AlwaysFits(c, fixed) {
      var d := c.(latencyFrames := Rate(c));
      LatencyIsClamped(d);
      assert Latency(d).value == Rate(c);
    }
    if SecondOfAudio(c) <= fixed {
      forall requested: U32
        ensures var d := c.(latencyFrames := requested); Latency(d).Some? && Latency(d).value * fs <= fixed
      {
        var d := c.(latencyFrames := requested);
        LatencyIsClamped(d);
        ProductBound(Latency(d).value, fs, Rate(c), fs);
      }
    }
  }

  // A validated stereo float stream at 48 kHz, and a fixed area of 64 KiB it overruns.
  lemma FixedAreaCanBeTooSmall()
    ensures var p := StreamParams(Float32LE, 48_000, 2);
            var c := CreateParams(None, Some(p), 48_000);
            Validate(c) && !AlwaysFits(c, PAGE)
  {
    var c := CreateParams(None, Some(StreamParams(Float32LE, 48_000, 2)), 48_000);
    FixedAreaFitsIff(c, PAGE);
  }
}

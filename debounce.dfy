/**
 * The part of the button debouncer that all three engines share: the
 * configuration record with its defaults, the debounced outputs every engine
 * reports (the level and the two one-shot events), the per-engine state
 * records, and the two bit helpers the history-based engines use.
 *
 * Unsigned 8-bit values appear in two forms: `uint8` for counters and
 * configuration values, which the engines compare and count with, and `bv8`
 * for the sample history register and the bit helpers, which work on bits.
 */
module Debounce {

  /** An unsigned 8-bit counter or configuration value. */
  newtype uint8 = x: int | 0 <= x < 256

  /**
   * Tuning parameters, fixed at construction. Each engine reads only its own
   * fields, and none of them is validated: degenerate values (a `consecN`
   * of 0, an `integOff` at or above `integOn`) give the literal behaviour of
   * the arithmetic.
   */
  datatype Config = Config(
    // Integrator: saturation ceiling, press threshold, release threshold
    integMax: uint8,
    integOn: uint8,
    integOff: uint8,
    // Consecutive: how many identical newest samples accept a change (8 at most count)
    consecN: uint8,
    // Edge-Gated: edges in the window that count as bouncing, ticks of
    // confirmed bouncing before a forced recenter, bouncing ticks before gating
    edgeThreshold: uint8,
    unstableTimeout: uint8,
    bounceConfirm: uint8)

  /** The configuration a debouncer gets when its constructor is given none. */
  const DefaultConfig: Config := Config(6, 4, 2, 3, 4, 16, 1)

  /**
   * The defaults give the Integrator a real hysteresis band inside its range
   * and ask the history engines for a whole, non-empty run of samples.
   */
  lemma DefaultConfigShape()
    ensures DefaultConfig.integOff < DefaultConfig.integOn <= DefaultConfig.integMax
    ensures 1 <= DefaultConfig.consecN <= 8
    ensures DefaultConfig.edgeThreshold <= 8 && 1 <= DefaultConfig.bounceConfirm
    ensures DefaultConfig.bounceConfirm < DefaultConfig.unstableTimeout
  {
  }

  /** What a debouncer reports: its debounced level and the events of the last tick. */
  datatype Outputs = Outputs(down: bool, pressed: bool, released: bool)

  /** The outputs of a debouncer at level `down` that reports no event. */
  function Quiet(down: bool): Outputs {
    Outputs(down, false, false)
  }

  predicate NoEvent(o: Outputs) {
    !o.pressed && !o.released
  }

  /**
   * The events report exactly the level change from `before` to `o.down`: a
   * press when it went from up to down, a release when it went from down to up.
   */
  predicate EventsMatch(before: bool, o: Outputs) {
    && o.pressed == (!before && o.down)
    && o.released == (before && !o.down)
  }

  /** What every tick of every engine guarantees about its outputs. */
  lemma EventsMatchMeansOneShot(before: bool, o: Outputs)
    requires EventsMatch(before, o)
    ensures !(o.pressed && o.released)
    ensures o.down != before <==> o.pressed || o.released
    ensures o.pressed ==> o.down
    ensures o.released ==> !o.down
  {
  }

  /** The Integrator engine's state: its saturating accumulator. */
  datatype IntegratorState = IntegratorState(acc: uint8)

  /**
   * The history engines' state: the 8-sample shift register (newest sample
   * in bit 0), the Edge-Gated timeout counter and its bouncing streak.
   */
  datatype HistoryState = HistoryState(hist: bv8, unstable: uint8, bounceK: uint8)

  /** `k` samples of the same value. */
  function Repeat(v: bool, k: nat): (r: seq<bool>)
    ensures |r| == k && forall i :: 0 <= i < k ==> r[i] == v
  {
    seq(k, _ => v)
  }

  /** `k` strictly alternating samples, the first of them `first`. */
  function Alternating(first: bool, k: nat): (r: seq<bool>)
    ensures |r| == k
    ensures forall i :: 0 <= i < k ==> r[i] == ((i % 2 == 0) == first)
  {
    seq(k, i => (i % 2 == 0) == first)
  }

  // ---------------------------------------------------------------------
  // Bits of a byte

  /** Bit `i` of `x` is set. */
  predicate Bit(x: bv8, i: nat)
    requires i < 8
  {
    (x >> i) & 1 == 1
  }

  function BitValue(x: bv8, i: nat): nat
    requires i < 8
  {
    if Bit(x, i) then 1 else 0
  }

  /** The number of set bits among bits 0 .. k-1 of `x`. */
  function SetBitsBelow(x: bv8, k: nat): nat
    requires k <= 8
  {
    if k == 0 then 0 else SetBitsBelow(x, k - 1) + BitValue(x, k - 1)
  }

  /** Two bytes with the same bits are equal. */
  lemma BitsDetermine(x: bv8, y: bv8)
    requires forall i :: 0 <= i < 8 ==> Bit(x, i) == Bit(y, i)
    ensures x == y
  {
    assert Bit(x, 0) == Bit(y, 0) && Bit(x, 1) == Bit(y, 1);
    assert Bit(x, 2) == Bit(y, 2) && Bit(x, 3) == Bit(y, 3);
    assert Bit(x, 4) == Bit(y, 4) && Bit(x, 5) == Bit(y, 5);
    assert Bit(x, 6) == Bit(y, 6) && Bit(x, 7) == Bit(y, 7);
  }

  lemma BitOfAnd(x: bv8, y: bv8, i: nat)
    requires i < 8
    ensures Bit(x & y, i) == (Bit(x, i) && Bit(y, i))
  {
  }

  lemma NoBitOfZero(i: nat)
    requires i < 8
    ensures !Bit(0, i)
  {
  }

  // ---------------------------------------------------------------------
  // The two helpers of the history engines

  /** The eight bits of `x` added up as bytes; the sum is at most 8, so it does not wrap. */
  function BitSum8(x: bv8): bv8 {
    (x & 1) + ((x >> 1) & 1) + ((x >> 2) & 1) + ((x >> 3) & 1)
      + ((x >> 4) & 1) + ((x >> 5) & 1) + ((x >> 6) & 1) + ((x >> 7) & 1)
  }

  /**
   * Population count by pairwise, then nibble-wise, partial sums; every
   * partial sum fits in a byte, so the 8-bit truncations lose nothing and
   * the result is the sum of the eight single bits.
   */
  function Popcount8(x: bv8): (r: uint8)
    ensures r as int == BitSum8(x) as int
  {
    var x1 := (x & 0x55) + ((x >> 1) & 0x55);
    var x2 := (x1 & 0x33) + ((x1 >> 2) & 0x33);
    ((x2 + (x2 >> 4)) & 0x0F) as uint8
  }

  lemma BitSumCounts(x: bv8)
    ensures SetBitsBelow(x, 8) == BitSum8(x) as int
  {
    assert SetBitsBelow(x, 1) == BitValue(x, 0);
    assert SetBitsBelow(x, 2) == SetBitsBelow(x, 1) + BitValue(x, 1);
    assert SetBitsBelow(x, 3) == SetBitsBelow(x, 2) + BitValue(x, 2);
    assert SetBitsBelow(x, 4) == SetBitsBelow(x, 3) + BitValue(x, 3);
    assert SetBitsBelow(x, 5) == SetBitsBelow(x, 4) + BitValue(x, 4);
    assert SetBitsBelow(x, 6) == SetBitsBelow(x, 5) + BitValue(x, 5);
    assert SetBitsBelow(x, 7) == SetBitsBelow(x, 6) + BitValue(x, 6);
    assert SetBitsBelow(x, 8) == SetBitsBelow(x, 7) + BitValue(x, 7);
  }

  /** `Popcount8` counts the set bits of its argument, so it is at most 8. */
  lemma Popcount8Counts(x: bv8)
    ensures Popcount8(x) as int == SetBitsBelow(x, 8)
    ensures Popcount8(x) <= 8
  {
    BitSumCounts(x);
  }

  /**
   * There is an edge at position `i` of the history `h` when sample `i`
   * differs from sample `i + 1`; the position above the newest eight samples
   * reads as 0, so a set bit 7 is an edge.
   */
  predicate Edge(h: bv8, i: nat)
    requires i < 8
  {
    Bit(h, i) != (i < 7 && Bit(h, i + 1))
  }

  /** The number of edges at positions 0 .. k-1 of `h`. */
  function EdgesBelow(h: bv8, k: nat): nat
    requires k <= 8
  {
    if k == 0 then 0 else EdgesBelow(h, k - 1) + (if Edge(h, k - 1) then 1 else 0)
  }


  lemma EdgeIsChangedBit(h: bv8, i: nat)
    requires i < 8
    ensures Bit(h ^ (h >> 1), i) == Edge(h, i)
  {
  }

  lemma {:induction false} EdgesAreChangedBits(h: bv8, k: nat)
    requires k <= 8
    ensures EdgesBelow(h, k) == SetBitsBelow(h ^ (h >> 1), k)
  {
    if k > 0 {
      EdgesAreChangedBits(h, k - 1);
      EdgeIsChangedBit(h, k - 1);
    }
  }

  /**
   * Transitions between adjacent samples, counted as the set bits of
   * `h ^ (h >> 1)`: the number of edges of the history, so at most 8.
   */
  function EdgeCount8(h: bv8): (r: uint8)
    ensures r as int == EdgesBelow(h, 8)
    ensures r <= 8
  {
    var t := h ^ (h >> 1);
    Popcount8Counts(t);
    EdgesAreChangedBits(h, 8);
    Popcount8(t)
  }

  /**
   * A constant-low history has no edge, but a constant-high one has one, at
   * bit 7, against the 0 the right shift brings in; the alternating patterns
   * have the most, 0xAA one more than 0x55 for the same reason.
   */
  lemma EdgeCount8Extremes()
    ensures EdgeCount8(0x00) == 0 && EdgesBelow(0x00, 8) == 0
    ensures EdgeCount8(0xFF) == 1 && EdgesBelow(0xFF, 8) == 1
    ensures EdgeCount8(0x55) == 7 && EdgeCount8(0xAA) == 8
  {
  }
}

/**
 * The Consecutive engine: an 8-bit shift register of raw samples (newest in
 * bit 0) and a change of level once the newest `min(consecN, 8)` samples all
 * agree with the other level.
 *
 * The register helpers and the acceptance rule defined here are the ones the
 * Edge-Gated engine reuses.
 */
module Consecutive {
  import opened Debounce

  // ---------------------------------------------------------------------
  // The sample register

  /**
   * Shifts a sample into the register: the new sample becomes bit 0, every
   * older bit moves up one place and the oldest, bit 7, falls off.
   */
  function ShiftIn(h: bv8, rawDown: bool): (r: bv8)
    ensures Bit(r, 0) == rawDown
    ensures forall i :: 1 <= i < 8 ==> Bit(r, i) == Bit(h, i - 1)
  {
    (h << 1) | (if rawDown then 1 else 0)
  }

  /** As numbers, shifting in is doubling and adding the sample, modulo 256. */
  lemma ShiftInArithmetic(h: bv8, rawDown: bool)
    ensures ShiftIn(h, rawDown) as int == (h as int * 2 + (if rawDown then 1 else 0)) % 256
  {
  }

  /** The register contents that say "the last eight samples were all `down`". */
  function Fill(down: bool): (r: bv8)
    ensures forall i :: 0 <= i < 8 ==> Bit(r, i) == down
  {
    if down then 0xFF else 0x00
  }

  /** The mask of the `n` newest samples; with `n` at 8 or above, all eight. */
  function Mask(n: uint8): (m: bv8)
    ensures forall i :: 0 <= i < 8 ==> (Bit(m, i) <==> i < n as int)
  {
    if n >= 8 then 0xFF else ((1 as bv8) << n) - 1
  }

  function Pow2(k: nat): nat {
    if k == 0 then 1 else 2 * Pow2(k - 1)
  }

  /** The mask is 2^n - 1 below 8 and 0xFF from 8 on. */
  lemma MaskValue(n: uint8)
    ensures Mask(n) as int == Pow2(if n >= 8 then 8 else n as nat) - 1
  {
    if n == 0 {
    } else if n == 1 {
    } else if n == 2 {
    } else if n == 3 {
    } else if n == 4 {
    } else if n == 5 {
    } else if n == 6 {
    } else if n == 7 {
    } else {
      assert Pow2(8) == 256;
    }
  }

  /** How many newest samples the acceptance rule looks at. */
  function Window(n: uint8): nat {
    if n >= 8 then 8 else n as nat
  }

  /** The `Window(n)` newest samples of the register `h` all equal `v`. */
  predicate NewestAre(h: bv8, n: uint8, v: bool) {
    forall i :: 0 <= i < Window(n) ==> Bit(h, i) == v
  }

  /** The source's all-ones test of the masked register. */
  lemma MaskedAllSet(h: bv8, n: uint8)
    ensures (h & Mask(n) == Mask(n)) <==> NewestAre(h, n, true)
  {
    var m := Mask(n);
    forall i | 0 <= i < 8 ensures Bit(h & m, i) == (Bit(h, i) && Bit(m, i)) {
      BitOfAnd(h, m, i);
    }
    if NewestAre(h, n, true) {
      BitsDetermine(h & m, m);
    }
  }

  /** The source's all-zeros test of the masked register. */
  lemma MaskedAllClear(h: bv8, n: uint8)
    ensures (h & Mask(n) == 0) <==> NewestAre(h, n, false)
  {
    var m := Mask(n);
    forall i | 0 <= i < 8 ensures Bit(h & m, i) == (Bit(h, i) && Bit(m, i)) && !Bit(0, i) {
      BitOfAnd(h, m, i);
      NoBitOfZero(i);
    }
    if NewestAre(h, n, false) {
      BitsDetermine(h & m, 0);
    }
  }

  /**
   * The acceptance rule: from up, go down (a press) when the masked newest
   * samples are all 1; from down, go up (a release) when they are all 0;
   * otherwise keep the level and report nothing.
   */
  function Accept(n: uint8, down: bool, h: bv8): (o: Outputs)
    ensures EventsMatch(down, o)
    ensures !down ==> (o.down <==> NewestAre(h, n, true))
    ensures down ==> (!o.down <==> NewestAre(h, n, false))
  {
    MaskedAllSet(h, n);
    MaskedAllClear(h, n);
    var mask := Mask(n);
    var allPressed := h & mask == mask;
    var allReleased := h & mask == 0;
    if !down && allPressed then Outputs(true, true, false)
    else if down && allReleased then Outputs(false, false, true)
    else Quiet(down)
  }

  // ---------------------------------------------------------------------
  // The engine as a function of its state

  datatype State = State(out: Outputs, eng: HistoryState)

  /** The state `reset(down)` sets: the level, no event, a register full of that level. */
  function ResetState(down: bool): (r: State)
    ensures r.out.down == down && NoEvent(r.out)
    ensures forall i :: 0 <= i < 8 ==> Bit(r.eng.hist, i) == down
    ensures r.eng.unstable == 0 && r.eng.bounceK == 0
  {
    State(Quiet(down), HistoryState(Fill(down), 0, 0))
  }

  /** One tick with raw sample `rawDown`. */
  function Step(cfg: Config, s: State, rawDown: bool): (r: State)
    ensures Bit(r.eng.hist, 0) == rawDown
    ensures forall i :: 1 <= i < 8 ==> Bit(r.eng.hist, i) == Bit(s.eng.hist, i - 1)
    ensures r.eng.unstable == s.eng.unstable && r.eng.bounceK == s.eng.bounceK
    ensures EventsMatch(s.out.down, r.out)
    ensures !s.out.down ==> (r.out.pressed <==> NewestAre(r.eng.hist, cfg.consecN, true))
    ensures s.out.down ==> (r.out.released <==> NewestAre(r.eng.hist, cfg.consecN, false))
  {
    var h := ShiftIn(s.eng.hist, rawDown);
    State(Accept(cfg.consecN, s.out.down, h), s.eng.(hist := h))
  }

  /** The state after feeding `inputs`, oldest first, to a debouncer in state `s`. */
  function Run(cfg: Config, s: State, inputs: seq<bool>): State
    decreases |inputs|
  {
    if inputs == [] then s
    else Step(cfg, Run(cfg, s, inputs[..|inputs| - 1]), inputs[|inputs| - 1])
  }

  // ---------------------------------------------------------------------
  // The engine as an object

  class ButtonDebounce {
    const cfg: Config
    var state: bool
    var pressed: bool
    var released: bool
    var hist: bv8
    var unstable: uint8
    var bounceK: uint8

    ghost function View(): State
      reads this
    {
      State(Outputs(state, pressed, released), HistoryState(hist, unstable, bounceK))
    }

    /** Stores the configuration and resets to "up". */
    constructor (cfg: Config := DefaultConfig)
      ensures this.cfg == cfg
      ensures View() == ResetState(false)
    {
      this.cfg := cfg;
      new;
      Reset(false);
    }

    /** Forces the level to `startDown` and reinitialises the whole engine state. */
    method Reset(startDown: bool := false)
      modifies this
      ensures View() == ResetState(startDown)
    {
      state := startDown;
      pressed := false;
      released := false;

      hist := if state then 0xFF else 0x00;
      unstable := 0;
      bounceK := 0;
    }

    /** Consumes one raw sample. */
    method Update(rawDown: bool)
      modifies this
      ensures View() == Step(cfg, old(View()), rawDown)
      ensures EventsMatch(old(state), View().out)
    {
      pressed := false;
      released := false;

      hist := ShiftIn(hist, rawDown);

      var n := cfg.consecN;
      var mask := if n >= 8 then 0xFF else ((1 as bv8) << n) - 1;

      var allPressed := hist & mask == mask;
      var allReleased := hist & mask == 0;

      if !state && allPressed {
        state := true;
        pressed := true;
      } else if state && allReleased {
        state := false;
        released := true;
      }
    }

    /** For a button that pulls the pin low when pressed. */
    method UpdateActiveLow(pinLevelHigh: bool)
      modifies this
      ensures View() == Step(cfg, old(View()), !pinLevelHigh)
    {
      Update(!pinLevelHigh);
    }

    /** For a button that drives the pin high when pressed. */
    method UpdateActiveHigh(pinLevelHigh: bool)
      modifies this
      ensures View() == Step(cfg, old(View()), pinLevelHigh)
    {
      Update(pinLevelHigh);
    }

    /** The press event of the last update. */
    function Pressed(): (r: bool)
      reads this
      ensures r == View().out.pressed
    {
      pressed
    }

    /** The release event of the last update. */
    function Released(): (r: bool)
      reads this
      ensures r == View().out.released
    {
      released
    }

    /** The debounced level. */
    function Down(): (r: bool)
      reads this
      ensures r == View().out.down
    {
      state
    }

    /** The complement of the debounced level. */
    function Up(): (r: bool)
      reads this
      ensures r == !Down()
    {
      !state
    }

    /** The raw sample register. */
    function History(): (r: bv8)
      reads this
      ensures r == View().eng.hist
    {
      hist
    }
  }

  // ---------------------------------------------------------------------
  // Properties

  /**
   * The register holds the newest samples: bit `i` is the `i`-th newest
   * input, and where fewer than eight inputs were given, the bits of the
   * starting register moved up by their number.
   */
  lemma {:induction false} HistoryHoldsNewestSamples(cfg: Config, s: State, inputs: seq<bool>)
    ensures forall i :: 0 <= i < 8 ==>
      Bit(Run(cfg, s, inputs).eng.hist, i)
        == if i < |inputs| then inputs[|inputs| - 1 - i] else Bit(s.eng.hist, i - |inputs|)
    decreases |inputs|
  {
    if inputs != [] {
      var prefix := inputs[..|inputs| - 1];
      HistoryHoldsNewestSamples(cfg, s, prefix);
    }
  }

  /** The last `w` inputs all equal `v`. */
  predicate LastInputsAre(inputs: seq<bool>, w: nat, v: bool)
    requires w <= |inputs|
  {
    forall j :: |inputs| - w <= j < |inputs| ==> inputs[j] == v
  }

  /**
   * Once at least `Window(consecN)` samples were fed, a tick presses exactly
   * when the level was up and the newest `Window(consecN)` samples are all
   * down, and releases exactly when the level was down and they are all up.
   */
  lemma PressAndReleaseFollowNewestSamples(cfg: Config, s: State, inputs: seq<bool>)
    requires 1 <= |inputs| && Window(cfg.consecN) <= |inputs|
    ensures var before := Run(cfg, s, inputs[..|inputs| - 1]);
            var after := Run(cfg, s, inputs);
            && (after.out.pressed <==>
                  !before.out.down && LastInputsAre(inputs, Window(cfg.consecN), true))
            && (after.out.released <==>
                  before.out.down && LastInputsAre(inputs, Window(cfg.consecN), false))
  {
    HistoryHoldsNewestSamples(cfg, s, inputs);
    var h := Run(cfg, s, inputs).eng.hist;
    var w, last := Window(cfg.consecN), |inputs| - 1;
    forall v: bool ensures NewestAre(h, cfg.consecN, v) <==> LastInputsAre(inputs, w, v) {
      if NewestAre(h, cfg.consecN, v) {
        forall j | |inputs| - w <= j < |inputs| ensures inputs[j] == v {
          assert Bit(h, last - j) == inputs[j];
        }
      }
      if LastInputsAre(inputs, w, v) {
        forall i | 0 <= i < w ensures Bit(h, i) == v {
          assert inputs[last - i] == v;
        }
      }
    }
  }

  /**
   * Holding the button down from `reset(false)` with `consecN >= 1`: nothing
   * happens for `Window(consecN) - 1` ticks, and the press comes on tick
   * `Window(consecN)` itself, so never later than tick 8.
   */
  lemma {:induction false} HoldDownPressesOnTickN(cfg: Config, k: nat)
    requires 1 <= cfg.consecN && k <= Window(cfg.consecN)
    ensures var r := Run(cfg, ResetState(false), Repeat(true, k));
            && (forall i :: 0 <= i < 8 ==> Bit(r.eng.hist, i) == (i < k))
            && r.out.down == (k == Window(cfg.consecN))
            && r.out.pressed == (k == Window(cfg.consecN))
            && !r.out.released
  {
    if k > 0 {
      assert Repeat(true, k)[..k - 1] == Repeat(true, k - 1);
      HoldDownPressesOnTickN(cfg, k - 1);
      var r := Run(cfg, ResetState(false), Repeat(true, k));
      if k < Window(cfg.consecN) {
        assert !Bit(r.eng.hist, k);
      }
    }
  }

  /** With the default `consecN` of 3, three down samples from "up" press on the third. */
  lemma ThreeDownSamplesPressOnTheThird()
    ensures !Run(DefaultConfig, ResetState(false), [true]).out.pressed
    ensures !Run(DefaultConfig, ResetState(false), [true, true]).out.pressed
    ensures Run(DefaultConfig, ResetState(false), [true, true, true]).out.pressed
  {
    assert [true] == Repeat(true, 1);
    assert [true, true] == Repeat(true, 2);
    assert [true, true, true] == Repeat(true, 3);
    HoldDownPressesOnTickN(DefaultConfig, 1);
    HoldDownPressesOnTickN(DefaultConfig, 2);
    HoldDownPressesOnTickN(DefaultConfig, 3);
  }

  /** With `consecN >= 2`, a tick whose sample differs from the previous one changes nothing. */
  lemma ChangedSampleIsQuiet(cfg: Config, s: State, rawDown: bool)
    requires cfg.consecN >= 2 && Bit(s.eng.hist, 0) != rawDown
    ensures Step(cfg, s, rawDown).out == Quiet(s.out.down)
  {
    var r := Step(cfg, s, rawDown);
    assert Bit(r.eng.hist, 0) != Bit(r.eng.hist, 1);
  }

  /** From a register full of the current level, no sample can change the level. */
  lemma FullRegisterTickIsQuiet(cfg: Config, s: State, rawDown: bool)
    requires cfg.consecN >= 2 && s.eng.hist == Fill(s.out.down)
    ensures Step(cfg, s, rawDown).out == Quiet(s.out.down)
  {
    var r := Step(cfg, s, rawDown);
    assert Bit(r.eng.hist, 1) == s.out.down;
  }

  /**
   * With `consecN >= 2`, strictly alternating input after either reset never
   * produces an event and never changes the level; since every prefix of
   * an alternating input is one, this holds on every tick.
   */
  lemma {:induction false} AlternatingNeverFires(cfg: Config, down: bool, first: bool, k: nat)
    requires cfg.consecN >= 2
    ensures Run(cfg, ResetState(down), Alternating(first, k)).out == Quiet(down)
    ensures k > 0 ==> Bit(Run(cfg, ResetState(down), Alternating(first, k)).eng.hist, 0)
                        == (((k - 1) % 2 == 0) == first)
  {
    if k > 0 {
      var inputs := Alternating(first, k);
      assert inputs[..k - 1] == Alternating(first, k - 1);
      AlternatingNeverFires(cfg, down, first, k - 1);
      var before := Run(cfg, ResetState(down), Alternating(first, k - 1));
      if k == 1 {
        FullRegisterTickIsQuiet(cfg, before, inputs[0]);
      } else {
        ChangedSampleIsQuiet(cfg, before, inputs[k - 1]);
      }
    }
  }

  /** With `consecN >= 1`, `reset(true)` and then a down sample give no event and stay down. */
  lemma ResetDownThenDownIsQuiet(cfg: Config)
    requires cfg.consecN >= 1
    ensures Step(cfg, ResetState(true), true) == ResetState(true)
  {
    var r := Step(cfg, ResetState(true), true);
    assert !NewestAre(r.eng.hist, cfg.consecN, false) by {
      assert Bit(r.eng.hist, 0);
    }
    BitsDetermine(r.eng.hist, 0xFF);
  }

  /**
   * With `consecN == 0` the mask is empty, so both tests hold on every tick:
   * the level flips on every tick, with exactly one event each time.
   */
  lemma EmptyMaskTogglesEveryTick(cfg: Config, s: State, rawDown: bool)
    requires cfg.consecN == 0
    ensures var r := Step(cfg, s, rawDown);
            && r.out.down == !s.out.down
            && r.out.pressed == !s.out.down
            && r.out.released == s.out.down
  {
  }
}

/**
 * The Integrator engine: a saturating accumulator in `0 .. integMax` that
 * counts up on down samples and down on up samples, with a press threshold
 * `integOn` and a lower release threshold `integOff` (hysteresis).
 */
module Integrator {
  import opened Debounce

  datatype State = State(out: Outputs, eng: IntegratorState)

  /** The accumulator invariant: it never leaves `0 .. integMax`. */
  predicate InRange(cfg: Config, s: State) {
    s.eng.acc <= cfg.integMax
  }

  /** The configurations with a hysteresis band inside the accumulator's range. */
  predicate HasHysteresis(cfg: Config) {
    cfg.integOff < cfg.integOn <= cfg.integMax
  }

  /** The state `reset(down)` sets: the level, no event, the accumulator at the matching end. */
  function ResetState(cfg: Config, down: bool): (r: State)
    ensures r.out.down == down && NoEvent(r.out)
    ensures InRange(cfg, r)
    ensures r.eng.acc == if down then cfg.integMax else 0
  {
    State(Quiet(down), IntegratorState(if down then cfg.integMax else 0))
  }

  /**
   * The saturating count: one step toward the sample, except that it does not
   * rise above `integMax` and does not fall below 0.
   */
  function Integrate(cfg: Config, acc: uint8, rawDown: bool): (a: uint8)
    ensures acc <= cfg.integMax ==> a <= cfg.integMax
    ensures rawDown && acc < cfg.integMax ==> a == acc + 1
    ensures rawDown && acc >= cfg.integMax ==> a == acc
    ensures !rawDown && acc > 0 ==> a == acc - 1
    ensures !rawDown && acc == 0 ==> a == 0
  {
    if rawDown then
      if acc < cfg.integMax then acc + 1 else acc
    else
      if acc > 0 then acc - 1 else acc
  }

  /**
   * The hysteresis rule on the updated accumulator: from up, press at
   * `integOn` or above; from down, release at `integOff` or below.
   */
  function Threshold(cfg: Config, down: bool, acc: uint8): (o: Outputs)
    ensures EventsMatch(down, o)
    ensures !down ==> (o.down <==> acc >= cfg.integOn)
    ensures down ==> (!o.down <==> acc <= cfg.integOff)
  {
    if !down && acc >= cfg.integOn then Outputs(true, true, false)
    else if down && acc <= cfg.integOff then Outputs(false, false, true)
    else Quiet(down)
  }

  /** One tick with raw sample `rawDown`. */
  function Step(cfg: Config, s: State, rawDown: bool): (r: State)
    ensures InRange(cfg, s) ==> InRange(cfg, r)
    ensures r.eng.acc == Integrate(cfg, s.eng.acc, rawDown)
    ensures EventsMatch(s.out.down, r.out)
    ensures r.out.pressed ==> r.eng.acc >= cfg.integOn
    ensures r.out.released ==> r.eng.acc <= cfg.integOff
  {
    var acc := Integrate(cfg, s.eng.acc, rawDown);
    State(Threshold(cfg, s.out.down, acc), IntegratorState(acc))
  }

  /** The state after feeding `inputs`, oldest first, to a debouncer in state `s`. */
  function Run(cfg: Config, s: State, inputs: seq<bool>): State
    decreases |inputs|
  {
    if inputs == [] then s
    else Step(cfg, Run(cfg, s, inputs[..|inputs| - 1]), inputs[|inputs| - 1])
  }

  // ---------------------------------------------------------------------
  // The engine as an object

  class ButtonDebounce {
    const cfg: Config
    var state: bool
    var pressed: bool
    var released: bool
    var acc: uint8

    ghost function View(): State
      reads this
    {
      State(Outputs(state, pressed, released), IntegratorState(acc))
    }

    ghost predicate Valid()
      reads this
    {
      InRange(cfg, View())
    }

    /** Stores the configuration and resets to "up". */
    constructor (cfg: Config := DefaultConfig)
      ensures Valid()
      ensures this.cfg == cfg
      ensures View() == ResetState(cfg, false)
    {
      this.cfg := cfg;
      new;
      Reset(false);
    }

    /** Forces the level to `startDown` and reinitialises the accumulator to match. */
    method Reset(startDown: bool := false)
      modifies this
      ensures Valid()
      ensures View() == ResetState(cfg, startDown)
    {
      state := startDown;
      pressed := false;
      released := false;

      acc := if state then cfg.integMax else 0;
    }

    /** Consumes one raw sample. */
    method Update(rawDown: bool)
      modifies this
      ensures old(Valid()) ==> Valid()
      ensures View() == Step(cfg, old(View()), rawDown)
      ensures EventsMatch(old(state), View().out)
    {
      pressed := false;
      released := false;

      // Saturating integrator
      if rawDown {
        if acc < cfg.integMax { acc := acc + 1; }
      } else {
        if acc > 0 { acc := acc - 1; }
      }

      // Hysteresis thresholds
      if !state && acc >= cfg.integOn {
        state := true;
        pressed := true;
      } else if state && acc <= cfg.integOff {
        state := false;
        released := true;
      }
    }

    /** For a button that pulls the pin low when pressed. */
    method UpdateActiveLow(pinLevelHigh: bool)
      modifies this
      ensures old(Valid()) ==> Valid()
      ensures View() == Step(cfg, old(View()), !pinLevelHigh)
    {
      Update(!pinLevelHigh);
    }

    /** For a button that drives the pin high when pressed. */
    method UpdateActiveHigh(pinLevelHigh: bool)
      modifies this
      ensures old(Valid()) ==> Valid()
      ensures View() == Step(cfg, old(View()), pinLevelHigh)
    {
      Update(pinLevelHigh);
    }

    /** The press event of the last update. */
    function Pressed(): (r: bool)
      reads this
      ensures r == View().out.pressed
    {
      pressed
    }

    /** The release event of the last update. */
    function Released(): (r: bool)
      reads this
      ensures r == View().out.released
    {
      released
    }

    /** The debounced level. */
    function Down(): (r: bool)
      reads this
      ensures r == View().out.down
    {
      state
    }

    /** The complement of the debounced level. */
    function Up(): (r: bool)
      reads this
      ensures r == !Down()
    {
      !state
    }

    /** This engine keeps no sample history. */
    function History(): (r: bv8)
      ensures r == 0
    {
      0
    }
  }

  // ---------------------------------------------------------------------
  // Properties

  /** No input sequence moves the accumulator out of `0 .. integMax`. */
  lemma {:induction false} RunStaysInRange(cfg: Config, s: State, inputs: seq<bool>)
    requires InRange(cfg, s)
    ensures InRange(cfg, Run(cfg, s, inputs))
    decreases |inputs|
  {
    if inputs != [] {
      RunStaysInRange(cfg, s, inputs[..|inputs| - 1]);
    }
  }

  lemma {:induction false} RunAppend(cfg: Config, s: State, a: seq<bool>, b: seq<bool>)
    ensures Run(cfg, s, a + b) == Run(cfg, Run(cfg, s, a), b)
    decreases |b|
  {
    if b == [] {
      assert a + b == a;
    } else {
      assert (a + b)[..|a + b| - 1] == a + b[..|b| - 1];
      RunAppend(cfg, s, a, b[..|b| - 1]);
    }
  }

  /**
   * Holding the button down from an empty accumulator at level up: the
   * accumulator counts the ticks, the press comes exactly on tick `integOn`,
   * and nothing else happens up to tick `integMax`.
   */
  lemma {:induction false} HoldDownFromEmpty(cfg: Config, s: State, k: nat)
    requires HasHysteresis(cfg)
    requires !s.out.down && s.eng.acc == 0
    requires k <= cfg.integMax as nat
    ensures var r := Run(cfg, s, Repeat(true, k));
            && r.eng.acc as nat == k
            && (k > 0 ==> r.out.down == (k >= cfg.integOn as nat))
            && (k > 0 ==> r.out.pressed == (k == cfg.integOn as nat))
            && (k > 0 ==> !r.out.released)
  {
    if k > 0 {
      assert Repeat(true, k)[..k - 1] == Repeat(true, k - 1);
      HoldDownFromEmpty(cfg, s, k - 1);
    }
  }

  /**
   * Holding the button up from a full accumulator at level down: the
   * accumulator counts down, the release comes exactly on tick
   * `integMax - integOff`, and no press follows it up to tick `integMax`.
   */
  lemma {:induction false} HoldUpFromFull(cfg: Config, s: State, k: nat)
    requires HasHysteresis(cfg)
    requires s.out.down && s.eng.acc == cfg.integMax
    requires k <= cfg.integMax as nat
    ensures var r := Run(cfg, s, Repeat(false, k));
            && r.eng.acc as nat == cfg.integMax as nat - k
            && (k > 0 ==> r.out.down == (k < (cfg.integMax - cfg.integOff) as nat))
            && (k > 0 ==> r.out.released == (k == (cfg.integMax - cfg.integOff) as nat))
            && (k > 0 ==> !r.out.pressed)
  {
    if k > 0 {
      assert Repeat(false, k)[..k - 1] == Repeat(false, k - 1);
      HoldUpFromFull(cfg, s, k - 1);
    }
  }

  /**
   * Holding the button down from an empty accumulator at level up, with
   * `1 <= integOn <= integMax` and whatever `integOff`: up to tick `integOn`
   * the accumulator counts the ticks and the level stays up, so the release
   * branch cannot fire; the press comes exactly on tick `integOn`.
   */
  lemma {:induction false} HoldDownToFirstPress(cfg: Config, s: State, k: nat)
    requires 1 <= cfg.integOn <= cfg.integMax
    requires !s.out.down && s.eng.acc == 0
    requires k <= cfg.integOn as nat
    ensures var r := Run(cfg, s, Repeat(true, k));
            && r.eng.acc as nat == k
            && (k > 0 ==> r.out.down == (k == cfg.integOn as nat))
            && (k > 0 ==> r.out.pressed == (k == cfg.integOn as nat))
            && (k > 0 ==> !r.out.released)
  {
    if k > 0 {
      assert Repeat(true, k)[..k - 1] == Repeat(true, k - 1);
      HoldDownToFirstPress(cfg, s, k - 1);
    }
  }

  /**
   * From `reset(false)` with `1 <= integOn <= integMax`, holding the button
   * down gives the first press on exactly the `integOn`-th call, and no
   * event before it.
   */
  lemma FirstPressOnTickOn(cfg: Config, k: nat)
    requires 1 <= cfg.integOn <= cfg.integMax
    requires 1 <= k <= cfg.integOn as nat
    ensures var r := Run(cfg, ResetState(cfg, false), Repeat(true, k));
            && (r.out.pressed <==> k == cfg.integOn as nat)
            && !r.out.released
  {
    HoldDownToFirstPress(cfg, ResetState(cfg, false), k);
  }

  /**
   * With `integOff < integMax`, `reset(true)` followed by a down sample gives
   * no event and keeps the level down: the accumulator is already full.
   */
  lemma ResetDownThenDownIsQuiet(cfg: Config)
    requires cfg.integOff < cfg.integMax
    ensures Step(cfg, ResetState(cfg, true), true) == ResetState(cfg, true)
  {
  }

  /**
   * A press and release cycle: `integMax` down samples from `reset(false)`,
   * then `k` up samples. The down half presses once, on tick `integOn`
   * (`HoldDownFromEmpty`); the up half releases once, on its tick
   * `integMax - integOff`, and with `k == integMax` it ends at the level and
   * accumulator of `reset(false)`.
   */
  lemma PressReleaseCycle(cfg: Config, k: nat)
    requires HasHysteresis(cfg)
    requires k <= cfg.integMax as nat
    ensures var m := cfg.integMax as nat;
            var r := Run(cfg, ResetState(cfg, false), Repeat(true, m) + Repeat(false, k));
            && r.eng.acc as nat == m - k
            && (k > 0 ==> r.out.down == (k < m - cfg.integOff as nat))
            && (k > 0 ==> r.out.released == (k == m - cfg.integOff as nat))
            && (k > 0 ==> !r.out.pressed)
  {
    var m := cfg.integMax as nat;
    var s0 := ResetState(cfg, false);
    HoldDownFromEmpty(cfg, s0, m);
    var mid := Run(cfg, s0, Repeat(true, m));
    RunAppend(cfg, s0, Repeat(true, m), Repeat(false, k));
    HoldUpFromFull(cfg, mid, k);
  }

  /**
   * The hysteresis gap: once down with `acc` above `integOff`, the level
   * stays down for at least `acc - integOff - 1` further ticks, whatever
   * the samples; in particular, right after a press it holds for
   * `integOn - integOff - 1` ticks.
   */
  lemma {:induction false} DownHoldsThroughGap(cfg: Config, s: State, inputs: seq<bool>)
    requires s.out.down
    requires |inputs| < s.eng.acc as int - cfg.integOff as int
    ensures Run(cfg, s, inputs).out.down
    ensures Run(cfg, s, inputs).eng.acc as int >= s.eng.acc as int - |inputs|
    decreases |inputs|
  {
    if inputs != [] {
      DownHoldsThroughGap(cfg, s, inputs[..|inputs| - 1]);
    }
  }

  /**
   * The same gap on the way up: once up with `acc` below `integOn`, the level
   * stays up for at least `integOn - acc - 1` further ticks.
   */
  lemma {:induction false} UpHoldsThroughGap(cfg: Config, s: State, inputs: seq<bool>)
    requires !s.out.down
    requires |inputs| < cfg.integOn as int - s.eng.acc as int
    ensures !Run(cfg, s, inputs).out.down
    ensures Run(cfg, s, inputs).eng.acc as int <= s.eng.acc as int + |inputs|
    decreases |inputs|
  {
    if inputs != [] {
      UpHoldsThroughGap(cfg, s, inputs[..|inputs| - 1]);
    }
  }
}

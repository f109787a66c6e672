/**
 * The Edge-Gated engine: the Consecutive engine's register and acceptance
 * rule, plus chatter detection. A tick whose window holds at least
 * `edgeThreshold` edges is "bouncing now"; `bounceK` counts such ticks in a
 * row, and once it reaches `bounceConfirm` the engine is "bouncing" and
 * changes of level are suppressed (gated). `unstable` counts the bouncing
 * ticks in a row; when it reaches `unstableTimeout` the register is
 * recentred on the current level and both counters start again.
 *
 * The state, the reset state and the register helpers are the Consecutive
 * engine's.
 */
module EdgeGated {
  import opened Debounce
  import C = Consecutive

  /** The source's bouncing-now test: the edge count of the window after this tick's sample. */
  function BouncingNow(cfg: Config, s: C.State, rawDown: bool): (b: bool)
    ensures b <==> EdgesBelow(C.ShiftIn(s.eng.hist, rawDown), 8) >= cfg.edgeThreshold as int
  {
    EdgeCount8(C.ShiftIn(s.eng.hist, rawDown)) >= cfg.edgeThreshold
  }

  /** The bouncing streak after this tick: one more (stopping at 255) while bouncing now, else 0. */
  function BounceAfter(cfg: Config, s: C.State, rawDown: bool): (k: uint8)
    ensures BouncingNow(cfg, s, rawDown) && s.eng.bounceK < 255 ==> k == s.eng.bounceK + 1
    ensures BouncingNow(cfg, s, rawDown) && s.eng.bounceK == 255 ==> k == 255
    ensures !BouncingNow(cfg, s, rawDown) ==> k == 0
  {
    if BouncingNow(cfg, s, rawDown) then
      if s.eng.bounceK < 255 then s.eng.bounceK + 1 else s.eng.bounceK
    else
      0
  }

  /**
   * The source's bouncing test, on the updated streak: with a `bounceConfirm`
   * of 0 every tick is bouncing; otherwise a tick is bouncing exactly when it
   * is bouncing now and the streak, this tick included, reaches `bounceConfirm`.
   */
  function Bouncing(cfg: Config, s: C.State, rawDown: bool): (b: bool)
    ensures cfg.bounceConfirm == 0 ==> b
    ensures cfg.bounceConfirm > 0 ==>
      (b <==> BouncingNow(cfg, s, rawDown) && s.eng.bounceK as int + 1 >= cfg.bounceConfirm as int)
  {
    BounceAfter(cfg, s, rawDown) >= cfg.bounceConfirm
  }

  /** The unstable count after this tick: one more (stopping at 255) while bouncing, else 0. */
  function UnstableAfter(cfg: Config, s: C.State, rawDown: bool): (u: uint8)
    ensures Bouncing(cfg, s, rawDown) && s.eng.unstable < 255 ==> u == s.eng.unstable + 1
    ensures Bouncing(cfg, s, rawDown) && s.eng.unstable == 255 ==> u == 255
    ensures !Bouncing(cfg, s, rawDown) ==> u == 0
  {
    if Bouncing(cfg, s, rawDown) then
      if s.eng.unstable < 255 then s.eng.unstable + 1 else s.eng.unstable
    else
      0
  }

  /**
   * The source's timeout test, on the updated unstable count: with an
   * `unstableTimeout` of 0 every tick recentres; otherwise a tick recentres
   * exactly when it is bouncing and the bouncing ticks in a row, this one
   * included, reach `unstableTimeout`.
   */
  function TimedOut(cfg: Config, s: C.State, rawDown: bool): (b: bool)
    ensures cfg.unstableTimeout == 0 ==> b
    ensures cfg.unstableTimeout > 0 ==>
      (b <==> Bouncing(cfg, s, rawDown) && s.eng.unstable as int + 1 >= cfg.unstableTimeout as int)
  {
    UnstableAfter(cfg, s, rawDown) >= cfg.unstableTimeout
  }

  /** A tick on which a change of level would be suppressed. */
  predicate Gated(cfg: Config, s: C.State, rawDown: bool) {
    Bouncing(cfg, s, rawDown) && !TimedOut(cfg, s, rawDown)
  }

  /**
   * One tick with raw sample `rawDown`. A timeout recentres: the state is
   * exactly what `reset` to the current level gives. A gated tick only
   * advances the register and the counters. Any other tick is a tick of the
   * Consecutive engine, with the counters advanced.
   */
  function Step(cfg: Config, s: C.State, rawDown: bool): (r: C.State)
    ensures TimedOut(cfg, s, rawDown) ==> r == C.ResetState(s.out.down)
    ensures !TimedOut(cfg, s, rawDown) ==>
      r.eng == HistoryState(C.ShiftIn(s.eng.hist, rawDown),
                            UnstableAfter(cfg, s, rawDown), BounceAfter(cfg, s, rawDown))
    ensures Gated(cfg, s, rawDown) ==> r.out == Quiet(s.out.down)
    ensures !Bouncing(cfg, s, rawDown) && !TimedOut(cfg, s, rawDown) ==>
      r.out == C.Step(cfg, s, rawDown).out && r.eng.hist == C.Step(cfg, s, rawDown).eng.hist
    ensures EventsMatch(s.out.down, r.out)
    ensures r.eng.unstable < cfg.unstableTimeout || r.eng.unstable == 0
  {
    var h := C.ShiftIn(s.eng.hist, rawDown);
    var bounceK := BounceAfter(cfg, s, rawDown);
    var unstable := UnstableAfter(cfg, s, rawDown);
    if unstable >= cfg.unstableTimeout then
      C.State(Quiet(s.out.down), HistoryState(C.Fill(s.out.down), 0, 0))
    else if bounceK < cfg.bounceConfirm then
      C.State(C.Accept(cfg.consecN, s.out.down, h), HistoryState(h, unstable, bounceK))
    else
      C.State(Quiet(s.out.down), HistoryState(h, unstable, bounceK))
  }

  /** The state after feeding `inputs`, oldest first, to a debouncer in state `s`. */
  function Run(cfg: Config, s: C.State, inputs: seq<bool>): C.State
    decreases |inputs|
  {
    if inputs == [] then s
    else Step(cfg, Run(cfg, s, inputs[..|inputs| - 1]), inputs[|inputs| - 1])
  }

  /** Every tick of feeding `inputs` to a debouncer in state `s` was gated. */
  predicate AllGated(cfg: Config, s: C.State, inputs: seq<bool>)
    decreases |inputs|
  {
    || inputs == []
    || (var prefix := inputs[..|inputs| - 1];
        AllGated(cfg, s, prefix) && Gated(cfg, Run(cfg, s, prefix), inputs[|inputs| - 1]))
  }

  // ---------------------------------------------------------------------
  // The engine as an object

  class ButtonDebounce {
    const cfg: Config
    var state: bool
    var pressed: bool
    var released: bool
    var hist: bv8
    var unstable: uint8
    var bounceK: uint8

    ghost function View(): C.State
      reads this
    {
      C.State(Outputs(state, pressed, released), HistoryState(hist, unstable, bounceK))
    }

    /** Stores the configuration and resets to "up". */
    constructor (cfg: Config := DefaultConfig)
      ensures this.cfg == cfg
      ensures View() == C.ResetState(false)
    {
      this.cfg := cfg;
      new;
      Reset(false);
    }

    /** Forces the level to `startDown` and reinitialises the whole engine state. */
    method Reset(startDown: bool := false)
      modifies this
      ensures View() == C.ResetState(startDown)
    {
      state := startDown;
      pressed := false;
      released := false;

      hist := if state then 0xFF else 0x00;
      unstable := 0;
      bounceK := 0;
    }

    /** Consumes one raw sample. */
    method Update(rawDown: bool)
      modifies this
      ensures View() == Step(cfg, old(View()), rawDown)
      ensures EventsMatch(old(state), View().out)
    {
      ghost var s := View();
      pressed := false;
      released := false;

      hist := C.ShiftIn(hist, rawDown);

      // Chatter: the number of edges across the 8-sample window
      var edges := EdgeCount8(hist);
      var bouncingNow := edges >= cfg.edgeThreshold;
      assert bouncingNow == BouncingNow(cfg, s, rawDown);

      if bouncingNow {
        if bounceK < 255 { bounceK := bounceK + 1; }
      } else {
        bounceK := 0;
      }
      assert bounceK == BounceAfter(cfg, s, rawDown);

      var bouncing := bounceK >= cfg.bounceConfirm;

      if bouncing {
        if unstable < 255 { unstable := unstable + 1; }
      } else {
        unstable := 0;
      }
      assert unstable == UnstableAfter(cfg, s, rawDown);

      // Timeout: recentre on the current level
      if unstable >= cfg.unstableTimeout {
        hist := if state then 0xFF else 0x00;
        unstable := 0;
        bounceK := 0;
        return;
      }

      // The Consecutive acceptance rule, only while not bouncing
      if !bouncing {
        AcceptChange();
      }
    }

    /**
     * The Consecutive engine's acceptance rule on the current register, for
     * a tick that has cleared both events.
     */
    method AcceptChange()
      requires !pressed && !released
      modifies this`state, this`pressed, this`released
      ensures Outputs(state, pressed, released) == C.Accept(cfg.consecN, old(state), hist)
    {
      var n := cfg.consecN;
      var mask := if n >= 8 then 0xFF else ((1 as bv8) << n) - 1;

      var allPressed := hist & mask == mask;
      var allReleased := hist & mask == 0;

      if !state && allPressed {
        state := true;
        pressed := true;
      } else if state && allReleased {
        state := false;
        released := true;
      }
    }

    /** For a button that pulls the pin low when pressed. */
    method UpdateActiveLow(pinLevelHigh: bool)
      modifies this
      ensures View() == Step(cfg, old(View()), !pinLevelHigh)
    {
      Update(!pinLevelHigh);
    }

    /** For a button that drives the pin high when pressed. */
    method UpdateActiveHigh(pinLevelHigh: bool)
      modifies this
      ensures View() == Step(cfg, old(View()), pinLevelHigh)
    {
      Update(pinLevelHigh);
    }

    /** The press event of the last update. */
    function Pressed(): (r: bool)
      reads this
      ensures r == View().out.pressed
    {
      pressed
    }

    /** The release event of the last update. */
    function Released(): (r: bool)
      reads this
      ensures r == View().out.released
    {
      released
    }

    /** The debounced level. */
    function Down(): (r: bool)
      reads this
      ensures r == View().out.down
    {
      state
    }

    /** The complement of the debounced level. */
    function Up(): (r: bool)
      reads this
      ensures r == !Down()
    {
      !state
    }

    /** The raw sample register. */
    function History(): (r: bv8)
      reads this
      ensures r == View().eng.hist
    {
      hist
    }
  }

  // ---------------------------------------------------------------------
  // Properties

  /**
   * Gating cannot last: over a run of gated ticks the unstable count goes up
   * by one per tick and stays below `unstableTimeout`, so at most
   * `unstableTimeout - 1` ticks in a row are gated before a tick either
   * applies the acceptance rule or recentres.
   */
  lemma {:induction false} GatedRunIsShort(cfg: Config, s: C.State, inputs: seq<bool>)
    requires AllGated(cfg, s, inputs)
    ensures Run(cfg, s, inputs).eng.unstable as int == s.eng.unstable as int + |inputs|
    ensures s.eng.unstable as int + |inputs| < cfg.unstableTimeout as int || inputs == []
    ensures Run(cfg, s, inputs).out.down == s.out.down
    decreases |inputs|
  {
    if inputs != [] {
      GatedRunIsShort(cfg, s, inputs[..|inputs| - 1]);
    }
  }

  /** With `consecN >= 1`, `reset(true)` and then a down sample give no event and keep the register full. */
  lemma ResetDownThenDownIsQuiet(cfg: Config)
    requires cfg.consecN >= 1
    ensures Step(cfg, C.ResetState(true), true).out == Quiet(true)
    ensures Step(cfg, C.ResetState(true), true).eng.hist == 0xFF
  {
    C.ResetDownThenDownIsQuiet(cfg);
  }

  /**
   * A tick on which the Consecutive rule would keep the level keeps it here
   * too, whether it is gated, recentres or applies that rule; the register
   * is then either recentred or the one the sample was shifted into.
   */
  lemma QuietAsConsecutive(cfg: Config, s: C.State, rawDown: bool)
    requires C.Step(cfg, s, rawDown).out == Quiet(s.out.down)
    ensures Step(cfg, s, rawDown).out == Quiet(s.out.down)
    ensures var h := Step(cfg, s, rawDown).eng.hist;
            h == C.Fill(s.out.down) || h == C.ShiftIn(s.eng.hist, rawDown)
  {
  }

  /**
   * With `consecN >= 2`, strictly alternating input after either reset never
   * produces an event and never changes the level, whether the engine is
   * bouncing, recentring or applying the acceptance rule; since every prefix
   * of an alternating input is one, this holds on every tick.
   */
  lemma {:induction false} AlternatingNeverFires(cfg: Config, down: bool, first: bool, k: nat)
    requires cfg.consecN >= 2
    ensures Run(cfg, C.ResetState(down), Alternating(first, k)).out == Quiet(down)
    ensures var h := Run(cfg, C.ResetState(down), Alternating(first, k)).eng.hist;
            h == C.Fill(down) || (k > 0 && Bit(h, 0) == (((k - 1) % 2 == 0) == first))
  {
    if k > 0 {
      var inputs := Alternating(first, k);
      assert inputs[..k - 1] == Alternating(first, k - 1);
      AlternatingNeverFires(cfg, down, first, k - 1);
      var before := Run(cfg, C.ResetState(down), Alternating(first, k - 1));
      if before.eng.hist == C.Fill(down) {
        C.FullRegisterTickIsQuiet(cfg, before, inputs[k - 1]);
      } else {
        C.ChangedSampleIsQuiet(cfg, before, inputs[k - 1]);
      }
      QuietAsConsecutive(cfg, before, inputs[k - 1]);
    }
  }

  /** Feeding one more alternating sample is one more tick. */
  lemma AlternatingTick(cfg: Config, s: C.State, first: bool, k: nat)
    ensures Run(cfg, s, Alternating(first, k + 1))
              == Step(cfg, Run(cfg, s, Alternating(first, k)), (k % 2 == 0) == first)
  {
    var inputs := Alternating(first, k + 1);
    assert inputs[..k] == Alternating(first, k);
    assert inputs[k] == ((k % 2 == 0) == first);
  }

  /**
   * The first three ticks of a contact chattering on every tick after
   * `reset(false)`, with the defaults: too few edges yet to count as bouncing.
   */
  lemma DefaultChatterFirstTicks()
    ensures Run(DefaultConfig, C.ResetState(false), Alternating(true, 3)).eng
              == HistoryState(0x05, 0, 0)
  {
    var cfg, s0 := DefaultConfig, C.ResetState(false);
    assert Run(cfg, s0, Alternating(true, 1)).eng == HistoryState(0x01, 0, 0) by {
      AlternatingTick(cfg, s0, true, 0);
    }
    assert Run(cfg, s0, Alternating(true, 2)).eng == HistoryState(0x02, 0, 0) by {
      AlternatingTick(cfg, s0, true, 1);
    }
    assert Run(cfg, s0, Alternating(true, 3)).eng == HistoryState(0x05, 0, 0) by {
      AlternatingTick(cfg, s0, true, 2);
    }
  }

  /** Ticks 4 to 7 of the same input: four edges and more, so both counters run. */
  lemma DefaultChatterWarmUp()
    ensures Run(DefaultConfig, C.ResetState(false), Alternating(true, 7))
              == C.State(Quiet(false), HistoryState(0x55, 4, 4))
  {
    var cfg, s0 := DefaultConfig, C.ResetState(false);
    DefaultChatterFirstTicks();
    AlternatingNeverFires(cfg, false, true, 7);
    assert Run(cfg, s0, Alternating(true, 4)).eng == HistoryState(0x0A, 1, 1) by {
      AlternatingTick(cfg, s0, true, 3);
    }
    assert Run(cfg, s0, Alternating(true, 5)).eng == HistoryState(0x15, 2, 2) by {
      AlternatingTick(cfg, s0, true, 4);
    }
    assert Run(cfg, s0, Alternating(true, 6)).eng == HistoryState(0x2A, 3, 3) by {
      AlternatingTick(cfg, s0, true, 5);
    }
    assert Run(cfg, s0, Alternating(true, 7)).eng == HistoryState(0x55, 4, 4) by {
      AlternatingTick(cfg, s0, true, 6);
    }
  }

  /**
   * Once the window holds the alternating pattern, every further chattering
   * tick is a bouncing tick: the register alternates between 0x55 and 0xAA
   * and both counters count the ticks.
   */
  lemma {:induction false} DefaultChatterCounts(k: nat)
    requires 7 <= k <= 18
    ensures Run(DefaultConfig, C.ResetState(false), Alternating(true, k))
              == C.State(Quiet(false), HistoryState(if k % 2 == 1 then 0x55 else 0xAA,
                                                   (k - 3) as uint8, (k - 3) as uint8))
  {
    if k == 7 {
      DefaultChatterWarmUp();
    } else {
      DefaultChatterCounts(k - 1);
      AlternatingTick(DefaultConfig, C.ResetState(false), true, k - 1);
      EdgeCount8Extremes();
      AlternatingNeverFires(DefaultConfig, false, true, k);
    }
  }

  /**
   * With the default configuration, a contact that chatters on every tick
   * after `reset(false)` is seen as bouncing from tick 4 on, with no event on
   * any tick; the unstable count reaches 15 on tick 18, and tick 19 recentres:
   * the engine is then exactly as `reset(false)` left it.
   */
  lemma DefaultChatterRecentresOnTick19()
    ensures Run(DefaultConfig, C.ResetState(false), Alternating(true, 18)).eng
              == HistoryState(0xAA, 15, 15)
    ensures Run(DefaultConfig, C.ResetState(false), Alternating(true, 19)) == C.ResetState(false)
  {
    DefaultChatterCounts(18);
    AlternatingTick(DefaultConfig, C.ResetState(false), true, 18);
    EdgeCount8Extremes();
  }
}

/**
 * The polling states of the battle partner controller that count or step
 * through phases: the move animation, the switch-out animation, the blink
 * of a hit Pokémon, the party-summary countdown and the health-box
 * countdown. Each tick's change is a function here, with what it promises
 * over a whole run; the controller applies one step per tick.
 */
module PartnerAnim {
  import opened Common

  // ---------------------------------------------------------------------
  // PlayerPartnerDoMoveAnimation: animation states 0 to 3.
  // ---------------------------------------------------------------------

  /** The battler's move-animation fields after one tick, and whether the command completed. */
  datatype MoveAnim = MoveAnim(state: int, flagX8: bool, completes: bool)

  /**
   * One tick of the move animation. State 0 hides a substitute (setting
   * `flag_x8`) and moves on; state 1 starts the move once no special
   * animation runs; state 2 waits for the animation script, then brings the
   * substitute back unless more hits follow; state 3 completes once no
   * special animation runs. Any other state does nothing.
   */
  function MoveAnimStep(state: int, behindSubstitute: bool, flagX8: bool, multihit: int,
                        specialAnimActive: bool, animScriptActive: bool): (r: MoveAnim)
    ensures r.state == state || 0 <= r.state <= 3
  {
    if state == 0 then
      MoveAnim(1, if behindSubstitute && !flagX8 then true else flagX8, false)
    else if state == 1 then
      MoveAnim(if !specialAnimActive then 2 else 1, flagX8, false)
    else if state == 2 then
      if !animScriptActive then MoveAnim(3, if behindSubstitute && multihit < 2 then false else flagX8, false)
      else MoveAnim(2, flagX8, false)
    else if state == 3 then
      if !specialAnimActive then MoveAnim(0, flagX8, true) else MoveAnim(3, flagX8, false)
    else MoveAnim(state, flagX8, false)
  }

  /**
   * The move animation only ever stays put or advances 0 to 1 to 2 to 3 to 0;
   * it completes exactly on the step from 3 back to 0; `flag_x8` is raised
   * only in state 0, and there exactly when the battler is behind a
   * substitute; it is lowered only in state 2. State 1 moves on exactly
   * when no special animation runs, state 2 exactly when no animation script
   * runs, and state 3 completes exactly when no special animation runs.
   */
  lemma MoveAnimOrder(state: int, behindSubstitute: bool, flagX8: bool, multihit: int,
                      specialAnimActive: bool, animScriptActive: bool)
    requires 0 <= state <= 3
    ensures var r := MoveAnimStep(state, behindSubstitute, flagX8, multihit, specialAnimActive, animScriptActive);
            && (r.state == state || r.state == (state + 1) % 4)
            && (r.completes <==> state == 3 && r.state == 0)
            && (r.flagX8 && !flagX8 ==> state == 0 && behindSubstitute)
            && (state == 0 ==> r.flagX8 == (flagX8 || behindSubstitute))
            && (!r.flagX8 && flagX8 ==> state == 2)
            && (state == 1 ==> (r.state == 2 <==> !specialAnimActive))
            && (state == 2 ==> (r.state == 3 <==> !animScriptActive))
            && (state == 3 ==> (r.completes <==> !specialAnimActive))
  {
  }

  /** The move-animation fields after `k` ticks with the same collaborator answers. */
  function MoveAnimAfter(state: int, behindSubstitute: bool, flagX8: bool, multihit: int,
                         specialAnimActive: bool, animScriptActive: bool, k: nat): MoveAnim
  {
    if k == 0 then MoveAnim(state, flagX8, false)
    else
      var prev := MoveAnimAfter(state, behindSubstitute, flagX8, multihit, specialAnimActive, animScriptActive, k - 1);
      MoveAnimStep(prev.state, behindSubstitute, prev.flagX8, multihit, specialAnimActive, animScriptActive)
  }

  /**
   * With no special animation and no animation script running, a move
   * animation started in state 0 completes on its fourth tick and not
   * before, back in state 0.
   */
  lemma MoveAnimRunsFourTicks(behindSubstitute: bool, flagX8: bool, multihit: int)
    ensures forall k | 1 <= k < 4 :: !MoveAnimAfter(0, behindSubstitute, flagX8, multihit, false, false, k).completes
    ensures MoveAnimAfter(0, behindSubstitute, flagX8, multihit, false, false, 4).completes
    ensures MoveAnimAfter(0, behindSubstitute, flagX8, multihit, false, false, 4).state == 0
  {
    var a1 := MoveAnimAfter(0, behindSubstitute, flagX8, multihit, false, false, 1);
    var a2 := MoveAnimAfter(0, behindSubstitute, flagX8, multihit, false, false, 2);
    var a3 := MoveAnimAfter(0, behindSubstitute, flagX8, multihit, false, false, 3);
    assert MoveAnimAfter(0, behindSubstitute, flagX8, multihit, false, false, 0) == MoveAnim(0, flagX8, false);
    assert a1 == MoveAnimStep(0, behindSubstitute, flagX8, multihit, false, false);
    assert a2 == MoveAnimStep(a1.state, behindSubstitute, a1.flagX8, multihit, false, false);
    assert a2.state == 2;
    assert a3 == MoveAnimStep(a2.state, behindSubstitute, a2.flagX8, multihit, false, false);
    assert a3.state == 3;
  }

  // ---------------------------------------------------------------------
  // DoSwitchOutAnimation.
  // ---------------------------------------------------------------------

  /** The switch-out fields after one tick: the animation state and whether it hands over to the wait for the switch-out animation. */
  datatype SwitchOut = SwitchOut(state: int, handsOver: bool)

  /** One tick of the switch-out: state 0 moves to 1; state 1 resets to 0 and hands over once no special animation runs. */
  function SwitchOutStep(state: int, specialAnimActive: bool): SwitchOut
  {
    if state == 0 then SwitchOut(1, false)
    else if state == 1 && !specialAnimActive then SwitchOut(0, true)
    else SwitchOut(state, false)
  }

  /** The switch-out hands over only from state 1, and always leaves its state at 0 when it does. */
  lemma SwitchOutOrder(state: int, specialAnimActive: bool)
    ensures var r := SwitchOutStep(state, specialAnimActive);
            && (r.handsOver <==> state == 1 && !specialAnimActive)
            && (r.handsOver ==> r.state == 0)
            && (0 <= state <= 1 ==> 0 <= r.state <= 1)
  {
  }

  // ---------------------------------------------------------------------
  // DoHitAnimBlinkSpriteEffect.
  // ---------------------------------------------------------------------

  /** The battler sprite's blink fields: `data[1]` as a counter and the `invisible` bit. */
  datatype Blink = Blink(counter: int, invisible: bool, completes: bool)

  /**
   * One tick of the blink: at 32 the counter resets, the sprite shows and the
   * command completes; otherwise visibility flips on every fourth tick and
   * the `s16` counter goes up.
   */
  function BlinkStep(counter: int, invisible: bool): Blink
  {
    if counter == 32 then Blink(0, false, true)
    else Blink(S16(counter + 1), if counter % 4 == 0 then !invisible else invisible, false)
  }

  /** The blink fields after `k` ticks. */
  function BlinkAfter(counter: int, invisible: bool, k: nat): Blink
  {
    if k == 0 then Blink(counter, invisible, false)
    else
      var prev := BlinkAfter(counter, invisible, k - 1);
      BlinkStep(prev.counter, prev.invisible)
  }

  /**
   * A blink started by the hit animation (counter 0, sprite showing) runs 32
   * ticks without completing, hiding the sprite on ticks 1 to 4, 9 to 12 and
   * so on, and completes on tick 33 with the sprite showing and the counter
   * back at 0.
   */
  lemma {:induction false} BlinkRun(k: nat)
    requires k <= 32
    ensures BlinkAfter(0, false, k) == Blink(k, 1 <= k % 8 <= 4, false)
  {
    if k > 0 {
      BlinkRun(k - 1);
      BlinkStepBelow32(k - 1);
    }
  }

  /** One tick of the blink below 32 moves the counter up by one and keeps the hiding pattern. */
  lemma BlinkStepBelow32(j: int)
    requires 0 <= j < 32
    ensures BlinkStep(j, 1 <= j % 8 <= 4) == Blink(j + 1, 1 <= (j + 1) % 8 <= 4, false)
  {
    var r := j % 8;
    assert j == j / 8 * 8 + r;
    assert (j + 1) % 8 == if r == 7 then 0 else r + 1;
    assert j % 4 == r % 4;
  }

  /** The whole blink: no completion within its first 32 ticks, and completion on tick 33. */
  lemma BlinkEnds()
    ensures BlinkAfter(0, false, 33) == Blink(0, false, true)
    ensures forall k | 1 <= k <= 32 :: !BlinkAfter(0, false, k).completes
  {
    BlinkRun(32);
    forall k | 1 <= k <= 32
      ensures !BlinkAfter(0, false, k).completes
    {
      BlinkRun(k);
    }
  }

  // ---------------------------------------------------------------------
  // sub_81BE498: the party-summary countdown on healthBoxesData.field_5.
  // ---------------------------------------------------------------------

  /** The `u8` counter after one tick and whether the command completed: the test reads the value before the increment. */
  datatype Countdown = Countdown(counter: int, completes: bool)

  function SummaryStep(field5: int): (r: Countdown)
    requires 0 <= field5 < 0x100
    ensures !r.completes ==> r.counter == field5 + 1
  {
    if field5 > 0x5C then Countdown(0, true) else Countdown(U8(field5 + 1), false)
  }

  /** How many ticks the summary countdown runs from `field5` until it completes. */
  function SummaryTicks(field5: int): nat
    requires 0 <= field5 < 0x100
    decreases 0x5D - field5
  {
    var r := SummaryStep(field5);
    if r.completes then 1 else 1 + SummaryTicks(r.counter)
  }

  /**
   * The summary stays up for 0x5E - `field5` ticks from a counter up to
   * 0x5D (94 ticks from the 0 the handler starts it at), and completes at
   * once from the 0x5D it starts at when the summary is skipped.
   */
  lemma {:induction false} SummaryTicksSpec(field5: int)
    requires 0 <= field5 <= 0x5D
    ensures SummaryTicks(field5) == 0x5E - field5
    decreases 0x5D - field5
  {
    if field5 <= 0x5C {
      SummaryTicksSpec(field5 + 1);
    }
  }

  // ---------------------------------------------------------------------
  // sub_81BAF00: the health-box countdown on healthBoxesData.field_9.
  // ---------------------------------------------------------------------

  /** One tick: the `u8` counter is decremented first; wrapping to 0xFF completes and resets it. */
  function HealthboxStep(field9: int): (r: Countdown)
  {
    var n := U8(field9 - 1);
    if n == 0xFF then Countdown(0, true) else Countdown(n, false)
  }

  /** How many ticks the health-box countdown runs from `field9` until it completes. */
  function HealthboxTicks(field9: int): nat
    requires 0 <= field9 < 0x100
    decreases field9
  {
    var r := HealthboxStep(field9);
    if r.completes then 1 else 1 + HealthboxTicks(r.counter)
  }

  /** From a `u8` counter `n` the countdown completes on tick n + 1 (4 ticks from the 3 it is started at). */
  lemma {:induction false} HealthboxTicksSpec(field9: int)
    requires 0 <= field9 < 0x100
    ensures HealthboxTicks(field9) == field9 + 1
    decreases field9
  {
    if field9 > 0 {
      assert HealthboxStep(field9) == Countdown(field9 - 1, false);
      HealthboxTicksSpec(field9 - 1);
    } else {
      assert HealthboxStep(0) == Countdown(0, true);
    }
  }
}

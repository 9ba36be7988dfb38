/**
 * The experience task of the battle partner controller: how the experience a
 * Pokémon gains travels through two 16-bit task data slots, and the rule that
 * adds it to the Pokémon's experience, levelling it up when it reaches the
 * next level's threshold.
 */
module PartnerExp {
  import opened Common

  /** A value of C's `u32` type. */
  predicate IsU32(x: int)
  {
    0 <= x < 0x1_0000_0000
  }

  /**
   * The two task data slots holding the gained experience. Task data is an
   * array of `s16`, so each slot holds a signed 16-bit value.
   */
  datatype ExpSlots = ExpSlots(lower: int, upper: int)

  /**
   * PlayerPartnerHandleExpUpdate's store: the low and the high half of the
   * amount, each narrowed to `u16` and then kept in an `s16` slot.
   */
  function SplitExp(exp: int): (r: ExpSlots)
    requires IsU32(exp)
    ensures -0x8000 <= r.lower < 0x8000 && -0x8000 <= r.upper < 0x8000
    ensures r.lower % 0x1_0000 == exp % 0x1_0000 && r.upper % 0x1_0000 == exp / 0x1_0000
  {
    ExpSlots(S16(U16(exp % 0x1_0000)), S16(U16(exp / 0x1_0000)))
  }

  /**
   * Task_GetExpFromTask as written: each `s16` slot is widened to `u32`, which
   * sign-extends it, and the upper one is shifted into the high half.
   */
  function ExpFromTaskAsWritten(s: ExpSlots): (r: nat)
    ensures IsU32(r)
  {
    U32(U32(s.lower) + U32(U32(s.upper) * 0x1_0000))
  }

  /**
   * Task_GetExpFromTask as intended: each slot is read back as the `u16` that
   * was stored in it, so no sign bit spreads into the high half.
   */
  function ExpFromTask(s: ExpSlots): (r: nat)
    ensures IsU32(r)
  {
    U16(s.lower) + U16(s.upper) * 0x1_0000
  }

  /** Reading the slots back as `u16` returns every `u32` amount stored in them. */
  lemma ExpSlotsRoundTrip(exp: int)
    requires IsU32(exp)
    ensures ExpFromTask(SplitExp(exp)) == exp
  {
    var s := SplitExp(exp);
    assert U16(s.lower) == exp % 0x1_0000;
    assert U16(s.upper) == exp / 0x1_0000;
  }

  /**
   * As written, the amount survives the slots exactly when bit 15 of it is
   * clear; otherwise the sign extension of the lower slot adds 0xFFFF0000.
   */
  lemma ExpSlotsAsWritten(exp: int)
    requires IsU32(exp)
    ensures ExpFromTaskAsWritten(SplitExp(exp)) == exp <==> exp % 0x1_0000 < 0x8000
    ensures exp % 0x1_0000 >= 0x8000 ==> ExpFromTaskAsWritten(SplitExp(exp)) == U32(exp + 0xFFFF_0000)
  {
    var s := SplitExp(exp);
    var lo, hi := exp % 0x1_0000, exp / 0x1_0000;
    assert exp == lo + hi * 0x1_0000;
    assert U16(s.upper) == hi;
    UpperSlotWidened(s.upper, hi);
    if lo < 0x8000 {
      assert s.lower == lo;
    } else {
      assert s.lower == lo - 0x1_0000;
      assert U32(s.lower) == lo - 0x1_0000 + 0x1_0000_0000;
      assert U32(lo - 0x1_0000 + 0x1_0000_0000 + hi * 0x1_0000) == U32(exp + 0xFFFF_0000);
      assert U32(exp + 0xFFFF_0000) != exp;
    }
  }

  /** The high slot shifted into the upper half loses its sign extension. */
  lemma UpperSlotWidened(upper: int, hi: nat)
    requires -0x8000 <= upper < 0x8000 && hi < 0x1_0000 && upper % 0x1_0000 == hi
    ensures U32(U32(upper) * 0x1_0000) == hi * 0x1_0000
  {
    if upper < 0 {
      assert upper == hi - 0x1_0000;
      assert U32(upper) == hi - 0x1_0000 + 0x1_0000_0000;
      assert U32(upper) * 0x1_0000 == hi * 0x1_0000 + (0x1_0000 - 1) * 0x1_0000_0000;
    }
  }

  /** What giving experience to a Pokémon results in. */
  datatype ExpOutcome =
    | LeveledUp(exp: nat, carried: nat)   // experience set to the threshold; `carried` is left to give
    | Gained(exp: nat)                    // all of it added; no level reached

  /**
   * Task_GiveExpToMon's rule, in `u32` arithmetic: when the current
   * experience plus the gain reaches the next level's threshold, the
   * experience becomes the threshold and what is left of the gain is carried
   * over; otherwise the gain is added.
   */
  function GiveExp(curr: int, gained: int, next: int): ExpOutcome
    requires IsU32(curr) && IsU32(gained) && IsU32(next)
  {
    if U32(curr + gained) >= next then LeveledUp(next, U32(gained - U32(next - curr)))
    else Gained(U32(curr + gained))
  }

  /**
   * Without wrap-around, a Pokémon levels up exactly when its experience plus
   * the gain reaches the threshold; no experience is lost or created, and the
   * experience never passes the threshold.
   */
  lemma GiveExpRule(curr: int, gained: int, next: int)
    requires IsU32(curr) && IsU32(gained) && IsU32(next)
    requires curr <= next && curr + gained < 0x1_0000_0000
    ensures GiveExp(curr, gained, next).LeveledUp? <==> curr + gained >= next
    ensures GiveExp(curr, gained, next).exp <= next
    ensures match GiveExp(curr, gained, next)
            case LeveledUp(exp, carried) => exp == next && exp + carried == curr + gained
            case Gained(exp) => exp == curr + gained
  {
  }

  /**
   * The sign extension as written: a gain from 0x8000 to 0xFFFF, given to a
   * Pokémon that stays below its threshold, lowers its experience by
   * 0x10000 minus the gain instead of raising it by the gain.
   */
  lemma AsWrittenGainLowersExp(curr: int, gain: int, next: int)
    requires 0x8000 <= gain < 0x1_0000 && 0x1_0000 <= curr && IsU32(next) && curr + gain < next
    ensures GiveExp(curr, ExpFromTaskAsWritten(SplitExp(gain)), next) == Gained(curr + gain - 0x1_0000)
    ensures GiveExp(curr, ExpFromTask(SplitExp(gain)), next) == Gained(curr + gain)
    ensures curr + gain - 0x1_0000 < curr
  {
    GiveExpSignExtended(curr, gain, next);
    ExpSlotsRoundTrip(gain);
    GiveExpRule(curr, gain, next);
  }

  /**
   * The whole outcome, as written, of a 16-bit gain with bit 15 set (what
   * PlayerPartnerHandleExpUpdate may store): the Pokémon is given the gain
   * minus 0x10000, modulo 2^32. When experience plus gain is at least
   * 0x10000, that lowers its experience and never reaches a level; below
   * 0x10000 the sum is close to 2^32, which reaches any threshold up to it,
   * and the level-up carries nearly 2^32 over.
   */
  lemma GiveExpSignExtended(curr: int, gain: int, next: int)
    requires 0x8000 <= gain < 0x1_0000 && IsU32(curr) && IsU32(next) && curr <= next
    ensures var r := GiveExp(curr, ExpFromTaskAsWritten(SplitExp(gain)), next);
            && (0x1_0000 <= curr + gain ==> r == Gained(curr + gain - 0x1_0000))
            && (curr + gain < 0x1_0000 && next <= curr + gain + 0xFFFF_0000
                ==> r == LeveledUp(next, curr + gain + 0xFFFF_0000 - next))
            && (curr + gain < 0x1_0000 && curr + gain + 0xFFFF_0000 < next
                ==> r == Gained(curr + gain + 0xFFFF_0000))
  {
    ExpSlotsAsWritten(gain);
    var g := ExpFromTaskAsWritten(SplitExp(gain));
    assert g == gain + 0xFFFF_0000;
    if 0x1_0000 <= curr + gain {
      U32WrapsOnce(curr + g);
      assert U32(curr + g) == curr + gain - 0x1_0000;
    }
  }

  /** A `u32` sum that overflows once drops 2^32. */
  lemma U32WrapsOnce(x: int)
    requires 0x1_0000_0000 <= x < 2 * 0x1_0000_0000
    ensures U32(x) == x - 0x1_0000_0000
  {
  }

  /** The example: 40000 experience given to a Pokémon at 100000 with the next level at 200000. */
  lemma AsWrittenExample()
    ensures GiveExp(100000, ExpFromTaskAsWritten(SplitExp(40000)), 200000) == Gained(74464)
    ensures GiveExp(100000, ExpFromTask(SplitExp(40000)), 200000) == Gained(140000)
  {
    AsWrittenGainLowersExp(100000, 40000, 200000);
  }
}

/**
 * Consequences of the range spin_wheel draws from. As written, a spin sets
 * the index to 1 .. MAX_SYMBOLS, while a wheel's symbols sit at indices
 * 0 .. MAX_SYMBOLS - 1. The draw MAX_SYMBOLS names no symbol of the wheel,
 * and index 0 is never drawn. Every default wheel has its only Plum at index
 * 0, so the 100-credit rule cannot pay. Wheel.SpinCorrected draws from
 * 0 .. MAX_SYMBOLS - 1 instead; with it, every spin shows a symbol of the
 * wheel and the Plum line can be drawn.
 */
module SpinFindings {
  import opened SlotTypes
  import opened RuleMatching
  import opened DefaultTable
  import opened SlotMachine

  /** The largest as-written draw points past the end of any wheel. */
  lemma AsWrittenSpinCanLeaveWheel(symbols: seq<Symbol>)
    requires |symbols| == MAX_SYMBOLS
    ensures Showing(symbols, MAX_SYMBOLS) == None
  {
  }

  /**
   * With as-written draws k0, k1, k2, whatever the three default wheels
   * show, the 100-credit rule does not match it.
   */
  lemma AsWrittenJackpotUnreachable(k0: int, k1: int, k2: int, outcome: seq<Symbol>)
    requires 1 <= k0 <= MAX_SYMBOLS && 1 <= k1 <= MAX_SYMBOLS && 1 <= k2 <= MAX_SYMBOLS
    requires |outcome| == MAX_WHEELS
    requires Showing(DEFAULT_WHEEL_SYMBOLS[0], k0) == Some(outcome[0])
    requires Showing(DEFAULT_WHEEL_SYMBOLS[1], k1) == Some(outcome[1])
    requires Showing(DEFAULT_WHEEL_SYMBOLS[2], k2) == Some(outcome[2])
    ensures !Matches(DEFAULT_RULES[11], outcome)
  {
    DefaultPlumOnlyAtZero();
    DefaultJackpotOutcome(outcome);
    assert outcome[0] != Plum;
  }

  /**
   * With corrected draws, index 0 shows Plum on every default wheel, and
   * three Plums match the 100-credit rule.
   */
  lemma CorrectedJackpotReachable()
    ensures forall i :: 0 <= i < MAX_WHEELS ==> Showing(DEFAULT_WHEEL_SYMBOLS[i], 0) == Some(Plum)
    ensures Matches(DEFAULT_RULES[11], [Plum, Plum, Plum])
  {
  }
}

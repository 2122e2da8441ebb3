/** A combatant's initiative roll. */
module Combatant {
  import opened Wrappers
  import opened Dice

  /** `initiativeRoll`: `2 + speed` dice kept highest, or, when that is not
      positive, `2 - (2 + speed)` dice kept lowest; a missing speed counts
      as 0. */
  function InitiativeFormula(speed: Option<int>): DiceFormula
  {
    var rollValue := 2 + speed.GetOr(0);
    if rollValue <= 0 then DiceFormula(2 - rollValue, Kl) else DiceFormula(rollValue, Khs)
  }

  /** No speed rolls `2d6khs`; a fast enough combatant rolls `2 + speed`
      dice kept highest, a slow one `-speed` dice kept lowest; there is
      always a die, and at least two when the lowest is kept. */
  lemma InitiativeSpec(speed: Option<int>)
    ensures speed.None? ==> InitiativeFormula(speed) == DiceFormula(2, Khs)
    ensures 2 + speed.GetOr(0) > 0 ==> InitiativeFormula(speed) == DiceFormula(2 + speed.GetOr(0), Khs)
    ensures 2 + speed.GetOr(0) <= 0 ==> InitiativeFormula(speed) == DiceFormula(-speed.GetOr(0), Kl)
    ensures InitiativeFormula(speed).count >= 1
    ensures InitiativeFormula(speed).modifier == Kl ==> InitiativeFormula(speed).count >= 2
  {
  }

  /** Initiative follows the shared pool rule for a pool of `2 + speed`. */
  lemma InitiativeIsPool(speed: Option<int>)
    ensures InitiativeFormula(speed) == PoolFormula(2 + speed.GetOr(0))
  {
  }
}

/** The roll dialog: the pool from the base roll, a typed modifier and the
    size selection, the multiplier of the button pressed, the dice formula,
    and the endurance the roll costs. */
module RollPrompt {
  import opened Wrappers
  import opened Dice
  import Text
  import Character

  datatype Size = Disadvantage | Normal | Advantage

  /** `sizeMods`. */
  function SizeMod(s: Size): (m: int)
    ensures m in {-5, 0, 5}
    ensures m == 0 <==> s == Normal
    ensures m < 0 <==> s == Disadvantage
  {
    match s
    case Disadvantage => -5
    case Normal => 0
    case Advantage => 5
  }

  datatype PromptType = DefensePrompt | DramaPrompt | StandardPrompt

  /** The multipliers of the dialog's buttons: `0`, roll and `x2` for a
      defense; drama and miracle for drama dice; a single roll otherwise. */
  function Multipliers(t: PromptType): (ms: seq<int>)
    ensures 1 in ms
    ensures forall m :: m in ms ==> 0 <= m <= 6
  {
    match t
    case DefensePrompt => [0, 1, 2]
    case DramaPrompt => [1, 6]
    case StandardPrompt => [1]
  }

  /** Only a defense can be rolled with no dice, only drama as a miracle. */
  lemma MultiplierButtons(t: PromptType)
    ensures 0 in Multipliers(t) <==> t == DefensePrompt
    ensures 6 in Multipliers(t) <==> t == DramaPrompt
    ensures 2 in Multipliers(t) <==> t == DefensePrompt
  {
  }

  function Ceil(x: real): int { -((-x).Floor) }

  /** The pool before the multiplier: the base roll plus the modifier
      (`parseInt(...) || 0`) plus the size modifier. */
  function Pool(roll: int, mod: Option<int>, size: Size): int
  {
    roll + mod.GetOr(0) + SizeMod(size)
  }

  /** `_roll`'s count and `_makeRoll`'s formula for a pool and multiplier. */
  function RollFormula(pool: int, multiplier: int): DiceFormula
  {
    var negative := pool <= 0;
    var n := if negative then 2 - pool else pool;
    var count := if negative && multiplier != 0 then Ceil(n as real / multiplier as real) else n * multiplier;
    DiceFormula(count, if negative then Kl else Khs)
  }

  /** A non-positive pool is `2 - pool` dice kept lowest, shared out over
      the multiplier and rounded up; a positive pool is multiplied and kept
      highest; multiplier 0 rolls no dice. */
  lemma RollFormulaSpec(pool: int, multiplier: int)
    ensures RollFormula(pool, multiplier).modifier == Kl <==> pool <= 0
    ensures pool > 0 ==> RollFormula(pool, multiplier).count == pool * multiplier
    ensures pool <= 0 && multiplier != 0 ==>
      RollFormula(pool, multiplier).count == Ceil((2 - pool) as real / multiplier as real)
    ensures multiplier == 0 ==> RollFormula(pool, multiplier).count == 0
  {
  }

  /** With multiplier 1 the dialog rolls the shared pool formula. */
  lemma SingleRollIsPool(pool: int)
    ensures RollFormula(pool, 1) == PoolFormula(pool)
  {
  }

  /** Shared out over 2 or 6, a negative pool still rolls at least one die;
      a doubled positive pool rolls twice the dice. */
  lemma {:induction false} MultipliedPools(pool: int, multiplier: int)
    requires multiplier in {2, 6}
    ensures pool <= 0 ==> 1 <= RollFormula(pool, multiplier).count
    ensures pool <= 0 ==> RollFormula(pool, multiplier).count * multiplier >= 2 - pool
    ensures pool <= 0 ==> (RollFormula(pool, multiplier).count - 1) * multiplier < 2 - pool
    ensures pool > 0 ==> RollFormula(pool, multiplier).count == multiplier * pool
  {
    if pool <= 0 {
      var n := 2 - pool;
      var c := RollFormula(pool, multiplier).count;
      assert c == Ceil(n as real / multiplier as real);
      CeilDiv(n, multiplier);
    }
  }

  /** `ceil(n / m)` for positive `m` is the fewest groups of `m` that hold
      `n`. */
  lemma CeilDiv(n: int, m: int)
    requires n >= 1 && m >= 1
    ensures Ceil(n as real / m as real) >= 1
    ensures Ceil(n as real / m as real) * m >= n
    ensures (Ceil(n as real / m as real) - 1) * m < n
  {
    var x := n as real / m as real;
    var c := Ceil(x);
    assert (c - 1) as real < x <= c as real;
    BelowQuotient((c - 1) as real, n as real, m as real);
    AboveQuotient(c as real, n as real, m as real);
    assert (c * m) as real == c as real * m as real;
    assert ((c - 1) * m) as real == (c - 1) as real * m as real;
  }

  /** Below a quotient, times the divisor, is below the dividend. */
  lemma BelowQuotient(a: real, n: real, k: real)
    requires k > 0.0 && a < n / k
    ensures a * k < n
  {
    assert (n / k) * k == n;
  }

  /** At or above a quotient, times the divisor, is at or above the
      dividend. */
  lemma AboveQuotient(a: real, n: real, k: real)
    requires k > 0.0 && n / k <= a
    ensures n <= a * k
  {
    assert (n / k) * k == n;
  }

  /** How `getData` shows the endurance cost. */
  datatype CostDisplay = Split(text: string) | Plain(cost: int)

  /** `c/6c` for drama with a positive cost, the cost itself otherwise. */
  function ShownCost(t: PromptType, cost: int): CostDisplay
  {
    if t == DramaPrompt && cost > 0 then Split(Text.IntToString(cost) + "/" + Text.IntToString(cost * 6))
    else Plain(cost)
  }

  /** The drama label reads as the drama cost and the miracle cost, six
      times as much, on either side of its one `/`. */
  lemma ShownCostReads(t: PromptType, cost: int)
    ensures ShownCost(t, cost).Split? <==> t == DramaPrompt && cost > 0
    ensures ShownCost(t, cost).Split? ==>
      exists a, b :: ShownCost(t, cost).text == a + "/" + b && '/' !in a && '/' !in b
        && Text.ParseInt(a) == Some(cost) && Text.ParseInt(b) == Some(6 * cost)
  {
    if t == DramaPrompt && cost > 0 {
      var a := Text.IntToString(cost);
      var b := Text.IntToString(cost * 6);
      CostPart(cost);
      CostPart(cost * 6);
      assert ShownCost(t, cost).text == a + "/" + b;
    }
  }

  /** A positive cost prints as digits, with no `/`, and reads back. */
  lemma CostPart(c: int)
    requires c > 0
    ensures '/' !in Text.IntToString(c)
    ensures Text.ParseInt(Text.IntToString(c)) == Some(c)
  {
    var s := Text.IntToString(c);
    assert s == Text.NatToString(c);
    forall i | 0 <= i < |s| ensures s[i] != '/' {
      assert Text.IsDigit(s[i]);
    }
    Text.ParseIntOfIntToString(c);
  }

  /** `_roll`'s dice count and `_makeRoll`'s formula, as the dialog
      computes them step by step. */
  method MakeRoll(roll: int, mod: Option<int>, size: Size, multiplier: int) returns (formula: DiceFormula, count: int)
    ensures formula == RollFormula(Pool(roll, mod, size), multiplier)
    ensures count == formula.count
  {
    var r := roll + mod.GetOr(0) + SizeMod(size);
    var negativeDice := false;
    if r <= 0 {
      negativeDice := true;
      r := 2 - r;
    }
    r := if negativeDice && multiplier != 0 then Ceil(r as real / multiplier as real) else r * multiplier;
    formula := if negativeDice then DiceFormula(r, Kl) else DiceFormula(r, Khs);
    count := r;
  }

  datatype EndurancePool = BasePool | ReservePool

  /** The dialog's state: the endurance cost (scaled when drama is rolled),
      the pool it is paid from and the size selection. `actor` is the
      character paying, `null` for one without `changeEndurance`. */
  class RollDialog {
    const kind: PromptType
    const roll: int
    const actor: Character.OvaCharacter?
    var enduranceCost: int
    var enduranceSelection: EndurancePool
    var sizeSelection: Size

    constructor (kind: PromptType, actor: Character.OvaCharacter?, enduranceCost: int, roll: int)
      ensures this.kind == kind && this.actor == actor && this.enduranceCost == enduranceCost && this.roll == roll
      ensures enduranceSelection == BasePool && sizeSelection == Normal
    {
      this.kind := kind;
      this.actor := actor;
      this.enduranceCost := enduranceCost;
      this.roll := roll;
      enduranceSelection := BasePool;
      sizeSelection := Normal;
    }

    /** `_changeEnduranceCost`. */
    method ChangeEnduranceCost(cost: int)
      modifies this`enduranceCost
      ensures enduranceCost == cost
    {
      enduranceCost := cost;
    }

    /** `_selectSize`. */
    method SelectSize(size: Size)
      modifies this`sizeSelection
      ensures sizeSelection == size
    {
      sizeSelection := size;
    }

    /** `_selectEnduransePool`. */
    method SelectPool(pool: EndurancePool)
      modifies this`enduranceSelection
      ensures enduranceSelection == pool
    {
      enduranceSelection := pool;
    }

    /** `getData`'s cost. */
    function Shown(): CostDisplay
      reads this
    {
      ShownCost(kind, enduranceCost)
    }

    /** `_roll` with the typed modifier `mod` and a button's multiplier:
        the formula rolled, the dice count `count`, and the cost (scaled
        for drama) taken from the selected endurance pool. */
    method Roll(mod: Option<int>, multiplier: int) returns (formula: DiceFormula, count: int)
      modifies this`enduranceCost, if actor != null then {actor.system} else {}
      ensures formula == RollFormula(Pool(roll, mod, sizeSelection), multiplier)
      ensures count == formula.count
      ensures enduranceCost == if kind == DramaPrompt then old(enduranceCost) * multiplier else old(enduranceCost)
      ensures actor != null ==>
        var path := if enduranceSelection == ReservePool then Character.RESERVE else Character.END;
        var amount := -(enduranceCost as real);
        && (amount == 0.0 ==> actor.system.store == old(actor.system.store))
        && (amount != 0.0 ==>
              actor.system.store == Character.UpdatedStore(old(actor.system.store), map[path := Character.Get(old(actor.system.store), path) + amount]))
    {
      formula, count := MakeRoll(roll, mod, sizeSelection, multiplier);
      if kind == DramaPrompt {
        enduranceCost := enduranceCost * multiplier;
      }
      ghost var cost := enduranceCost;
      assert cost == if kind == DramaPrompt then old(enduranceCost) * multiplier else old(enduranceCost);
      if actor != null {
        actor.ChangeEndurance(-(enduranceCost as real), enduranceSelection == ReservePool);
      }
      assert enduranceCost == cost;
    }
  }
}

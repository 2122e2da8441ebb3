/** The apply-damage dialog: turns an attack roll and the defender's result
    into a signed HP or endurance delta, negative for damage and positive
    for healing, through armor, resistances and vulnerabilities. */
module ApplyDamage {
  import opened Wrappers

  /** The attacking roll's data as the dialog receives it. */
  datatype AttackRoll = AttackRoll(result: int, dx: real, ignoreArmor: real, fatiguing: bool)

  /** One entry of the defender's `resistances`, in key order; a negative
      value is a vulnerability. */
  datatype Resistance = Resistance(name: string, value: int)

  /** The target actor as far as the calculation reads it. A missing armor
      value is 0. */
  datatype Target = Target(armor: real, resistances: seq<Resistance>)

  /** The dialog's per-resistance checkboxes. */
  datatype ResistanceFlags = ResistanceFlags(canHeal: bool, affected: bool)

  /** Where a delta goes when the damage is taken. */
  datatype PoolDelta = HpDelta(amount: real) | EnduranceDelta(amount: real)

  function Min(a: real, b: real): real { if a <= b then a else b }
  function Max(a: real, b: real): real { if a >= b then a else b }

  /** `Math.ceil`. */
  function Ceil(x: real): (c: int)
    ensures x <= c as real < x + 1.0
  {
    -((-x).Floor)
  }

  function Pow2(n: nat): (p: nat)
    ensures p >= 1
  {
    if n == 0 then 1 else 2 * Pow2(n - 1)
  }

  /** Armor after piercing, kept within 0..5. */
  function EffectiveArmor(armor: real, piercing: real): (e: real)
    ensures 0.0 <= e <= 5.0
    ensures 0.0 <= armor - piercing <= 5.0 ==> e == armor - piercing
    ensures armor - piercing < 0.0 ==> e == 0.0
    ensures armor - piercing > 5.0 ==> e == 5.0
  {
    Min(Max(armor - piercing, 0.0), 5.0)
  }

  /** The multiplier after armor, before resistances. */
  function ArmoredDx(target: Target, attack: AttackRoll): (dx: real)
    ensures dx >= 0.5
    ensures dx >= attack.dx - EffectiveArmor(target.armor, attack.ignoreArmor)
  {
    Max(attack.dx - EffectiveArmor(target.armor, attack.ignoreArmor), 0.5)
  }

  predicate Affected(flags: map<string, ResistanceFlags>, name: string)
  {
    name in flags && flags[name].affected
  }

  /** Sum of the affected non-negative resistance values. */
  function Resisted(rs: seq<Resistance>, flags: map<string, ResistanceFlags>): nat
    decreases |rs|
  {
    if |rs| == 0 then 0
    else
      var r := rs[|rs| - 1];
      Resisted(rs[..|rs| - 1], flags) + (if Affected(flags, r.name) && r.value >= 0 then r.value else 0)
  }

  /** Sum of the magnitudes of the affected negative values. */
  function Vulnerability(rs: seq<Resistance>, flags: map<string, ResistanceFlags>): nat
    decreases |rs|
  {
    if |rs| == 0 then 0
    else
      var r := rs[|rs| - 1];
      Vulnerability(rs[..|rs| - 1], flags) + (if Affected(flags, r.name) && r.value < 0 then -r.value else 0)
  }

  /** Some affected non-negative resistance is marked as healing. */
  predicate CanHeal(rs: seq<Resistance>, flags: map<string, ResistanceFlags>)
    decreases |rs|
  {
    if |rs| == 0 then false
    else
      var r := rs[|rs| - 1];
      CanHeal(rs[..|rs| - 1], flags) || (Affected(flags, r.name) && r.value >= 0 && flags[r.name].canHeal)
  }

  /** One more resistance adds its share to each of the three folds. */
  lemma FoldStep(rs: seq<Resistance>, i: nat, flags: map<string, ResistanceFlags>)
    requires i < |rs|
    ensures var r := rs[i];
      && Resisted(rs[..i + 1], flags) == Resisted(rs[..i], flags) + (if Affected(flags, r.name) && r.value >= 0 then r.value else 0)
      && Vulnerability(rs[..i + 1], flags) == Vulnerability(rs[..i], flags) + (if Affected(flags, r.name) && r.value < 0 then -r.value else 0)
      && CanHeal(rs[..i + 1], flags) == (CanHeal(rs[..i], flags) || (Affected(flags, r.name) && r.value >= 0 && flags[r.name].canHeal))
  {
    assert rs[..i + 1][..i] == rs[..i];
  }

  /** The multiplier after resistances: it may only go below 0 when a
      resistance heals. */
  function FinalDx(target: Target, attack: AttackRoll, flags: map<string, ResistanceFlags>): (dx: real)
    ensures !CanHeal(target.resistances, flags) ==> dx >= 0.0
    ensures dx < 0.0 ==> dx == ArmoredDx(target, attack) - Resisted(target.resistances, flags) as real
  {
    var dx := ArmoredDx(target, attack) - Resisted(target.resistances, flags) as real;
    if !CanHeal(target.resistances, flags) && dx < 0.0 then 0.0 else dx
  }

  /** The damage before the vulnerability bonus. */
  function BaseDamage(target: Target, attack: AttackRoll, defenseResult: int, flags: map<string, ResistanceFlags>): int
  {
    Rounded(attack.result - defenseResult, FinalDx(target, attack, flags))
  }

  /** The margin times the multiplier, rounded up. */
  function Rounded(margin: int, dx: real): int
  {
    Ceil(margin as real * dx)
  }

  /** `_calculateDamage`: the signed delta for the damage path. */
  function DamageOf(target: Target, attack: AttackRoll, defenseResult: int, flags: map<string, ResistanceFlags>): real
  {
    WithVulnerability(BaseDamage(target, attack, defenseResult, flags), Vulnerability(target.resistances, flags))
  }

  /** The damage with the bonus of `v` points of vulnerability, as a loss. */
  function WithVulnerability(damage: int, v: nat): real
  {
    var bonus := if v > 0 then damage as real * (0.5 * Pow2(v - 1) as real) else 0.0;
    -(damage as real + bonus)
  }

  /** `_calculateHeal`: a negative multiplier turns the result into a gain. */
  function HealOf(attack: AttackRoll): (h: real)
    ensures attack.dx < 0.0 && attack.result >= 0 ==> h >= 0.0
    ensures attack.dx < 0.0 && attack.result > 0 ==> h > 0.0
  {
    -(attack.result as real) * attack.dx
  }

  /** Without vulnerability and with a non-negative product the delta is
      damage, never a gain. */
  lemma DamageIsLoss(target: Target, attack: AttackRoll, defenseResult: int, flags: map<string, ResistanceFlags>)
    requires Vulnerability(target.resistances, flags) == 0
    requires (attack.result - defenseResult) as real * FinalDx(target, attack, flags) >= 0.0
    ensures DamageOf(target, attack, defenseResult, flags) <= 0.0
    ensures DamageOf(target, attack, defenseResult, flags) == -(BaseDamage(target, attack, defenseResult, flags) as real)
  {
  }

  /** Each point of vulnerability doubles the bonus; one point adds half
      the damage again. */
  lemma VulnerabilityBonus(target: Target, attack: AttackRoll, defenseResult: int, flags: map<string, ResistanceFlags>)
    requires Vulnerability(target.resistances, flags) > 0
    ensures var d := BaseDamage(target, attack, defenseResult, flags) as real;
      DamageOf(target, attack, defenseResult, flags) == -(d + d * 0.5 * Pow2(Vulnerability(target.resistances, flags) - 1) as real)
    ensures Vulnerability(target.resistances, flags) == 1 ==>
      DamageOf(target, attack, defenseResult, flags) == -1.5 * BaseDamage(target, attack, defenseResult, flags) as real
  {
  }

  /** Only affected resistances count: two resistance lists that agree on
      names and on the values of affected entries give the same delta. */
  lemma {:induction false} OnlyAffectedMatter(a: seq<Resistance>, b: seq<Resistance>, flags: map<string, ResistanceFlags>)
    requires |a| == |b|
    requires forall i :: 0 <= i < |a| ==> a[i].name == b[i].name
    requires forall i :: 0 <= i < |a| && Affected(flags, a[i].name) ==> a[i].value == b[i].value
    ensures Resisted(a, flags) == Resisted(b, flags)
    ensures Vulnerability(a, flags) == Vulnerability(b, flags)
    ensures CanHeal(a, flags) == CanHeal(b, flags)
    decreases |a|
  {
    if |a| > 0 {
      OnlyAffectedMatter(a[..|a| - 1], b[..|b| - 1], flags);
    }
  }

  lemma OnlyAffectedMatterForDamage(t: Target, u: Target, attack: AttackRoll, defenseResult: int, flags: map<string, ResistanceFlags>)
    requires t.armor == u.armor && |t.resistances| == |u.resistances|
    requires forall i :: 0 <= i < |t.resistances| ==> t.resistances[i].name == u.resistances[i].name
    requires forall i :: 0 <= i < |t.resistances| && Affected(flags, t.resistances[i].name) ==>
      t.resistances[i].value == u.resistances[i].value
    ensures DamageOf(t, attack, defenseResult, flags) == DamageOf(u, attack, defenseResult, flags)
  {
    OnlyAffectedMatter(t.resistances, u.resistances, flags);
    assert ArmoredDx(t, attack) == ArmoredDx(u, attack);
    assert FinalDx(t, attack, flags) == FinalDx(u, attack, flags);
    SamePartsSameDamage(t, u, attack, defenseResult, flags);
  }

  /** The damage depends only on the base damage and the vulnerability. */
  lemma SamePartsSameDamage(t: Target, u: Target, attack: AttackRoll, defenseResult: int, flags: map<string, ResistanceFlags>)
    requires FinalDx(t, attack, flags) == FinalDx(u, attack, flags)
    requires Vulnerability(t.resistances, flags) == Vulnerability(u.resistances, flags)
    ensures DamageOf(t, attack, defenseResult, flags) == DamageOf(u, attack, defenseResult, flags)
  {
    var m, dx := attack.result - defenseResult, FinalDx(t, attack, flags);
    assert BaseDamage(t, attack, defenseResult, flags) == Rounded(m, dx);
    assert BaseDamage(u, attack, defenseResult, flags) == Rounded(m, dx);
  }

  /** With nothing affected the delta is the armored product, rounded up. */
  lemma {:induction false} NothingAffected(rs: seq<Resistance>, flags: map<string, ResistanceFlags>)
    requires forall i :: 0 <= i < |rs| ==> !Affected(flags, rs[i].name)
    ensures Resisted(rs, flags) == 0 && Vulnerability(rs, flags) == 0 && !CanHeal(rs, flags)
    decreases |rs|
  {
    if |rs| > 0 {
      NothingAffected(rs[..|rs| - 1], flags);
    }
  }

  lemma DamageWithoutResistances(target: Target, attack: AttackRoll, defenseResult: int, flags: map<string, ResistanceFlags>)
    requires forall i :: 0 <= i < |target.resistances| ==> !Affected(flags, target.resistances[i].name)
    ensures DamageOf(target, attack, defenseResult, flags) ==
      -(Ceil((attack.result - defenseResult) as real * ArmoredDx(target, attack)) as real)
  {
    NothingAffected(target.resistances, flags);
    assert FinalDx(target, attack, flags) == ArmoredDx(target, attack);
    var d := BaseDamage(target, attack, defenseResult, flags);
    assert d == Rounded(attack.result - defenseResult, ArmoredDx(target, attack));
    assert d == Ceil((attack.result - defenseResult) as real * ArmoredDx(target, attack));
    assert DamageOf(target, attack, defenseResult, flags) == WithVulnerability(d, 0);
    assert WithVulnerability(d, 0) == -(d as real);
  }

  /** `dx = 2`, a margin of 4, no armor: 8 damage. */
  lemma ExampleUnarmored()
    ensures DamageOf(Target(0.0, []), AttackRoll(4, 2.0, 0.0, false), 0, map[]) == -8.0
  {
    assert FinalDx(Target(0.0, []), AttackRoll(4, 2.0, 0.0, false), map[]) == 2.0;
    assert Ceil(8.0) == 8;
  }

  /** Armor 3 pierced by 1 leaves armor 2: the multiplier floors at 0.5 and
      a margin of 4 does 2 damage. */
  lemma ExampleArmored()
    ensures DamageOf(Target(3.0, []), AttackRoll(4, 2.0, 1.0, false), 0, map[]) == -2.0
  {
    assert FinalDx(Target(3.0, []), AttackRoll(4, 2.0, 1.0, false), map[]) == 0.5;
    assert Ceil(2.0) == 2;
  }

  /** Two points of vulnerability double 10 damage. */
  lemma ExampleVulnerable()
    ensures DamageOf(Target(0.0, [Resistance("fire", -2)]), AttackRoll(5, 2.0, 0.0, false), 0,
                     map["fire" := ResistanceFlags(false, true)]) == -20.0
  {
    var t := Target(0.0, [Resistance("fire", -2)]);
    var flags := map["fire" := ResistanceFlags(false, true)];
    assert t.resistances[..0] == [];
    assert Vulnerability(t.resistances, flags) == 2;
    assert Resisted(t.resistances, flags) == 0;
    assert FinalDx(t, AttackRoll(5, 2.0, 0.0, false), flags) == 2.0;
    assert Ceil(10.0) == 10;
  }

  /** `_takeDamage`: fatiguing attacks hit endurance, the others HP. */
  function Route(fatiguing: bool, damage: real): (d: PoolDelta)
    ensures d.amount == damage
    ensures d.EnduranceDelta? <==> fatiguing
  {
    if fatiguing then EnduranceDelta(damage) else HpDelta(damage)
  }

  class ApplyDamagePrompt {
    const attack: AttackRoll
    /** `rollData.defense.result`; absent on the heal path. */
    const defense: Option<int>
    const targets: seq<Target>
    const fatiguing: bool
    var resistances: map<string, ResistanceFlags>
    /** `rollData.attack.damage` once prepared. */
    var damage: real

    /** Seeds a checkbox pair per resistance of the first target, unless
        the roll heals. The stored resistance entries are plain numbers, so
        both flags start unchecked. */
    constructor (attack: AttackRoll, defense: Option<int>, targets: seq<Target>)
      ensures this.attack == attack && this.defense == defense && this.targets == targets
      ensures fatiguing == attack.fatiguing && damage == 0.0
      ensures attack.dx < 0.0 || |targets| == 0 ==> resistances == map[]
      ensures attack.dx >= 0.0 && |targets| > 0 ==>
        forall name :: name in resistances <==> exists i :: 0 <= i < |targets[0].resistances| && targets[0].resistances[i].name == name
      ensures forall name :: name in resistances ==> resistances[name] == ResistanceFlags(false, false)
    {
      this.attack := attack;
      this.defense := defense;
      this.targets := targets;
      fatiguing := attack.fatiguing;
      damage := 0.0;
      resistances := map[];
      new;
      if attack.dx >= 0.0 && |targets| > 0 {
        var rs := targets[0].resistances;
        var i := 0;
        while i < |rs|
          invariant 0 <= i <= |rs| && damage == 0.0
          invariant forall name :: name in resistances <==> exists j :: 0 <= j < i && rs[j].name == name
          invariant forall name :: name in resistances ==> resistances[name] == ResistanceFlags(false, false)
        {
          resistances := resistances[rs[i].name := ResistanceFlags(false, false)];
          i := i + 1;
        }
        assert rs == this.targets[0].resistances;
      }
    }

    /** Ticking or unticking a resistance's "affected" box. */
    method SetAffected(name: string, checked: bool)
      requires name in resistances
      modifies this
      ensures resistances == old(resistances)[name := old(resistances)[name].(affected := checked)]
      ensures damage == old(damage)
    {
      resistances := resistances[name := resistances[name].(affected := checked)];
    }

    /** Ticking or unticking a resistance's "can heal" box. */
    method SetCanHeal(name: string, checked: bool)
      requires name in resistances
      modifies this
      ensures resistances == old(resistances)[name := old(resistances)[name].(canHeal := checked)]
      ensures damage == old(damage)
    {
      resistances := resistances[name := resistances[name].(canHeal := checked)];
    }

    /** `_calculateDamage`, folding the resistances one by one. */
    method CalculateDamage(actor: Target, attackRoll: AttackRoll, defenseResult: int) returns (result: real)
      ensures result == DamageOf(actor, attackRoll, defenseResult, resistances)
    {
      var finalResult := attackRoll.result - defenseResult;
      var effectiveArmor := EffectiveArmor(actor.armor, attackRoll.ignoreArmor);
      var dx := Max(attackRoll.dx - effectiveArmor, 0.5);
      var canHeal := false;
      var totalVulnerability: nat := 0;
      var rs := actor.resistances;
      var i := 0;
      while i < |rs|
        invariant 0 <= i <= |rs|
        invariant dx == ArmoredDx(actor, attackRoll) - Resisted(rs[..i], resistances) as real
        invariant canHeal == CanHeal(rs[..i], resistances)
        invariant totalVulnerability == Vulnerability(rs[..i], resistances)
      {
        FoldStep(rs, i, resistances);
        var name := rs[i].name;
        if Affected(resistances, name) {
          var value := rs[i].value;
          if value >= 0 {
            dx := dx - value as real;
            if resistances[name].canHeal {
              canHeal := true;
            }
          } else {
            totalVulnerability := totalVulnerability + -value;
          }
        }
        i := i + 1;
      }
      assert rs[..|rs|] == rs;
      if !canHeal && dx < 0.0 {
        dx := 0.0;
      }
      assert dx == FinalDx(actor, attackRoll, resistances);
      var damage := Ceil(finalResult as real * dx);
      assert damage == BaseDamage(actor, attackRoll, defenseResult, resistances);
      var bonus := if totalVulnerability > 0 then damage as real * (0.5 * Pow2(totalVulnerability - 1) as real) else 0.0;
      result := -(damage as real + bonus);
      assert result == WithVulnerability(damage, totalVulnerability);
    }

    /** `_prepareData`'s damage: the heal path for a negative multiplier,
        otherwise the damage against the first target. Without a target or
        a defending result the damage path fails. */
    method PrepareData() returns (ok: bool)
      modifies this`damage
      ensures attack.dx < 0.0 ==> ok && damage == HealOf(attack)
      ensures attack.dx >= 0.0 ==> (ok <==> |targets| > 0 && defense.Some?)
      ensures attack.dx >= 0.0 && ok ==> damage == DamageOf(targets[0], attack, defense.value, resistances)
      ensures !ok ==> damage == old(damage)
    {
      if attack.dx >= 0.0 {
        if |targets| == 0 || defense.None? {
          return false;
        }
        damage := CalculateDamage(targets[0], attack, defense.value);
      } else {
        damage := HealOf(attack);
      }
      ok := true;
    }

    /** `_takeDamage`: the prepared delta, once per target, to endurance or HP. */
    method TakeDamage() returns (deltas: seq<PoolDelta>)
      ensures |deltas| == |targets|
      ensures forall i :: 0 <= i < |deltas| ==> deltas[i] == Route(fatiguing, damage)
    {
      deltas := [];
      var i := 0;
      while i < |targets|
        invariant 0 <= i <= |targets| && |deltas| == i
        invariant forall j :: 0 <= j < i ==> deltas[j] == Route(fatiguing, damage)
      {
        if fatiguing {
          deltas := deltas + [EnduranceDelta(damage)];
        } else {
          deltas := deltas + [HpDelta(damage)];
        }
        i := i + 1;
      }
    }
  }
}

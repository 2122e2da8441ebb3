/** A character's bookkeeping: the HP/endurance spill-over every update goes
    through, the defaults and derived values of its `system` data, the
    threat value, drama dice, and HP/endurance changes. The `system` data
    is the effect engine's target object, so ability effects write into the
    same store. */
module Character {
  import opened Wrappers
  import opened Sorting
  import Effects

  // System data paths.
  const HP: string := "hp.value"
  const HP_MAX: string := "hp.max"
  const HP_RESERVE_MAX: string := "hpReserve.max"
  const END: string := "endurance.value"
  const RESERVE: string := "enduranceReserve.value"
  const GLOBAL_MOD: string := "globalMod"
  const ARMOR: string := "armor"
  const TV: string := "tv"
  const FREE: string := "dramaDice.free"
  const USED: string := "dramaDice.used"
  const ATTACK_ROLL: string := "attack.roll"
  const ATTACK_DX: string := "attack.dx"

  /** A value of the store, 0 where unset. */
  function Get(store: map<string, real>, p: string): real
  {
    if p in store then store[p] else 0.0
  }

  function MinReal(a: real, b: real): real { if a <= b then a else b }
  function MaxReal(a: real, b: real): real { if a >= b then a else b }

  // ---------------------------------------------------------------------
  // _preUpdate

  /** Where the HP and endurance an update leads to end up: a deficit in
      one pool is taken from the other, and neither goes below 0. */
  function SpillOver(hp: real, end: real): (r: (real, real))
    ensures r.0 >= 0.0 && r.1 >= 0.0
  {
    if hp + end <= 0.0 then (0.0, 0.0)
    else if hp < 0.0 then (0.0, hp + end)
    else if end < 0.0 then (hp + end, 0.0)
    else (hp, end)
  }

  /** Exactly one negative pool with enough in the other: the deficit moves
      over and the total is kept. */
  lemma SpillOverKeepsSum(hp: real, end: real)
    requires (hp < 0.0) != (end < 0.0) && hp + end >= 0.0
    ensures SpillOver(hp, end).0 + SpillOver(hp, end).1 == hp + end
    ensures hp < 0.0 ==> SpillOver(hp, end).0 == 0.0
    ensures end < 0.0 ==> SpillOver(hp, end).1 == 0.0
  {
  }

  /** With nothing left in total, both pools are empty. */
  lemma SpillOverExhausted(hp: real, end: real)
    requires hp + end <= 0.0
    ensures SpillOver(hp, end) == (0.0, 0.0)
  {
  }

  /** When the pools are written at all: a negative pool, or both empty. */
  predicate PoolsWritten(hp: real, end: real)
  {
    hp < 0.0 || end < 0.0 || (hp <= 0.0 && end <= 0.0)
  }

  /** `(enduranceReserve.value ?? 0) < 0` becomes 0. */
  function ClampReserve(changes: map<string, real>): map<string, real>
  {
    if RESERVE in changes && changes[RESERVE] < 0.0 then changes[RESERVE := 0.0] else changes
  }

  /** The changes of an update after `_preUpdate`, given the stored HP
      and endurance. */
  function PreUpdated(changes: map<string, real>, storedHp: real, storedEnd: real): map<string, real>
  {
    var hp := if HP in changes then changes[HP] else storedHp;
    var end := if END in changes then changes[END] else storedEnd;
    var pools := SpillOver(hp, end);
    ClampReserve(if PoolsWritten(hp, end) then changes[HP := pools.0][END := pools.1] else changes)
  }

  /** After `_preUpdate` no HP, endurance or reserve value of an update is
      negative, the other values are kept, and a pool is written only when
      it was pending or the update spilled over. */
  lemma PreUpdatedNonNegative(changes: map<string, real>, storedHp: real, storedEnd: real)
    ensures var c := PreUpdated(changes, storedHp, storedEnd);
      && (HP in c ==> c[HP] >= 0.0)
      && (END in c ==> c[END] >= 0.0)
      && (RESERVE in c ==> c[RESERVE] >= 0.0)
      && (RESERVE in changes ==> c[RESERVE] == MaxReal(changes[RESERVE], 0.0))
      && (forall k :: k in c && k != HP && k != END && k != RESERVE ==> k in changes && c[k] == changes[k])
      && (forall k :: k in changes ==> k in c)
      && (HP in c && HP !in changes ==> PoolsWritten(storedHp, if END in changes then changes[END] else storedEnd))
  {
  }

  /** `_preUpdate`'s steps on the pending values, given the stored HP and
      endurance. */
  method PreUpdateValues(changes: map<string, real>, storedHp: real, storedEnd: real) returns (m: map<string, real>)
    ensures m == PreUpdated(changes, storedHp, storedEnd)
  {
    m := changes;
    var hp := if HP in m then m[HP] else storedHp;
    var end := if END in m then m[END] else storedEnd;
    ghost var hp0, end0 := hp, end;
    if hp < 0.0 {
      end := end + hp;
      m := m[END := MaxReal(end, 0.0)];
      m := m[HP := 0.0];
    }
    if end < 0.0 {
      hp := hp + end;
      m := m[HP := MaxReal(hp, 0.0)];
      m := m[END := 0.0];
    }
    if (if RESERVE in m then m[RESERVE] else 0.0) < 0.0 {
      m := m[RESERVE := 0.0];
    }
    if hp <= 0.0 && end <= 0.0 {
      m := m[HP := 0.0];
      m := m[END := 0.0];
    }
  }

  /** An update's pending key/value pairs. */
  class Changes {
    var values: map<string, real>

    constructor (values: map<string, real>)
      ensures this.values == values
    {
      this.values := values;
    }
  }

  // ---------------------------------------------------------------------
  // Base and derived data

  /** `prepareBaseData`'s defaults of the numeric entries. */
  const BaseDefaults: seq<(string, real)> := [
    (GLOBAL_MOD, 2.0), ("globalRollMod", 0.0), ("globalDefMod", 0.0), (ARMOR, 0.0), ("speed", 0.0),
    (HP, 0.0), (HP_MAX, 0.0), ("hpReserve.value", 0.0), (HP_RESERVE_MAX, 0.0),
    (END, 0.0), ("endurance.max", 0.0), ("endurance.penalty", 0.0),
    (RESERVE, 0.0), ("enduranceReserve.max", 0.0),
    (USED, 0.0), (FREE, 0.0)]

  function WithDefault(store: map<string, real>, p: string, v: real): map<string, real>
  {
    if p in store then store else store[p := v]
  }

  /** An unset entry gets its default, a set one keeps its value, and the
      attack summary is reset to `roll 0, dx 0`. */
  function BaseData(store: map<string, real>): map<string, real>
  {
    var s := WithDefaults(store, BaseDefaults);
    s[ATTACK_ROLL := 0.0][ATTACK_DX := 0.0]
  }

  function WithDefaults(store: map<string, real>, ds: seq<(string, real)>): map<string, real>
    decreases |ds|
  {
    if |ds| == 0 then store else WithDefaults(WithDefault(store, ds[0].0, ds[0].1), ds[1..])
  }

  predicate DistinctKeys(ds: seq<(string, real)>)
  {
    forall i, j :: 0 <= i < j < |ds| ==> ds[i].0 != ds[j].0
  }

  lemma {:induction false} WithDefaultsSpec(store: map<string, real>, ds: seq<(string, real)>)
    requires DistinctKeys(ds)
    ensures var s := WithDefaults(store, ds);
      && (forall k :: k in store ==> k in s && s[k] == store[k])
      && (forall i :: 0 <= i < |ds| ==> ds[i].0 in s)
      && (forall i :: 0 <= i < |ds| && ds[i].0 !in store ==> s[ds[i].0] == ds[i].1)
    decreases |ds|
  {
    if |ds| > 0 {
      var s1 := WithDefault(store, ds[0].0, ds[0].1);
      assert DistinctKeys(ds[1..]) by {
        forall i, j | 0 <= i < j < |ds[1..]| ensures ds[1..][i].0 != ds[1..][j].0 {
          assert ds[1..][i] == ds[i + 1] && ds[1..][j] == ds[j + 1];
        }
      }
      WithDefaultsSpec(s1, ds[1..]);
      var s := WithDefaults(store, ds);
      forall i | 0 <= i < |ds| ensures ds[i].0 in s && (ds[i].0 !in store ==> s[ds[i].0] == ds[i].1) {
        if i > 0 {
          assert ds[1..][i - 1] == ds[i];
          assert ds[0].0 != ds[i].0;
        }
      }
    }
  }

  /** After the base data step every default entry is set, an unset one
      to its default, the values that were set are kept, and the attack
      summary is zero. */
  lemma BaseDataDefaults(store: map<string, real>)
    ensures var s := BaseData(store);
      && (forall k :: k in store && k != ATTACK_ROLL && k != ATTACK_DX ==> k in s && s[k] == store[k])
      && (forall i :: 0 <= i < |BaseDefaults| ==> BaseDefaults[i].0 in s)
      && (forall i :: 0 <= i < |BaseDefaults| && BaseDefaults[i].0 !in store ==> s[BaseDefaults[i].0] == BaseDefaults[i].1)
      && s[ATTACK_ROLL] == 0.0 && s[ATTACK_DX] == 0.0
  {
    BaseDefaultsDistinct();
    WithDefaultsSpec(store, BaseDefaults);
    AttackNotDefaulted();
  }

  /** No key has two defaults. */
  lemma BaseDefaultsDistinct()
    ensures DistinctKeys(BaseDefaults)
  {
  }

  /** The attack summary has no default of its own. */
  lemma AttackNotDefaulted()
    ensures forall i :: 0 <= i < |BaseDefaults| ==> BaseDefaults[i].0 != ATTACK_ROLL && BaseDefaults[i].0 != ATTACK_DX
  {
  }

  /** Effects of each active ability applied in turn, each ability's in
      ascending priority; an error stops the rest. */
  function ApplyEach(st: Effects.TargetState, lists: seq<seq<Effects.SourcedEffect>>): Effects.Applied
    decreases |lists|
  {
    if |lists| == 0 then Effects.Applied(st, true)
    else
      var r := ApplyEach(st, lists[..|lists| - 1]);
      if !r.ok then r else Effects.ApplyAll(r.state, SortBy(lists[|lists| - 1], Effects.ByPriority()))
  }

  lemma {:induction false} ApplyEachStops(st: Effects.TargetState, lists: seq<seq<Effects.SourcedEffect>>, n: nat)
    requires n <= |lists|
    requires !ApplyEach(st, lists[..n]).ok
    ensures ApplyEach(st, lists) == ApplyEach(st, lists[..n])
    decreases |lists| - n
  {
    if n < |lists| {
      assert lists[..|lists| - 1][..n] == lists[..n];
      ApplyEachStops(st, lists[..|lists| - 1], n);
    } else {
      assert lists[..n] == lists;
    }
  }

  /** `prepareDerivedData`'s arithmetic after the ability effects: `hp.max`
      gains `hpReserve.max`, `globalMod` drops by one when HP or endurance is
      spent, and a stored positive threat value is kept, else `threat`. */
  function Derived(store: map<string, real>, threat: real): map<string, real>
  {
    var s1 := store[HP_MAX := Get(store, HP_MAX) + Get(store, HP_RESERVE_MAX)];
    var s2 := if Get(s1, HP) <= 0.0 || Get(s1, END) <= 0.0 then s1[GLOBAL_MOD := Get(s1, GLOBAL_MOD) - 1.0] else s1;
    s2[TV := if Get(store, TV) > 0.0 then Get(store, TV) else threat]
  }

  lemma DerivedArithmetic(store: map<string, real>, threat: real)
    ensures var s := Derived(store, threat);
      && Get(s, HP_MAX) == Get(store, HP_MAX) + Get(store, HP_RESERVE_MAX)
      && Get(s, GLOBAL_MOD) == Get(store, GLOBAL_MOD) - (if Get(store, HP) <= 0.0 || Get(store, END) <= 0.0 then 1.0 else 0.0)
      && Get(s, TV) == (if Get(store, TV) > 0.0 then Get(store, TV) else threat)
      && forall k :: k in store && k != HP_MAX && k != GLOBAL_MOD && k != TV ==> k in s && s[k] == store[k]
  {
  }

  // ---------------------------------------------------------------------
  // Threat value

  /** A roll ability of an attack: an item whose document type is
      `ability` counts its level, any other document type counts it
      negatively. `isAbility` is that document-type test, so an ability
      whose `system.type` is `weakness` counts positively. */
  datatype RollAbility = RollAbility(isAbility: bool, level: real)

  /** What the threat value reads of an attack item. */
  datatype AttackView = AttackView(enduranceCost: Option<real>, dx: Option<real>, roll: real, abilities: seq<RollAbility>)

  /** Usable without endurance and not a heal. */
  predicate FreeAttack(a: AttackView)
  {
    a.enduranceCost == Some(0.0) && a.dx.Some? && a.dx.value >= 0.0
  }

  function FreeAttacks(attacks: seq<AttackView>): (r: seq<AttackView>)
    ensures forall i :: 0 <= i < |r| ==> FreeAttack(r[i])
    ensures forall a :: a in attacks && FreeAttack(a) ==> a in r
    ensures forall a :: a in r ==> a in attacks
    decreases |attacks|
  {
    if |attacks| == 0 then []
    else
      var rest := FreeAttacks(attacks[1..]);
      assert forall a :: a in attacks ==> a == attacks[0] || a in attacks[1..];
      if FreeAttack(attacks[0]) then [attacks[0]] + rest else rest
  }

  function NegRoll(a: AttackView): real { -a.roll }

  function RollKey(a: AttackView): int { (-a.roll).Floor }

  /** `free.sort((a, b) => b.roll - a.roll)[0]`: the free attack with the
      highest roll. */
  function BestAttack(attacks: seq<AttackView>): Option<AttackView>
  {
    var sorted := SortBy(FreeAttacks(attacks), ByRollDescending());
    if |sorted| == 0 then None else Some(sorted[0])
  }

  function ByRollDescending(): (AttackView, AttackView) -> bool
  {
    (a: AttackView, b: AttackView) => b.roll <= a.roll
  }

  lemma ByRollDescendingTotal()
    ensures TotalPreorder(ByRollDescending())
  {
  }

  /** The best attack is free and no free attack rolls higher; there is one
      iff some attack is free. */
  lemma BestAttackIsBest(attacks: seq<AttackView>)
    ensures BestAttack(attacks).Some? <==> exists a :: a in attacks && FreeAttack(a)
    ensures BestAttack(attacks).Some? ==>
      && BestAttack(attacks).value in attacks
      && FreeAttack(BestAttack(attacks).value)
      && forall a :: a in attacks && FreeAttack(a) ==> a.roll <= BestAttack(attacks).value.roll
  {
    var free := FreeAttacks(attacks);
    var sorted := SortBy(free, ByRollDescending());
    SortByPermutes(free, ByRollDescending());
    ByRollDescendingTotal();
    SortBySorted(free, ByRollDescending());
    if exists a :: a in attacks && FreeAttack(a) {
      var a :| a in attacks && FreeAttack(a);
      assert a in multiset(free);
    }
    if |sorted| > 0 {
      assert sorted[0] in multiset(free);
      forall a | a in attacks && FreeAttack(a) ensures a.roll <= sorted[0].roll {
        assert a in multiset(sorted);
        var j :| 0 <= j < |sorted| && sorted[j] == a;
        if j > 0 {
          assert ByRollDescending()(sorted[0], sorted[j]);
        }
      }
    }
  }

  function MaxOf(xs: seq<real>): (m: real)
    requires |xs| > 0
    ensures forall i :: 0 <= i < |xs| ==> xs[i] <= m
    ensures exists i :: 0 <= i < |xs| && xs[i] == m
    decreases |xs|
  {
    if |xs| == 1 then xs[0]
    else
      var m := MaxOf(xs[..|xs| - 1]);
      assert forall i :: 0 <= i < |xs| - 1 ==> xs[..|xs| - 1][i] == xs[i];
      if xs[|xs| - 1] >= m then xs[|xs| - 1] else m
  }

  function AbilitySum(abilities: seq<RollAbility>): real
    decreases |abilities|
  {
    if |abilities| == 0 then 0.0
    else
      var a := abilities[|abilities| - 1];
      AbilitySum(abilities[..|abilities| - 1]) + (if a.isAbility then 1.0 else -1.0) * a.level
  }

  /** The threat value: the best defense (0 with none), 3 plus the signed
      ability levels of the best free attack if there is one, plus armor. */
  function ThreatValue(defenses: seq<real>, attacks: seq<AttackView>, armor: real): real
  {
    var d := if |defenses| > 0 then MaxOf(defenses) else 0.0;
    var best := BestAttack(attacks);
    var a := if best.Some? then 3.0 + AbilitySum(best.value.abilities) else 0.0;
    d + a + armor
  }

  /** `_calculateThreatValue`. */
  method CalculateThreatValue(defenses: seq<real>, attacks: seq<AttackView>, armor: real) returns (tv: real)
    ensures tv == ThreatValue(defenses, attacks, armor)
  {
    tv := 0.0;
    if |defenses| > 0 {
      var m := defenses[0];
      var i := 1;
      while i < |defenses|
        invariant 1 <= i <= |defenses|
        invariant m == MaxOf(defenses[..i])
      {
        assert defenses[..i + 1][..i] == defenses[..i];
        m := if defenses[i] >= m then defenses[i] else m;
        i := i + 1;
      }
      assert defenses[..i] == defenses;
      tv := tv + m;
    }
    var best := BestAttack(attacks);
    if best.Some? {
      tv := tv + 3.0;
      var abilities := best.value.abilities;
      var sum := 0.0;
      var j := 0;
      while j < |abilities|
        invariant 0 <= j <= |abilities|
        invariant sum == AbilitySum(abilities[..j])
      {
        assert abilities[..j + 1][..j] == abilities[..j];
        sum := sum + (if abilities[j].isAbility then 1.0 else -1.0) * abilities[j].level;
        j := j + 1;
      }
      assert abilities[..j] == abilities;
      tv := tv + sum;
    }
    tv := tv + armor;
  }

  /** The prefix of the store's `defenses` entries; an effect on the key
      `defenses.?` writes one of them. */
  const DEFENSES: string := "defenses."

  predicate IsDefenseKey(k: string)
  {
    |DEFENSES| <= |k| && k[..|DEFENSES|] == DEFENSES
  }

  /** `s.defenses` as the store holds it: its entries under `defenses.`. */
  function Defenses(store: map<string, real>): (d: map<string, real>)
    ensures forall k :: k in d <==> k in store && IsDefenseKey(k)
    ensures forall k :: k in d ==> d[k] == store[k]
  {
    map k | k in store && IsDefenseKey(k) :: store[k]
  }

  /** `ds` lists exactly the values of the store's defenses. */
  predicate ListsDefenses(ds: seq<real>, store: map<string, real>)
  {
    (set x | x in ds) == Defenses(store).Values
  }

  /** `Object.values(s.defenses ?? {})`: one value per defense key, in an
      order the model leaves open. */
  method DefenseValues(store: map<string, real>) returns (ds: seq<real>)
    ensures ListsDefenses(ds, store)
    ensures |ds| == |Defenses(store)|
  {
    var d := Defenses(store);
    var keys := d.Keys;
    ds := [];
    while keys != {}
      invariant keys <= d.Keys
      invariant |ds| + |keys| == |d|
      invariant forall k :: k in d && k !in keys ==> d[k] in ds
      invariant forall i :: 0 <= i < |ds| ==> exists k :: k in d && k !in keys && d[k] == ds[i]
      decreases |keys|
    {
      var k :| k in keys;
      ds := ds + [d[k]];
      keys := keys - {k};
    }
    forall v | v in d.Values ensures v in (set x | x in ds) {
      var k :| k in d && d[k] == v;
      var i :| 0 <= i < |ds| && ds[i] == v;
    }
  }

  /** A listing of the defenses is empty exactly when there are none. */
  lemma ListingEmpty(ds: seq<real>, store: map<string, real>)
    requires ListsDefenses(ds, store)
    ensures |ds| == 0 <==> Defenses(store) == map[]
  {
    var d := Defenses(store);
    if |ds| > 0 {
      assert ds[0] in (set x | x in ds);
      assert ds[0] in d.Values;
    }
    if d != map[] {
      var k :| k in d;
      assert d[k] in d.Values;
      var i :| 0 <= i < |ds| && ds[i] == d[k];
    }
  }

  /** The maximum of a list whose values all occur in another is at most
      the other's maximum. */
  lemma MaxOfBelow(xs: seq<real>, ys: seq<real>)
    requires |xs| > 0 && |ys| > 0
    requires forall i :: 0 <= i < |xs| ==> xs[i] in ys
    ensures MaxOf(xs) <= MaxOf(ys)
  {
    var i :| 0 <= i < |xs| && xs[i] == MaxOf(xs);
    var j :| 0 <= j < |ys| && ys[j] == xs[i];
  }

  /** Each value of one listing of the defenses occurs in any other. */
  lemma ListingsAgree(xs: seq<real>, ys: seq<real>, store: map<string, real>)
    requires ListsDefenses(xs, store) && ListsDefenses(ys, store)
    ensures forall i :: 0 <= i < |xs| ==> xs[i] in ys
  {
    forall i | 0 <= i < |xs| ensures xs[i] in ys {
      assert xs[i] in (set x | x in xs);
      assert xs[i] in Defenses(store).Values;
      assert xs[i] in (set x | x in ys);
    }
  }

  /** The threat value depends on the listed defenses only through their
      values: any listing of the store's defenses gives the same one. */
  lemma ThreatValueOfListing(ds1: seq<real>, ds2: seq<real>, store: map<string, real>,
                             attacks: seq<AttackView>, armor: real)
    requires ListsDefenses(ds1, store) && ListsDefenses(ds2, store)
    ensures ThreatValue(ds1, attacks, armor) == ThreatValue(ds2, attacks, armor)
  {
    ListingEmpty(ds1, store);
    ListingEmpty(ds2, store);
    if |ds1| > 0 {
      ListingsAgree(ds1, ds2, store);
      ListingsAgree(ds2, ds1, store);
      MaxOfBelow(ds1, ds2);
      MaxOfBelow(ds2, ds1);
    }
  }

  /** The defense part of the threat value is the best of the store's
      defenses, and 0 without one: an effect that raises a defense above
      the others raises the threat value with it. */
  lemma ThreatSeesDefenses(ds: seq<real>, store: map<string, real>, attacks: seq<AttackView>, armor: real)
    requires ListsDefenses(ds, store)
    ensures var rest := ThreatValue([], attacks, armor);
      && (forall k :: k in store && IsDefenseKey(k) ==> ThreatValue(ds, attacks, armor) >= store[k] + rest)
      && ((exists k :: k in store && IsDefenseKey(k)) ==>
            exists k :: k in store && IsDefenseKey(k) && ThreatValue(ds, attacks, armor) == store[k] + rest)
      && ((forall k :: k in store ==> !IsDefenseKey(k)) ==> ThreatValue(ds, attacks, armor) == rest)
  {
    var d := Defenses(store);
    var vs := set x | x in ds;
    ListingEmpty(ds, store);
    forall k | k in store && IsDefenseKey(k)
      ensures ThreatValue(ds, attacks, armor) >= store[k] + ThreatValue([], attacks, armor)
    {
      assert d[k] in vs;
      var i :| 0 <= i < |ds| && ds[i] == d[k];
    }
    if |ds| > 0 {
      var m := MaxOf(ds);
      var i :| 0 <= i < |ds| && ds[i] == m;
      assert m in vs;
      var k :| k in d && d[k] == m;
    }
    if d == map[] {
      assert ds == [];
    }
  }


  // ---------------------------------------------------------------------
  // Drama dice

  /** Free dice are spent first, the rest counts as used. */
  function DramaUse(free: real, used: real, amount: real): (r: (real, real))
    ensures r.0 == free - MinReal(free, amount)
    ensures r.1 == used + (amount - MinReal(free, amount))
  {
    var spentFree := MinReal(free, amount);
    (free - spentFree, used + (amount - spentFree))
  }

  /** Within the free dice nothing counts as used; beyond them all free dice
      are gone and the excess is used. Either way the amount is accounted
      for. */
  lemma DramaUseSpendsFreeFirst(free: real, used: real, amount: real)
    requires free >= 0.0 && amount >= 0.0
    ensures amount <= free ==> DramaUse(free, used, amount) == (free - amount, used)
    ensures amount > free ==> DramaUse(free, used, amount) == (0.0, used + amount - free)
    ensures (free - DramaUse(free, used, amount).0) + (DramaUse(free, used, amount).1 - used) == amount
    ensures DramaUse(free, used, amount).0 >= 0.0
  {
  }

  // ---------------------------------------------------------------------
  // The character

  /** The store after an update with `changes` went through `_preUpdate`. */
  function UpdatedStore(store: map<string, real>, changes: map<string, real>): map<string, real>
  {
    store + PreUpdated(changes, Get(store, HP), Get(store, END))
  }

  /** An update that does not touch the pools writes just its own values
      when the stored pools are set and not negative, and not both 0. */
  lemma UpdateWithSanePools(store: map<string, real>, changes: map<string, real>)
    requires HP !in changes && END !in changes && RESERVE !in changes
    requires Get(store, HP) >= 0.0 && Get(store, END) >= 0.0 && (Get(store, HP) > 0.0 || Get(store, END) > 0.0)
    ensures UpdatedStore(store, changes) == store + changes
  {
  }

  /** HP lost beyond what is left comes out of endurance, and only what
      both pools cannot cover is lost. */
  lemma DamageSpillsIntoEndurance(store: map<string, real>, amount: real)
    requires Get(store, HP) >= 0.0 && Get(store, END) >= 0.0
    requires amount < 0.0 && Get(store, HP) + amount < 0.0
    ensures var s := UpdatedStore(store, map[HP := Get(store, HP) + amount]);
      && s[HP] == 0.0
      && s[END] == MaxReal(Get(store, END) + Get(store, HP) + amount, 0.0)
  {
  }

  class OvaCharacter {
    const system: Effects.EffectTarget

    constructor (system: Effects.EffectTarget)
      ensures this.system == system
    {
      this.system := system;
    }

    /** `_preUpdate`. */
    method PreUpdate(changes: Changes)
      modifies changes
      ensures changes.values == PreUpdated(old(changes.values), Get(system.store, HP), Get(system.store, END))
    {
      var m := PreUpdateValues(changes.values, Get(system.store, HP), Get(system.store, END));
      changes.values := m;
    }

    /** `update`: the changes, after `_preUpdate`, written to the system
        data. */
    method Update(changes: Changes)
      modifies changes, system
      ensures system.store == UpdatedStore(old(system.store), old(changes.values))
      ensures system.item == old(system.item) && system.level == old(system.level)
      ensures system.changes == old(system.changes) && system.activeEffects == old(system.activeEffects)
    {
      PreUpdate(changes);
      system.store := system.store + changes.values;
    }

    /** `changeHP`: adds `amount` to HP through an update; 0 does nothing. */
    method ChangeHP(amount: real)
      modifies system
      ensures amount == 0.0 ==> system.store == old(system.store)
      ensures amount != 0.0 ==> system.store == UpdatedStore(old(system.store), map[HP := Get(old(system.store), HP) + amount])
      ensures system.item == old(system.item) && system.level == old(system.level)
    {
      if amount != 0.0 {
        var c := new Changes(map[HP := Get(system.store, HP) + amount]);
        Update(c);
      }
    }

    /** `changeEndurance`: adds `amount` to endurance, or to the endurance
        reserve, through an update; 0 does nothing. */
    method ChangeEndurance(amount: real, reserve: bool)
      modifies system
      ensures var path := if reserve then RESERVE else END;
        && (amount == 0.0 ==> system.store == old(system.store))
        && (amount != 0.0 ==> system.store == UpdatedStore(old(system.store), map[path := Get(old(system.store), path) + amount]))
      ensures system.item == old(system.item) && system.level == old(system.level)
    {
      if amount == 0.0 {
        return;
      }
      var path := if reserve then RESERVE else END;
      var current := Get(system.store, path);
      var c := new Changes(map[path := current + amount]);
      Update(c);
    }

    /** `giveFreeDramaDice`. */
    method GiveFreeDramaDice()
      modifies system
      ensures system.store == UpdatedStore(old(system.store), map[FREE := Get(old(system.store), FREE) + 1.0])
    {
      var c := new Changes(map[FREE := Get(system.store, FREE) + 1.0]);
      Update(c);
    }

    /** `resetUsedDramaDice`. */
    method ResetUsedDramaDice()
      modifies system
      ensures system.store == UpdatedStore(old(system.store), map[USED := 0.0, FREE := 0.0])
    {
      var c := new Changes(map[USED := 0.0, FREE := 0.0]);
      Update(c);
    }

    /** `useDramaDice`. */
    method UseDramaDice(amount: real)
      modifies system
      ensures var r := DramaUse(Get(old(system.store), FREE), Get(old(system.store), USED), amount);
        system.store == UpdatedStore(old(system.store), map[FREE := r.0, USED := r.1])
    {
      var free := MinReal(Get(system.store, FREE), amount);
      var used := amount - free;
      var c := new Changes(map[FREE := Get(system.store, FREE) - free, USED := Get(system.store, USED) + used]);
      Update(c);
    }

    /** `prepareBaseData`. */
    method PrepareBaseData()
      modifies system
      ensures system.store == BaseData(old(system.store))
      ensures system.item == old(system.item) && system.level == old(system.level)
    {
      system.store := BaseData(system.store);
    }

    /** The prepared effect lists of the active abilities applied in
        order, each by priority; `ok` is false where an effect formula
        throws, which ends the preparation. */
    method ApplyAbilityEffects(abilityEffects: seq<seq<Effects.SourcedEffect>>) returns (ok: bool)
      modifies system
      ensures Effects.Applied(system.State(), ok) == ApplyEach(old(system.State()), abilityEffects)
    {
      ok := true;
      var i := 0;
      while i < |abilityEffects| && ok
        invariant 0 <= i <= |abilityEffects|
        invariant Effects.Applied(system.State(), ok) == ApplyEach(old(system.State()), abilityEffects[..i])
      {
        assert abilityEffects[..i + 1][..i] == abilityEffects[..i];
        ok := system.ApplyByPriority(abilityEffects[i]);
        i := i + 1;
      }
      if !ok {
        ApplyEachStops(old(system.State()), abilityEffects, i);
      } else {
        assert abilityEffects[..i] == abilityEffects;
      }
    }

    /** The derived arithmetic on the system data, with the threat value
        computed from the store's defenses, the attack items and the armor. */
    method DeriveValues(attacks: seq<AttackView>)
      modifies system
      ensures exists ds :: ListsDefenses(ds, old(system.store)) &&
                           system.State() == old(system.State()).(store := Derived(old(system.store), ThreatValue(ds, attacks, Get(old(system.store), ARMOR))))
    {
      var s0 := system.store;
      var defenses := DefenseValues(s0);
      var threat := CalculateThreatValue(defenses, attacks, Get(s0, ARMOR));
      var s := s0[HP_MAX := Get(s0, HP_MAX) + Get(s0, HP_RESERVE_MAX)];
      if Get(s, HP) <= 0.0 || Get(s, END) <= 0.0 {
        s := s[GLOBAL_MOD := Get(s, GLOBAL_MOD) - 1.0];
      }
      s := s[TV := if Get(s0, TV) > 0.0 then Get(s0, TV) else threat];
      assert s == Derived(s0, threat);
      system.store := s;
      assert ListsDefenses(defenses, s0);
    }

    /** `prepareDerivedData`: the ability effects, then the derived
        arithmetic unless an effect threw. The threat value reads the
        defenses after the effects; `attacks` are the attack items as it
        reads them. */
    method PrepareDerivedData(abilityEffects: seq<seq<Effects.SourcedEffect>>,
                              attacks: seq<AttackView>) returns (ok: bool)
      modifies system
      ensures var r := ApplyEach(old(system.State()), abilityEffects);
        && ok == r.ok
        && (!ok ==> system.State() == r.state)
        && (ok ==> exists ds :: ListsDefenses(ds, r.state.store) &&
                                system.State() == r.state.(store := Derived(r.state.store, ThreatValue(ds, attacks, Get(r.state.store, ARMOR)))))
    {
      ok := ApplyAbilityEffects(abilityEffects);
      if ok {
        DeriveValues(attacks);
      }
    }
  }
}

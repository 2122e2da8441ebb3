/** Items of a character: perks attached to abilities and attacks, the
    endurance costs they add up to, the spell-cost table, limited uses,
    and the effect lists an item prepares. The character's items are an
    ordered collection of item data looked up by id. */
module Item {
  import opened Wrappers
  import opened Sorting
  import Text
  import Effects

  datatype LimitedUse = LimitedUse(value: int, max: int)

  /** An item's stored data: `level` is `system.level.value`,
      `enduranceCost` `system.enduranceCost`, and `perks`/`abilities` the
      ids of the perk and ability items it refers to. */
  datatype ItemData = ItemData(
    id: string, name: string, kind: string, level: int,
    enduranceCost: Option<real>, effects: seq<Effects.EffectData>,
    perks: seq<string>, abilities: seq<string>,
    active: bool, magic: bool, limitedUse: Option<LimitedUse>,
    isRoot: bool, rootId: Option<string>,
    flavor: Option<string>, values: map<string, real>)

  function MaxReal(a: real, b: real): real { if a >= b then a else b }

  /** The item as the source of an effect. */
  function SourceOf(it: ItemData): Effects.EffectSource
  {
    Effects.EffectSource(it.name, it.kind, it.id,
      Some(Effects.ItemSystem(it.values["level.value" := it.level as real], it.flavor)))
  }

  /** `actor.items.get(id)`. */
  function Find(items: seq<ItemData>, id: string): (r: Option<ItemData>)
    ensures r.Some? ==> r.value in items && r.value.id == id
    decreases |items|
  {
    if |items| == 0 then None
    else if items[0].id == id then Some(items[0])
    else Find(items[1..], id)
  }

  /** Every item with the id set to `f` of it. */
  function UpdateItem(items: seq<ItemData>, id: string, f: ItemData -> ItemData): (r: seq<ItemData>)
    ensures |r| == |items|
    ensures forall i :: 0 <= i < |items| ==> r[i] == (if items[i].id == id then f(items[i]) else items[i])
  {
    seq(|items|, i requires 0 <= i < |items| => if items[i].id == id then f(items[i]) else items[i])
  }

  /** The ids without `x`, the rest in order. */
  function Without(s: seq<string>, x: string): (r: seq<string>)
    ensures x !in r
    ensures forall y :: y in r <==> y in s && y != x
    decreases |s|
  {
    if |s| == 0 then []
    else (if s[0] == x then [] else [s[0]]) + Without(s[1..], x)
  }

  /** Removing is compatible with concatenation, so the ids that stay keep
      their order; an absent id changes nothing. */
  lemma {:induction false} WithoutKeepsOrder(a: seq<string>, b: seq<string>, x: string)
    ensures Without(a + b, x) == Without(a, x) + Without(b, x)
    ensures x !in a ==> Without(a, x) == a
    decreases |a|
  {
    if |a| == 0 {
      assert a + b == b;
    } else {
      var head := if a[0] == x then [] else [a[0]];
      assert (a + b)[0] == a[0];
      assert (a + b)[1..] == a[1..] + b;
      WithoutKeepsOrder(a[1..], b, x);
      calc {
        Without(a + b, x);
        head + Without(a[1..] + b, x);
        head + (Without(a[1..], x) + Without(b, x));
        (head + Without(a[1..], x)) + Without(b, x);
        Without(a, x) + Without(b, x);
      }
      if x !in a {
        assert x !in a[1..];
        assert a == [a[0]] + a[1..];
      }
    }
  }

  function WithoutItem(items: seq<ItemData>, id: string): (r: seq<ItemData>)
    ensures forall it :: it in r <==> it in items && it.id != id
    decreases |items|
  {
    if |items| == 0 then []
    else (if items[0].id == id then [] else [items[0]]) + WithoutItem(items[1..], id)
  }

  // ---------------------------------------------------------------------
  // Spell cost

  /** Rows by the magic ability's level, columns by the effect level. */
  const SpellCostTable: seq<seq<int>> := [
    [20, 30, 40, 50, 60],
    [10, 20, 30, 40, 50],
    [ 5, 10, 20, 30, 40],
    [ 2,  5, 10, 20, 30],
    [ 0,  2,  5, 10, 20]]

  /** `SPELL_COST[magic - 1]?.[effect - 1] ?? 0`. */
  function SpellCost(magicLevel: int, effectLevel: int): int
  {
    if 1 <= magicLevel <= 5 && 1 <= effectLevel <= 5 then SpellCostTable[magicLevel - 1][effectLevel - 1] else 0
  }

  /** A stronger effect never costs less, a stronger magic ability never
      more, and within the table each step of either level changes the
      cost. */
  lemma SpellCostMonotone(m1: int, m2: int, e1: int, e2: int)
    requires 1 <= m1 <= m2 <= 5 && 1 <= e1 <= e2 <= 5
    ensures SpellCost(m1, e1) <= SpellCost(m1, e2)
    ensures SpellCost(m1, e1) >= SpellCost(m2, e1)
    ensures e1 < e2 ==> SpellCost(m1, e1) < SpellCost(m1, e2)
    ensures m1 < m2 ==> SpellCost(m1, e1) > SpellCost(m2, e1)
    ensures 0 <= SpellCost(m2, e1) <= 60
  {
  }

  lemma SpellCostBounds(m: int, e: int)
    ensures 0 <= SpellCost(m, e) <= 60
  {
    if 1 <= m <= 5 && 1 <= e <= 5 {
      var row := SpellCostTable[m - 1];
      assert forall j :: 0 <= j < 5 ==> 0 <= row[j] <= 60;
    }
  }

  lemma SpellCostOutOfRange(m: int, e: int)
    requires !(1 <= m <= 5) || !(1 <= e <= 5)
    ensures SpellCost(m, e) == 0
  {
  }

  // ---------------------------------------------------------------------
  // Roll abilities

  /** `abilityIds.map(id => actor.items.get(id)).filter(a => a?.system.active)`. */
  function ListedAbilities(ids: seq<string>, items: seq<ItemData>): (r: seq<ItemData>)
    ensures forall a :: a in r ==> a.active && a.id in ids && a in items
    decreases |ids|
  {
    if |ids| == 0 then []
    else
      var f := Find(items, ids[0]);
      (if f.Some? && f.value.active then [f.value] else []) + ListedAbilities(ids[1..], items)
  }

  /** The sheet's selected abilities not already listed. */
  function Extra(selected: seq<ItemData>, ids: seq<string>): (r: seq<ItemData>)
    ensures forall a :: a in r <==> a in selected && a.id !in ids
    decreases |selected|
  {
    if |selected| == 0 then []
    else (if selected[0].id in ids then [] else [selected[0]]) + Extra(selected[1..], ids)
  }

  /** `_getRollAbilities`: the listed active abilities, then the abilities
      selected on the sheet (when the sheet offers a selection) that are not
      listed. */
  function RollAbilities(it: ItemData, items: seq<ItemData>, selected: Option<seq<ItemData>>): seq<ItemData>
  {
    ListedAbilities(it.abilities, items) + (if selected.Some? then Extra(selected.value, it.abilities) else [])
  }

  lemma RollAbilitiesSources(it: ItemData, items: seq<ItemData>, selected: Option<seq<ItemData>>)
    ensures forall a :: a in RollAbilities(it, items, selected) <==>
      (a in ListedAbilities(it.abilities, items)) || (selected.Some? && a in selected.value && a.id !in it.abilities)
    ensures forall a :: a in RollAbilities(it, items, selected) && a.id in it.abilities ==> a.active && a in items
    ensures selected.None? ==> RollAbilities(it, items, selected) == ListedAbilities(it.abilities, items)
  {
  }

  function FirstMagic(abs: seq<ItemData>): (r: Option<ItemData>)
    ensures r.Some? ==> r.value in abs && r.value.magic
    ensures r.None? <==> forall a :: a in abs ==> !a.magic
    decreases |abs|
  {
    if |abs| == 0 then None else if abs[0].magic then Some(abs[0]) else FirstMagic(abs[1..])
  }

  function LevelSum(abs: seq<ItemData>): int
    decreases |abs|
  {
    if |abs| == 0 then 0 else LevelSum(abs[..|abs| - 1]) + abs[|abs| - 1].level
  }

  /** `_prepareSpellData`'s endurance cost for the selected abilities. */
  function SpellEnduranceCost(abilities: seq<ItemData>): int
  {
    match FirstMagic(abilities)
    case None => 0
    case Some(m) => SpellCost(m.level, LevelSum(abilities))
  }

  /** A spell costs nothing without a selected magic ability; otherwise the
      table entry for the first magic ability's level and the summed levels
      of all selected abilities. */
  lemma SpellEnduranceCostSpec(abilities: seq<ItemData>)
    ensures (forall a :: a in abilities ==> !a.magic) ==> SpellEnduranceCost(abilities) == 0
    ensures FirstMagic(abilities).Some? ==>
      SpellEnduranceCost(abilities) == SpellCost(FirstMagic(abilities).value.level, LevelSum(abilities))
    ensures 0 <= SpellEnduranceCost(abilities) <= 60
  {
    if FirstMagic(abilities).Some? {
      SpellCostBounds(FirstMagic(abilities).value.level, LevelSum(abilities));
    }
  }

  // ---------------------------------------------------------------------
  // Perks

  function ByName(): (ItemData, ItemData) -> bool
  {
    (a: ItemData, b: ItemData) => Text.Leq(a.name, b.name)
  }

  lemma ByNameTotal()
    ensures TotalPreorder(ByName())
  {
    forall a: ItemData, b: ItemData ensures ByName()(a, b) || ByName()(b, a) {
      Text.LeqTotal(a.name, b.name);
    }
    forall a: ItemData, b: ItemData, c: ItemData | ByName()(a, b) && ByName()(b, c) ensures ByName()(a, c) {
      Text.LeqTransitive(a.name, b.name, c.name);
    }
  }

  /** The perk items of the character that the item lists, in the
      character's order. */
  function ListedPerks(items: seq<ItemData>, ids: seq<string>): (r: seq<ItemData>)
    ensures forall p :: p in r <==> p in items && p.kind == "perk" && p.id in ids
    decreases |items|
  {
    if |items| == 0 then []
    else (if items[0].kind == "perk" && items[0].id in ids then [items[0]] else []) + ListedPerks(items[1..], ids)
  }

  /** `actorPerks`, sorted by name. */
  function ActorPerks(it: ItemData, items: seq<ItemData>): seq<ItemData>
  {
    SortBy(ListedPerks(items, it.perks), ByName())
  }

  /** The effects of `src`'s data list, sourced by `src`. */
  function Sourced(src: ItemData, es: seq<Effects.EffectData>): (r: seq<Effects.SourcedEffect>)
    ensures |r| == |es|
    ensures forall i :: 0 <= i < |es| ==> r[i] == Effects.SourcedEffect(SourceOf(src), es[i])
  {
    seq(|es|, i requires 0 <= i < |es| => Effects.SourcedEffect(SourceOf(src), es[i]))
  }

  /** Each perk's effects, perk by perk. */
  function PerkEffects(ps: seq<ItemData>): seq<Effects.SourcedEffect>
    decreases |ps|
  {
    if |ps| == 0 then [] else PerkEffects(ps[..|ps| - 1]) + Sourced(ps[|ps| - 1], ps[|ps| - 1].effects)
  }

  /** `Σ level * (enduranceCost ?? 0)` over the perks. */
  function PerkCostSum(ps: seq<ItemData>): real
    decreases |ps|
  {
    if |ps| == 0 then 0.0
    else PerkCostSum(ps[..|ps| - 1]) + PerkCost(ps[|ps| - 1])
  }

  /** One perk's `level * (enduranceCost ?? 0)`. */
  function PerkCost(p: ItemData): real
  {
    p.level as real * p.enduranceCost.GetOr(0.0)
  }

  /** A perk or an ability adds its own effects after its perks'. */
  function OwnEffects(it: ItemData): seq<Effects.SourcedEffect>
  {
    if it.kind == "perk" || it.kind == "ability" then Sourced(it, it.effects) else []
  }

  /** What `_preparePerks` derives: the perks, the effect list and the
      endurance cost. */
  datatype PerkData = PerkData(perks: seq<ItemData>, ovaEffects: seq<Effects.SourcedEffect>, enduranceCost: real)

  /** Every perk effect comes from one of the perks, as one of its
      effects. */
  lemma {:induction false} PerkEffectsSources(ps: seq<ItemData>)
    ensures forall e :: e in PerkEffects(ps) ==> exists p :: p in ps && e.source == SourceOf(p) && e.data in p.effects
    decreases |ps|
  {
    if |ps| > 0 {
      var init := ps[..|ps| - 1];
      var last := ps[|ps| - 1];
      PerkEffectsSources(init);
      forall e | e in PerkEffects(ps) ensures exists p :: p in ps && e.source == SourceOf(p) && e.data in p.effects {
        if e in PerkEffects(init) {
          var p :| p in init && e.source == SourceOf(p) && e.data in p.effects;
          assert p in ps;
        } else {
          assert e in Sourced(last, last.effects);
          var i :| 0 <= i < |last.effects| && Sourced(last, last.effects)[i] == e;
          assert last in ps;
        }
      }
    }
  }

  /** The perks are exactly the listed perk items, ordered by name. */
  lemma ActorPerksSorted(it: ItemData, items: seq<ItemData>)
    ensures SortedBy(ActorPerks(it, items), ByName())
    ensures multiset(ActorPerks(it, items)) == multiset(ListedPerks(items, it.perks))
    ensures forall p :: p in ActorPerks(it, items) <==> p in items && p.kind == "perk" && p.id in it.perks
  {
    ByNameTotal();
    SortBySorted(ListedPerks(items, it.perks), ByName());
    SortByPermutes(ListedPerks(items, it.perks), ByName());
    forall p ensures p in ActorPerks(it, items) <==> p in ListedPerks(items, it.perks) {
      assert p in ActorPerks(it, items) <==> p in multiset(ActorPerks(it, items));
    }
  }

  /** The perks sorted by name, their effects perk by perk followed by the
      item's own, and the endurance cost of the item and its perks, never
      below 0. */
  function PerkDataOf(it: ItemData, items: seq<ItemData>): PerkData
  {
    var ps := ActorPerks(it, items);
    PerkData(ps, PerkEffects(ps) + OwnEffects(it), MaxReal(it.enduranceCost.GetOr(0.0) + PerkCostSum(ps), 0.0))
  }

  /** One perk's effects, sourced by the perk, appended to `effects`. */
  method AppendSourced(effects: seq<Effects.SourcedEffect>, perk: ItemData) returns (es: seq<Effects.SourcedEffect>)
    ensures es == effects + Sourced(perk, perk.effects)
  {
    es := effects;
    var j := 0;
    while j < |perk.effects|
      invariant 0 <= j <= |perk.effects|
      invariant |es| == |effects| + j
      invariant es[..|effects|] == effects
      invariant forall k :: 0 <= k < j ==> es[|effects| + k] == Effects.SourcedEffect(SourceOf(perk), perk.effects[k])
    {
      es := es + [Effects.SourcedEffect(SourceOf(perk), perk.effects[j])];
      j := j + 1;
    }
    assert es == effects + Sourced(perk, perk.effects) by {
      forall k | 0 <= k < |es| ensures es[k] == (effects + Sourced(perk, perk.effects))[k] {
        if k < |effects| {
          assert es[..|effects|][k] == es[k];
        }
      }
    }
  }

  /** `_preparePerks` over the item's perk list (an empty list gives no
      perks, no perk effects and the item's own cost). */
  method PreparePerks(it: ItemData, items: seq<ItemData>) returns (d: PerkData)
    ensures d.perks == ActorPerks(it, items)
    ensures d.ovaEffects == PerkEffects(d.perks) + OwnEffects(it)
    ensures d.enduranceCost == MaxReal(it.enduranceCost.GetOr(0.0) + PerkCostSum(d.perks), 0.0)
    ensures d == PerkDataOf(it, items)
  {
    var actorPerks := ActorPerks(it, items);
    var effects: seq<Effects.SourcedEffect> := [];
    var cost := it.enduranceCost.GetOr(0.0);
    var i := 0;
    while i < |actorPerks|
      invariant 0 <= i <= |actorPerks|
      invariant effects == PerkEffects(actorPerks[..i])
      invariant cost == it.enduranceCost.GetOr(0.0) + PerkCostSum(actorPerks[..i])
    {
      var perk := actorPerks[i];
      assert actorPerks[..i + 1][..i] == actorPerks[..i];
      cost := cost + PerkCost(perk);
      effects := AppendSourced(effects, perk);
      i := i + 1;
    }
    assert actorPerks[..i] == actorPerks;
    d := PerkData(actorPerks, effects + OwnEffects(it), MaxReal(cost, 0.0));
  }

  /** `_preparePerks` as written: with an empty perk list it returns before
      deriving anything, so the item has no effect list at all. */
  function PreparePerksAsWritten(it: ItemData, items: seq<ItemData>): (r: Option<PerkData>)
    ensures |it.perks| > 0 <==> r.Some?
    ensures r.Some? ==> r.value == PerkDataOf(it, items)
  {
    if |it.perks| == 0 then None else Some(PerkDataOf(it, items))
  }

  /** An ability with effects of its own but no perks: as written it derives
      no effect list, so the character applies none of its effects; prepared
      as intended it carries exactly its own effects. */
  method AbilityWithoutPerks(it: ItemData, items: seq<ItemData>) returns (d: PerkData)
    requires it.kind == "ability" && |it.perks| == 0 && |it.effects| > 0
    ensures PreparePerksAsWritten(it, items).None?
    ensures d.ovaEffects == Sourced(it, it.effects) && |d.ovaEffects| > 0
    ensures d.enduranceCost == MaxReal(it.enduranceCost.GetOr(0.0), 0.0)
  {
    d := PreparePerks(it, items);
    assert d.perks == [];
  }

  /** The endurance cost is never negative, and with no perk costs it is
      the item's own cost, raised to 0. */
  lemma PerkCostNonNegative(it: ItemData, ps: seq<ItemData>)
    ensures MaxReal(it.enduranceCost.GetOr(0.0) + PerkCostSum(ps), 0.0) >= 0.0
    ensures MaxReal(it.enduranceCost.GetOr(0.0) + PerkCostSum(ps), 0.0) >= it.enduranceCost.GetOr(0.0) + PerkCostSum(ps)
  {
  }

  /** Perks with no costs add nothing. */
  lemma {:induction false} PerkCostFree(ps: seq<ItemData>)
    requires forall p :: p in ps ==> p.enduranceCost.GetOr(0.0) == 0.0
    ensures PerkCostSum(ps) == 0.0
    decreases |ps|
  {
    if |ps| > 0 {
      assert forall p :: p in ps[..|ps| - 1] ==> p in ps;
      PerkCostFree(ps[..|ps| - 1]);
      assert ps[|ps| - 1] in ps;
    }
  }

  // ---------------------------------------------------------------------
  // Attack data

  /** What the attack reads of a prepared ability. */
  datatype AbilityDerived = AbilityDerived(ovaEffects: seq<Effects.SourcedEffect>, enduranceCost: Option<real>)

  function DerivedOf(derived: map<string, AbilityDerived>, id: string): AbilityDerived
  {
    if id in derived then derived[id] else AbilityDerived([], None)
  }

  /** The abilities' effects, ability by ability. */
  function AbilityEffects(abs: seq<ItemData>, derived: map<string, AbilityDerived>): seq<Effects.SourcedEffect>
    decreases |abs|
  {
    if |abs| == 0 then [] else AbilityEffects(abs[..|abs| - 1], derived) + DerivedOf(derived, abs[|abs| - 1].id).ovaEffects
  }

  function AbilityCosts(abs: seq<ItemData>, derived: map<string, AbilityDerived>): real
    decreases |abs|
  {
    if |abs| == 0 then 0.0 else AbilityCosts(abs[..|abs| - 1], derived) + DerivedOf(derived, abs[|abs| - 1].id).enduranceCost.GetOr(0.0)
  }

  /** The abilities' effects appended to `effects`, and their endurance
      costs added to `cost`. */
  method CollectAbilities(effects: seq<Effects.SourcedEffect>, cost: real, abilities: seq<ItemData>, derived: map<string, AbilityDerived>)
    returns (es: seq<Effects.SourcedEffect>, c: real)
    ensures es == effects + AbilityEffects(abilities, derived)
    ensures c == cost + AbilityCosts(abilities, derived)
  {
    es, c := effects, cost;
    var i := 0;
    while i < |abilities|
      invariant 0 <= i <= |abilities|
      invariant es == effects + AbilityEffects(abilities[..i], derived)
      invariant c == cost + AbilityCosts(abilities[..i], derived)
    {
      assert abilities[..i + 1][..i] == abilities[..i];
      var d := DerivedOf(derived, abilities[i].id);
      es := es + d.ovaEffects;
      c := c + d.enduranceCost.GetOr(0.0);
      i := i + 1;
    }
    assert abilities[..i] == abilities;
  }

  /** The perk stage of item preparation: as written (`fixed` false) it
      prepares nothing for an item without perks, corrected it always
      prepares. */
  function PreparedPerks(it: ItemData, items: seq<ItemData>, fixed: bool): Option<PerkData>
  {
    if fixed then Some(PerkDataOf(it, items)) else PreparePerksAsWritten(it, items)
  }

  /** The fields of an item object that preparation sets; `None` is a field
      not set yet. */
  datatype ItemFields = ItemFields(
    perks: Option<seq<ItemData>>, ovaEffects: Option<seq<Effects.SourcedEffect>>,
    enduranceCost: Option<real>, linked: Option<seq<ItemData>>, levelTotal: int)

  /** The fields after `_preparePerks`: the prepared perks, effects and cost,
      or the fields as they were when the stage prepares nothing. */
  function PerkStage(it: ItemData, items: seq<ItemData>, fixed: bool, f: ItemFields): ItemFields
  {
    var p := PreparedPerks(it, items, fixed);
    if p.None? then f
    else f.(perks := Some(p.value.perks), ovaEffects := Some(p.value.ovaEffects), enduranceCost := Some(p.value.enduranceCost))
  }

  /** The fields after `_prepareAbilityData`. */
  function AbilityStage(it: ItemData, items: seq<ItemData>, f: ItemFields): ItemFields
  {
    f.(levelTotal := it.level, linked := if it.isRoot then Some(Children(items, it.id)) else f.linked)
  }

  /** The fields after `_prepareSpellData`. */
  function SpellStage(it: ItemData, items: seq<ItemData>, selected: Option<seq<ItemData>>, f: ItemFields): ItemFields
  {
    var abs := RollAbilities(it, items, selected);
    f.(linked := Some(abs), enduranceCost := Some(SpellEnduranceCost(abs) as real))
  }

  /** The fields after `_prepareAttackData`; with no effect list set the
      stage throws after linking the abilities. The cost is set whenever the
      effect list is. */
  function AttackStage(it: ItemData, items: seq<ItemData>, selected: Option<seq<ItemData>>,
                       derived: map<string, AbilityDerived>, f: ItemFields): ItemFields
  {
    var abs := RollAbilities(it, items, selected);
    if f.ovaEffects.None? then f.(linked := Some(abs))
    else f.(linked := Some(abs),
            ovaEffects := Some(SortBy(f.ovaEffects.value + AbilityEffects(abs, derived), Effects.ByPriority())),
            enduranceCost := Some(AttackCost(f.enduranceCost, abs, derived)))
  }

  /** The attack's endurance cost: its own (0 when not set) and its roll
      abilities'. */
  function AttackCost(own: Option<real>, abs: seq<ItemData>, derived: map<string, AbilityDerived>): real
  {
    own.GetOr(0.0) + AbilityCosts(abs, derived)
  }

  /** The attack stage of fields whose effect list is set, from the roll
      abilities and the collected effects and cost. */
  lemma AttackStageSet(it: ItemData, items: seq<ItemData>, selected: Option<seq<ItemData>>,
                       derived: map<string, AbilityDerived>, f: ItemFields,
                       abs: seq<ItemData>, effects: seq<Effects.SourcedEffect>, cost: real)
    requires f.ovaEffects.Some? && f.enduranceCost.Some? && abs == RollAbilities(it, items, selected)
    requires effects == f.ovaEffects.value + AbilityEffects(abs, derived)
    requires cost == f.enduranceCost.value + AbilityCosts(abs, derived)
    ensures AttackStage(it, items, selected, derived, f)
      == f.(linked := Some(abs), ovaEffects := Some(SortBy(effects, Effects.ByPriority())), enduranceCost := Some(cost))
  {
    var r := AttackStage(it, items, selected, derived, f);
    assert r.linked == Some(abs);
    assert r.ovaEffects == Some(SortBy(effects, Effects.ByPriority()));
    assert r.enduranceCost == Some(AttackCost(f.enduranceCost, abs, derived));
    assert AttackCost(f.enduranceCost, abs, derived) == cost;
  }

  /** The per-type stage of `prepareDerivedData`. */
  function KindStage(it: ItemData, items: seq<ItemData>, selected: Option<seq<ItemData>>,
                     derived: map<string, AbilityDerived>, f: ItemFields): ItemFields
  {
    if it.kind == "ability" then AbilityStage(it, items, f)
    else if it.kind == "attack" then AttackStage(it, items, selected, derived, f)
    else if it.kind == "spell" then SpellStage(it, items, selected, f)
    else f
  }

  /** Whether the per-type stage throws: only an attack whose effect list is
      not set. */
  predicate KindStageThrows(it: ItemData, f: ItemFields)
  {
    it.kind == "attack" && f.ovaEffects.None?
  }

  /** `prepareDerivedData` of an item of a character. */
  function Prepare(it: ItemData, items: seq<ItemData>, selected: Option<seq<ItemData>>,
                   derived: map<string, AbilityDerived>, fixed: bool, f: ItemFields): ItemFields
  {
    KindStage(it, items, selected, derived, PerkStage(it, items, fixed, f))
  }

  /** What preparing an item of a character leaves: the perk stage's perks;
      the perk stage's effects and cost, unless the type's stage changes
      them; an ability's level total and its children; a spell's or
      attack's roll abilities, the spell's table cost, and the attack's
      effects and the abilities' added to them in priority order with
      their costs added, or, as written, a throw for an attack whose
      effect list was never set. */
  lemma PrepareSpec(it: ItemData, items: seq<ItemData>, selected: Option<seq<ItemData>>,
                    derived: map<string, AbilityDerived>, fixed: bool, f: ItemFields)
    ensures var g := PerkStage(it, items, fixed, f);
      var r := Prepare(it, items, selected, derived, fixed, f);
      var p := PreparedPerks(it, items, fixed);
      && g.linked == f.linked && g.levelTotal == f.levelTotal
      && (p.None? ==> g == f)
      && (p.Some? ==> g.perks == Some(p.value.perks) && g.ovaEffects == Some(p.value.ovaEffects)
                      && g.enduranceCost == Some(p.value.enduranceCost))
      && r.perks == g.perks
      && (it.kind != "attack" ==> r.ovaEffects == g.ovaEffects)
      && (it.kind != "attack" && it.kind != "spell" ==> r.enduranceCost == g.enduranceCost)
      && (it.kind == "ability" ==> r.levelTotal == it.level)
      && (it.kind == "ability" && it.isRoot ==> r.linked == Some(Children(items, it.id)))
      && (it.kind == "ability" && !it.isRoot ==> r.linked == f.linked)
      && (it.kind in {"spell", "attack"} ==> r.linked == Some(RollAbilities(it, items, selected)))
      && (it.kind == "spell" ==> r.enduranceCost == Some(SpellEnduranceCost(r.linked.value) as real))
      && (KindStageThrows(it, g) <==> it.kind == "attack" && g.ovaEffects.None?)
      && (it.kind == "attack" && g.ovaEffects.None? ==> r.ovaEffects.None? && r.enduranceCost == g.enduranceCost)
      && (it.kind == "attack" && g.ovaEffects.Some? ==>
            && r.ovaEffects == Some(SortBy(g.ovaEffects.value + AbilityEffects(r.linked.value, derived), Effects.ByPriority()))
            && r.enduranceCost == Some(AttackCost(g.enduranceCost, r.linked.value, derived)))
  {
  }

  /** As written, an item that lists no perks keeps whatever its perk
      fields held; corrected, the perk stage always sets them. */
  lemma PerkStageAsWritten(it: ItemData, items: seq<ItemData>, f: ItemFields)
    ensures |it.perks| == 0 ==> PerkStage(it, items, false, f) == f
    ensures |it.perks| > 0 ==> PerkStage(it, items, false, f) == PerkStage(it, items, true, f)
    ensures PerkStage(it, items, true, f).ovaEffects == Some(PerkDataOf(it, items).ovaEffects)
  {
  }

  /** An item of a character with its prepared data: its perks, its
      effects, its endurance cost, its linked abilities and its level. The
      first four are fields of the JavaScript object that only preparation
      sets; `None` is a field not set yet. */
  class OvaItem {
    var data: ItemData
    var perks: Option<seq<ItemData>>
    var ovaEffects: Option<seq<Effects.SourcedEffect>>
    var enduranceCost: Option<real>
    var linked: Option<seq<ItemData>>
    var levelTotal: int
    /** The item's own numbers as the target its attack effects write. */
    const target: Effects.EffectTarget

    function Fields(): ItemFields
      reads this
    {
      ItemFields(perks, ovaEffects, enduranceCost, linked, levelTotal)
    }

    /** The perk stage sets the effect list and the cost together. */
    predicate Prepared()
      reads this
    {
      ovaEffects.Some? ==> enduranceCost.Some?
    }

    /** A fresh item document: none of the prepared fields is set. */
    constructor (data: ItemData, target: Effects.EffectTarget)
      ensures this.data == data && this.target == target
      ensures Fields() == ItemFields(None, None, None, None, data.level)
      ensures Prepared()
    {
      this.data := data;
      this.target := target;
      perks := None;
      ovaEffects := None;
      enduranceCost := None;
      linked := None;
      levelTotal := data.level;
    }

    /** `_preparePerks`, as written or corrected. */
    method PreparePerksOf(items: seq<ItemData>, fixed: bool)
      modifies this`perks, this`ovaEffects, this`enduranceCost
      ensures Fields() == PerkStage(data, items, fixed, old(Fields()))
      ensures old(Prepared()) ==> Prepared()
    {
      if !fixed && |data.perks| == 0 {
        return;
      }
      var d := PreparePerks(data, items);
      perks, ovaEffects, enduranceCost := Some(d.perks), Some(d.ovaEffects), Some(d.enduranceCost);
    }

    /** `_prepareAbilityData`: the level modifier is reset to 0, and a root
        ability links the character's items that name it as their root. */
    method PrepareAbilityData(items: seq<ItemData>)
      modifies this`linked, this`levelTotal
      ensures Fields() == AbilityStage(data, items, old(Fields()))
    {
      if data.isRoot {
        linked := Some(Children(items, data.id));
      }
      levelTotal := data.level + 0;
    }

    /** `_prepareSpellData`. */
    method PrepareSpellData(items: seq<ItemData>, selected: Option<seq<ItemData>>)
      modifies this`linked, this`enduranceCost
      ensures Fields() == SpellStage(data, items, selected, old(Fields()))
    {
      var abilities := RollAbilities(data, items, selected);
      linked := Some(abilities);
      var cost := 0;
      var magic := FirstMagic(abilities);
      if magic.Some? {
        var effectLevel := LevelSum(abilities);
        cost := SpellCost(magic.value.level, effectLevel);
      }
      assert cost == SpellEnduranceCost(abilities);
      enduranceCost := Some(cost as real);
    }

    /** `_prepareAttackData`: the roll abilities' effects and endurance
        costs are added to the item's, then the effect list is sorted by
        priority and applied to the item. `ok` is false where JavaScript
        throws: on an effect list that was never set (`push` and `sort` of
        `undefined`), or where an effect formula throws. */
    method PrepareAttackData(items: seq<ItemData>, selected: Option<seq<ItemData>>, derived: map<string, AbilityDerived>)
      returns (ok: bool)
      requires Prepared()
      modifies this`linked, this`ovaEffects, this`enduranceCost, target
      ensures Fields() == AttackStage(data, items, selected, derived, old(Fields()))
      ensures old(ovaEffects).None? ==> !ok && unchanged(target)
      ensures old(ovaEffects).Some? ==>
        Effects.Applied(target.State(), ok) == Effects.ApplyAll(old(target.State()), ovaEffects.value)
      ensures Prepared()
    {
      ghost var f0 := Fields();
      var abilities := RollAbilities(data, items, selected);
      linked := Some(abilities);
      if ovaEffects.None? {
        ok := false;
        return;
      }
      var effects, cost := CollectAbilities(ovaEffects.value, enduranceCost.value, abilities, derived);
      ok := target.ApplyByPriority(effects);
      ovaEffects := Some(SortBy(effects, Effects.ByPriority()));
      enduranceCost := Some(cost);
      AttackStageSet(data, items, selected, derived, f0, abilities, effects, cost);
    }

    /** The per-type stage of `prepareDerivedData`, after the perks. */
    method PrepareKindData(items: seq<ItemData>, selected: Option<seq<ItemData>>, derived: map<string, AbilityDerived>)
      returns (ok: bool)
      requires Prepared()
      modifies this`ovaEffects, this`enduranceCost, this`linked, this`levelTotal, target
      ensures Prepared()
      ensures Fields() == KindStage(data, items, selected, derived, old(Fields()))
      ensures !(data.kind == "attack" && old(ovaEffects).Some?) ==>
        ok == !KindStageThrows(data, old(Fields())) && unchanged(target)
      ensures data.kind == "attack" && old(ovaEffects).Some? ==>
        Effects.Applied(target.State(), ok) == Effects.ApplyAll(old(target.State()), ovaEffects.value)
    {
      ok := true;
      if data.kind == "ability" {
        PrepareAbilityData(items);
      } else if data.kind == "attack" {
        ok := PrepareAttackData(items, selected, derived);
      } else if data.kind == "spell" {
        PrepareSpellData(items, selected);
      }
    }

    /** `prepareDerivedData`: nothing for an item outside a character;
        otherwise the perk stage, then the data of the item's type. `ok` is
        false where the attack stage throws. */
    method PrepareDerivedData(isEmbedded: bool, items: seq<ItemData>, selected: Option<seq<ItemData>>,
                              derived: map<string, AbilityDerived>, fixed: bool) returns (ok: bool)
      requires Prepared()
      modifies this`perks, this`ovaEffects, this`enduranceCost, this`linked, this`levelTotal, target
      ensures Prepared()
      ensures !isEmbedded ==> ok && unchanged(target) && Fields() == old(Fields())
      ensures isEmbedded ==> Fields() == Prepare(data, items, selected, derived, fixed, old(Fields()))
      ensures var g := PerkStage(data, items, fixed, old(Fields()));
        isEmbedded && !(data.kind == "attack" && g.ovaEffects.Some?) ==>
          ok == !KindStageThrows(data, g) && unchanged(target)
      ensures var g := PerkStage(data, items, fixed, old(Fields()));
        isEmbedded && data.kind == "attack" && g.ovaEffects.Some? ==>
          Effects.Applied(target.State(), ok) == Effects.ApplyAll(old(target.State()), ovaEffects.value)
    {
      ok := true;
      if !isEmbedded {
        return;
      }
      PreparePerksOf(items, fixed);
      ghost var g := Fields();
      ghost var state := target.State();
      assert state == old(target.State());
      ok := PrepareKindData(items, selected, derived);
    }

    /** `hasUses`. */
    predicate HasUses()
      reads this
    {
      UsesLeft(data)
    }
  }

  lemma NoListedPerks(items: seq<ItemData>)
    ensures ListedPerks(items, []) == []
  {
  }

  /** A freshly loaded attack item that lists no perks: as written its
      preparation throws, because its effect list was never set; corrected
      it carries exactly its roll abilities' effects in priority order. */
  method FreshAttackWithoutPerks(data: ItemData, items: seq<ItemData>, selected: Option<seq<ItemData>>,
                                 derived: map<string, AbilityDerived>, store: map<string, real>, fixed: bool)
    returns (ok: bool, effects: Option<seq<Effects.SourcedEffect>>)
    requires data.kind == "attack" && |data.perks| == 0
    ensures !fixed ==> !ok && effects.None?
    ensures fixed ==> effects == Some(SortBy(AbilityEffects(RollAbilities(data, items, selected), derived), Effects.ByPriority()))
  {
    var target := new Effects.EffectTarget(store);
    var item := new OvaItem(data, target);
    ok := item.PrepareDerivedData(true, items, selected, derived, fixed);
    effects := item.ovaEffects;
    if fixed {
      NoListedPerks(items);
      assert PerkDataOf(data, items).ovaEffects == [];
      assert [] + AbilityEffects(RollAbilities(data, items, selected), derived) == AbilityEffects(RollAbilities(data, items, selected), derived);
    }
  }

  /** A freshly loaded ability that lists no perks: as written its effect
      list stays unset, so the character applies none of its effects;
      corrected the list is exactly its own effects. */
  method FreshAbilityWithoutPerks(data: ItemData, items: seq<ItemData>, store: map<string, real>, fixed: bool)
    returns (effects: Option<seq<Effects.SourcedEffect>>)
    requires data.kind == "ability" && |data.perks| == 0
    ensures !fixed ==> effects.None?
    ensures fixed ==> effects == Some(Sourced(data, data.effects))
  {
    var target := new Effects.EffectTarget(store);
    var item := new OvaItem(data, target);
    var ok := item.PrepareDerivedData(true, items, None, map[], fixed);
    effects := item.ovaEffects;
    if fixed {
      NoListedPerks(items);
      assert ActorPerks(data, items) == [];
      assert PerkEffects([]) == [];
      assert PerkDataOf(data, items).ovaEffects == [] + Sourced(data, data.effects);
      assert [] + Sourced(data, data.effects) == Sourced(data, data.effects);
    }
  }

  /** The character's items whose root is `id`. */
  function Children(items: seq<ItemData>, id: string): (r: seq<ItemData>)
    ensures forall a :: a in r <==> a in items && a.rootId == Some(id)
    decreases |items|
  {
    if |items| == 0 then []
    else (if items[0].rootId == Some(id) then [items[0]] else []) + Children(items[1..], id)
  }

  /** Attack effects are applied in ascending priority. */
  lemma AttackEffectsByPriority(es: seq<Effects.SourcedEffect>)
    ensures var s := SortBy(es, Effects.ByPriority());
      && multiset(s) == multiset(es)
      && forall i, j :: 0 <= i < j < |s| ==> s[i].data.priority <= s[j].data.priority
  {
    SortByKeySorted(es, Effects.PriorityOf);
    assert Effects.ByPriority() == ByKey(Effects.PriorityOf);
  }

  // ---------------------------------------------------------------------
  // Limited uses

  /** No limited-use record, an unlimited one, or a use left. */
  predicate UsesLeft(it: ItemData)
  {
    it.limitedUse.None? || it.limitedUse.value.max <= 0 || it.limitedUse.value.value > 0
  }

  /** `use` returns at once when the record has no use left. */
  predicate Blocked(it: ItemData)
  {
    it.limitedUse.Some? && it.limitedUse.value.value <= 0
  }

  function Decrement(it: ItemData): (r: ItemData)
    ensures it.limitedUse.Some? ==> r.limitedUse == Some(LimitedUse(it.limitedUse.value.value - 1, it.limitedUse.value.max))
    ensures it.limitedUse.None? ==> r == it
    ensures r.(limitedUse := it.limitedUse) == it
  {
    match it.limitedUse
    case None => it
    case Some(u) => it.(limitedUse := Some(LimitedUse(u.value - 1, u.max)))
  }

  function LinkedIds(linkedOf: map<string, seq<string>>, id: string): seq<string>
  {
    if id in linkedOf then linkedOf[id] else []
  }

  /** `use` of item `id` and, in turn, of its linked abilities, down to
      `fuel` levels of links. */
  function UseCascade(items: seq<ItemData>, id: string, linkedOf: map<string, seq<string>>, fuel: nat): seq<ItemData>
    decreases fuel, 0, 0
  {
    match Find(items, id)
    case None => items
    case Some(it) =>
      if Blocked(it) then items
      else
        var decremented := UpdateItem(items, id, Decrement);
        if fuel == 0 then decremented else UseEach(decremented, LinkedIds(linkedOf, id), linkedOf, fuel - 1)
  }

  function UseEach(items: seq<ItemData>, ids: seq<string>, linkedOf: map<string, seq<string>>, fuel: nat): seq<ItemData>
    decreases fuel, 1, |ids|
  {
    if |ids| == 0 then items
    else UseCascade(UseEach(items, ids[..|ids| - 1], linkedOf, fuel), ids[|ids| - 1], linkedOf, fuel)
  }

  /** An item with no use left is not used and nothing else is either; an
      item without links has its own count decremented and nothing else
      changes. */
  lemma UseOnce(items: seq<ItemData>, id: string, linkedOf: map<string, seq<string>>, fuel: nat)
    requires Find(items, id).Some?
    ensures Blocked(Find(items, id).value) ==> UseCascade(items, id, linkedOf, fuel) == items
    ensures !Blocked(Find(items, id).value) && LinkedIds(linkedOf, id) == [] ==>
      UseCascade(items, id, linkedOf, fuel) == UpdateItem(items, id, Decrement)
  {
  }

  /** The ids a `use` of `id` may reach through `linkedOf` within `fuel`
      levels of links: `id` itself and what its linked abilities reach. */
  function Reached(id: string, linkedOf: map<string, seq<string>>, fuel: nat): set<string>
    decreases fuel, 0, 0
  {
    {id} + (if fuel == 0 then {} else ReachedEach(LinkedIds(linkedOf, id), linkedOf, fuel - 1))
  }

  function ReachedEach(ids: seq<string>, linkedOf: map<string, seq<string>>, fuel: nat): set<string>
    decreases fuel, 1, |ids|
  {
    if |ids| == 0 then {}
    else ReachedEach(ids[..|ids| - 1], linkedOf, fuel) + Reached(ids[|ids| - 1], linkedOf, fuel)
  }

  /** Taking a use of `x` leaves the item found under any other id. */
  lemma {:induction false} FindDecrementOther(items: seq<ItemData>, x: string, id: string)
    requires x != id
    ensures Find(UpdateItem(items, x, Decrement), id) == Find(items, id)
    decreases |items|
  {
    if |items| > 0 {
      var u := UpdateItem(items, x, Decrement);
      assert u[0].id == items[0].id;
      assert u[1..] == UpdateItem(items[1..], x, Decrement);
      FindDecrementOther(items[1..], x, id);
    }
  }

  /** A `use` cascade leaves every item it cannot reach as it was. */
  lemma {:induction false} UseLeavesUnreached(items: seq<ItemData>, x: string, linkedOf: map<string, seq<string>>, fuel: nat, id: string)
    requires id !in Reached(x, linkedOf, fuel)
    ensures Find(UseCascade(items, x, linkedOf, fuel), id) == Find(items, id)
    decreases fuel, 0, 0
  {
    match Find(items, x)
    case None =>
    case Some(it) =>
      if !Blocked(it) {
        var d := UpdateItem(items, x, Decrement);
        FindDecrementOther(items, x, id);
        if fuel > 0 {
          UseEachLeavesUnreached(d, LinkedIds(linkedOf, x), linkedOf, fuel - 1, id);
        }
      }
  }

  lemma {:induction false} UseEachLeavesUnreached(items: seq<ItemData>, ids: seq<string>, linkedOf: map<string, seq<string>>, fuel: nat, id: string)
    requires id !in ReachedEach(ids, linkedOf, fuel)
    ensures Find(UseEach(items, ids, linkedOf, fuel), id) == Find(items, id)
    decreases fuel, 1, |ids|
  {
    if |ids| > 0 {
      var front := ids[..|ids| - 1];
      UseEachLeavesUnreached(items, front, linkedOf, fuel, id);
      UseLeavesUnreached(UseEach(items, front, linkedOf, fuel), ids[|ids| - 1], linkedOf, fuel, id);
    }
  }

  /** Using an item with a use left, and a limited-use record, takes exactly
      one use and leaves it at 0 or more, whatever its links do, as long as
      they never lead back to it: a path back would use it again and take
      another of its uses. */
  lemma UseDecrements(items: seq<ItemData>, id: string, linkedOf: map<string, seq<string>>, fuel: nat)
    requires Find(items, id).Some? && Find(items, id).value.limitedUse.Some?
    requires !Blocked(Find(items, id).value)
    requires fuel > 0 ==> id !in ReachedEach(LinkedIds(linkedOf, id), linkedOf, fuel - 1)
    ensures var u := Find(items, id).value.limitedUse.value;
      && Find(UseCascade(items, id, linkedOf, fuel), id).Some?
      && Find(UseCascade(items, id, linkedOf, fuel), id).value.limitedUse == Some(LimitedUse(u.value - 1, u.max))
      && u.value - 1 >= 0
  {
    var d := UpdateItem(items, id, Decrement);
    FoundDecremented(items, id);
    var r := UseCascade(items, id, linkedOf, fuel);
    if fuel > 0 {
      assert r == UseEach(d, LinkedIds(linkedOf, id), linkedOf, fuel - 1);
      UseEachLeavesUnreached(d, LinkedIds(linkedOf, id), linkedOf, fuel - 1, id);
    } else {
      assert r == d;
    }
    assert Find(r, id) == Find(d, id);
  }

  /** The decremented record is found under its id. */
  lemma FoundDecremented(items: seq<ItemData>, id: string)
    requires Find(items, id).Some?
    ensures var it := Find(items, id).value;
      && Find(UpdateItem(items, id, Decrement), id).Some?
      && (it.limitedUse.Some? ==>
            Find(UpdateItem(items, id, Decrement), id).value.limitedUse == Some(LimitedUse(it.limitedUse.value.value - 1, it.limitedUse.value.max)))
  {
    var it := Find(items, id).value;
    assert Decrement(it).id == id;
    FindUpdated(items, id, Decrement);
  }

  lemma {:induction false} FindUpdated(items: seq<ItemData>, id: string, f: ItemData -> ItemData)
    requires Find(items, id).Some? && f(Find(items, id).value).id == id
    ensures Find(UpdateItem(items, id, f), id) == Some(f(Find(items, id).value))
    decreases |items|
  {
    if items[0].id != id {
      assert UpdateItem(items, id, f)[1..] == UpdateItem(items[1..], id, f);
      FindUpdated(items[1..], id, f);
    }
  }

  /** An item has uses iff a use would not return at once, or its record is
      unlimited. */
  lemma HasUsesIff(it: ItemData)
    ensures UsesLeft(it) <==> !Blocked(it) || it.limitedUse.value.max <= 0
  {
  }

  // ---------------------------------------------------------------------
  // Adding and removing perks

  /** The index of an entry of `current` whose perk has `perk.name`, as the
      name of entry `i` is read by `nameOf`; -1 when none has. */
  function NameIndex(current: seq<string>, nameOf: string -> Option<string>, name: string): (r: int)
    ensures -1 <= r < |current|
    ensures r >= 0 ==> nameOf(current[r]) == Some(name) && forall k :: 0 <= k < r ==> nameOf(current[k]) != Some(name)
    ensures r == -1 <==> forall k :: 0 <= k < |current| ==> nameOf(current[k]) != Some(name)
    decreases |current|
  {
    if |current| == 0 then -1
    else if nameOf(current[0]) == Some(name) then 0
    else
      var r := NameIndex(current[1..], nameOf, name);
      if r == -1 then -1 else r + 1
  }

  /** The stored perk list holds ids, and an id string has no `name`. */
  function IdName(id: string): Option<string> { None }

  /** The name of the character's item with that id. */
  function ItemName(items: seq<ItemData>): string -> Option<string>
  {
    (id: string) => match Find(items, id) case None => None case Some(p) => Some(p.name)
  }

  /** `addPerks`' split of the dropped perks: those to create, and the ids
      whose level rises, with the new level. */
  method SplitPerks(current: seq<string>, perks: seq<ItemData>, items: seq<ItemData>, nameOf: string -> Option<string>)
    returns (created: seq<ItemData>, raised: seq<(string, int)>)
    ensures created == Unmatched(current, perks, nameOf)
    ensures raised == Matched(current, perks, items, nameOf)
  {
    created := [];
    raised := [];
    var i := 0;
    while i < |perks|
      invariant 0 <= i <= |perks|
      invariant created == Unmatched(current, perks[..i], nameOf)
      invariant raised == Matched(current, perks[..i], items, nameOf)
    {
      SplitStep(current, perks, items, nameOf, i);
      var index := NameIndex(current, nameOf, perks[i].name);
      if index == -1 {
        created := created + [perks[i]];
        assert MatchOf(current, perks[i], items, nameOf) == [];
      } else {
        var existing := Find(items, current[index]);
        raised := raised + [(current[index], (if existing.Some? then existing.value.level else 0) + 1)];
        assert MatchOf(current, perks[i], items, nameOf) == [(current[index], (if existing.Some? then existing.value.level else 0) + 1)];
      }
      i := i + 1;
    }
    assert perks[..i] == perks;
  }

  /** One more dropped perk adds to one of the two lists. */
  lemma SplitStep(current: seq<string>, perks: seq<ItemData>, items: seq<ItemData>, nameOf: string -> Option<string>, i: nat)
    requires i < |perks|
    ensures var index := NameIndex(current, nameOf, perks[i].name);
      && Unmatched(current, perks[..i + 1], nameOf) ==
           Unmatched(current, perks[..i], nameOf) + (if index == -1 then [perks[i]] else [])
      && Matched(current, perks[..i + 1], items, nameOf) ==
           Matched(current, perks[..i], items, nameOf) + MatchOf(current, perks[i], items, nameOf)
  {
    UnmatchedLast(current, perks[..i + 1], nameOf);
    MatchedLast(current, perks[..i + 1], items, nameOf);
    assert perks[..i + 1][..i] == perks[..i];
  }

  /** What one dropped perk adds to the raised levels. */
  function MatchOf(current: seq<string>, perk: ItemData, items: seq<ItemData>, nameOf: string -> Option<string>): seq<(string, int)>
  {
    var index := NameIndex(current, nameOf, perk.name);
    if index == -1 then []
    else
      var existing := Find(items, current[index]);
      [(current[index], (if existing.Some? then existing.value.level else 0) + 1)]
  }

  lemma UnmatchedLast(current: seq<string>, perks: seq<ItemData>, nameOf: string -> Option<string>)
    requires |perks| > 0
    ensures var last := perks[|perks| - 1];
      Unmatched(current, perks, nameOf) ==
        Unmatched(current, perks[..|perks| - 1], nameOf) + (if NameIndex(current, nameOf, last.name) == -1 then [last] else [])
  {
  }

  lemma MatchedLast(current: seq<string>, perks: seq<ItemData>, items: seq<ItemData>, nameOf: string -> Option<string>)
    requires |perks| > 0
    ensures Matched(current, perks, items, nameOf) ==
      Matched(current, perks[..|perks| - 1], items, nameOf) + MatchOf(current, perks[|perks| - 1], items, nameOf)
  {
  }

  function Unmatched(current: seq<string>, perks: seq<ItemData>, nameOf: string -> Option<string>): (r: seq<ItemData>)
    ensures |r| <= |perks|
    decreases |perks|
  {
    if |perks| == 0 then []
    else
      var last := perks[|perks| - 1];
      Unmatched(current, perks[..|perks| - 1], nameOf) + (if NameIndex(current, nameOf, last.name) == -1 then [last] else [])
  }

  /** The perks created are exactly the dropped perks whose name no current
      perk has. */
  lemma {:induction false} UnmatchedMembers(current: seq<string>, perks: seq<ItemData>, nameOf: string -> Option<string>)
    ensures forall p :: p in Unmatched(current, perks, nameOf) <==> p in perks && NameIndex(current, nameOf, p.name) == -1
    decreases |perks|
  {
    if |perks| > 0 {
      var last := perks[|perks| - 1];
      UnmatchedMembers(current, perks[..|perks| - 1], nameOf);
      assert perks == perks[..|perks| - 1] + [last];
    }
  }

  function Matched(current: seq<string>, perks: seq<ItemData>, items: seq<ItemData>, nameOf: string -> Option<string>): seq<(string, int)>
    decreases |perks|
  {
    if |perks| == 0 then []
    else Matched(current, perks[..|perks| - 1], items, nameOf) + MatchOf(current, perks[|perks| - 1], items, nameOf)
  }

  /** As written no dropped perk ever matches an existing entry: every one
      is created anew and no level rises. */
  lemma {:induction false} AddPerksNeverMatches(current: seq<string>, perks: seq<ItemData>, items: seq<ItemData>)
    ensures Unmatched(current, perks, IdName) == perks
    ensures Matched(current, perks, items, IdName) == []
    decreases |perks|
  {
    if |perks| > 0 {
      AddPerksNeverMatches(current, perks[..|perks| - 1], items);
      assert perks[..|perks| - 1] + [perks[|perks| - 1]] == perks;
    }
  }

  /** Matching by the referenced items' names: a dropped perk that shares
      its name with a perk already on the item raises that perk's level by
      one and is not created. */
  lemma MatchedRaisesLevel(current: seq<string>, perk: ItemData, items: seq<ItemData>, i: int)
    requires 0 <= i < |current| && Find(items, current[i]).Some? && Find(items, current[i]).value.name == perk.name
    ensures Unmatched(current, [perk], ItemName(items)) == []
    ensures var k := NameIndex(current, ItemName(items), perk.name);
      && 0 <= k <= i
      && Find(items, current[k]).value.name == perk.name
      && Matched(current, [perk], items, ItemName(items)) == [(current[k], Find(items, current[k]).value.level + 1)]
  {
    var f := ItemName(items);
    assert f(current[i]) == Some(perk.name);
    var k := NameIndex(current, f, perk.name);
    assert k != -1;
    assert f(current[k]) == Some(perk.name);
    assert Find(items, current[k]).Some? && Find(items, current[k]).value.name == perk.name;
    SplitOne(current, perk, items, f);
    assert MatchOf(current, perk, items, f) == [(current[k], Find(items, current[k]).value.level + 1)];
  }

  /** A single dropped perk is either created or raises one level. */
  lemma SplitOne(current: seq<string>, perk: ItemData, items: seq<ItemData>, nameOf: string -> Option<string>)
    ensures Unmatched(current, [perk], nameOf) == (if NameIndex(current, nameOf, perk.name) == -1 then [perk] else [])
    ensures Matched(current, [perk], items, nameOf) == MatchOf(current, perk, items, nameOf)
  {
    UnmatchedLast(current, [perk], nameOf);
    MatchedLast(current, [perk], items, nameOf);
    assert [perk][..0] == [] && [perk][0] == perk;
  }

  function SetLevels(items: seq<ItemData>, raised: seq<(string, int)>): seq<ItemData>
    decreases |raised|
  {
    if |raised| == 0 then items
    else
      var r := raised[|raised| - 1];
      UpdateItem(SetLevels(items, raised[..|raised| - 1]), r.0, (it: ItemData) => it.(level := r.1))
  }

  function Zip(ps: seq<ItemData>, ids: seq<string>): (r: seq<ItemData>)
    requires |ids| >= |ps|
    ensures |r| == |ps|
    ensures forall i :: 0 <= i < |ps| ==> r[i] == ps[i].(id := ids[i])
  {
    seq(|ps|, i requires 0 <= i < |ps| => ps[i].(id := ids[i]))
  }

  function Ids(ps: seq<ItemData>): (r: seq<string>)
    ensures |r| == |ps| && forall i :: 0 <= i < |ps| ==> r[i] == ps[i].id
  {
    seq(|ps|, i requires 0 <= i < |ps| => ps[i].id)
  }

  /** The items after `addPerks` on item `itemId`: the unmatched perks
      created with the ids in `newIds`, in order, the matched perks one
      level higher, and the new ids appended to the item's list. */
  function PerksAdded(items: seq<ItemData>, itemId: string, perks: seq<ItemData>, newIds: seq<string>, fixed: bool): seq<ItemData>
    requires |newIds| >= |perks|
  {
    var current := match Find(items, itemId) case None => [] case Some(it) => it.perks;
    var nameOf := if fixed then ItemName(items) else IdName;
    var created := Zip(Unmatched(current, perks, nameOf), newIds);
    var raised := Matched(current, perks, items, nameOf);
    UpdateItem(SetLevels(items + created, raised), itemId, (it: ItemData) => it.(perks := current + Ids(created)))
  }

  /** The character's items, as a collection updated through its
      documents. */
  class ActorItems {
    var items: seq<ItemData>

    constructor (items: seq<ItemData>)
      ensures this.items == items
    {
      this.items := items;
    }

    /** `addPerks` on item `itemId` as written (`fixed` false) or matching
        the dropped perks by the names of the items its list refers to
        (`fixed` true). The created perks take the ids in `newIds`, in
        order; the matched perks' levels rise, then the new ids are appended
        to the item's list. */
    method AddPerks(itemId: string, perks: seq<ItemData>, newIds: seq<string>, fixed: bool)
      requires |newIds| >= |perks|
      modifies this
      ensures items == PerksAdded(old(items), itemId, perks, newIds, fixed)
    {
      var found := Find(items, itemId);
      var current := if found.Some? then found.value.perks else [];
      var nameOf := if fixed then ItemName(items) else IdName;
      var toCreate, raised := SplitPerks(current, perks, items, nameOf);
      var created := Zip(toCreate, newIds);
      items := items + created;
      items := SetLevels(items, raised);
      var perkIds := current + Ids(created);
      items := UpdateItem(items, itemId, (it: ItemData) => it.(perks := perkIds));
    }

    /** `removePerk`: an unknown perk does nothing; a perk above level 1
        loses a level; otherwise it is deleted and its id removed from the
        item's list. */
    method RemovePerk(itemId: string, perkId: string)
      modifies this
      ensures Find(old(items), perkId).None? ==> items == old(items)
      ensures Find(old(items), perkId).Some? && Find(old(items), perkId).value.level > 1 ==>
        var level := Find(old(items), perkId).value.level - 1;
        items == UpdateItem(old(items), perkId, (it: ItemData) => it.(level := level))
      ensures Find(old(items), perkId).Some? && Find(old(items), perkId).value.level <= 1 ==>
        var current := match Find(old(items), itemId) case None => [] case Some(it) => it.perks;
        items == UpdateItem(WithoutItem(old(items), perkId), itemId, (it: ItemData) => it.(perks := Without(current, perkId)))
    {
      var found := Find(items, itemId);
      var current := if found.Some? then found.value.perks else [];
      var perk := Find(items, perkId);
      if perk.None? {
        return;
      }
      if perk.value.level > 1 {
        var level := perk.value.level - 1;
        items := UpdateItem(items, perkId, (it: ItemData) => it.(level := level));
      } else {
        items := WithoutItem(items, perkId);
        var remaining := Without(current, perkId);
        items := UpdateItem(items, itemId, (it: ItemData) => it.(perks := remaining));
      }
    }

    /** `use` of item `id`, followed into its linked abilities as
        `linkedOf` gives them, `fuel` levels deep. */
    method Use(id: string, linkedOf: map<string, seq<string>>, fuel: nat)
      modifies this
      ensures items == UseCascade(old(items), id, linkedOf, fuel)
      decreases fuel
    {
      var found := Find(items, id);
      if found.None? || Blocked(found.value) {
        return;
      }
      items := UpdateItem(items, id, Decrement);
      if fuel == 0 {
        return;
      }
      ghost var start := items;
      var linked := LinkedIds(linkedOf, id);
      var i := 0;
      while i < |linked|
        invariant 0 <= i <= |linked|
        invariant items == UseEach(start, linked[..i], linkedOf, fuel - 1)
      {
        assert linked[..i + 1][..i] == linked[..i];
        Use(linked[i], linkedOf, fuel - 1);
        i := i + 1;
      }
      assert linked[..i] == linked;
    }
  }
}

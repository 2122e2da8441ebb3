/** Combat chat messages: a roll message carries its die term, the roll data
    flagged on it, the combat context it was rolled in, and what the
    resolution handlers showed on it. Drama dice are merged into an earlier
    roll message in place. */
module CombatMessage {
  import opened Wrappers
  import opened Sorting
  import opened Dice

  datatype RollType = Attack | Defense | Manual | Drama | Spell | OtherRoll

  /** The `(combatId, round, turn)` a message was rolled in. */
  datatype CombatContext = CombatContext(combatId: string, round: int, turn: int)

  datatype Verdict = Hit | Miss | Tie | Success | Failure

  /** What the chat handlers show on a message: its flavor text, which
      damage/heal/effect button is revealed and the roll arithmetic. */
  datatype Outcome =
    | NoOutcome
    | AttackDeclared
    | HealOffered
      /** take-damage is shown on a Failure, apply-damage on a Success. */
    | Countered(delta: int, verdict: Verdict, rawDamage: real)
    | DefenseUnopposed
      /** take-damage is shown on a Hit. */
    | Defended(delta: int, verdict: Verdict, rawDamage: real)
      /** the attack is activated and apply-effect shown iff `success`. */
    | SpellCast(result: int, dnShown: bool, success: bool)

  /** The `roll-data` flag of a message. It is a shared object: another
      message's `attack-roll-data` flag refers to the same record. */
  class RollData {
    var kind: RollType
    const roll: int
    const dx: real
    const result: int
    const ignoreArmor: real
    const dn: int
    const fatiguing: bool
    var miracle: bool
    var resultOverride: Option<int>

    constructor (kind: RollType, roll: int, dx: real, result: int, ignoreArmor: real, dn: int, fatiguing: bool)
      ensures this.kind == kind && this.roll == roll && this.dx == dx && this.result == result
      ensures this.ignoreArmor == ignoreArmor && this.dn == dn && this.fatiguing == fatiguing
      ensures !miracle && resultOverride == None
    {
      this.kind := kind;
      this.roll := roll;
      this.dx := dx;
      this.result := result;
      this.ignoreArmor := ignoreArmor;
      this.dn := dn;
      this.fatiguing := fatiguing;
      miracle := false;
      resultOverride := None;
    }
  }

  class Message {
    /** The speaker's actor id. */
    const author: int
    const isOwner: bool
    /** The first die term of the message's roll; `null` for a message
        without a roll. */
    const die: OvaDie?
    /** The `roll-data` flag; `null` when the message has none. */
    const rollData: RollData?
    /** The `miracle` flag set at creation. */
    const miracle: bool
    var formula: DiceFormula
    var total: int
    var combatData: Option<CombatContext>
    var attackRollData: RollData?
    var attackMessage: Message?
    var outcome: Outcome

    /** `OVACombatMessage.create`: a roll message carrying `rollData`; a
        drama roll of 6 dice is flagged as a miracle. */
    constructor Create(author: int, isOwner: bool, die: OvaDie, rollData: RollData)
      ensures this.author == author && this.isOwner == isOwner
      ensures this.die == die && this.rollData == rollData
      ensures miracle <==> rollData.kind == Drama && rollData.roll == 6
      ensures formula == DiceFormula(|die.results|, die.modifier) && total == die.Total()
      ensures combatData == None && attackRollData == null && attackMessage == null
      ensures outcome == NoOutcome
    {
      this.author := author;
      this.isOwner := isOwner;
      this.die := die;
      this.rollData := rollData;
      miracle := rollData.kind == Drama && rollData.roll == 6;
      formula := DiceFormula(|die.results|, die.modifier);
      total := die.Total();
      combatData := None;
      attackRollData := null;
      attackMessage := null;
      outcome := NoOutcome;
    }

    /** Any other chat message: plain text, or a roll without roll data. */
    constructor Other(author: int, isOwner: bool, die: OvaDie?)
      ensures this.author == author && this.isOwner == isOwner && this.die == die
      ensures rollData == null && !miracle
      ensures combatData == None && attackRollData == null && attackMessage == null
      ensures outcome == NoOutcome
    {
      this.author := author;
      this.isOwner := isOwner;
      this.die := die;
      rollData := null;
      miracle := false;
      formula := DiceFormula(0, Khs);
      total := 0;
      combatData := None;
      attackRollData := null;
      attackMessage := null;
      outcome := NoOutcome;
    }

    predicate IsRoll()
      reads this
    {
      die != null
    }

    /** `message.roll.result`: the total of the active dice. */
    function RollResult(): int
      reads this, die
      requires die != null
    {
      die.Total()
    }
  }

  function FaceKey(r: DieResult): int
  {
    r.result
  }

  /** `results.sort((a, b) => a.result - b.result)`. */
  function SortByFace(rs: seq<DieResult>): (r: seq<DieResult>)
    ensures |r| == |rs| && multiset(r) == multiset(rs)
    ensures forall i, j :: 0 <= i < j < |r| ==> r[i].result <= r[j].result
  {
    SortByKeySorted(rs, FaceKey);
    SortBy(rs, ByKey(FaceKey))
  }

  function Faces(rs: seq<DieResult>): (fs: seq<Face>)
    ensures |fs| == |rs|
    ensures forall i :: 0 <= i < |rs| ==> fs[i] == rs[i].result
  {
    seq(|rs|, i requires 0 <= i < |rs| => rs[i].result)
  }

  lemma FacesAppend(a: seq<DieResult>, b: seq<DieResult>)
    ensures Faces(a + b) == Faces(a) + Faces(b)
  {
  }

  /** `s.splice(0, n)`: the count is clamped into `[0, |s|]`; the removed
      prefix is returned and the rest stays. */
  function DeleteCount(len: int, n: int): (k: int)
    requires len >= 0
    ensures 0 <= k <= len
    ensures 0 <= n <= len ==> k == n
    ensures n < 0 ==> k == 0
    ensures n > len ==> k == len
  {
    if n < 0 then 0 else if n > len then len else n
  }

  /** Every result active again and none discarded, as the two flag loops
      of `addDramaDice` leave them. */
  function Activate(rs: seq<DieResult>): (m: seq<DieResult>)
    ensures |m| == |rs| && Faces(m) == Faces(rs)
    ensures forall i :: 0 <= i < |m| ==> m[i].active && !m[i].discarded
  {
    seq(|rs|, i requires 0 <= i < |rs| => rs[i].(active := true, discarded := false))
  }

  datatype Merge = Merge(pool: seq<DieResult>, modifier: Modifier)

  /** The pool and modifier `addDramaDice` hands to the host's modifier
      evaluation. */
  function MergeDice(orig: seq<DieResult>, om: Modifier, drama: seq<DieResult>): (m: Merge)
    ensures forall i :: 0 <= i < |m.pool| ==> m.pool[i].active && !m.pool[i].discarded
  {
    if om == Kl then
      var diff := |orig| - |drama|;
      var modifier := if diff <= 1 then Khs else Kl;
      if diff >= 1 then
        var sorted := SortByFace(orig);
        var k := DeleteCount(|sorted|, |drama| + 1);
        Merge(Activate(sorted[k..] + drama), modifier)
      else
        var totalDice := 2 - |orig| - |drama|;
        var sorted := SortByFace(drama);
        var k := DeleteCount(|sorted|, |drama| - totalDice);
        Merge(Activate(sorted[..k] + sorted[k..]), modifier)
    else
      Merge(Activate(orig + drama), om)
  }

  /** Without `kl` the drama dice are appended after the original dice and
      the modifier stays. */
  lemma MergeWithoutKeepLowest(orig: seq<DieResult>, drama: seq<DieResult>)
    ensures Faces(MergeDice(orig, Khs, drama).pool) == Faces(orig) + Faces(drama)
    ensures MergeDice(orig, Khs, drama).modifier == Khs
  {
    FacesAppend(orig, drama);
  }

  /** Under `kl` the modifier turns into `khs` exactly when the original
      pool has at most one die more than the drama roll. */
  lemma MergeKeepLowestModifier(orig: seq<DieResult>, drama: seq<DieResult>)
    ensures MergeDice(orig, Kl, drama).modifier == Khs <==> |orig| - |drama| <= 1
    ensures MergeDice(orig, Kl, drama).modifier == Kl <==> |orig| - |drama| >= 2
  {
  }

  /** With at least one die more in the original pool, its `drama + 1`
      lowest dice are dropped and the drama dice follow the rest, so the
      merged pool has one die less than the original one. */
  lemma MergeDropsLowest(orig: seq<DieResult>, drama: seq<DieResult>)
    requires |orig| - |drama| >= 1
    ensures |MergeDice(orig, Kl, drama).pool| == |orig| - 1
    ensures Faces(MergeDice(orig, Kl, drama).pool) == Faces(SortByFace(orig)[|drama| + 1..]) + Faces(drama)
    ensures multiset(SortByFace(orig)) == multiset(orig)
    ensures forall i, j :: 0 <= i <= |drama| < j < |orig| ==> SortByFace(orig)[i].result <= SortByFace(orig)[j].result
  {
    FacesAppend(SortByFace(orig)[|drama| + 1..], drama);
  }

  /** With no more original dice than drama dice the merged pool is exactly
      the drama dice in ascending order. */
  lemma MergeTakesSortedDrama(orig: seq<DieResult>, drama: seq<DieResult>)
    requires |orig| - |drama| < 1
    ensures Faces(MergeDice(orig, Kl, drama).pool) == Faces(SortByFace(drama))
    ensures |MergeDice(orig, Kl, drama).pool| == |drama|
    ensures forall i, j :: 0 <= i < j < |drama| ==> MergeDice(orig, Kl, drama).pool[i].result <= MergeDice(orig, Kl, drama).pool[j].result
  {
    var sorted := SortByFace(drama);
    var k := DeleteCount(|sorted|, |drama| - (2 - |orig| - |drama|));
    assert sorted[..k] + sorted[k..] == sorted;
  }

  /** The sorting, splicing, appending and the two flag loops of
      `addDramaDice`, on the original results `results` with modifier
      `modifier` and the drama results `dramaResults`. */
  method MergeResults(orig: seq<DieResult>, om: Modifier, drama: seq<DieResult>)
    returns (results: seq<DieResult>, modifier: Modifier)
    ensures Merge(results, modifier) == MergeDice(orig, om, drama)
  {
    var dramaResults := drama;
    results, modifier := orig, om;
    if modifier == Kl {
      var diff := |results| - |dramaResults|;
      if diff <= 1 {
        modifier := Khs;
      }
      if diff >= 1 {
        var toRemove := |dramaResults| + 1;
        results := SortByFace(results);
        var k := DeleteCount(|results|, toRemove);
        results := results[k..];
      } else {
        var totalDice := 2 - |results| - |dramaResults|;
        dramaResults := SortByFace(dramaResults);
        var k := DeleteCount(|dramaResults|, |dramaResults| - totalDice);
        results, dramaResults := dramaResults[..k], dramaResults[k..];
      }
    }
    assert MergeDice(orig, om, drama) == Merge(Activate(results + dramaResults), modifier);
    results := ResetFlags(results, dramaResults);
  }

  /** `addDramaDice`'s two flag loops: the kept original dice lose their
      discarded mark, the drama dice are appended, and every die of the
      pool is then active and not discarded. */
  method ResetFlags(kept: seq<DieResult>, dramaResults: seq<DieResult>) returns (results: seq<DieResult>)
    ensures results == Activate(kept + dramaResults)
  {
    ghost var pool := kept + dramaResults;
    results := kept;
    var i := 0;
    while i < |results|
      invariant 0 <= i <= |results| == |pool| - |dramaResults|
      invariant Faces(results + dramaResults) == Faces(pool)
      invariant forall j :: 0 <= j < i ==> !results[j].discarded
    {
      results := results[i := results[i].(discarded := false)];
      i := i + 1;
    }
    results := results + dramaResults;

    i := 0;
    while i < |results|
      invariant 0 <= i <= |results| == |pool|
      invariant Faces(results) == Faces(pool)
      invariant forall j :: 0 <= j < i ==> results[j].active && !results[j].discarded
    {
      results := results[i := results[i].(discarded := false, active := true)];
      i := i + 1;
    }
    ActivatedIsActivate(results, pool);
  }

  /** `addDramaDice`: merges the drama roll's dice into the original roll
      in place, re-applies the keep rule and rewrites formula and total. */
  method AddDramaDice(originalRoll: Message, dramaRoll: Message)
    requires originalRoll.die != null && dramaRoll.die != null
    requires originalRoll.die != dramaRoll.die
    modifies originalRoll`formula, originalRoll`total, originalRoll.die
    ensures originalRoll.die.modifier == MergeDice(old(originalRoll.die.results), old(originalRoll.die.modifier), old(dramaRoll.die.results)).modifier
    ensures originalRoll.die.results == Evaluate(MergeDice(old(originalRoll.die.results), old(originalRoll.die.modifier), old(dramaRoll.die.results)).pool, originalRoll.die.modifier)
    ensures originalRoll.formula == DiceFormula(|MergeDice(old(originalRoll.die.results), old(originalRoll.die.modifier), old(dramaRoll.die.results)).pool|, originalRoll.die.modifier)
    ensures originalRoll.total == ActiveTotal(originalRoll.die.results)
  {
    var originalDice := originalRoll.die;
    originalDice.results, originalDice.modifier := MergeResults(originalDice.results, originalDice.modifier, dramaRoll.die.results);
    originalDice.EvaluateModifiers();
    originalRoll.formula := DiceFormula(|originalDice.results|, originalDice.modifier);
    originalRoll.total := originalDice.Total();
  }

  /** A pool whose dice are all active and undiscarded is fixed by its faces. */
  lemma ActivatedIsActivate(rs: seq<DieResult>, pool: seq<DieResult>)
    requires Faces(rs) == Faces(pool)
    requires forall j :: 0 <= j < |rs| ==> rs[j].active && !rs[j].discarded
    ensures rs == Activate(pool)
  {
    assert |rs| == |Faces(rs)| == |pool|;
    forall j | 0 <= j < |rs| ensures rs[j] == Activate(pool)[j] {
      assert Faces(rs)[j] == Faces(pool)[j];
    }
  }
}

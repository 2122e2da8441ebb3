# OVA Foundry system core, modelled in Dafny

This project models the rules core of the OVA (Open Versatile Anime) game
system for Foundry VTT and proves properties of that model:

- **Dice** (`dice.dfy`): the `khs` ("keep highest sum") die term, which keeps
  every die of the face whose dice add up to the most, the host's `kl` term,
  and the pool rule shared by chat commands, the roll dialog and initiative.
- **Combat messages** (`combat_message.dfy`): roll messages and the merge of
  drama dice into an earlier roll.
- **Combat chat** (`chat.dfy`): the `/attack` and `/defense` chat commands and
  the state machine that tracks the last roll and the pending attack, and
  resolves defenses, counters, spells and drama rolls against them.
- **Damage** (`damage.dfy`): the apply-damage dialog, which turns an attack
  and a defense into HP or endurance loss through armour, armour piercing,
  resistances and vulnerabilities, or into healing.
- **Effects** (`effects.dfy`): item effects applied to a character's data:
  key wildcards, the five change modes, the formula evaluator with `@`
  references, priority ordering, and active-effect building with over-time
  flags.
- **Durations** (`duration.dfy`): the remaining duration of an active effect
  and its label.
- **Characters** (`character.dfy`): pool spill-over on update, base and
  derived data, the threat value, drama dice, HP and endurance changes.
- **Items** (`item.dfy`): perk preparation, spell and attack data, linked
  abilities, limited uses, and adding and removing perks.
- **Roll dialog** (`roll_prompt.dfy`), **initiative** (`combatant.dfy`),
  **template helpers** (`helpers.dfy`) and the **item sheet's** effect list,
  drop handler and form reshaping (`item_sheet.dfy`).

`wrappers.dfy` (Option), `text.dfy` (digits, number text, code-point order)
and `sorting.dfy` (the stable sort that stands for `Array.prototype.sort`)
are shared helpers.

State the source changes in place is a Dafny `class`: a die term, a message,
the combat session, the damage dialog, an effect target, a character, an
item, the character's item list, the roll dialog, the perk holder and the
item sheet. Each loop of the source is a method with a `while` loop proved
against a specification function. The properties of that function are
stated as lemmas.

At these places the model follows the code as written:

- a defense does not clear the pending attack (module/chat/chat.js:189-218);
- an attack that arrives while an attack from a different author is pending
  is a counter (module/chat/chat.js:124-127);
- the drama handler checks that the last roll is owned
  (module/chat/chat.js:115-120);
- when a `kl` roll has fewer dice than drama dice plus two, the merged pool is
  the sorted drama dice alone (module/chat/combat-message.js:58-62);
- the apply-damage dialog seeds every resistance as not affected and unable
  to heal: it reads `canHeal` from a number, which gives `undefined`
  (module/dialogs/apply-damage-prompt.js:5-27);
- `addAttackEffects` is called (module/chat/chat.js:248,
  module/dialogs/apply-damage-prompt.js:145-149) but not defined on a
  character in these files, so handing attack effects to a target is not
  modelled.

Where the code has a defect listed under "## Findings", the model states the
code as written and, beside it, the corrected behaviour. The item class takes
a `fixed` flag that picks one of the two: `fixed` false is the code as written.

## Model

| member | source | states |
|---|---|---|
| Dice.PoolFormula | module/chat/chat.js:43-48 | a pool of `n` dice rolls `n` dice kept by highest sum when `n > 0`, else `2 - n` dice (at least two) kept lowest |
| Dice.GroupSumIsFaceTimesCount | module/dice/ova-die.js:13-16 | each face's accumulated sum is the face times the number of dice showing it |
| Dice.GroupSumOfPresent | module/dice/ova-die.js:13-16 | the group of a face that was rolled sums to at least that face |
| Dice.GroupSumOfSameFaces | module/dice/ova-die.js:13-16 | the group sums depend on the faces only, not on the active or discarded flags |
| Dice.BestFaceUnique | module/dice/ova-die.js:19-27 | at most one face has the largest group sum with every smaller face strictly below it |
| Dice.ScanFacesFindsBest | module/dice/ova-die.js:19-27 | the ascending scan with a strict `>` ends on the face of largest group sum, the smallest such face on a tie, or 0 when nothing was rolled |
| Dice.KeptFaceIsBest | module/dice/ova-die.js:19-27 | the kept face is 0 exactly for an empty pool; otherwise it has the largest group sum and wins ties by being the smallest |
| Dice.ScanFacesOfEmpty | module/dice/ova-die.js:19-27 | an empty pool keeps no face |
| Dice.KeptFaceOfSameFaces | module/dice/ova-die.js:11-27 | pools with the same faces keep the same face whatever their flags |
| Dice.MarkKept | module/dice/ova-die.js:30-38 | the pool keeps its length and each die is marked by the kept face alone |
| Dice.ActiveTotalOfMarkKept | module/dice/ova-die.js:19-38 | after marking, the active dice sum to the kept face's group sum |
| Dice.KeepHighestSumFlags | module/dice/ova-die.js:11-39 | only flags change; a die is active and not discarded iff it shows the kept face; a non-empty pool keeps a die; the active total is the highest group sum |
| Dice.KeepHighestSumIdempotent | module/dice/ova-die.js:11-39 | keeping the highest sum twice gives the flags of keeping it once |
| Dice.LowestIndex | module/chat/chat.js:48 | the host's `kl` keeps the last die showing the lowest face: every die before it shows at least that face, every die after it a higher one |
| Dice.MarkLowest | module/chat/chat.js:48 | under `kl` exactly one die, the last showing the lowest face, stays active and every other is discarded; faces are kept |
| Dice.KeepLowestTotal | module/chat/chat.js:48 | under `kl` the total is the pool's lowest face |
| Dice.SumsByFace | module/dice/ova-die.js:13-16 | the first loop's map holds exactly the rolled faces, each with its group sum |
| Dice.HighestFace | module/dice/ova-die.js:19-27 | the second loop returns 0 and 0 for no faces, otherwise a face whose sum is the largest and beats every smaller face strictly |
| Dice.HighestFaceIsKept | module/dice/ova-die.js:19-27 | what the two loops find is the kept face of the specification |
| Dice.OvaDie.constructor | module/dice/ova-die.js:2-8 | a term holds its freshly rolled results with the modifier applied |
| Dice.OvaDie.KeepHighestSum | module/dice/ova-die.js:11-39 | the in-place loops leave the results the specification's `khs` marking gives and the modifier unchanged |
| Dice.OvaDie.EvaluateModifiers | module/chat/combat-message.js:73 | the term's results are re-marked by its modifier |
| CombatMessage.RollData.constructor | module/chat/chat.js:54-62 | roll data starts with no miracle and no result override |
| CombatMessage.Message.Create | module/chat/combat-message.js:5-36 | a roll message records author, die and roll data; it is a miracle iff a drama roll of 6; formula and total come from the die |
| CombatMessage.Message.Other | module/chat/combat-message.js:1-2 | a message without roll data carries no miracle, combat context or outcome |
| CombatMessage.SortByFace | module/chat/combat-message.js:56-60 | sorting by face is a permutation into ascending face order |
| CombatMessage.Faces | module/chat/combat-message.js:44-45 | the faces of a result list, in order |
| CombatMessage.FacesAppend | module/chat/combat-message.js:66 | the faces of two lists pushed together are the two face lists joined |
| CombatMessage.DeleteCount | module/chat/combat-message.js:57-61 | `splice`'s delete count is clamped to the list length |
| CombatMessage.Activate | module/chat/combat-message.js:65-71 | every result becomes active and not discarded, faces unchanged |
| CombatMessage.MergeDice | module/chat/combat-message.js:43-71 | every die of the merged pool is active and not discarded |
| CombatMessage.MergeWithoutKeepLowest | module/chat/combat-message.js:48-66 | a `khs` roll keeps its modifier and gains the drama dice after its own |
| CombatMessage.MergeKeepLowestModifier | module/chat/combat-message.js:48-51 | a `kl` roll turns into `khs` iff it has at most one die more than the drama dice |
| CombatMessage.MergeDropsLowest | module/chat/combat-message.js:53-66 | with at least one die more, the drama count plus one lowest dice are dropped and the drama dice follow |
| CombatMessage.MergeTakesSortedDrama | module/chat/combat-message.js:58-62 | otherwise the pool is the drama dice sorted ascending, the slice keeping them all |
| CombatMessage.MergeResults | module/chat/combat-message.js:47-71 | the step-by-step merge gives the specification's pool and modifier |
| CombatMessage.ResetFlags | module/chat/combat-message.js:65-71 | after the two flag loops the merged pool is the kept dice followed by the drama dice, each active and not discarded |
| CombatMessage.AddDramaDice | module/chat/combat-message.js:43-75 | the original roll takes the merged modifier, the merged pool re-marked, the new formula and the resulting total |
| CombatMessage.ActivatedIsActivate | module/chat/combat-message.js:68-71 | a list with the pool's faces, all active and not discarded, is the activated pool |
| Chat.WordLength | module/chat/chat.js:37 | the leading run of characters outside JavaScript's `\s` set (ASCII white space including `\v` and `\f`, no-break and the other Unicode spaces, line and paragraph separators, byte-order mark), ended by such a character or the end |
| Chat.Tokens | module/chat/chat.js:37 | every token of `/(\S+)/g` is a non-empty run with no JavaScript white space |
| Chat.WordLengthOfWord | module/chat/chat.js:37 | a word followed by a space or the end is read whole |
| Chat.TokensOfJoin | module/chat/chat.js:37 | splitting words joined by single spaces yields the words |
| Chat.CommandKind | module/chat/chat.js:38-52 | `/d` and `/defense` are defenses, `/a` and `/attack` attacks, nothing else is a command |
| Chat.CommandPassThrough | module/chat/chat.js:37-39 | a line is left to the chat exactly when it has no first word or the first word is not a command |
| Chat.CommandDefaults | module/chat/chat.js:41-48 | a bare command rolls 2 dice by highest sum with dx 1 |
| Chat.CommandCount | module/chat/chat.js:41-52 | `/a n dx`: a count `n <= 0` becomes `2 - n` dice kept lowest, otherwise `n` dice by highest sum; the recorded roll is the dice count; dx is the number the third word reads as |
| Chat.CommandIntegerDx | module/chat/chat.js:41 | an integer multiplier word reads as that integer |
| Chat.CommandFractionalDx | module/chat/chat.js:37-52 | `/a 3 0.5` rolls 3 dice by highest sum with dx 0.5 |
| Text.UnsignedDecimal | module/chat/chat.js:41 | a digits-and-dot word has a non-negative value |
| Text.ParseDecimal | module/chat/chat.js:41 | a negative value only comes from a `-` word, and `-` negates the unsigned reading |
| Text.ParseDecimalOfIntToString | module/chat/chat.js:41 | an integer's rendering reads back as its value |
| Text.ParseDecimalFraction | module/chat/chat.js:41 | `0.5` reads as 0.5, as `Number` reads it |
| Text.ParseDecimalPlus | module/chat/chat.js:41 | `+2` reads as 2, as `Number` reads it |
| Text.ParseDecimalEdges | module/chat/chat.js:41 | `.5` reads as 0.5, and a dot or a sign alone is no number |
| Chat.RunCommand | module/chat/chat.js:36-72 | a command posts a fresh roll message with the command's dice, type, roll, dx and result, zero armour piercing and difficulty; any other line passes through |
| Chat.OpposedDelta | module/chat/chat.js:150-199 | attack minus response, at least 1 for an attack miracle, at most -1 for a response miracle, 0 for both |
| Chat.RawDamage | module/chat/chat.js:180-207 | the shown raw damage is the product when positive, else 0 |
| Chat.CounterOutcome | module/chat/chat.js:158-180 | a positive delta is a failure dealing the attack's damage, a negative one a success dealing the counter's, 0 a tie with none |
| Chat.DefenseOutcome | module/chat/chat.js:196-207 | hit iff the delta is positive, miss iff negative, tie iff 0; raw damage is delta times the attack's dx, not below 0 |
| Chat.SpellMargin | module/chat/chat.js:224-225 | the margin is result minus difficulty, raised to at least 1 on a miracle |
| Chat.SpellSucceeds | module/chat/chat.js:224-235 | a spell succeeds iff it is a miracle or meets its difficulty |
| Chat.SpellOutcome | module/chat/chat.js:220-241 | the spell's verdict shows only for a positive difficulty; success as above |
| Chat.UpdatedContext | module/chat/chat.js:99-105 | a message's recorded combat is kept once set, otherwise the active combat is recorded |
| Chat.StepIgnores | module/chat/chat.js:74-79 | a message without a roll or without roll data only clears the slots if the log is empty |
| Chat.StepEmptyLog | module/chat/chat.js:75-96 | with an empty log the slots hold at most the new message |
| Chat.StepAborts | module/chat/chat.js:107-110 | with a previous roll, a missing combat record on either message stops the handler |
| Chat.StepLastRoll | module/chat/chat.js:83-84 | every handled roll but drama becomes the last roll |
| Chat.StepContextChange | module/chat/chat.js:107-112 | a combat record differing from the last roll's drops the pending attack |
| Chat.StepAttack | module/chat/chat.js:122-131 | an attack with `dx >= 0` becomes pending unless a pending attack from another author makes it a counter |
| Chat.StepKeepsPending | module/chat/chat.js:83-139 | heals, defenses, manual rolls, spells and drama leave the pending attack as it was |
| Chat.StepReclassifiesManual | module/chat/chat.js:86 | a manual roll is handled as a defense exactly when an attack is pending |
| Chat.StepDrama | module/chat/chat.js:83-84 | in an unchanged combat a drama roll leaves both slots alone |
| Chat.DefenseResultOf | module/chat/chat.js:289-310 | the defending result is the override when one is set (0 included), else the rolled result |
| Chat.CombatSession.constructor | module/chat/chat.js:4-5 | both slots start empty |
| Chat.CombatSession.CheckClear | module/chat/chat.js:91-96 | an empty log empties both slots |
| Chat.CombatSession.UpdateCombatData | module/chat/chat.js:98-113 | the active combat is recorded once; differing records drop the pending attack; a missing record stops the handler |
| Chat.CombatSession.OnDramaRoll | module/chat/chat.js:115-120 | when the last roll is owned, its dice, formula and total become the merge with the drama roll's and a miracle marks it; otherwise nothing changes |
| Chat.CombatSession.OnCounterRoll | module/chat/chat.js:142-187 | the counter records the attack it answers and its outcome; the loser's result is overridden to 0 |
| Chat.CombatSession.OnAttackRoll | module/chat/chat.js:122-140 | an attack becomes pending, counters a pending attack of another author, or as a heal leaves the slots |
| Chat.CombatSession.OnDefenseRoll | module/chat/chat.js:189-218 | a defense is unopposed without a pending attack, otherwise resolved against it, which stays pending |
| Chat.CombatSession.OnSpellRoll | module/chat/chat.js:220-241 | a spell's outcome is its margin and verdict |
| Chat.CombatSession.ListenToCombatRolls | module/chat/chat.js:74-89 | the handler's status, new slots and roll type are those of the step function on the old slots |
| Chat.CombatSession.Dispatch | module/chat/chat.js:82-87 | the per-type handlers leave the slots and the roll type where the dispatch step on the checked slots puts them, and keep the slot invariant |
| Chat.CombatSession.OnTakeDamageClick | module/chat/chat.js:275-295 | a damage request exists iff there are targets, attack and roll data and a pending attack; it pairs the attack with the overridden defense result |
| Chat.OnApplyDamageClick | module/chat/chat.js:297-322 | a counter's request uses its own roll as the attack and the answered attack as the defense, aimed at that attack's author |
| ApplyDamage.Ceil | module/dialogs/apply-damage-prompt.js:134 | `Math.ceil`: the least integer not below its argument |
| ApplyDamage.Pow2 | module/dialogs/apply-damage-prompt.js:135 | `2 ** n` is at least 1 |
| ApplyDamage.EffectiveArmor | module/dialogs/apply-damage-prompt.js:116-118 | armour minus piercing, clamped to 0..5 |
| ApplyDamage.ArmoredDx | module/dialogs/apply-damage-prompt.js:119 | the multiplier after armour is at least 0.5 and at least dx minus the effective armour |
| ApplyDamage.FinalDx | module/dialogs/apply-damage-prompt.js:121-133 | without an affected resistance that can heal the multiplier is not negative; a negative one is the armoured dx minus the affected resistances |
| ApplyDamage.HealOf | module/dialogs/apply-damage-prompt.js:110-112 | a heal (negative dx) with a positive result restores a positive amount |
| ApplyDamage.DamageIsLoss | module/dialogs/apply-damage-prompt.js:114-137 | with no vulnerability and a non-negative product the result is the negated rounded-up damage, never positive |
| ApplyDamage.VulnerabilityBonus | module/dialogs/apply-damage-prompt.js:130-137 | vulnerabilities add `damage * 0.5 * 2^(v-1)`: a single point of vulnerability is 1.5 times the damage |
| ApplyDamage.OnlyAffectedMatter | module/dialogs/apply-damage-prompt.js:124-131 | resistances not marked affected change neither the resisted amount, the vulnerability nor the healing flag |
| ApplyDamage.OnlyAffectedMatterForDamage | module/dialogs/apply-damage-prompt.js:114-137 | two targets that differ only in unaffected resistances take the same damage |
| ApplyDamage.NothingAffected | module/dialogs/apply-damage-prompt.js:124-131 | with nothing affected there is no resistance, vulnerability or healing |
| ApplyDamage.DamageWithoutResistances | module/dialogs/apply-damage-prompt.js:114-137 | then the damage is the negated ceiling of margin times armoured dx |
| ApplyDamage.ExampleUnarmored | module/dialogs/apply-damage-prompt.js:114-137 | result 4 against 0, dx 2, no armour: 8 damage |
| ApplyDamage.ExampleArmored | module/dialogs/apply-damage-prompt.js:116-134 | armour 3 with piercing 1 clamps dx 2 to 0.5: 2 damage |
| ApplyDamage.ExampleVulnerable | module/dialogs/apply-damage-prompt.js:130-135 | a vulnerability of 2 doubles 10 damage to 20 |
| ApplyDamage.Route | module/dialogs/apply-damage-prompt.js:147-148 | a fatiguing attack goes to endurance, any other to health, by the same amount |
| ApplyDamage.ApplyDamagePrompt.constructor | module/dialogs/apply-damage-prompt.js:5-27 | a heal or a prompt without targets seeds no resistances; otherwise one entry per resistance of the first target, both flags false |
| ApplyDamage.ApplyDamagePrompt.SetAffected | module/dialogs/apply-damage-prompt.js:71-75 | only the named resistance's affected flag changes |
| ApplyDamage.ApplyDamagePrompt.SetCanHeal | module/dialogs/apply-damage-prompt.js:77-81 | only the named resistance's can-heal flag changes |
| ApplyDamage.ApplyDamagePrompt.CalculateDamage | module/dialogs/apply-damage-prompt.js:114-138 | the loop over resistances computes the specification's damage |
| ApplyDamage.ApplyDamagePrompt.PrepareData | module/dialogs/apply-damage-prompt.js:98-102 | a heal stores the heal amount; an attack stores the damage against the first target, and fails when there is no target or defense |
| ApplyDamage.ApplyDamagePrompt.TakeDamage | module/dialogs/apply-damage-prompt.js:140-153 | each target receives the stored damage, routed by the fatiguing flag |
| Effects.ParsePathInjective | module/effects/ova-effect.js:89-109 | distinct keys address distinct properties of the target data |
| Effects.ReadWrite | module/effects/ova-effect.js:109 | `setProperty` changes exactly the written property and neither recorded list |
| Effects.EvalReadsOnlyRefs | module/effects/ova-effect.js:160-175 | a formula's value depends only on the `@` properties it names |
| Effects.EvalDefined | module/effects/ova-effect.js:160-175 | a formula without division whose references all exist evaluates to a number |
| Effects.EvalMissingRef | module/effects/ova-effect.js:170-172 | a reference to a missing property makes the evaluation throw |
| Effects.SignedLevel | module/effects/ova-effect.js:35-38 | the exposed level is the item's level, 0 when unset, negated for items whose document type is `weakness` or `flaw` (a weakness ability, whose `system.type` is `weakness`, keeps its sign) |
| Effects.ResolvedKeyValue | module/effects/ova-effect.js:40 | the key value is the effect's own, else the item's flavor, else empty |
| Effects.ResolveKeyFills | module/effects/ova-effect.js:88-123 | every `?` of the key is replaced by the key value: none is left when the value has none, a key without `?` is unchanged, and the length grows accordingly |
| Effects.ApplyMode | module/effects/ova-effect.js:91-107 | add, multiply, downgrade to the minimum, upgrade to the maximum, override; any other mode keeps the current value |
| Effects.ApplyModeIdempotent | module/effects/ova-effect.js:98-106 | downgrade, upgrade and override applied twice equal applied once |
| Effects.ApplyChangeFrame | module/effects/ova-effect.js:86-110 | only the resolved property changes, from its value or 0 when unset; the recorded lists stay |
| Effects.ApplyChangeIdempotent | module/effects/ova-effect.js:86-110 | an idempotent mode's change applied twice leaves the target as after once |
| Effects.ApplyChangesEffect | module/effects/ova-effect.js:32-65 | an apply-changes effect with no value only exposes the item; a throwing formula fails; otherwise one change record is appended and the resolved property updated by the mode |
| Effects.ApplyActiveEffectEffect | module/effects/ova-effect.js:37-80 | an apply-active-effect effect appends one record with the item's uuid, name, type and signed level and changes no stat |
| Effects.ExposedFrame | module/effects/ova-effect.js:34-38 | `apply` exposes the signed level and the item's own values and leaves the stats alone |
| Effects.ApplyAllStops | module/effects/ova-effect.js:170-172 | after a throwing effect the later effects are not applied |
| Effects.PriorityOrder | module/ova-character.js:145 | the effect list is sorted into ascending priority as a permutation |
| Effects.SortTwo | module/ova-character.js:145 | of two effects the lower priority comes first whatever their order |
| Effects.ApplyTwo | module/ova-character.js:146 | two effects are applied one after the other |
| Effects.OverrideWins | module/effects/ova-effect.js:104-106 | an override leaves exactly its value |
| Effects.OverrideStacking | module/ova-character.js:145-146 | of two overrides on one property the higher priority wins in either order |
| Effects.EvalField | module/effects/ova-effect.js:119-145 | a blank value stays blank, a formula gives its value or the throw |
| Effects.ActiveEffectShape | module/effects/ova-effect.js:115-139 | the built active effect is labelled by the source, enabled, lasts the effect's duration and holds one change with the resolved key, mode, value and priority |
| Effects.OverTimeFlag | module/effects/ova-effect.js:141-152 | an over-time effect with a moment and a key adds exactly one flag for that moment; otherwise there are no flags |
| Effects.ActiveEffectErrors | module/effects/ova-effect.js:115-155 | building fails exactly when the value or an active over-time value throws |
| Effects.DefaultObject | module/effects/ova-effect.js:180-197 | a new effect applies changes to its owner by addition at priority 0, with empty key and value and an each-round over-time part |
| Effects.DefaultObjectInert | module/effects/ova-effect.js:180-197 | the default effect changes no stat and builds an active effect with a blank change and no flags |
| Effects.EffectTarget.constructor | module/effects/ova-effect.js:37-42 | a target starts with its stats, no exposed item, level 0 and no recorded lists |
| Effects.EffectTarget.SetProperty | module/effects/ova-effect.js:109 | the stored state becomes the state with the one property written |
| Effects.EffectTarget.ApplyEffectChanges | module/effects/ova-effect.js:86-110 | the stored state becomes the specification's change |
| Effects.EffectTarget.Apply | module/effects/ova-effect.js:32-81 | the stored state and success are `apply`'s step |
| Effects.EffectTarget.ApplyByPriority | module/ova-character.js:144-146 | the effects sorted by priority are applied in turn, stopping at a throw |
| Effects.EffectTarget.CreateActiveEffect | module/effects/ova-effect.js:115-155 | the roll data exposes the source's item and level, and the result is the specification's active effect |
| Duration.CombatTime | module/effects/ova-active-effect.js:128-130 | rounds plus turns over the turn count, a missing part counting as 0 |
| Duration.DurationLabel | module/effects/ova-active-effect.js:111-123 | rounds first and turns last, each only when positive, singular at exactly 1; empty (shown as `∞`) exactly when neither is positive |
| Duration.DurationPrecedence | module/effects/ova-active-effect.js:54-105 | finite seconds come first, then non-zero rounds or turns, otherwise the duration is unlimited |
| Duration.SecondsRemaining | module/effects/ova-active-effect.js:54-64 | remaining seconds are `max(seconds - elapsed, 0)`, the whole duration without a start time, and the label rounds them up |
| Duration.TurnsRemaining | module/effects/ova-active-effect.js:67-96 | before or at the start the whole duration remains with the stored label; afterwards `max(start + duration - current, 0)` remains, below a positive duration |
| Duration.TurnsLabel | module/effects/ova-active-effect.js:87-95 | the label shows the whole rounds left and the hundredths left, capped at one less than the turn count |
| Duration.NoDurationFields | module/effects/ova-active-effect.js:51-105 | no duration fields give an unlimited duration |
| Duration.OneTurnLaterExpired | module/effects/ova-active-effect.js:74-87 | a one-round effect started at round 1 turn 2 of a four-combatant combat reports nothing left one turn later |
| Duration.CorrectedRemaining | module/effects/ova-active-effect.js:74-87 | with all three clock readings in one unit, the time left is start plus duration minus now while the effect runs |
| Duration.OneTurnLaterCorrected | module/effects/ova-active-effect.js:74-87 | the same effect has three quarters of a round left one turn later |
| Character.SpillOver | module/ova-character.js:60-70 | neither pool is left negative |
| Character.SpillOverKeepsSum | module/ova-character.js:60-70 | a deficit in one pool is taken from the other: the total is kept and the overdrawn pool ends at 0 |
| Character.SpillOverExhausted | module/ova-character.js:60-79 | when the total is not positive both pools end at 0 |
| Character.PreUpdatedNonNegative | module/ova-character.js:54-79 | after `_preUpdate` no written pool is negative, a negative reserve is clamped to 0, other changes are kept and pools are written only when one was overdrawn or both are at most 0 |
| Character.PreUpdateValues | module/ova-character.js:54-79 | the rewritten changes are the specification's |
| Character.WithDefaultsSpec | module/ova-character.js:93-100 | `??=` defaults keep every set value and fill every missing key with its default |
| Character.BaseDataDefaults | module/ova-character.js:89-130 | base data keeps the stored values, fills the missing pools and defaults, and resets the attack's roll and dx to 0 |
| Character.ApplyEachStops | module/ova-character.js:142-147 | after a throwing ability the later abilities' effects are not applied |
| Character.DerivedArithmetic | module/ova-character.js:150-168 | the HP maximum grows by the reserve maximum, the global modifier drops by 1 when HP or endurance is not positive, a positive stored threat value is kept and otherwise computed; nothing else changes |
| Character.FreeAttacks | module/ova-character.js:183 | exactly the attacks costing no endurance with a non-negative dx |
| Character.ByRollDescendingTotal | module/ova-character.js:185 | the roll comparator is a total preorder |
| Character.BestAttackIsBest | module/ova-character.js:182-186 | there is a best attack exactly when some attack is free; it is free and no free attack rolls higher |
| Character.MaxOf | module/ova-character.js:180 | the maximum bounds every defense and is one of them |
| Character.CalculateThreatValue | module/ova-character.js:175-195 | the threat value is the best defense (0 without one), plus 3 and the levels of the best free attack's roll abilities, positive for `ability` documents and negative for any other document type, when there is one, plus armor |
| Character.DefenseValues | module/ova-character.js:179 | the listed values are exactly the values of the store's `defenses.` entries, one per entry |
| Character.ListingEmpty | module/ova-character.js:179-180 | a listing of the defenses is empty exactly when the store has no defense entry |
| Character.MaxOfBelow | module/ova-character.js:180 | the maximum of a list whose values all occur in another is at most the other's |
| Character.ListingsAgree | module/ova-character.js:179 | any two listings of the store's defenses have the same values |
| Character.ThreatValueOfListing | module/ova-character.js:179-180 | the threat value does not depend on the order in which the defenses are listed |
| Character.ThreatSeesDefenses | module/ova-character.js:179-180 | the defense part of the threat value is at least every `defenses.` entry of the store and equal to one of them, and 0 when there is none |
| Character.DramaUse | module/ova-character.js:212-219 | free dice are taken first, up to the amount, and the rest is added to the used dice |
| Character.DramaUseSpendsFreeFirst | module/ova-character.js:212-219 | an amount within the free dice only spends free dice; a larger one spends them all and counts the rest as used; the amount is accounted for exactly |
| Character.UpdateWithSanePools | module/ova-character.js:54-79 | an update that writes no pool of a character with sane pools is stored as given |
| Character.DamageSpillsIntoEndurance | module/ova-character.js:60-64 | damage beyond the HP leaves HP at 0 and takes the rest from endurance, not below 0 |
| Character.OvaCharacter.PreUpdate | module/ova-character.js:54-79 | the pending changes become the rewritten ones, read against the stored HP and endurance |
| Character.OvaCharacter.Update | module/ova-character.js:54-79 | the stored values become the update after `_preUpdate`; the recorded lists stay |
| Character.OvaCharacter.ChangeHP | module/ova-character.js:230-234 | a zero amount changes nothing; otherwise HP is updated by the amount through `_preUpdate` |
| Character.OvaCharacter.ChangeEndurance | module/ova-character.js:236-241 | a zero amount changes nothing; otherwise the endurance or the reserve is updated by the amount |
| Character.OvaCharacter.GiveFreeDramaDice | module/ova-character.js:201-203 | one more free drama die |
| Character.OvaCharacter.ResetUsedDramaDice | module/ova-character.js:205-210 | used and free drama dice both become 0 |
| Character.OvaCharacter.UseDramaDice | module/ova-character.js:212-220 | the drama dice become the specification's split of the amount |
| Character.OvaCharacter.PrepareBaseData | module/ova-character.js:89-130 | the stored values become the base data |
| Character.OvaCharacter.ApplyAbilityEffects | module/ova-character.js:141-147 | each active ability's effects are applied in priority order, stopping at a throw |
| Character.OvaCharacter.DeriveValues | module/ova-character.js:149-195 | the stored values become the derived values, with the threat value computed from a listing of the store's own `defenses.` entries |
| Character.OvaCharacter.PrepareDerivedData | module/ova-character.js:132-195 | the ability effects are applied, and when none throws the derived values follow, the threat value reading the defenses as the effects left them |
| Item.Find | module/ova-item.js:38 | a found item is one of the character's items with that id |
| Item.UpdateItem | module/ova-item.js:42-44 | an update keeps the length and changes exactly the items with that id |
| Item.Without | module/ova-item.js:48 | filtering an id out keeps every other id and drops it entirely |
| Item.WithoutKeepsOrder | module/ova-item.js:48 | the filter distributes over concatenation and leaves a list without the id as it is |
| Item.WithoutItem | module/ova-item.js:46 | deleting an item keeps exactly the items with other ids |
| Item.SpellCostMonotone | module/ova-item.js:64-70 | within the table a stronger effect never costs less and a stronger magic ability never more, and each step strictly changes the cost; the cost lies in 0..60 |
| Item.SpellCostBounds | module/ova-item.js:64-70 | every spell cost lies in 0..60 |
| Item.SpellCostOutOfRange | module/ova-item.js:133 | a magic or effect level outside 1..5 costs nothing |
| Item.ListedAbilities | module/ova-item.js:106-110 | the listed abilities are active items of the character with a listed id |
| Item.Extra | module/ova-item.js:114 | the selected abilities not already listed |
| Item.RollAbilitiesSources | module/ova-item.js:105-118 | the roll abilities are the active listed ones plus the selected unlisted ones; without a selection only the listed ones |
| Item.FirstMagic | module/ova-item.js:122 | the first magic ability, absent exactly when no ability is magic |
| Item.SpellEnduranceCostSpec | module/ova-item.js:120-135 | without magic a spell costs nothing; otherwise it costs the table entry for the first magic ability's level and the summed levels; always 0..60 |
| Item.ByNameTotal | module/ova-item.js:79 | the name comparator is a total preorder |
| Item.ListedPerks | module/ova-item.js:76-77 | exactly the character's perks whose ids are listed |
| Item.Sourced | module/ova-item.js:91-101 | one effect per stored effect, each sourced from the item |
| Item.AppendSourced | module/ova-item.js:91-93 | one perk's effects, each sourced from the perk, are appended in order |
| Item.PerkEffectsSources | module/ova-item.js:87-94 | every perk effect comes from one of the perks and is one of its stored effects |
| Item.ActorPerksSorted | module/ova-item.js:76-79 | the prepared perks are the listed perks, sorted by name, as a permutation |
| Item.PreparePerks | module/ova-item.js:72-103 | prepared perks are the sorted listed perks; effects are the perks' effects and then the item's own; the cost is the item's plus each perk's, not below 0 |
| Item.PreparePerksAsWritten | module/ova-item.js:73-74 | the preparation happens exactly when the item lists a perk, and then agrees with the corrected one |
| Item.PrepareSpec | module/ova-item.js:53-151 | what preparing an item leaves, stage by stage: the perk stage's perks, effects and cost, unless the type's stage sets them; an ability's level total and children; a spell's or attack's roll abilities; the spell's table cost; the attack's effects with the abilities' added in priority order and their costs added; a throw for an attack with no effect list |
| Item.PerkStageAsWritten | module/ova-item.js:72-74 | as written the perk stage leaves an item without perks exactly as it was and otherwise agrees with the corrected one; corrected it always sets the effect list |
| Item.AttackStageSet | module/ova-item.js:137-151 | the attack stage of an item with an effect list links the roll abilities and sets the sorted collected effects and the summed cost |
| Item.AbilityWithoutPerks | module/ova-item.js:73-102 | an ability with its own effects and no perks gets no effects as written, though its effects exist |
| Item.PerkCostNonNegative | module/ova-item.js:96 | the clamped cost is non-negative and at least the raw sum |
| Item.PerkCostFree | module/ova-item.js:89 | perks without endurance cost add nothing |
| Item.CollectAbilities | module/ova-item.js:141-146 | the collected effects and cost are the given ones plus every linked ability's |
| Item.Children | module/ova-item.js:180-182 | exactly the character's items whose root is that id |
| Item.AttackEffectsByPriority | module/ova-item.js:148-149 | the attack's effects are sorted into ascending priority as a permutation |
| Item.Decrement | module/ova-item.js:166-168 | one use fewer when the use is limited, an unlimited item unchanged, nothing else changes |
| Item.UseOnce | module/ova-item.js:162-173 | an item without uses left changes nothing; one without links only loses a use |
| Item.UseDecrements | module/ova-item.js:162-173 | using an item with a use left takes exactly one of its uses and leaves at least 0, whatever its linked abilities do, as long as no chain of links leads back to it (a path back would take another of its uses) |
| Item.FindDecrementOther | module/ova-item.js:166-168 | taking a use of one item leaves every item under another id as it was |
| Item.UseLeavesUnreached | module/ova-item.js:162-173 | a `use` cascade leaves every item outside the ids its links can reach as it was |
| Item.UseEachLeavesUnreached | module/ova-item.js:170-172 | using linked abilities in turn leaves every item none of them can reach as it was |
| Item.FindUpdated | module/ova-item.js:167 | the updated item is found with the update applied |
| Item.HasUsesIff | module/ova-item.js:157-164 | an item has uses exactly when `use` is not blocked or its maximum is not positive |
| Item.NameIndex | module/ova-item.js:13 | `findIndex`: the first index whose name matches, or -1 exactly when none matches |
| Item.SplitPerks | module/ova-item.js:12-22 | the dropped perks split into those created and those whose level is raised |
| Item.UnmatchedMembers | module/ova-item.js:14-15 | exactly the dropped perks with no matching current perk |
| Item.AddPerksNeverMatches | module/ova-item.js:13 | comparing the names of stored id strings matches nothing, so every dropped perk is created again |
| Item.MatchedRaisesLevel | module/ova-item.js:13-20 | with names looked up on the character's items, a dropped perk named like a current one raises the first such perk's level by one |
| Item.Zip | module/ova-item.js:25 | each created perk takes the id the host gives it |
| Item.Ids | module/ova-item.js:32 | the ids of the created perks in order |
| Item.OvaItem.constructor | module/ova-item.js:3 | a freshly loaded item has none of `perks`, `ovaEffects`, `enduranceCost` and `_linkedAbilities` set, and its stored level as total |
| Item.OvaItem.PreparePerksOf | module/ova-item.js:72-103 | the new fields are the perk stage of the old ones: as written an item without perks keeps its perks, effects and cost as they were (line 74), unset on a fresh item; otherwise, and always when corrected, they become the prepared ones; an effect list is never set without a cost |
| Item.OvaItem.PrepareAbilityData | module/ova-item.js:175-187 | the new fields are the ability stage of the old ones: the level total is the level; a root ability links exactly its children; others keep their links; nothing else changes |
| Item.OvaItem.PrepareSpellData | module/ova-item.js:120-135 | the new fields are the spell stage of the old ones: the spell links its roll abilities and costs the table entry; nothing else changes |
| Item.OvaItem.PrepareAttackData | module/ova-item.js:137-151 | the new fields are the attack stage of the old ones: the attack links its roll abilities; with no effect list set it throws and applies nothing; otherwise it gains their effects sorted by priority and their costs, and applies the effects in that order to the item |
| Item.OvaItem.PrepareKindData | module/ova-item.js:59-61 | the new fields are the stage of the item's type: an ability's, an attack's or a spell's, and none for other types; only an attack with no effect list throws, and only an attack with one applies effects |
| Item.OvaItem.PrepareDerivedData | module/ova-item.js:53-62 | nothing happens to an item not owned by a character; otherwise the new fields are the perk stage and then the item type's stage of the old ones; it throws exactly where an attack's effect list is still unset after the perk stage |
| Item.FreshAttackWithoutPerks | module/ova-item.js:72-151 | as written, preparing a freshly loaded attack without perks throws and leaves no effect list; corrected it holds its roll abilities' effects in priority order |
| Item.FreshAbilityWithoutPerks | module/ova-item.js:53-103 | as written, a freshly loaded ability without perks keeps no effect list; corrected its effect list is exactly its own effects |
| Item.ActorItems.constructor | module/ova-item.js:7 | the character's items as given |
| Item.ActorItems.AddPerks | module/ova-item.js:6-34 | unmatched perks are created with the given ids and appended to the item's perk list; matched ones are raised by one level |
| Item.ActorItems.RemovePerk | module/ova-item.js:36-51 | a missing perk changes nothing; a perk above level 1 loses a level; otherwise it is deleted and its id removed from the item's list |
| Item.ActorItems.Use | module/ova-item.js:162-173 | the items become the use cascade from that item |
| RollPrompt.SizeMod | module/dialogs/roll-prompt.js:1-5 | the size modifier is -5, 0 or 5: zero exactly for normal size, negative exactly for disadvantage |
| RollPrompt.Multipliers | module/dialogs/roll-prompt.js:11-27 | every dialog has a plain roll button and multipliers within 0..6 |
| RollPrompt.MultiplierButtons | module/dialogs/roll-prompt.js:11-27 | only a defense offers `0` and `x2`, only drama the miracle's 6 |
| RollPrompt.RollFormulaSpec | module/dialogs/roll-prompt.js:96-115 | a non-positive pool rolls `2 - pool` dice kept lowest shared out over the multiplier and rounded up; a positive pool is multiplied and kept by highest sum; multiplier 0 rolls no dice |
| RollPrompt.SingleRollIsPool | module/dialogs/roll-prompt.js:95-115 | with multiplier 1 the dialog rolls the same dice as a chat command for that pool |
| RollPrompt.MultipliedPools | module/dialogs/roll-prompt.js:103 | shared out over 2 or 6, a negative pool rolls the fewest groups that hold all its dice, at least one; a positive pool is multiplied |
| RollPrompt.CeilDiv | module/dialogs/roll-prompt.js:103 | rounding `n / m` up gives the fewest groups of `m` that hold `n` |
| RollPrompt.ShownCostReads | module/dialogs/roll-prompt.js:79-81 | the cost is shown as `c/6c` exactly for drama with a positive cost, and each side reads back as the drama and the miracle cost |
| RollPrompt.RollDialog.constructor | module/dialogs/roll-prompt.js:38-44 | the dialog starts with the given kind, actor, cost and roll, the base endurance pool and normal size |
| RollPrompt.RollDialog.ChangeEnduranceCost | module/dialogs/roll-prompt.js:59-62 | the typed cost becomes the endurance cost |
| RollPrompt.RollDialog.SelectSize | module/dialogs/roll-prompt.js:64-68 | the chosen size becomes the size selection |
| RollPrompt.RollDialog.SelectPool | module/dialogs/roll-prompt.js:70-74 | the chosen pool becomes the endurance selection |
| RollPrompt.MakeRoll | module/dialogs/roll-prompt.js:95-106 | the dice count and the kept-highest or kept-lowest formula are those of the pool rule for base roll plus modifier plus size, under the multiplier |
| RollPrompt.RollDialog.Roll | module/dialogs/roll-prompt.js:92-119 | the roll is the formula for the base roll plus modifier plus size under the button's multiplier; drama scales the cost by the multiplier; the cost is taken from the selected endurance pool of the actor |
| Combatant.InitiativeSpec | module/combat/ova-combatant.js:3-18 | no speed rolls 2 dice by highest sum, `2 + speed` dice when that is positive, else `-speed` dice kept lowest; always at least one die and two when kept lowest |
| Combatant.InitiativeIsPool | module/combat/ova-combatant.js:7-16 | initiative rolls the same dice as a pool of `2 + speed` |
| Helpers.ByTypeThenNameTotal | ova-handlebars-helpers.js:60-63 | the perk comparator, by type and then by name, is a total preorder |
| Helpers.EntriesTrimmed | ova-handlebars-helpers.js:68-81 | cutting the last two characters removes exactly the separator after the last perk, which is always `, ` |
| Helpers.SeparatorMarksTypeChange | ova-handlebars-helpers.js:74-78 | between two perks the separator is `; ` exactly when their types differ |
| Helpers.PerkTextCost | ova-handlebars-helpers.js:81-89 | no perks and no positive cost give the empty text; without a printed cost the text is the trimmed entries; a positive printed cost alone is `cost short` |
| Helpers.FormatSorted | ova-handlebars-helpers.js:65-89 | the text built by the loop is the specification's perk text |
| Helpers.FormatEntry | ova-handlebars-helpers.js:69-72 | one perk prints as its upper-cased name, ` X<level>` past level 1, and `: <flavor>` when it has flavor text |
| Helpers.FormatPerksOrder | ova-handlebars-helpers.js:60-63 | the sort is a permutation ordered by type and, within a type, by name |
| Helpers.PerkHolder.constructor | ova-handlebars-helpers.js:57-66 | the holder's perks and endurance cost as given |
| Helpers.PerkHolder.FormatPerks | ova-handlebars-helpers.js:56-90 | no perks give the empty text; otherwise the perks are sorted in place and the text is the perk text of the sorted list |
| Helpers.PerkHolder.InlinePerks | ova-handlebars-helpers.js:47-51 | the perk text with the cost printed, in parentheses unless it is empty; a perk list is left sorted by type, then name, and a missing one stays missing |
| Helpers.AbilitySign | ova-handlebars-helpers.js:2-5 | empty without an ability, `+` exactly for an ability, otherwise `-` |
| Helpers.MaskedKey | ova-handlebars-helpers.js:7-10 | true exactly when there is a key and it holds a `?` |
| Helpers.SignedValueReads | ova-handlebars-helpers.js:12-14 | a positive value is shown as `+` followed by its digits, anything else as the value itself |
| Helpers.ActiveEffectMode | ova-handlebars-helpers.js:37-45 | a symbol exactly for modes 1, 3, 4 and 5 |
| Helpers.ActiveEffectModeDistinct | ova-handlebars-helpers.js:37-45 | different modes get different symbols |
| Helpers.BeforeDot | ova-handlebars-helpers.js:28 | the key up to its first `.`, holding no `.` |
| Helpers.PrefixBeforeDot | ova-handlebars-helpers.js:28 | a dot-free word followed by a `.` is what comes before the first dot |
| Helpers.MapEffectKeyFolds | ova-handlebars-helpers.js:27-32 | a defense, resistance or affinity key shows the label of its `?` form and then `: ` and its name |
| Helpers.MapEffectKeyPlain | ova-handlebars-helpers.js:24-32 | any other key shows its label, or the key itself when the label is empty, so never the empty text |
| ItemSheet.DigitRun | module/sheets/base-item-sheet.js:93 | `\d+` from a position: every character up to the end of the run is a digit and the one after is not |
| ItemSheet.FirstBracket | module/sheets/base-item-sheet.js:93 | the leftmost `[digits]` in the key, none before it |
| ItemSheet.IndexOf | module/sheets/base-item-sheet.js:96-97 | the first occurrence of the separator, none before it |
| ItemSheet.FailureStays | module/sheets/base-item-sheet.js:92-105 | once a step throws the whole reduction throws |
| ItemSheet.UpdateObject | module/sheets/base-item-sheet.js:90-108 | the loop computes the specification's reshaped form data |
| ItemSheet.IndexedKeyTarget | module/sheets/base-item-sheet.js:93-97 | a key `name[i].field` addresses field `field` of row `i` of `name` |
| ItemSheet.IndexedKeySplits | module/sheets/base-item-sheet.js:96-97 | splitting such a key on `[i]` gives the name and on `[i].` gives the field |
| ItemSheet.SplitsAfterName | module/sheets/base-item-sheet.js:96-97 | after a name without `[`, a separator starting with `[` splits the key into that name and what follows the one separator |
| ItemSheet.IndexedKeyBracket | module/sheets/base-item-sheet.js:93-95 | the regular expression finds the bracket right after the name and captures `i` |
| ItemSheet.BracketAfterName | module/sheets/base-item-sheet.js:93 | digits in brackets after a name without `[` are the first match and are captured whole |
| ItemSheet.DigitRunIs | module/sheets/base-item-sheet.js:93 | the digit run ends at the first non-digit |
| ItemSheet.FirstAfterName | module/sheets/base-item-sheet.js:96 | a separator starting with `[` first occurs right after a name without `[` |
| ItemSheet.NoLaterOccurrence | module/sheets/base-item-sheet.js:97 | a separator that does not occur in the tail has no second occurrence |
| ItemSheet.PlainKeyTarget | module/sheets/base-item-sheet.js:101-103 | a key without `[digits]` is written as it is |
| ItemSheet.PlainKept | module/sheets/base-item-sheet.js:101-103 | a plain value survives when no later entry writes that name |
| ItemSheet.CellKept | module/sheets/base-item-sheet.js:98-100 | a cell value survives when no later entry writes that cell or the whole name |
| ItemSheet.BrokenRejects | module/sheets/base-item-sheet.js:95-100 | a key whose index does not read back, or with no field after it, makes the form update throw |
| ItemSheet.SpliceStart | module/sheets/base-item-sheet.js:65 | `splice`'s start: as given within the list, counted from the end when negative, clamped to the ends |
| ItemSheet.Spliced | module/sheets/base-item-sheet.js:65 | one element is removed at the start, the others keep their order; a start past the end removes nothing |
| ItemSheet.SplicedRemovesOne | module/sheets/base-item-sheet.js:65 | deleting an index removes exactly that element |
| ItemSheet.DeleteUndoesAdd | module/sheets/base-item-sheet.js:57-65 | deleting the last effect undoes adding it |
| ItemSheet.ItemSheet.constructor | module/sheets/base-item-sheet.js:55 | the sheet's item kind, item, character's items and stored effects as given |
| ItemSheet.ItemSheet.AddEffect | module/sheets/base-item-sheet.js:53-59 | the default effect is appended to the stored effects, or to an empty list |
| ItemSheet.ItemSheet.DeleteEffect | module/sheets/base-item-sheet.js:61-67 | the effects become the list with the element at the index spliced out |
| ItemSheet.ItemSheet.Drop | module/sheets/base-item-sheet.js:72-85 | a perk sheet refuses every drop; otherwise the drop is accepted and a dropped perk is added to the item |

## Left out

- Effects.Eval: the model rejects every division by zero, including formulas for which JavaScript returns a finite value (`min(1/0, 2)` is 2 and `5/(1/0)` is 0 there, and `_safeEval` returns them); `Math` functions other than `floor`, `ceil`, `min` and `max` are not modelled.
- Effects: `targetData.item` writes go to a copy of the item's values; aliasing of the item's system object is not modelled.
- Duration: a combat with no turns is excluded (`TurnCount` is at least 1), because JavaScript would divide by zero there.
- Duration: label parts are kept as a count and a localisation key; number formatting and localised text are not modelled.
- CombatMessage.AddDramaDice: the drama die itself is not emptied after the merge.
- Chat.ListenToCommands: the count word is read as a decimal integer. JavaScript keeps it a string, compares it with `<= 0` by `Number` and pastes it into the host's dice formula, whose parser is not part of this model; a fractional, `+`-signed or exponent count is Malformed here.
- Text.ParseDecimal: the multiplier word is read as `Number` reads a plain decimal (sign, digits, optional fraction); the exponent (`1e1`), hexadecimal, binary, octal and `Infinity` forms that `Number` also accepts are Malformed here, and a non-numeric word is Malformed instead of `NaN`.
- Chat.StepAttack: message authors are actor ids, so every comparison at chat.js:125 succeeds; `_getMessageAuthorActor(...).id` throwing for a speaker without an actor (chat.js:324-334) is not modelled, nor is it in Chat.CombatSession.OnAttackRoll.
- Item.OvaItem.PrepareAttackData: on an effect list that was never set the model leaves `enduranceCost` as it was; JavaScript may first turn it into `NaN` (line 145) before the throw.
- Item.OvaItem.PrepareDerivedData: a throw in an item's preparation stops the character's `prepareDerivedData` (module/ova-character.js:164-168) before `tv` is set; the character takes its items' prepared data as an input, so that abort is not carried over to it.
- ApplyDamage.ApplyDamagePrompt.PrepareData: building `this.effects` through `OVAEffect.createActiveEffect` (module/dialogs/apply-damage-prompt.js:104-107), which can throw after the damage is stored, is not modelled; building one active effect is modelled by Effects.EffectTarget.CreateActiveEffect.
- Apply order: the sort before `forEach(e => e.apply(...))` is a function on the list, not an in-place sort of the item's array.
- Effects.ActiveEffectOf: an effect's priority is always an integer, so the `priority ?? 0` default (module/effects/ova-effect.js:133) and the `NaN` comparisons of an unset priority in the sort at module/ova-character.js:145 are not modelled.
- ApplyDamage.Resistance: resistance values are integers; `_calculateDamage` (module/dialogs/apply-damage-prompt.js:126-135) uses them as JavaScript numbers, so a fractional resistance is not modelled.
- Text.Leq: `localeCompare` is modelled as code-point order.
- Effects.ResolveKey: `replace` in JavaScript reads `$&`, `$$` and `` $` `` in the replacement as patterns; the model inserts the key value or flavour text literally, so one containing `$` is not modelled.
- Helpers.PerkHolder: the endurance cost shown by the perk helpers and `SignedValue` are integers; a fractional cost, which the item stages allow, is not modelled there.
- Helpers.Entry: `toUpperCase` is ASCII-only.
- Item.UseCascade: the cascade through linked abilities is bounded by a `fuel` count. A cycle of links through an item with limited uses ends in JavaScript once those uses run out (line 164); only a cycle made entirely of items without a use limit recurses forever. The fuel bound cuts both kinds off after `fuel` levels.
- Character.OvaCharacter.PrepareDerivedData: the item preparation it calls is an input, given as the prepared effect lists of the active abilities and the attack views the threat value reads.
- Character: the defenses are the store's entries under `defenses.`; `Object.values` lists them in an order the model leaves open, which the maximum does not depend on.
- Character: `_preDelete`, `createDialog` and `resetLimitedUse` are host persistence and are left out.
- Character: the floating change notifications of `_preUpdate` are cosmetic and left out.
- Character: non-numeric system fields (resistances, the attacks list, the magic list and `haveMagic`) are not modelled.
- Item.ActorItems.AddPerks: the ids that `createEmbeddedDocuments` assigns are the input `newIds`.
- Item: `_getSelectedAbilities` of the character sheet is an optional input.
- ItemSheet.Reshape: the form data is a list in `Object.entries` order.
- ItemSheet.Step: `setProperty`'s nested dotted paths inside a row field are kept as flat field names.
- ItemSheet.Truthy: `NaN` form values are not modelled.
- ItemSheet.ItemSheet.DeleteEffect: `data("index")` is an integer; non-numeric indices are not modelled.
- ItemSheet.ItemSheet.Drop: `toObject()` never gives an array, so the drop adds exactly one perk.
- ItemSheet: `_openRulebook`, `_onDelete`, `_onDeleteSelf` and the sheet's `getData` are host and DOM work and are left out.
- ItemSheet.ItemSheet.AddEffect: the effects are read from `item.data.data.effects` and written back; the host update is the field assignment.
- RollPrompt.RollDialog: `actor == null` stands for an actor without `changeEndurance`; a missing actor, on which JavaScript would throw, is not modelled.
- RollPrompt.RollDialog.ChangeEnduranceCost: `parseInt` of a non-numeric entry (`NaN`) is not modelled; the cost is an integer.
- Dice.MarkLowest: the host's keep/drop routine behind `kl` is not part of this model; the model keeps the last die showing the lowest face, which is where the host's in-order dropping of tied dice ends, and the total does not depend on which tied die stays (Dice.KeepLowestTotal).
- Dice rolling itself, chat rendering, sockets, localisation and all HTML work are I/O and are left out; rolled faces are inputs.
- OVAActiveEffect `_onCreate` and `_onDelete` (creating and deleting linked items) are host document lifecycle and are left out.

## Findings

| source | as written | input that shows it | evidently intended | confidence | as-written member | corrected member |
|---|---|---|---|---|---|---|
| module/effects/ova-active-effect.js:74-87 | the current time and the duration are computed with one turn per round, the start with the combat's turn count | an effect of 1 round started at round 1 turn 2, read at round 1 turn 3 of a 4-combatant combat, reports 0 left | all three readings in rounds with the combat's turn count, so 0.75 rounds are left | medium, not executed | Duration.OneTurnLaterExpired | Duration.CorrectedRemaining, Duration.OneTurnLaterCorrected |
| module/ova-item.js:13 | `findIndex` compares `p.name` of the stored perk ids, which are strings, so nothing ever matches | an item listing the id of perk "Accurate" at level 1 gets "Accurate" dropped again: a second "Accurate" is created | the current perk with the same name has its level raised to 2 | high, not executed | Item.AddPerksNeverMatches | Item.MatchedRaisesLevel |
| module/ova-item.js:73-74 | `_preparePerks` returns before preparing anything when the item lists no perks | an ability with one effect and no perks gets no effects, so its effect is never applied to the character; an attack without perks has no effect list to push into or sort | the perk list is empty and the item's own effects and cost are still prepared | high, not executed | Item.PreparePerksAsWritten, Item.AbilityWithoutPerks, Item.FreshAttackWithoutPerks | Item.PreparePerks, Item.FreshAbilityWithoutPerks |

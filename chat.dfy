/** The chat side of combat: the `/d` `/defense` `/a` `/attack` commands,
    and the listener that threads each new roll message through the two
    slots `lastAttack` (the pending attack) and `lastRoll` (the latest
    non-drama roll), resolving counters, defenses and spells against the
    pending attack. */
module Chat {
  import opened Wrappers
  import opened Text
  import opened Dice
  import opened CombatMessage
  import ApplyDamage

  // ---------------------------------------------------------------------
  // Chat commands

  /** JavaScript's `\s`: the ASCII white space, the Unicode space separators,
      the line and paragraph separators and the byte-order mark. */
  predicate IsSpace(c: char) {
    || c == ' ' || c == '\t' || c == '\n' || c == '\r' || c == '\U{000B}' || c == '\U{000C}'
    || c == '\U{00A0}' || c == '\U{1680}' || ('\U{2000}' <= c <= '\U{200A}')
    || c == '\U{2028}' || c == '\U{2029}' || c == '\U{202F}' || c == '\U{205F}'
    || c == '\U{3000}' || c == '\U{FEFF}'
  }

  predicate IsWord(w: string) { |w| > 0 && forall i :: 0 <= i < |w| ==> !IsSpace(w[i]) }

  /** Length of the run of non-space characters `s` starts with. */
  function WordLength(s: string): (n: nat)
    ensures n <= |s|
    ensures forall i :: 0 <= i < n ==> !IsSpace(s[i])
    ensures n < |s| ==> IsSpace(s[n])
    decreases |s|
  {
    if |s| == 0 || IsSpace(s[0]) then 0 else 1 + WordLength(s[1..])
  }

  /** `content.match(/(\S+)/g)`: the maximal runs of non-space characters. */
  function Tokens(s: string): (ts: seq<string>)
    ensures forall i :: 0 <= i < |ts| ==> IsWord(ts[i])
    decreases |s|
  {
    if |s| == 0 then []
    else if IsSpace(s[0]) then Tokens(s[1..])
    else
      var n := WordLength(s);
      [s[..n]] + Tokens(s[n..])
  }

  function JoinWords(ws: seq<string>): string
  {
    if |ws| == 0 then "" else if |ws| == 1 then ws[0] else ws[0] + " " + JoinWords(ws[1..])
  }

  lemma {:induction false} WordLengthOfWord(w: string, rest: string)
    requires forall i :: 0 <= i < |w| ==> !IsSpace(w[i])
    requires |rest| == 0 || IsSpace(rest[0])
    ensures WordLength(w + rest) == |w|
    decreases |w|
  {
    if |w| > 0 {
      assert (w + rest)[1..] == w[1..] + rest;
      WordLengthOfWord(w[1..], rest);
    } else {
      assert w + rest == rest;
    }
  }

  /** Splitting words joined by single spaces gives the words back. */
  lemma {:induction false} TokensOfJoin(ws: seq<string>)
    requires forall i :: 0 <= i < |ws| ==> IsWord(ws[i])
    ensures Tokens(JoinWords(ws)) == ws
    decreases |ws|
  {
    if |ws| == 1 {
      TokensAfterWord(ws[0], "");
      assert ws[0] + "" == ws[0];
    } else if |ws| > 1 {
      var w := ws[0];
      var tail := JoinWords(ws[1..]);
      assert JoinWords(ws) == w + (" " + tail);
      TokensAfterWord(w, " " + tail);
      assert (" " + tail)[1..] == tail;
      assert Tokens(" " + tail) == Tokens(tail);
      TokensOfJoin(ws[1..]);
      assert ws == [w] + ws[1..];
    }
  }

  /** A word followed by a space or the end is the first token. */
  lemma TokensAfterWord(w: string, rest: string)
    requires IsWord(w)
    requires |rest| == 0 || IsSpace(rest[0])
    ensures Tokens(w + rest) == [w] + Tokens(rest)
  {
    var s := w + rest;
    WordLengthOfWord(w, rest);
    assert s[..|w|] == w;
    assert s[|w|..] == rest;
  }

  /** The roll type a command word asks for; `None` for other words. */
  function CommandKind(c: string): (k: Option<RollType>)
    ensures k == Some(Defense) <==> c == "/d" || c == "/defense"
    ensures k == Some(Attack) <==> c == "/a" || c == "/attack"
    ensures k.Some? ==> k.value == Defense || k.value == Attack
  {
    if c == "/d" || c == "/defense" then Some(Defense)
    else if c == "/a" || c == "/attack" then Some(Attack)
    else None
  }

  /** What a command rolls: the dice formula, the roll type and the
      `roll`/`dx` fields of its roll data. */
  datatype CommandRoll = CommandRoll(formula: DiceFormula, kind: RollType, roll: int, dx: real)

  /** `PassThrough` is the `true` the hook returns for an ordinary chat
      line; a command whose count is not an integer, or whose multiplier is
      not a decimal number, is `Malformed`. */
  datatype CommandResult = PassThrough | Malformed | RollCommand(cmd: CommandRoll)

  /** `listenToCommands`. */
  function ListenToCommands(content: string): CommandResult
  {
    var ts := Tokens(content);
    if |ts| == 0 || CommandKind(ts[0]).None? then PassThrough
    else
      var n := if |ts| > 1 then ParseInt(ts[1]) else Some(2);
      var dx := if |ts| > 2 then ParseDecimal(ts[2]) else Some(1.0);
      if n.None? || dx.None? then Malformed
      else
        var f := PoolFormula(n.value);
        RollCommand(CommandRoll(f, CommandKind(ts[0]).value, f.count, dx.value))
  }

  /** A line passes through exactly when its first word is not one of the
      four commands. */
  lemma CommandPassThrough(content: string)
    ensures ListenToCommands(content) == PassThrough <==>
      |Tokens(content)| == 0 || Tokens(content)[0] !in ["/d", "/defense", "/a", "/attack"]
  {
  }

  lemma IntToStringIsWord(i: int)
    ensures IsWord(IntToString(i))
  {
    var s := IntToString(i);
    if i < 0 {
      assert s == "-" + NatToString(-i);
      forall k | 0 <= k < |s| ensures !IsSpace(s[k]) {
        if k > 0 {
          assert s[k] == NatToString(-i)[k - 1];
        }
      }
    }
  }

  /** A bare command rolls 2 dice keeping the highest sum, multiplier 1. */
  lemma CommandDefaults(cmd: string)
    requires CommandKind(cmd).Some?
    ensures ListenToCommands(cmd) == RollCommand(CommandRoll(DiceFormula(2, Khs), CommandKind(cmd).value, 2, 1.0))
  {
    assert IsWord(cmd);
    TokensOfJoin([cmd]);
  }

  /** `/a n dx`: a count `n <= 0` rolls `2 - n` dice keeping the lowest,
      any other count `n` dice keeping the highest sum; the multiplier is
      the number the third word reads as, fractions included. */
  lemma CommandCount(cmd: string, n: int, dx: string)
    requires CommandKind(cmd).Some?
    requires IsWord(dx) && ParseDecimal(dx).Some?
    ensures var r := ListenToCommands(JoinWords([cmd, IntToString(n), dx]));
      && r.RollCommand?
      && r.cmd.kind == CommandKind(cmd).value
      && r.cmd.dx == ParseDecimal(dx).value
      && r.cmd.roll == r.cmd.formula.count
      && (n <= 0 ==> r.cmd.formula == DiceFormula(2 - n, Kl))
      && (n > 0 ==> r.cmd.formula == DiceFormula(n, Khs))
  {
    assert IsWord(cmd);
    IntToStringIsWord(n);
    TokensOfJoin([cmd, IntToString(n), dx]);
    ParseIntOfIntToString(n);
  }

  /** An integer multiplier reads as that integer. */
  lemma CommandIntegerDx(cmd: string, n: int, dx: int)
    requires CommandKind(cmd).Some?
    ensures var r := ListenToCommands(JoinWords([cmd, IntToString(n), IntToString(dx)]));
      r.RollCommand? && r.cmd.dx == dx as real
  {
    IntToStringIsWord(dx);
    ParseDecimalOfIntToString(dx);
    CommandCount(cmd, n, IntToString(dx));
  }

  /** `/a 3 0.5` rolls three dice with half the damage multiplier. */
  lemma CommandFractionalDx()
    ensures ListenToCommands(JoinWords(["/a", "3", "0.5"])) == RollCommand(CommandRoll(DiceFormula(3, Khs), Attack, 3, 0.5))
  {
    ParseDecimalFraction();
    assert IsWord("0.5");
    assert IntToString(3) == "3";
    CommandCount("/a", 3, "0.5");
  }

  /** Runs a command: rolls `rolled` with the command's formula and posts
      the roll message. */
  method RunCommand(content: string, rolled: seq<Face>, author: int) returns (passThrough: bool, msg: Message?)
    requires ListenToCommands(content).RollCommand? ==> |rolled| == ListenToCommands(content).cmd.formula.count
    ensures passThrough <==> ListenToCommands(content) == PassThrough
    ensures msg != null <==> ListenToCommands(content).RollCommand?
    ensures msg != null ==> var c := ListenToCommands(content).cmd;
      && fresh(msg) && fresh(msg.die) && fresh(msg.rollData)
      && msg.die.results == Evaluate(Fresh(rolled), c.formula.modifier)
      && msg.rollData.kind == c.kind && msg.rollData.roll == c.roll && msg.rollData.dx == c.dx
      && msg.rollData.result == ActiveTotal(msg.die.results)
      && msg.rollData.ignoreArmor == 0.0 && msg.rollData.dn == 0 && !msg.rollData.fatiguing
      && msg.author == author && !msg.miracle
  {
    var r := ListenToCommands(content);
    passThrough := r == PassThrough;
    msg := null;
    if r.RollCommand? {
      var c := r.cmd;
      var die := new OvaDie(rolled, c.formula.modifier);
      var rollData := new RollData(c.kind, c.roll, c.dx, die.Total(), 0.0, 0, false);
      msg := new Message.Create(author, true, die, rollData);
    }
  }

  // ---------------------------------------------------------------------
  // Opposed rolls

  function MaxInt(a: int, b: int): int { if a >= b then a else b }
  function MinInt(a: int, b: int): int { if a <= b then a else b }

  /** `attack - response` with the miracle overrides. */
  function OpposedDelta(attackTotal: int, responseTotal: int, attackMiracle: bool, responseMiracle: bool): (d: int)
    ensures attackMiracle && responseMiracle ==> d == 0
    ensures attackMiracle && !responseMiracle ==> d >= 1 && (attackTotal - responseTotal >= 1 ==> d == attackTotal - responseTotal)
    ensures !attackMiracle && responseMiracle ==> d <= -1 && (attackTotal - responseTotal <= -1 ==> d == attackTotal - responseTotal)
    ensures !attackMiracle && !responseMiracle ==> d == attackTotal - responseTotal
  {
    var r := attackTotal - responseTotal;
    var r1 := if attackMiracle then MaxInt(1, r) else r;
    var r2 := if responseMiracle then MinInt(-1, r1) else r1;
    if attackMiracle && responseMiracle then 0 else r2
  }

  /** The displayed raw damage, never negative. */
  function RawDamage(result: int, dx: real): (d: real)
    ensures d >= 0.0
    ensures d >= result as real * dx
    ensures d == 0.0 || d == result as real * dx
  {
    if result as real * dx >= 0.0 then result as real * dx else 0.0
  }

  /** What a counter resolves to: the winner's `(dx, result)` feed the
      damage, a tie deals none. */
  function CounterOutcome(delta: int, attackDx: real, attackResult: int, counterDx: real, counterResult: int): (o: Outcome)
    ensures o.Countered? && o.delta == delta
    ensures delta > 0 ==> o.verdict == Failure && o.rawDamage == RawDamage(attackResult, attackDx)
    ensures delta < 0 ==> o.verdict == Success && o.rawDamage == RawDamage(counterResult, counterDx)
    ensures delta == 0 ==> o.verdict == Tie && o.rawDamage == 0.0
  {
    if delta > 0 then Countered(delta, Failure, RawDamage(attackResult, attackDx))
    else if delta < 0 then Countered(delta, Success, RawDamage(counterResult, counterDx))
    else Countered(delta, Tie, RawDamage(0, 0.0))
  }

  /** What a defense against a pending attack resolves to. */
  function DefenseOutcome(delta: int, attackDx: real): (o: Outcome)
    ensures o.Defended? && o.delta == delta && o.rawDamage == RawDamage(delta, attackDx)
    ensures o.verdict == Hit <==> delta > 0
    ensures o.verdict == Miss <==> delta < 0
    ensures o.verdict == Tie <==> delta == 0
  {
    Defended(delta, if delta > 0 then Hit else if delta < 0 then Miss else Tie, RawDamage(delta, attackDx))
  }

  /** A spell's margin over its difficulty, at least 1 on a miracle. */
  function SpellMargin(result: int, dn: int, miracle: bool): (m: int)
    ensures miracle ==> m >= 1
    ensures !miracle ==> m == result - dn
  {
    if miracle then MaxInt(1, result - dn) else result - dn
  }

  /** A spell succeeds iff it was a miracle or it met its difficulty. */
  lemma SpellSucceeds(result: int, dn: int, miracle: bool)
    ensures SpellMargin(result, dn, miracle) >= 0 <==> miracle || result >= dn
  {
  }

  function SpellOutcome(result: int, dn: int, miracle: bool): (o: Outcome)
    ensures o.SpellCast? && o.result == SpellMargin(result, dn, miracle)
    ensures o.dnShown <==> dn > 0
    ensures o.success <==> miracle || result >= dn
  {
    SpellCast(SpellMargin(result, dn, miracle), dn > 0, SpellMargin(result, dn, miracle) >= 0)
  }

  // ---------------------------------------------------------------------
  // The two slots

  datatype Slots = Slots(lastAttack: Message?, lastRoll: Message?)

  datatype Status = Ignored | Aborted | Handled

  datatype StepResult = StepResult(status: Status, slots: Slots, kind: Option<RollType>)

  /** `_checkClear`: an empty message log empties both slots. */
  function Cleared(s: Slots, logEmpty: bool): Slots
  {
    if logEmpty then Slots(null, null) else s
  }

  /** `_updateCombatData`'s flag: the active combat is recorded on a message
      that has no context yet. */
  function UpdatedContext(c: Option<CombatContext>, combat: Option<CombatContext>): (r: Option<CombatContext>)
    ensures c.Some? ==> r == c
    ensures c.None? ==> r == combat
  {
    if combat.Some? && c.None? then combat else c
  }

  /** The pending attack after the context check against `lastRoll`. */
  function Invalidated(s: Slots, c1: Option<CombatContext>, c2: Option<CombatContext>): Slots
  {
    if s.lastRoll != null && c1 != c2 then s.(lastAttack := null) else s
  }

  /** `listenToCombatRolls` on the two slots: `c1` is the context of
      `lastRoll` and `c2` that of the new message, both after the update;
      `kind` is the message's roll type (`None`: no roll data) and `dx` its
      multiplier. The result carries the roll type after the
      `manual`/`defense` reclassification. */
  function Step(s: Slots, msg: Message, logEmpty: bool, kind: Option<RollType>, dx: real,
                c1: Option<CombatContext>, c2: Option<CombatContext>): StepResult
  {
    var s1 := Cleared(s, logEmpty);
    if msg.die == null || kind.None? then StepResult(Ignored, s1, kind)
    else if s1.lastRoll != null && (c1.None? || c2.None?) then StepResult(Aborted, s1, kind)
    else Dispatched(Invalidated(s1, c1, c2), msg, kind.value, dx)
  }

  /** The part of `listenToCombatRolls` after the context check, by roll
      type `k`. */
  function Dispatched(s: Slots, msg: Message, k: RollType, dx: real): StepResult
  {
    var s3 := if k != Drama then s.(lastRoll := msg) else s;
    var counters := s3.lastAttack != null && s3.lastAttack.author != msg.author;
    var s4 := if k == Attack && dx >= 0.0 && !counters then s3.(lastAttack := msg) else s3;
    var k2 := if k == Manual && s4.lastAttack != null then Defense else k;
    StepResult(Handled, s4, Some(k2))
  }

  /** The pending attack a message is resolved against. */
  function Pending(s: Slots, logEmpty: bool, c1: Option<CombatContext>, c2: Option<CombatContext>): Message?
  {
    Invalidated(Cleared(s, logEmpty), c1, c2).lastAttack
  }

  /** A message without a roll or without roll data changes nothing but
      the clearing of an empty log. */
  lemma StepIgnores(s: Slots, msg: Message, logEmpty: bool, kind: Option<RollType>, dx: real, c1: Option<CombatContext>, c2: Option<CombatContext>)
    ensures var r := Step(s, msg, logEmpty, kind, dx, c1, c2);
      (r.status == Ignored <==> msg.die == null || kind.None?)
      && (r.status != Handled ==> r.slots == Cleared(s, logEmpty))
  {
  }

  /** An empty message log leaves at most the new message in the slots. */
  lemma StepEmptyLog(s: Slots, msg: Message, kind: Option<RollType>, dx: real, c1: Option<CombatContext>, c2: Option<CombatContext>)
    ensures var r := Step(s, msg, true, kind, dx, c1, c2);
      && (r.slots.lastAttack == null || r.slots.lastAttack == msg)
      && (r.slots.lastRoll == null || r.slots.lastRoll == msg)
  {
  }

  /** With a previous roll, a missing context on either side aborts before
      the slots change. */
  lemma StepAborts(s: Slots, msg: Message, logEmpty: bool, kind: Option<RollType>, dx: real, c1: Option<CombatContext>, c2: Option<CombatContext>)
    requires msg.die != null && kind.Some?
    ensures Step(s, msg, logEmpty, kind, dx, c1, c2).status == Aborted <==>
      Cleared(s, logEmpty).lastRoll != null && (c1.None? || c2.None?)
  {
  }

  /** Every handled non-drama roll becomes `lastRoll`; a drama roll leaves
      it as it was. */
  lemma StepLastRoll(s: Slots, msg: Message, logEmpty: bool, kind: Option<RollType>, dx: real, c1: Option<CombatContext>, c2: Option<CombatContext>)
    requires Step(s, msg, logEmpty, kind, dx, c1, c2).status == Handled
    ensures kind.value != Drama ==> Step(s, msg, logEmpty, kind, dx, c1, c2).slots.lastRoll == msg
    ensures kind.value == Drama ==> Step(s, msg, logEmpty, kind, dx, c1, c2).slots.lastRoll == Cleared(s, logEmpty).lastRoll
  {
  }

  /** A context that differs from `lastRoll`'s drops the pending attack; only
      a new attack can take the slot again. */
  lemma StepContextChange(s: Slots, msg: Message, logEmpty: bool, kind: Option<RollType>, dx: real, c1: Option<CombatContext>, c2: Option<CombatContext>)
    requires Step(s, msg, logEmpty, kind, dx, c1, c2).status == Handled
    requires Cleared(s, logEmpty).lastRoll != null && c1 != c2
    ensures Pending(s, logEmpty, c1, c2) == null
    ensures Step(s, msg, logEmpty, kind, dx, c1, c2).slots.lastAttack == (if kind.value == Attack && dx >= 0.0 then msg else null)
  {
  }

  /** An attack with `dx >= 0` becomes the pending attack unless one from
      another author is pending, in which case it counters that one and the
      slot keeps it. */
  lemma StepAttack(s: Slots, msg: Message, logEmpty: bool, dx: real, c1: Option<CombatContext>, c2: Option<CombatContext>)
    requires Step(s, msg, logEmpty, Some(Attack), dx, c1, c2).status == Handled
    requires dx >= 0.0
    ensures var p := Pending(s, logEmpty, c1, c2);
      Step(s, msg, logEmpty, Some(Attack), dx, c1, c2).slots.lastAttack ==
        (if p != null && p.author != msg.author then p else msg)
  {
  }

  /** A heal (`dx < 0`), a defense, a manual roll, a spell, a drama roll or
      any other roll leaves the pending attack where the context check put
      it. */
  lemma StepKeepsPending(s: Slots, msg: Message, logEmpty: bool, kind: Option<RollType>, dx: real, c1: Option<CombatContext>, c2: Option<CombatContext>)
    requires Step(s, msg, logEmpty, kind, dx, c1, c2).status == Handled
    requires kind.value != Attack || dx < 0.0
    ensures Step(s, msg, logEmpty, kind, dx, c1, c2).slots.lastAttack == Pending(s, logEmpty, c1, c2)
  {
  }

  /** A manual roll is a defense exactly when an attack is pending. */
  lemma StepReclassifiesManual(s: Slots, msg: Message, logEmpty: bool, dx: real, c1: Option<CombatContext>, c2: Option<CombatContext>)
    requires Step(s, msg, logEmpty, Some(Manual), dx, c1, c2).status == Handled
    ensures Step(s, msg, logEmpty, Some(Manual), dx, c1, c2).kind ==
      Some(if Pending(s, logEmpty, c1, c2) != null then Defense else Manual)
  {
  }

  /** In the same context, a drama roll leaves both slots alone. */
  lemma StepDrama(s: Slots, msg: Message, dx: real, c: Option<CombatContext>)
    requires msg.die != null && c.Some?
    ensures Step(s, msg, false, Some(Drama), dx, c, c) == StepResult(Handled, s, Some(Drama))
  {
  }

  /** The request a take-damage or apply-damage button opens the damage
      dialog with. */
  datatype DamageRequest = DamageRequest(attack: ApplyDamage.AttackRoll, defenseResult: int)

  function AttackOf(rd: RollData): ApplyDamage.AttackRoll
    reads rd
  {
    ApplyDamage.AttackRoll(rd.result, rd.dx, rd.ignoreArmor, rd.fatiguing)
  }

  /** `resultOverride ?? result`: an override of 0 stands. */
  function DefenseResultOf(rd: RollData): (r: int)
    reads rd
    ensures rd.resultOverride.Some? ==> r == rd.resultOverride.value
    ensures rd.resultOverride.None? ==> r == rd.result
  {
    rd.resultOverride.GetOr(rd.result)
  }

  class CombatSession {
    var lastAttack: Message?
    var lastRoll: Message?

    constructor ()
      ensures lastAttack == null && lastRoll == null
    {
      lastAttack := null;
      lastRoll := null;
    }

    /** Both slots hold roll messages with roll data, and `lastRoll` is
        not a drama roll. */
    ghost predicate Valid()
      reads this, if lastRoll != null then {lastRoll.rollData} else {}
    {
      && (lastRoll != null ==> lastRoll.die != null && lastRoll.rollData != null && lastRoll.rollData.kind != Drama)
      && (lastAttack != null ==> lastAttack.die != null && lastAttack.rollData != null)
    }

    /** `_checkClear`. */
    method CheckClear(messageCount: nat)
      modifies this
      ensures Slots(lastAttack, lastRoll) == Cleared(Slots(old(lastAttack), old(lastRoll)), messageCount == 0)
    {
      if messageCount == 0 {
        lastAttack := null;
        lastRoll := null;
      }
    }

    /** `_updateCombatData`: records the active combat on the message, then
        drops the pending attack when the message's context differs from
        `lastRoll`'s. `ok` is false where the source throws: a previous
        roll and a missing context on either side. */
    method UpdateCombatData(msg: Message, combat: Option<CombatContext>) returns (ok: bool)
      modifies msg`combatData, this`lastAttack
      ensures msg.combatData == UpdatedContext(old(msg.combatData), combat)
      ensures ok <==> lastRoll == null || (lastRoll.combatData.Some? && msg.combatData.Some?)
      ensures ok ==> Slots(lastAttack, lastRoll) == Invalidated(Slots(old(lastAttack), lastRoll),
        if lastRoll == null then None else lastRoll.combatData, msg.combatData)
      ensures !ok ==> lastAttack == old(lastAttack)
    {
      if combat.Some? && msg.combatData.None? {
        msg.combatData := combat;
      }
      if lastRoll == null {
        return true;
      }
      var c1 := lastRoll.combatData;
      var c2 := msg.combatData;
      if c1.None? || c2.None? {
        return false;
      }
      if c1 != c2 {
        lastAttack := null;
      }
      ok := true;
    }

    /** `_onDramaRoll`: a drama roll adds its dice to `lastRoll` when the
        user owns that message, and passes on its miracle. */
    method OnDramaRoll(msg: Message)
      requires Valid() && msg.die != null
      requires lastRoll != null ==> lastRoll.die != msg.die
      modifies if lastRoll != null then {lastRoll, lastRoll.die, lastRoll.rollData} else {}
      ensures Valid()
      ensures lastAttack == old(lastAttack) && lastRoll == old(lastRoll)
      ensures lastRoll != null && !lastRoll.isOwner ==>
        unchanged(lastRoll) && unchanged(lastRoll.die) && unchanged(lastRoll.rollData)
      ensures lastRoll != null && lastRoll.isOwner ==>
        var m := MergeDice(old(lastRoll.die.results), old(lastRoll.die.modifier), old(msg.die.results));
        && lastRoll.die.modifier == m.modifier
        && lastRoll.die.results == Evaluate(m.pool, m.modifier)
        && lastRoll.formula == DiceFormula(|m.pool|, m.modifier)
        && lastRoll.total == ActiveTotal(lastRoll.die.results)
        && lastRoll.rollData.miracle == (old(lastRoll.rollData.miracle) || msg.miracle)
        && lastRoll.rollData.kind == old(lastRoll.rollData.kind)
        && lastRoll.rollData.resultOverride == old(lastRoll.rollData.resultOverride)
        && lastRoll.combatData == old(lastRoll.combatData)
        && lastRoll.attackRollData == old(lastRoll.attackRollData)
        && lastRoll.attackMessage == old(lastRoll.attackMessage)
        && lastRoll.outcome == old(lastRoll.outcome)
    {
      if lastRoll == null || !lastRoll.isOwner {
        return;
      }
      AddDramaDice(lastRoll, msg);
      if msg.miracle {
        lastRoll.rollData.miracle := true;
      }
    }

    /** `_onCounterRoll`: the new attack against the pending one from
        another author. The loser's result is overridden to 0 for the
        damage dialog: this roll's on a Failure, the pending attack's on a
        Success. */
    method OnCounterRoll(msg: Message)
      requires lastAttack != null && lastAttack.die != null && lastAttack.rollData != null
      requires msg.die != null && msg.rollData != null && lastAttack.rollData != msg.rollData
      modifies msg`attackRollData, msg`attackMessage, msg`outcome
      modifies msg.rollData`resultOverride, lastAttack.rollData`resultOverride
      ensures var delta := OpposedDelta(lastAttack.RollResult(), msg.RollResult(), lastAttack.rollData.miracle, msg.rollData.miracle);
        && msg.outcome == CounterOutcome(delta, lastAttack.rollData.dx, lastAttack.rollData.result, msg.rollData.dx, msg.rollData.result)
        && msg.attackRollData == lastAttack.rollData
        && msg.attackMessage == lastAttack
        && msg.rollData.resultOverride == (if delta > 0 then Some(0) else old(msg.rollData.resultOverride))
        && lastAttack.rollData.resultOverride == (if delta < 0 then Some(0) else old(lastAttack.rollData.resultOverride))
    {
      var attackRollData := lastAttack.rollData;
      var counterRollData := msg.rollData;
      var counterResult := OpposedDelta(lastAttack.RollResult(), msg.RollResult(), attackRollData.miracle, counterRollData.miracle);
      msg.attackRollData := attackRollData;
      msg.attackMessage := lastAttack;
      if counterResult > 0 {
        counterRollData.resultOverride := Some(0);
      } else if counterResult < 0 {
        msg.attackRollData.resultOverride := Some(0);
      }
      msg.outcome := CounterOutcome(counterResult, attackRollData.dx, attackRollData.result, counterRollData.dx, counterRollData.result);
    }

    /** `_onAttackRoll`. */
    method OnAttackRoll(msg: Message)
      requires Valid() && msg.die != null && msg.rollData != null
      requires lastAttack != null && lastAttack != msg ==> lastAttack.rollData != msg.rollData
      modifies this`lastAttack, msg`attackRollData, msg`attackMessage, msg`outcome, msg.rollData`resultOverride
      modifies if lastAttack != null then {lastAttack.rollData} else {}
      ensures Valid()
      ensures lastRoll == old(lastRoll)
      ensures msg.rollData.kind == old(msg.rollData.kind) && msg.rollData.miracle == old(msg.rollData.miracle)
      ensures var counters := old(lastAttack) != null && old(lastAttack).author != msg.author;
        && (msg.rollData.dx >= 0.0 && counters ==>
              lastAttack == old(lastAttack) && msg.outcome.Countered? && msg.attackMessage == old(lastAttack))
        && (msg.rollData.dx >= 0.0 && !counters ==> lastAttack == msg && msg.outcome == AttackDeclared)
        && (msg.rollData.dx < 0.0 ==> lastAttack == old(lastAttack) && msg.outcome == HealOffered)
    {
      if msg.rollData.dx >= 0.0 {
        if lastAttack != null && lastAttack.author != msg.author {
          OnCounterRoll(msg);
          return;
        }
        msg.outcome := AttackDeclared;
        lastAttack := msg;
      } else {
        msg.outcome := HealOffered;
      }
    }

    /** `_onDefenseRoll`: resolves against the pending attack and keeps it
        pending; without one it is only a defense roll. */
    method OnDefenseRoll(msg: Message)
      requires Valid() && msg.die != null && msg.rollData != null
      modifies msg`attackRollData, msg`outcome
      ensures lastAttack == null ==> msg.outcome == DefenseUnopposed && msg.attackRollData == old(msg.attackRollData)
      ensures lastAttack != null ==>
        && msg.attackRollData == lastAttack.rollData
        && msg.outcome == DefenseOutcome(
             OpposedDelta(lastAttack.RollResult(), msg.RollResult(), lastAttack.rollData.miracle, msg.rollData.miracle),
             lastAttack.rollData.dx)
    {
      if lastAttack == null {
        msg.outcome := DefenseUnopposed;
        return;
      }
      var attackRollData := lastAttack.rollData;
      var defenseRollData := msg.rollData;
      var result := OpposedDelta(lastAttack.RollResult(), msg.RollResult(), attackRollData.miracle, defenseRollData.miracle);
      msg.attackRollData := attackRollData;
      msg.outcome := DefenseOutcome(result, attackRollData.dx);
    }

    /** `_onSpellRoll`: the stored result against the difficulty. */
    method OnSpellRoll(msg: Message)
      requires msg.rollData != null
      modifies msg`outcome
      ensures msg.outcome == SpellOutcome(msg.rollData.result, msg.rollData.dn, msg.rollData.miracle)
    {
      var spellRoll := msg.rollData;
      msg.outcome := SpellOutcome(spellRoll.result, spellRoll.dn, spellRoll.miracle);
    }

    /** `listenToCombatRolls` for a newly rendered message, with the number
        of messages in the log and the active combat. */
    method ListenToCombatRolls(msg: Message, messageCount: nat, combat: Option<CombatContext>) returns (status: Status)
      requires Valid()
      requires lastRoll != null && lastRoll != msg ==> lastRoll.die != msg.die && lastRoll.rollData != msg.rollData
      requires lastAttack != null && lastAttack != msg ==> lastAttack.die != msg.die && lastAttack.rollData != msg.rollData
      modifies this, msg, msg.rollData
      modifies if lastRoll != null then {lastRoll, lastRoll.die, lastRoll.rollData} else {}
      modifies if lastAttack != null then {lastAttack.rollData} else {}
      ensures Valid()
      ensures var c1 := if old(lastRoll) == null then None
                        else if old(lastRoll) == msg then UpdatedContext(old(msg.combatData), combat)
                        else old(lastRoll.combatData);
        var r := Step(Slots(old(lastAttack), old(lastRoll)), msg, messageCount == 0,
                      if msg.rollData == null then None else Some(old(msg.rollData.kind)),
                      if msg.rollData == null then 0.0 else msg.rollData.dx,
                      c1, UpdatedContext(old(msg.combatData), combat));
        && status == r.status
        && Slots(lastAttack, lastRoll) == r.slots
        && (status == Handled ==> msg.rollData.kind == r.kind.value)
    {
      CheckClear(messageCount);
      if msg.die == null || msg.rollData == null {
        return Ignored;
      }
      var ok := UpdateCombatData(msg, combat);
      if !ok {
        return Aborted;
      }
      Dispatch(msg);
      status := Handled;
    }

    /** The handlers by roll type, once the message's context is checked. */
    method Dispatch(msg: Message)
      requires Valid() && msg.die != null && msg.rollData != null
      requires lastRoll != null && lastRoll != msg ==> lastRoll.die != msg.die && lastRoll.rollData != msg.rollData
      requires lastAttack != null && lastAttack != msg ==> lastAttack.die != msg.die && lastAttack.rollData != msg.rollData
      modifies this, msg, msg.rollData
      modifies if lastRoll != null then {lastRoll, lastRoll.die, lastRoll.rollData} else {}
      modifies if lastAttack != null then {lastAttack.rollData} else {}
      ensures Valid()
      ensures var r := Dispatched(Slots(old(lastAttack), old(lastRoll)), msg, old(msg.rollData.kind), msg.rollData.dx);
        Slots(lastAttack, lastRoll) == r.slots && msg.rollData.kind == r.kind.value
    {
      var rollData := msg.rollData;
      if rollData.kind == Drama {
        OnDramaRoll(msg);
      }
      if rollData.kind != Drama {
        lastRoll := msg;
      }
      if rollData.kind == Attack {
        OnAttackRoll(msg);
      }
      if rollData.kind == Manual && lastAttack != null {
        rollData.kind := Defense;
      }
      if rollData.kind == Defense {
        OnDefenseRoll(msg);
      }
      if rollData.kind == Spell {
        OnSpellRoll(msg);
      }
    }

    /** `_onTakeDamageClick` on a response message: the pending attack's
        data against this message's result, overridden or not. It fails
        where the source returns or throws: no target, no roll data on
        either side, or no pending attack. */
    method OnTakeDamageClick(msg: Message, haveTargets: bool) returns (req: Option<DamageRequest>)
      ensures req.Some? <==> haveTargets && msg.attackRollData != null && msg.rollData != null && lastAttack != null
      ensures req.Some? ==> req.value == DamageRequest(AttackOf(msg.attackRollData), DefenseResultOf(msg.rollData))
    {
      if !haveTargets || msg.rollData == null || lastAttack == null || msg.attackRollData == null {
        return None;
      }
      req := Some(DamageRequest(AttackOf(msg.attackRollData), DefenseResultOf(msg.rollData)));
    }
  }

  /** `_onApplyDamageClick` on a counter message: this message's roll data
      against the countered attack's result, for the countered attacker as
      target. */
  method OnApplyDamageClick(msg: Message) returns (req: Option<DamageRequest>, target: int)
    ensures req.Some? <==> msg.attackMessage != null && msg.attackRollData != null && msg.rollData != null
    ensures req.Some? ==> req.value == DamageRequest(AttackOf(msg.rollData), DefenseResultOf(msg.attackRollData))
    ensures req.Some? ==> target == msg.attackMessage.author
  {
    target := 0;
    if msg.attackMessage == null || msg.attackRollData == null || msg.rollData == null {
      return None, target;
    }
    target := msg.attackMessage.author;
    req := Some(DamageRequest(AttackOf(msg.rollData), DefenseResultOf(msg.attackRollData)));
  }
}

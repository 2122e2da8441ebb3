/** The remaining duration of an active effect: time-based in seconds of
    world time, turn-based in combat rounds and turns, or unlimited, with
    the label shown for it. */
module Duration {
  import opened Wrappers

  /** The number of combatants of a running combat, at least one. */
  type TurnCount = n: int | n >= 1 witness 1

  /** The running combat's clock. */
  datatype CombatClock = CombatClock(round: int, turn: int, nTurns: TurnCount)

  /** The stored duration fields; `seconds` is `Some` when it is a finite
      number. */
  datatype DurationFields = DurationFields(
    seconds: Option<real>, startTime: Option<real>,
    rounds: Option<int>, turns: Option<int>,
    startRound: Option<int>, startTurn: Option<int>)

  /** The localisation keys of a label part. */
  datatype Unit = RoundUnit | RoundsUnit | TurnUnit | TurnsUnit

  datatype LabelPart = LabelPart(count: real, unit: Unit)

  /** The duration report; an empty label reads "∞". */
  datatype DurationReport =
    | SecondsLeft(duration: real, remaining: real, shownSeconds: int)
    | TurnsLeft(duration: real, remaining: real, parts: seq<LabelPart>)
    | Unlimited

  function MaxReal(a: real, b: real): real { if a >= b then a else b }
  function MinReal(a: real, b: real): real { if a <= b then a else b }

  function Ceil(x: real): int { -((-x).Floor) }

  /** `rounds || turns`: either is set and not zero. */
  predicate TurnBased(d: DurationFields)
  {
    (d.rounds.Some? && d.rounds.value != 0) || (d.turns.Some? && d.turns.value != 0)
  }

  /** `_getCombatTime`: rounds plus turns as a fraction of `nTurns`. */
  function CombatTime(rounds: Option<int>, turns: Option<int>, nTurns: TurnCount): (t: real)
    ensures t == rounds.GetOr(0) as real + turns.GetOr(0) as real / nTurns as real
  {
    rounds.GetOr(0) as real + turns.GetOr(0) as real / nTurns as real
  }

  /** `_getDurationLabel`: rounds, then turns, each only when positive,
      singular exactly at 1. */
  function DurationLabel(rounds: real, turns: real): (l: seq<LabelPart>)
    ensures |l| <= 2
    ensures l == [] <==> rounds <= 0.0 && turns <= 0.0
    ensures rounds > 0.0 ==> l[0] == LabelPart(rounds, if rounds == 1.0 then RoundUnit else RoundsUnit)
    ensures turns > 0.0 ==> l[|l| - 1] == LabelPart(turns, if turns == 1.0 then TurnUnit else TurnsUnit)
    ensures forall i :: 0 <= i < |l| ==> l[i].count > 0.0
  {
    var r := if rounds > 0.0 then [LabelPart(rounds, if rounds == 1.0 then RoundUnit else RoundsUnit)] else [];
    var t := if turns > 0.0 then [LabelPart(turns, if turns == 1.0 then TurnUnit else TurnsUnit)] else [];
    r + t
  }

  /** The remaining turn-based time, given how combat time is counted for
      the current moment, the duration and the start. */
  function TurnsReport(d: DurationFields, current: real, duration: real, start: real, nTurns: TurnCount): DurationReport
  {
    if current <= start then
      TurnsLeft(duration, duration, DurationLabel(d.rounds.GetOr(0) as real, d.turns.GetOr(0) as real))
    else
      var remaining := MaxReal(start + duration - current, 0.0);
      var remainingRounds := remaining.Floor;
      var remainingTurns := MinReal((remaining - remainingRounds as real) * 100.0, (nTurns - 1) as real);
      TurnsLeft(duration, remaining, DurationLabel(remainingRounds as real, remainingTurns))
  }

  /** The `duration` getter at world time `now` with the running combat,
      if any. The current time and the duration are counted with one turn
      per round while the start is counted with the combat's turns. */
  function DurationOf(d: DurationFields, now: real, combat: Option<CombatClock>): DurationReport
  {
    if d.seconds.Some? then
      var start := d.startTime.GetOr(now);
      var remaining := MaxReal(d.seconds.value - (now - start), 0.0);
      SecondsLeft(d.seconds.value, remaining, Ceil(remaining))
    else if TurnBased(d) then
      var nTurns: TurnCount := if combat.Some? then combat.value.nTurns else 1;
      var current := CombatTime(Some(if combat.Some? then combat.value.round else 0), Some(if combat.Some? then combat.value.turn else 0), 1);
      var duration := CombatTime(d.rounds, d.turns, 1);
      var start := CombatTime(d.startRound, d.startTurn, nTurns);
      TurnsReport(d, current, duration, start, nTurns)
    else Unlimited
  }

  /** Finite seconds come first, then set rounds or turns; with neither the
      duration is unlimited. */
  lemma DurationPrecedence(d: DurationFields, now: real, combat: Option<CombatClock>)
    ensures DurationOf(d, now, combat).SecondsLeft? <==> d.seconds.Some?
    ensures DurationOf(d, now, combat).TurnsLeft? <==> d.seconds.None? && TurnBased(d)
    ensures DurationOf(d, now, combat).Unlimited? <==> d.seconds.None? && !TurnBased(d)
  {
  }

  /** Seconds left are the duration less the time elapsed since the start,
      never negative; without a start time nothing has elapsed. */
  lemma SecondsRemaining(d: DurationFields, now: real, combat: Option<CombatClock>)
    requires d.seconds.Some?
    ensures var r := DurationOf(d, now, combat);
      && r.duration == d.seconds.value
      && r.remaining >= 0.0
      && r.remaining == MaxReal(d.seconds.value - (now - d.startTime.GetOr(now)), 0.0)
      && (d.startTime.None? && d.seconds.value >= 0.0 ==> r.remaining == d.seconds.value)
      && r.remaining as real <= r.shownSeconds as real < r.remaining + 1.0
  {
  }

  /** Before the start has passed the whole duration remains; afterwards
      what remains is never negative and, for a positive duration, less
      than the duration. */
  lemma TurnsRemaining(d: DurationFields, current: real, duration: real, start: real, nTurns: TurnCount)
    ensures var r := TurnsReport(d, current, duration, start, nTurns);
      && r.TurnsLeft? && r.duration == duration
      && (current <= start ==>
            && r.remaining == duration
            && r.parts == DurationLabel(d.rounds.GetOr(0) as real, d.turns.GetOr(0) as real))
      && (current > start ==>
            && r.remaining == MaxReal(start + duration - current, 0.0)
            && r.remaining >= 0.0
            && (duration > 0.0 ==> r.remaining < duration))
  {
  }

  /** The label after the start: whole rounds left, and the fraction as at
      most `nTurns - 1` turns. */
  lemma TurnsLabel(d: DurationFields, current: real, duration: real, start: real, nTurns: TurnCount)
    requires current > start
    ensures var r := TurnsReport(d, current, duration, start, nTurns);
      var rounds := r.remaining.Floor as real;
      var turns := MinReal((r.remaining - rounds) * 100.0, (nTurns - 1) as real);
      && r.parts == DurationLabel(rounds, turns)
      && turns <= (nTurns - 1) as real
      && 0.0 <= rounds <= r.remaining
  {
  }

  /** With no duration fields the effect is unlimited. */
  lemma NoDurationFields(now: real, combat: Option<CombatClock>)
    ensures DurationOf(DurationFields(None, None, None, None, None, None), now, combat) == Unlimited
  {
  }

  /** One turn after an effect started, in a combat of four turns, an
      effect of one round is already over: the turn counts as a whole round
      for the current time. */
  lemma OneTurnLaterExpired()
    ensures var d := DurationFields(None, None, Some(1), None, Some(1), Some(2));
      DurationOf(d, 0.0, Some(CombatClock(1, 3, 4))).remaining == 0.0
  {
    var d := DurationFields(None, None, Some(1), None, Some(1), Some(2));
    assert CombatTime(Some(1), Some(3), 1) == 4.0;
    assert CombatTime(Some(1), Some(2), 4) == 1.5;
  }

  /** The duration getter with the current time and the duration counted
      in the combat's turns, like the start. */
  function DurationCorrected(d: DurationFields, now: real, combat: Option<CombatClock>): DurationReport
  {
    if d.seconds.Some? then DurationOf(d, now, combat)
    else if TurnBased(d) then
      var nTurns: TurnCount := if combat.Some? then combat.value.nTurns else 1;
      var current := CombatTime(Some(if combat.Some? then combat.value.round else 0), Some(if combat.Some? then combat.value.turn else 0), nTurns);
      var duration := CombatTime(d.rounds, d.turns, nTurns);
      var start := CombatTime(d.startRound, d.startTurn, nTurns);
      TurnsReport(d, current, duration, start, nTurns)
    else Unlimited
  }

  /** Counted in one unit, an effect that started at `(startRound,
      startTurn)` and lasts `rounds` rounds has exactly the time left that
      has not yet elapsed, until it runs out. */
  lemma CorrectedRemaining(d: DurationFields, c: CombatClock)
    requires d.seconds.None? && TurnBased(d)
    requires var start := CombatTime(d.startRound, d.startTurn, c.nTurns);
      var now := CombatTime(Some(c.round), Some(c.turn), c.nTurns);
      start < now <= start + CombatTime(d.rounds, d.turns, c.nTurns)
    ensures var r := DurationCorrected(d, 0.0, Some(c));
      r.remaining == CombatTime(d.startRound, d.startTurn, c.nTurns) + CombatTime(d.rounds, d.turns, c.nTurns)
                     - CombatTime(Some(c.round), Some(c.turn), c.nTurns)
  {
  }

  /** The corrected getter keeps three quarters of the round in the example
      above. */
  lemma OneTurnLaterCorrected()
    ensures var d := DurationFields(None, None, Some(1), None, Some(1), Some(2));
      DurationCorrected(d, 0.0, Some(CombatClock(1, 3, 4))).remaining == 0.75
  {
    var d := DurationFields(None, None, Some(1), None, Some(1), Some(2));
    assert CombatTime(Some(1), Some(3), 4) == 1.75;
    assert CombatTime(Some(1), Some(2), 4) == 1.5;
    assert CombatTime(Some(1), None, 4) == 1.0;
  }
}

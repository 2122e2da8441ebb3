/** The effect engine of abilities and perks: immediate stat changes
    ("apply-changes") applied to a target's data under one of the host's
    active-effect modes, duration-bound active-effect descriptors
    ("apply-active-effect"), and the active-effect documents built from
    those descriptors, with their over-time flag. Formulas are a small
    arithmetic language over `@path` references. */
module Effects {
  import opened Wrappers
  import opened Text
  import opened Sorting

  // The host's active-effect modes.
  const CUSTOM: int := 0
  const MULTIPLY: int := 1
  const ADD: int := 2
  const DOWNGRADE: int := 3
  const UPGRADE: int := 4
  const OVERRIDE: int := 5

  // ---------------------------------------------------------------------
  // Target data and paths

  /** A dotted property path of the target data: `level` and `item.*` are
      the two entries `apply` exposes to formulas, everything else is a
      stat path such as `hp.max` or `globalMod`. */
  datatype Path = Level | ItemField(name: string) | Stat(name: string)

  function ParsePath(key: string): Path
  {
    if key == "level" then Level
    else if |key| >= 5 && key[..5] == "item." then ItemField(key[5..])
    else Stat(key)
  }

  /** Different keys are different paths. */
  lemma ParsePathInjective(a: string, b: string)
    requires ParsePath(a) == ParsePath(b)
    ensures a == b
  {
    if ParsePath(a).ItemField? {
      assert a == a[..5] + a[5..];
      assert b == b[..5] + b[5..];
    }
  }

  /** What `apply` and a formula see of the target: its stats, the source
      item's system data (the `item` entry) and the signed `level`. */
  datatype TargetState = TargetState(
    store: map<string, real>,
    item: map<string, real>,
    level: real,
    changes: seq<ChangeRecord>,
    activeEffects: seq<ActiveEffectRecord>)

  /** `foundry.utils.getProperty`; `None` where the path is unset. */
  function Read(st: TargetState, p: Path): Option<real>
  {
    match p
    case Level => Some(st.level)
    case ItemField(k) => if k in st.item then Some(st.item[k]) else None
    case Stat(k) => if k in st.store then Some(st.store[k]) else None
  }

  /** `foundry.utils.setProperty`. */
  function Write(st: TargetState, p: Path, v: real): TargetState
  {
    match p
    case Level => st.(level := v)
    case ItemField(k) => st.(item := st.item[k := v])
    case Stat(k) => st.(store := st.store[k := v])
  }

  /** A write sets its own path and no other. */
  lemma ReadWrite(st: TargetState, p: Path, v: real, q: Path)
    ensures Read(Write(st, p, v), q) == if q == p then Some(v) else Read(st, q)
    ensures Write(st, p, v).changes == st.changes
    ensures Write(st, p, v).activeEffects == st.activeEffects
  {
  }

  // ---------------------------------------------------------------------
  // Formulas

  /** A formula after `@` became `data.`: numbers, references, arithmetic
      and the `Math` functions the host's proxy offers. */
  datatype Expr =
    | Num(v: real)
    | Ref(path: string)
    | Neg(a: Expr)
    | Plus(a: Expr, b: Expr)
    | Minus(a: Expr, b: Expr)
    | Times(a: Expr, b: Expr)
    | Over(a: Expr, b: Expr)
    | FloorOf(a: Expr)
    | CeilOf(a: Expr)
    | MaxOf(a: Expr, b: Expr)
    | MinOf(a: Expr, b: Expr)

  function Floor(x: real): int { x.Floor }

  function Ceil(x: real): int { -((-x).Floor) }

  function Lift2(x: Option<real>, y: Option<real>, f: (real, real) -> real): Option<real>
  {
    if x.None? || y.None? then None else Some(f(x.value, y.value))
  }

  /** `_safeEval`: `None` is the error it throws for a non-finite result
      (an unset reference, a division by zero). */
  function Eval(st: TargetState, e: Expr): Option<real>
  {
    match e
    case Num(v) => Some(v)
    case Ref(p) => Read(st, ParsePath(p))
    case Neg(a) => var x := Eval(st, a); if x.None? then None else Some(-x.value)
    case Plus(a, b) => Lift2(Eval(st, a), Eval(st, b), (x: real, y: real) => x + y)
    case Minus(a, b) => Lift2(Eval(st, a), Eval(st, b), (x: real, y: real) => x - y)
    case Times(a, b) => Lift2(Eval(st, a), Eval(st, b), (x: real, y: real) => x * y)
    case Over(a, b) =>
      var x := Eval(st, a);
      var y := Eval(st, b);
      if x.None? || y.None? || y.value == 0.0 then None else Some(x.value / y.value)
    case FloorOf(a) => var x := Eval(st, a); if x.None? then None else Some(Floor(x.value) as real)
    case CeilOf(a) => var x := Eval(st, a); if x.None? then None else Some(Ceil(x.value) as real)
    case MaxOf(a, b) => Lift2(Eval(st, a), Eval(st, b), (x: real, y: real) => if x >= y then x else y)
    case MinOf(a, b) => Lift2(Eval(st, a), Eval(st, b), (x: real, y: real) => if x <= y then x else y)
  }

  /** The paths a formula reads. */
  function Refs(e: Expr): set<string>
  {
    match e
    case Num(_) => {}
    case Ref(p) => {p}
    case Neg(a) => Refs(a)
    case FloorOf(a) => Refs(a)
    case CeilOf(a) => Refs(a)
    case Plus(a, b) => Refs(a) + Refs(b)
    case Minus(a, b) => Refs(a) + Refs(b)
    case Times(a, b) => Refs(a) + Refs(b)
    case Over(a, b) => Refs(a) + Refs(b)
    case MaxOf(a, b) => Refs(a) + Refs(b)
    case MinOf(a, b) => Refs(a) + Refs(b)
  }

  predicate HasDivision(e: Expr)
  {
    match e
    case Num(_) => false
    case Ref(_) => false
    case Over(_, _) => true
    case Neg(a) => HasDivision(a)
    case FloorOf(a) => HasDivision(a)
    case CeilOf(a) => HasDivision(a)
    case Plus(a, b) => HasDivision(a) || HasDivision(b)
    case Minus(a, b) => HasDivision(a) || HasDivision(b)
    case Times(a, b) => HasDivision(a) || HasDivision(b)
    case MaxOf(a, b) => HasDivision(a) || HasDivision(b)
    case MinOf(a, b) => HasDivision(a) || HasDivision(b)
  }

  /** A formula reads nothing but its references. */
  lemma {:induction false} EvalReadsOnlyRefs(st1: TargetState, st2: TargetState, e: Expr)
    requires forall p :: p in Refs(e) ==> Read(st1, ParsePath(p)) == Read(st2, ParsePath(p))
    ensures Eval(st1, e) == Eval(st2, e)
  {
    match e
    case Num(_) =>
    case Ref(_) =>
    case Neg(a) => EvalReadsOnlyRefs(st1, st2, a);
    case FloorOf(a) => EvalReadsOnlyRefs(st1, st2, a);
    case CeilOf(a) => EvalReadsOnlyRefs(st1, st2, a);
    case Plus(a, b) => EvalReadsOnlyRefs(st1, st2, a); EvalReadsOnlyRefs(st1, st2, b);
    case Minus(a, b) => EvalReadsOnlyRefs(st1, st2, a); EvalReadsOnlyRefs(st1, st2, b);
    case Times(a, b) => EvalReadsOnlyRefs(st1, st2, a); EvalReadsOnlyRefs(st1, st2, b);
    case Over(a, b) => EvalReadsOnlyRefs(st1, st2, a); EvalReadsOnlyRefs(st1, st2, b);
    case MaxOf(a, b) => EvalReadsOnlyRefs(st1, st2, a); EvalReadsOnlyRefs(st1, st2, b);
    case MinOf(a, b) => EvalReadsOnlyRefs(st1, st2, a); EvalReadsOnlyRefs(st1, st2, b);
  }

  /** A formula whose references are all set and that divides nowhere
      evaluates to a number. */
  lemma {:induction false} EvalDefined(st: TargetState, e: Expr)
    requires forall p :: p in Refs(e) ==> Read(st, ParsePath(p)).Some?
    requires !HasDivision(e)
    ensures Eval(st, e).Some?
  {
    match e
    case Num(_) =>
    case Ref(_) =>
    case Neg(a) => EvalDefined(st, a);
    case FloorOf(a) => EvalDefined(st, a);
    case CeilOf(a) => EvalDefined(st, a);
    case Plus(a, b) => EvalDefined(st, a); EvalDefined(st, b);
    case Minus(a, b) => EvalDefined(st, a); EvalDefined(st, b);
    case Times(a, b) => EvalDefined(st, a); EvalDefined(st, b);
    case MaxOf(a, b) => EvalDefined(st, a); EvalDefined(st, b);
    case MinOf(a, b) => EvalDefined(st, a); EvalDefined(st, b);
  }

  /** One unset reference anywhere makes the whole formula an error. */
  lemma {:induction false} EvalMissingRef(st: TargetState, e: Expr, p: string)
    requires p in Refs(e) && Read(st, ParsePath(p)).None?
    ensures Eval(st, e).None?
  {
    match e
    case Num(_) =>
    case Ref(_) =>
    case Neg(a) => EvalMissingRef(st, a, p);
    case FloorOf(a) => EvalMissingRef(st, a, p);
    case CeilOf(a) => EvalMissingRef(st, a, p);
    case Plus(a, b) => if p in Refs(a) { EvalMissingRef(st, a, p); } else { EvalMissingRef(st, b, p); }
    case Minus(a, b) => if p in Refs(a) { EvalMissingRef(st, a, p); } else { EvalMissingRef(st, b, p); }
    case Times(a, b) => if p in Refs(a) { EvalMissingRef(st, a, p); } else { EvalMissingRef(st, b, p); }
    case Over(a, b) => if p in Refs(a) { EvalMissingRef(st, a, p); } else { EvalMissingRef(st, b, p); }
    case MaxOf(a, b) => if p in Refs(a) { EvalMissingRef(st, a, p); } else { EvalMissingRef(st, b, p); }
    case MinOf(a, b) => if p in Refs(a) { EvalMissingRef(st, a, p); } else { EvalMissingRef(st, b, p); }
  }

  // ---------------------------------------------------------------------
  // Effect definitions

  datatype EffectKind = ApplyChanges | ApplyActiveEffect | OtherKind

  /** A formula field: unset, the empty string, or a formula. */
  datatype ValueField = Missing | Blank | Formula(e: Expr)

  datatype OverTime = OverTime(when: string, key: string, keyValue: Option<string>, mode: int, value: ValueField)

  /** An effect as stored on an ability or perk. */
  datatype EffectData = EffectData(
    kind: EffectKind,
    target: string,
    key: string,
    keyValue: Option<string>,
    mode: int,
    priority: int,
    value: ValueField,
    overTime: Option<OverTime>,
    duration: Option<int>)

  /** The item an effect comes from: `system` is its system data (numeric
      paths and flavor), `None` when the item has none. */
  datatype ItemSystem = ItemSystem(values: map<string, real>, flavor: Option<string>)

  datatype EffectSource = EffectSource(name: string, kind: string, uuid: string, system: Option<ItemSystem>)

  /** `new OVAEffect(item, data)`. */
  datatype SourcedEffect = SourcedEffect(source: EffectSource, data: EffectData)

  /** A change record `apply` appends to the target's `changes`. */
  datatype ChangeRecord = ChangeRecord(
    sourceName: string, sourceKind: string, key: string, mode: int, value: real, keyValue: string, priority: int)

  /** A descriptor `apply` appends to the target's `activeEffects`. */
  datatype ActiveEffectRecord = ActiveEffectRecord(uuid: string, name: string, kind: string, level: real, data: EffectData)

  /** Sources whose document type is `weakness` or `flaw` count their level
      negatively. `kind` is the document type; a weakness as the sheets
      create it is an `ability` document whose `system.type` is `weakness`,
      which this test does not look at. */
  function SignedLevel(kind: string, level: Option<real>): (l: real)
    ensures (kind == "weakness" || kind == "flaw") ==> l == -level.GetOr(0.0)
    ensures !(kind == "weakness" || kind == "flaw") ==> l == level.GetOr(0.0)
  {
    var sign := if kind in ["weakness", "flaw"] then -1.0 else 1.0;
    sign * level.GetOr(0.0)
  }

  function SystemOf(src: EffectSource): ItemSystem
  {
    src.system.GetOr(ItemSystem(map[], None))
  }

  function LevelOf(sys: ItemSystem): Option<real>
  {
    if "level.value" in sys.values then Some(sys.values["level.value"]) else None
  }

  /** `keyValue ?? flavor ?? ""`: an empty key value stands. */
  function ResolvedKeyValue(keyValue: Option<string>, flavor: Option<string>): (r: string)
    ensures keyValue.Some? ==> r == keyValue.value
    ensures keyValue.None? && flavor.Some? ==> r == flavor.value
    ensures keyValue.None? && flavor.None? ==> r == ""
  {
    if keyValue.Some? then keyValue.value else flavor.GetOr("")
  }

  /** `key.replace(/\?/g, keyValue)`. */
  function ResolveKey(key: string, keyValue: string): string
  {
    ReplaceAll(key, '?', keyValue)
  }

  /** Every `?` is filled in, and a key without one stays as it is. */
  lemma ResolveKeyFills(key: string, keyValue: string)
    ensures '?' !in keyValue ==> '?' !in ResolveKey(key, keyValue)
    ensures '?' !in key ==> ResolveKey(key, keyValue) == key
    ensures |ResolveKey(key, keyValue)| == |key| + Occurrences(key, '?') * (|keyValue| - 1)
  {
    if '?' !in keyValue {
      ReplaceAllRemoves(key, '?', keyValue);
    }
    if '?' !in key {
      ReplaceAllWithout(key, '?', keyValue);
    }
    ReplaceAllLength(key, '?', keyValue);
  }

  // ---------------------------------------------------------------------
  // Change modes

  /** One change on the current value; an unknown mode (and CUSTOM) keeps
      it. */
  function ApplyMode(current: real, mode: int, value: real): (r: real)
    ensures mode == ADD ==> r - current == value
    ensures mode == MULTIPLY ==> r == current * value
    ensures mode == DOWNGRADE ==> r <= current && r <= value && (r == current || r == value)
    ensures mode == UPGRADE ==> r >= current && r >= value && (r == current || r == value)
    ensures mode == OVERRIDE ==> r == value
    ensures !(1 <= mode <= 5) ==> r == current
  {
    if mode == ADD then current + value
    else if mode == MULTIPLY then current * value
    else if mode == DOWNGRADE then (if current <= value then current else value)
    else if mode == UPGRADE then (if current >= value then current else value)
    else if mode == OVERRIDE then value
    else current
  }

  /** Downgrade, upgrade and override settle after one application. */
  lemma ApplyModeIdempotent(current: real, mode: int, value: real)
    requires mode == DOWNGRADE || mode == UPGRADE || mode == OVERRIDE
    ensures ApplyMode(ApplyMode(current, mode, value), mode, value) == ApplyMode(current, mode, value)
  {
  }

  /** `applyEffectChanges`: the resolved path, read as 0 when unset, gets
      the change. */
  function ApplyChange(st: TargetState, key: string, mode: int, value: real, keyValue: string): TargetState
  {
    var p := ParsePath(ResolveKey(key, keyValue));
    Write(st, p, ApplyMode(Read(st, p).GetOr(0.0), mode, value))
  }

  /** Only the resolved path changes; a missing path reads as 0. */
  lemma ApplyChangeFrame(st: TargetState, key: string, mode: int, value: real, keyValue: string, q: Path)
    ensures var p := ParsePath(ResolveKey(key, keyValue));
      && Read(ApplyChange(st, key, mode, value, keyValue), q) ==
           (if q == p then Some(ApplyMode(Read(st, p).GetOr(0.0), mode, value)) else Read(st, q))
      && (Read(st, p).None? ==> Read(ApplyChange(st, key, mode, value, keyValue), p) == Some(ApplyMode(0.0, mode, value)))
      && ApplyChange(st, key, mode, value, keyValue).changes == st.changes
      && ApplyChange(st, key, mode, value, keyValue).activeEffects == st.activeEffects
  {
    var p := ParsePath(ResolveKey(key, keyValue));
    ReadWrite(st, p, ApplyMode(Read(st, p).GetOr(0.0), mode, value), q);
    ReadWrite(st, p, ApplyMode(Read(st, p).GetOr(0.0), mode, value), p);
  }

  /** Applying a downgrade, upgrade or override change again has no
      further effect. */
  lemma ApplyChangeIdempotent(st: TargetState, key: string, mode: int, value: real, keyValue: string)
    requires mode == DOWNGRADE || mode == UPGRADE || mode == OVERRIDE
    ensures var once := ApplyChange(st, key, mode, value, keyValue);
      ApplyChange(once, key, mode, value, keyValue) == once
  {
    var p := ParsePath(ResolveKey(key, keyValue));
    var once := ApplyChange(st, key, mode, value, keyValue);
    ReadWrite(st, p, ApplyMode(Read(st, p).GetOr(0.0), mode, value), p);
    ApplyModeIdempotent(Read(st, p).GetOr(0.0), mode, value);
  }

  // ---------------------------------------------------------------------
  // apply

  datatype Applied = Applied(state: TargetState, ok: bool)

  /** The target with the source's system data and signed level set. */
  function Exposed(st: TargetState, src: EffectSource): TargetState
  {
    var sys := SystemOf(src);
    st.(item := sys.values, level := SignedLevel(src.kind, LevelOf(sys)))
  }

  /** The change record an effect adds, if it is an apply-changes effect
      with a formula that evaluates. */
  function ChangeOf(st: TargetState, e: SourcedEffect): Option<ChangeRecord>
  {
    var st1 := Exposed(st, e.source);
    if e.data.kind == ApplyChanges && e.data.value.Formula? then
      var v := Eval(st1, e.data.value.e);
      if v.None? then None
      else Some(ChangeRecord(e.source.name, e.source.kind, e.data.key, e.data.mode, v.value,
                             ResolvedKeyValue(e.data.keyValue, SystemOf(e.source).flavor), e.data.priority))
    else None
  }

  /** `apply` on the target state; `ok` is false where the formula
      evaluation throws. */
  function ApplyStep(st: TargetState, e: SourcedEffect): Applied
  {
    var st1 := Exposed(st, e.source);
    if e.data.kind == ApplyChanges && e.data.value.Formula? && Eval(st1, e.data.value.e).None? then
      Applied(st1, false)
    else
      var c := ChangeOf(st, e);
      var st2 := if c.Some? then ApplyChange(st1.(changes := st1.changes + [c.value]), c.value.key, c.value.mode, c.value.value, c.value.keyValue)
                 else st1;
      if e.data.kind == ApplyActiveEffect then
        Applied(st2.(activeEffects := st2.activeEffects + [ActiveEffectRecord(e.source.uuid, e.source.name, e.source.kind, st1.level, e.data)]), true)
      else Applied(st2, true)
  }

  /** An apply-changes effect with a formula that evaluates appends exactly
      one change record and applies it; with no formula it changes no stat;
      with a formula that fails it stops with an error. */
  lemma ApplyChangesEffect(st: TargetState, e: SourcedEffect)
    requires e.data.kind == ApplyChanges
    ensures var st1 := Exposed(st, e.source); var r := ApplyStep(st, e);
      && r.state.activeEffects == st.activeEffects
      && (!e.data.value.Formula? ==> r.ok && r.state == st1)
      && (e.data.value.Formula? && Eval(st1, e.data.value.e).None? ==> !r.ok && r.state.changes == st.changes)
      && (e.data.value.Formula? && Eval(st1, e.data.value.e).Some? ==>
            var v := Eval(st1, e.data.value.e).value;
            var kv := ResolvedKeyValue(e.data.keyValue, SystemOf(e.source).flavor);
            && r.ok
            && r.state.changes == st.changes + [ChangeRecord(e.source.name, e.source.kind, e.data.key, e.data.mode, v, kv, e.data.priority)]
            && forall q :: Read(r.state, q) ==
                 if q == ParsePath(ResolveKey(e.data.key, kv)) then Some(ApplyMode(Read(st1, q).GetOr(0.0), e.data.mode, v))
                 else Read(st1, q))
  {
    var st1 := Exposed(st, e.source);
    if e.data.value.Formula? && Eval(st1, e.data.value.e).Some? {
      var c := ChangeOf(st, e).value;
      var st1c := st1.(changes := st1.changes + [c]);
      forall q ensures Read(ApplyStep(st, e).state, q) ==
        if q == ParsePath(ResolveKey(e.data.key, c.keyValue)) then Some(ApplyMode(Read(st1, q).GetOr(0.0), e.data.mode, c.value))
        else Read(st1, q)
      {
        ApplyChangeFrame(st1c, c.key, c.mode, c.value, c.keyValue, q);
        assert Read(st1c, q) == Read(st1, q);
        assert Read(st1c, ParsePath(ResolveKey(e.data.key, c.keyValue))) == Read(st1, ParsePath(ResolveKey(e.data.key, c.keyValue)));
      }
      ApplyChangeFrame(st1c, c.key, c.mode, c.value, c.keyValue, Level);
    }
  }

  /** An apply-active-effect effect appends exactly one descriptor, with the
      signed level, and touches no stat. */
  lemma ApplyActiveEffectEffect(st: TargetState, e: SourcedEffect)
    requires e.data.kind == ApplyActiveEffect
    ensures var st1 := Exposed(st, e.source); var r := ApplyStep(st, e);
      && r.ok
      && r.state == st1.(activeEffects := st.activeEffects +
           [ActiveEffectRecord(e.source.uuid, e.source.name, e.source.kind, SignedLevel(e.source.kind, LevelOf(SystemOf(e.source))), e.data)])
      && r.state.changes == st.changes
      && r.state.store == st.store
  {
  }

  /** Applying an effect exposes its source's system data and signed level
      to formulas. */
  lemma ExposedFrame(st: TargetState, src: EffectSource)
    ensures Read(Exposed(st, src), Level) == Some(SignedLevel(src.kind, LevelOf(SystemOf(src))))
    ensures forall k :: Read(Exposed(st, src), ItemField(k)) == if k in SystemOf(src).values then Some(SystemOf(src).values[k]) else None
    ensures forall k :: Read(Exposed(st, src), Stat(k)) == Read(st, Stat(k))
  {
  }

  /** A sequence of effects applied in order, stopping at the first error. */
  function ApplyAll(st: TargetState, es: seq<SourcedEffect>): Applied
    decreases |es|
  {
    if |es| == 0 then Applied(st, true)
    else
      var r := ApplyAll(st, es[..|es| - 1]);
      if !r.ok then r else ApplyStep(r.state, es[|es| - 1])
  }

  lemma {:induction false} ApplyAllStops(st: TargetState, es: seq<SourcedEffect>, n: nat)
    requires n <= |es|
    requires !ApplyAll(st, es[..n]).ok
    ensures ApplyAll(st, es) == ApplyAll(st, es[..n])
    decreases |es| - n
  {
    if n < |es| {
      assert es[..|es| - 1][..n] == es[..n];
      ApplyAllStops(st, es[..|es| - 1], n);
    } else {
      assert es[..n] == es;
    }
  }

  function PriorityOf(e: SourcedEffect): int { e.data.priority }

  /** `sort((a, b) => a.data.priority - b.data.priority)`. */
  function ByPriority(): (SourcedEffect, SourcedEffect) -> bool
  {
    ByKey(PriorityOf)
  }

  /** Effects are stacked in ascending priority, all of them. */
  lemma PriorityOrder(es: seq<SourcedEffect>)
    ensures |SortBy(es, ByPriority())| == |es|
    ensures multiset(SortBy(es, ByPriority())) == multiset(es)
    ensures forall i, j :: 0 <= i < j < |es| ==> SortBy(es, ByPriority())[i].data.priority <= SortBy(es, ByPriority())[j].data.priority
  {
    SortByKeySorted(es, PriorityOf);
  }

  function ResolvedPathOf(e: SourcedEffect): Path
  {
    ParsePath(ResolveKey(e.data.key, ResolvedKeyValue(e.data.keyValue, SystemOf(e.source).flavor)))
  }

  lemma SortTwo(a: SourcedEffect, b: SourcedEffect)
    requires a.data.priority < b.data.priority
    ensures SortBy([a, b], ByPriority()) == [a, b]
    ensures SortBy([b, a], ByPriority()) == [a, b]
  {
    var le := ByPriority();
    assert le(a, b) == (PriorityOf(a) <= PriorityOf(b));
    assert le(b, a) == (PriorityOf(b) <= PriorityOf(a));
    SortPair(a, b, le);
    SortPair(b, a, le);
  }

  lemma ApplyTwo(st: TargetState, a: SourcedEffect, b: SourcedEffect)
    requires ApplyStep(st, a).ok
    ensures ApplyAll(st, [a, b]) == ApplyStep(ApplyStep(st, a).state, b)
  {
    assert [a, b][..1] == [a];
    assert [a][..0] == [];
    assert ApplyAll(st, []) == Applied(st, true);
    assert ApplyAll(st, [a]) == ApplyStep(st, a);
  }

  lemma OverrideWins(st: TargetState, b: SourcedEffect, vb: real)
    requires b.data.kind == ApplyChanges && b.data.mode == OVERRIDE && b.data.value == Formula(Num(vb))
    ensures ApplyStep(st, b).ok
    ensures Read(ApplyStep(st, b).state, ResolvedPathOf(b)) == Some(vb)
  {
    ApplyChangesEffect(st, b);
  }

  /** Two overrides of the same stat stack so that the one with the higher
      priority decides, in whichever order the item lists them. */
  lemma OverrideStacking(st: TargetState, a: SourcedEffect, b: SourcedEffect, va: real, vb: real)
    requires a.data.kind == ApplyChanges && a.data.mode == OVERRIDE && a.data.value == Formula(Num(va))
    requires b.data.kind == ApplyChanges && b.data.mode == OVERRIDE && b.data.value == Formula(Num(vb))
    requires ResolvedPathOf(a) == ResolvedPathOf(b)
    requires a.data.priority < b.data.priority
    ensures Read(ApplyAll(st, SortBy([a, b], ByPriority())).state, ResolvedPathOf(a)) == Some(vb)
    ensures Read(ApplyAll(st, SortBy([b, a], ByPriority())).state, ResolvedPathOf(a)) == Some(vb)
  {
    SortTwo(a, b);
    OverrideWins(st, a, va);
    ApplyTwo(st, a, b);
    OverrideWins(ApplyStep(st, a).state, b, vb);
  }

  // ---------------------------------------------------------------------
  // createActiveEffect

  datatype Evaluated = BlankValue | Number(n: real)

  datatype AeChange = AeChange(key: string, mode: int, value: Evaluated, priority: int)

  datatype AeFlag = AeFlag(key: string, mode: int, value: Evaluated)

  /** The active-effect document data. */
  datatype AeData = AeData(
    title: string, origin: Option<string>, disabled: bool, changes: seq<AeChange>,
    rounds: Option<int>, flags: map<string, AeFlag>)

  /** What `createActiveEffect` is given: the effect's source entries
      (`item`, `level`, `name`, `uuid`) and its effect data. */
  datatype AeInput = AeInput(item: Option<map<string, real>>, level: Option<real>, name: string, uuid: Option<string>, data: EffectData)

  /** A descriptor from `apply` as input. */
  function DescriptorInput(d: ActiveEffectRecord): AeInput
  {
    AeInput(None, Some(d.level), d.name, Some(d.uuid), d.data)
  }

  /** A formula field: the empty string stays empty, an unset one throws in
      `_safeEval`. */
  function EvalField(st: TargetState, v: ValueField): (r: Option<Evaluated>)
    ensures v.Blank? ==> r == Some(BlankValue)
    ensures v.Missing? ==> r.None?
    ensures v.Formula? ==> (r.Some? <==> Eval(st, v.e).Some?) && (r.Some? ==> r.value == Number(Eval(st, v.e).value))
  {
    match v
    case Missing => None
    case Blank => Some(BlankValue)
    case Formula(e) => var x := Eval(st, e); if x.None? then None else Some(Number(x.value))
  }

  /** The over-time flag applies when both its `when` and `key` are set. */
  predicate OverTimeActive(o: Option<OverTime>)
  {
    o.Some? && o.value.when != "" && o.value.key != ""
  }

  /** `createActiveEffect` on the roll data `st` after its `item` and
      `level` were set; `None` where a formula evaluation throws. */
  function ActiveEffectOf(st: TargetState, input: AeInput): Option<AeData>
  {
    var d := input.data;
    var value := EvalField(st, d.value);
    var change := AeChange(ResolveKey(d.key, d.keyValue.GetOr("")), d.mode, value.GetOr(BlankValue), d.priority);
    var base := AeData(input.name, input.uuid, false, [change], d.duration, map[]);
    if value.None? then None
    else if OverTimeActive(d.overTime) then
      var o := d.overTime.value;
      var ot := EvalField(st, o.value);
      if ot.None? then None
      else Some(base.(flags := map[o.when := AeFlag(ResolveKey(o.key, o.keyValue.GetOr("")), o.mode, ot.value)]))
    else Some(base)
  }

  /** An active effect has exactly one change, with the resolved key and
      the evaluated value, is enabled and lasts `duration` rounds. */
  lemma ActiveEffectShape(st: TargetState, input: AeInput)
    requires ActiveEffectOf(st, input).Some?
    ensures var r := ActiveEffectOf(st, input).value; var d := input.data;
      && r.title == input.name && r.origin == input.uuid && !r.disabled && r.rounds == d.duration
      && |r.changes| == 1
      && r.changes[0].key == ResolveKey(d.key, d.keyValue.GetOr(""))
      && r.changes[0].mode == d.mode && r.changes[0].priority == d.priority
      && Some(r.changes[0].value) == EvalField(st, d.value)
  {
  }

  /** A flag is produced iff the over-time `when` and `key` are both set;
      it is stored under `when`. */
  lemma OverTimeFlag(st: TargetState, input: AeInput)
    requires ActiveEffectOf(st, input).Some?
    ensures var r := ActiveEffectOf(st, input).value; var o := input.data.overTime;
      && (OverTimeActive(o) ==>
            && r.flags.Keys == {o.value.when}
            && r.flags[o.value.when].key == ResolveKey(o.value.key, o.value.keyValue.GetOr(""))
            && r.flags[o.value.when].mode == o.value.mode
            && Some(r.flags[o.value.when].value) == EvalField(st, o.value.value))
      && (!OverTimeActive(o) ==> r.flags == map[])
  {
  }

  /** Building fails exactly when a formula that is used throws. */
  lemma ActiveEffectErrors(st: TargetState, input: AeInput)
    ensures ActiveEffectOf(st, input).None? <==>
      EvalField(st, input.data.value).None?
      || (OverTimeActive(input.data.overTime) && EvalField(st, input.data.overTime.value.value).None?)
  {
  }

  // ---------------------------------------------------------------------
  // defaultObject

  /** `defaultObject`: an apply-changes ADD effect on the current actor
      with an empty key and value and an each-round over-time part. */
  function DefaultObject(): (d: EffectData)
    ensures d.kind == ApplyChanges && d.target == "self" && d.mode == ADD && d.priority == 0
    ensures d.key == "" && d.value == Blank
    ensures d.overTime.Some? && d.overTime.value.when == "each-round" && d.overTime.value.key == ""
  {
    EffectData(ApplyChanges, "self", "", Some(""), ADD, 0, Blank,
               Some(OverTime("each-round", "", Some(""), ADD, Blank)), None)
  }

  /** The default effect changes no stat, and the active effect built from
      it has a blank change and no over-time flag. */
  lemma DefaultObjectInert(st: TargetState, src: EffectSource, name: string, uuid: Option<string>, level: Option<real>)
    ensures ApplyStep(st, SourcedEffect(src, DefaultObject())) == Applied(Exposed(st, src), true)
    ensures ActiveEffectOf(st, AeInput(None, level, name, uuid, DefaultObject())) ==
      Some(AeData(name, uuid, false, [AeChange("", ADD, BlankValue, 0)], None, map[]))
  {
    assert ResolveKey("", "") == "";
  }

  // ---------------------------------------------------------------------
  // The target data object

  /** A target's data (`system` of an actor or item, or a roll data
      object): stats, the exposed item data and level, and the lists
      `apply` appends to. */
  class EffectTarget {
    var store: map<string, real>
    var item: map<string, real>
    var level: real
    var changes: seq<ChangeRecord>
    var activeEffects: seq<ActiveEffectRecord>

    constructor (store: map<string, real>)
      ensures State() == TargetState(store, map[], 0.0, [], [])
    {
      this.store := store;
      item := map[];
      level := 0.0;
      changes := [];
      activeEffects := [];
    }

    function State(): TargetState
      reads this
    {
      TargetState(store, item, level, changes, activeEffects)
    }

    method SetProperty(key: string, v: real)
      modifies this
      ensures State() == Write(old(State()), ParsePath(key), v)
    {
      match ParsePath(key)
      case Level => level := v;
      case ItemField(k) => item := item[k := v];
      case Stat(k) => store := store[k := v];
    }

    /** `applyEffectChanges`. */
    method ApplyEffectChanges(key: string, mode: int, value: real, keyValue: string)
      modifies this
      ensures State() == ApplyChange(old(State()), key, mode, value, keyValue)
    {
      var resolvedKey := ResolveKey(key, keyValue);
      var current := Read(State(), ParsePath(resolvedKey)).GetOr(0.0);
      var next := ApplyMode(current, mode, value);
      SetProperty(resolvedKey, next);
    }

    /** `apply`; `ok` is false where `_safeEval` throws. */
    method Apply(e: SourcedEffect) returns (ok: bool)
      modifies this
      ensures Applied(State(), ok) == ApplyStep(old(State()), e)
    {
      var itemSystem := SystemOf(e.source);
      item := itemSystem.values;
      level := SignedLevel(e.source.kind, LevelOf(itemSystem));
      var resolvedKeyValue := ResolvedKeyValue(e.data.keyValue, itemSystem.flavor);
      if e.data.kind == ApplyChanges && e.data.value.Formula? {
        var evaluated := Eval(State(), e.data.value.e);
        if evaluated.None? {
          return false;
        }
        changes := changes + [ChangeRecord(e.source.name, e.source.kind, e.data.key, e.data.mode, evaluated.value, resolvedKeyValue, e.data.priority)];
        ApplyEffectChanges(e.data.key, e.data.mode, evaluated.value, resolvedKeyValue);
      }
      if e.data.kind == ApplyActiveEffect {
        activeEffects := activeEffects + [ActiveEffectRecord(e.source.uuid, e.source.name, e.source.kind, level, e.data)];
      }
      ok := true;
    }

    /** `ovaEffects.sort(by priority).forEach(e => e.apply(target))`; an
        error stops the rest. */
    method ApplyByPriority(es: seq<SourcedEffect>) returns (ok: bool)
      modifies this
      ensures Applied(State(), ok) == ApplyAll(old(State()), SortBy(es, ByPriority()))
    {
      var sorted := SortBy(es, ByPriority());
      ok := true;
      var i := 0;
      while i < |sorted| && ok
        invariant 0 <= i <= |sorted|
        invariant Applied(State(), ok) == ApplyAll(old(State()), sorted[..i])
      {
        assert sorted[..i + 1][..i] == sorted[..i];
        ok := Apply(sorted[i]);
        i := i + 1;
      }
      if !ok {
        ApplyAllStops(old(State()), sorted, i);
      } else {
        assert sorted[..i] == sorted;
      }
    }

    /** `createActiveEffect` with this object as the roll data: it sets the
        roll data's `item` and `level`, then builds the document data. */
    method CreateActiveEffect(input: AeInput) returns (r: Option<AeData>)
      modifies this`item, this`level
      ensures item == input.item.GetOr(map[]) && level == input.level.GetOr(0.0)
      ensures r == ActiveEffectOf(State(), input)
    {
      item := input.item.GetOr(map[]);
      level := input.level.GetOr(0.0);
      r := ActiveEffectOf(State(), input);
    }
  }
}

/** The display helpers of the sheets and chat cards: the perk list of an
    ability or attack, signs, masked keys, change-mode symbols and the
    labels of effect keys. Localised text is a parameter. */
module Helpers {
  import opened Wrappers
  import opened Sorting
  import Text

  /** What the perk list reads of a perk. */
  datatype PerkView = PerkView(name: string, kind: string, level: int, flavor: Option<string>)

  /** `a.type === b.type ? names compared : types compared`. */
  function ByTypeThenName(): (PerkView, PerkView) -> bool
  {
    (a: PerkView, b: PerkView) => if a.kind == b.kind then Text.Leq(a.name, b.name) else Text.Leq(a.kind, b.kind)
  }

  lemma ByTypeThenNameTotal()
    ensures TotalPreorder(ByTypeThenName())
  {
    var le := ByTypeThenName();
    forall a: PerkView, b: PerkView ensures le(a, b) || le(b, a) {
      Text.LeqTotal(a.name, b.name);
      Text.LeqTotal(a.kind, b.kind);
    }
    forall a: PerkView, b: PerkView, c: PerkView | le(a, b) && le(b, c) ensures le(a, c) {
      if a.kind == b.kind && b.kind == c.kind {
        Text.LeqTransitive(a.name, b.name, c.name);
      } else if a.kind == b.kind || b.kind == c.kind {
      } else {
        Text.LeqTransitive(a.kind, b.kind, c.kind);
        if a.kind == c.kind {
          Text.LeqAntisymmetric(a.kind, b.kind);
        }
      }
    }
  }

  /** A set flavor, as JavaScript truthiness reads it. */
  predicate HasFlavor(p: PerkView)
  {
    p.flavor.Some? && p.flavor.value != ""
  }

  /** One perk: the name in capitals, ` X<level>` above level 1, and
      `: <flavor>` when set. */
  function Entry(p: PerkView): string
  {
    Text.ToUpper(p.name)
      + (if p.level > 1 then " X" + Text.IntToString(p.level) else "")
      + (if HasFlavor(p) then ": " + p.flavor.value else "")
  }

  /** The separator after perk `i`: `; ` before a perk of another type,
      `, ` otherwise (after the last one too). */
  function Separator(ps: seq<PerkView>, i: nat): string
    requires i < |ps|
  {
    if i < |ps| - 1 && ps[i].kind != ps[i + 1].kind then "; " else ", "
  }

  /** The first `n` perks, each followed by its separator. */
  function Entries(ps: seq<PerkView>, n: nat): string
    requires n <= |ps|
  {
    if n == 0 then "" else Entries(ps, n - 1) + Entry(ps[n - 1]) + Separator(ps, n - 1)
  }

  /** The cost part: `<cost> <short>` for a positive cost when printing is
      asked for, after `; ` when perks precede. */
  function WithCost(s: string, cost: int, printEndurance: bool, short: string): string
  {
    var c := if cost < 0 then 0 else cost;
    if c > 0 && printEndurance then (if s != "" then s + "; " else s) + Text.IntToString(c) + " " + short
    else s
  }

  /** `formatPerks` of the perks already sorted. */
  function PerkText(sorted: seq<PerkView>, cost: Option<int>, printEndurance: bool, short: string): string
  {
    WithCost(Text.DropLastTwo(Entries(sorted, |sorted|)), cost.GetOr(0), printEndurance, short)
  }

  /** The trailing separator is the one dropped: the text is the entries
      with the separators between them, the last entry ending it. */
  lemma EntriesTrimmed(ps: seq<PerkView>)
    requires |ps| > 0
    ensures Text.DropLastTwo(Entries(ps, |ps|)) == Entries(ps, |ps| - 1) + Entry(ps[|ps| - 1])
    ensures Separator(ps, |ps| - 1) == ", "
  {
    var s := Entries(ps, |ps|);
    var body := Entries(ps, |ps| - 1) + Entry(ps[|ps| - 1]);
    assert s == body + ", ";
    assert s[..|s| - 2] == body;
  }

  /** A type change between neighbours is marked by `; `, anything else by
      `, `. */
  lemma SeparatorMarksTypeChange(ps: seq<PerkView>, i: nat)
    requires i + 1 < |ps|
    ensures Separator(ps, i) == "; " <==> ps[i].kind != ps[i + 1].kind
  {
  }

  /** No perks and no cost print nothing; a negative cost prints like 0;
      without printing the cost is never shown. */
  lemma PerkTextCost(sorted: seq<PerkView>, cost: Option<int>, printEndurance: bool, short: string)
    ensures sorted == [] && cost.GetOr(0) <= 0 ==> PerkText(sorted, cost, printEndurance, short) == ""
    ensures !printEndurance || cost.GetOr(0) <= 0 ==>
      PerkText(sorted, cost, printEndurance, short) == Text.DropLastTwo(Entries(sorted, |sorted|))
    ensures printEndurance && cost.GetOr(0) > 0 && sorted == [] ==>
      PerkText(sorted, cost, printEndurance, short) == Text.IntToString(cost.GetOr(0)) + " " + short
  {
  }

  /** One perk of `formatPerks`' loop: the upper-cased name, its level
      past 1 and its flavor text. */
  method FormatEntry(p: PerkView) returns (entry: string)
    ensures entry == Entry(p)
  {
    entry := Text.ToUpper(p.name);
    if p.level > 1 {
      entry := entry + " X" + Text.IntToString(p.level);
    }
    if HasFlavor(p) {
      entry := entry + ": " + p.flavor.value;
    }
  }

  /** `formatPerks`' loop and cost over the sorted perks. */
  method FormatSorted(ps: seq<PerkView>, enduranceCost: Option<int>, printEndurance: bool, short: string) returns (s: string)
    ensures s == PerkText(ps, enduranceCost, printEndurance, short)
  {
    s := "";
    var i := 0;
    while i < |ps|
      invariant 0 <= i <= |ps|
      invariant s == Entries(ps, i)
    {
      var entry := FormatEntry(ps[i]);
      s := s + entry;
      if i < |ps| - 1 && ps[i].kind != ps[i + 1].kind {
        s := s + "; ";
      } else {
        s := s + ", ";
      }
      assert s == Entries(ps, i) + Entry(ps[i]) + Separator(ps, i);
      i := i + 1;
    }
    assert s == Entries(ps, |ps|);
    s := Text.DropLastTwo(s);
    ghost var trimmed := s;
    var cost := enduranceCost.GetOr(0);
    if cost < 0 {
      cost := 0;
    }
    if cost > 0 && printEndurance {
      if s != "" {
        s := s + "; ";
      }
      s := s + Text.IntToString(cost) + " " + short;
    }
    assert s == WithCost(trimmed, enduranceCost.GetOr(0), printEndurance, short);
  }

  /** The perks an ability or attack shows, as `formatPerks` sorts them
      in place. `None` is a missing list. */
  class PerkHolder {
    var perks: Option<seq<PerkView>>
    const enduranceCost: Option<int>

    constructor (perks: Option<seq<PerkView>>, enduranceCost: Option<int>)
      ensures this.perks == perks && this.enduranceCost == enduranceCost
    {
      this.perks := perks;
      this.enduranceCost := enduranceCost;
    }

    /** `formatPerks`: a missing list prints `""`; otherwise the list is
        sorted by type, then name, and printed. */
    method FormatPerks(printEndurance: bool, short: string) returns (s: string)
      modifies this`perks
      ensures old(perks).None? ==> s == "" && perks == old(perks)
      ensures old(perks).Some? ==>
        && perks == Some(SortBy(old(perks).value, ByTypeThenName()))
        && s == PerkText(perks.value, enduranceCost, printEndurance, short)
    {
      if perks.None? {
        return "";
      }
      var ps := SortBy(perks.value, ByTypeThenName());
      perks := Some(ps);
      s := FormatSorted(ps, enduranceCost, printEndurance, short);
    }

    /** `inlinePerks`: the printed list with its cost, in parentheses when
        not empty. */
    method InlinePerks(short: string) returns (s: string)
      modifies this`perks
      ensures old(perks).None? ==> perks == old(perks)
      ensures old(perks).Some? ==> perks == Some(SortBy(old(perks).value, ByTypeThenName()))
      ensures var t := if old(perks).None? then "" else PerkText(SortBy(old(perks).value, ByTypeThenName()), enduranceCost, true, short);
        s == (if t == "" then "" else "(" + t + ")")
    {
      s := FormatPerks(true, short);
      if s != "" {
        s := "(" + s + ")";
      }
    }
  }

  /** The sorted list holds the same perks, ordered by type, then name. */
  lemma FormatPerksOrder(ps: seq<PerkView>)
    ensures var s := SortBy(ps, ByTypeThenName());
      && multiset(s) == multiset(ps)
      && forall i, j :: 0 <= i < j < |s| ==>
           Text.Leq(s[i].kind, s[j].kind) && (s[i].kind == s[j].kind ==> Text.Leq(s[i].name, s[j].name))
  {
    var s := SortBy(ps, ByTypeThenName());
    ByTypeThenNameTotal();
    SortBySorted(ps, ByTypeThenName());
    SortByPermutes(ps, ByTypeThenName());
    forall i, j | 0 <= i < j < |s|
      ensures Text.Leq(s[i].kind, s[j].kind) && (s[i].kind == s[j].kind ==> Text.Leq(s[i].name, s[j].name))
    {
      assert ByTypeThenName()(s[i], s[j]);
      if s[i].kind == s[j].kind {
        Text.LeqTotal(s[i].kind, s[j].kind);
      }
    }
  }

  // ---------------------------------------------------------------------
  // Small helpers

  /** `abilitySign`: `+` for an ability, `-` for anything else, `""` for
      none. `kind` is the ability's `system.type` (`ability`, `weakness`
      and so on), not its document type. */
  function AbilitySign(kind: Option<string>): (s: string)
    ensures kind.None? <==> s == ""
    ensures kind == Some("ability") <==> s == "+"
  {
    match kind
    case None => ""
    case Some(k) => if k == "ability" then "+" else "-"
  }

  /** `maskedKey`: a key with a `?` to be filled in. */
  function MaskedKey(key: Option<string>): (b: bool)
    ensures b <==> key.Some? && exists i :: 0 <= i < |key.value| && key.value[i] == '?'
  {
    key.Some? && key.value != "" && '?' in key.value
  }

  /** What `signedValue` gives: the string `+<value>`, or the value. */
  datatype Signed = PlusText(text: string) | Unsigned(value: int)

  function SignedValue(value: int): Signed
  {
    if value > 0 then PlusText("+" + Text.IntToString(value)) else Unsigned(value)
  }

  /** Only positive values get a `+`, and the text after it reads back as
      the value. */
  lemma SignedValueReads(value: int)
    ensures SignedValue(value).PlusText? <==> value > 0
    ensures SignedValue(value).PlusText? ==>
      && SignedValue(value).text[0] == '+'
      && Text.ParseInt(SignedValue(value).text[1..]) == Some(value)
    ensures SignedValue(value).Unsigned? ==> SignedValue(value).value == value
  {
    if value > 0 {
      Text.ParseIntOfIntToString(value);
      assert SignedValue(value).text[1..] == Text.IntToString(value);
    }
  }

  /** `activeEffectMode`: the symbol of a change mode. */
  function ActiveEffectMode(mode: int): (s: string)
    ensures s != "" <==> mode in {1, 3, 4, 5}
  {
    if mode == 1 then "x"
    else if mode == 3 then "↓"
    else if mode == 4 then "↑"
    else if mode == 5 then "⇒"
    else ""
  }

  /** Multiply, downgrade, upgrade and override each get their own
      symbol. */
  lemma ActiveEffectModeDistinct(m1: int, m2: int)
    requires m1 in {1, 3, 4, 5} && m2 in {1, 3, 4, 5} && m1 != m2
    ensures ActiveEffectMode(m1) != ActiveEffectMode(m2)
  {
  }

  /** The prefixes whose keys name one of many entries. */
  const FoldedPrefixes: seq<string> := ["defenses.", "resistances.", "affinity."]

  predicate StartsWith(s: string, p: string) { |p| <= |s| && s[..|p|] == p }

  /** `s` up to its first `.`, and what follows that `.`. */
  function BeforeDot(s: string): (r: string)
    ensures '.' !in r
    ensures |r| <= |s| && r == s[..|r|]
    ensures |r| < |s| ==> s[|r|] == '.'
    decreases |s|
  {
    if |s| == 0 || s[0] == '.' then "" else [s[0]] + BeforeDot(s[1..])
  }

  function AfterDot(s: string): string
  {
    var b := BeforeDot(s);
    if |b| < |s| then s[|b| + 1..] else ""
  }

  /** `mapEffectKey` with `labelOf` the localised label of a key of the
      effect-key table: a key under a folded prefix is shown by its
      prefix's `.?` label and `: <name>`; any other key by its label, or
      itself where that is empty; a missing key by `""`. For a key outside
      the table `labelOf` gives what `localize(undefined) + ""` gives, the
      text `undefined`, so the key itself is shown only for an empty
      translation. */
  function MapEffectKey(key: Option<string>, labelOf: string -> string): string
  {
    if key.None? || key.value == "" then ""
    else
      var k := key.value;
      if StartsWith(k, FoldedPrefixes[0]) || StartsWith(k, FoldedPrefixes[1]) || StartsWith(k, FoldedPrefixes[2]) then
        var kind := BeforeDot(k);
        var name := BeforeDot(AfterDot(k));
        labelOf(kind + ".?") + ": " + name
      else
        if labelOf(k) != "" then labelOf(k) else k
  }

  /** All keys under one folded prefix share that prefix's label and differ
      only in the name after it. */
  lemma MapEffectKeyFolds(k: string, i: nat, labelOf: string -> string)
    requires i < |FoldedPrefixes| && StartsWith(k, FoldedPrefixes[i])
    ensures var p := FoldedPrefixes[i];
      MapEffectKey(Some(k), labelOf) == labelOf(p[..|p| - 1] + ".?") + ": " + BeforeDot(k[|p|..])
  {
    var p := FoldedPrefixes[i];
    var kind := BeforeDot(k);
    assert p[|p| - 1] == '.';
    PrefixBeforeDot(k, p[..|p| - 1]);
    assert kind == p[..|p| - 1];
    assert AfterDot(k) == k[|p|..];
  }

  /** A key that starts with a dot-free word and a dot splits there. */
  lemma {:induction false} PrefixBeforeDot(k: string, w: string)
    requires '.' !in w && |w| < |k| && k[..|w|] == w && k[|w|] == '.'
    ensures BeforeDot(k) == w
    decreases |w|
  {
    if |w| > 0 {
      assert k[0] == w[0];
      assert k[1..][..|w| - 1] == w[1..];
      PrefixBeforeDot(k[1..], w[1..]);
    }
  }

  /** Other keys show their label, or the key itself without one. */
  lemma MapEffectKeyPlain(k: string, labelOf: string -> string)
    requires k != ""
    requires forall i :: 0 <= i < |FoldedPrefixes| ==> !StartsWith(k, FoldedPrefixes[i])
    ensures MapEffectKey(Some(k), labelOf) == (if labelOf(k) != "" then labelOf(k) else k)
    ensures MapEffectKey(Some(k), labelOf) != ""
  {
    assert !StartsWith(k, FoldedPrefixes[0]) && !StartsWith(k, FoldedPrefixes[1]) && !StartsWith(k, FoldedPrefixes[2]);
  }
}

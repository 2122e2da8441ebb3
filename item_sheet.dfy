/** The item sheet: the reshaping of submitted form keys such as
    `effects[0].key` into arrays of objects, the edits of the item's
    effect list, and the guard on items dropped onto the sheet. */
module ItemSheet {
  import opened Wrappers
  import Text
  import Effects
  import Item

  // ---------------------------------------------------------------------
  // Form data

  /** A submitted form value. */
  datatype FormValue = Str(s: string) | Num(x: real) | Flag(b: bool) | Null

  /** JavaScript truthiness of a form value. */
  predicate Truthy(v: FormValue)
  {
    match v
    case Str(s) => s != ""
    case Num(x) => x != 0.0
    case Flag(b) => b
    case Null => false
  }

  /** An entry of the reshaped data: a value copied from the form, or the
      sparse array that indexed keys build, by index, each element an
      object keyed by the property name after the index. */
  datatype Slot = Value(v: FormValue) | Rows(rows: map<nat, map<string, FormValue>>)

  /** End of the run of digits that starts at `i`. */
  function DigitRun(s: string, i: nat): (j: nat)
    requires i <= |s|
    ensures i <= j <= |s|
    ensures forall k :: i <= k < j ==> Text.IsDigit(s[k])
    ensures j < |s| ==> !Text.IsDigit(s[j])
    decreases |s| - i
  {
    if i < |s| && Text.IsDigit(s[i]) then DigitRun(s, i + 1) else i
  }

  /** The pattern `\[(\d+)\]` matches at `p`. */
  predicate BracketAt(s: string, p: nat)
  {
    p < |s| && s[p] == '[' &&
    var j := DigitRun(s, p + 1);
    p + 1 < j < |s| && s[j] == ']'
  }

  /** The leftmost match of `\[(\d+)\]` at or after `from`. */
  function FirstBracket(s: string, from: nat): (r: Option<nat>)
    requires from <= |s|
    ensures r.Some? ==> from <= r.value < |s| && BracketAt(s, r.value)
    ensures forall p :: from <= p < (if r.Some? then r.value else |s|) ==> !BracketAt(s, p)
    decreases |s| - from
  {
    if from == |s| then None
    else if BracketAt(s, from) then Some(from)
    else FirstBracket(s, from + 1)
  }

  /** `parseInt` of the digits the match at `p` captures. */
  function BracketIndex(s: string, p: nat): nat
    requires BracketAt(s, p)
  {
    Text.DigitsValue(s[p + 1..DigitRun(s, p + 1)])
  }

  predicate OccursAt(s: string, t: string, p: nat)
  {
    p + |t| <= |s| && s[p..p + |t|] == t
  }

  /** The first occurrence of `t` at or after `from`. */
  function IndexOf(s: string, t: string, from: nat): (r: Option<nat>)
    requires |t| > 0 && from <= |s|
    ensures r.Some? ==> from <= r.value && OccursAt(s, t, r.value)
    ensures forall p :: from <= p < (if r.Some? then r.value else |s|) ==> !OccursAt(s, t, p)
    decreases |s| - from
  {
    if from == |s| then None
    else if OccursAt(s, t, from) then Some(from)
    else IndexOf(s, t, from + 1)
  }

  /** `s.split(t)[0]`. */
  function SplitHead(s: string, t: string): string
    requires |t| > 0
  {
    match IndexOf(s, t, 0)
    case None => s
    case Some(p) => s[..p]
  }

  /** `s.split(t)[1]`: the text between the first and the second
      occurrence of `t`, `None` (`undefined`) when `t` does not occur. */
  function SplitSecond(s: string, t: string): Option<string>
    requires |t| > 0
  {
    match IndexOf(s, t, 0)
    case None => None
    case Some(p) =>
      match IndexOf(s, t, p + |t|)
      case None => Some(s[p + |t|..])
      case Some(q) => Some(s[p + |t|..q])
  }

  /** What a form key writes: a plain key; one property of one element of
      an array; or nothing, for an indexed key with no property name after
      `[n].`, on which `setProperty` throws. */
  datatype Target = Plain(key: string) | Cell(name: string, index: nat, field: string) | Broken

  /** The key's target: the array name is the text before `[n]` and the
      property the text after `[n].`, with `n` the first bracketed index
      as `parseInt` reads it. */
  function TargetOf(key: string): Target
  {
    match FirstBracket(key, 0)
    case None => Plain(key)
    case Some(p) =>
      var index := BracketIndex(key, p);
      var n := Text.NatToString(index);
      var field := SplitSecond(key, "[" + n + "].");
      if field.None? then Broken
      else Cell(SplitHead(key, "[" + n + "]"), index, field.value)
  }

  /** The top-level name a target writes. */
  function NameOf(t: Target): Option<string>
  {
    match t
    case Plain(k) => Some(k)
    case Cell(name, _, _) => Some(name)
    case Broken => None
  }

  /** One step of the `reduce` over the form entries; `None` where the
      host throws: a key with no property name, or an indexed key whose
      array name already holds a truthy value (a primitive's properties
      cannot be assigned in strict code). */
  function Step(acc: map<string, Slot>, key: string, value: FormValue): Option<map<string, Slot>>
  {
    match TargetOf(key)
    case Plain(k) => Some(acc[k := Value(value)])
    case Broken => None
    case Cell(name, i, field) =>
      if name in acc && acc[name].Value? && Truthy(acc[name].v) then None
      else
        var rows := if name in acc && acc[name].Rows? then acc[name].rows else map[];
        var row := if i in rows then rows[i] else map[];
        Some(acc[name := Rows(rows[i := row[field := value]])])
  }

  /** The reshaped form data, the entries taken in order. */
  function Reshape(form: seq<(string, FormValue)>): Option<map<string, Slot>>
    decreases |form|
  {
    if form == [] then Some(map[])
    else
      match Reshape(form[..|form| - 1])
      case None => None
      case Some(acc) => Step(acc, form[|form| - 1].0, form[|form| - 1].1)
  }

  /** Once a step throws the whole reshaping has failed. */
  lemma {:induction false} FailureStays(form: seq<(string, FormValue)>, i: nat)
    requires i <= |form| && Reshape(form[..i]) == None
    ensures Reshape(form) == None
    decreases |form| - i
  {
    if i == |form| {
      assert form[..i] == form;
    } else {
      assert form[..i + 1][..i] == form[..i];
      FailureStays(form, i + 1);
    }
  }

  /** One more entry is one more step. */
  lemma ReshapeStep(form: seq<(string, FormValue)>, i: nat, acc: map<string, Slot>)
    requires i < |form| && Reshape(form[..i]) == Some(acc)
    ensures Reshape(form[..i + 1]) == Step(acc, form[i].0, form[i].1)
  {
    assert form[..i + 1][..i] == form[..i];
  }

  /** `_updateObject`'s reshaping: each key with an index `name[n].field`
      sets `field` of element `n` of array `name`, creating the array and
      the element as needed; every other key is copied. */
  method UpdateObject(form: seq<(string, FormValue)>) returns (r: Option<map<string, Slot>>)
    ensures r == Reshape(form)
  {
    var acc: map<string, Slot> := map[];
    var i := 0;
    while i < |form|
      invariant 0 <= i <= |form|
      invariant Reshape(form[..i]) == Some(acc)
    {
      var key := form[i].0;
      var value := form[i].1;
      ReshapeStep(form, i, acc);
      var m := FirstBracket(key, 0);
      if m.Some? {
        var index := BracketIndex(key, m.value);
        var n := Text.NatToString(index);
        var objectName := SplitHead(key, "[" + n + "]");
        var keyName := SplitSecond(key, "[" + n + "].");
        if objectName in acc && acc[objectName].Value? && Truthy(acc[objectName].v) {
          assert Reshape(form[..i + 1]) == None;
          FailureStays(form, i + 1);
          return None;
        }
        var rows := if objectName in acc && acc[objectName].Rows? then acc[objectName].rows else map[];
        var row := if index in rows then rows[index] else map[];
        if keyName.None? {
          assert TargetOf(key) == Broken;
          FailureStays(form, i + 1);
          return None;
        }
        assert TargetOf(key) == Cell(objectName, index, keyName.value);
        acc := acc[objectName := Rows(rows[index := row[keyName.value := value]])];
      } else {
        acc := acc[key := Value(value)];
      }
      i := i + 1;
    }
    assert form[..i] == form;
    r := Some(acc);
  }

  /** The key `name[i].field`. */
  function IndexedKey(name: string, i: nat, field: string): string
  {
    name + "[" + Text.NatToString(i) + "]." + field
  }

  /** `name[i].field` writes property `field` of element `i` of `name`
      when `name` has no bracket and `field` does not repeat `[i].`: only
      the first bracketed index is read, so a later one, as in
      `a[1].b[2].c`, stays part of the property name. */
  lemma IndexedKeyTarget(name: string, i: nat, field: string)
    requires '[' !in name
    requires forall p :: !OccursAt(field, "[" + Text.NatToString(i) + "].", p)
    ensures TargetOf(IndexedKey(name, i, field)) == Cell(name, i, field)
  {
    IndexedKeyBracket(name, i, field);
    IndexedKeySplits(name, i, field);
  }

  /** Split at `[i]` and at `[i].`, `name[i].field` gives `name` and
      `field`. */
  lemma IndexedKeySplits(name: string, i: nat, field: string)
    requires '[' !in name
    requires forall p :: !OccursAt(field, "[" + Text.NatToString(i) + "].", p)
    ensures SplitHead(IndexedKey(name, i, field), "[" + Text.NatToString(i) + "]") == name
    ensures SplitSecond(IndexedKey(name, i, field), "[" + Text.NatToString(i) + "].") == Some(field)
  {
    var n := Text.NatToString(i);
    assert IndexedKey(name, i, field) == name + ("[" + n + "].") + field;
    assert "[" + n + "]." == ("[" + n + "]") + ".";
    SplitsAfterName(name, "[" + n + "]", field);
  }

  /** The splits of `name + t + "." + field` at `t` and at `t + "."`, for a
      `t` that starts with `[` after a name with no bracket. */
  lemma SplitsAfterName(name: string, t: string, field: string)
    requires '[' !in name && |t| > 0 && t[0] == '['
    requires forall p :: !OccursAt(field, t + ".", p)
    ensures SplitHead(name + (t + ".") + field, t) == name
    ensures SplitSecond(name + (t + ".") + field, t + ".") == Some(field)
  {
    var t2 := t + ".";
    var key := name + t2 + field;
    assert key == name + (t2 + field);
    var l := |name|;
    assert key[l..l + |t|] == t;
    assert key[l..l + |t2|] == t2;
    FirstAfterName(name, t2 + field, t);
    FirstAfterName(name, t2 + field, t2);
    NoLaterOccurrence(name + t2, field, t2);
    assert key[..l] == name;
    assert key[l + |t2|..] == field;
  }

  /** The first bracketed index of `name[i].field` is `i`, at the end of
      `name`. */
  lemma IndexedKeyBracket(name: string, i: nat, field: string)
    requires '[' !in name
    ensures FirstBracket(IndexedKey(name, i, field), 0) == Some(|name|)
    ensures BracketIndex(IndexedKey(name, i, field), |name|) == i
  {
    var n := Text.NatToString(i);
    var tail := "[" + n + "]." + field;
    assert IndexedKey(name, i, field) == name + tail;
    assert tail[1..|n| + 1] == n;
    BracketAfterName(name, tail, n);
    Text.DigitsValueOfNat(i);
  }

  /** A bracketed run of digits right after a name with no bracket is the
      first match, and it captures those digits. */
  lemma BracketAfterName(name: string, tail: string, n: string)
    requires '[' !in name && Text.AllDigits(n)
    requires |tail| >= |n| + 2 && tail[0] == '[' && tail[1..|n| + 1] == n && tail[|n| + 1] == ']'
    ensures FirstBracket(name + tail, 0) == Some(|name|)
    ensures BracketAt(name + tail, |name|)
    ensures (name + tail)[|name| + 1..DigitRun(name + tail, |name| + 1)] == n
  {
    var key := name + tail;
    var l := |name|;
    forall p | l + 1 <= p < l + 1 + |n| ensures Text.IsDigit(key[p]) {
      assert key[p] == tail[p - l] == n[p - l - 1];
    }
    assert key[l + 1 + |n|] == ']';
    DigitRunIs(key, l + 1, l + 1 + |n|);
    assert key[l] == '[';
    assert BracketAt(key, l);
    forall p | 0 <= p < l ensures !BracketAt(key, p) {
      assert key[p] == name[p];
    }
    assert key[l + 1..l + 1 + |n|] == tail[1..|n| + 1];
  }

  /** The digit run from `i` ends at the first non-digit `j`. */
  lemma {:induction false} DigitRunIs(s: string, i: nat, j: nat)
    requires i <= j < |s| && !Text.IsDigit(s[j])
    requires forall k :: i <= k < j ==> Text.IsDigit(s[k])
    ensures DigitRun(s, i) == j
    decreases j - i
  {
    if i < j {
      DigitRunIs(s, i + 1, j);
    }
  }

  /** A pattern starting with `[` that occurs right after a name with no
      bracket occurs there first. */
  lemma FirstAfterName(name: string, rest: string, t: string)
    requires '[' !in name && |t| > 0 && t[0] == '['
    requires OccursAt(name + rest, t, |name|)
    ensures IndexOf(name + rest, t, 0) == Some(|name|)
  {
    var key := name + rest;
    forall p | 0 <= p < |name| ensures !OccursAt(key, t, p) {
      assert key[p] == name[p];
      if p + |t| <= |key| {
        assert key[p..p + |t|][0] == key[p];
      }
    }
  }

  /** After the first occurrence at the end of `head`, `t` occurs again
      only if it occurs in `tail`. */
  lemma NoLaterOccurrence(head: string, tail: string, t: string)
    requires |t| > 0 && |t| <= |head| && OccursAt(head, t, |head| - |t|)
    requires forall p :: !OccursAt(tail, t, p)
    ensures IndexOf(head + tail, t, 0).Some?
    ensures IndexOf(head + tail, t, 0).value + |t| == |head| ==>
      IndexOf(head + tail, t, |head|) == None
  {
    OccursInHead(head, tail, t, |head| - |t|);
    forall q | |head| <= q < |head + tail| ensures !OccursAt(head + tail, t, q) {
      OccursInTail(head, tail, t, q);
    }
  }

  /** An occurrence that ends within `head` is one in `head + tail`. */
  lemma OccursInHead(head: string, tail: string, t: string, p: nat)
    requires p + |t| <= |head|
    ensures OccursAt(head + tail, t, p) == OccursAt(head, t, p)
  {
    assert (head + tail)[p..p + |t|] == head[p..p + |t|];
  }

  /** An occurrence past `head` in `head + tail` is one in `tail`. */
  lemma OccursInTail(head: string, tail: string, t: string, q: nat)
    requires |head| <= q
    ensures OccursAt(head + tail, t, q) == OccursAt(tail, t, q - |head|)
  {
    if q + |t| <= |head + tail| {
      assert (head + tail)[q..q + |t|] == tail[q - |head|..q - |head| + |t|];
    }
  }

  /** A key with no bracketed index is copied under its own name. */
  lemma PlainKeyTarget(key: string)
    requires forall p :: !BracketAt(key, p)
    ensures TargetOf(key) == Plain(key)
  {
  }

  /** A step writes the value it is given where its target says. */
  lemma StepWrites(acc: map<string, Slot>, key: string, value: FormValue)
    requires Step(acc, key, value).Some?
    ensures var r := Step(acc, key, value).value;
      match TargetOf(key)
      case Plain(k) => k in r && r[k] == Value(value)
      case Cell(n, i, f) => n in r && r[n].Rows? && i in r[n].rows && f in r[n].rows[i] && r[n].rows[i][f] == value
      case Broken => false
  {
  }

  /** A step keeps a plain value under another name. */
  lemma StepKeepsValue(acc: map<string, Slot>, key: string, value: FormValue, k: string)
    requires Step(acc, key, value).Some? && k in acc
    requires NameOf(TargetOf(key)) != Some(k)
    ensures k in Step(acc, key, value).value && Step(acc, key, value).value[k] == acc[k]
  {
  }

  /** A step keeps an element's property it does not write. */
  lemma StepKeepsCell(acc: map<string, Slot>, key: string, value: FormValue, c: Target)
    requires c.Cell? && Step(acc, key, value).Some?
    requires c.name in acc && acc[c.name].Rows? && c.index in acc[c.name].rows && c.field in acc[c.name].rows[c.index]
    requires TargetOf(key) != c && TargetOf(key) != Plain(c.name)
    ensures var r := Step(acc, key, value).value;
      && c.name in r && r[c.name].Rows? && c.index in r[c.name].rows && c.field in r[c.name].rows[c.index]
      && r[c.name].rows[c.index][c.field] == acc[c.name].rows[c.index][c.field]
  {
  }

  /** A form that reshapes has prefixes that reshape. */
  lemma PrefixSucceeds(form: seq<(string, FormValue)>, i: nat)
    requires i <= |form|
    ensures Reshape(form).Some? ==> Reshape(form[..i]).Some?
  {
    if Reshape(form[..i]).None? {
      FailureStays(form, i);
    }
  }

  /** `r` holds `v` as the property `c` names of an element of an array. */
  predicate HoldsCell(r: map<string, Slot>, c: Target, v: FormValue)
  {
    && c.Cell? && c.name in r && r[c.name].Rows? && c.index in r[c.name].rows
    && c.field in r[c.name].rows[c.index] && r[c.name].rows[c.index][c.field] == v
  }

  /** Entry `n` keeps a plain value under a name it does not write. */
  lemma ValueStep(form: seq<(string, FormValue)>, n: nat, name: string)
    requires n < |form| && Reshape(form[..n]).Some? && name in Reshape(form[..n]).value
    requires NameOf(TargetOf(form[n].0)) != Some(name)
    ensures Reshape(form[..n + 1]).Some? ==>
      name in Reshape(form[..n + 1]).value && Reshape(form[..n + 1]).value[name] == Reshape(form[..n]).value[name]
  {
    var acc := Reshape(form[..n]).value;
    ReshapeStep(form, n, acc);
    if Step(acc, form[n].0, form[n].1).Some? {
      StepKeepsValue(acc, form[n].0, form[n].1, name);
    }
  }

  /** Entry `n` keeps an element's property it does not write. */
  lemma CellStep(form: seq<(string, FormValue)>, n: nat, c: Target, v: FormValue)
    requires n < |form| && Reshape(form[..n]).Some? && HoldsCell(Reshape(form[..n]).value, c, v)
    requires TargetOf(form[n].0) != c && TargetOf(form[n].0) != Plain(c.name)
    ensures Reshape(form[..n + 1]).Some? ==> HoldsCell(Reshape(form[..n + 1]).value, c, v)
  {
    var acc := Reshape(form[..n]).value;
    ReshapeStep(form, n, acc);
    if Step(acc, form[n].0, form[n].1).Some? {
      StepKeepsCell(acc, form[n].0, form[n].1, c);
    }
  }

  /** A plain value written after entry `i` stays while no later entry
      writes that name. */
  lemma {:induction false} ValuePersists(form: seq<(string, FormValue)>, i: nat, name: string, v: Slot)
    requires i <= |form| && Reshape(form).Some? && Reshape(form[..i]).Some?
    requires name in Reshape(form[..i]).value && Reshape(form[..i]).value[name] == v
    requires forall k :: i <= k < |form| ==> NameOf(TargetOf(form[k].0)) != Some(name)
    ensures name in Reshape(form).value && Reshape(form).value[name] == v
    decreases |form| - i
  {
    if i == |form| {
      assert form[..i] == form;
    } else {
      ValueStep(form, i, name);
      PrefixSucceeds(form, i + 1);
      ValuePersists(form, i + 1, name, v);
    }
  }

  /** A plain entry keeps its value when no later entry writes its name. */
  lemma PlainKept(form: seq<(string, FormValue)>, j: nat)
    requires j < |form| && TargetOf(form[j].0).Plain?
    requires forall k :: j < k < |form| ==> NameOf(TargetOf(form[k].0)) != Some(form[j].0)
    requires Reshape(form).Some?
    ensures form[j].0 in Reshape(form).value && Reshape(form).value[form[j].0] == Value(form[j].1)
  {
    PrefixSucceeds(form, j);
    PrefixSucceeds(form, j + 1);
    var acc := Reshape(form[..j]).value;
    ReshapeStep(form, j, acc);
    StepWrites(acc, form[j].0, form[j].1);
    ValuePersists(form, j + 1, form[j].0, Value(form[j].1));
  }

  /** A property written after entry `i` stays while no later entry
      writes that property or the whole array. */
  lemma {:induction false} CellPersists(form: seq<(string, FormValue)>, i: nat, c: Target, v: FormValue)
    requires i <= |form| && Reshape(form).Some? && Reshape(form[..i]).Some?
    requires HoldsCell(Reshape(form[..i]).value, c, v)
    requires forall k :: i <= k < |form| ==> TargetOf(form[k].0) != c && TargetOf(form[k].0) != Plain(c.name)
    ensures HoldsCell(Reshape(form).value, c, v)
    decreases |form| - i
  {
    if i == |form| {
      assert form[..i] == form;
    } else {
      CellStep(form, i, c, v);
      PrefixSucceeds(form, i + 1);
      CellPersists(form, i + 1, c, v);
    }
  }

  /** An indexed entry's value is the property of its element when no
      later entry writes the same property or replaces the array with a
      plain value. */
  lemma CellKept(form: seq<(string, FormValue)>, j: nat)
    requires j < |form| && TargetOf(form[j].0).Cell?
    requires forall k :: j < k < |form| ==>
      TargetOf(form[k].0) != TargetOf(form[j].0) && TargetOf(form[k].0) != Plain(TargetOf(form[j].0).name)
    requires Reshape(form).Some?
    ensures var t := TargetOf(form[j].0);
      && t.name in Reshape(form).value && Reshape(form).value[t.name].Rows?
      && t.index in Reshape(form).value[t.name].rows
      && t.field in Reshape(form).value[t.name].rows[t.index]
      && Reshape(form).value[t.name].rows[t.index][t.field] == form[j].1
  {
    var c := TargetOf(form[j].0);
    PrefixSucceeds(form, j);
    PrefixSucceeds(form, j + 1);
    var acc := Reshape(form[..j]).value;
    ReshapeStep(form, j, acc);
    StepWrites(acc, form[j].0, form[j].1);
    assert HoldsCell(Reshape(form[..j + 1]).value, c, form[j].1);
    CellPersists(form, j + 1, c, form[j].1);
  }

  /** A key with no property name after its index rejects the whole form. */
  lemma BrokenRejects(form: seq<(string, FormValue)>, j: nat)
    requires j < |form| && TargetOf(form[j].0) == Broken
    ensures Reshape(form) == None
  {
    assert form[..j + 1][..j] == form[..j];
    FailureStays(form, j + 1);
  }

  // ---------------------------------------------------------------------
  // The effect list

  /** `splice`'s start index clamped as JavaScript does: a negative start
      counts from the end. */
  function SpliceStart(len: nat, start: int): (k: nat)
    ensures k <= len
    ensures 0 <= start <= len ==> k == start
    ensures start < 0 <= len + start ==> k == len + start
    ensures len + start < 0 ==> k == 0
    ensures start > len ==> k == len
  {
    if start < 0 then (if len + start < 0 then 0 else len + start)
    else if start > len then len
    else start
  }

  /** `splice(start, 1)`: the element at the clamped start is removed, the
      others keep their order; past the end nothing is removed. */
  function Spliced<T>(s: seq<T>, start: int): (r: seq<T>)
    ensures var k := SpliceStart(|s|, start);
      && (k < |s| ==>
            && |r| == |s| - 1
            && (forall j :: 0 <= j < k ==> r[j] == s[j])
            && (forall j :: k <= j < |r| ==> r[j] == s[j + 1]))
      && (k == |s| ==> r == s)
  {
    var k := SpliceStart(|s|, start);
    if k < |s| then s[..k] + s[k + 1..] else s
  }

  /** Removing the element at an index in range leaves every other
      element: the multiset shrinks by that one element. */
  lemma SplicedRemovesOne<T>(s: seq<T>, start: int)
    requires 0 <= start < |s|
    ensures multiset(Spliced(s, start)) + multiset{s[start]} == multiset(s)
  {
    assert s == s[..start] + [s[start]] + s[start + 1..];
  }

  /** Deleting the effect just added restores the list. */
  lemma DeleteUndoesAdd<T>(s: seq<T>, d: T)
    ensures Spliced(s + [d], |s|) == s
  {
    assert (s + [d])[..|s|] == s;
  }

  /** The sheet of an item: its type, its id, its owner's items (where
      dropped perks go) and its stored effect list, `None` when unset. */
  class ItemSheet {
    const kind: string
    const itemId: string
    const actorItems: Item.ActorItems
    var effects: Option<seq<Effects.EffectData>>

    constructor (kind: string, itemId: string, actorItems: Item.ActorItems, effects: Option<seq<Effects.EffectData>>)
      ensures this.kind == kind && this.itemId == itemId && this.actorItems == actorItems && this.effects == effects
    {
      this.kind := kind;
      this.itemId := itemId;
      this.actorItems := actorItems;
      this.effects := effects;
    }

    /** `_onAddEffect`: one default effect appended at the end of the list
        (an unset list counts as empty). */
    method AddEffect()
      modifies this`effects
      ensures effects == Some(old(effects).GetOr([]) + [Effects.DefaultObject()])
    {
      var list := effects.GetOr([]);
      list := list + [Effects.DefaultObject()];
      effects := Some(list);
    }

    /** `_onDeleteEffect` for the effect at `index`. */
    method DeleteEffect(index: int)
      modifies this`effects
      ensures effects == Some(Spliced(old(effects).GetOr([]), index))
    {
      var list := effects.GetOr([]);
      list := Spliced(list, index);
      effects := Some(list);
    }

    /** `_onDrop` of an item of type `dropped.kind`: a perk sheet refuses
        every drop; a dropped perk is added to this item through
        `addPerks`, created with id `newId` unless it matches; anything
        else is accepted and changes nothing. */
    method Drop(dropped: Item.ItemData, newId: string, fixed: bool) returns (accepted: bool)
      modifies actorItems
      ensures accepted <==> kind != "perk"
      ensures actorItems.items ==
        if kind != "perk" && dropped.kind == "perk"
        then Item.PerksAdded(old(actorItems.items), itemId, [dropped], [newId], fixed)
        else old(actorItems.items)
    {
      if kind == "perk" {
        return false;
      }
      if dropped.kind == "perk" {
        actorItems.AddPerks(itemId, [dropped], [newId], fixed);
      }
      return true;
    }
  }
}

/** The OVA d6 pool: a die term holds its rolled results, each with the
    host's `active`/`discarded` flags, and one keep modifier. `khs` keeps
    every die of the face whose dice add up to the most; `kl` is the host's
    keep-lowest. Rolled faces are inputs of the model. */
module Dice {

  type Face = f: int | 1 <= f <= 6 witness 1

  datatype DieResult = DieResult(result: Face, active: bool, discarded: bool)

  datatype Modifier = Khs | Kl

  /** A formula `<count>d6<modifier>`. */
  datatype DiceFormula = DiceFormula(count: int, modifier: Modifier)

  /** The pool rule shared by the chat commands, the roll dialog and
      initiative: a pool of `n <= 0` dice is rolled as `2 - n` dice keeping
      the lowest, any other pool as `n` dice keeping the highest sum. */
  function PoolFormula(n: int): (f: DiceFormula)
    ensures f.count >= 1
    ensures f.modifier == Kl <==> n <= 0
    ensures f.modifier == Kl ==> f.count >= 2 && f.count - 2 == -n
    ensures f.modifier == Khs ==> f.count == n
  {
    if n <= 0 then DiceFormula(2 - n, Kl) else DiceFormula(n, Khs)
  }

  /** Freshly rolled results: all active, none discarded. */
  function Fresh(faces: seq<Face>): (rs: seq<DieResult>)
    ensures |rs| == |faces|
    ensures forall i :: 0 <= i < |rs| ==> rs[i] == DieResult(faces[i], true, false)
  {
    seq(|faces|, i requires 0 <= i < |faces| => DieResult(faces[i], true, false))
  }

  /** Number of dice showing `v`. */
  function Count(rs: seq<DieResult>, v: int): nat
    decreases |rs|
  {
    if |rs| == 0 then 0
    else Count(rs[..|rs| - 1], v) + (if rs[|rs| - 1].result == v then 1 else 0)
  }

  /** What the first loop of `keepHighestSum` accumulates for face `v`. */
  function GroupSum(rs: seq<DieResult>, v: int): nat
    decreases |rs|
  {
    if |rs| == 0 then 0
    else GroupSum(rs[..|rs| - 1], v) + (if rs[|rs| - 1].result == v then rs[|rs| - 1].result else 0)
  }

  /** Sum of the faces of the active dice: the term's total. */
  function ActiveTotal(rs: seq<DieResult>): nat
    decreases |rs|
  {
    if |rs| == 0 then 0
    else ActiveTotal(rs[..|rs| - 1]) + (if rs[|rs| - 1].active then rs[|rs| - 1].result else 0)
  }

  predicate SameFaces(a: seq<DieResult>, b: seq<DieResult>)
  {
    |a| == |b| && forall i :: 0 <= i < |a| ==> a[i].result == b[i].result
  }

  /** A face group's sum is the face times the number of dice showing it. */
  lemma {:induction false} GroupSumIsFaceTimesCount(rs: seq<DieResult>, v: int)
    ensures GroupSum(rs, v) == v * Count(rs, v)
    decreases |rs|
  {
    if |rs| > 0 {
      GroupSumIsFaceTimesCount(rs[..|rs| - 1], v);
      if rs[|rs| - 1].result == v {
        assert v * (Count(rs[..|rs| - 1], v) + 1) == v * Count(rs[..|rs| - 1], v) + v;
      }
    }
  }

  /** A face no die shows has an empty group. */
  lemma {:induction false} AbsentGroupEmpty(rs: seq<DieResult>, v: int)
    requires Count(rs, v) == 0
    ensures GroupSum(rs, v) == 0
    decreases |rs|
  {
    if |rs| > 0 {
      AbsentGroupEmpty(rs[..|rs| - 1], v);
    }
  }

  /** One more die adds to its own face's count and sum only. */
  lemma TallyStep(rs: seq<DieResult>, i: nat, v: int)
    requires i < |rs|
    ensures Count(rs[..i + 1], v) == Count(rs[..i], v) + (if rs[i].result == v then 1 else 0)
    ensures GroupSum(rs[..i + 1], v) == GroupSum(rs[..i], v) + (if rs[i].result == v then v else 0)
  {
    assert rs[..i + 1][..i] == rs[..i];
  }

  /** The group of a die that is present has a positive sum. */
  lemma {:induction false} GroupSumOfPresent(rs: seq<DieResult>, i: int)
    requires 0 <= i < |rs|
    ensures GroupSum(rs, rs[i].result) >= rs[i].result
    decreases |rs|
  {
    if i < |rs| - 1 {
      GroupSumOfPresent(rs[..|rs| - 1], i);
    }
  }

  /** The group sums only look at faces, never at flags. */
  lemma {:induction false} GroupSumOfSameFaces(a: seq<DieResult>, b: seq<DieResult>, v: int)
    requires SameFaces(a, b)
    ensures GroupSum(a, v) == GroupSum(b, v)
    decreases |a|
  {
    if |a| > 0 {
      GroupSumOfSameFaces(a[..|a| - 1], b[..|b| - 1], v);
    }
  }

  /** `k` is the face `keepHighestSum` must keep: a face present in the
      pool whose group sum no other face exceeds, and which every smaller
      face falls strictly short of. */
  predicate BestFace(rs: seq<DieResult>, k: int)
  {
    && 1 <= k <= 6
    && GroupSum(rs, k) > 0
    && (forall u :: 1 <= u <= 6 ==> GroupSum(rs, u) <= GroupSum(rs, k))
    && (forall u :: 1 <= u < k ==> GroupSum(rs, u) < GroupSum(rs, k))
  }

  lemma BestFaceUnique(rs: seq<DieResult>, a: int, b: int)
    requires BestFace(rs, a) && BestFace(rs, b)
    ensures a == b
  {
  }

  /** The second loop of `keepHighestSum` over the faces in ascending
      order, with a strict `>`: the running best sum and face. */
  function ScanFaces(rs: seq<DieResult>, v: int, hs: nat, hd: int): int
    requires 1 <= v <= 7
    decreases 7 - v
  {
    if v == 7 then hd
    else if GroupSum(rs, v) > hs then ScanFaces(rs, v + 1, GroupSum(rs, v), v)
    else ScanFaces(rs, v + 1, hs, hd)
  }

  /** The face kept by `khs`, 0 for an empty pool. */
  function KeptFace(rs: seq<DieResult>): int
  {
    ScanFaces(rs, 1, 0, 0)
  }

  lemma {:induction false} ScanFacesFindsBest(rs: seq<DieResult>, v: int, hs: nat, hd: int)
    requires 1 <= v <= 7
    requires hd == 0 ==> hs == 0 && forall u :: 1 <= u < v ==> GroupSum(rs, u) == 0
    requires hd != 0 ==> 1 <= hd < v && GroupSum(rs, hd) == hs > 0
    requires hd != 0 ==> forall u :: 1 <= u < v ==> GroupSum(rs, u) <= hs
    requires hd != 0 ==> forall u :: 1 <= u < hd ==> GroupSum(rs, u) < hs
    ensures ScanFaces(rs, v, hs, hd) == 0 ==> forall u :: 1 <= u <= 6 ==> GroupSum(rs, u) == 0
    ensures ScanFaces(rs, v, hs, hd) != 0 ==> BestFace(rs, ScanFaces(rs, v, hs, hd))
    decreases 7 - v
  {
    if v < 7 {
      if GroupSum(rs, v) > hs {
        ScanFacesFindsBest(rs, v + 1, GroupSum(rs, v), v);
      } else {
        ScanFacesFindsBest(rs, v + 1, hs, hd);
      }
    }
  }

  /** `khs` keeps the face with the largest group sum, the smallest face on
      a tie, and keeps nothing only in an empty pool. */
  lemma KeptFaceIsBest(rs: seq<DieResult>)
    ensures |rs| == 0 <==> KeptFace(rs) == 0
    ensures |rs| > 0 ==> BestFace(rs, KeptFace(rs))
  {
    ScanFacesFindsBest(rs, 1, 0, 0);
    if |rs| > 0 {
      GroupSumOfPresent(rs, 0);
    } else {
      assert ScanFaces(rs, 1, 0, 0) == 0 by { ScanFacesOfEmpty(rs, 1); }
    }
  }

  lemma {:induction false} ScanFacesOfEmpty(rs: seq<DieResult>, v: int)
    requires |rs| == 0 && 1 <= v <= 7
    ensures ScanFaces(rs, v, 0, 0) == 0
    decreases 7 - v
  {
    if v < 7 {
      ScanFacesOfEmpty(rs, v + 1);
    }
  }

  /** Pools with the same faces keep the same face. */
  lemma KeptFaceOfSameFaces(a: seq<DieResult>, b: seq<DieResult>)
    requires SameFaces(a, b)
    ensures KeptFace(a) == KeptFace(b)
  {
    KeptFaceIsBest(a);
    KeptFaceIsBest(b);
    if |a| > 0 {
      forall u | 1 <= u <= 6 ensures GroupSum(a, u) == GroupSum(b, u) {
        GroupSumOfSameFaces(a, b, u);
      }
      GroupSumOfSameFaces(a, b, KeptFace(a));
      GroupSumOfSameFaces(a, b, KeptFace(b));
      BestFaceUnique(b, KeptFace(a), KeptFace(b));
    }
  }

  /** The third loop of `keepHighestSum`: a die is active and not
      discarded exactly when it shows face `k`. */
  function MarkKept(rs: seq<DieResult>, k: int): (m: seq<DieResult>)
    ensures |m| == |rs|
    ensures forall i :: 0 <= i < |rs| ==> m[i] == MarkOne(rs[i], k)
  {
    seq(|rs|, i requires 0 <= i < |rs| => MarkOne(rs[i], k))
  }

  function MarkOne(r: DieResult, k: int): DieResult
  {
    if r.result != k then r.(discarded := true, active := false)
    else r.(discarded := false, active := true)
  }

  /** The dice `khs` leaves active add up to the kept face's group sum. */
  lemma {:induction false} ActiveTotalOfMarkKept(rs: seq<DieResult>, k: int)
    ensures ActiveTotal(MarkKept(rs, k)) == GroupSum(rs, k)
    decreases |rs|
  {
    if |rs| > 0 {
      var p := rs[..|rs| - 1];
      ActiveTotalOfMarkKept(p, k);
      assert MarkKept(rs, k)[..|rs| - 1] == MarkKept(p, k);
    }
  }

  /** What `keepHighestSum` leaves in the pool. */
  function KeepHighestSumOf(rs: seq<DieResult>): seq<DieResult>
  {
    MarkKept(rs, KeptFace(rs))
  }

  /** `keepHighestSum` changes only flags: the number of dice and their
      faces stay; a die is active and not discarded iff it shows the kept
      face; a non-empty pool keeps a die, and the active dice add up to the
      largest group sum. */
  lemma KeepHighestSumFlags(rs: seq<DieResult>)
    ensures SameFaces(KeepHighestSumOf(rs), rs)
    ensures forall i :: 0 <= i < |rs| ==>
      && (KeepHighestSumOf(rs)[i].active <==> rs[i].result == KeptFace(rs))
      && KeepHighestSumOf(rs)[i].discarded == !KeepHighestSumOf(rs)[i].active
    ensures |rs| > 0 ==> exists i :: 0 <= i < |rs| && KeepHighestSumOf(rs)[i].active
    ensures ActiveTotal(KeepHighestSumOf(rs)) == GroupSum(rs, KeptFace(rs))
    ensures forall v :: 1 <= v <= 6 ==> GroupSum(rs, v) <= ActiveTotal(KeepHighestSumOf(rs))
  {
    var k := KeptFace(rs);
    var m := MarkKept(rs, k);
    assert KeepHighestSumOf(rs) == m;
    forall i | 0 <= i < |rs|
      ensures m[i].result == rs[i].result && (m[i].active <==> rs[i].result == k) && m[i].discarded == !m[i].active
    {
      assert m[i] == MarkOne(rs[i], k);
    }
    KeptFaceIsBest(rs);
    ActiveTotalOfMarkKept(rs, k);
    if |rs| > 0 {
      CountOfPositiveSum(rs, k);
      var i := PresentIndex(rs, k);
      assert m[i].active;
    }
  }

  /** A face group with a positive sum has a die. */
  lemma CountOfPositiveSum(rs: seq<DieResult>, v: int)
    requires GroupSum(rs, v) > 0
    ensures Count(rs, v) > 0
  {
    GroupSumIsFaceTimesCount(rs, v);
  }

  /** An index of a die showing `v`, for a face with dice. */
  lemma {:induction false} PresentIndex(rs: seq<DieResult>, v: int) returns (i: int)
    requires Count(rs, v) > 0
    ensures 0 <= i < |rs| && rs[i].result == v
    decreases |rs|
  {
    if rs[|rs| - 1].result == v {
      i := |rs| - 1;
    } else {
      i := PresentIndex(rs[..|rs| - 1], v);
    }
  }

  /** Keeping the highest sum a second time changes nothing. */
  lemma KeepHighestSumIdempotent(rs: seq<DieResult>)
    ensures KeepHighestSumOf(KeepHighestSumOf(rs)) == KeepHighestSumOf(rs)
  {
    var once := KeepHighestSumOf(rs);
    KeptFaceOfSameFaces(once, rs);
    assert KeepHighestSumOf(once) == once;
  }

  /** Index of the last die with the lowest face. */
  function LowestIndex(rs: seq<DieResult>): (i: int)
    requires |rs| > 0
    ensures 0 <= i < |rs|
    ensures forall j :: 0 <= j < |rs| ==> rs[i].result <= rs[j].result
    ensures forall j :: i < j < |rs| ==> rs[i].result < rs[j].result
    decreases |rs|
  {
    if |rs| == 1 then 0
    else
      var i := LowestIndex(rs[..|rs| - 1]);
      if rs[|rs| - 1].result <= rs[i].result then |rs| - 1 else i
  }

  /** The host's `kl`: one die showing the lowest face stays active, every
      other die is dropped. The host drops the dice above the lowest face,
      then drops tied lowest dice in order until one is left, so the last
      die showing the lowest face is the one kept. */
  function MarkLowest(rs: seq<DieResult>): (m: seq<DieResult>)
    ensures SameFaces(m, rs)
    ensures |rs| > 0 ==> forall i :: 0 <= i < |rs| ==>
      && (m[i].active <==> i == LowestIndex(rs))
      && m[i].discarded == !m[i].active
  {
    if |rs| == 0 then rs
    else
      var l := LowestIndex(rs);
      seq(|rs|, i requires 0 <= i < |rs| => rs[i].(active := i == l, discarded := i != l))
  }

  /** Under `kl` the total is the lowest face of the pool. */
  lemma KeepLowestTotal(rs: seq<DieResult>)
    requires |rs| > 0
    ensures ActiveTotal(MarkLowest(rs)) == rs[LowestIndex(rs)].result
    ensures forall j :: 0 <= j < |rs| ==> ActiveTotal(MarkLowest(rs)) <= rs[j].result
  {
    ActiveTotalOneActive(MarkLowest(rs), LowestIndex(rs));
  }

  lemma {:induction false} ActiveTotalOneActive(rs: seq<DieResult>, l: int)
    requires 0 <= l < |rs|
    requires forall i :: 0 <= i < |rs| ==> (rs[i].active <==> i == l)
    ensures ActiveTotal(rs) == rs[l].result
    decreases |rs|
  {
    var p := rs[..|rs| - 1];
    if l < |rs| - 1 {
      ActiveTotalOneActive(p, l);
    } else {
      ActiveTotalNoneActive(p);
    }
  }

  lemma {:induction false} ActiveTotalNoneActive(rs: seq<DieResult>)
    requires forall i :: 0 <= i < |rs| ==> !rs[i].active
    ensures ActiveTotal(rs) == 0
    decreases |rs|
  {
    if |rs| > 0 {
      ActiveTotalNoneActive(rs[..|rs| - 1]);
    }
  }

  /** The host's `_evaluateModifiers` on one die term. */
  function Evaluate(rs: seq<DieResult>, m: Modifier): seq<DieResult>
  {
    if m == Khs then KeepHighestSumOf(rs) else MarkLowest(rs)
  }

  /** First loop of `keepHighestSum`: the sum of each face that appears. */
  method SumsByFace(rs: seq<DieResult>) returns (sums: map<Face, nat>)
    ensures forall v: Face :: v in sums <==> Count(rs, v) > 0
    ensures forall v :: v in sums ==> sums[v] == GroupSum(rs, v)
  {
    sums := map[];
    var i := 0;
    while i < |rs|
      invariant 0 <= i <= |rs|
      invariant forall v: Face :: v in sums <==> Count(rs[..i], v) > 0
      invariant forall v :: v in sums ==> sums[v] == GroupSum(rs[..i], v)
    {
      var f := rs[i].result;
      if f !in sums {
        AbsentGroupEmpty(rs[..i], f);
      }
      var prev := if f in sums then sums[f] else 0;
      forall v: int
        ensures Count(rs[..i + 1], v) == Count(rs[..i], v) + (if f == v then 1 else 0)
        ensures GroupSum(rs[..i + 1], v) == GroupSum(rs[..i], v) + (if f == v then v else 0)
      {
        TallyStep(rs, i, v);
      }
      sums := sums[f := prev + f];
      i := i + 1;
    }
    assert rs[..|rs|] == rs;
  }

  function SumOf(sums: map<Face, nat>, v: Face): nat
  {
    if v in sums then sums[v] else 0
  }

  /** Second loop of `keepHighestSum`: visiting faces in ascending order
      and replacing the best only on a strictly larger sum. */
  method HighestFace(sums: map<Face, nat>) returns (highestSum: nat, highestDie: int)
    ensures highestDie == 0 ==> highestSum == 0 && forall v: Face :: SumOf(sums, v) == 0
    ensures highestDie != 0 ==> 1 <= highestDie <= 6 && SumOf(sums, highestDie) == highestSum > 0
    ensures highestDie != 0 ==> forall v: Face :: SumOf(sums, v) <= highestSum
    ensures highestDie != 0 ==> forall v: Face :: v < highestDie ==> SumOf(sums, v) < highestSum
  {
    highestSum, highestDie := 0, 0;
    var v: int := 1;
    while v <= 6
      invariant 1 <= v <= 7
      invariant highestDie == 0 ==> highestSum == 0 && forall u: Face :: u < v ==> SumOf(sums, u) == 0
      invariant highestDie != 0 ==> 1 <= highestDie < v && SumOf(sums, highestDie) == highestSum > 0
      invariant highestDie != 0 ==> forall u: Face :: u < v ==> SumOf(sums, u) <= highestSum
      invariant highestDie != 0 ==> forall u: Face :: u < highestDie ==> SumOf(sums, u) < highestSum
    {
      if v in sums {
        var sum := sums[v];
        if sum > highestSum {
          highestSum := sum;
          highestDie := v;
        }
      }
      v := v + 1;
    }
  }

  /** What the two loops find is the face `KeptFace` describes. */
  lemma HighestFaceIsKept(rs: seq<DieResult>, sums: map<Face, nat>, hd: int)
    requires forall v: Face :: SumOf(sums, v) == GroupSum(rs, v)
    requires hd == 0 ==> forall v: Face :: SumOf(sums, v) == 0
    requires hd != 0 ==> 1 <= hd <= 6 && SumOf(sums, hd) > 0
    requires hd != 0 ==> forall v: Face :: SumOf(sums, v) <= SumOf(sums, hd)
    requires hd != 0 ==> forall v: Face :: v < hd ==> SumOf(sums, v) < SumOf(sums, hd)
    ensures hd == KeptFace(rs)
  {
    KeptFaceIsBest(rs);
    if |rs| > 0 {
      GroupSumOfPresent(rs, 0);
      assert SumOf(sums, rs[0].result) > 0;
    }
    if hd != 0 {
      assert BestFace(rs, hd);
      BestFaceUnique(rs, hd, KeptFace(rs));
    }
  }

  /** A d6 term of a roll. */
  class OvaDie {
    var results: seq<DieResult>
    var modifier: Modifier

    /** Rolls `faces` and applies the modifier. */
    constructor (faces: seq<Face>, m: Modifier)
      ensures results == Evaluate(Fresh(faces), m) && modifier == m
    {
      results := Fresh(faces);
      modifier := m;
      new;
      EvaluateModifiers();
    }

    function Total(): nat
      reads this
    {
      ActiveTotal(results)
    }

    /** The `khs` modifier, updating each result's flags in place. */
    method KeepHighestSum()
      modifies this
      ensures results == KeepHighestSumOf(old(results))
      ensures modifier == old(modifier)
    {
      var sums := SumsByFace(results);
      forall v: Face ensures SumOf(sums, v) == GroupSum(results, v) {
        if v !in sums {
          GroupSumIsFaceTimesCount(results, v);
        }
      }
      var highestSum, highestDie := HighestFace(sums);
      HighestFaceIsKept(results, sums, highestDie);
      ghost var rs := results;
      var i := 0;
      while i < |results|
        invariant 0 <= i <= |results| == |rs|
        invariant modifier == old(modifier)
        invariant forall j :: 0 <= j < i ==> results[j] == MarkOne(rs[j], highestDie)
        invariant forall j :: i <= j < |rs| ==> results[j] == rs[j]
      {
        var roll := results[i];
        if roll.result != highestDie {
          results := results[i := roll.(discarded := true, active := false)];
        } else {
          results := results[i := roll.(discarded := false, active := true)];
        }
        i := i + 1;
      }
    }

    /** The host's `_evaluateModifiers` for the term's one modifier. */
    method EvaluateModifiers()
      modifies this
      ensures results == Evaluate(old(results), old(modifier))
      ensures modifier == old(modifier)
    {
      if modifier == Khs {
        KeepHighestSum();
      } else {
        results := MarkLowest(results);
      }
    }
  }
}

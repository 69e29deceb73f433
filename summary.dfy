/** The GET summary: how many models the registry holds, how many of them
    are Chinese, and the rounded share of Chinese models in percent. */
module Summary {
  import opened Descriptors

  /** The data object of a GET response. */
  datatype Stats = Stats(
    totalModels: nat,
    chineseModels: nat,
    internationalModels: nat,
    chinesePercentage: Option<nat>,
    models: Models)

  /** The ids whose entry has a truthy `is_chinese`. */
  function ChineseIds(m: Models): (ids: set<string>)
    ensures ids <= m.Keys
    ensures forall k :: k in ids <==> k in m && m[k].isChinese
  {
    set k | k in m && m[k].isChinese
  }

  /** The ids whose entry does not have a truthy `is_chinese`. */
  function InternationalIds(m: Models): (ids: set<string>)
    ensures ids <= m.Keys
    ensures forall k :: k in ids <==> k in m && !m[k].isChinese
  {
    set k | k in m && !m[k].isChinese
  }

  /** Every entry is Chinese or international, and not both. */
  lemma PartitionSizes(m: Models)
    ensures |ChineseIds(m)| + |InternationalIds(m)| == |m|
  {
    var c, i := ChineseIds(m), InternationalIds(m);
    assert c + i == m.Keys;
    assert c * i == {};
  }

  /** `Math.round(part / whole * 100)` for a non-negative ratio, in exact
      arithmetic: the integer nearest to 100 * part / whole, a half rounded
      up. With no models the division is 0 / 0, `Math.round` yields NaN, and
      the JSON response carries null: that is None here. */
  function RoundedPercentage(part: nat, whole: nat): (p: Option<nat>)
    ensures p.None? <==> whole == 0
    ensures p.Some? ==> 2 * whole * p.value <= 200 * part + whole < 2 * whole * (p.value + 1)
  {
    if whole == 0 then None
    else
      var q := (200 * part + whole) / (2 * whole);
      DivisionBounds(200 * part + whole, 2 * whole);
      Some(q)
  }

  lemma DivisionBounds(a: nat, d: nat)
    requires d > 0
    ensures d * (a / d) <= a < d * (a / d + 1)
  {
    assert a == d * (a / d) + a % d;
  }

  /** A share of a whole rounds to a percentage between 0 and 100. */
  lemma {:induction false} PercentageAtMostHundred(part: nat, whole: nat)
    requires part <= whole
    ensures RoundedPercentage(part, whole).Some? ==> RoundedPercentage(part, whole).value <= 100
  {
    var r := RoundedPercentage(part, whole);
    if r.Some? && r.value > 100 {
      var p := r.value;
      MultiplyMonotonic(2 * whole, 101, p);
      assert false;
    }
  }

  lemma MultiplyMonotonic(a: nat, x: nat, y: nat)
    requires x <= y
    ensures a * x <= a * y
  {
    assert a * y == a * x + a * (y - x);
  }

  /** The GET handler's data object. */
  function Summarize(m: Models): (s: Stats)
    ensures s.models == m
    ensures s.totalModels == |m|
    ensures s.chineseModels == |ChineseIds(m)| <= s.totalModels
    ensures s.internationalModels == |InternationalIds(m)|
    ensures s.chineseModels + s.internationalModels == s.totalModels
    ensures s.totalModels == 0 <==> s.chinesePercentage.None?
    ensures s.chinesePercentage.Some? ==> s.chinesePercentage.value <= 100
    ensures s.chinesePercentage.Some? ==>
      var p, c, t := s.chinesePercentage.value, s.chineseModels, s.totalModels;
      2 * t * p <= 200 * c + t < 2 * t * (p + 1)
  {
    var chinese := |ChineseIds(m)|;
    var total := |m|;
    PartitionSizes(m);
    PercentageAtMostHundred(chinese, total);
    Stats(total, chinese, total - chinese, RoundedPercentage(chinese, total), m)
  }

  /** Filing a descriptor under an id changes the set of Chinese ids at that
      id only. */
  lemma ChineseIdsAfterUpdate(m: Models, k: string, d: Descriptor)
    ensures ChineseIds(m[k := d]) == (ChineseIds(m) - {k}) + (if d.isChinese then {k} else {})
  {
  }

  /** Removing an id removes it from the Chinese ids and nothing else. */
  lemma ChineseIdsAfterRemove(m: Models, k: string)
    ensures ChineseIds(m - {k}) == ChineseIds(m) - {k}
  {
  }

  /** Filing under a new id adds one entry; filing under a used id adds none. */
  lemma {:induction false} SizeAfterUpdate(m: Models, k: string, d: Descriptor)
    ensures |m[k := d]| == |m| + (if k in m then 0 else 1)
  {
    if k in m {
      assert m[k := d].Keys == m.Keys;
    } else {
      assert m[k := d].Keys == m.Keys + {k};
    }
  }

  /** Filing under an id moves the Chinese count by the old and the new
      entry's flag at that id only. */
  lemma {:induction false} ChineseCountAfterUpdate(m: Models, k: string, d: Descriptor)
    ensures |ChineseIds(m[k := d])|
         == |ChineseIds(m)| - (if k in m && m[k].isChinese then 1 else 0) + (if d.isChinese then 1 else 0)
  {
    ChineseIdsAfterUpdate(m, k, d);
    var rest := ChineseIds(m) - {k};
    assert k !in rest;
    if k in m && m[k].isChinese {
      assert ChineseIds(m) == rest + {k};
    } else {
      assert ChineseIds(m) == rest;
    }
  }

  lemma {:induction false} CountsAfterRemove(m: Models, k: string)
    requires k in m
    ensures |m - {k}| == |m| - 1
    ensures |ChineseIds(m - {k})| == |ChineseIds(m)| - (if m[k].isChinese then 1 else 0)
  {
    ChineseIdsAfterRemove(m, k);
    var c := ChineseIds(m);
    if k in c {
      assert |c - {k}| == |c| - 1;
    } else {
      assert c - {k} == c;
    }
    assert (m - {k}).Keys == m.Keys - {k};
  }
}

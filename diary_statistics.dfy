/** The statistics the diary repository derives from the entries of a date
    range: per-emotion mean intensity and half-split trend, and per-skill
    usage counts. These are the reference definitions the repository's
    loops are proved against. */
module DiaryStatistics {
  import opened Common
  import opened DiaryValues
  import opened DiaryDomain
  import opened Progress

  /** Every emotion of `entries`, entry by entry, each entry's emotions in order. */
  function AllEmotions(entries: seq<DiaryEntryState>): seq<Emotion> {
    if entries == [] then []
    else AllEmotions(entries[..|entries| - 1]) + entries[|entries| - 1].emotions
  }

  /** The ids of a list of skill references, in order. */
  function IdsOf(refs: seq<SkillReference>): seq<string> {
    if refs == [] then [] else IdsOf(refs[..|refs| - 1]) + [refs[|refs| - 1].skillId]
  }

  /** Every skill id referenced by `entries`, entry by entry. */
  function AllSkillIds(entries: seq<DiaryEntryState>): seq<string> {
    if entries == [] then []
    else AllSkillIds(entries[..|entries| - 1]) + IdsOf(entries[|entries| - 1].skillsUsed)
  }

  /** The names occurring among `emotions`. */
  function NamesOf(emotions: seq<Emotion>): set<string> {
    set e | e in emotions :: e.name
  }

  /** The intensities recorded under `name`, in the order of `emotions`. */
  function IntensitiesOf(emotions: seq<Emotion>, name: string): seq<int> {
    if emotions == [] then []
    else
      var e := emotions[|emotions| - 1];
      IntensitiesOf(emotions[..|emotions| - 1], name) + (if e.name == name then [e.intensity] else [])
  }

  /** `reduce((sum, val) => sum + val, 0)`. */
  function Sum(s: seq<int>): int {
    if s == [] then 0 else Sum(s[..|s| - 1]) + s[|s| - 1]
  }

  /** The mean of a non-empty list. */
  function Mean(s: seq<int>): real
    requires |s| > 0
  {
    Sum(s) as real / |s| as real
  }

  /** The mean of one half of the list; the empty half's `0 / 0` is NaN,
      modelled as `None`. */
  function HalfMean(s: seq<int>): (m: Option<real>)
    ensures m.None? <==> s == []
  {
    if s == [] then None else Some(Mean(s))
  }

  /** The change in half-averages that counts as significant. */
  const Threshold: real := 0.5

  /** The trend rule: split at `floor(n / 2)`, compare the second half's mean
      with the first's. Every comparison with NaN is false, so a list with an
      empty first half (length 0 or 1) is `Stable`. */
  function TrendOf(s: seq<int>): (t: Trend)
    ensures |s| <= 1 ==> t == Stable
    ensures t == Increasing ==> |s| >= 2 && Mean(s[|s| / 2..]) - Mean(s[..|s| / 2]) > Threshold
    ensures t == Decreasing ==> |s| >= 2 && Mean(s[..|s| / 2]) - Mean(s[|s| / 2..]) > Threshold
    ensures |s| >= 2 ==> (t == Increasing <==> Mean(s[|s| / 2..]) - Mean(s[..|s| / 2]) > Threshold)
    ensures |s| >= 2 ==>
      (t == Decreasing <==>
        !(Mean(s[|s| / 2..]) - Mean(s[..|s| / 2]) > Threshold) && Mean(s[..|s| / 2]) - Mean(s[|s| / 2..]) > Threshold)
    ensures |s| >= 2 ==>
      (t == Stable <==>
        !(Mean(s[|s| / 2..]) - Mean(s[..|s| / 2]) > Threshold) && !(Mean(s[..|s| / 2]) - Mean(s[|s| / 2..]) > Threshold))
  {
    var mid := |s| / 2;
    var first, second := HalfMean(s[..mid]), HalfMean(s[mid..]);
    if first.None? || second.None? then Stable
    else if second.value - first.value > Threshold then Increasing
    else if first.value - second.value > Threshold then Decreasing
    else Stable
  }

  /** A name that was seen has at least one intensity. */
  lemma {:induction false} IntensitiesOfSeen(emotions: seq<Emotion>, name: string)
    requires name in NamesOf(emotions)
    ensures |IntensitiesOf(emotions, name)| > 0
  {
    var e := emotions[|emotions| - 1];
    if e.name != name {
      var f :| f in emotions && f.name == name;
      assert f in emotions[..|emotions| - 1] by {
        var k :| 0 <= k < |emotions| && emotions[k] == f;
        assert k != |emotions| - 1;
        assert emotions[..|emotions| - 1][k] == f;
      }
      IntensitiesOfSeen(emotions[..|emotions| - 1], name);
    }
  }

  /** `groups` maps each name seen so far to its intensities so far: the
      loop invariant of `getEmotionStats`. */
  predicate GroupsMatch(groups: map<string, seq<int>>, seen: seq<Emotion>) {
    && groups.Keys == NamesOf(seen)
    && forall n :: n in groups ==> groups[n] == IntensitiesOf(seen, n)
  }

  /** One `push` into the name's group (created empty on first sight) keeps the invariant. */
  lemma GroupsStep(groups: map<string, seq<int>>, seen: seq<Emotion>, e: Emotion)
    requires GroupsMatch(groups, seen)
    ensures GroupsMatch(groups[e.name := (if e.name in groups then groups[e.name] else []) + [e.intensity]], seen + [e])
  {
    var s' := seen + [e];
    assert s'[..|seen|] == seen;
    assert NamesOf(s') == NamesOf(seen) + {e.name};
    if e.name !in groups {
      IntensitiesOfUnseen(seen, e.name);
    }
    forall n | n in NamesOf(s') ensures IntensitiesOf(s', n) == IntensitiesOf(seen, n) + (if e.name == n then [e.intensity] else []) {
    }
  }

  /** A name never seen has no intensities. */
  lemma {:induction false} IntensitiesOfUnseen(emotions: seq<Emotion>, name: string)
    requires name !in NamesOf(emotions)
    ensures IntensitiesOf(emotions, name) == []
  {
    if emotions != [] {
      var init := emotions[..|emotions| - 1];
      assert forall f <- init :: f in emotions;
      IntensitiesOfUnseen(init, name);
    }
  }

  /** Entry by entry, the emotions visited are the concatenation of the entries' emotions. */
  lemma AllEmotionsSnoc(entries: seq<DiaryEntryState>, i: int)
    requires 0 <= i < |entries|
    ensures AllEmotions(entries[..i + 1]) == AllEmotions(entries[..i]) + entries[i].emotions
  {
    assert entries[..i + 1][..i] == entries[..i];
  }

  /** The grouped lists, each given its mean and trend, are `EmotionStats`. */
  lemma GroupsGiveStats(groups: map<string, seq<int>>, seen: seq<Emotion>)
    requires GroupsMatch(groups, seen)
    ensures forall n <- groups :: |groups[n]| > 0
    ensures (map n | n in groups :: EmotionTrend(n, Mean(groups[n]), TrendOf(groups[n]))) == EmotionStats(seen)
  {
    forall n <- groups ensures |groups[n]| > 0 {
      IntensitiesOfSeen(seen, n);
    }
  }

  /** `counts` holds the number of occurrences of each id seen so far: the
      loop invariant of `getSkillUsageStats`. */
  ghost predicate CountsMatch(counts: map<string, nat>, seen: seq<string>) {
    && (forall x :: x in counts <==> x in seen)
    && forall x :: x in counts ==> counts[x] == multiset(seen)[x]
  }

  /** One `++` (after initialising a missing count to 0) keeps the invariant. */
  lemma CountsStep(counts: map<string, nat>, seen: seq<string>, id: string)
    requires CountsMatch(counts, seen)
    ensures CountsMatch(counts[id := (if id in counts then counts[id] else 0) + 1], seen + [id])
  {
    assert multiset(seen + [id]) == multiset(seen) + multiset{id};
  }

  lemma AllSkillIdsSnoc(entries: seq<DiaryEntryState>, i: int)
    requires 0 <= i < |entries|
    ensures AllSkillIds(entries[..i + 1]) == AllSkillIds(entries[..i]) + IdsOf(entries[i].skillsUsed)
  {
    assert entries[..i + 1][..i] == entries[..i];
  }

  lemma IdsOfSnoc(refs: seq<SkillReference>, j: int)
    requires 0 <= j < |refs|
    ensures IdsOf(refs[..j + 1]) == IdsOf(refs[..j]) + [refs[j].skillId]
  {
    assert refs[..j + 1][..j] == refs[..j];
  }

  lemma CountsGiveStats(counts: map<string, nat>, seen: seq<string>)
    requires CountsMatch(counts, seen)
    ensures counts == SkillCounts(seen)
  {
  }

  /** The result of `getEmotionStats` over the emotions `emotions` (newest
      entry first): one record per distinct name, with the mean intensity and
      the trend of that name's intensities in that order. */
  function EmotionStats(emotions: seq<Emotion>): (stats: map<string, EmotionTrend>)
    ensures stats.Keys == NamesOf(emotions)
  {
    assert forall n <- NamesOf(emotions) :: |IntensitiesOf(emotions, n)| > 0 by {
      forall n <- NamesOf(emotions) ensures |IntensitiesOf(emotions, n)| > 0 {
        IntensitiesOfSeen(emotions, n);
      }
    }
    map n | n in NamesOf(emotions) ::
      EmotionTrend(n, Mean(IntensitiesOf(emotions, n)), TrendOf(IntensitiesOf(emotions, n)))
  }

  /** The result of `getSkillUsageStats` over the referenced ids `ids`: each
      distinct id with its number of occurrences. */
  function SkillCounts(ids: seq<string>): (counts: map<string, nat>)
    ensures forall id :: id in counts <==> id in ids
    ensures forall id :: id in counts ==> counts[id] == multiset(ids)[id]
  {
    map id | id in ids :: multiset(ids)[id]
  }

  /** No key is listed twice. */
  predicate Distinct(keys: seq<string>) {
    forall i, j :: 0 <= i < j < |keys| ==> keys[i] != keys[j]
  }

  /** The sum of the counts listed under `keys`. */
  function Total(keys: seq<string>, counts: map<string, nat>): nat
    requires forall k <- keys :: k in counts
  {
    if keys == [] then 0 else counts[keys[0]] + Total(keys[1..], counts)
  }

  /** How many elements of `ids` are among `keys`, key by key. */
  ghost function Covered(keys: seq<string>, ids: seq<string>): nat {
    if keys == [] then 0 else multiset(ids)[keys[0]] + Covered(keys[1..], ids)
  }

  lemma {:induction false} CoveredSnoc(keys: seq<string>, ids: seq<string>, x: string)
    requires Distinct(keys)
    ensures Covered(keys, ids + [x]) == Covered(keys, ids) + (if x in keys then 1 else 0)
  {
    if keys != [] {
      assert Distinct(keys[1..]);
      CoveredSnoc(keys[1..], ids, x);
      assert multiset(ids + [x]) == multiset(ids) + multiset{x};
      if x == keys[0] {
        assert x !in keys[1..];
      }
    }
  }

  lemma {:induction false} CoveredAll(keys: seq<string>, ids: seq<string>)
    requires Distinct(keys)
    requires forall id <- ids :: id in keys
    ensures Covered(keys, ids) == |ids|
  {
    if ids == [] {
      CoveredNone(keys);
    } else {
      var init := ids[..|ids| - 1];
      assert ids == init + [ids[|ids| - 1]];
      CoveredAll(keys, init);
      CoveredSnoc(keys, init, ids[|ids| - 1]);
    }
  }

  lemma {:induction false} CoveredNone(keys: seq<string>)
    ensures Covered(keys, []) == 0
  {
    if keys != [] {
      CoveredNone(keys[1..]);
    }
  }

  lemma {:induction false} TotalIsCovered(keys: seq<string>, ids: seq<string>)
    requires forall k <- keys :: k in SkillCounts(ids)
    ensures Total(keys, SkillCounts(ids)) == Covered(keys, ids)
  {
    if keys != [] {
      TotalIsCovered(keys[1..], ids);
    }
  }

  /** Listing each distinct id once, in any order (such as the order
      `Object.entries` yields), the counts sum to the total number of
      skill references. */
  lemma SkillCountsSum(ids: seq<string>, keys: seq<string>)
    requires Distinct(keys) && forall k :: k in keys <==> k in SkillCounts(ids)
    ensures Total(keys, SkillCounts(ids)) == |ids|
  {
    TotalIsCovered(keys, ids);
    assert forall id <- ids :: id in keys by {
      forall id <- ids ensures id in keys {
        assert id in SkillCounts(ids).Keys;
      }
    }
    CoveredAll(keys, ids);
  }

  lemma {:induction false} SumLowerBound(s: seq<int>, lo: int)
    requires forall i :: 0 <= i < |s| ==> lo <= s[i]
    ensures lo * |s| <= Sum(s)
  {
    if s != [] {
      SumLowerBound(s[..|s| - 1], lo);
    }
  }

  lemma {:induction false} SumUpperBound(s: seq<int>, hi: int)
    requires forall i :: 0 <= i < |s| ==> s[i] <= hi
    ensures Sum(s) <= hi * |s|
  {
    if s != [] {
      SumUpperBound(s[..|s| - 1], hi);
    }
  }

  /** The mean lies between any lower and upper bound of the elements, so a
      mean of recorded intensities lies in [0, 10]. */
  lemma MeanBounds(s: seq<int>, lo: int, hi: int)
    requires |s| > 0
    requires forall i :: 0 <= i < |s| ==> lo <= s[i] <= hi
    ensures lo as real <= Mean(s) <= hi as real
  {
    SumLowerBound(s, lo);
    SumUpperBound(s, hi);
    ScaledBounds(lo, hi, Sum(s), |s|);
  }

  /** Dividing `lo * n <= total <= hi * n` by a positive `n`. */
  lemma ScaledBounds(lo: int, hi: int, total: int, n: int)
    requires n > 0 && lo * n <= total <= hi * n
    ensures lo as real <= total as real / n as real <= hi as real
  {
    var q := total as real / n as real;
    assert q * n as real == total as real;
    assert lo as real * n as real == (lo * n) as real;
    assert hi as real * n as real == (hi * n) as real;
  }

  /** An emotion recorded once in the range is always `Stable`. */
  lemma SingleOccurrenceIsStable(x: int)
    ensures TrendOf([x]) == Stable
  {
  }

  /** A list whose first half lies entirely above `hi` and whose second half
      lies entirely below `lo`, with `hi - lo > 0.5`, is `Decreasing`. */
  lemma SeparatedHalvesDecreasing(s: seq<int>, lo: int, hi: int)
    requires |s| >= 2 && (hi - lo) as real > Threshold
    requires forall i :: 0 <= i < |s| / 2 ==> s[i] >= hi
    requires forall i :: |s| / 2 <= i < |s| ==> s[i] <= lo
    ensures TrendOf(s) == Decreasing
  {
    var mid := |s| / 2;
    MeanBounds(s[..mid], hi, Max(hi, MaxOf(s[..mid])));
    MeanBounds(s[mid..], MinOf(s[mid..]), lo);
  }

  /** The mirror image: a low first half and a high second half is `Increasing`. */
  lemma SeparatedHalvesIncreasing(s: seq<int>, lo: int, hi: int)
    requires |s| >= 2 && (hi - lo) as real > Threshold
    requires forall i :: 0 <= i < |s| / 2 ==> s[i] <= lo
    requires forall i :: |s| / 2 <= i < |s| ==> s[i] >= hi
    ensures TrendOf(s) == Increasing
  {
    var mid := |s| / 2;
    MeanBounds(s[..mid], MinOf(s[..mid]), lo);
    MeanBounds(s[mid..], hi, Max(hi, MaxOf(s[mid..])));
  }

  /** `s` lists each later element strictly below each earlier one: read
      newest first, the intensity rose at every entry. */
  predicate StrictlyDecreasing(s: seq<int>) {
    forall i, j :: 0 <= i < j < |s| ==> s[i] > s[j]
  }

  /** The trend rule as written, applied to a newest-first list whose
      intensity rose at every entry: it reports `Decreasing`. */
  lemma RisingIntensityReportedDecreasing(s: seq<int>)
    requires |s| >= 2 && StrictlyDecreasing(s)
    ensures TrendOf(s) == Decreasing
  {
    var mid := |s| / 2;
    SeparatedHalvesDecreasing(s, s[mid], s[mid - 1]);
  }

  /** The list in the opposite order. */
  function Reverse(s: seq<int>): (r: seq<int>)
    ensures |r| == |s| && forall i :: 0 <= i < |s| ==> r[i] == s[|s| - 1 - i]
  {
    seq(|s|, i requires 0 <= i < |s| => s[|s| - 1 - i])
  }

  /** The trend rule applied to the intensities in chronological order
      (oldest first), given them newest first. */
  function ChronologicalTrend(newestFirst: seq<int>): (t: Trend)
    ensures |newestFirst| <= 1 ==> t == Stable
  {
    TrendOf(Reverse(newestFirst))
  }

  /** With the chronological order restored, an intensity that rose at every
      entry is reported `Increasing`. */
  lemma RisingIntensityChronologicallyIncreasing(s: seq<int>)
    requires |s| >= 2 && StrictlyDecreasing(s)
    ensures ChronologicalTrend(s) == Increasing
  {
    var r := Reverse(s);
    var mid := |r| / 2;
    SeparatedHalvesIncreasing(r, r[mid - 1], r[mid]);
  }

  /** Joy logged once a day, rising from 4 to 8 over a week, read newest
      first: the mean is 6 and the rule as written reports `Decreasing`,
      while the chronological rule reports `Increasing`. */
  lemma JoyWeek()
    ensures Mean([8, 7, 6, 6, 6, 5, 4]) == 6.0
    ensures TrendOf([8, 7, 6, 6, 6, 5, 4]) == Decreasing
    ensures ChronologicalTrend([8, 7, 6, 6, 6, 5, 4]) == Increasing
  {
    var s := [8, 7, 6, 6, 6, 5, 4];
    SumOfFour(8, 7, 6, 6);
    SumOfFour(6, 5, 4, 0);
    assert Sum(s) == 42 by {
      SumAppend([8, 7, 6, 6], [6, 5, 4]);
      assert [8, 7, 6, 6] + [6, 5, 4] == s;
      assert [6, 5, 4] == [6, 5, 4, 0][..3];
    }
    assert s[..3] == [8, 7, 6, 6][..3] && s[3..] == [6] + [6, 5, 4];
    SumAppend([6], [6, 5, 4]);
    var r := Reverse(s);
    assert r == [4, 5, 6, 6, 6, 7, 8];
    SumOfFour(4, 5, 6, 6);
    SumOfFour(6, 7, 8, 0);
    assert r[..3] == [4, 5, 6, 6][..3] && r[3..] == [6] + [6, 7, 8];
    SumAppend([6], [6, 7, 8]);
    assert [6, 7, 8] == [6, 7, 8, 0][..3];
    assert [6, 5, 4] == [6, 5, 4, 0][..3];
  }

  lemma {:induction false} SumAppend(a: seq<int>, b: seq<int>)
    ensures Sum(a + b) == Sum(a) + Sum(b)
  {
    if b != [] {
      assert (a + b)[..|a + b| - 1] == a + b[..|b| - 1];
      SumAppend(a, b[..|b| - 1]);
    } else {
      assert a + b == a;
    }
  }

  /** The sums of the first three and of all four of `[a, b, c, d]`. */
  lemma SumOfFour(a: int, b: int, c: int, d: int)
    ensures Sum([a, b, c, d][..3]) == a + b + c
    ensures Sum([a, b, c, d]) == a + b + c + d
    ensures Sum([a]) == a
  {
    var s := [a, b, c, d];
    assert [a][..0] == [];
    assert Sum([a]) == a;
    assert [a, b][..1] == [a];
    assert Sum([a, b]) == a + b;
    assert [a, b, c][..2] == [a, b];
    assert Sum([a, b, c]) == a + b + c;
    assert s[..3] == [a, b, c] && s[..|s| - 1] == [a, b, c];
  }

  function Max(a: int, b: int): int { if a < b then b else a }

  function MaxOf(s: seq<int>): (m: int)
    requires |s| > 0
    ensures forall i :: 0 <= i < |s| ==> s[i] <= m
  {
    if |s| == 1 then s[0] else Max(s[0], MaxOf(s[1..]))
  }

  function MinOf(s: seq<int>): (m: int)
    requires |s| > 0
    ensures forall i :: 0 <= i < |s| ==> m <= s[i]
  {
    if |s| == 1 then s[0] else var r := MinOf(s[1..]); if s[0] < r then s[0] else r
  }
}
